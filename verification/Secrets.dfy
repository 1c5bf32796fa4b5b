/** Secret resolution in plugin configuration (internal/secrets/provider.go): a rewrite of a JSON-like
    tree that records the secrets it meets. */
module Secrets {
  import opened Capabilities

  /** A decoded JSON value; numbers, booleans and null are passed through and are all alike here. */
  datatype Value = Obj(fields: map<string, Value>) | Arr(items: seq<Value>) | Str(text: string) | Other(tag: int)

  // ---------------------------------------------------------------- references

  const PREFIX := "${secret:"

  /** The white space that `strings.TrimSpace` removes. */
  predicate IsSpace(c: char) {
    || '\t' <= c <= '\r' || c == ' ' || c == '\U{0085}' || c == '\U{00A0}' || c == '\U{1680}'
    || '\U{2000}' <= c <= '\U{200A}' || c == '\U{2028}' || c == '\U{2029}' || c == '\U{202F}'
    || c == '\U{205F}' || c == '\U{3000}'
  }

  predicate IsNameChar(c: char) {
    'A' <= c <= 'Z' || 'a' <= c <= 'z' || '0' <= c <= '9' || c in "_./-"
  }

  predicate IsName(s: string) {
    s != "" && forall c :: c in s ==> IsNameChar(c)
  }

  function TrimLeft(s: string): string {
    if s != "" && IsSpace(s[0]) then TrimLeft(s[1..]) else s
  }

  function TrimRight(s: string): string {
    if s != "" && IsSpace(s[|s| - 1]) then TrimRight(s[..|s| - 1]) else s
  }

  function TrimSpace(s: string): string { TrimRight(TrimLeft(s)) }

  /** `IsSecretRef`: the anchored expression `${secret:NAME}`. */
  function IsSecretRef(s: string): (name: Option<string>)
    ensures forall n :: name == Some(n) <==> s == PREFIX + n + "}" && IsName(n)
  {
    if |s| > |PREFIX| && PREFIX <= s && s[|s| - 1] == '}' && IsName(s[|PREFIX|..|s| - 1]) then
      assert s == PREFIX + s[|PREFIX|..|s| - 1] + "}";
      Some(s[|PREFIX|..|s| - 1])
    else
      assert forall n :: (PREFIX + n + "}")[|PREFIX|..|PREFIX + n + "}"| - 1] == n;
      assert forall n :: PREFIX <= PREFIX + n + "}" && (PREFIX + n + "}")[|PREFIX + n + "}"| - 1] == '}';
      None
  }

  /** The secret a string leaf refers to, surrounding white space aside. */
  function Ref(s: string): Option<string> { IsSecretRef(TrimSpace(s)) }

  predicate AllSpace(s: string) { forall c :: c in s ==> IsSpace(c) }

  lemma {:induction false} TrimLeftSplits(s: string)
    ensures exists a :: s == a + TrimLeft(s) && AllSpace(a)
    ensures TrimLeft(s) != "" ==> !IsSpace(TrimLeft(s)[0])
  {
    if s != "" && IsSpace(s[0]) {
      TrimLeftSplits(s[1..]);
      var a :| s[1..] == a + TrimLeft(s[1..]) && AllSpace(a);
      assert s == ([s[0]] + a) + TrimLeft(s) && AllSpace([s[0]] + a);
    } else {
      assert s == "" + TrimLeft(s) && AllSpace("");
    }
  }

  lemma {:induction false} TrimRightSplits(s: string)
    ensures exists b :: s == TrimRight(s) + b && AllSpace(b)
    ensures TrimRight(s) != "" ==> !IsSpace(TrimRight(s)[|TrimRight(s)| - 1])
    ensures TrimRight(s) <= s
    decreases |s|
  {
    if s != "" && IsSpace(s[|s| - 1]) {
      var n := |s| - 1;
      TrimRightSplits(s[..n]);
      var b :| s[..n] == TrimRight(s[..n]) + b && AllSpace(b);
      assert s == TrimRight(s) + (b + [s[n]]) && AllSpace(b + [s[n]]);
    } else {
      assert s == TrimRight(s) + "" && AllSpace("");
    }
  }

  /** `TrimSpace` removes white space at both ends, all of it, and nothing else. */
  lemma TrimSpaceMeaning(s: string)
    ensures exists a, b :: s == a + TrimSpace(s) + b && AllSpace(a) && AllSpace(b)
    ensures var t := TrimSpace(s); t != "" ==> !IsSpace(t[0]) && !IsSpace(t[|t| - 1])
  {
    TrimLeftSplits(s);
    TrimRightSplits(TrimLeft(s));
    var a :| s == a + TrimLeft(s) && AllSpace(a);
    var b :| TrimLeft(s) == TrimSpace(s) + b && AllSpace(b);
    assert s == a + TrimSpace(s) + b;
  }

  /** The characters by code point: which are white space, and which a name may have. */
  lemma CharactersAre(c: char)
    ensures var n := c as int;
            && (IsSpace(c) <==> 9 <= n <= 13 || n == 32 || n == 0x85 || n == 0xA0 || n == 0x1680
                                || 0x2000 <= n <= 0x200A || n == 0x2028 || n == 0x2029 || n == 0x202F
                                || n == 0x205F || n == 0x3000)
            && (IsNameChar(c) <==> 65 <= n <= 90 || 97 <= n <= 122 || 48 <= n <= 57 || n == 95 || 45 <= n <= 47)
  {
    assert c in "_./-" <==> c == '_' || c == '.' || c == '/' || c == '-';
  }

  /** Which strings are references: white space, the form `${secret:NAME}` with a well-formed name, and
      white space again. */
  lemma RefMeans(s: string, n: string)
    ensures Ref(s) == Some(n) <==>
              && n != "" && (forall c :: c in n ==> IsNameChar(c))
              && exists a, b :: AllSpace(a) && AllSpace(b) && s == a + ("${secret:" + n + "}") + b
  {
    var core := "${secret:" + n + "}";
    TrimSpaceMeaning(s);
    if Ref(s) == Some(n) {
      var a, b :| s == a + TrimSpace(s) + b && AllSpace(a) && AllSpace(b);
      assert TrimSpace(s) == core;
    }
    if IsName(n) && exists a, b :: AllSpace(a) && AllSpace(b) && s == a + core + b {
      var a, b :| AllSpace(a) && AllSpace(b) && s == a + core + b;
      TrimUnique(a, core, b);
    }
  }

  lemma {:induction false} TrimLeftAll(a: string, t: string)
    requires AllSpace(a) && t != "" && !IsSpace(t[0])
    ensures TrimLeft(a + t) == t
  {
    if a == "" {
      assert a + t == t;
    } else {
      assert (a + t)[0] in a && (a + t)[1..] == a[1..] + t;
      TrimLeftAll(a[1..], t);
    }
  }

  lemma {:induction false} TrimRightAll(t: string, b: string)
    requires AllSpace(b) && t != "" && !IsSpace(t[|t| - 1])
    ensures TrimRight(t + b) == t
    decreases |b|
  {
    if b == "" {
      assert t + b == t;
    } else {
      var n := |b| - 1;
      assert (t + b)[|t + b| - 1] in b && (t + b)[..|t + b| - 1] == t + b[..n];
      assert forall c :: c in b[..n] ==> c in b;
      TrimRightAll(t, b[..n]);
    }
  }

  /** Trimming finds the one core that neither begins nor ends with white space. */
  lemma TrimUnique(a: string, t: string, b: string)
    requires AllSpace(a) && AllSpace(b) && t != "" && !IsSpace(t[0]) && !IsSpace(t[|t| - 1])
    ensures TrimSpace(a + t + b) == t
  {
    assert a + t + b == a + (t + b) && (t + b)[0] == t[0];
    TrimLeftAll(a, t + b);
    TrimRightAll(t, b);
  }

  // ---------------------------------------------------------------- what the rewrite means

  /** The secrets a plugin may use, and a deterministic provider. */
  datatype Env = Env(allowed: set<string>, resolve: string -> Option<string>)

  predicate Usable(env: Env, name: string) {
    name in env.allowed && env.resolve(name).Some?
  }

  datatype Error = NotPermitted(name: string) | Unresolved(name: string)

  /** Why a string leaf cannot be resolved, if it cannot. */
  function LeafError(env: Env, s: string): Option<Error> {
    match Ref(s)
    case None => None
    case Some(n) =>
      if n !in env.allowed then Some(NotPermitted(n))
      else if env.resolve(n).None? then Some(Unresolved(n))
      else None
  }

  function LeafValue(env: Env, s: string): string {
    match Ref(s)
    case Some(n) => if env.resolve(n).Some? then env.resolve(n).value else s
    case None => s
  }

  /** The errors of all leaves; there is nothing to choose between them but the order of the walk. */
  function Errors(env: Env, v: Value): set<Error> {
    match v
    case Obj(fields) => set k, e | k in fields && e in Errors(env, fields[k]) :: e
    case Arr(items) => set i, e | 0 <= i < |items| && e in Errors(env, items[i]) :: e
    case Str(s) => if LeafError(env, s).Some? then {LeafError(env, s).value} else {}
    case Other(_) => {}
  }

  /** The names referred to. */
  function Names(v: Value): set<string> {
    match v
    case Obj(fields) => set k, n | k in fields && n in Names(fields[k]) :: n
    case Arr(items) => set i, n | 0 <= i < |items| && n in Names(items[i]) :: n
    case Str(s) => if Ref(s).Some? then {Ref(s).value} else {}
    case Other(_) => {}
  }

  function Rewrite(env: Env, v: Value): Value {
    match v
    case Obj(fields) => Obj(map k | k in fields :: Rewrite(env, fields[k]))
    case Arr(items) => Arr(seq(|items|, i requires 0 <= i < |items| => Rewrite(env, items[i])))
    case Str(s) => Str(LeafValue(env, s))
    case Other(_) => v
  }

  /** The secrets of the given names. */
  function Recorded(env: Env, names: set<string>): map<string, string> {
    map n | n in names && env.resolve(n).Some? :: env.resolve(n).value
  }

  // ---------------------------------------------------------------- the rewrite as the code runs it

  datatype Result = Ok(value: Value) | Err(error: Error)

  /** The map of resolved secrets that the recursion shares. */
  class Recorder {
    var secrets: map<string, string>

    constructor ()
      ensures secrets == map[]
    {
      secrets := map[];
    }
  }

  /** `resolveValue`: whatever order the keys of an object come in, it succeeds exactly when no leaf is
      in error, and then the value and the recorded secrets are the same; otherwise it reports the
      error of one of the leaves. */
  method ResolveValue(v: Value, env: Env, recorder: Recorder) returns (r: Result)
    modifies recorder
    ensures r.Ok? <==> Errors(env, v) == {}
    ensures r.Ok? ==> r.value == Rewrite(env, v)
    ensures r.Ok? ==> recorder.secrets == old(recorder.secrets) + Recorded(env, Names(v))
    ensures r.Err? ==> r.error in Errors(env, v)
    decreases v, 1
  {
    match v {
      case Obj(fields) =>
        r := ResolveFields(v, fields, env, recorder);
      case Arr(items) =>
        r := ResolveItems(v, items, env, recorder);
      case Str(s) =>
        var name := Ref(s);
        if name.None? {
          assert Recorded(env, Names(v)) == map[];
          return Ok(v);
        }
        if name.value !in env.allowed {
          return Err(NotPermitted(name.value));
        }
        var secret := env.resolve(name.value);
        if secret.None? {
          return Err(Unresolved(name.value));
        }
        recorder.secrets := recorder.secrets[name.value := secret.value];
        assert Recorded(env, Names(v)) == map[name.value := secret.value];
        return Ok(Str(secret.value));
      case Other(_) =>
        assert Recorded(env, Names(v)) == map[];
        return Ok(v);
    }
  }

  /** The names in the fields already visited. */
  ghost function NamesIn(fields: map<string, Value>, keys: set<string>): set<string> {
    set k, n | k in keys && k in fields && n in Names(fields[k]) :: n
  }

  method ResolveFields(ghost whole: Value, fields: map<string, Value>, env: Env, recorder: Recorder) returns (r: Result)
    requires whole == Obj(fields)
    modifies recorder
    ensures r.Ok? <==> Errors(env, whole) == {}
    ensures r.Ok? ==> r.value == Rewrite(env, whole)
    ensures r.Ok? ==> recorder.secrets == old(recorder.secrets) + Recorded(env, Names(whole))
    ensures r.Err? ==> r.error in Errors(env, whole)
    decreases whole, 0
  {
    var out: map<string, Value> := map[];
    var rest := fields.Keys;
    while rest != {}
      invariant rest <= fields.Keys && out.Keys == fields.Keys - rest
      invariant forall k :: k in out ==> Errors(env, fields[k]) == {} && out[k] == Rewrite(env, fields[k])
      invariant recorder.secrets == old(recorder.secrets) + Recorded(env, NamesIn(fields, out.Keys))
      decreases rest
    {
      var k :| k in rest;
      var one := ResolveField(whole, fields, k, out.Keys, old(recorder.secrets), env, recorder);
      if one.Err? {
        return one;
      }
      assert out.Keys + {k} == fields.Keys - (rest - {k});
      out := out[k := one.value];
      rest := rest - {k};
    }
    FieldsDone(env, fields, out);
    r := Ok(Obj(out));
  }

  /** One turn of the loop: the field `k`, after the fields `keys`. */
  method ResolveField(ghost whole: Value, fields: map<string, Value>, k: string, ghost keys: set<string>,
                      ghost before: map<string, string>, env: Env, recorder: Recorder) returns (r: Result)
    requires whole == Obj(fields) && k in fields
    requires recorder.secrets == before + Recorded(env, NamesIn(fields, keys))
    modifies recorder
    ensures r.Ok? ==> Errors(env, fields[k]) == {} && r.value == Rewrite(env, fields[k])
    ensures r.Ok? ==> recorder.secrets == before + Recorded(env, NamesIn(fields, keys + {k}))
    ensures r.Err? ==> r.error in Errors(env, whole)
    decreases fields[k], 2
  {
    r := ResolveValue(fields[k], env, recorder);
    if r.Err? {
      FieldError(env, fields, k, r.error);
    } else {
      RecordedField(env, fields, keys, k, before);
    }
  }

  lemma FieldError(env: Env, fields: map<string, Value>, k: string, e: Error)
    requires k in fields && e in Errors(env, fields[k])
    ensures e in Errors(env, Obj(fields))
  {
  }

  lemma RecordedField(env: Env, fields: map<string, Value>, keys: set<string>, k: string, before: map<string, string>)
    requires k in fields
    ensures before + Recorded(env, NamesIn(fields, keys)) + Recorded(env, Names(fields[k]))
         == before + Recorded(env, NamesIn(fields, keys + {k}))
  {
    assert NamesIn(fields, keys + {k}) == NamesIn(fields, keys) + Names(fields[k]);
    RecordedMore(env, before, NamesIn(fields, keys), Names(fields[k]));
  }

  lemma FieldsDone(env: Env, fields: map<string, Value>, out: map<string, Value>)
    requires out.Keys == fields.Keys
    requires forall k :: k in out ==> Errors(env, fields[k]) == {} && out[k] == Rewrite(env, fields[k])
    ensures Obj(out) == Rewrite(env, Obj(fields)) && Errors(env, Obj(fields)) == {}
    ensures NamesIn(fields, out.Keys) == Names(Obj(fields))
  {
    assert out == (map k | k in fields :: Rewrite(env, fields[k]));
  }

  method ResolveItems(ghost whole: Value, items: seq<Value>, env: Env, recorder: Recorder) returns (r: Result)
    requires whole == Arr(items)
    modifies recorder
    ensures r.Ok? <==> Errors(env, whole) == {}
    ensures r.Ok? ==> r.value == Rewrite(env, whole)
    ensures r.Ok? ==> recorder.secrets == old(recorder.secrets) + Recorded(env, Names(whole))
    ensures r.Err? ==> r.error in Errors(env, whole)
    decreases whole, 0
  {
    var out: seq<Value> := [];
    for i := 0 to |items|
      invariant |out| == i
      invariant forall j :: 0 <= j < i ==> Errors(env, items[j]) == {} && out[j] == Rewrite(env, items[j])
      invariant recorder.secrets == old(recorder.secrets) + Recorded(env, NamesBefore(items, i))
    {
      var one := ResolveValue(items[i], env, recorder);
      if one.Err? {
        ItemError(env, items, i, one.error);
        return one;
      }
      RecordedItem(env, items, i, old(recorder.secrets));
      out := out + [one.value];
    }
    ItemsDone(env, items, out);
    r := Ok(Arr(out));
  }

  /** The names in the items before number `n`. */
  ghost function NamesBefore(items: seq<Value>, n: nat): set<string>
    requires n <= |items|
  {
    set j, name | 0 <= j < n && name in Names(items[j]) :: name
  }

  lemma ItemError(env: Env, items: seq<Value>, i: nat, e: Error)
    requires i < |items| && e in Errors(env, items[i])
    ensures e in Errors(env, Arr(items))
  {
  }

  lemma RecordedItem(env: Env, items: seq<Value>, i: nat, before: map<string, string>)
    requires i < |items|
    ensures before + Recorded(env, NamesBefore(items, i)) + Recorded(env, Names(items[i]))
         == before + Recorded(env, NamesBefore(items, i + 1))
  {
    assert NamesBefore(items, i + 1) == NamesBefore(items, i) + Names(items[i]);
    RecordedMore(env, before, NamesBefore(items, i), Names(items[i]));
  }

  lemma ItemsDone(env: Env, items: seq<Value>, out: seq<Value>)
    requires |out| == |items|
    requires forall j :: 0 <= j < |items| ==> Errors(env, items[j]) == {} && out[j] == Rewrite(env, items[j])
    ensures Arr(out) == Rewrite(env, Arr(items)) && Errors(env, Arr(items)) == {}
    ensures NamesBefore(items, |items|) == Names(Arr(items))
  {
    assert out == Rewrite(env, Arr(items)).items;
  }

  lemma RecordedMore(env: Env, before: map<string, string>, a: set<string>, b: set<string>)
    ensures before + Recorded(env, a) + Recorded(env, b) == before + Recorded(env, a + b)
  {
    var x, y := before + Recorded(env, a) + Recorded(env, b), before + Recorded(env, a + b);
    assert x.Keys == y.Keys;
    assert forall n :: n in x.Keys ==> x[n] == y[n];
  }

  /** The names a plugin may use, as a set. */
  method Allowed(permitted: seq<string>) returns (allowed: set<string>)
    ensures allowed == set n | n in permitted
    ensures forall n :: n in allowed <==> n in permitted
  {
    allowed := {};
    for i := 0 to |permitted|
      invariant allowed == set n | n in permitted[..i]
    {
      allowed := allowed + {permitted[i]};
      assert permitted[..i + 1] == permitted[..i] + [permitted[i]];
    }
    assert permitted[..|permitted|] == permitted;
  }

  /** `ResolvePluginSecrets`: on success the rewritten configuration and exactly the secrets it
      refers to; on failure nothing, and the error of some leaf. */
  method ResolvePluginSecrets(config: map<string, Value>, permitted: seq<string>, resolve: string -> Option<string>)
    returns (out: Option<map<string, Value>>, secrets: map<string, string>, error: Option<Error>)
    ensures var env, v := Env((set n | n in permitted), resolve), Obj(config);
            && (out.Some? <==> Errors(env, v) == {}) && (out.Some? <==> error.None?)
            && (out.Some? ==> Obj(out.value) == Rewrite(env, v) && secrets == Recorded(env, Names(v)))
            && (error.Some? ==> secrets == map[] && error.value in Errors(env, v))
    ensures out.Some? ==>
              && (forall n :: n in secrets <==> Refers(Obj(config), n))
              && (forall n :: n in secrets ==> resolve(n) == Some(secrets[n]))
    ensures out.Some? <==> forall n :: Refers(Obj(config), n) ==> n in permitted && resolve(n).Some?
    ensures error.Some? ==>
              && Refers(Obj(config), error.value.name)
              && (error.value.NotPermitted? <==> error.value.name !in permitted)
              && (error.value.Unresolved? ==> resolve(error.value.name) == None)
  {
    var allowed := Allowed(permitted);
    out, secrets, error := ResolveAll(config, Env(allowed, resolve));
    ResolutionMeans(Env(allowed, resolve), Obj(config));
  }

  method ResolveAll(config: map<string, Value>, env: Env)
    returns (out: Option<map<string, Value>>, secrets: map<string, string>, error: Option<Error>)
    ensures out.Some? <==> Errors(env, Obj(config)) == {}
    ensures out.Some? <==> error.None?
    ensures out.Some? ==>
              Obj(out.value) == Rewrite(env, Obj(config)) && secrets == Recorded(env, Names(Obj(config)))
    ensures error.Some? ==> secrets == map[] && error.value in Errors(env, Obj(config))
  {
    var recorder := new Recorder();
    var r := ResolveValue(Obj(config), env, recorder);
    match r {
      case Err(e) => return None, map[], Some(e);
      case Ok(v) =>
        assert map[] + recorder.secrets == recorder.secrets;
        return Some(v.fields), recorder.secrets, None;
    }
  }

  // ---------------------------------------------------------------- what the rewrite keeps

  datatype Edge = Key(name: string) | Index(index: nat)

  /** The value at the end of a path, if the path exists. */
  function At(v: Value, path: seq<Edge>): Option<Value> {
    if path == [] then Some(v)
    else match (v, path[0])
         case (Obj(fields), Key(k)) => if k in fields then At(fields[k], path[1..]) else None
         case (Arr(items), Index(i)) => if i < |items| then At(items[i], path[1..]) else None
         case _ => None
  }

  /** The rewrite is local: it has the same paths, and at the end of each the rewritten value. */
  lemma {:induction false} RewriteIsLocal(env: Env, v: Value, path: seq<Edge>)
    ensures At(Rewrite(env, v), path) == match At(v, path) case None => None case Some(x) => Some(Rewrite(env, x))
    decreases |path|
  {
    if path != [] {
      match (v, path[0])
      case (Obj(fields), Key(k)) => if k in fields { RewriteIsLocal(env, fields[k], path[1..]); }
      case (Arr(items), Index(i)) => if i < |items| { RewriteIsLocal(env, items[i], path[1..]); }
      case _ =>
    }
  }

  /** So shape and keys stay, and so does every leaf that is not a reference, white space included; a
      reference becomes its secret. */
  lemma ShapeKept(env: Env, v: Value, path: seq<Edge>)
    ensures match At(v, path)
            case None => At(Rewrite(env, v), path) == None
            case Some(Obj(fields)) =>
              exists out :: At(Rewrite(env, v), path) == Some(Obj(out)) && out.Keys == fields.Keys
            case Some(Arr(items)) =>
              exists out :: At(Rewrite(env, v), path) == Some(Arr(out)) && |out| == |items|
            case Some(Str(s)) =>
              At(Rewrite(env, v), path)
              == Some(Str(if Ref(s).Some? && env.resolve(Ref(s).value).Some?
                          then env.resolve(Ref(s).value).value else s))
            case Some(Other(t)) => At(Rewrite(env, v), path) == Some(Other(t))
  {
    RewriteIsLocal(env, v, path);
    match At(v, path)
    case Some(Obj(fields)) =>
      assert At(Rewrite(env, v), path) == Some(Obj(Rewrite(env, Obj(fields)).fields));
      assert Rewrite(env, Obj(fields)).fields.Keys == fields.Keys;
    case Some(Arr(items)) =>
      assert At(Rewrite(env, v), path) == Some(Arr(Rewrite(env, Arr(items)).items));
    case _ =>
  }

  /** Some string leaf refers to `n`. */
  ghost predicate Refers(v: Value, n: string) {
    exists path, s :: At(v, path) == Some(Str(s)) && Ref(s) == Some(n)
  }

  lemma {:induction false} LeafNames(v: Value, path: seq<Edge>, s: string, n: string)
    requires At(v, path) == Some(Str(s)) && Ref(s) == Some(n)
    ensures n in Names(v)
    decreases |path|
  {
    if path != [] {
      match (v, path[0])
      case (Obj(fields), Key(k)) => LeafNames(fields[k], path[1..], s, n);
      case (Arr(items), Index(i)) => LeafNames(items[i], path[1..], s, n);
    }
  }

  lemma {:induction false} NamesLeaf(v: Value, n: string) returns (path: seq<Edge>, s: string)
    requires n in Names(v)
    ensures At(v, path) == Some(Str(s)) && Ref(s) == Some(n)
  {
    match v
    case Obj(fields) =>
      var k :| k in fields && n in Names(fields[k]);
      var p;
      p, s := NamesLeaf(fields[k], n);
      path := [Key(k)] + p;
      assert path[1..] == p;
    case Arr(items) =>
      var i: nat :| i < |items| && n in Names(items[i]);
      var p;
      p, s := NamesLeaf(items[i], n);
      path := [Index(i)] + p;
      assert path[1..] == p;
    case Str(text) =>
      path, s := [], text;
  }

  /** The recorded names are exactly those referred to somewhere in the tree. */
  lemma NamesAreReferences(v: Value, n: string)
    ensures n in Names(v) <==> Refers(v, n)
  {
    if n in Names(v) {
      var path, s := NamesLeaf(v, n);
    }
    if Refers(v, n) {
      var path, s :| At(v, path) == Some(Str(s)) && Ref(s) == Some(n);
      LeafNames(v, path, s, n);
    }
  }

  lemma {:induction false} UnusableIsError(env: Env, v: Value, n: string) returns (e: Error)
    requires n in Names(v) && !Usable(env, n)
    ensures e in Errors(env, v)
  {
    match v
    case Obj(fields) =>
      var k :| k in fields && n in Names(fields[k]);
      e := UnusableIsError(env, fields[k], n);
    case Arr(items) =>
      var i: nat :| i < |items| && n in Names(items[i]);
      e := UnusableIsError(env, items[i], n);
    case Str(s) =>
      e := LeafError(env, s).value;
  }

  lemma {:induction false} ErrorIsUnusable(env: Env, v: Value, e: Error) returns (n: string)
    requires e in Errors(env, v)
    ensures n in Names(v) && !Usable(env, n)
  {
    match v
    case Obj(fields) =>
      var k :| k in fields && e in Errors(env, fields[k]);
      n := ErrorIsUnusable(env, fields[k], e);
    case Arr(items) =>
      var i: nat :| i < |items| && e in Errors(env, items[i]);
      n := ErrorIsUnusable(env, items[i], e);
    case Str(s) =>
      n := Ref(s).value;
  }

  lemma ErrorsAreNames(env: Env, v: Value)
    ensures Errors(env, v) == {} <==> forall n :: n in Names(v) ==> Usable(env, n)
  {
    forall n | n in Names(v) && !Usable(env, n) ensures Errors(env, v) != {} {
      var e := UnusableIsError(env, v, n);
    }
    forall e | e in Errors(env, v) ensures exists n :: n in Names(v) && !Usable(env, n) {
      var n := ErrorIsUnusable(env, v, e);
    }
  }

  /** Resolution succeeds if and only if every referenced name is permitted and resolvable. */
  lemma SucceedsIff(env: Env, v: Value)
    ensures Errors(env, v) == {} <==> forall n :: Refers(v, n) ==> Usable(env, n)
  {
    ErrorsAreNames(env, v);
    forall n { NamesAreReferences(v, n); }
  }

  /** What is recorded, and what an error says, in terms of the leaves and the provider alone. */
  lemma ResolutionMeans(env: Env, v: Value)
    ensures Errors(env, v) == {} ==>
              && (forall n :: n in Recorded(env, Names(v)) <==> Refers(v, n))
              && (forall n :: n in Recorded(env, Names(v)) ==> env.resolve(n) == Some(Recorded(env, Names(v))[n]))
    ensures Errors(env, v) == {} <==> forall n :: Refers(v, n) ==> n in env.allowed && env.resolve(n).Some?
    ensures forall e :: e in Errors(env, v) ==>
              && Refers(v, e.name) && (e.NotPermitted? <==> e.name !in env.allowed)
              && (e.Unresolved? ==> env.resolve(e.name) == None)
  {
    SucceedsIff(env, v);
    ErrorsAreNames(env, v);
    forall n { NamesAreReferences(v, n); }
    forall e | e in Errors(env, v)
      ensures e.name in Names(v) && (e.NotPermitted? <==> e.name !in env.allowed)
      ensures e.Unresolved? ==> env.resolve(e.name) == None
    {
      ErrorMeans(env, v, e);
    }
  }

  lemma {:induction false} ErrorMeans(env: Env, v: Value, e: Error)
    requires e in Errors(env, v)
    ensures e.name in Names(v) && (e.NotPermitted? <==> e.name !in env.allowed)
    ensures e.Unresolved? ==> env.resolve(e.name) == None
  {
    match v
    case Obj(fields) =>
      var k :| k in fields && e in Errors(env, fields[k]);
      ErrorMeans(env, fields[k], e);
    case Arr(items) =>
      var i: nat :| i < |items| && e in Errors(env, items[i]);
      ErrorMeans(env, items[i], e);
    case Str(s) =>
  }

  // ---------------------------------------------------------------- a second pass

  /** Resolving the string once more succeeds and changes nothing. */
  predicate Stable(env: Env, s: string) {
    LeafError(env, s).None? && LeafValue(env, s) == s
  }

  ghost predicate SecretsStable(env: Env, v: Value) {
    forall n :: n in Names(v) && env.resolve(n).Some? ==> Stable(env, env.resolve(n).value)
  }

  /** The second pass succeeds and is the identity. */
  ghost predicate Settled(env: Env, v: Value) {
    Errors(env, Rewrite(env, v)) == {} && Rewrite(env, Rewrite(env, v)) == Rewrite(env, v)
  }

  lemma SettledObject(env: Env, fields: map<string, Value>)
    ensures Settled(env, Obj(fields)) <==> forall k :: k in fields ==> Settled(env, fields[k])
  {
    var once := Rewrite(env, Obj(fields));
    var twice := Rewrite(env, once);
    assert forall k :: k in fields ==>
             once.fields[k] == Rewrite(env, fields[k]) && twice.fields[k] == Rewrite(env, once.fields[k]);
    assert forall k, e :: k in fields && e in Errors(env, once.fields[k]) ==> e in Errors(env, once);
    if forall k :: k in fields ==> Settled(env, fields[k]) {
      assert twice.fields == once.fields;
    }
  }

  lemma SettledArray(env: Env, items: seq<Value>)
    ensures Settled(env, Arr(items)) <==> forall i :: 0 <= i < |items| ==> Settled(env, items[i])
  {
    var once := Rewrite(env, Arr(items));
    var twice := Rewrite(env, once);
    assert forall i :: 0 <= i < |items| ==>
             once.items[i] == Rewrite(env, items[i]) && twice.items[i] == Rewrite(env, once.items[i]);
    assert forall i, e :: 0 <= i < |items| && e in Errors(env, once.items[i]) ==> e in Errors(env, once);
    if forall i :: 0 <= i < |items| ==> Settled(env, items[i]) {
      assert twice.items == once.items;
    }
  }

  /** A second pass is the identity if and only if every secret used is itself stable. */
  lemma {:induction false} SecondPass(env: Env, v: Value)
    requires Errors(env, v) == {}
    ensures Settled(env, v) <==> SecretsStable(env, v)
  {
    ErrorsAreNames(env, v);
    match v
    case Obj(fields) =>
      SettledObject(env, fields);
      assert forall k, e :: k in fields && e in Errors(env, fields[k]) ==> e in Errors(env, v);
      assert forall k, n :: k in fields && n in Names(fields[k]) ==> n in Names(v);
      forall k | k in fields { SecondPass(env, fields[k]); }
    case Arr(items) =>
      SettledArray(env, items);
      assert forall i, e :: 0 <= i < |items| && e in Errors(env, items[i]) ==> e in Errors(env, v);
      assert forall i, n :: 0 <= i < |items| && n in Names(items[i]) ==> n in Names(v);
      forall i | 0 <= i < |items| { SecondPass(env, items[i]); }
    case Str(s) =>
    case Other(_) =>
  }

  /** In particular when no secret is itself a reference. */
  lemma SecondPassIsIdentity(env: Env, v: Value)
    requires Errors(env, v) == {}
    requires forall n :: n in Names(v) && env.resolve(n).Some? ==> Ref(env.resolve(n).value) == None
    ensures Settled(env, v)
  {
    SecondPass(env, v);
  }
}
