/** The wire values that plugins and the gateway exchange.  A Go pointer that may be nil is an
    `Option`, and a JSON value held in an `any` field is a string or something else. */
module Capabilities {
  import opened Sequences

  datatype Option<+T> = None | Some(value: T)

  datatype Content = Text(text: string) | Opaque

  datatype Choice = Choice(delta: Content, message: Content)

  datatype ChatChunk = ChatChunk(id: string, created: int, choices: seq<Choice>)

  datatype Usage = Usage(input: int, output: int, total: int)

  datatype UpstreamError = UpstreamError(code: string, message: string, httpStatus: int,
                                         retryable: bool, rateLimited: bool)

  datatype ResponseChunk = ResponseChunk(chunk: Option<ChatChunk>, usage: Option<Usage>,
                                         error: Option<UpstreamError>)

  /** A Go error as `errors.As` sees it: it wraps an `UpstreamError`, or it does not. */
  datatype CallError = Upstream(cause: UpstreamError) | Plain(message: string)

  /** The text of an error. */
  function ErrorText(e: CallError): string {
    match e
    case Upstream(u) => u.message
    case Plain(message) => message
  }

  const NO_USAGE := Usage(0, 0, 0)

  /** Whether the fallback loops go on to the next route after `e`. */
  predicate Retryable(e: CallError) {
    match e
    case Upstream(u) => u.retryable || u.rateLimited || u.httpStatus >= 500
    case Plain(_) => true
  }

  /** The text of the delta, then of the message, of every choice in order. */
  function ChoiceText(choices: seq<Choice>): string {
    if choices == [] then ""
    else OneChoiceText(choices[0]) + ChoiceText(choices[1..])
  }

  function OneChoiceText(c: Choice): string {
    ContentText(c.delta) + ContentText(c.message)
  }

  function ContentText(c: Content): string {
    if c.Text? then c.text else ""
  }

  function ChunkText(c: ResponseChunk): string {
    if c.chunk.Some? then ChoiceText(c.chunk.value.choices) else ""
  }

  /** All the text of a chunk sequence, in order. */
  function TextOf(chunks: seq<ResponseChunk>): string {
    if chunks == [] then "" else ChunkText(chunks[0]) + TextOf(chunks[1..])
  }

  /** The usage in force after `chunks`, when `before` was in force at their start. */
  function LastUsage(before: Usage, chunks: seq<ResponseChunk>): Usage
    decreases |chunks|
  {
    if chunks == [] then before
    else LastUsage(if chunks[0].usage.Some? then chunks[0].usage.value else before, chunks[1..])
  }

  predicate ErrorFree(chunks: seq<ResponseChunk>) {
    forall i :: 0 <= i < |chunks| ==> chunks[i].error.None?
  }

  /** The error of the first error chunk. */
  function FirstError(chunks: seq<ResponseChunk>): Option<UpstreamError> {
    if chunks == [] then None
    else if chunks[0].error.Some? then chunks[0].error
    else FirstError(chunks[1..])
  }

  /** No chunk follows an error chunk. */
  predicate ErrorOnlyLast(chunks: seq<ResponseChunk>) {
    forall i :: 0 <= i < |chunks| - 1 ==> chunks[i].error.None?
  }

  lemma ErrorFreeSnoc(a: seq<ResponseChunk>, c: ResponseChunk)
    ensures ErrorFree(a + [c]) <==> ErrorFree(a) && c.error.None?
  {
    assert (a + [c])[|a|] == c;
    assert forall i :: 0 <= i < |a| ==> (a + [c])[i] == a[i];
  }

  lemma {:induction false} ChoiceTextSnoc(a: seq<Choice>, c: Choice)
    ensures ChoiceText(a + [c]) == ChoiceText(a) + OneChoiceText(c)
  {
    if a == [] {
      assert a + [c] == [c];
    } else {
      ChoiceTextSnoc(a[1..], c);
      assert (a + [c])[1..] == a[1..] + [c];
      Associative(OneChoiceText(a[0]), ChoiceText(a[1..]), OneChoiceText(c));
    }
  }

  lemma {:induction false} TextOfSnoc(a: seq<ResponseChunk>, c: ResponseChunk)
    ensures TextOf(a + [c]) == TextOf(a) + ChunkText(c)
  {
    if a == [] {
      assert a + [c] == [c];
    } else {
      TextOfSnoc(a[1..], c);
      assert (a + [c])[1..] == a[1..] + [c];
      Associative(ChunkText(a[0]), TextOf(a[1..]), ChunkText(c));
    }
  }

  /** What the text is, piece by piece: a chunk without choices adds nothing, and one choice more adds
      its delta and then its message, each as far as it is a string. */
  lemma TextGrows(chunks: seq<ResponseChunk>, c: ResponseChunk, choices: seq<Choice>, delta: Content, message: Content)
    ensures TextOf([]) == ""
    ensures c.chunk.None? || c.chunk.value.choices == [] ==> TextOf(chunks + [c]) == TextOf(chunks)
    ensures c.chunk.Some? ==>
              var fewer := c.(chunk := Some(c.chunk.value.(choices := choices)));
              var more := c.(chunk := Some(c.chunk.value.(choices := choices + [Choice(delta, message)])));
              TextOf(chunks + [more])
              == TextOf(chunks + [fewer]) + (if delta.Text? then delta.text else "")
                                          + (if message.Text? then message.text else "")
  {
    TextOfSnoc(chunks, c);
    assert TextOf(chunks) + "" == TextOf(chunks);
    if c.chunk.Some? {
      var one := Choice(delta, message);
      var fewer := c.(chunk := Some(c.chunk.value.(choices := choices)));
      var more := c.(chunk := Some(c.chunk.value.(choices := choices + [one])));
      TextOfSnoc(chunks, fewer);
      TextOfSnoc(chunks, more);
      ChoiceTextSnoc(choices, one);
      Associative(TextOf(chunks), ChoiceText(choices), OneChoiceText(one));
      Associative(TextOf(chunks) + ChoiceText(choices), ContentText(delta), ContentText(message));
    }
  }

  lemma TextOfCons(c: ResponseChunk, rest: seq<ResponseChunk>)
    ensures TextOf([c] + rest) == ChunkText(c) + TextOf(rest)
  {
    assert ([c] + rest)[1..] == rest;
  }

  lemma {:induction false} TextOfAppend(a: seq<ResponseChunk>, b: seq<ResponseChunk>)
    ensures TextOf(a + b) == TextOf(a) + TextOf(b)
  {
    if a == [] {
      assert a + b == b;
    } else {
      TextOfAppend(a[1..], b);
      TextOfCons(a[0], a[1..] + b);
      assert a + b == [a[0]] + (a[1..] + b);
      Associative(ChunkText(a[0]), TextOf(a[1..]), TextOf(b));
    }
  }

  lemma {:induction false} ChoiceTextAppend(a: seq<Choice>, b: seq<Choice>)
    ensures ChoiceText(a + b) == ChoiceText(a) + ChoiceText(b)
  {
    if a == [] {
      assert a + b == b;
    } else {
      ChoiceTextAppend(a[1..], b);
      assert (a + b)[1..] == a[1..] + b;
      Associative(OneChoiceText(a[0]), ChoiceText(a[1..]), ChoiceText(b));
    }
  }

  /** Where a piece of text is: the delta and the message of choice `j` of chunk `i` stand, one after the
      other, right behind the text of everything before that choice. */
  lemma PieceInPlace(chunks: seq<ResponseChunk>, i: nat, j: nat)
    requires i < |chunks| && chunks[i].chunk.Some? && j < |chunks[i].chunk.value.choices|
    ensures var c := chunks[i].chunk.value;
            var before := TextOf(chunks[..i] + [chunks[i].(chunk := Some(c.(choices := c.choices[..j])))]);
            var delta := if c.choices[j].delta.Text? then c.choices[j].delta.text else "";
            var message := if c.choices[j].message.Text? then c.choices[j].message.text else "";
            before + delta + message <= TextOf(chunks)
  {
    var c := chunks[i].chunk.value;
    var fewer := chunks[i].(chunk := Some(c.(choices := c.choices[..j])));
    var upTo := chunks[i].(chunk := Some(c.(choices := c.choices[..j + 1])));
    assert c.choices[..j + 1] == c.choices[..j] + [Choice(c.choices[j].delta, c.choices[j].message)];
    TextGrows(chunks[..i], chunks[i], c.choices[..j], c.choices[j].delta, c.choices[j].message);
    PrefixText(chunks, i, j + 1);
  }

  lemma TextPrefix(a: seq<ResponseChunk>, b: seq<ResponseChunk>)
    ensures TextOf(a) <= TextOf(a + b)
  {
    TextOfAppend(a, b);
  }

  lemma ShorterChunk(chunks: seq<ResponseChunk>, whole: ResponseChunk, part: ResponseChunk, rest: string)
    requires ChunkText(whole) == ChunkText(part) + rest
    ensures TextOf(chunks + [part]) <= TextOf(chunks + [whole])
  {
    TextOfSnoc(chunks, part);
    TextOfSnoc(chunks, whole);
    Associative(TextOf(chunks), ChunkText(part), rest);
  }

  lemma PrefixOfWhole(chunks: seq<ResponseChunk>, i: nat)
    requires i < |chunks|
    ensures TextOf(chunks[..i] + [chunks[i]]) <= TextOf(chunks)
  {
    assert chunks == (chunks[..i] + [chunks[i]]) + chunks[i + 1..];
    TextPrefix(chunks[..i] + [chunks[i]], chunks[i + 1..]);
  }

  lemma PrefixText(chunks: seq<ResponseChunk>, i: nat, j: nat)
    requires i < |chunks| && chunks[i].chunk.Some? && j <= |chunks[i].chunk.value.choices|
    ensures var c := chunks[i].chunk.value;
            TextOf(chunks[..i] + [chunks[i].(chunk := Some(c.(choices := c.choices[..j])))]) <= TextOf(chunks)
  {
    var c := chunks[i].chunk.value;
    var part := chunks[i].(chunk := Some(c.(choices := c.choices[..j])));
    assert c.choices == c.choices[..j] + c.choices[j..];
    ChoiceTextAppend(c.choices[..j], c.choices[j..]);
    ShorterChunk(chunks[..i], chunks[i], part, ChoiceText(c.choices[j..]));
    PrefixOfWhole(chunks, i);
  }

  lemma {:induction false} LastUsageSnoc(u: Usage, a: seq<ResponseChunk>, c: ResponseChunk)
    ensures LastUsage(u, a + [c]) == if c.usage.Some? then c.usage.value else LastUsage(u, a)
    decreases |a|
  {
    if a == [] {
      assert a + [c] == [c];
    } else {
      var v := if a[0].usage.Some? then a[0].usage.value else u;
      LastUsageSnoc(v, a[1..], c);
      assert (a + [c])[1..] == a[1..] + [c];
    }
  }

  lemma {:induction false} FirstErrorPrefix(a: seq<ResponseChunk>, b: seq<ResponseChunk>)
    ensures ErrorFree(a) ==> FirstError(a + b) == FirstError(b) && FirstError(a) == None
    ensures !ErrorFree(a) ==> FirstError(a + b) == FirstError(a) && FirstError(a).Some?
  {
    if a == [] {
      assert a + b == b;
    } else {
      FirstErrorPrefix(a[1..], b);
      assert (a + b)[1..] == a[1..] + b;
      assert a == [a[0]] + a[1..];
    }
  }

  /** What "last" means: the usage of the last chunk that carries one, if any does. */
  lemma {:induction false} LastUsageMeaning(u: Usage, a: seq<ResponseChunk>)
    ensures (forall i :: 0 <= i < |a| ==> a[i].usage.None?) ==> LastUsage(u, a) == u
    ensures forall k :: 0 <= k < |a| && a[k].usage.Some? && (forall i :: k < i < |a| ==> a[i].usage.None?)
              ==> LastUsage(u, a) == a[k].usage.value
    decreases |a|
  {
    if a != [] {
      var n := |a| - 1;
      assert a == a[..n] + [a[n]];
      LastUsageSnoc(u, a[..n], a[n]);
      LastUsageMeaning(u, a[..n]);
    }
  }
}
