/** Folding a provider's chunk stream into one response (internal/pipeline/pipeline.go). */
module Collect {
  import opened Capabilities
  import opened Sequences

  datatype Response = Response(id: string, created: int, model: string, content: string, usage: Option<Usage>)

  datatype Collected = Done(response: Response, usage: Usage) | Failed(error: UpstreamError)

  /** The identifier and time that `uuid` and the clock would give an unnamed response. */
  datatype Naming = Naming(id: string, created: int)

  predicate Named(c: ResponseChunk) {
    c.chunk.Some? && c.chunk.value.id != ""
  }

  /** `k` is the first error chunk. */
  predicate FirstErrorAt(chunks: seq<ResponseChunk>, k: int) {
    && 0 <= k < |chunks| && chunks[k].error.Some?
    && (forall i :: 0 <= i < k ==> chunks[i].error.None?)
  }

  /** `(id, created)` come from the first chunk with a non-empty id, else from the naming. */
  predicate NamedBy(r: Response, chunks: seq<ResponseChunk>, naming: Naming) {
    && ((forall i :: 0 <= i < |chunks| ==> !Named(chunks[i])) ==> r.id == naming.id && r.created == naming.created)
    && (forall k :: 0 <= k < |chunks| && Named(chunks[k]) && (forall i :: 0 <= i < k ==> !Named(chunks[i]))
          ==> r.id == chunks[k].chunk.value.id && r.created == chunks[k].chunk.value.created)
  }

  /** `collectResponse`: reads the channel until it closes or an error chunk arrives. */
  method CollectResponse(chunks: seq<ResponseChunk>, model: string, naming: Naming)
    returns (out: Collected, read: nat)
    ensures out.Failed? <==> exists i :: 0 <= i < |chunks| && chunks[i].error.Some?
    ensures out.Failed? <==> !ErrorFree(chunks)
    ensures out.Failed? ==>
              && read > 0 && FirstErrorAt(chunks, read - 1)
              && Some(out.error) == chunks[read - 1].error == FirstError(chunks)
    ensures out.Done? ==>
              && read == |chunks|
              && out.response.content == TextOf(chunks)
              && out.usage == LastUsage(NO_USAGE, chunks)
              && out.response.model == model
              && out.response.usage == (if out.usage.total > 0 then Some(out.usage) else None)
              && NamedBy(out.response, chunks, naming)
  {
    var id, created, usage, content := "", 0, NO_USAGE, "";
    read := 0;
    while read < |chunks|
      invariant 0 <= read <= |chunks| && Gathered(id, created, content, usage, chunks, read)
    {
      var c := chunks[read];
      if c.error.Some? {
        ErrorAt(chunks, read);
        read := read + 1;
        return Failed(c.error.value), read;
      }
      GatherMore(id, created, content, usage, chunks, read);
      if c.usage.Some? {
        usage := c.usage.value;
      }
      if c.chunk.Some? {
        if id == "" {
          id, created := c.chunk.value.id, c.chunk.value.created;
        }
        content := AppendChoices(content, c.chunk.value.choices);
      }
      read := read + 1;
    }
    var r := Response(id, created, model, content, if usage.total > 0 then Some(usage) else None);
    if id == "" {
      r := r.(id := naming.id, created := naming.created);
    }
    GatheredAll(id, created, content, usage, chunks, naming, r);
    out := Done(r, usage);
  }

  /** What the loop has gathered from the first `n` chunks. */
  ghost predicate Gathered(id: string, created: int, content: string, usage: Usage,
                           chunks: seq<ResponseChunk>, n: nat)
    requires n <= |chunks|
  {
    && ErrorFree(chunks[..n]) && NamedLike(id, created, FirstNamed(chunks[..n]))
    && content == TextOf(chunks[..n]) && usage == LastUsage(NO_USAGE, chunks[..n])
  }

  /** One chunk more, as the loop takes it in. */
  lemma GatherMore(id: string, created: int, content: string, usage: Usage, chunks: seq<ResponseChunk>, n: nat)
    requires n < |chunks| && Gathered(id, created, content, usage, chunks, n) && chunks[n].error.None?
    ensures var c := chunks[n];
            var naming := id == "" && c.chunk.Some?;
            Gathered(if naming then c.chunk.value.id else id, if naming then c.chunk.value.created else created,
                     if c.chunk.Some? then content + ChoiceText(c.chunk.value.choices) else content,
                     if c.usage.Some? then c.usage.value else usage, chunks, n + 1)
  {
    OneMore(chunks, n);
    assert chunks[..n + 1] == chunks[..n] + [chunks[n]];
    FirstNamedSnoc(chunks[..n], chunks[n]);
    assert content + "" == content;
  }

  lemma GatheredAll(id: string, created: int, content: string, usage: Usage, chunks: seq<ResponseChunk>,
                    naming: Naming, r: Response)
    requires Gathered(id, created, content, usage, chunks, |chunks|)
    requires (r.id, r.created) == if id == "" then (naming.id, naming.created) else (id, created)
    ensures ErrorFree(chunks) && content == TextOf(chunks) && usage == LastUsage(NO_USAGE, chunks)
    ensures NamedBy(r, chunks, naming)
  {
    assert chunks[..|chunks|] == chunks;
    FirstNamedMeaning(chunks);
  }

  lemma OneMore(chunks: seq<ResponseChunk>, n: nat)
    requires n < |chunks|
    ensures TextOf(chunks[..n + 1]) == TextOf(chunks[..n]) + ChunkText(chunks[n])
    ensures LastUsage(NO_USAGE, chunks[..n + 1])
         == if chunks[n].usage.Some? then chunks[n].usage.value else LastUsage(NO_USAGE, chunks[..n])
    ensures ErrorFree(chunks[..n + 1]) <==> ErrorFree(chunks[..n]) && chunks[n].error.None?
  {
    assert chunks[..n + 1] == chunks[..n] + [chunks[n]];
    TextOfSnoc(chunks[..n], chunks[n]);
    LastUsageSnoc(NO_USAGE, chunks[..n], chunks[n]);
    ErrorFreeSnoc(chunks[..n], chunks[n]);
  }

  lemma ErrorAt(chunks: seq<ResponseChunk>, n: nat)
    requires n < |chunks| && ErrorFree(chunks[..n]) && chunks[n].error.Some?
    ensures FirstErrorAt(chunks, n) && FirstError(chunks) == chunks[n].error && !ErrorFree(chunks)
  {
    assert chunks == chunks[..n] + chunks[n..];
    FirstErrorPrefix(chunks[..n], chunks[n..]);
    assert forall i :: 0 <= i < n ==> chunks[i] == chunks[..n][i];
  }

  /** The chunk that names the response. */
  function FirstNamed(chunks: seq<ResponseChunk>): (first: Option<ChatChunk>)
    ensures first.Some? ==> first.value.id != ""
  {
    if chunks == [] then None
    else if Named(chunks[0]) then chunks[0].chunk
    else FirstNamed(chunks[1..])
  }

  lemma {:induction false} FirstNamedSnoc(a: seq<ResponseChunk>, c: ResponseChunk)
    ensures FirstNamed(a + [c])
         == if FirstNamed(a).Some? then FirstNamed(a) else if Named(c) then c.chunk else None
  {
    if a == [] {
      assert a + [c] == [c] && [c][1..] == [];
    } else {
      FirstNamedSnoc(a[1..], c);
      assert (a + [c])[1..] == a[1..] + [c];
    }
  }

  lemma {:induction false} FirstNamedMeaning(chunks: seq<ResponseChunk>)
    ensures (forall i :: 0 <= i < |chunks| ==> !Named(chunks[i])) ==> FirstNamed(chunks) == None
    ensures forall k :: 0 <= k < |chunks| && Named(chunks[k]) && (forall i :: 0 <= i < k ==> !Named(chunks[i]))
              ==> FirstNamed(chunks) == chunks[k].chunk
  {
    if chunks != [] {
      FirstNamedMeaning(chunks[1..]);
      assert forall i :: 0 < i < |chunks| ==> chunks[i] == chunks[1..][i - 1];
      forall k | 0 <= k < |chunks| && Named(chunks[k]) && (forall i :: 0 <= i < k ==> !Named(chunks[i]))
        ensures FirstNamed(chunks) == chunks[k].chunk
      {
        if k > 0 {
          assert chunks[1..][k - 1] == chunks[k];
          assert forall i :: 0 <= i < k - 1 ==> chunks[1..][i] == chunks[i + 1];
        }
      }
    }
  }

  /** `(id, created)` as they stand when `first` is the first named chunk so far. */
  predicate NamedLike(id: string, created: int, first: Option<ChatChunk>) {
    match first
    case None => id == ""
    case Some(c) => id == c.id && id != "" && created == c.created
  }

  lemma AppendOne(content: string, choices: seq<Choice>, i: nat)
    requires i < |choices|
    ensures content + ChoiceText(choices[..i]) + ContentText(choices[i].delta) + ContentText(choices[i].message)
         == content + ChoiceText(choices[..i + 1])
  {
    assert choices[..i + 1] == choices[..i] + [choices[i]];
    ChoiceTextSnoc(choices[..i], choices[i]);
    var d, m := ContentText(choices[i].delta), ContentText(choices[i].message);
    Associative(content + ChoiceText(choices[..i]), d, m);
    Associative(content, ChoiceText(choices[..i]), d + m);
  }

  /** Appends the content if it is text. */
  method AppendContent(content: string, c: Content) returns (out: string)
    ensures out == content + ContentText(c)
  {
    out := content;
    if c.Text? {
      out := out + c.text;
    }
  }

  /** The inner loop over a chunk's choices; the relay runs the same one when it captures payloads. */
  method AppendChoices(content: string, choices: seq<Choice>) returns (out: string)
    ensures out == content + ChoiceText(choices)
  {
    out := content;
    for i := 0 to |choices|
      invariant out == content + ChoiceText(choices[..i])
    {
      AppendOne(content, choices, i);
      out := AppendContent(out, choices[i].delta);
      out := AppendContent(out, choices[i].message);
    }
    assert choices[..|choices|] == choices;
  }
}
