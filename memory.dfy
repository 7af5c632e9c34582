/**
 * The memory-search tool of the memory walkthrough: it flattens the texts of
 * every remembered content into one list of results. The memory service is
 * an oracle: its answer to the query is a parameter.
 */
module MemorySearch {
  import opened Wrappers
  import opened Genai
  import opened ResponseHelpers

  /** One search hit: a remembered content, possibly missing. */
  datatype MemoryEntry = MemoryEntry(content: Option<Content>)

  /** What SearchMemory answers: a response (None for a nil response) and an error. */
  datatype SearchReply = SearchReply(memories: Option<seq<MemoryEntry>>, err: Option<string>)

  const SearchError := "Error searching memory."

  /** The texts of the hits, hit by hit, in order. */
  function Flatten(ms: seq<MemoryEntry>): seq<string> {
    if ms == [] then [] else ContentTexts(ms[0].content) + Flatten(ms[1..])
  }

  /** Flattening a concatenation flattens its halves one after the other. */
  lemma {:induction false} FlattenConcat(a: seq<MemoryEntry>, b: seq<MemoryEntry>)
    ensures Flatten(a + b) == Flatten(a) + Flatten(b)
  {
    if a == [] {
      assert a + b == b;
    } else {
      assert (a + b)[0] == a[0];
      assert (a + b)[1..] == a[1..] + b;
      FlattenConcat(a[1..], b);
    }
  }

  /** A hit without content contributes nothing. */
  lemma EmptyHitAddsNothing(ms: seq<MemoryEntry>)
    ensures Flatten(ms + [MemoryEntry(None)]) == Flatten(ms)
  {
    FlattenConcat(ms, [MemoryEntry(None)]);
    assert [MemoryEntry(None)][1..] == [];
  }

  /** Every result is a non-empty text of some hit. */
  lemma {:induction false} FlattenSound(ms: seq<MemoryEntry>)
    ensures forall t :: t in Flatten(ms) ==> t != ""
  {
    if ms != [] {
      FlattenSound(ms[1..]);
      var c := ms[0].content;
      if c.Some? {
        NonEmptyTextsSound(c.value.parts);
      }
    }
  }

  /** The tool's results for a search answer: the error line, or the flattened texts; a nil response panics. */
  function SearchResults(reply: SearchReply): Outcome<seq<string>> {
    if reply.err.Some? then Done([SearchError])
    else if reply.memories.None? then Crash
    else Done(Flatten(reply.memories.value))
  }

  /** A failed search answers with the single error line, whatever else came back. */
  lemma ErrorHidesHits(ms: Option<seq<MemoryEntry>>, err: string)
    ensures SearchResults(SearchReply(ms, Some(err))) == Done([SearchError])
  {
  }

  /**
   * memorySearchToolFunc: on an error, the single error line; otherwise the
   * non-empty texts of every hit with content, in order.
   */
  method SearchTool(reply: SearchReply) returns (out: Outcome<seq<string>>)
    ensures out == SearchResults(reply)
  {
    if reply.err.Some? {
      return Done([SearchError]);
    }
    if reply.memories.None? {
      return Crash;
    }
    var ms := reply.memories.value;
    var results: seq<string> := [];
    var i := 0;
    while i < |ms|
      invariant 0 <= i <= |ms|
      invariant results == Flatten(ms[..i])
    {
      FlattenConcat(ms[..i], [ms[i]]);
      assert ms[..i + 1] == ms[..i] + [ms[i]];
      assert [ms[i]][1..] == [];
      if ms[i].content.Some? {
        var texts := TextParts(ms[i].content);
        results := results + texts;
      }
      i := i + 1;
    }
    assert ms[..i] == ms;
    return Done(results);
  }

  /** must: the value when there is no error, a fatal exit otherwise. */
  function Must<T>(v: T, err: Option<string>): (r: Outcome<T>)
    ensures r.Done? <==> err.None?
    ensures r.Done? ==> r.value == v
  {
    if err.Some? then Crash else Done(v)
  }
}
