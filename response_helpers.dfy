/**
 * The helpers the session and tool examples use to read events: whether a
 * response carries function calls, function responses or a trailing
 * code-execution result, whether an event is a final response, and the
 * non-empty text parts of a content.
 */
module ResponseHelpers {
  import opened Wrappers
  import opened Genai

  /** hasFunctionCalls: some part of the content is a function call. */
  predicate HasFunctionCalls(c: Option<Content>) {
    c.Some? && exists i :: 0 <= i < |c.value.parts| && c.value.parts[i].functionCall.Some?
  }

  /** hasFunctionResponses: some part of the content is a function response. */
  predicate HasFunctionResponses(c: Option<Content>) {
    c.Some? && exists i :: 0 <= i < |c.value.parts| && c.value.parts[i].functionResponse.Some?
  }

  /** hasTrailingCodeExecutionResult: only the last part counts; false without content or parts. */
  predicate HasTrailingCodeExecutionResult(c: Option<Content>) {
    c.Some? && |c.value.parts| > 0 && c.value.parts[|c.value.parts| - 1].codeExecutionResult
  }

  /**
   * isFinalResponse of the session-state example, where the response is part
   * of the event: skipped summarization and pending long-running tools are
   * final, so is a response without content.
   */
  predicate IsFinalResponse(ev: Event) {
    if ev.actions.skipSummarization || |ev.longRunningToolIDs| > 0 then true
    else if ev.response.content.None? then true
    else !HasFunctionCalls(ev.response.content) && !HasFunctionResponses(ev.response.content)
         && !ev.response.partial && !HasTrailingCodeExecutionResult(ev.response.content)
  }

  /**
   * isFinalResponse of the toolset and weather examples, where the response
   * may be missing altogether: a missing response is final, but a present
   * response without content is final only when it is not partial.
   */
  predicate IsFinalResponseOpt(actions: Actions, longRunningToolIDs: seq<string>, response: Option<LLMResponse>) {
    if actions.skipSummarization || |longRunningToolIDs| > 0 then true
    else if response.None? then true
    else !HasFunctionCalls(response.value.content) && !HasFunctionResponses(response.value.content)
         && !response.value.partial && !HasTrailingCodeExecutionResult(response.value.content)
  }

  /**
   * The state example's definition, spelled out: outside the two shortcuts,
   * an event is final exactly when it has no content, or has no calls, no
   * responses, is complete and does not end in a code-execution result.
   */
  lemma FinalResponseCharacterized(ev: Event)
    ensures IsFinalResponse(ev) <==>
            ev.actions.skipSummarization || |ev.longRunningToolIDs| > 0 || ev.response.content.None?
            || (&& (forall i :: 0 <= i < |ev.response.content.value.parts| ==> ev.response.content.value.parts[i].functionCall.None?)
                && (forall i :: 0 <= i < |ev.response.content.value.parts| ==> ev.response.content.value.parts[i].functionResponse.None?)
                && !ev.response.partial
                && (|ev.response.content.value.parts| == 0
                    || !ev.response.content.value.parts[|ev.response.content.value.parts| - 1].codeExecutionResult))
  {
  }

  /** The two variants agree on every event whose response has content. */
  lemma VariantsAgreeWithContent(ev: Event)
    requires ev.response.content.Some?
    ensures IsFinalResponse(ev) == IsFinalResponseOpt(ev.actions, ev.longRunningToolIDs, Some(ev.response))
  {
  }

  /**
   * They differ on a partial response without content: the state example
   * counts it as final, the toolset and weather examples do not.
   */
  lemma VariantsDifferOnEmptyPartial(ev: Event)
    requires !ev.actions.skipSummarization && |ev.longRunningToolIDs| == 0
    requires ev.response.content.None? && ev.response.partial
    ensures IsFinalResponse(ev)
    ensures !IsFinalResponseOpt(ev.actions, ev.longRunningToolIDs, Some(ev.response))
  {
  }

  /** The non-empty texts of the parts, in order. */
  function NonEmptyTexts(parts: seq<Part>): seq<string> {
    if parts == [] then []
    else (if parts[0].text != "" then [parts[0].text] else []) + NonEmptyTexts(parts[1..])
  }

  /** Each text kept is non-empty and is the text of some part. */
  lemma {:induction false} NonEmptyTextsSound(parts: seq<Part>)
    ensures forall t :: t in NonEmptyTexts(parts) ==> t != "" && exists i :: 0 <= i < |parts| && parts[i].text == t
  {
    if parts != [] {
      NonEmptyTextsSound(parts[1..]);
      forall t | t in NonEmptyTexts(parts)
        ensures t != "" && exists i :: 0 <= i < |parts| && parts[i].text == t
      {
        if t !in NonEmptyTexts(parts[1..]) {
          assert parts[0].text == t;
        } else {
          var i :| 0 <= i < |parts[1..]| && parts[1..][i].text == t;
          assert parts[i + 1].text == t;
        }
      }
    }
  }

  /** Collecting texts distributes over concatenation, so order is kept. */
  lemma {:induction false} NonEmptyTextsConcat(a: seq<Part>, b: seq<Part>)
    ensures NonEmptyTexts(a + b) == NonEmptyTexts(a) + NonEmptyTexts(b)
  {
    if a == [] {
      assert a + b == b;
    } else {
      assert (a + b)[0] == a[0];
      assert (a + b)[1..] == a[1..] + b;
      NonEmptyTextsConcat(a[1..], b);
    }
  }

  /** textParts: the non-empty texts of a content in order, nothing for a missing content. */
  method TextParts(c: Option<Content>) returns (ret: seq<string>)
    ensures c.None? ==> ret == []
    ensures c.Some? ==> ret == NonEmptyTexts(c.value.parts)
  {
    ret := [];
    if c.None? {
      return;
    }
    var parts := c.value.parts;
    var i := 0;
    while i < |parts|
      invariant 0 <= i <= |parts|
      invariant ret == NonEmptyTexts(parts[..i])
    {
      NonEmptyTextsConcat(parts[..i], [parts[i]]);
      assert parts[..i + 1] == parts[..i] + [parts[i]];
      assert [parts[i]][1..] == [];
      if parts[i].text != "" {
        ret := ret + [parts[i].text];
      }
      i := i + 1;
    }
    assert parts[..i] == parts;
  }

  /** The texts of an optional content, as a function for use in specifications. */
  function ContentTexts(c: Option<Content>): seq<string> {
    if c.None? then [] else NonEmptyTexts(c.value.parts)
  }
}
