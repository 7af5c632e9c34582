/**
 * The keyword-routing model that stands in for a real LLM in the A2A
 * example: it reads the first non-empty text of the last content and either
 * asks the remote agent's `prime_checking` skill about 7 or offers its two
 * abilities.
 */
module MockLLM {
  import opened Wrappers
  import opened Values
  import opened Genai
  import Text

  /** mockLLM.Name */
  const ModelName := "mock-llm"

  /** mockLLM.CountTokens: never counts anything. */
  function CountTokens(req: LLMRequest): Result<int> {
    Ok(0)
  }

  const SkillName := "prime_checking"
  const Keyword := "prime"
  const Offer := "I can roll dice or check prime numbers. What would you like?"

  /** The single call the model makes when primes are mentioned. */
  const PrimeCheck := LLMResponse(Some(Content("", [CallPart(FunctionCall("", SkillName, map["nums" := IntList([7])]))])), false)

  /** The fixed answer otherwise. */
  const OfferReply := LLMResponse(Some(Content("", [TextPart(Offer)])), false)

  /** The text of the first part whose text is not empty, or "". */
  function FirstText(parts: seq<Part>): (r: string)
    ensures r == "" <==> forall k :: 0 <= k < |parts| ==> parts[k].text == ""
    ensures r != "" ==> exists k :: 0 <= k < |parts| && parts[k].text == r &&
                                   forall j :: 0 <= j < k ==> parts[j].text == ""
  {
    if parts == [] then ""
    else if parts[0].text != "" then parts[0].text
    else
      var r := FirstText(parts[1..]);
      assert forall k :: 1 <= k < |parts| ==> parts[k] == parts[1..][k - 1];
      if r != "" then
        var k :| 0 <= k < |parts[1..]| && parts[1..][k].text == r &&
                 forall j :: 0 <= j < k ==> parts[1..][j].text == "";
        assert parts[k + 1].text == r;
        r
      else r
  }

  /**
   * The text the model routes on: drawn from the last of the request's
   * contents; a nil content is `None`.
   */
  function RoutingText(contents: seq<Option<Content>>): string {
    if contents == [] then ""
    else match contents[|contents| - 1]
      case None => ""
      case Some(c) => FirstText(c.parts)
  }

  /** The scan at the start of GenerateContent, stopping at the first non-empty text. */
  method ScanText(contents: seq<Option<Content>>) returns (textInput: string)
    ensures textInput == RoutingText(contents)
  {
    textInput := "";
    if |contents| > 0 {
      var lastContent := contents[|contents| - 1];
      if lastContent.Some? {
        var parts := lastContent.value.parts;
        var i := 0;
        while i < |parts|
          invariant 0 <= i <= |parts|
          invariant FirstText(parts) == FirstText(parts[i..])
          invariant textInput == ""
        {
          assert parts[i..][1..] == parts[i + 1..];
          if parts[i].text != "" {
            textInput := parts[i].text;
            break;
          }
          i := i + 1;
        }
      }
    }
  }

  /** The response chosen for a routing text. */
  function Respond(text: string): LLMResponse {
    if Text.Contains(Text.ToLower(text), Keyword) then PrimeCheck else OfferReply
  }

  /** GenerateContent: one response, never an error. */
  method GenerateContent(contents: seq<Option<Content>>) returns (stream: seq<Result<LLMResponse>>)
    ensures |stream| == 1 && stream[0] == Ok(Respond(RoutingText(contents)))
  {
    var textInput := ScanText(contents);
    var response: LLMResponse;
    if Text.Contains(Text.ToLower(textInput), Keyword) {
      response := PrimeCheck;
    } else {
      response := OfferReply;
    }
    stream := [Ok(response)];
  }

  /** The prime skill is called exactly when "prime" occurs in the routing text, in any letter case. */
  lemma RoutesOnKeyword(text: string)
    ensures Respond(text) == PrimeCheck <==> exists i :: Text.OccursAt(Text.ToLower(text), Keyword, i)
    ensures Respond(text) != PrimeCheck ==> Respond(text) == OfferReply
  {
    Text.ContainsIffOccurs(Text.ToLower(text), Keyword);
    assert PrimeCheck.content.value.parts[0].text == "";
    assert OfferReply.content.value.parts[0].text == Offer;
  }

  /** Routing ignores letter case. */
  lemma RoutingIgnoresCase(text: string)
    ensures Respond(Text.ToUpper(text)) == Respond(text)
    ensures Respond(Text.ToLower(text)) == Respond(text)
  {
    Text.LowerOfUpper(text);
    Text.LowerIdempotent(text);
  }

  /** Only the last content counts: earlier contents never change the answer. */
  lemma {:induction false} OnlyLastContentCounts(earlier: seq<Option<Content>>, last: Content)
    ensures RoutingText(earlier + [Some(last)]) == FirstText(last.parts)
  {
    assert (earlier + [Some(last)])[|earlier|] == Some(last);
  }

  /** A text part that follows a non-empty one is never read. */
  lemma {:induction false} LaterPartsIgnored(first: Part, rest: seq<Part>)
    requires first.text != ""
    ensures FirstText([first] + rest) == first.text
  {
    assert ([first] + rest)[0] == first;
  }
}
