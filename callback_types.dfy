/**
 * The six kinds of callbacks of the callback-types example: before and after
 * an agent, before and after a model call, and before and after a tool, plus
 * the capital-city tool they guard. A callback that answers Proceed lets the
 * runtime go on as before; one that answers Replace substitutes its value.
 */
module CallbackTypes {
  import opened Wrappers
  import opened Values
  import opened Genai
  import Text
  import PromptScan

  // ---------------------------------------------------------------------
  // Agent callbacks
  // ---------------------------------------------------------------------

  /** State flags compare equal to Go's `true` only when they hold that boolean. */
  predicate FlagSet(st: State, key: string) {
    key in st && st[key] == Bool(true)
  }

  /** onBeforeAgent: skips the agent with a model message naming it exactly when `skip_llm_agent` is true. */
  function OnBeforeAgent(agentName: string, st: State): (r: Option<Content>)
    ensures r.Some? <==> FlagSet(st, "skip_llm_agent")
    ensures r.Some? ==> r.value.role == RoleModel && |r.value.parts| == 1
                        && r.value.parts[0].text == "Agent " + agentName + " skipped by before_agent_callback."
  {
    if FlagSet(st, "skip_llm_agent") then
      Some(TextContent(RoleModel, "Agent " + agentName + " skipped by before_agent_callback."))
    else None
  }

  /** A flag stored as text or as a number never skips the agent. */
  lemma OnlyBooleanTrueSkips(agentName: string, st: State, v: Value)
    requires v != Bool(true)
    ensures OnBeforeAgent(agentName, st["skip_llm_agent" := v]).None?
  {
  }

  const ConcludingNote := "Concluding note added by after_agent_callback, replacing original output."

  /** onAfterAgent: a run error passes through; otherwise the output is replaced exactly when `add_concluding_note` is true. */
  function OnAfterAgent(st: State, runErr: Option<string>): (r: Reply<Content>)
    ensures runErr.Some? ==> r == Failed(runErr.value)
    ensures runErr.None? ==> (r.Replace? <==> FlagSet(st, "add_concluding_note")) && !r.Failed?
    ensures r.Replace? ==> r.value == TextContent(RoleModel, ConcludingNote)
  {
    if runErr.Some? then Failed(runErr.value)
    else if FlagSet(st, "add_concluding_note") then Replace(TextContent(RoleModel, ConcludingNote))
    else Proceed
  }

  // ---------------------------------------------------------------------
  // Model callbacks
  // ---------------------------------------------------------------------

  const InstructionPrefix := "[Modified by Callback] "

  /** The system instruction after onBeforeModel's edit. */
  function PrefixInstruction(si: Option<Content>): (r: Option<Content>)
    ensures r.Some? <==> si.Some?
    ensures si.Some? && |si.value.parts| > 0 ==>
              && r.value.role == si.value.role
              && |r.value.parts| == |si.value.parts|
              && r.value.parts[0].text == InstructionPrefix + si.value.parts[0].text
              && r.value.parts[0].functionCall == si.value.parts[0].functionCall
              && (forall j :: 1 <= j < |si.value.parts| ==> r.value.parts[j] == si.value.parts[j])
    ensures si.Some? && |si.value.parts| == 0 ==> r.value == Content(si.value.role, [TextPart(InstructionPrefix)])
  {
    if si.None? then None
    else if |si.value.parts| > 0 then
      var p := si.value.parts[0];
      Some(si.value.(parts := si.value.parts[0 := p.(text := InstructionPrefix + p.text)]))
    else Some(si.value.(parts := si.value.parts + [TextPart(InstructionPrefix)]))
  }

  const BlockedByModelCallback := LLMResponse(Some(TextContent(RoleModel, "LLM call was blocked by before_model_callback.")), false)

  /**
   * onBeforeModel: the system instruction, when present, is prefixed whether
   * or not the call is then blocked; the call is blocked exactly when some
   * part of the conversation contains "BLOCK" in any letter case. The
   * conversation itself is never edited.
   */
  method OnBeforeModel(req: Request) returns (r: Option<LLMResponse>)
    modifies req
    ensures req.systemInstruction == PrefixInstruction(old(req.systemInstruction))
    ensures req.contents == old(req.contents)
    ensures r.Some? <==> PromptScan.Mentions(req.contents, "BLOCK", true)
    ensures r.Some? ==> r.value == BlockedByModelCallback
  {
    if req.systemInstruction.Some? {
      req.systemInstruction := PrefixInstruction(req.systemInstruction);
    }
    var found := PromptScan.Scan(req.contents, "BLOCK", true);
    if found {
      return Some(BlockedByModelCallback);
    }
    return None;
  }

  /** Characters that count as word characters for `\b`. */
  predicate IsWordChar(c: char) {
    ('a' <= c <= 'z') || ('A' <= c <= 'Z') || ('0' <= c <= '9') || c == '_'
  }

  /**
   * Case-insensitive matching of one letter: the letter in either case, and
   * for k also the Kelvin sign U+212A, which Unicode case folding equates
   * with k.
   */
  predicate FoldsTo(c: char, lower: char) {
    c == lower || c == Text.UpperChar(lower) || (lower == 'k' && c == '\U{212A}')
  }

  predicate IsJoke(w: string) {
    |w| == 4 && FoldsTo(w[0], 'j') && FoldsTo(w[1], 'o') && FoldsTo(w[2], 'k') && FoldsTo(w[3], 'e')
  }

  /** `(?i)\bjoke\b` matches at position i. */
  predicate JokeAt(s: string, i: int) {
    0 <= i && i + 4 <= |s| && IsJoke(s[i..i + 4])
    && (i == 0 || !IsWordChar(s[i - 1]))
    && (i + 4 == |s| || !IsWordChar(s[i + 4]))
  }

  predicate MentionsJoke(s: string) {
    exists i :: 0 <= i < |s| && JokeAt(s, i)
  }

  /** The replacement the example's replacer returns for a match, as written. */
  function ReplacementAsWritten(m: string): string {
    if Text.ToUpper(m) == "JOKE" then (if m == "Joke" then "Funny story" else "funny story") else m
  }

  /** The replacement the example evidently intends: every match becomes a funny story. */
  function Replacement(m: string): (r: string)
    ensures r == "Funny story" || r == "funny story"
  {
    if m == "Joke" then "Funny story" else "funny story"
  }

  /** Replace every match from position i on, left to right, with `asWritten` choosing the replacer. */
  function ReplaceFrom(s: string, i: nat, asWritten: bool): string
    requires i <= |s|
    decreases |s| - i
  {
    if i == |s| then ""
    else if JokeAt(s, i) then
      (if asWritten then ReplacementAsWritten(s[i..i + 4]) else Replacement(s[i..i + 4])) + ReplaceFrom(s, i + 4, asWritten)
    else [s[i]] + ReplaceFrom(s, i + 1, asWritten)
  }

  /** The replacer as the example writes it. */
  function RewriteJokesAsWritten(s: string): string {
    ReplaceFrom(s, 0, true)
  }

  /** The replacer the example evidently intends. */
  function RewriteJokes(s: string): string {
    ReplaceFrom(s, 0, false)
  }

  /** Text without a whole-word match comes back unchanged. */
  lemma {:induction false} NoMatchUnchanged(s: string, i: nat, asWritten: bool)
    requires i <= |s|
    requires forall j :: !JokeAt(s, j)
    ensures ReplaceFrom(s, i, asWritten) == s[i..]
    decreases |s| - i
  {
    if i < |s| {
      NoMatchUnchanged(s, i + 1, asWritten);
      assert s[i..] == [s[i]] + s[i + 1..];
    }
  }

  /** A match spelled with ASCII letters only gets the same replacement either way. */
  lemma AsciiMatchesAgree(m: string)
    requires IsJoke(m)
    requires forall k :: 0 <= k < |m| ==> m[k] != '\U{212A}'
    ensures ReplacementAsWritten(m) == Replacement(m)
  {
    var u := Text.ToUpper(m);
    assert u[0] == 'J' && u[1] == 'O' && u[2] == 'K' && u[3] == 'E';
    assert u == "JOKE";
  }

  /** On text without the Kelvin sign both replacers give the same result. */
  lemma {:induction false} AsciiTextAgrees(s: string, i: nat)
    requires i <= |s|
    requires forall k :: 0 <= k < |s| ==> s[k] != '\U{212A}'
    ensures ReplaceFrom(s, i, true) == ReplaceFrom(s, i, false)
    decreases |s| - i
  {
    if i < |s| {
      if JokeAt(s, i) {
        var m := s[i..i + 4];
        assert forall k :: 0 <= k < |m| ==> m[k] == s[i + k];
        AsciiMatchesAgree(m);
        AsciiTextAgrees(s, i + 4);
      } else {
        AsciiTextAgrees(s, i + 1);
      }
    }
  }

  const KelvinJoke := "jo\U{212A}e"

  /**
   * As written, a match whose k is the Kelvin sign is handed back unchanged,
   * because upper-casing it does not give "JOKE".
   */
  lemma KelvinJokeKept()
    ensures JokeAt(KelvinJoke, 0)
    ensures RewriteJokesAsWritten(KelvinJoke) == KelvinJoke
  {
    var u := Text.ToUpper(KelvinJoke);
    assert u[2] == '\U{212A}';
    assert u != "JOKE";
    assert KelvinJoke[0..4] == KelvinJoke;
  }

  /** With the intended replacer every match is rewritten, the Kelvin-sign spelling included. */
  lemma CorrectedRewritesEveryMatch()
    ensures RewriteJokes(KelvinJoke) == "funny story"
    ensures RewriteJokes("Joke") == "Funny story"
  {
    assert KelvinJoke[0..4] == KelvinJoke;
    assert JokeAt("Joke", 0);
    assert "Joke"[0..4] == "Joke";
  }

  /** A response onAfterModel rewrites: text first, and a whole-word "joke" in it. */
  predicate Rewritable(resp: LLMResponse) {
    && resp.content.Some? && |resp.content.value.parts| > 0
    && resp.content.value.parts[0].functionCall.None?
    && MentionsJoke(resp.content.value.parts[0].text)
  }

  /** `out` is `resp` with the first part's text set to t and nothing else changed. */
  predicate FirstTextSet(resp: LLMResponse, out: LLMResponse, t: string) {
    && resp.content.Some? && |resp.content.value.parts| > 0
    && out.partial == resp.partial
    && out.content.Some? && out.content.value.role == resp.content.value.role
    && |out.content.value.parts| == |resp.content.value.parts|
    && out.content.value.parts[0] == resp.content.value.parts[0].(text := t)
    && (forall j :: 1 <= j < |resp.content.value.parts| ==> out.content.value.parts[j] == resp.content.value.parts[j])
  }

  /**
   * onAfterModel: an error passes through; an empty response, a leading
   * function call or a text without a whole-word "joke" keeps the original
   * response; otherwise the first part's text is run through the replacer
   * as written and the response, otherwise unchanged, is returned.
   */
  function OnAfterModel(resp: Option<LLMResponse>, respErr: Option<string>): (r: Reply<LLMResponse>)
    ensures respErr.Some? ==> r == Failed(respErr.value)
    ensures respErr.None? ==> (r.Replace? <==> resp.Some? && Rewritable(resp.value))
    ensures r.Replace? ==> FirstTextSet(resp.value, r.value, RewriteJokesAsWritten(resp.value.content.value.parts[0].text))
    ensures respErr.None? && !r.Replace? ==> r == Proceed
  {
    if respErr.Some? then Failed(respErr.value)
    else if resp.None? || resp.value.content.None? || |resp.value.content.value.parts| == 0 then Proceed
    else
      var c := resp.value.content.value;
      if c.parts[0].functionCall.Some? then Proceed
      else if !MentionsJoke(c.parts[0].text) then Proceed
      else
        var p := c.parts[0].(text := RewriteJokesAsWritten(c.parts[0].text));
        Replace(resp.value.(content := Some(c.(parts := c.parts[0 := p]))))
  }

  /**
   * onAfterModel as evidently intended: the same decisions, with every match
   * of the pattern rewritten.
   */
  function OnAfterModelIntended(resp: Option<LLMResponse>, respErr: Option<string>): (r: Reply<LLMResponse>)
    ensures r.Replace? <==> OnAfterModel(resp, respErr).Replace?
    ensures !r.Replace? ==> r == OnAfterModel(resp, respErr)
    ensures r.Replace? ==> FirstTextSet(resp.value, r.value, RewriteJokes(resp.value.content.value.parts[0].text))
  {
    if respErr.Some? then Failed(respErr.value)
    else if resp.None? || resp.value.content.None? || |resp.value.content.value.parts| == 0 then Proceed
    else
      var c := resp.value.content.value;
      if c.parts[0].functionCall.Some? then Proceed
      else if !MentionsJoke(c.parts[0].text) then Proceed
      else
        var p := c.parts[0].(text := RewriteJokes(c.parts[0].text));
        Replace(resp.value.(content := Some(c.(parts := c.parts[0 := p]))))
  }

  /** Unless the reply's first text holds the Kelvin sign, the callback as written does what is intended. */
  lemma IntendedAgreesWithoutKelvin(resp: Option<LLMResponse>, respErr: Option<string>)
    requires resp.Some? && resp.value.content.Some? && |resp.value.content.value.parts| > 0 ==>
               forall k :: 0 <= k < |resp.value.content.value.parts[0].text| ==> resp.value.content.value.parts[0].text[k] != '\U{212A}'
    ensures OnAfterModelIntended(resp, respErr) == OnAfterModel(resp, respErr)
  {
    if resp.Some? && resp.value.content.Some? && |resp.value.content.value.parts| > 0 {
      AsciiTextAgrees(resp.value.content.value.parts[0].text, 0);
    }
  }

  /** A model reply reading "jo" + U+212A + "e". */
  const KelvinReply := LLMResponse(Some(TextContent(RoleModel, KelvinJoke)), false)

  /**
   * On that reply the callback as written takes the rewriting branch yet
   * returns the text unchanged; the intended callback returns "funny story".
   */
  lemma KelvinReplyKept()
    ensures OnAfterModel(Some(KelvinReply), None) == Replace(KelvinReply)
    ensures OnAfterModelIntended(Some(KelvinReply), None) == Replace(KelvinReply.(content := Some(TextContent(RoleModel, "funny story"))))
  {
    KelvinJokeKept();
    CorrectedRewritesEveryMatch();
    assert JokeAt(KelvinReply.content.value.parts[0].text, 0);
    var parts := KelvinReply.content.value.parts;
    assert parts[0 := parts[0].(text := KelvinJoke)] == parts;
    assert parts[0 := parts[0].(text := "funny story")] == [TextPart("funny story")];
  }

  // ---------------------------------------------------------------------
  // The tool and its callbacks
  // ---------------------------------------------------------------------

  const CapitalToolName := "getCapitalCity"

  const Capitals: map<string, string> :=
    map["canada" := "Ottawa", "france" := "Paris", "germany" := "Berlin", "united states" := "Washington, D.C."]

  /** getCapitalCity: the capital of the lower-cased country, or "<Unknown>". */
  function GetCapitalCity(country: string): (r: string)
    ensures Text.ToLower(country) in Capitals ==> r == Capitals[Text.ToLower(country)]
    ensures Text.ToLower(country) !in Capitals ==> r == "<Unknown>"
  {
    var key := Text.ToLower(country);
    if key in Capitals then Capitals[key] else "<Unknown>"
  }

  /** The lookup ignores letter case. */
  lemma CapitalIgnoresCase(country: string)
    ensures GetCapitalCity(Text.ToUpper(country)) == GetCapitalCity(country)
  {
    Text.LowerOfUpper(country);
  }

  /** No capital is the unknown marker, so "<Unknown>" means the country was not found. */
  lemma UnknownOnlyWhenMissing(country: string)
    ensures GetCapitalCity(country) == "<Unknown>" <==> Text.ToLower(country) !in Capitals
  {
  }

  const BlockedToolResult: map<string, Value> := map["result" := Str("Tool execution was blocked by before_tool_callback.")]

  /** The argument onBeforeTool looks at: a text "country" argument of getCapitalCity. */
  predicate CountryArg(toolName: string, args: map<string, Value>) {
    toolName == CapitalToolName && "country" in args && args["country"].Str?
  }

  /**
   * onBeforeTool: for getCapitalCity, "canada" in any case is rewritten to
   * "France" in the caller's argument map, which is also returned; "block"
   * in any case replaces the tool's result; everything else proceeds with
   * the arguments untouched.
   */
  method OnBeforeTool(toolName: string, args: ValueMap) returns (r: Option<map<string, Value>>)
    modifies args
    ensures CountryArg(toolName, old(args.entries)) && Text.ToLower(old(args.entries)["country"].s) == "canada"
            ==> args.entries == old(args.entries)["country" := Str("France")] && r == Some(args.entries)
    ensures !(CountryArg(toolName, old(args.entries)) && Text.ToLower(old(args.entries)["country"].s) == "canada")
            ==> args.entries == old(args.entries)
    ensures CountryArg(toolName, old(args.entries)) && Text.ToLower(old(args.entries)["country"].s) != "canada"
            && Text.ToUpper(old(args.entries)["country"].s) == "BLOCK"
            ==> r == Some(BlockedToolResult)
    ensures !CountryArg(toolName, old(args.entries)) ==> r == None
    ensures CountryArg(toolName, old(args.entries)) && Text.ToLower(old(args.entries)["country"].s) != "canada"
            && Text.ToUpper(old(args.entries)["country"].s) != "BLOCK"
            ==> r == None
  {
    if toolName == CapitalToolName && "country" in args.entries && args.entries["country"].Str? {
      var country := args.entries["country"].s;
      if Text.ToLower(country) == "canada" {
        args.entries := args.entries["country" := Str("France")];
        return Some(args.entries);
      } else if Text.ToUpper(country) == "BLOCK" {
        return Some(BlockedToolResult);
      }
    }
    return None;
  }

  /** A question about Canada, rewritten by onBeforeTool, is answered with the capital of France. */
  lemma CanadaAnsweredWithParis()
    ensures GetCapitalCity("France") == "Paris"
    ensures GetCapitalCity("canada") == "Ottawa"
  {
    assert Text.ToLower("France") == "france";
    assert Text.ToLower("canada") == "canada";
  }

  /** The map copy of onAfterTool: every entry of the result, one at a time. */
  method CopyEntries(m: map<string, Value>) returns (c: map<string, Value>)
    ensures c == m
  {
    c := map[];
    var keys := m.Keys;
    while keys != {}
      invariant keys <= m.Keys
      invariant c.Keys == m.Keys - keys
      invariant forall k :: k in c ==> c[k] == m[k]
      decreases keys
    {
      var k :| k in keys;
      c := c[k := m[k]];
      keys := keys - {k};
    }
  }

  const UsaCapital := "Washington, D.C."
  const NoteKey := "note_added_by_callback"

  /**
   * onAfterTool: a tool error passes through; an exact "Washington, D.C."
   * result of getCapitalCity is answered with a new map holding every
   * original entry, the annotated result and the note flag; anything else
   * proceeds. The tool's own result map is only read.
   */
  method OnAfterTool(toolName: string, result: ValueMap, err: Option<string>) returns (r: Reply<map<string, Value>>)
    ensures err.Some? ==> r == Failed(err.value)
    ensures err.None? && toolName == CapitalToolName && "result" in result.entries && result.entries["result"] == Str(UsaCapital)
            ==> && r.Replace?
                && r.value.Keys == result.entries.Keys + {NoteKey}
                && r.value["result"] == Str(UsaCapital + " (Note: This is the capital of the USA).")
                && r.value[NoteKey] == Bool(true)
                && (forall k :: k in result.entries && k != "result" && k != NoteKey ==> r.value[k] == result.entries[k])
    ensures err.None? && !(toolName == CapitalToolName && "result" in result.entries && result.entries["result"] == Str(UsaCapital))
            ==> r == Proceed
  {
    if err.Some? {
      return Failed(err.value);
    }
    if toolName == CapitalToolName && "result" in result.entries && result.entries["result"].Str?
       && result.entries["result"].s == UsaCapital {
      var modified := CopyEntries(result.entries);
      modified := modified["result" := Str(UsaCapital + " (Note: This is the capital of the USA).")];
      modified := modified[NoteKey := Bool(true)];
      return Replace(modified);
    }
    return Proceed;
  }
}
