/**
 * The basic and guardrail before-model callbacks, and the helper that runs
 * each prompt of the guardrail example in a session of its own.
 */
module CallbackBasics {
  import opened Wrappers
  import opened Values
  import opened Genai
  import opened Sessions
  import ConsoleRuns
  import PromptScan
  import Text

  /** The basic onBeforeModel only looks at the request: the model call always proceeds. */
  method OnBeforeModelBasic(req: Request) returns (r: Option<LLMResponse>, err: Option<string>)
    ensures r.None? && err.None?
  {
    return None, None;
  }

  const FinanceRefusal := LLMResponse(Some(TextContent(RoleModel, "I'm sorry, but I cannot discuss financial topics.")), false)

  /**
   * onBeforeModelGuardrail: the call is blocked with the fixed refusal
   * exactly when some part of the conversation contains "finance" as
   * written. The request is only read.
   */
  method OnBeforeModelGuardrail(req: Request) returns (r: Option<LLMResponse>)
    ensures r.Some? <==> PromptScan.Mentions(req.contents, "finance", false)
    ensures r.Some? ==> r.value == FinanceRefusal
  {
    var found := PromptScan.Scan(req.contents, "finance", false);
    if found {
      return Some(FinanceRefusal);
    }
    return None;
  }

  /** The refusal is a single model text part. */
  lemma RefusalShape()
    ensures FinanceRefusal.content.Some?
    ensures FinanceRefusal.content.value.role == "model"
    ensures |FinanceRefusal.content.value.parts| == 1
  {
  }

  /** The guardrail is case-sensitive: "FINANCE" in capitals does not block. */
  lemma GuardrailIsCaseSensitive()
    ensures !PromptScan.Mentions([TextContent(RoleUser, "FINANCE")], "finance", false)
  {
    var contents := [TextContent(RoleUser, "FINANCE")];
    Text.ContainsIffOccurs("FINANCE", "finance");
    assert "FINANCE"[0..7][0] == 'F';
    forall i, j | 0 <= i < |contents| && 0 <= j < |contents[i].parts|
      ensures !PromptScan.Hit(contents[i].parts[j].text, "finance", false)
    {
      assert contents[i].parts[j].text == "FINANCE";
    }
  }

  /** What the drain loop of runAndPrint prints: every part's text of every event; an error is fatal. */
  function PrintAllSpec(items: seq<Item>): ConsoleRuns.Console
    decreases |items|
  {
    if items == [] then ConsoleRuns.Console([], [], ConsoleRuns.Completed)
    else if items[0].Fail? then ConsoleRuns.Console([], [], ConsoleRuns.Fatal(items[0].error))
    else if items[0].event.response.content.None? then ConsoleRuns.Console([], [], ConsoleRuns.Panic)
    else
      var parts := items[0].event.response.content.value.parts;
      ConsoleRuns.Prepend(seq(|parts|, j requires 0 <= j < |parts| => parts[j].text), [], PrintAllSpec(items[1..]))
  }

  method PrintAll(items: seq<Item>) returns (c: ConsoleRuns.Console)
    ensures c == PrintAllSpec(items)
  {
    var printed: seq<string> := [];
    var i := 0;
    while i < |items|
      invariant 0 <= i <= |items|
      invariant PrintAllSpec(items) == ConsoleRuns.Prepend(printed, [], PrintAllSpec(items[i..]))
    {
      assert items[i..][1..] == items[i + 1..];
      if items[i].Fail? {
        return ConsoleRuns.Console(printed, [], ConsoleRuns.Fatal(items[i].error));
      }
      var content := items[i].event.response.content;
      if content.None? {
        return ConsoleRuns.Console(printed, [], ConsoleRuns.Panic);
      }
      var parts := content.value.parts;
      ghost var before := printed;
      var j := 0;
      while j < |parts|
        invariant 0 <= j <= |parts|
        invariant printed == before + seq(j, k requires 0 <= k < j => parts[k].text)
      {
        printed := printed + [parts[j].text];
        j := j + 1;
      }
      i := i + 1;
    }
    return ConsoleRuns.Console(printed, [], ConsoleRuns.Completed);
  }

  const GuardrailApp := "GuardrailApp"

  /**
   * runAndPrint: every prompt gets a session created for it alone, and any
   * failure to create the session or to run is fatal.
   */
  method RunAndPrint(svc: SessionService, items: seq<Item>) returns (key: Option<SessionKey>, c: ConsoleRuns.Console)
    modifies svc
    ensures key.Some? ==> && key.value !in old(svc.sessions) && key.value in svc.sessions
                          && svc.sessions[key.value] == SessionData(map[], [])
                          && key.value.app == GuardrailApp && key.value.user == "test_user"
                          && c == PrintAllSpec(items)
    ensures key.None? ==> c.ending.Fatal? && c.printed == []
  {
    var created := svc.Create(GuardrailApp, "test_user", "", map[]);
    if created.Err? {
      return None, ConsoleRuns.Console([], [], ConsoleRuns.Fatal(created.error));
    }
    key := Some(created.value);
    c := PrintAll(items);
  }

  /** The guardrail example: two prompts, each run in a session of its own. */
  method GuardrailExample(svc: SessionService, first: seq<Item>, second: seq<Item>)
    returns (k1: Option<SessionKey>, k2: Option<SessionKey>)
    modifies svc
    ensures k1.Some? && k2.Some? ==> k1.value != k2.value
  {
    var c1;
    k1, c1 := RunAndPrint(svc, first);
    if c1.ending != ConsoleRuns.Completed {
      return k1, None;
    }
    var c2;
    k2, c2 := RunAndPrint(svc, second);
  }
}
