/**
 * The customer-support example in which the program itself performs the
 * hand-off: the `check_and_transfer` tool asks for a transfer on urgent
 * queries, and the driver loop re-runs the session with the support agent
 * for as long as the last transfer it saw names that agent.
 */
module CustomerSupportOverview {
  import opened Wrappers
  import opened Genai
  import opened Workflow
  import Text

  const SupportAgentName := "support_agent"
  const MainAgentName := "main_agent"
  const UrgentStatus := "transferring"
  const UrgentMessage := "Transferring to the support agent..."
  const ProcessedStatus := "processed"
  /** The first query the driver sends. */
  const Query := "this is " + "urgent" + ", i cant login"
  /** The message sent with every re-run on the support agent. */
  const Handoff := "The user has an urgent issue, please assist them."

  /** A query is urgent when its lower-cased form contains "urgent". */
  predicate IsUrgent(query: string) {
    Text.Contains(Text.ToLower(query), "urgent")
  }

  /** Urgency does not depend on the letter case of the query. */
  lemma UrgencyIgnoresCase(query: string)
    ensures IsUrgent(Text.ToUpper(query)) == IsUrgent(query)
  {
    Text.LowerOfUpper(query);
  }

  /** The query the driver sends first is urgent. */
  lemma QueryIsUrgent()
    ensures IsUrgent(Query)
  {
    var q := Text.ToLower(Query);
    assert Query[8..14] == "urgent";
    assert q[8..14] == "urgent";
    assert Text.OccursAt(q, "urgent", 8);
    Text.ContainsIffOccurs(q, "urgent");
  }

  datatype CheckResult = CheckResult(status: string, message: string)

  /**
   * checkAndTransfer: an urgent query sets the transfer target and gets the
   * fixed message; any other query leaves the actions record as it was and
   * gets a message quoting it.
   */
  method CheckAndTransfer(actions: ToolActions, query: string) returns (r: CheckResult)
    modifies actions
    ensures IsUrgent(query) ==> r == CheckResult(UrgentStatus, UrgentMessage)
    ensures !IsUrgent(query) ==> r == CheckResult(ProcessedStatus, "Processed query: '" + query + "'. No further action needed.")
    ensures actions.transferToAgent == if IsUrgent(query) then SupportAgentName else old(actions.transferToAgent)
    ensures actions.escalate == old(actions.escalate) && actions.skipSummarization == old(actions.skipSummarization)
  {
    if Text.Contains(Text.ToLower(query), "urgent") {
      actions.transferToAgent := SupportAgentName;
      return CheckResult(UrgentStatus, UrgentMessage);
    }
    return CheckResult(ProcessedStatus, "Processed query: '" + query + "'. No further action needed.");
  }

  /** The two agents as configured: the support agent is not a child of the main agent. */
  const SupportAgentConfig := Leaf(SupportAgentName)
  const MainAgentConfig := Llm(MainAgentName, "", ["check_and_transfer"], [])

  /** The runtime cannot reach the support agent from the main agent's tree, so the driver has to hand off. */
  lemma SupportNotReachable()
    ensures SupportAgentName !in ChildNames(MainAgentConfig)
    ensures MainAgentConfig.tools == ["check_and_transfer"]
  {
  }

  /** An event in the stream that names a transfer target. */
  predicate SetsTransfer(item: Item) {
    item.Ev? && item.event.actions.transferToAgent != ""
  }

  /** The transfer target the driver holds after a round, starting from `cur`: the last non-empty one wins. */
  function LastTransfer(items: seq<Item>, cur: string): string
    decreases |items|
  {
    if items == [] then cur
    else LastTransfer(items[1..], NextTransfer(items[0], cur))
  }

  /** With no event naming a target, the driver keeps its starting value; errors never change it. */
  lemma {:induction false} LastTransferKeeps(items: seq<Item>, cur: string)
    requires forall j :: 0 <= j < |items| ==> !SetsTransfer(items[j])
    ensures LastTransfer(items, cur) == cur
    decreases |items|
  {
    if items != [] {
      assert !SetsTransfer(items[0]);
      forall k | 0 <= k < |items[1..]| ensures !SetsTransfer(items[1..][k]) {
        assert items[1..][k] == items[k + 1];
      }
      LastTransferKeeps(items[1..], cur);
    }
  }

  /** The driver keeps the target of the last event that names one. */
  lemma {:induction false} LastTransferIsLast(items: seq<Item>, cur: string, j: int)
    requires 0 <= j < |items| && SetsTransfer(items[j])
    requires forall k :: j < k < |items| ==> !SetsTransfer(items[k])
    ensures LastTransfer(items, cur) == items[j].event.actions.transferToAgent
    decreases |items|
  {
    var next := if SetsTransfer(items[0]) then items[0].event.actions.transferToAgent else cur;
    forall k | 0 <= k < |items[1..]| ensures items[1..][k] == items[k + 1] { }
    if j == 0 {
      LastTransferKeeps(items[1..], next);
    } else {
      LastTransferIsLast(items[1..], next, j - 1);
    }
  }

  /** What the driver prints for one stream element: the first part's text of an event with content and parts. */
  function Shown(item: Item): seq<string> {
    if item.Ev? && item.event.response.content.Some? && |item.event.response.content.value.parts| > 0
    then [item.event.response.content.value.parts[0].text]
    else []
  }

  function RoundTexts(items: seq<Item>): seq<string>
    decreases |items|
  {
    if items == [] then [] else Shown(items[0]) + RoundTexts(items[1..])
  }

  /** The target the driver holds after one stream element. */
  function NextTransfer(item: Item, cur: string): string {
    if SetsTransfer(item) then item.event.actions.transferToAgent else cur
  }

  /** The loop body for one stream element: the target it leaves and what it prints. */
  method ScanItem(item: Item, cur: string) returns (transferTo: string, shown: seq<string>)
    ensures transferTo == NextTransfer(item, cur) && shown == Shown(item)
  {
    transferTo := cur;
    shown := [];
    if item.Ev? {
      if item.event.actions.transferToAgent != "" {
        transferTo := item.event.actions.transferToAgent;
      }
      if item.event.response.content.Some? && |item.event.response.content.value.parts| > 0 {
        shown := [item.event.response.content.value.parts[0].text];
      }
    }
  }

  /** One step of the round's specification. */
  lemma RoundStep(items: seq<Item>, i: int, cur: string, printed: seq<string>)
    requires 0 <= i < |items|
    ensures LastTransfer(items[i..], cur) == LastTransfer(items[i + 1..], NextTransfer(items[i], cur))
    ensures printed + RoundTexts(items[i..]) == (printed + Shown(items[i])) + RoundTexts(items[i + 1..])
  {
    assert items[i..][0] == items[i];
    assert items[i..][1..] == items[i + 1..];
  }

  /** One round of the driver: the transfer target it ends with and the texts it prints. */
  method ScanRound(items: seq<Item>) returns (transferTo: string, printed: seq<string>)
    ensures transferTo == LastTransfer(items, "")
    ensures printed == RoundTexts(items)
  {
    transferTo := "";
    printed := [];
    var i := 0;
    assert items[0..] == items;
    while i < |items|
      invariant 0 <= i <= |items|
      invariant LastTransfer(items, "") == LastTransfer(items[i..], transferTo)
      invariant RoundTexts(items) == printed + RoundTexts(items[i..])
    {
      RoundStep(items, i, transferTo, printed);
      var shown;
      transferTo, shown := ScanItem(items[i], transferTo);
      printed := printed + shown;
      i := i + 1;
    }
  }

  /** The agent and message a round is started with. */
  datatype Dispatch = Dispatch(agent: string, message: string)

  /**
   * The driver's whole run: the rounds it starts, what it prints, and
   * whether it still wanted another round when the given streams ran out.
   */
  datatype Session = Session(rounds: seq<Dispatch>, printed: seq<string>, unfinished: bool)

  /**
   * The driver from a round onwards. `runs[k]` is what the runner yields in
   * round k; the session is shared by every round.
   */
  function DriveFrom(runs: seq<seq<Item>>, agent: string, message: string): Session
    decreases |runs|
  {
    if runs == [] then Session([], [], true)
    else
      var rest :=
        if LastTransfer(runs[0], "") == SupportAgentName then DriveFrom(runs[1..], SupportAgentName, Handoff)
        else Session([], [], false);
      Session([Dispatch(agent, message)] + rest.rounds, RoundTexts(runs[0]) + rest.printed, rest.unfinished)
  }

  /** A round whose last transfer is not to the support agent is the driver's last. */
  lemma DriveStops(runs: seq<seq<Item>>, agent: string, message: string)
    requires runs != [] && LastTransfer(runs[0], "") != SupportAgentName
    ensures DriveFrom(runs, agent, message) == Session([Dispatch(agent, message)], RoundTexts(runs[0]), false)
  {
  }

  /** A round that hands off to the support agent is followed by the driver on the remaining streams. */
  lemma DriveContinues(runs: seq<seq<Item>>, agent: string, message: string, rounds: seq<Dispatch>, printed: seq<string>)
    requires runs != [] && LastTransfer(runs[0], "") == SupportAgentName
    ensures var here := DriveFrom(runs, agent, message);
            var next := DriveFrom(runs[1..], SupportAgentName, Handoff);
            && rounds + here.rounds == (rounds + [Dispatch(agent, message)]) + next.rounds
            && printed + here.printed == (printed + RoundTexts(runs[0])) + next.printed
            && here.unfinished == next.unfinished
  {
    var d := Dispatch(agent, message);
    var next := DriveFrom(runs[1..], SupportAgentName, Handoff);
    var texts := RoundTexts(runs[0]);
    assert DriveFrom(runs, agent, message) == Session([d] + next.rounds, texts + next.printed, next.unfinished);
    assert rounds + ([d] + next.rounds) == (rounds + [d]) + next.rounds;
    assert printed + (texts + next.printed) == (printed + texts) + next.printed;
  }

  /** The driver loop of the example: main agent and the urgent query first, then hand-offs. */
  method Drive(runs: seq<seq<Item>>) returns (s: Session)
    ensures s == DriveFrom(runs, MainAgentName, Query)
  {
    s := RunRounds(runs, MainAgentName, Query);
  }

  /** The driver loop from a given first agent and message. */
  method RunRounds(runs: seq<seq<Item>>, firstAgent: string, firstMessage: string) returns (s: Session)
    ensures s == DriveFrom(runs, firstAgent, firstMessage)
  {
    var agent := firstAgent;
    var message := firstMessage;
    var rounds: seq<Dispatch> := [];
    var printed: seq<string> := [];
    var remaining := runs;
    while remaining != []
      invariant var rest := DriveFrom(remaining, agent, message);
                DriveFrom(runs, firstAgent, firstMessage) == Session(rounds + rest.rounds, printed + rest.printed, rest.unfinished)
      decreases |remaining|
    {
      var transferTo, texts := ScanRound(remaining[0]);
      var d := Dispatch(agent, message);
      if transferTo != SupportAgentName {
        DriveStops(remaining, agent, message);
        return Session(rounds + [d], printed + texts, false);
      }
      DriveContinues(remaining, agent, message, rounds, printed);
      rounds := rounds + [d];
      printed := printed + texts;
      agent := SupportAgentName;
      message := Handoff;
      remaining := remaining[1..];
    }
    return Session(rounds, printed, true);
  }

  /**
   * The first round runs the given agent on the given message; every later
   * round runs the support agent on the hand-off message; the driver runs
   * at most one round per stream.
   */
  lemma {:induction false} DriveRounds(runs: seq<seq<Item>>, agent: string, message: string)
    ensures var s := DriveFrom(runs, agent, message);
            && |s.rounds| <= |runs|
            && (|runs| > 0 ==> |s.rounds| > 0 && s.rounds[0] == Dispatch(agent, message))
            && (forall i :: 1 <= i < |s.rounds| ==> s.rounds[i] == Dispatch(SupportAgentName, Handoff))
    decreases |runs|
  {
    if runs != [] {
      DriveRounds(runs[1..], SupportAgentName, Handoff);
    }
  }

  /**
   * The driver starts another round exactly when the round before ended with
   * "support_agent" as its last transfer target; it stops early only on a
   * round that did not.
   */
  lemma {:induction false} DriveContinuesIffTransfer(runs: seq<seq<Item>>, agent: string, message: string)
    ensures var s := DriveFrom(runs, agent, message);
            && (forall i :: 0 <= i < |s.rounds| - 1 && i < |runs| ==> LastTransfer(runs[i], "") == SupportAgentName)
            && (s.unfinished <==> |s.rounds| == |runs| && (|runs| == 0 || LastTransfer(runs[|runs| - 1], "") == SupportAgentName))
            && (!s.unfinished ==> 0 < |s.rounds| <= |runs| && LastTransfer(runs[|s.rounds| - 1], "") != SupportAgentName)
    decreases |runs|
  {
    if runs != [] {
      DriveRounds(runs[1..], SupportAgentName, Handoff);
      DriveContinuesIffTransfer(runs[1..], SupportAgentName, Handoff);
      var s := DriveFrom(runs, agent, message);
      var rest := DriveFrom(runs[1..], SupportAgentName, Handoff);
      if LastTransfer(runs[0], "") == SupportAgentName {
        assert s.rounds == [Dispatch(agent, message)] + rest.rounds;
        forall i | 1 <= i < |s.rounds| - 1 ensures LastTransfer(runs[i], "") == SupportAgentName {
          assert runs[1..][i - 1] == runs[i];
        }
        if |runs| > 1 {
          assert runs[1..][|runs[1..]| - 1] == runs[|runs| - 1];
        }
        if !rest.unfinished {
          assert runs[1..][|rest.rounds| - 1] == runs[|s.rounds| - 1];
        }
      }
    }
  }

  /** The texts of a sequence of rounds, round after round. */
  function AllRoundTexts(runs: seq<seq<Item>>): seq<string>
    decreases |runs|
  {
    if runs == [] then [] else RoundTexts(runs[0]) + AllRoundTexts(runs[1..])
  }

  /** The printed lines are those of the rounds that ran, in order, and nothing else. */
  lemma {:induction false} DrivePrintsRounds(runs: seq<seq<Item>>, agent: string, message: string)
    ensures var s := DriveFrom(runs, agent, message);
            |s.rounds| <= |runs| && s.printed == AllRoundTexts(runs[..|s.rounds|])
    decreases |runs|
  {
    DriveRounds(runs, agent, message);
    if runs != [] {
      DrivePrintsRounds(runs[1..], SupportAgentName, Handoff);
      var s := DriveFrom(runs, agent, message);
      var rest := DriveFrom(runs[1..], SupportAgentName, Handoff);
      var taken := runs[..|s.rounds|];
      assert taken[0] == runs[0];
      if LastTransfer(runs[0], "") == SupportAgentName {
        assert taken[1..] == runs[1..][..|rest.rounds|];
      } else {
        assert taken[1..] == [];
      }
    }
  }
}
