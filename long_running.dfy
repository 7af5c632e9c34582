/**
 * The long-running tool example: the tool only acknowledges a ticket
 * request, each turn of the conversation records the ID of the last call to
 * that tool, and the program resumes the pending call twice with responses
 * carrying that ID, first announcing more to come and then the final one.
 */
module LongRunning {
  import opened Wrappers
  import opened Values
  import opened Genai
  import ConsoleRuns

  const ToolName := "create_ticket_long_running"
  const TicketID := "TICKET-ABC-123"
  const NoCallMessage := "ERROR: Tool 'create_ticket_long_running' not called in Turn 1."

  /** createTicketAsync: the immediate answer of the tool, whatever the urgency. */
  function CreateTicket(urgency: string): (status: string) {
    "started"
  }

  /** The tool's first answer does not depend on the urgency it was given. */
  lemma CreateTicketIgnoresUrgency(a: string, b: string)
    ensures CreateTicket(a) == CreateTicket(b) == "started"
  {
  }

  predicate IsTicketCall(p: Part) {
    p.functionCall.Some? && p.functionCall.value.name == ToolName
  }

  /** The ID stored after scanning `parts`, starting from what was stored before: the last ticket call wins. */
  function PartsCapture(parts: seq<Part>, stored: Option<string>): Option<string>
    decreases |parts|
  {
    if parts == [] then stored
    else PartsCapture(parts[1..], if IsTicketCall(parts[0]) then Some(parts[0].functionCall.value.id) else stored)
  }

  /** Scanning two runs of parts one after the other is scanning them joined. */
  lemma {:induction false} PartsCaptureConcat(a: seq<Part>, b: seq<Part>, stored: Option<string>)
    ensures PartsCapture(a + b, stored) == PartsCapture(b, PartsCapture(a, stored))
    decreases |a|
  {
    if a == [] {
      assert a + b == b;
    } else {
      assert (a + b)[0] == a[0];
      assert (a + b)[1..] == a[1..] + b;
      PartsCaptureConcat(a[1..], b, if IsTicketCall(a[0]) then Some(a[0].functionCall.value.id) else stored);
    }
  }

  /** Parts without a ticket call never change the stored ID. */
  lemma {:induction false} PartsCaptureKeeps(parts: seq<Part>, stored: Option<string>)
    requires forall j :: 0 <= j < |parts| ==> !IsTicketCall(parts[j])
    ensures PartsCapture(parts, stored) == stored
    decreases |parts|
  {
    if parts != [] {
      assert !IsTicketCall(parts[0]);
      forall k | 0 <= k < |parts[1..]| ensures !IsTicketCall(parts[1..][k]) {
        assert parts[1..][k] == parts[k + 1];
      }
      PartsCaptureKeeps(parts[1..], stored);
    }
  }

  /** The stored ID is that of the last ticket call. */
  lemma {:induction false} PartsCaptureIsLast(parts: seq<Part>, stored: Option<string>, j: int)
    requires 0 <= j < |parts| && IsTicketCall(parts[j])
    requires forall k :: j < k < |parts| ==> !IsTicketCall(parts[k])
    ensures PartsCapture(parts, stored) == Some(parts[j].functionCall.value.id)
    decreases |parts|
  {
    var next := if IsTicketCall(parts[0]) then Some(parts[0].functionCall.value.id) else stored;
    forall k | 0 <= k < |parts[1..]| ensures parts[1..][k] == parts[k + 1] { }
    if j == 0 {
      PartsCaptureKeeps(parts[1..], next);
    } else {
      PartsCaptureIsLast(parts[1..], next, j - 1);
    }
  }

  /** What one turn ends with: the ID it returns, the errors it printed, and whether it panicked. */
  datatype Turn = Turn(callID: string, logged: seq<string>, panicked: bool)

  /**
   * runTurn from a given stored ID: errors are printed and skipped; an event
   * without content panics, since its parts are read unconditionally.
   */
  function TurnSpec(items: seq<Item>, stored: Option<string>): Turn
    decreases |items|
  {
    if items == [] then Turn(if stored.Some? then stored.value else "", [], false)
    else if items[0].Fail? then
      var rest := TurnSpec(items[1..], stored);
      Turn(rest.callID, [items[0].error] + rest.logged, rest.panicked)
    else if items[0].event.response.content.None? then Turn("", [], true)
    else TurnSpec(items[1..], PartsCapture(items[0].event.response.content.value.parts, stored))
  }

  /** The inner loop of runTurn: the stored ID after one event's parts. */
  method ScanParts(parts: seq<Part>, stored: Option<string>) returns (r: Option<string>)
    ensures r == PartsCapture(parts, stored)
  {
    r := stored;
    var i := 0;
    while i < |parts|
      invariant 0 <= i <= |parts|
      invariant PartsCapture(parts, stored) == PartsCapture(parts[i..], r)
    {
      assert parts[i..][1..] == parts[i + 1..];
      var fc := parts[i].functionCall;
      if fc.Some? && fc.value.name == ToolName {
        r := Some(fc.value.id);
      }
      i := i + 1;
    }
  }

  /** runTurn: drains the turn's events and returns the captured call ID, or "" when none was stored. */
  method RunTurn(items: seq<Item>) returns (t: Turn)
    ensures t == TurnSpec(items, None)
  {
    var stored: Option<string> := None;
    var logged: seq<string> := [];
    var i := 0;
    while i < |items|
      invariant 0 <= i <= |items|
      invariant var rest := TurnSpec(items[i..], stored);
                TurnSpec(items, None) == Turn(rest.callID, logged + rest.logged, rest.panicked)
    {
      assert items[i..][1..] == items[i + 1..];
      if items[i].Fail? {
        logged := logged + [items[i].error];
      } else {
        var ev := items[i].event;
        if ev.response.content.None? {
          return Turn("", logged, true);
        }
        stored := ScanParts(ev.response.content.value.parts, stored);
      }
      i := i + 1;
    }
    return Turn(if stored.Some? then stored.value else "", logged, false);
  }

  /** Every part of the turn's events, in stream order; errors contribute none. */
  function TurnParts(items: seq<Item>): seq<Part>
    requires forall j :: 0 <= j < |items| ==> items[j].Fail? || items[j].event.response.content.Some?
    decreases |items|
  {
    if items == [] then []
    else (if items[0].Fail? then [] else items[0].event.response.content.value.parts) + TurnParts(items[1..])
  }

  /**
   * A turn that does not panic returns the ID of the last ticket call among
   * all its events' parts, or "" when there is none; the errors it prints
   * do not change that.
   */
  lemma {:induction false} TurnReturnsLastCall(items: seq<Item>, stored: Option<string>)
    requires forall j :: 0 <= j < |items| ==> items[j].Fail? || items[j].event.response.content.Some?
    ensures !TurnSpec(items, stored).panicked
    ensures var c := PartsCapture(TurnParts(items), stored);
            TurnSpec(items, stored).callID == if c.Some? then c.value else ""
    decreases |items|
  {
    if items != [] {
      forall k | 0 <= k < |items[1..]| ensures items[1..][k] == items[k + 1] { }
      if items[0].Fail? {
        TurnReturnsLastCall(items[1..], stored);
        assert TurnParts(items) == TurnParts(items[1..]);
      } else {
        var parts := items[0].event.response.content.value.parts;
        TurnReturnsLastCall(items[1..], PartsCapture(parts, stored));
        PartsCaptureConcat(parts, TurnParts(items[1..]), stored);
      }
    }
  }

  /** With no ticket call in any event, a turn returns "". */
  lemma NoCallNoID(items: seq<Item>)
    requires forall j :: 0 <= j < |items| ==> items[j].Fail? || items[j].event.response.content.Some?
    requires forall j :: 0 <= j < |TurnParts(items)| ==> !IsTicketCall(TurnParts(items)[j])
    ensures TurnSpec(items, None).callID == ""
  {
    TurnReturnsLastCall(items, None);
    PartsCaptureKeeps(TurnParts(items), None);
  }

  /** A resumption as the program builds it; both share the program's one `willContinue` variable. */
  class Flag {
    var value: bool
    constructor (v: bool)
      ensures value == v
    {
      value := v;
    }
  }

  datatype Resumption = Resumption(id: string, status: string, willContinue: Flag)

  /** What the agent receives when a resumption is sent: its flag read at that moment. */
  function Sent(id: string, status: string, willContinue: bool): FunctionResponse {
    FunctionResponse(id, ToolName, map["status" := Str(status), "ticket_id" := Str(TicketID)], willContinue)
  }

  /** The three turns: the captured ID, the responses sent, and how the program ends. */
  datatype Protocol = Protocol(callID: string, sent: seq<FunctionResponse>, ending: ConsoleRuns.Ending)

  /** The program's three turns, given what the agent yields in each. */
  function ProtocolSpec(turn1: seq<Item>, turn2: seq<Item>, turn3: seq<Item>): Protocol {
    var t1 := TurnSpec(turn1, None);
    if t1.panicked then Protocol("", [], ConsoleRuns.Panic)
    else if t1.callID == "" then Protocol("", [], ConsoleRuns.Fatal(NoCallMessage))
    else
      var first := Sent(t1.callID, "pending", true);
      if TurnSpec(turn2, None).panicked then Protocol(t1.callID, [first], ConsoleRuns.Panic)
      else
        var second := Sent(t1.callID, "approved", false);
        if TurnSpec(turn3, None).panicked then Protocol(t1.callID, [first, second], ConsoleRuns.Panic)
        else Protocol(t1.callID, [first, second], ConsoleRuns.Completed)
  }

  /**
   * main's three turns. The two resumptions hold the same flag, so once the
   * third turn is prepared the second resumption's flag reads false as well.
   */
  method RunProtocol(turn1: seq<Item>, turn2: seq<Item>, turn3: seq<Item>)
    returns (p: Protocol, second: Option<Resumption>, third: Option<Resumption>)
    ensures p == ProtocolSpec(turn1, turn2, turn3)
    ensures p.ending == ConsoleRuns.Completed ==>
              && second.Some? && third.Some?
              && second.value.willContinue == third.value.willContinue
              && fresh(second.value.willContinue)
              && !second.value.willContinue.value
  {
    second, third := None, None;
    var t1 := RunTurn(turn1);
    if t1.panicked {
      return Protocol("", [], ConsoleRuns.Panic), second, third;
    }
    if t1.callID == "" {
      return Protocol("", [], ConsoleRuns.Fatal(NoCallMessage)), second, third;
    }
    var willContinue := new Flag(true);
    var r2 := Resumption(t1.callID, "pending", willContinue);
    second := Some(r2);
    var sent := [Sent(r2.id, r2.status, r2.willContinue.value)];
    var t2 := RunTurn(turn2);
    if t2.panicked {
      return Protocol(t1.callID, sent, ConsoleRuns.Panic), second, third;
    }
    willContinue.value := false;
    var r3 := Resumption(t1.callID, "approved", willContinue);
    third := Some(r3);
    sent := sent + [Sent(r3.id, r3.status, r3.willContinue.value)];
    var t3 := RunTurn(turn3);
    if t3.panicked {
      return Protocol(t1.callID, sent, ConsoleRuns.Panic), second, third;
    }
    return Protocol(t1.callID, sent, ConsoleRuns.Completed), second, third;
  }

  /**
   * Without a call ID from turn 1 the program stops fatally before any
   * resumption. Otherwise both resumptions answer the captured call of the
   * tool with the same ticket, the first announcing more to come with status
   * "pending", the second final with status "approved".
   */
  lemma ProtocolShape(turn1: seq<Item>, turn2: seq<Item>, turn3: seq<Item>)
    ensures var p := ProtocolSpec(turn1, turn2, turn3);
            var t1 := TurnSpec(turn1, None);
            && (!t1.panicked && t1.callID == "" ==> p.ending == ConsoleRuns.Fatal(NoCallMessage) && p.sent == [])
            && (p.ending == ConsoleRuns.Completed ==>
                  && p.callID == t1.callID != ""
                  && |p.sent| == 2
                  && p.sent[0].id == p.sent[1].id == p.callID
                  && p.sent[0].name == p.sent[1].name == ToolName
                  && p.sent[0].response["ticket_id"] == p.sent[1].response["ticket_id"] == Str(TicketID)
                  && p.sent[0].willContinue && !p.sent[1].willContinue
                  && p.sent[0].response["status"] == Str("pending")
                  && p.sent[1].response["status"] == Str("approved"))
  {
  }
}
