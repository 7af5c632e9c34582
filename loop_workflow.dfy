/**
 * The iterative writing pipeline: an initial writer followed by a
 * critic/refiner loop that the refiner ends by calling the ExitLoop tool, and
 * the event loop of `runAgent` that numbers the loop's iterations and
 * reports drafts, critiques, refinements and the escalation.
 */
module LoopWorkflow {
  import opened Wrappers
  import opened Values
  import opened Genai
  import opened Workflow
  import Text

  /** The ExitLoop tool: asks the enclosing loop to stop, and returns an empty result. */
  method ExitLoop(actions: ToolActions) returns (result: map<string, Value>)
    modifies actions
    ensures actions.escalate
    ensures actions.transferToAgent == old(actions.transferToAgent)
    ensures actions.skipSummarization == old(actions.skipSummarization)
    ensures result == map[]
  {
    actions.escalate := true;
    result := map[];
  }

  const RefinementLoopConfig := Loop("RefinementLoop", 5,
    [Llm("CriticAgent", "criticism", [], []), Llm("RefinerAgent", "current_document", ["exitLoop"], [])])

  const PipelineConfig := Sequential("IterativeWritingPipeline",
    [Llm("InitialWriterAgent", "current_document", [], []), RefinementLoopConfig])

  /** The pipeline as configured: the initial writer, then the critic/refiner loop for at most the configured number of passes. */
  function Pipeline(writer: Behaviour, critic: Behaviour, refiner: Behaviour, st: State): Run {
    StepThenLoopRun(writer, [critic, refiner], RefinementLoopConfig.maxIterations, st)
  }

  /**
   * Whatever its agents answer, the pipeline runs the initial writer once and
   * first, and then the loop from the state the writer left.
   */
  lemma PipelineOrder(writer: Behaviour, critic: Behaviour, refiner: Behaviour, st: State)
    ensures Pipeline(writer, critic, refiner, st).events
            == writer(st) + RunLoop([critic, refiner], RefinementLoopConfig.maxIterations, Apply(st, writer(st))).events
  {
    StepThenLoop(writer, [critic, refiner], RefinementLoopConfig.maxIterations, st);
  }

  /**
   * Whatever the critic and the refiner answer, they run at most 10 times in
   * all, and exactly 10 times when neither escalates.
   */
  lemma WritingLoopBounded(critic: Behaviour, refiner: Behaviour, st: State)
    ensures RefinementLoopConfig.maxIterations == 5
    ensures RunLoop([critic, refiner], RefinementLoopConfig.maxIterations, st).childRuns <= 10
    ensures !RunLoop([critic, refiner], RefinementLoopConfig.maxIterations, st).escalated ==>
              RunLoop([critic, refiner], RefinementLoopConfig.maxIterations, st).childRuns == 10
  {
    LoopBound([critic, refiner], RefinementLoopConfig.maxIterations, st);
  }

  /**
   * When the critic does not escalate and the refiner's events do (its
   * exitLoop call), the loop stops after that first iteration.
   */
  lemma RefinerExitStopsLoop(critic: Behaviour, refiner: Behaviour, st: State)
    requires !AnyEscalates(critic(st))
    requires AnyEscalates(refiner(Apply(st, critic(st))))
    ensures RunLoop([critic, refiner], 5, st).escalated
    ensures RunLoop([critic, refiner], 5, st).childRuns == 2
    ensures RunLoop([critic, refiner], 5, st).events == critic(st) + refiner(Apply(st, critic(st)))
  {
    var s1 := Apply(st, critic(st));
    assert [critic, refiner][1..] == [refiner];
    assert RunPass([refiner], s1) == Run(refiner(s1), Apply(s1, refiner(s1)), 1, true);
    assert RunPass([critic, refiner], st).escalated;
  }

  /** What runAgent prints for the events it sees. */
  datatype Report =
    | Draft(text: string)
    | Critique(iteration: nat, text: string)
    | Refinement(iteration: nat, text: string)
    | LoopTerminated

  /** How runAgent ends: it returns nil, returns a wrapped error, or panics on an event without content. */
  datatype Outcome =
    | Finished(reports: seq<Report>, iterations: nat)
    | Errored(reports: seq<Report>, error: string)
    | Panicked(reports: seq<Report>)

  /** The event's part texts, concatenated left to right. */
  function JoinedText(parts: seq<Part>): string {
    if parts == [] then "" else JoinedText(parts[..|parts| - 1]) + parts[|parts| - 1].text
  }

  /** The line the author switch prints for an event, if any. */
  function AuthorReport(ev: Event, text: string, iteration: nat): seq<Report> {
    if ev.author == "InitialWriterAgent" then [Draft(text)]
    else if ev.author == "CriticAgent" then [Critique(iteration + 1, text)]
    else if ev.author == "RefinerAgent" && !ev.actions.escalate then [Refinement(iteration, text)]
    else []
  }

  /** The reports printed for one event with content, and the iteration counter after it. */
  function EventReports(ev: Event, text: string, iteration: nat): (r: (seq<Report>, nat))
    ensures r.1 == if ev.author == "CriticAgent" then iteration + 1 else iteration
    ensures (exists i :: 0 <= i < |r.0| && r.0[i].Refinement?) <==>
            ev.author == "RefinerAgent" && !ev.actions.escalate
    ensures |r.0| > 0 && r.0[|r.0| - 1] == LoopTerminated <==> ev.actions.escalate
  {
    var printed := AuthorReport(ev, text, iteration) + if ev.actions.escalate then [LoopTerminated] else [];
    assert ev.author == "RefinerAgent" && !ev.actions.escalate ==> printed[0].Refinement?;
    (printed, if ev.author == "CriticAgent" then iteration + 1 else iteration)
  }

  /** runAgent's handling of the stream from `items` on, with what was printed so far and the counter. */
  function Process(items: seq<Item>, reports: seq<Report>, iteration: nat): Outcome {
    if items == [] then Finished(reports, iteration)
    else match items[0]
      case Fail(e) => Errored(reports, "error during agent execution: " + e)
      case Ev(ev) =>
        if ev.response.content.None? then Panicked(reports)
        else
          var text := Text.TrimSpace(JoinedText(ev.response.content.value.parts));
          var (printed, next) := EventReports(ev, text, iteration);
          Process(items[1..], reports + printed, next)
  }

  /** The inner loop of runAgent: outputText += p.Text over the parts. */
  method ConcatTexts(parts: seq<Part>) returns (s: string)
    ensures s == JoinedText(parts)
  {
    s := "";
    var i := 0;
    while i < |parts|
      invariant 0 <= i <= |parts|
      invariant s == JoinedText(parts[..i])
    {
      assert parts[..i + 1][..i] == parts[..i];
      s := s + parts[i].text;
      i := i + 1;
    }
    assert parts[..i] == parts;
  }

  /** The switch on the event's author, and the escalation notice. */
  method ReportEvent(ev: Event, outputText: string, iteration: nat) returns (printed: seq<Report>, loopIteration: nat)
    ensures (printed, loopIteration) == EventReports(ev, outputText, iteration)
  {
    printed := [];
    loopIteration := iteration;
    if ev.author == "InitialWriterAgent" {
      printed := printed + [Draft(outputText)];
    } else if ev.author == "CriticAgent" {
      loopIteration := loopIteration + 1;
      printed := printed + [Critique(loopIteration, outputText)];
    } else if ev.author == "RefinerAgent" {
      if !ev.actions.escalate {
        printed := printed + [Refinement(loopIteration, outputText)];
      }
    }
    assert printed == AuthorReport(ev, outputText, iteration);
    assert loopIteration == EventReports(ev, outputText, iteration).1;
    ghost var beforeNotice := printed;
    if ev.actions.escalate {
      printed := printed + [LoopTerminated];
    }
    assert printed == beforeNotice + if ev.actions.escalate then [LoopTerminated] else [];
  }

  /** runAgent's event loop. */
  method RunAgent(items: seq<Item>) returns (outcome: Outcome)
    ensures outcome == Process(items, [], 0)
  {
    var reports: seq<Report> := [];
    var loopIteration: nat := 0;
    var i := 0;
    while i < |items|
      invariant 0 <= i <= |items|
      invariant Process(items, [], 0) == Process(items[i..], reports, loopIteration)
    {
      assert items[i..][0] == items[i] && items[i..][1..] == items[i + 1..];
      match items[i] {
        case Fail(e) =>
          return Errored(reports, "error during agent execution: " + e);
        case Ev(ev) =>
          if ev.response.content.None? {
            return Panicked(reports);
          }
          var outputText := ConcatTexts(ev.response.content.value.parts);
          outputText := Text.TrimSpace(outputText);
          var printed;
          printed, loopIteration := ReportEvent(ev, outputText, loopIteration);
          reports := reports + printed;
      }
      i := i + 1;
    }
    return Finished(reports, loopIteration);
  }

  /** The number of CriticAgent events in a stream. */
  function Critiques(items: seq<Item>): nat {
    if items == [] then 0
    else (if items[0].Ev? && items[0].event.author == "CriticAgent" then 1 else 0) + Critiques(items[1..])
  }

  /** When runAgent finishes, its counter has grown by exactly one per CriticAgent event and by nothing else. */
  lemma {:induction false} IterationsCountCritiques(items: seq<Item>, reports: seq<Report>, iteration: nat)
    ensures Process(items, reports, iteration).Finished? ==>
              Process(items, reports, iteration).iterations == iteration + Critiques(items)
  {
    if items != [] && items[0].Ev? && items[0].event.response.content.Some? {
      var ev := items[0].event;
      var text := Text.TrimSpace(JoinedText(ev.response.content.value.parts));
      var (printed, next) := EventReports(ev, text, iteration);
      IterationsCountCritiques(items[1..], reports + printed, next);
    }
  }

  /** Output printed earlier is never taken back: every outcome's reports extend what was printed before. */
  lemma {:induction false} ReportsOnlyGrow(items: seq<Item>, reports: seq<Report>, iteration: nat)
    ensures var o := Process(items, reports, iteration);
            |reports| <= |o.reports| && o.reports[..|reports|] == reports
  {
    if items != [] && items[0].Ev? && items[0].event.response.content.Some? {
      var ev := items[0].event;
      var text := Text.TrimSpace(JoinedText(ev.response.content.value.parts));
      var (printed, next) := EventReports(ev, text, iteration);
      assert Process(items, reports, iteration) == Process(items[1..], reports + printed, next);
      ReportsOnlyGrow(items[1..], reports + printed, next);
      PrefixOfPrefix(reports, printed, Process(items, reports, iteration).reports);
    }
  }

  lemma PrefixOfPrefix<T>(a: seq<T>, b: seq<T>, c: seq<T>)
    requires |a + b| <= |c| && c[..|a + b|] == a + b
    ensures |a| <= |c| && c[..|a|] == a
  {
    assert c[..|a|] == c[..|a + b|][..|a|];
  }

  /** The first error in the stream aborts runAgent with that error, wrapped, whatever follows it. */
  lemma {:induction false} ErrorAborts(items: seq<Item>, reports: seq<Report>, iteration: nat, k: nat)
    requires k < |items| && items[k].Fail?
    requires forall j :: 0 <= j < k ==> items[j].Ev? && items[j].event.response.content.Some?
    ensures Process(items, reports, iteration).Errored?
    ensures Process(items, reports, iteration).error == "error during agent execution: " + items[k].error
    decreases k
  {
    if k > 0 {
      var ev := items[0].event;
      var text := Text.TrimSpace(JoinedText(ev.response.content.value.parts));
      var (printed, next) := EventReports(ev, text, iteration);
      assert Process(items, reports, iteration) == Process(items[1..], reports + printed, next);
      assert items[1..][k - 1] == items[k];
      forall j | 0 <= j < k - 1
        ensures items[1..][j].Ev? && items[1..][j].event.response.content.Some?
      {
        assert items[1..][j] == items[j + 1];
      }
      ErrorAborts(items[1..], reports + printed, next, k - 1);
    }
  }
}
