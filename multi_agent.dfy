/**
 * The multi-agent patterns: the `Checker` and `StopChecker` custom agents
 * that end a loop by escalating, the status poller and code refinement loops
 * built around them, and the sequential and parallel pipelines that pass
 * results through output keys.
 */
module MultiAgent {
  import opened Wrappers
  import opened Values
  import opened Genai
  import opened Workflow

  /** An event that carries only an author and an escalation flag. */
  function SignalEvent(author: string, escalate: bool): Event {
    Event(author, LLMResponse(None, false), Actions(escalate, "", false, map[]), [])
  }

  /** The status the Checker compares: the stored value, or "pending" when there is none. */
  function CheckerStatus(st: State): (v: Value)
    ensures "status" !in st ==> v == Str("pending")
    ensures "status" in st ==> v == st["status"]
  {
    if "status" in st then st["status"] else Str("pending")
  }

  /** The hierarchy snippet's Coordinator: a model agent with the Greeter and the custom TaskExecutor as its children. */
  const CoordinatorConfig := Llm("Coordinator", "", [], [Leaf("Greeter"), Custom("TaskExecutor", [])])

  /** The Coordinator's children are Greeter then TaskExecutor, the second a custom agent, and neither has children of its own. */
  lemma CoordinatorHierarchy()
    ensures ChildNames(CoordinatorConfig) == ["Greeter", "TaskExecutor"]
    ensures CoordinatorConfig.subAgents[0].Llm? && CoordinatorConfig.subAgents[1].Custom?
    ensures forall c :: c in CoordinatorConfig.subAgents ==> c.subAgents == []
  {
  }

  /** The Checker's run: one event that escalates once the status is "completed". */
  function Checker(st: State): (events: seq<Event>)
    ensures |events| == 1 && events[0].author == "Checker"
    ensures events[0].actions.escalate <==> ("status" in st && st["status"] == Str("completed"))
    ensures events[0].actions.stateDelta == map[]
  {
    [SignalEvent("Checker", CheckerStatus(st) == Str("completed"))]
  }

  /** The StopChecker's run: one event that escalates once the quality status is "pass". */
  function StopChecker(st: State): (events: seq<Event>)
    ensures |events| == 1 && events[0].author == "StopChecker"
    ensures events[0].actions.escalate <==> ("quality_status" in st && st["quality_status"] == Str("pass"))
    ensures events[0].actions.stateDelta == map[]
  {
    var shouldStop := "quality_status" in st && st["quality_status"] == Str("pass");
    [SignalEvent("StopChecker", shouldStop)]
  }

  predicate Completed(st: State) {
    "status" in st && st["status"] == Str("completed")
  }

  const PollerConfig := Loop("StatusPoller", 10, [Leaf("ProcessingStep"), Custom("Checker", [])])

  /** The status poller as configured: ProcessingStep then Checker, for at most the configured number of passes. */
  function Poller(process: Behaviour, st: State): Run {
    RunLoop([process, Checker], PollerConfig.maxIterations, st)
  }

  /**
   * Whatever the processing step does, the poller's two children run at most
   * 20 times in all, and exactly 20 times when nothing escalates.
   */
  lemma PollerBounded(process: Behaviour, st: State)
    ensures |PollerConfig.subAgents| == 2
    ensures Poller(process, st).childRuns <= 20
    ensures !Poller(process, st).escalated ==> Poller(process, st).childRuns == 20
  {
    LoopBound([process, Checker], PollerConfig.maxIterations, st);
  }

  /**
   * When the processing step (which does not escalate itself) leaves the
   * status "completed", the Checker right after it escalates and the poller
   * stops after those two runs.
   */
  lemma {:induction false} PollerStopsOnCompleted(process: Behaviour, st: State)
    requires !AnyEscalates(process(st))
    requires Completed(Apply(st, process(st)))
    ensures Poller(process, st).escalated
    ensures Poller(process, st).childRuns == 2
    ensures Poller(process, st).events == process(st) + Checker(Apply(st, process(st)))
  {
    var s1 := Apply(st, process(st));
    assert [process, Checker][1..] == [Checker];
    assert Checker(s1)[0].actions.escalate;
    assert AnyEscalates(Checker(s1));
    assert RunPass([Checker], s1) == Run(Checker(s1), Apply(s1, Checker(s1)), 1, true);
  }

  /** When no run of the processing step ever completes, nothing escalates and all 10 iterations run. */
  lemma {:induction false} PollerRunsAllIterations(process: Behaviour, st: State, n: nat)
    requires forall s :: !Completed(Apply(s, process(s))) && !AnyEscalates(process(s))
    ensures !RunLoop([process, Checker], n, st).escalated
    ensures RunLoop([process, Checker], n, st).childRuns == 2 * n
    decreases n
  {
    if n > 0 {
      var s1 := Apply(st, process(st));
      assert [process, Checker][1..] == [Checker];
      assert [Checker][1..] == [];
      assert !Checker(s1)[0].actions.escalate;
      assert !AnyEscalates(Checker(s1));
      assert RunPass([Checker], s1).childRuns == 1 && !RunPass([Checker], s1).escalated;
      var pass := RunPass([process, Checker], st);
      assert pass.childRuns == 2 && !pass.escalated;
      PollerRunsAllIterations(process, pass.state, n - 1);
    }
  }

  const RefinementLoopConfig := Loop("CodeRefinementLoop", 5,
    [Llm("CodeRefiner", "current_code", [], []), Llm("QualityChecker", "quality_status", [], []),
     Custom("StopChecker", [])])

  /** The code refinement loop as configured: CodeRefiner, QualityChecker, StopChecker, for at most the configured number of passes. */
  function RefinementLoop(refine: State -> string, judge: State -> string, st: State): Run {
    RunLoop([OutputKeyAgent("CodeRefiner", RefinementLoopConfig.subAgents[0].outputKey, refine),
             OutputKeyAgent("QualityChecker", RefinementLoopConfig.subAgents[1].outputKey, judge),
             StopChecker], RefinementLoopConfig.maxIterations, st)
  }

  /**
   * Whatever the refiner and the quality checker answer, the loop's three
   * children run at most 15 times in all, and exactly 15 times when the
   * StopChecker never sees "pass".
   */
  lemma RefinementBounded(refine: State -> string, judge: State -> string, st: State)
    ensures |RefinementLoopConfig.subAgents| == 3
    ensures RefinementLoop(refine, judge, st).childRuns <= 15
    ensures !RefinementLoop(refine, judge, st).escalated ==> RefinementLoop(refine, judge, st).childRuns == 15
  {
    LoopBound([OutputKeyAgent("CodeRefiner", "current_code", refine),
               OutputKeyAgent("QualityChecker", "quality_status", judge),
               StopChecker], 5, st);
  }

  /**
   * When the quality checker answers "pass" in the first iteration, the
   * StopChecker escalates and the loop ends after three runs.
   */
  lemma {:induction false} RefinementStopsOnPass(refine: State -> string, judge: State -> string, st: State)
    requires judge(Apply(st, OutputKeyAgent("CodeRefiner", "current_code", refine)(st))) == "pass"
    ensures RefinementLoop(refine, judge, st).escalated
    ensures RefinementLoop(refine, judge, st).childRuns == 3
  {
    var refiner := OutputKeyAgent("CodeRefiner", "current_code", refine);
    var checker := OutputKeyAgent("QualityChecker", "quality_status", judge);
    var kids := [refiner, checker, StopChecker];
    var s1 := Apply(st, refiner(st));
    var s2 := Apply(s1, checker(s1));
    OutputKeyRecorded("QualityChecker", "quality_status", judge, s1);
    assert !refiner(st)[0].actions.escalate;
    assert !AnyEscalates(refiner(st));
    assert !checker(s1)[0].actions.escalate;
    assert !AnyEscalates(checker(s1));
    assert StopChecker(s2)[0].actions.escalate;
    assert AnyEscalates(StopChecker(s2));
    assert kids[1..] == [checker, StopChecker];
    assert kids[1..][1..] == [StopChecker];
    assert RunPass([StopChecker], s2).escalated && RunPass([StopChecker], s2).childRuns == 1;
    assert RunPass(kids, st).escalated && RunPass(kids, st).childRuns == 3;
  }

  /** The "Paris" pipeline: AgentB starts from a state where `capital_city` holds AgentA's answer. */
  lemma CityInfoHandsOver(answer: State -> string, agentB: Behaviour, st: State)
    ensures var agentA := OutputKeyAgent("AgentA", "capital_city", answer);
            var seen := Apply(st, agentA(st));
            && RunSequential([agentA, agentB], st).events == agentA(st) + agentB(seen)
            && "capital_city" in seen && seen["capital_city"] == Str(answer(st))
  {
    var agentA := OutputKeyAgent("AgentA", "capital_city", answer);
    SequentialHandsOver(agentA, agentB, st);
    OutputKeyRecorded("AgentA", "capital_city", answer, st);
  }

  /** The ConcurrentFetch gatherer as a behaviour of its own. */
  function ConcurrentFetch(api1: State -> string, api2: State -> string): Behaviour {
    st => RunParallel([OutputKeyAgent("API1Fetcher", "api1_data", api1),
                       OutputKeyAgent("API2Fetcher", "api2_data", api2)], st)
  }

  /** Both fetchers answer from the starting state, so neither sees the other's result. */
  lemma GatherBoth(api1: State -> string, api2: State -> string, st: State)
    ensures ConcurrentFetch(api1, api2)(st)
            == OutputKeyAgent("API1Fetcher", "api1_data", api1)(st)
               + OutputKeyAgent("API2Fetcher", "api2_data", api2)(st)
  {
    var f1 := OutputKeyAgent("API1Fetcher", "api1_data", api1);
    var f2 := OutputKeyAgent("API2Fetcher", "api2_data", api2);
    assert [f1, f2][1..] == [f2];
    assert [f2][1..] == [];
    assert RunParallel([f2], st) == f2(st);
  }

  /** After the gatherer, the state holds both fetchers' results. */
  lemma {:induction false} GatheredState(api1: State -> string, api2: State -> string, st: State)
    ensures var seen := Apply(st, ConcurrentFetch(api1, api2)(st));
            && "api1_data" in seen && seen["api1_data"] == Str(api1(st))
            && "api2_data" in seen && seen["api2_data"] == Str(api2(st))
  {
    var f1 := OutputKeyAgent("API1Fetcher", "api1_data", api1);
    var f2 := OutputKeyAgent("API2Fetcher", "api2_data", api2);
    GatherBoth(api1, api2, st);
    var e1 := f1(st)[0];
    var e2 := f2(st)[0];
    assert f1(st) == [e1] && f2(st) == [e2];
    var s1 := st + map["api1_data" := Str(api1(st))];
    var s2 := s1 + map["api2_data" := Str(api2(st))];
    ApplyOne(st, e1);
    ApplyOne(s1, e2);
    ApplyConcat(st, [e1], [e2]);
    assert Apply(st, [e1] + [e2]) == s2;
  }

  /**
   * Fetch-and-synthesize: the synthesizer, placed after the gatherer in a
   * sequential agent, starts from the state the gatherer left, which holds
   * both results.
   */
  lemma FetchAndSynthesize(api1: State -> string, api2: State -> string, synth: Behaviour, st: State)
    ensures var gathered := ConcurrentFetch(api1, api2)(st);
            var seen := Apply(st, gathered);
            && RunSequential([ConcurrentFetch(api1, api2), synth], st).events == gathered + synth(seen)
            && "api1_data" in seen && "api2_data" in seen
  {
    SequentialHandsOver(ConcurrentFetch(api1, api2), synth, st);
    GatheredState(api1, api2, st);
  }
}
