/**
 * The agent runtime as the examples describe it, stated as reference
 * definitions rather than verified code: how agents are wired together, how
 * a session's state follows the state deltas of the events appended to it,
 * and the order in which sequential, loop and parallel agents run their
 * children.
 */
module Workflow {
  import opened Wrappers
  import opened Values
  import opened Genai

  /** An agent's wiring, as its constructor's configuration states it. */
  datatype Agent =
    | Llm(name: string, outputKey: string, tools: seq<string>, subAgents: seq<Agent>)
    | Custom(name: string, subAgents: seq<Agent>)
    | Loop(name: string, maxIterations: nat, subAgents: seq<Agent>)
    | Sequential(name: string, subAgents: seq<Agent>)
    | Parallel(name: string, subAgents: seq<Agent>)

  /** A plain model-backed agent with no output key, tools or children. */
  function Leaf(name: string): Agent {
    Llm(name, "", [], [])
  }

  /** The names of an agent's direct children, in order. */
  function ChildNames(a: Agent): (names: seq<string>)
    ensures |names| == |a.subAgents|
    ensures forall i :: 0 <= i < |names| ==> names[i] == a.subAgents[i].name
  {
    seq(|a.subAgents|, i requires 0 <= i < |a.subAgents| => a.subAgents[i].name)
  }

  /**
   * What running an agent once yields, given the state it starts from. State
   * changes travel only as the state deltas of the yielded events.
   */
  type Behaviour = State -> seq<Event>

  /** The state after the events' deltas are applied in order. */
  function Apply(st: State, events: seq<Event>): State
    decreases events
  {
    if events == [] then st else Apply(st + events[0].actions.stateDelta, events[1..])
  }

  /** Applying a concatenation applies its halves one after the other. */
  lemma {:induction false} ApplyConcat(st: State, a: seq<Event>, b: seq<Event>)
    ensures Apply(st, a + b) == Apply(Apply(st, a), b)
    decreases a
  {
    if a == [] {
      assert a + b == b;
    } else {
      assert (a + b)[0] == a[0];
      assert (a + b)[1..] == a[1..] + b;
      ApplyConcat(st + a[0].actions.stateDelta, a[1..], b);
    }
  }

  lemma ApplyOne(st: State, e: Event)
    ensures Apply(st, [e]) == st + e.actions.stateDelta
  {
    assert [e][1..] == [];
  }

  predicate AnyEscalates(events: seq<Event>) {
    exists i :: 0 <= i < |events| && events[i].actions.escalate
  }

  /** The outcome of running a workflow: its events, the final state, how many child runs it made and whether it stopped on an escalation. */
  datatype Run = Run(events: seq<Event>, state: State, childRuns: nat, escalated: bool)

  /** A sequential agent: every child in order, each starting from the state its predecessors left. */
  function RunSequential(children: seq<Behaviour>, st: State): Run {
    if children == [] then Run([], st, 0, false)
    else
      var evs := children[0](st);
      var rest := RunSequential(children[1..], Apply(st, evs));
      Run(evs + rest.events, rest.state, rest.childRuns + 1, false)
  }

  /** One pass of a loop agent over its children: stops after the first child whose events escalate. */
  function RunPass(children: seq<Behaviour>, st: State): Run {
    if children == [] then Run([], st, 0, false)
    else
      var evs := children[0](st);
      if AnyEscalates(evs) then Run(evs, Apply(st, evs), 1, true)
      else
        var rest := RunPass(children[1..], Apply(st, evs));
        Run(evs + rest.events, rest.state, rest.childRuns + 1, rest.escalated)
  }

  /** A loop agent: passes over the children until one escalates or `iterations` passes are done. */
  function RunLoop(children: seq<Behaviour>, iterations: nat, st: State): Run {
    if iterations == 0 then Run([], st, 0, false)
    else
      var pass := RunPass(children, st);
      if pass.escalated then pass
      else
        var rest := RunLoop(children, iterations - 1, pass.state);
        Run(pass.events + rest.events, rest.state, pass.childRuns + rest.childRuns, rest.escalated)
  }

  /** A loop agent used as a child of another workflow: what it yields from a given state. */
  function LoopBehaviour(children: seq<Behaviour>, iterations: nat): Behaviour {
    st => RunLoop(children, iterations, st).events
  }

  /** A sequential agent of one step and a loop agent. */
  function StepThenLoopRun(first: Behaviour, children: seq<Behaviour>, iterations: nat, st: State): Run {
    RunSequential([first, LoopBehaviour(children, iterations)], st)
  }

  /** A step followed by a loop: the step runs once, first, and the loop starts from the state it left. */
  lemma StepThenLoop(first: Behaviour, children: seq<Behaviour>, iterations: nat, st: State)
    ensures StepThenLoopRun(first, children, iterations, st).events
            == first(st) + RunLoop(children, iterations, Apply(st, first(st))).events
  {
    SequentialHandsOver(first, LoopBehaviour(children, iterations), st);
  }

  /** A pass runs each child at most once, and all of them when nothing escalates. */
  lemma {:induction false} PassBound(children: seq<Behaviour>, st: State)
    ensures RunPass(children, st).childRuns <= |children|
    ensures !RunPass(children, st).escalated ==> RunPass(children, st).childRuns == |children|
  {
    if children != [] && !AnyEscalates(children[0](st)) {
      PassBound(children[1..], Apply(st, children[0](st)));
    }
  }

  /** A loop never makes more than iterations * |children| child runs, and makes exactly that many when it does not escalate. */
  lemma {:induction false} LoopBound(children: seq<Behaviour>, iterations: nat, st: State)
    ensures RunLoop(children, iterations, st).childRuns <= iterations * |children|
    ensures !RunLoop(children, iterations, st).escalated ==>
              RunLoop(children, iterations, st).childRuns == iterations * |children|
  {
    if iterations > 0 {
      PassBound(children, st);
      var pass := RunPass(children, st);
      if !pass.escalated {
        LoopBound(children, iterations - 1, pass.state);
        var rest := RunLoop(children, iterations - 1, pass.state);
        assert RunLoop(children, iterations, st).childRuns == |children| + rest.childRuns;
        assert (iterations - 1) * |children| + |children| == iterations * |children|;
      } else {
        assert |children| <= iterations * |children|;
      }
    }
  }

  /** The state a loop ends in is the one its own events describe. */
  lemma {:induction false} LoopStateFollowsEvents(children: seq<Behaviour>, iterations: nat, st: State)
    ensures RunLoop(children, iterations, st).state == Apply(st, RunLoop(children, iterations, st).events)
  {
    if iterations > 0 {
      PassStateFollowsEvents(children, st);
      var pass := RunPass(children, st);
      if !pass.escalated {
        LoopStateFollowsEvents(children, iterations - 1, pass.state);
        ApplyConcat(st, pass.events, RunLoop(children, iterations - 1, pass.state).events);
      }
    }
  }

  lemma {:induction false} PassStateFollowsEvents(children: seq<Behaviour>, st: State)
    ensures RunPass(children, st).state == Apply(st, RunPass(children, st).events)
  {
    if children != [] {
      var evs := children[0](st);
      if !AnyEscalates(evs) {
        PassStateFollowsEvents(children[1..], Apply(st, evs));
        ApplyConcat(st, evs, RunPass(children[1..], Apply(st, evs)).events);
      }
    }
  }

  /**
   * A parallel agent: every child starts from the same state, so none sees
   * what a sibling writes; their events are taken in child order.
   */
  function RunParallel(children: seq<Behaviour>, st: State): (evs: seq<Event>)
    ensures children == [] ==> evs == []
  {
    if children == [] then [] else children[0](st) + RunParallel(children[1..], st)
  }

  /** An agent that yields a single text answer and records it under its output key. */
  function OutputKeyAgent(name: string, key: string, reply: State -> string): Behaviour {
    st => [Event(name, LLMResponse(Some(TextContent(RoleModel, reply(st))), false),
                 Actions(false, "", false, map[key := Str(reply(st))]), [])]
  }

  /** After an output-key agent runs, its key holds its answer. */
  lemma OutputKeyRecorded(name: string, key: string, reply: State -> string, st: State)
    ensures var after := Apply(st, OutputKeyAgent(name, key, reply)(st));
            key in after && after[key] == Str(reply(st))
  {
    var evs := OutputKeyAgent(name, key, reply)(st);
    assert Apply(st, evs) == Apply(st + evs[0].actions.stateDelta, []);
  }

  /**
   * In a two-step sequential pipeline, the second step starts from the state
   * the first left behind: it sees what the first wrote under its output key.
   */
  lemma {:induction false} SequentialHandsOver(first: Behaviour, second: Behaviour, st: State)
    ensures RunSequential([first, second], st).events
            == first(st) + second(Apply(st, first(st)))
    ensures RunSequential([first, second], st).childRuns == 2
  {
    var s1 := Apply(st, first(st));
    assert [first, second][1..] == [second];
    assert [second][1..] == [];
    var s2 := Apply(s1, second(s1));
    assert RunSequential([], s2) == Run([], s2, 0, false);
    assert RunSequential([second], s1) == Run(second(s1), s2, 1, false);
  }
}
