/**
 * The StoryFlowAgent: a custom agent that runs a story generator, a
 * critic/reviser loop and a grammar/tone post-processing pipeline in turn,
 * forwards every event to its consumer, and runs the generator once more when
 * the tone check came back "negative".
 */
module StoryFlow {
  import opened Wrappers
  import opened Values
  import opened Genai
  import opened Workflow

  const GeneratorFailed := "story generator failed: "
  const LoopFailed := "loop agent failed: "
  const PostFailed := "sequential agent failed: "
  const RegenerationFailed := "story regeneration failed: "

  const StoryKey := "current_story"
  const ToneKey := "tone_check_result"

  /**
   * Builds the orchestrator from its five LLM agents. `loopErr`, `seqErr` and
   * `newErr` are what the loop, sequential and custom agent constructors
   * answer; a failure of either workflow constructor is wrapped and returned.
   */
  function NewStoryFlowAgent(
    storyGenerator: Agent, critic: Agent, reviser: Agent, grammarCheck: Agent, toneCheck: Agent,
    loopErr: Option<string>, seqErr: Option<string>, newErr: Option<string>): (r: Result<Agent>)
    ensures loopErr.Some? ==> r == Err("failed to create loop agent: " + loopErr.value)
    ensures loopErr.None? && seqErr.Some? ==> r == Err("failed to create sequential agent: " + seqErr.value)
    ensures loopErr.None? && seqErr.None? && newErr.Some? ==> r == Err(newErr.value)
    ensures r.Ok? <==> loopErr.None? && seqErr.None? && newErr.None?
    ensures r.Ok? ==> r.value.name == "StoryFlowAgent"
                      && r.value.subAgents == [storyGenerator,
                                               Loop("CriticReviserLoop", 2, [critic, reviser]),
                                               Sequential("PostProcessing", [grammarCheck, toneCheck])]
  {
    if loopErr.Some? then Err("failed to create loop agent: " + loopErr.value)
    else
      var loopAgent := Loop("CriticReviserLoop", 2, [critic, reviser]);
      if seqErr.Some? then Err("failed to create sequential agent: " + seqErr.value)
      else
        var sequentialAgent := Sequential("PostProcessing", [grammarCheck, toneCheck]);
        if newErr.Some? then Err(newErr.value)
        else Ok(Custom("StoryFlowAgent", [storyGenerator, loopAgent, sequentialAgent]))
  }

  /** The four stages, in the order Run may start them. */
  datatype Stage = Generate | Revise | PostProcess | Regenerate

  /** What Run yielded, in order, and which stages it started. */
  datatype Trace = Trace(yielded: seq<Item>, stages: seq<Stage>)

  /**
   * Forwarding one sub-agent stream after `prior` has already been yielded.
   * The consumer accepts the first `accepts` yields. An error is yielded
   * wrapped with `wrap` and ends the stream; so does an event the consumer
   * refuses. The flag says whether Run may go on to its next step.
   */
  function Forward(s: seq<Item>, wrap: string, prior: seq<Item>, accepts: nat): (seq<Item>, bool)
  {
    if s == [] then (prior, true)
    else match s[0]
      case Fail(e) => (prior + [Fail(wrap + e)], false)
      case Ev(ev) =>
        if |prior| < accepts then Forward(s[1..], wrap, prior + [Ev(ev)], accepts)
        else (prior + [Ev(ev)], false)
  }

  /** The sub-agent streams and the state snapshots Run reads between stages. */
  datatype Inputs = Inputs(
    generator: seq<Item>, loop: seq<Item>, post: seq<Item>, regeneration: seq<Item>,
    afterGeneration: State, afterPostProcessing: State)

  /** The story gate: a stored story that is not the empty string. */
  predicate HasStory(st: State) {
    StoryKey in st && st[StoryKey] != Str("")
  }

  predicate ToneNegative(st: State) {
    ToneKey in st && st[ToneKey] == Str("negative")
  }

  /** Run, stage by stage. */
  function RunSpec(inp: Inputs, accepts: nat): Trace {
    var (o1, go1) := Forward(inp.generator, GeneratorFailed, [], accepts);
    if !go1 || !HasStory(inp.afterGeneration) then Trace(o1, [Generate])
    else
      var (o2, go2) := Forward(inp.loop, LoopFailed, o1, accepts);
      if !go2 then Trace(o2, [Generate, Revise])
      else
        var (o3, go3) := Forward(inp.post, PostFailed, o2, accepts);
        if !go3 || ToneKey !in inp.afterPostProcessing then Trace(o3, [Generate, Revise, PostProcess])
        else if ToneNegative(inp.afterPostProcessing) then
          var (o4, _) := Forward(inp.regeneration, RegenerationFailed, o3, accepts);
          Trace(o4, [Generate, Revise, PostProcess, Regenerate])
        else Trace(o3, [Generate, Revise, PostProcess])
  }

  /** One for-range loop of Run: drains a sub-agent stream into the consumer. */
  method Drain(s: seq<Item>, wrap: string, prior: seq<Item>, accepts: nat)
    returns (yielded: seq<Item>, proceed: bool)
    ensures (yielded, proceed) == Forward(s, wrap, prior, accepts)
  {
    yielded := prior;
    var i := 0;
    while i < |s|
      invariant 0 <= i <= |s|
      invariant Forward(s, wrap, prior, accepts) == Forward(s[i..], wrap, yielded, accepts)
    {
      assert s[i..][0] == s[i] && s[i..][1..] == s[i + 1..];
      match s[i] {
        case Fail(e) =>
          yielded := yielded + [Fail(wrap + e)];
          return yielded, false;
        case Ev(ev) =>
          var more := |yielded| < accepts;
          yielded := yielded + [Ev(ev)];
          if !more {
            return yielded, false;
          }
      }
      i := i + 1;
    }
    return yielded, true;
  }

  /** StoryFlowAgent.Run */
  method Run(inp: Inputs, accepts: nat) returns (yielded: seq<Item>, stages: seq<Stage>)
    ensures Trace(yielded, stages) == RunSpec(inp, accepts)
  {
    var proceed;
    stages := [Generate];
    yielded, proceed := Drain(inp.generator, GeneratorFailed, [], accepts);
    if !proceed {
      return;
    }
    if StoryKey !in inp.afterGeneration || inp.afterGeneration[StoryKey] == Str("") {
      return;
    }
    stages := stages + [Revise];
    yielded, proceed := Drain(inp.loop, LoopFailed, yielded, accepts);
    if !proceed {
      return;
    }
    stages := stages + [PostProcess];
    yielded, proceed := Drain(inp.post, PostFailed, yielded, accepts);
    if !proceed {
      return;
    }
    if ToneKey !in inp.afterPostProcessing {
      return;
    }
    if inp.afterPostProcessing[ToneKey] == Str("negative") {
      stages := stages + [Regenerate];
      yielded, proceed := Drain(inp.regeneration, RegenerationFailed, yielded, accepts);
    }
  }

  // ---- Properties of the forwarding loop ----

  predicate NoFailures(s: seq<Item>) {
    forall i :: 0 <= i < |s| ==> s[i].Ev?
  }

  /** An item as Run yields it: events as they are, errors behind the stage's wrap. */
  function Wrapped(x: Item, wrap: string): Item {
    if x.Ev? then x else Fail(wrap + x.error)
  }

  /**
   * Where forwarding stops when `n` items were already yielded: the first
   * error, or the first event the consumer refuses; |s| when neither occurs.
   */
  function StopAt(s: seq<Item>, n: nat, accepts: nat): (j: nat)
    ensures j <= |s|
  {
    if s == [] || s[0].Fail? || n >= accepts then 0 else 1 + StopAt(s[1..], n + 1, accepts)
  }

  /** Every item before the stopping point is an event the consumer accepts. */
  lemma {:induction false} BeforeStopAccepted(s: seq<Item>, n: nat, accepts: nat, i: nat)
    requires i < StopAt(s, n, accepts)
    ensures s[i].Ev? && n + i < accepts
    decreases i
  {
    assert s != [] && s[0].Ev? && n < accepts;
    if i > 0 {
      BeforeStopAccepted(s[1..], n + 1, accepts, i - 1);
      assert s[1..][i - 1] == s[i];
    }
  }

  /** Everything before the stopping point is an event the consumer accepts; the item at it is an error or a refused event. */
  lemma {:induction false} StopAtFacts(s: seq<Item>, n: nat, accepts: nat)
    ensures forall i :: 0 <= i < StopAt(s, n, accepts) ==> s[i].Ev? && n + i < accepts
    ensures StopAt(s, n, accepts) < |s| ==> s[StopAt(s, n, accepts)].Fail? || n + StopAt(s, n, accepts) >= accepts
    ensures NoFailures(s) ==>
              StopAt(s, n, accepts) == if n + |s| <= accepts then |s| else if n >= accepts then 0 else accepts - n
    decreases |s|
  {
    forall i | 0 <= i < StopAt(s, n, accepts)
      ensures s[i].Ev? && n + i < accepts
    {
      BeforeStopAccepted(s, n, accepts, i);
    }
    if s != [] && s[0].Ev? && n < accepts {
      StopAtFacts(s[1..], n + 1, accepts);
      var j1 := StopAt(s[1..], n + 1, accepts);
      assert StopAt(s, n, accepts) == 1 + j1;
      if j1 < |s[1..]| {
        assert s[1..][j1] == s[1 + j1];
      }
      if NoFailures(s) {
        assert forall k :: 0 <= k < |s[1..]| ==> s[1..][k] == s[k + 1];
      }
    } else {
      assert StopAt(s, n, accepts) == 0;
    }
  }

  /**
   * Forwarding in closed form: the events before the stopping point pass
   * unchanged; at the stopping point the item is yielded (an error wrapped)
   * and Run goes no further.
   */
  lemma {:induction false} ForwardClosed(s: seq<Item>, wrap: string, prior: seq<Item>, accepts: nat)
    ensures var j := StopAt(s, |prior|, accepts);
            Forward(s, wrap, prior, accepts)
            == if j == |s| then (prior + s, true) else (prior + s[..j] + [Wrapped(s[j], wrap)], false)
    decreases |s|
  {
    if s == [] {
      assert prior + s == prior;
    } else if s[0].Fail? || |prior| >= accepts {
      assert prior + s[..0] + [Wrapped(s[0], wrap)] == prior + [Wrapped(s[0], wrap)];
    } else {
      ForwardClosed(s[1..], wrap, prior + [s[0]], accepts);
      var j := StopAt(s, |prior|, accepts);
      assert prior + [s[0]] + s[1..][..j - 1] == prior + s[..j];
      assert s[1..][j - 1..] == s[j..];
      if j == |s| {
        assert prior + [s[0]] + s[1..] == prior + s;
      }
    }
  }

  /** With an error-free stream and a consumer that takes everything, all events are forwarded in order. */
  lemma ForwardAll(s: seq<Item>, wrap: string, prior: seq<Item>, accepts: nat)
    requires NoFailures(s) && |prior| + |s| <= accepts
    ensures Forward(s, wrap, prior, accepts) == (prior + s, true)
  {
    ForwardClosed(s, wrap, prior, accepts);
    StopAtFacts(s, |prior|, accepts);
  }

  /** An error with only events before it ends forwarding with exactly that error, wrapped, after those events. */
  lemma ForwardStopsAtError(s: seq<Item>, wrap: string, prior: seq<Item>, accepts: nat, k: nat)
    requires k < |s| && s[k].Fail? && NoFailures(s[..k])
    requires |prior| + k <= accepts
    ensures Forward(s, wrap, prior, accepts) == (prior + s[..k] + [Fail(wrap + s[k].error)], false)
  {
    ForwardClosed(s, wrap, prior, accepts);
    StopAtFacts(s, |prior|, accepts);
    assert forall i :: 0 <= i < k ==> s[..k][i] == s[i];
  }

  /** When the consumer refuses the event at position `k` of an error-free stream, forwarding stops right there. */
  lemma ForwardConsumerStop(s: seq<Item>, wrap: string, prior: seq<Item>, accepts: nat)
    requires NoFailures(s) && |prior| <= accepts < |prior| + |s|
    ensures Forward(s, wrap, prior, accepts) == (prior + s[..accepts - |prior| + 1], false)
  {
    ForwardClosed(s, wrap, prior, accepts);
    StopAtFacts(s, |prior|, accepts);
    var k := accepts - |prior|;
    assert StopAt(s, |prior|, accepts) == k;
    assert Wrapped(s[k], wrap) == s[k];
    assert s[..k] + [s[k]] == s[..k + 1];
    assert prior + s[..k] + [s[k]] == prior + s[..k + 1];
  }

  // ---- Properties of Run ----

  /** The stages Run starts are always a prefix of generator, loop, post-processing, regeneration. */
  lemma StagesInOrder(inp: Inputs, accepts: nat)
    ensures var st := RunSpec(inp, accepts).stages;
            1 <= |st| <= 4 && st == [Generate, Revise, PostProcess, Regenerate][..|st|]
  {
  }

  predicate StartsWith(e: string, wrap: string) {
    |wrap| <= |e| && e[..|wrap|] == wrap
  }

  /** One stage preserves "only events so far" while Run goes on, and otherwise leaves at most a wrapped error at the end. */
  lemma {:induction false} StageShape(s: seq<Item>, wrap: string, prior: seq<Item>, accepts: nat)
    requires NoFailures(prior)
    ensures var (out, go) := Forward(s, wrap, prior, accepts);
            && |out| >= |prior|
            && (go ==> NoFailures(out))
            && (forall i :: 0 <= i < |out| - 1 ==> out[i].Ev?)
            && (|out| > 0 && out[|out| - 1].Fail? ==> |out| > |prior| && StartsWith(out[|out| - 1].error, wrap))
  {
    ForwardClosed(s, wrap, prior, accepts);
    StopAtFacts(s, |prior|, accepts);
    var j := StopAt(s, |prior|, accepts);
    var (out, go) := Forward(s, wrap, prior, accepts);
    if j == |s| {
      assert out == prior + s;
      assert NoFailures(out);
    } else {
      assert forall i :: 0 <= i < |out| - 1 ==> out[i] == (prior + s[..j])[i];
      assert out[|out| - 1] == Wrapped(s[j], wrap);
    }
  }

  /** At most one error is yielded: it is the last item and carries the wrap of the last stage started. */
  lemma {:induction false} ErrorIsLastAndWrapped(inp: Inputs, accepts: nat)
    ensures var tr := RunSpec(inp, accepts);
            && (forall i :: 0 <= i < |tr.yielded| - 1 ==> tr.yielded[i].Ev?)
            && (|tr.yielded| > 0 && tr.yielded[|tr.yielded| - 1].Fail? ==>
                  StartsWith(tr.yielded[|tr.yielded| - 1].error,
                             [GeneratorFailed, LoopFailed, PostFailed, RegenerationFailed][|tr.stages| - 1]))
  {
    var (o1, go1) := Forward(inp.generator, GeneratorFailed, [], accepts);
    StageShape(inp.generator, GeneratorFailed, [], accepts);
    if go1 && HasStory(inp.afterGeneration) {
      var (o2, go2) := Forward(inp.loop, LoopFailed, o1, accepts);
      StageShape(inp.loop, LoopFailed, o1, accepts);
      if go2 {
        var (o3, go3) := Forward(inp.post, PostFailed, o2, accepts);
        StageShape(inp.post, PostFailed, o2, accepts);
        if go3 && ToneNegative(inp.afterPostProcessing) {
          StageShape(inp.regeneration, RegenerationFailed, o3, accepts);
        }
      }
    }
  }

  /** An error from the generator is yielded once, wrapped, and no later stage starts. */
  lemma GeneratorErrorStops(inp: Inputs, accepts: nat, k: nat)
    requires k < |inp.generator| && inp.generator[k].Fail? && NoFailures(inp.generator[..k])
    requires k <= accepts
    ensures RunSpec(inp, accepts)
            == Trace(inp.generator[..k] + [Fail(GeneratorFailed + inp.generator[k].error)], [Generate])
  {
    ForwardStopsAtError(inp.generator, GeneratorFailed, [], accepts, k);
    assert [] + inp.generator[..k] == inp.generator[..k];
  }

  /** An error from the loop agent, after an untroubled first stage, is yielded wrapped and post-processing never starts. */
  lemma LoopErrorStops(inp: Inputs, accepts: nat, k: nat)
    requires NoFailures(inp.generator) && HasStory(inp.afterGeneration)
    requires k < |inp.loop| && inp.loop[k].Fail? && NoFailures(inp.loop[..k])
    requires |inp.generator| + k <= accepts
    ensures RunSpec(inp, accepts)
            == Trace(inp.generator + inp.loop[..k] + [Fail(LoopFailed + inp.loop[k].error)], [Generate, Revise])
  {
    ForwardAll(inp.generator, GeneratorFailed, [], accepts);
    assert [] + inp.generator == inp.generator;
    ForwardStopsAtError(inp.loop, LoopFailed, inp.generator, accepts, k);
  }

  /** When the consumer refuses an event of the generator, Run returns and no later stage starts. */
  lemma ConsumerStopEndsRun(inp: Inputs, accepts: nat)
    requires NoFailures(inp.generator) && accepts < |inp.generator|
    ensures RunSpec(inp, accepts) == Trace(inp.generator[..accepts + 1], [Generate])
  {
    ForwardConsumerStop(inp.generator, GeneratorFailed, [], accepts);
    assert [] + inp.generator[..accepts + 1] == inp.generator[..accepts + 1];
  }

  /** Without a non-empty story after the generator, Run ends there: no error, and no later stage. */
  lemma NoStoryStops(inp: Inputs, accepts: nat)
    requires !HasStory(inp.afterGeneration)
    ensures RunSpec(inp, accepts).stages == [Generate]
    ensures RunSpec(inp, accepts).yielded == Forward(inp.generator, GeneratorFailed, [], accepts).0
  {
  }

  /**
   * The generator runs a second time exactly when the first three stages ran
   * to completion and the tone check stored the string "negative".
   */
  lemma RegeneratesIffNegative(inp: Inputs, accepts: nat)
    ensures Regenerate in RunSpec(inp, accepts).stages <==>
            && Forward(inp.generator, GeneratorFailed, [], accepts).1
            && HasStory(inp.afterGeneration)
            && Forward(inp.loop, LoopFailed, Forward(inp.generator, GeneratorFailed, [], accepts).0, accepts).1
            && Forward(inp.post, PostFailed,
                 Forward(inp.loop, LoopFailed, Forward(inp.generator, GeneratorFailed, [], accepts).0, accepts).0,
                 accepts).1
            && ToneNegative(inp.afterPostProcessing)
  {
  }

  /** Streams of events only, a willing consumer and a stored story: every event of every stage reaches the consumer, in stage order. */
  lemma {:induction false} HappyPath(inp: Inputs, accepts: nat)
    requires NoFailures(inp.generator) && NoFailures(inp.loop) && NoFailures(inp.post) && NoFailures(inp.regeneration)
    requires |inp.generator| + |inp.loop| + |inp.post| + |inp.regeneration| <= accepts
    requires HasStory(inp.afterGeneration) && ToneKey in inp.afterPostProcessing
    ensures ToneNegative(inp.afterPostProcessing) ==>
              RunSpec(inp, accepts)
              == Trace(inp.generator + inp.loop + inp.post + inp.regeneration, [Generate, Revise, PostProcess, Regenerate])
    ensures !ToneNegative(inp.afterPostProcessing) ==>
              RunSpec(inp, accepts) == Trace(inp.generator + inp.loop + inp.post, [Generate, Revise, PostProcess])
  {
    ForwardAll(inp.generator, GeneratorFailed, [], accepts);
    assert [] + inp.generator == inp.generator;
    ForwardAll(inp.loop, LoopFailed, inp.generator, accepts);
    assert NoFailures(inp.generator + inp.loop);
    ForwardAll(inp.post, PostFailed, inp.generator + inp.loop, accepts);
    ForwardAll(inp.regeneration, RegenerationFailed, inp.generator + inp.loop + inp.post, accepts);
  }

  /** A tone that is anything but the string "negative" (another string, a number) keeps the current story. */
  lemma OtherToneKeepsStory(inp: Inputs, accepts: nat)
    requires ToneKey in inp.afterPostProcessing && inp.afterPostProcessing[ToneKey] != Str("negative")
    ensures Regenerate !in RunSpec(inp, accepts).stages
  {
  }
}
