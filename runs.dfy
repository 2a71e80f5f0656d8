/**
 * Sequences of steps. Between steps the input snapshot may be replaced (by
 * the hardware, or by a test through SetInputs); a run takes one snapshot
 * per step and threads the state and the stored outputs from step to step,
 * collecting every record committed.
 */
module Runs {

  import opened Wrappers
  import opened Hal
  import opened Controller
  import opened Transitions

  /** The part of the system a step depends on and changes: the tag and the stored outputs. */
  datatype Configuration = Configuration(state: FsmState, outputs: PlcOutputs)

  /** Where a run ends, and every record it committed, in order. */
  datatype RunResult = RunResult(final: Configuration, commits: seq<PlcOutputs>)

  /** `|env|` steps from `c`, the k-th seeing snapshot `env[k]`. */
  function Run(p: Parameters, law: ControlLaw, c: Configuration, env: seq<PlcInputs>): RunResult
    decreases |env|
  {
    if env == [] then RunResult(c, [])
    else
      var r := Transition(p, law, c.state, env[0], c.outputs);
      var rest := Run(p, law, Configuration(r.next, OutputsAfter(r, c.outputs)), env[1..]);
      RunResult(rest.final, r.commits + rest.commits)
  }

  /** The configuration right after Initialize on a new hardware manager. */
  const START := Configuration(Boot, INITIAL_OUTPUTS)

  /** Once in FatalError the supervisor stays there and commits nothing, whatever the inputs. */
  lemma {:induction false} FatalErrorIsAbsorbing(p: Parameters, law: ControlLaw, o: PlcOutputs, env: seq<PlcInputs>)
    ensures Run(p, law, Configuration(FatalError, o), env) == RunResult(Configuration(FatalError, o), [])
    decreases |env|
  {
    if env != [] {
      FatalErrorIsAbsorbing(p, law, o, env[1..]);
    }
  }

  /** A run never commits more than two records per step. */
  lemma {:induction false} CommitsPerStepBounded(p: Parameters, law: ControlLaw, c: Configuration, env: seq<PlcInputs>)
    ensures |Run(p, law, c, env).commits| <= 2 * |env|
    decreases |env|
  {
    if env != [] {
      var r := Transition(p, law, c.state, env[0], c.outputs);
      CommitsPerStepBounded(p, law, Configuration(r.next, OutputsAfter(r, c.outputs)), env[1..]);
    }
  }

  /**
   * The safety invariant holds along every run that starts in it: the run
   * ends in it, and every record it commits has both duty cycles in 0..100.
   */
  lemma {:induction false} RunKeepsSafe(p: Parameters, law: ControlLaw, c: Configuration, env: seq<PlcInputs>)
    requires Safe(c.state, c.outputs)
    ensures var rr := Run(p, law, c, env);
      && Safe(rr.final.state, rr.final.outputs)
      && forall k | 0 <= k < |rr.commits| :: PercentsInRange(rr.commits[k])
    decreases |env|
  {
    if env != [] {
      var r := Transition(p, law, c.state, env[0], c.outputs);
      StepKeepsSafe(p, law, c.state, env[0], c.outputs);
      var c' := Configuration(r.next, OutputsAfter(r, c.outputs));
      RunKeepsSafe(p, law, c', env[1..]);
      var rest := Run(p, law, c', env[1..]);
      assert Run(p, law, c, env).commits == r.commits + rest.commits;
      forall k | 0 <= k < |r.commits + rest.commits|
        ensures PercentsInRange((r.commits + rest.commits)[k])
      {
        if k < |r.commits| {
          assert (r.commits + rest.commits)[k] == r.commits[k];
        } else {
          assert (r.commits + rest.commits)[k] == rest.commits[k - |r.commits|];
        }
      }
    }
  }

  /** The start configuration satisfies the safety invariant, so every run from it keeps it. */
  lemma RunFromStartIsSafe(p: Parameters, law: ControlLaw, env: seq<PlcInputs>)
    ensures var rr := Run(p, law, START, env);
      && Safe(rr.final.state, rr.final.outputs)
      && forall k | 0 <= k < |rr.commits| :: PercentsInRange(rr.commits[k])
  {
    RunKeepsSafe(p, law, START, env);
  }

  /**
   * Repeating the same snapshot in Idle or Active, once the step self-loops,
   * commits the same record every time and stays put.
   */
  lemma {:induction false} SelfLoopRepeats(p: Parameters, law: ControlLaw, s: FsmState, i: PlcInputs, o: PlcOutputs, n: nat)
    requires Transition(p, law, s, i, o).next == s
    requires Transition(p, law, s, i, o).commits != []
    ensures var c := OutputsAfter(Transition(p, law, s, i, o), o);
      var rr := Run(p, law, Configuration(s, o), seq(n + 1, _ => i));
      && rr.final == Configuration(s, c)
      && |rr.commits| == n + 1
      && forall k | 0 <= k < n + 1 :: rr.commits[k] == c
    decreases n
  {
    var r := Transition(p, law, s, i, o);
    var c := OutputsAfter(r, o);
    SelfLoopIdempotent(p, law, s, i, o);
    assert |r.commits| == 1 && r.commits == [c];
    var env := seq(n + 1, _ => i);
    assert env[0] == i && env[1..] == seq(n, _ => i);
    if n == 0 {
      assert Run(p, law, Configuration(s, c), []) == RunResult(Configuration(s, c), []);
    } else {
      SelfLoopRepeats(p, law, s, i, c, n - 1);
    }
  }

  /**
   * An under-voltage scenario with the thresholds the unit tests use
   * (minimum voltage 20, setpoint 20): Boot goes to Idle; with ignition
   * closed, level closed and 19 V the next step enters Ignition and the one
   * after trips on under-voltage, back to Idle with both duty cycles zero.
   */
  lemma UnderVoltageScenario(law: ControlLaw)
    ensures var low := PlcInputs(19.0, true, true, 0.0);
      var rr := Run(Parameters(20.0, 20.0), law, START, [INITIAL_INPUTS, low, low]);
      && rr.final.state == Idle
      && rr.commits == [Disabled(INITIAL_OUTPUTS)]
      && rr.final.outputs.fanPowerPercent == 0 && rr.final.outputs.pumpPowerPercent == 0
  {
    var p := Parameters(20.0, 20.0);
    var low := PlcInputs(19.0, true, true, 0.0);
    var idle := Configuration(Idle, INITIAL_OUTPUTS);
    var ignition := Configuration(Ignition, INITIAL_OUTPUTS);
    var back := Configuration(Idle, Disabled(INITIAL_OUTPUTS));
    assert TrippedInterlock(p, low) == Some(UnderVoltage);
    assert Run(p, law, back, []) == RunResult(back, []);
    assert Run(p, law, ignition, [low]) == RunResult(back, [Disabled(INITIAL_OUTPUTS)]);
    assert [low, low][1..] == [low];
    assert Run(p, law, idle, [low, low]) == RunResult(back, [Disabled(INITIAL_OUTPUTS)]);
    assert [INITIAL_INPUTS, low, low][1..] == [low, low];
  }
}
