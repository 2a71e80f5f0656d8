/**
 * The supervisor itself: a StateManager object holding its parameters, the
 * hardware manager, the controller and the current state tag. Each call of
 * HandleCurrentState dispatches on the tag to one handler, which retrieves
 * the inputs and outputs, drains the reception queue where it should,
 * checks the interlocks in order and commits whole output records. Every
 * handler is proved to have exactly the effect that module Transitions
 * assigns to its state.
 */
module Fsm {

  import opened Wrappers
  import opened Hal
  import opened Controller
  import opened Transitions

  class StateManager {
    /** Configuration; never written after construction. */
    const params: Parameters
    /** The hardware manager the supervisor reads and commits through. */
    const hal: HardwareManager
    /** The feedback controller's update. */
    const controller: ControlLaw

    /** The current state tag. */
    var state: FsmState
    /** Whether Initialize has run; the tag is meaningless before. */
    ghost var initialized: bool

    /** Stores the collaborators as given. The state tag is left unassigned. */
    constructor (params: Parameters, hal: HardwareManager, controller: ControlLaw)
      ensures this.params == params && this.hal == hal && this.controller == controller
      ensures !initialized
    {
      this.params := params;
      this.hal := hal;
      this.controller := controller;
      initialized := false;
    }

    /**
     * The effect of one handler in terms of its reference step `r`: the new
     * state, the records committed and flushed (each commit is flushed
     * before the next), the stored outputs, and the reception queue, which
     * is drained to empty with one receive call per message plus the final
     * empty one when `drained` holds and left alone otherwise. The stored
     * inputs never change.
     */
    twostate predicate Performed(r: StepResult, drained: bool)
      reads this, hal
    {
      && state == r.next
      && hal.inputs == old(hal.inputs)
      && hal.committed == old(hal.committed) + r.commits
      && hal.flushed == old(hal.flushed) + r.commits
      && hal.outputs == OutputsAfter(r, old(hal.outputs))
      && (if drained then
            hal.rxQueue == [] && hal.receiveCalls == old(hal.receiveCalls) + |old(hal.rxQueue)| + 1
          else
            hal.rxQueue == old(hal.rxQueue) && hal.receiveCalls == old(hal.receiveCalls))
    }

    /** Begins the state machine: initializes the collaborators and sets the state to Boot. */
    method Initialize()
      modifies this`state, this`initialized
      ensures state == Boot && initialized
    {
      hal.Initialize();
      state := Boot;
      initialized := true;
    }

    /** The current state, with no side effect. */
    method GetState() returns (s: FsmState)
      ensures s == state
    {
      s := state;
    }

    /**
     * Executes the handler of the current state; an invalid tag sends the
     * supervisor to FatalError. The step keeps the safety invariant.
     */
    method HandleCurrentState()
      requires initialized && hal.Valid()
      modifies this`state, hal
      ensures hal.Valid()
      ensures Performed(Transition(params, controller, old(state), old(hal.inputs), old(hal.outputs)),
                        DrainsQueue(old(state)))
      ensures Safe(old(state), old(hal.outputs)) ==> Safe(state, hal.outputs)
      ensures PercentsInRange(old(hal.outputs)) ==>
                forall c | c in hal.committed[|old(hal.committed)|..] :: PercentsInRange(c)
    {
      if Safe(state, hal.outputs) {
        StepKeepsSafe(params, controller, state, hal.inputs, hal.outputs);
      }
      if PercentsInRange(hal.outputs) {
        CommitsStayInRange(params, controller, state, hal.inputs, hal.outputs);
      }
      match state
      case Boot =>
        HandleBoot();
      case FatalError =>
        HandleFatalError();
      case Idle =>
        HandleIdle();
      case Ignition =>
        HandleIgnition();
      case Active =>
        HandleActive();
      case _ =>
        state := FatalError;
    }

    /** Boot: the self-tests are hard-wired to pass, so the supervisor goes to Idle. */
    method HandleBoot()
      modifies this`state
      ensures state == BootStep(true).next
    {
      var selfTestsOk := false;
      // The self-tests themselves are a placeholder that always passes.
      selfTestsOk := true;
      state := if selfTestsOk then Idle else FatalError;
    }

    /** FatalError: nothing is actuated and nothing changes. */
    method HandleFatalError()
      ensures unchanged(this, hal)
    {
    }

    /** Receives and discards messages until the reception queue reports empty. */
    method DrainReceiveQueue()
      modifies hal`rxQueue, hal`receiveCalls
      ensures hal.rxQueue == []
      ensures hal.receiveCalls == old(hal.receiveCalls) + |old(hal.rxQueue)| + 1
    {
      var message := hal.ReceiveNextCanMessage();
      while message.Some?
        invariant |hal.rxQueue| <= |old(hal.rxQueue)|
        invariant hal.rxQueue == old(hal.rxQueue)[|old(hal.rxQueue)| - |hal.rxQueue|..]
        invariant message.None? ==> hal.rxQueue == []
        invariant hal.receiveCalls
                  == old(hal.receiveCalls) + |old(hal.rxQueue)| - |hal.rxQueue| + (if message.None? then 1 else 0)
        decreases |hal.rxQueue| + (if message.Some? then 1 else 0)
      {
        // The message itself is not handled.
        message := hal.ReceiveNextCanMessage();
      }
    }

    /** Idle: drain the queue, then either go to Ignition or refresh the display and commit. */
    method HandleIdle()
      requires state == Idle && hal.Valid()
      modifies this`state, hal
      ensures hal.Valid()
      ensures Performed(IdleStep(old(hal.inputs), old(hal.outputs)), true)
    {
      var inputs := hal.RetrieveInputs();
      var outputs := hal.RetrieveOutputs();

      DrainReceiveQueue();

      if inputs.ignitionClosed {
        state := Ignition;
        return;
      }

      if inputs.levelSwitchClosed {
        outputs := outputs.(displayState := outputs.displayState.(coolantStatus := Sufficient, message := READY_MESSAGE));
      } else {
        outputs := outputs.(displayState := outputs.displayState.(coolantStatus := Dry, message := REFILL_MESSAGE));
      }

      hal.SetOutputs(outputs);
      hal.FlushOutputs();
    }

    /**
     * Ignition: check the interlocks in order; on a trip zero both duty
     * cycles, commit and go to Idle; otherwise commit the pump stage, then
     * the fan stage, and go to Active.
     */
    method HandleIgnition()
      requires hal.Valid()
      modifies this`state, hal
      ensures hal.Valid()
      ensures Performed(IgnitionStep(params, old(hal.inputs), old(hal.outputs)), false)
    {
      var inputs := hal.RetrieveInputs();
      var outputs := hal.RetrieveOutputs();

      label guards: {
        if inputs.supplyVoltage < params.minVoltage {
          break guards;
        }
        if inputs.levelSwitchClosed == false {
          break guards;
        }
        if inputs.ignitionClosed == false {
          break guards;
        }

        outputs := outputs.(pumpEnable := true, pumpIgnition := true, pumpPowerPercent := 20);
        hal.SetOutputs(outputs);
        hal.FlushOutputs();

        outputs := outputs.(fanEnable := true, fanPowerPercent := 20);
        hal.SetOutputs(outputs);
        hal.FlushOutputs();

        state := Active;
        return;
      }

      outputs := outputs.(fanPowerPercent := 0, pumpPowerPercent := 0);
      hal.SetOutputs(outputs);
      hal.FlushOutputs();
      state := Idle;
    }

    /**
     * Active: drain the queue, check the interlocks in order; on a trip zero
     * both duty cycles (marking the coolant DRY on a level trip), commit and
     * go to Idle; otherwise commit the controller's duty cycles.
     */
    method HandleActive()
      requires state == Active && hal.Valid()
      modifies this`state, hal
      ensures hal.Valid()
      ensures Performed(ActiveStep(params, controller, old(hal.inputs), old(hal.outputs)), true)
    {
      var inputs := hal.RetrieveInputs();
      var outputs := hal.RetrieveOutputs();

      DrainReceiveQueue();

      label guards: {
        if inputs.supplyVoltage < params.minVoltage {
          break guards;
        }
        if inputs.levelSwitchClosed == false {
          outputs := outputs.(displayState := outputs.displayState.(coolantStatus := Dry));
          break guards;
        }
        if inputs.ignitionClosed == false {
          break guards;
        }

        var demand := controller(inputs.temperature);
        outputs := outputs.(fanPowerPercent := demand.fanPercent, pumpPowerPercent := demand.pumpPercent);
        hal.SetOutputs(outputs);
        hal.FlushOutputs();
        return;
      }

      outputs := outputs.(fanPowerPercent := 0, pumpPowerPercent := 0);
      hal.SetOutputs(outputs);
      hal.FlushOutputs();
      state := Idle;
    }
  }
}
