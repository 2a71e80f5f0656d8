/**
 * The supervisor's unit tests, replayed against the StateManager and
 * HardwareManager contracts: each builds a new manager and supervisor with
 * thresholds of 20 V and 20 degrees and the placeholder controller, drives
 * the steps the test drives, and promises what the test checks.
 */
module Scenarios {

  import opened Hal
  import opened Controller
  import opened Transitions
  import opened Fsm

  const TEST_PARAMETERS := Parameters(20.0, 20.0)

  /** After Initialize the supervisor is in Boot. */
  method EntersBootState() returns (s: FsmState)
    ensures s == Boot
  {
    var hal := new HardwareManager();
    var fsm := new StateManager(TEST_PARAMETERS, hal, StubProcess);
    fsm.Initialize();
    s := fsm.GetState();
  }

  /** One step after Initialize the supervisor is in Idle, and nothing was committed. */
  method EntersIdleState() returns (s: FsmState, o: PlcOutputs)
    ensures s == Idle && o == INITIAL_OUTPUTS
  {
    var hal := new HardwareManager();
    var fsm := new StateManager(TEST_PARAMETERS, hal, StubProcess);
    fsm.Initialize();
    fsm.HandleCurrentState();
    assert hal.committed == [];
    s := fsm.GetState();
    o := hal.RetrieveOutputs();
  }

  /**
   * Closing the ignition in Idle moves the supervisor to Ignition; that step
   * drains the empty queue with exactly one receive call and commits nothing.
   */
  method EntersIgnitionState() returns (s: FsmState)
    ensures s == Ignition
  {
    var hal := new HardwareManager();
    var fsm := new StateManager(TEST_PARAMETERS, hal, StubProcess);
    fsm.Initialize();
    fsm.HandleCurrentState();

    var inputs := hal.RetrieveInputs();
    hal.SetInputs(inputs.(ignitionClosed := true));
    fsm.HandleCurrentState();
    assert hal.committed == [] && hal.receiveCalls == 1;

    s := fsm.GetState();
  }

  /**
   * With the supply one volt under the minimum, Ignition trips and the
   * supervisor is back in Idle with both duty cycles committed as zero.
   */
  method ExitsIgnitionStateOnLowSupplyVoltage() returns (s: FsmState, o: PlcOutputs)
    ensures s == Idle
    ensures o.fanPowerPercent == 0 && o.pumpPowerPercent == 0
  {
    var hal := new HardwareManager();
    var fsm := new StateManager(TEST_PARAMETERS, hal, StubProcess);
    fsm.Initialize();
    fsm.HandleCurrentState();

    var inputs := hal.RetrieveInputs();
    hal.SetInputs(inputs.(ignitionClosed := true, supplyVoltage := TEST_PARAMETERS.minVoltage - 1.0));
    fsm.HandleCurrentState();
    fsm.HandleCurrentState();

    s := fsm.GetState();
    o := hal.RetrieveOutputs();
  }

  /**
   * With the supply above the minimum but the level switch open, Ignition
   * trips on the coolant interlock and the supervisor is back in Idle.
   */
  method ExitsIgnitionStateOnLevelSwitchOpen() returns (s: FsmState, o: PlcOutputs)
    ensures s == Idle
    ensures o.fanPowerPercent == 0 && o.pumpPowerPercent == 0
  {
    var hal := new HardwareManager();
    var fsm := new StateManager(TEST_PARAMETERS, hal, StubProcess);
    fsm.Initialize();
    fsm.HandleCurrentState();

    var inputs := hal.RetrieveInputs();
    hal.SetInputs(inputs.(ignitionClosed := true, supplyVoltage := TEST_PARAMETERS.minVoltage + 1.0,
                          levelSwitchClosed := false));
    fsm.HandleCurrentState();
    fsm.HandleCurrentState();

    s := fsm.GetState();
    o := hal.RetrieveOutputs();
  }

  /**
   * With every interlock satisfied the supervisor goes Boot, Idle, Ignition,
   * Active: the Ignition step commits the pump stage and then the fan stage,
   * and the first Active step commits the placeholder controller's 80/80.
   */
  method ReachesActiveState() returns (s: FsmState, o: PlcOutputs)
    ensures s == Active
    ensures o.fanEnable && o.pumpEnable && o.pumpIgnition
    ensures o.fanPowerPercent == 80 && o.pumpPowerPercent == 80
  {
    var hal := new HardwareManager();
    var fsm := new StateManager(TEST_PARAMETERS, hal, StubProcess);
    fsm.Initialize();
    fsm.HandleCurrentState();

    var inputs := hal.RetrieveInputs();
    hal.SetInputs(inputs.(ignitionClosed := true, supplyVoltage := TEST_PARAMETERS.minVoltage,
                          levelSwitchClosed := true));
    fsm.HandleCurrentState();
    fsm.HandleCurrentState();
    assert |hal.committed| == 2;
    assert hal.committed[0].pumpEnable && hal.committed[0].pumpPowerPercent == 20 && !hal.committed[0].fanEnable;
    assert hal.committed[1].fanEnable && hal.committed[1].fanPowerPercent == 20;

    fsm.HandleCurrentState();
    s := fsm.GetState();
    o := hal.RetrieveOutputs();
  }
}
