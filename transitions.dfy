/**
 * The supervisor's state machine as a pure reference definition: for each
 * state, what one call of the step function does given the input snapshot
 * and the output record it retrieves. A step is summarised by the state it
 * leaves the supervisor in and the output records it commits, in order.
 * The imperative StateManager (module Fsm) is proved to perform exactly
 * these effects; the lemmas here state what the effects mean.
 */
module Transitions {

  import opened Wrappers
  import opened Hal
  import opened Controller

  /**
   * The state tag. StateMin and StateMax are sentinels bracketing the five
   * operational states; the dispatcher treats them as invalid.
   */
  datatype FsmState = StateMin | Boot | FatalError | Idle | Ignition | Active | StateMax

  /** One of the five states the dispatcher has a handler for. */
  predicate IsOperational(s: FsmState)
  {
    !s.StateMin? && !s.StateMax?
  }

  /** The states whose handler drains the reception queue. */
  predicate DrainsQueue(s: FsmState)
  {
    s.Idle? || s.Active?
  }

  /** Configuration fixed at construction. */
  datatype Parameters = Parameters(minVoltage: real, temperatureSetpoint: real)

  /** The three interlocks checked in Ignition and Active. */
  datatype Interlock = UnderVoltage | CoolantLow | IgnitionOpen

  /** The position of an interlock in the fixed evaluation order. */
  function Rank(g: Interlock): nat
  {
    match g
    case UnderVoltage => 0
    case CoolantLow => 1
    case IgnitionOpen => 2
  }

  /** Whether interlock `g` is satisfied by the snapshot `i`. */
  predicate Holds(g: Interlock, p: Parameters, i: PlcInputs)
  {
    match g
    case UnderVoltage => !(i.supplyVoltage < p.minVoltage)
    case CoolantLow => i.levelSwitchClosed
    case IgnitionOpen => i.ignitionClosed
  }

  /**
   * The interlock that trips, evaluated first-to-fail: under-voltage, then
   * coolant level, then ignition. Once one fails the later ones are not
   * looked at.
   */
  function TrippedInterlock(p: Parameters, i: PlcInputs): (r: Option<Interlock>)
    ensures r.None? <==> forall g :: Holds(g, p, i)
    ensures r.Some? ==> !Holds(r.value, p, i)
    ensures r.Some? ==> forall g :: Rank(g) < Rank(r.value) ==> Holds(g, p, i)
  {
    if i.supplyVoltage < p.minVoltage then
      assert !Holds(UnderVoltage, p, i);
      Some(UnderVoltage)
    else if !i.levelSwitchClosed then
      assert !Holds(CoolantLow, p, i);
      Some(CoolantLow)
    else if !i.ignitionClosed then
      assert !Holds(IgnitionOpen, p, i);
      Some(IgnitionOpen)
    else
      None
  }

  /** What one step does: the state it leaves, the records it commits in order, the interlock it reports. */
  datatype StepResult = StepResult(next: FsmState, commits: seq<PlcOutputs>, tripped: Option<Interlock>)

  const READY_MESSAGE: DisplayMessage := "Ready for ignition."
  const REFILL_MESSAGE: DisplayMessage := "Coolant refill required."

  /**
   * Boot: run the self-tests and go to Idle, or to FatalError if they fail.
   * No outputs either way. The handler hard-wires the self-tests to pass, so
   * the failing case is the source's unreachable branch.
   */
  function BootStep(selfTestsOk: bool): (r: StepResult)
    ensures r.next == Idle || r.next == FatalError
    ensures r.next == Idle <==> selfTestsOk
    ensures r.commits == [] && r.tripped.None?
  {
    StepResult(if selfTestsOk then Idle else FatalError, [], None)
  }

  /** The display Idle shows for a given level switch reading. */
  function CoolantDisplay(levelSwitchClosed: bool): DisplayState
  {
    if levelSwitchClosed then DisplayState(Sufficient, READY_MESSAGE)
    else DisplayState(Dry, REFILL_MESSAGE)
  }

  /**
   * Idle: on ignition go to Ignition without committing; otherwise refresh
   * the display from the level switch and commit.
   */
  function IdleStep(i: PlcInputs, o: PlcOutputs): (r: StepResult)
    ensures r.next == Idle || r.next == Ignition
    ensures r.next == Ignition <==> i.ignitionClosed
    ensures r.commits == [] <==> i.ignitionClosed
    ensures |r.commits| <= 1 && r.tripped.None?
    ensures forall c | c in r.commits ::
      && c == o.(displayState := c.displayState)
      && (c.displayState.coolantStatus == Sufficient <==> i.levelSwitchClosed)
  {
    if i.ignitionClosed then StepResult(Ignition, [], None)
    else StepResult(Idle, [o.(displayState := CoolantDisplay(i.levelSwitchClosed))], None)
  }

  /** The record committed when an interlock trips: both duty cycles set to zero. */
  function Disabled(o: PlcOutputs): PlcOutputs
  {
    o.(fanPowerPercent := 0, pumpPowerPercent := 0)
  }

  /** The first staged record: the pump enabled, ignited and at 20%. */
  function PumpStaged(o: PlcOutputs): PlcOutputs
  {
    o.(pumpEnable := true, pumpIgnition := true, pumpPowerPercent := 20)
  }

  /** The second staged record: the fan enabled at 20% on top of the first. */
  function FanStaged(o: PlcOutputs): PlcOutputs
  {
    o.(fanEnable := true, fanPowerPercent := 20)
  }

  /**
   * Ignition: if an interlock trips, commit the disabled record and go back
   * to Idle; otherwise commit the pump stage, then the fan stage, and go to
   * Active.
   */
  function IgnitionStep(p: Parameters, i: PlcInputs, o: PlcOutputs): (r: StepResult)
    ensures r.tripped == TrippedInterlock(p, i)
    ensures r.next == Active || r.next == Idle
    ensures r.next == Active <==> r.tripped.None?
    ensures |r.commits| == (if r.tripped.None? then 2 else 1)
    ensures forall c | c in r.commits :: c.displayState == o.displayState
    ensures forall c | c in r.commits :: r.tripped.Some? ==> c.fanPowerPercent == 0 && c.pumpPowerPercent == 0
  {
    match TrippedInterlock(p, i)
    case Some(g) => StepResult(Idle, [Disabled(o)], Some(g))
    case None => StepResult(Active, [PumpStaged(o), FanStaged(PumpStaged(o))], None)
  }

  /**
   * Active: if an interlock trips, commit the disabled record (marking the
   * coolant DRY when it is the level switch that tripped) and go back to Idle;
   * otherwise commit the controller's duty cycles and stay.
   */
  function ActiveStep(p: Parameters, law: ControlLaw, i: PlcInputs, o: PlcOutputs): (r: StepResult)
    ensures r.tripped == TrippedInterlock(p, i)
    ensures r.next == Active || r.next == Idle
    ensures r.next == Active <==> r.tripped.None?
    ensures |r.commits| == 1
    ensures forall c | c in r.commits ::
      && c.fanEnable == o.fanEnable && c.pumpEnable == o.pumpEnable && c.pumpIgnition == o.pumpIgnition
      && c.displayState.message == o.displayState.message
    ensures forall c | c in r.commits :: r.tripped.Some? ==> c.fanPowerPercent == 0 && c.pumpPowerPercent == 0
  {
    match TrippedInterlock(p, i)
    case Some(CoolantLow) =>
      StepResult(Idle, [Disabled(o.(displayState := o.displayState.(coolantStatus := Dry)))], Some(CoolantLow))
    case Some(g) => StepResult(Idle, [Disabled(o)], Some(g))
    case None =>
      var d := law(i.temperature);
      StepResult(Active, [o.(fanPowerPercent := d.fanPercent, pumpPowerPercent := d.pumpPercent)], None)
  }

  /**
   * One call of the step function from state `s`, with snapshot `i` and
   * retrieved outputs `o`. The self-tests are hard-wired to pass. Every step
   * leaves one of the five operational states and commits at most two
   * records; only a passing Ignition commits two.
   */
  function Transition(p: Parameters, law: ControlLaw, s: FsmState, i: PlcInputs, o: PlcOutputs): (r: StepResult)
    ensures IsOperational(r.next)
    ensures |r.commits| <= 2
    ensures |r.commits| == 2 <==> s == Ignition && TrippedInterlock(p, i).None?
    ensures r.commits == [] <==> !(s.Idle? || s.Ignition? || s.Active?) || (s == Idle && i.ignitionClosed)
  {
    match s
    case Boot => BootStep(true)
    case FatalError => StepResult(FatalError, [], None)
    case Idle => IdleStep(i, o)
    case Ignition => IgnitionStep(p, i, o)
    case Active => ActiveStep(p, law, i, o)
    case _ => StepResult(FatalError, [], None)
  }

  /** The outputs held after a step: the last record committed, or the old one. */
  function OutputsAfter(r: StepResult, o: PlcOutputs): PlcOutputs
  {
    LastOr(r.commits, o)
  }

  /**
   * The supervisor's safety invariant over its state and the stored outputs:
   * duty cycles are percentages; away from Active both are zero; in Active
   * fan and pump are enabled and the pump ignited.
   */
  predicate Safe(s: FsmState, o: PlcOutputs)
  {
    && PercentsInRange(o)
    && (s != Active ==> o.fanPowerPercent == 0 && o.pumpPowerPercent == 0)
    && (s == Active ==> o.fanEnable && o.pumpEnable && o.pumpIgnition)
  }

  // ---------------------------------------------------------------------
  // Properties of a single step
  // ---------------------------------------------------------------------

  /** Boot, whose self-tests are hard-wired to pass, reaches Idle and commits nothing. */
  lemma BootOutcome(p: Parameters, law: ControlLaw, i: PlcInputs, o: PlcOutputs)
    ensures Transition(p, law, Boot, i, o) == StepResult(Idle, [], None)
  {
  }

  /** FatalError is absorbing, and every tag outside the five states faults, without output. */
  lemma FatalErrorAbsorbs(p: Parameters, law: ControlLaw, s: FsmState, i: PlcInputs, o: PlcOutputs)
    requires s == FatalError || !IsOperational(s)
    ensures Transition(p, law, s, i, o) == StepResult(FatalError, [], None)
  {
  }

  /** Idle with the ignition closed moves to Ignition and commits nothing. */
  lemma IdleOnIgnition(p: Parameters, law: ControlLaw, i: PlcInputs, o: PlcOutputs)
    requires i.ignitionClosed
    ensures Transition(p, law, Idle, i, o) == StepResult(Ignition, [], None)
  {
  }

  /**
   * Idle with the ignition open stays Idle and commits exactly one record,
   * which differs from the retrieved one only in its display: SUFFICIENT with
   * the ready message iff the level switch is closed, DRY with the refill
   * message otherwise.
   */
  lemma IdleRefreshesDisplay(p: Parameters, law: ControlLaw, i: PlcInputs, o: PlcOutputs)
    requires !i.ignitionClosed
    ensures var r := Transition(p, law, Idle, i, o);
      && r.next == Idle
      && |r.commits| == 1
      && r.commits[0] == o.(displayState := r.commits[0].displayState)
      && (r.commits[0].displayState.coolantStatus == Sufficient <==> i.levelSwitchClosed)
      && r.commits[0].displayState.message == (if i.levelSwitchClosed then READY_MESSAGE else REFILL_MESSAGE)
  {
  }

  /**
   * An interlock trip in Ignition or Active commits one record with both duty
   * cycles zero that keeps every other retrieved field, enable flags
   * included, except that in Active a coolant trip marks the coolant DRY;
   * the supervisor returns to Idle.
   */
  lemma TripDisables(p: Parameters, law: ControlLaw, s: FsmState, i: PlcInputs, o: PlcOutputs)
    requires s == Ignition || s == Active
    requires TrippedInterlock(p, i).Some?
    ensures var r := Transition(p, law, s, i, o);
      && r.next == Idle
      && r.tripped == TrippedInterlock(p, i)
      && |r.commits| == 1
      && r.commits[0].fanPowerPercent == 0 && r.commits[0].pumpPowerPercent == 0
      && r.commits[0].fanEnable == o.fanEnable
      && r.commits[0].pumpEnable == o.pumpEnable
      && r.commits[0].pumpIgnition == o.pumpIgnition
      && r.commits[0].displayState.message == o.displayState.message
      && r.commits[0].displayState.coolantStatus
         == (if s == Active && r.tripped == Some(CoolantLow) then Dry else o.displayState.coolantStatus)
  {
  }

  /**
   * Short circuit: when the supply voltage is low the under-voltage interlock
   * is the one reported, whatever the switches read, so in Active a dry
   * level switch does not then mark the coolant DRY. A voltage equal to the
   * minimum passes.
   */
  lemma UnderVoltageFiresFirst(p: Parameters, law: ControlLaw, i: PlcInputs, o: PlcOutputs)
    ensures i.supplyVoltage < p.minVoltage ==>
      && TrippedInterlock(p, i) == Some(UnderVoltage)
      && Transition(p, law, Active, i, o).commits == [Disabled(o)]
    ensures i.supplyVoltage == p.minVoltage ==> TrippedInterlock(p, i) != Some(UnderVoltage)
  {
  }

  /**
   * Ignition with every interlock passing goes to Active after two commits:
   * first the pump enabled, ignited and at 20% with the fan fields as
   * retrieved, then the same record with the fan enabled at 20%.
   */
  lemma IgnitionStagesPumpThenFan(p: Parameters, law: ControlLaw, i: PlcInputs, o: PlcOutputs)
    requires TrippedInterlock(p, i).None?
    ensures var r := Transition(p, law, Ignition, i, o);
      && r.next == Active
      && |r.commits| == 2
      && r.commits[0].pumpEnable && r.commits[0].pumpIgnition && r.commits[0].pumpPowerPercent == 20
      && r.commits[0].fanEnable == o.fanEnable && r.commits[0].fanPowerPercent == o.fanPowerPercent
      && r.commits[0].displayState == o.displayState
      && r.commits[1] == r.commits[0].(fanEnable := true, fanPowerPercent := 20)
  {
  }

  /**
   * Active with every interlock passing stays Active and commits one record
   * whose duty cycles are the controller's for the current temperature and
   * whose other fields are as retrieved.
   */
  lemma ActiveFollowsController(p: Parameters, law: ControlLaw, i: PlcInputs, o: PlcOutputs)
    requires TrippedInterlock(p, i).None?
    ensures var r := Transition(p, law, Active, i, o);
      && r.next == Active
      && |r.commits| == 1
      && r.commits[0].fanPowerPercent == law(i.temperature).fanPercent
      && r.commits[0].pumpPowerPercent == law(i.temperature).pumpPercent
      && r.commits[0] == o.(fanPowerPercent := r.commits[0].fanPowerPercent,
                            pumpPowerPercent := r.commits[0].pumpPowerPercent)
  {
  }

  /**
   * A step that stays in Idle or Active and commits, repeated with the same
   * inputs on the record it committed, does exactly the same again.
   */
  lemma SelfLoopIdempotent(p: Parameters, law: ControlLaw, s: FsmState, i: PlcInputs, o: PlcOutputs)
    requires Transition(p, law, s, i, o).next == s
    requires Transition(p, law, s, i, o).commits != []
    ensures s == Idle || s == Active
    ensures var r := Transition(p, law, s, i, o);
      Transition(p, law, s, i, OutputsAfter(r, o)) == r
  {
  }

  /**
   * Of the parameters a step reads only the minimum voltage: two parameter
   * sets that agree on it give the same step, whatever their setpoints.
   */
  lemma ReadsOnlyMinVoltage(p: Parameters, q: Parameters, law: ControlLaw, s: FsmState, i: PlcInputs, o: PlcOutputs)
    requires p.minVoltage == q.minVoltage
    ensures Transition(p, law, s, i, o) == Transition(q, law, s, i, o)
  {
  }

  /** Every record a step commits from in-range outputs has its duty cycles in 0..100. */
  lemma CommitsStayInRange(p: Parameters, law: ControlLaw, s: FsmState, i: PlcInputs, o: PlcOutputs)
    requires PercentsInRange(o)
    ensures forall c | c in Transition(p, law, s, i, o).commits :: PercentsInRange(c)
  {
  }

  /** One step keeps the safety invariant, and every record it commits is in range. */
  lemma StepKeepsSafe(p: Parameters, law: ControlLaw, s: FsmState, i: PlcInputs, o: PlcOutputs)
    requires Safe(s, o)
    ensures var r := Transition(p, law, s, i, o);
      && Safe(r.next, OutputsAfter(r, o))
      && forall c | c in r.commits :: PercentsInRange(c)
  {
    CommitsStayInRange(p, law, s, i, o);
  }
}
