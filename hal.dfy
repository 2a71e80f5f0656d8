/**
 * The hardware access layer: the records exchanged with the PLC and the
 * `HardwareManager` store that holds them.
 *
 * In the source the register reads are disabled and the register writes and
 * CAN transmissions are empty driver stubs, so the manager behaves as a store
 * of one input record and one output record plus a reception queue that the
 * supervisor drains. The store also keeps, as ghost state, the log of every
 * output record committed and every record flushed, so that the supervisor's
 * staged and ordered commits can be stated.
 */
module Hal {

  import opened Wrappers

  /** Maximum number of characters of a display message buffer, terminator included. */
  const DISPLAY_MESSAGE_SIZE: nat := 255

  /** Number of data bytes in a CAN frame. */
  const CAN_MESSAGE_LEN: nat := 8

  /** The coolant status shown on the display, as read from the level switch. */
  datatype CoolantStatus = Sufficient | Dry

  /**
   * A display message. The buffer holds DISPLAY_MESSAGE_SIZE characters and
   * is written with a bounded formatter, so at most one character fewer than
   * that is text: the last one is the terminator.
   */
  type DisplayMessage = s: string | |s| < DISPLAY_MESSAGE_SIZE witness ""

  /** What the display shows. */
  datatype DisplayState = DisplayState(coolantStatus: CoolantStatus, message: DisplayMessage)

  /**
   * The PLC inputs as process variables. Voltage and temperature are floats in
   * the source; they are only compared with `<` or passed through, so they
   * are reals here.
   */
  datatype PlcInputs = PlcInputs(
    supplyVoltage: real,
    ignitionClosed: bool,
    levelSwitchClosed: bool,
    temperature: real)

  /** The PLC outputs: one record, always committed whole. */
  datatype PlcOutputs = PlcOutputs(
    fanEnable: bool,
    fanPowerPercent: int,
    pumpEnable: bool,
    pumpIgnition: bool,
    pumpPowerPercent: int,
    displayState: DisplayState)

  /** The payload of one received CAN frame; the supervisor never interprets it. */
  type CanMessage = s: seq<bv8> | |s| <= CAN_MESSAGE_LEN

  /** Both power fields of an output record are duty cycles, i.e. percentages. */
  predicate PercentsInRange(o: PlcOutputs)
  {
    0 <= o.fanPowerPercent <= 100 && 0 <= o.pumpPowerPercent <= 100
  }

  /** The inputs a new manager holds: no voltage, both switches open, zero temperature. */
  const INITIAL_INPUTS := PlcInputs(0.0, false, false, 0.0)

  /** The outputs a new manager holds: everything off, display `{DRY, ""}`. */
  const INITIAL_OUTPUTS := PlcOutputs(false, 0, false, false, 0, DisplayState(Dry, ""))

  /** The last element of a non-empty log, or `default` for an empty one. */
  function LastOr<T>(log: seq<T>, default: T): (r: T)
    ensures log == [] ==> r == default
    ensures log != [] ==> r == log[|log| - 1]
  {
    if log == [] then default else log[|log| - 1]
  }

  class HardwareManager {
    /** The stored input record (`_inputs`). */
    var inputs: PlcInputs
    /** The stored output record (`_outputs`). */
    var outputs: PlcOutputs
    /** The reception queue, oldest message first. */
    var rxQueue: seq<CanMessage>

    /** Every record passed to SetOutputs, in order. */
    ghost var committed: seq<PlcOutputs>
    /** The stored output record at each FlushOutputs, in order. */
    ghost var flushed: seq<PlcOutputs>
    /** How many times ReceiveNextCanMessage has been called. */
    ghost var receiveCalls: nat

    /**
     * The store's invariant: the output record held is the last one
     * committed, or the initial one if nothing was committed yet.
     */
    ghost predicate Valid()
      reads this
    {
      outputs == LastOr(committed, INITIAL_OUTPUTS)
    }

    constructor ()
      ensures Valid()
      ensures inputs == INITIAL_INPUTS && outputs == INITIAL_OUTPUTS
      ensures rxQueue == [] && committed == [] && flushed == [] && receiveCalls == 0
    {
      inputs := INITIAL_INPUTS;
      outputs := INITIAL_OUTPUTS;
      rxQueue := [];
      committed := [];
      flushed := [];
      receiveCalls := 0;
    }

    /** Begins the HAL. Reading the registers is disabled, so nothing changes. */
    method Initialize()
      ensures unchanged(this)
    {
    }

    /**
     * Retrieves the current inputs. The register refresh that would precede
     * it is a no-op, so this is exactly the last record given to SetInputs.
     */
    method RetrieveInputs() returns (i: PlcInputs)
      ensures i == inputs
    {
      i := inputs;
    }

    /** Replaces the stored inputs (a test hook in the source). */
    method SetInputs(i: PlcInputs)
      requires Valid()
      modifies this`inputs
      ensures Valid()
      ensures inputs == i
    {
      inputs := i;
    }

    /** Retrieves the last committed output record. */
    method RetrieveOutputs() returns (o: PlcOutputs)
      requires Valid()
      ensures o == outputs
      ensures o == LastOr(committed, INITIAL_OUTPUTS)
    {
      o := outputs;
    }

    /** Commits a whole output record, replacing the stored one. */
    method SetOutputs(o: PlcOutputs)
      requires Valid()
      modifies this`outputs, this`committed
      ensures Valid()
      ensures outputs == o
      ensures committed == old(committed) + [o]
    {
      outputs := o;
      committed := committed + [o];
    }

    /** Pushes the stored output record to the hardware; no stored record changes. */
    method FlushOutputs()
      modifies this`flushed
      ensures flushed == old(flushed) + [outputs]
    {
      flushed := flushed + [outputs];
    }

    /**
     * Pops the next received message, or yields None when the queue is
     * empty. No producer fills the queue in this system, so every call
     * yields None there.
     */
    method ReceiveNextCanMessage() returns (m: Option<CanMessage>)
      modifies this`rxQueue, this`receiveCalls
      ensures receiveCalls == old(receiveCalls) + 1
      ensures old(rxQueue) == [] ==> m == None && rxQueue == []
      ensures old(rxQueue) != [] ==> m == Some(old(rxQueue)[0]) && rxQueue == old(rxQueue)[1..]
    {
      receiveCalls := receiveCalls + 1;
      if rxQueue == [] {
        m := None;
      } else {
        m := Some(rxQueue[0]);
        rxQueue := rxQueue[1..];
      }
    }
  }
}
