# Liquid-cooling supervisor: a verified Dafny model

This project models the supervisor state machine of a liquid-cooling appliance
(pump, fan and display, driven from an ignition switch, a coolant level switch,
the supply voltage and a temperature sensor), together with the hardware
access layer it reads and commits through.

- `hal.dfy` (module `Hal`): the PLC input and output records, the coolant
  status, the bounded display message (`DISPLAY_MESSAGE_SIZE` = 255, so at most
  254 characters of text), and the `HardwareManager` class. The manager is a
  store of one input record and one output record plus a reception queue. For
  the proofs it also keeps a ghost log of every committed record, a ghost log
  of every flushed record, and a ghost count of receive calls.
- `controller.dfy` (module `Controller`): the feedback controller as seen by
  the supervisor. It is a control law from temperature to a fan and a pump
  duty cycle, each typed as a percentage 0..100. `StubProcess` is the
  placeholder law, which returns 80/80.
- `transitions.dfy` (module `Transitions`): the reference definition of one
  step for each state. It covers the seven-valued tag with its `StateMin` and
  `StateMax` sentinels, the three interlocks and their first-to-fail order, and
  the records each handler commits, in order. The lemmas state what each step
  means.
- `fsm.dfy` (module `Fsm`): the imperative `StateManager` class. It has the
  fields `params`, `hal`, `controller` and `state`. It has one method per
  handler, a drain loop over the reception queue, and the dispatcher
  `HandleCurrentState`. The early exit to the disabling code is a labelled
  block left with `break`. Each handler is proved to perform exactly the
  effect its reference step assigns. It commits the same records in the same
  order, flushes each one, leaves the inputs alone, and drains the queue only
  in Idle and Active.
- `runs.dfy` (module `Runs`): sequences of steps, with one input snapshot per
  step, because a test or the hardware may change the inputs between steps.
  It proves four things by induction: FatalError is absorbing, a run commits
  at most two records per step, the safety invariant holds along every run,
  and a self-looping step repeats the same commit.
- `scenarios.dfy` (module `Scenarios`): the unit tests of the repository,
  replayed as client methods against the class contracts. It adds one
  scenario that reaches Active.

The safety invariant (`Transitions.Safe`) has three parts:
- both duty cycles are in 0..100;
- in every state other than Active, both duty cycles are zero;
- in Active, the fan and the pump are enabled and the pump is ignited.

It holds after `Initialize`, and every step keeps it.

Some facts hold by construction:
- `CoolantStatus` has exactly two values.
- `Parameters` has exactly the two fields `minVoltage` and `temperatureSetpoint`.
- `params`, `hal` and `controller` are `const` fields, so nothing writes them
  after construction.
- Only `minVoltage` is read, by the interlocks (`Transitions.ReadsOnlyMinVoltage`).
- Both display messages have the type `DisplayMessage`, so they fit the buffer.

Three behaviours of the code are easy to misread; the model follows the code:
- The controller is built with the setpoint (src/controller.h:12,
  src/main.cpp:30), but `process` receives the temperature only
  (src/fsm.cpp:226). The constructor assigns the parameter to itself
  (src/controller.cpp:7), so the setpoint is never stored. The control law is
  therefore a function of temperature alone.
- The comment on the trip path says `Disable the equipment` (src/fsm.cpp:174,
  src/fsm.cpp:235), but the code only zeroes the two duty cycles. The enable
  flags and the pump ignition keep their retrieved values
  (`Transitions.TripDisables`).
- Idle returns before committing when the ignition is closed
  (src/fsm.cpp:100-104), so that step commits no output record
  (`Transitions.IdleOnIgnition`).

## Model

| member | source | states |
|---|---|---|
| `Hal.HardwareManager.constructor` | src/hal.cpp:22-34 | A new manager holds the inputs 0 V, ignition open, level open, 0 degrees. It holds the outputs all disabled, both duty cycles 0, display `{DRY, ""}`. The queue and the logs are empty. |
| `Hal.HardwareManager.Initialize` | src/hal.cpp:39-41 | Changes nothing, because the register read it calls is disabled. |
| `Hal.HardwareManager.RetrieveInputs` | src/hal.cpp:48-51 | Returns exactly the stored input record, because the register refresh is a no-op. Nothing changes. |
| `Hal.HardwareManager.SetInputs` | src/hal.cpp:65-67 | Replaces the stored inputs and nothing else. With RetrieveInputs this gives the round trip. |
| `Hal.HardwareManager.RetrieveOutputs` | src/hal.cpp:74-76 | Returns the stored output record, which is the last record committed (or the initial one). |
| `Hal.HardwareManager.SetOutputs` | src/hal.cpp:83-86 | Replaces the whole stored output record and appends it to the commit log. The inputs are unchanged. |
| `Hal.HardwareManager.FlushOutputs` | src/hal.cpp:92-94 | Leaves the stored inputs and outputs unchanged and records the flushed record. |
| `Hal.HardwareManager.ReceiveNextCanMessage` | src/hal.cpp:105-107 | Yields None exactly when the queue is empty, otherwise pops the oldest message. Each call is counted. No producer fills the queue, so every call yields None, as in the stub. |
| `Controller.StubProcess` | src/controller.cpp:22-28 | The placeholder update yields 80% fan and 80% pump. |
| `Controller.StubProcessIgnoresTemperature` | src/controller.cpp:22-28 | The placeholder gives the same demand for every temperature. |
| `Transitions.TrippedInterlock` | src/fsm.cpp:132-149 | None iff all three interlocks hold. Otherwise it reports a failing interlock all of whose predecessors in the order voltage, coolant, ignition hold. |
| `Transitions.Transition` | src/fsm.cpp:19-41 | Every step, from any of the seven tags, leaves one of the five operational states. It commits at most two records. It commits exactly two iff it is a passing Ignition step. It commits none iff the tag is not Idle, Ignition or Active, or it is Idle with the ignition closed. |
| `Transitions.BootStep` | src/fsm.cpp:55-70 | Boot commits nothing and reports no interlock. It reaches Idle iff the self-tests pass, and FatalError otherwise. The failing case is the source's unreachable branch. |
| `Transitions.IdleStep` | src/fsm.cpp:82-119 | Idle goes to Ignition, committing nothing, iff the ignition is closed. Otherwise it stays Idle and commits one record that differs from the retrieved one only in its display, SUFFICIENT iff the level switch is closed. |
| `Transitions.IgnitionStep` | src/fsm.cpp:124-183 | Ignition reports the first failing interlock. It goes to Active with two commits iff none fails, and otherwise to Idle with one commit whose duty cycles are 0. The display is never changed. |
| `Transitions.ActiveStep` | src/fsm.cpp:188-244 | Active reports the first failing interlock. It stays Active iff none fails and goes to Idle otherwise. It always commits one record that keeps the enable flags, the pump ignition and the message; on a trip its duty cycles are 0. |
| `Transitions.BootOutcome` | src/fsm.cpp:55-70 | Boot reaches Idle without committing, because the self-tests are hard-wired to pass. |
| `Transitions.FatalErrorAbsorbs` | src/fsm.cpp:36-39 | From FatalError, or from either sentinel, a step ends in FatalError and commits nothing. |
| `Transitions.ReadsOnlyMinVoltage` | src/fsm.h:30-35 | Two parameter sets with the same minimum voltage give the same step from every state, whatever their setpoints. |
| `Transitions.IdleOnIgnition` | src/fsm.cpp:99-104 | Idle with the ignition closed moves to Ignition and commits nothing. |
| `Transitions.IdleRefreshesDisplay` | src/fsm.cpp:106-118 | Idle with the ignition open stays Idle and commits one record. The record equals the retrieved one except for the display. The status is SUFFICIENT iff the level switch is closed, with "Ready for ignition." or "Coolant refill required.". |
| `Transitions.TripDisables` | src/fsm.cpp:173-182 | A trip in Ignition or Active reports the tripped interlock and returns to Idle. It commits one record with both duty cycles 0. The enable flags, the pump ignition and the message are as retrieved. The coolant status becomes DRY only for a coolant trip in Active. |
| `Transitions.UnderVoltageFiresFirst` | src/fsm.cpp:207-216 | A low supply voltage is reported before any switch reading, so a dry level switch then leaves the display alone in Active. A voltage equal to the minimum passes (strict `<`). |
| `Transitions.IgnitionStagesPumpThenFan` | src/fsm.cpp:151-171 | A passing Ignition step goes to Active after two commits in order. The first has the pump enabled, ignited and at 20%, with the fan fields and the display as retrieved. The second is the same plus the fan enabled at 20%. |
| `Transitions.ActiveFollowsController` | src/fsm.cpp:225-232 | A passing Active step stays Active and commits one record. Its fan and pump duty cycles are the controller's for the current temperature; every other field is as retrieved. |
| `Transitions.SelfLoopIdempotent` | src/fsm.cpp:106-118 | Only Idle and Active self-loop with a commit. Repeating such a step with the same inputs on the record it committed gives the same result. |
| `Transitions.CommitsStayInRange` | src/hal.h:55-62 | From outputs whose duty cycles are percentages, every record a step commits has duty cycles in 0..100. |
| `Transitions.StepKeepsSafe` | src/fsm.cpp:151-182 | One step keeps the safety invariant. |
| `Fsm.StateManager.constructor` | src/fsm.h:45-46 | Stores `params`, `hal` and `controller` as given. The state tag is left unassigned, and the supervisor is not initialized yet. |
| `Fsm.StateManager.Initialize` | src/fsm.cpp:9-14 | Sets the state to Boot and marks the supervisor initialized. The hardware manager is unchanged. |
| `Fsm.StateManager.GetState` | src/fsm.cpp:48-50 | Returns the current state and changes nothing. |
| `Fsm.StateManager.HandleCurrentState` | src/fsm.cpp:19-41 | Requires Initialize. Performs exactly the effect of `Transition` on the old state, inputs and outputs. It drains the queue only from Idle or Active and keeps the safety invariant. Every record it commits is in range when the old outputs were. |
| `Fsm.StateManager.HandleFatalError` | src/fsm.cpp:75-77 | Changes nothing: neither the supervisor nor the hardware manager. |
| `Fsm.StateManager.HandleBoot` | src/fsm.cpp:55-70 | Sets the state to Idle, the outcome of Boot with passing self-tests. |
| `Fsm.StateManager.DrainReceiveQueue` | src/fsm.cpp:92-97 | Empties the reception queue with one receive call per queued message plus the final empty one. It touches nothing else. |
| `Fsm.StateManager.HandleIdle` | src/fsm.cpp:82-119 | Performs exactly `IdleStep` on the retrieved inputs and outputs, after draining the queue. |
| `Fsm.StateManager.HandleIgnition` | src/fsm.cpp:124-183 | Performs exactly `IgnitionStep`: the same records committed in the same order, each flushed. The queue is left alone. |
| `Fsm.StateManager.HandleActive` | src/fsm.cpp:188-244 | Performs exactly `ActiveStep` with the supervisor's control law, after draining the queue. |
| `Runs.FatalErrorIsAbsorbing` | src/fsm.cpp:75-77 | A run of any length from FatalError stays in FatalError and commits nothing. |
| `Runs.CommitsPerStepBounded` | src/fsm.cpp:151-171 | A run commits at most two records per step. |
| `Runs.RunKeepsSafe` | src/fsm.cpp:19-41 | Along every run that starts safe, the final configuration is safe and every committed record has both duty cycles in 0..100. |
| `Runs.RunFromStartIsSafe` | src/hal.cpp:28-33 | The configuration after construction and Initialize is safe, so every run from it is. |
| `Runs.SelfLoopRepeats` | src/fsm.cpp:225-232 | n+1 steps of a self-looping Idle or Active step with unchanged inputs commit the same record every time and stay in that state. |
| `Runs.UnderVoltageScenario` | src/fsm.cpp:134-137 | With the unit tests' thresholds 20/20 (tests/main.cpp:16): Boot, then Idle, then Ignition at 19 V. The third step trips on under-voltage, back to Idle, with exactly one commit whose duty cycles are 0. |
| `Scenarios.EntersBootState` | tests/main.cpp:11-27 | After Initialize the state is Boot. |
| `Scenarios.EntersIdleState` | tests/main.cpp:32-50 | One step after Initialize the state is Idle and the outputs are still the initial ones. |
| `Scenarios.EntersIgnitionState` | tests/main.cpp:56-80 | Closing the ignition in Idle leads to Ignition. |
| `Scenarios.ExitsIgnitionStateOnLowSupplyVoltage` | tests/main.cpp:87-114 | One volt under the minimum: back in Idle with both duty cycles 0. |
| `Scenarios.ExitsIgnitionStateOnLevelSwitchOpen` | tests/main.cpp:121-149 | Level switch open: back in Idle with both duty cycles 0. |
| `Scenarios.ReachesActiveState` | src/fsm.cpp:151-171 | At exactly the minimum voltage with both switches closed: Active with everything enabled. The staged commits come pump first, then fan, and the first Active step commits the placeholder 80/80. |

## Left out

- Console output: the diagnostics written to the console by every handler are not modelled. A step reports the interlock that tripped as `StepResult.tripped` instead.
- Display text formatting: the bounded formatter that writes the two display messages is not modelled. The messages are string constants whose type proves they fit the buffer.
- Register and CAN plumbing: `writePlcRegisters`, `readBooleanPlcRegister`, `readFloatPlcRegister`, `writePlcRegister` and `sendCanMessage` are left out. They are empty driver stubs with no observable effect.
- `readPlcRegisters` is left out: its body is commented out. `HardwareManager.initialize` only calls it, so `Hal.HardwareManager.Initialize` is modelled as an empty method that changes nothing.
- Floating point: voltage, temperature and setpoint are reals. The code only compares the voltage with `<` and passes the temperature through, so IEEE rounding and NaN are out of scope.
- Integer width: the duty cycles are unbounded integers. Only 0, 20 and controller values in 0..100 are ever stored, so 32-bit overflow cannot arise.
- Controller internals: the PID placeholder, `ControlManager::initialize` and the constructor's self-assignment are left out. The controller is any total law from temperature to two percentages, and the 80/80 stub is one instance.
- Process bootstrap: argument parsing, the usage message and the endless driver loop in src/main.cpp are left out. Finite runs of steps are modelled in `Runs` instead.
- Concurrency: the separate receiving thread and the real queue are left out. The queue is a sequence that the supervisor alone consumes, and nothing in this system adds to it.
- Out-of-range tags: the C++ `default:` branch (src/fsm.cpp:36-39) also catches integer values outside the enumeration. `FsmState` has only its seven constructors, so such values cannot be represented; the model's `default:` covers the two sentinels.
- Uninitialized state: the tag's value before `initialize` is indeterminate in C++. The constructor leaves it unassigned, and `HandleCurrentState` requires that `Initialize` has run. The reference `Transition` still covers every tag, including the sentinels.
