/**
 * The feedback controller as the supervisor sees it: given the current
 * temperature it yields a fan and a pump duty cycle, each a percentage.
 * Its algorithm is a placeholder in this system; any control law of the type
 * below can be plugged into the supervisor, and the placeholder is given as
 * StubProcess.
 */
module Controller {

  /** A duty cycle in percent. */
  type Percent = x: int | 0 <= x <= 100

  /** What one controller update yields. */
  datatype Demand = Demand(fanPercent: Percent, pumpPercent: Percent)

  /** A control law: the controller's update for a given temperature. */
  type ControlLaw = real -> Demand

  /** The placeholder update: 80% fan and 80% pump whatever the temperature. */
  function StubProcess(temperature: real): (d: Demand)
    ensures d.fanPercent == 80 && d.pumpPercent == 80
  {
    Demand(80, 80)
  }

  /** The placeholder ignores the temperature: any two readings give the same demand. */
  lemma StubProcessIgnoresTemperature(t: real, t': real)
    ensures StubProcess(t) == StubProcess(t')
  {
  }
}
