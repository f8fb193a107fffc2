/** The heater output: a power percentage clamped and scaled to the 8-bit
    PWM range, and the proportional law that chooses the percentage. */
module Heater {

  /** The largest PWM value the heater pin accepts. */
  const PWM_MAX: int := 255

  /** The fixed proportional gain: percent of power per degree of error. */
  const GAIN: real := 0.8

  /** The PWM value written for a power request of `percentage`. With
      `highOff` (a MOSFET that is off when driven high) the request is
      inverted first. Below 0 % the pin gets 0, above 100 % it gets 255,
      in between the scaled value truncated towards zero. */
  function Duty(percentage: real, highOff: bool): (d: int)
    ensures 0 <= d <= PWM_MAX
    ensures var p := if highOff then 100.0 - percentage else percentage;
      (p < 0.0 ==> d == 0) &&
      (p > 100.0 ==> d == PWM_MAX) &&
      (0.0 <= p <= 100.0 ==> d as real <= p * 255.0 / 100.0 < d as real + 1.0)
  {
    var p := if highOff then 100.0 - percentage else percentage;
    if p < 0.0 then 0
    else if p > 100.0 then PWM_MAX
    else (p * 255.0 / 100.0).Floor
  }

  /** More requested power never gives a smaller PWM value (a smaller one
      with an inverted MOSFET). */
  lemma DutyMonotone(p: real, q: real, highOff: bool)
    requires p <= q
    ensures if highOff then Duty(q, highOff) <= Duty(p, highOff) else Duty(p, highOff) <= Duty(q, highOff)
  {
  }

  /** The pin is fully on exactly when 100 % or more is requested. */
  lemma DutyFullIff(p: real)
    ensures Duty(p, false) == PWM_MAX <==> p >= 100.0
  {
  }

  /** The pin is fully off exactly when less than one PWM unit, 20/51 %,
      is requested: truncation turns small requests into nothing. */
  lemma DutyOffIff(p: real)
    ensures Duty(p, false) == 0 <==> p < 20.0 / 51.0
  {
  }

  /** The power the controller requests: the gain times how far the
      measured temperature is below the setpoint. */
  function Command(setTemperature: real, currentTemperature: real): (r: real)
    ensures r > 0.0 <==> setTemperature > currentTemperature
    ensures r == 0.0 <==> setTemperature == currentTemperature
  {
    (setTemperature - currentTemperature) * GAIN
  }

  /** At or above the setpoint the heater is off. */
  lemma ControlOffAtOrAboveSetpoint(setTemperature: real, currentTemperature: real)
    requires setTemperature <= currentTemperature
    ensures Duty(Command(setTemperature, currentTemperature), false) == 0
  {
  }

  /** Full power exactly when the measured temperature is 125 degrees or
      more below the setpoint (0.8 * 125 = 100 %). */
  lemma ControlFullIff(setTemperature: real, currentTemperature: real)
    ensures Duty(Command(setTemperature, currentTemperature), false) == PWM_MAX
        <==> setTemperature - currentTemperature >= 125.0
  {
  }

  /** The heater is off exactly when the error is below 25/51 degree:
      above the setpoint, at it, and just below it. */
  lemma ControlOffIff(setTemperature: real, currentTemperature: real)
    ensures Duty(Command(setTemperature, currentTemperature), false) == 0
        <==> setTemperature - currentTemperature < 25.0 / 51.0
  {
  }

  /** A larger error never gives less heat. */
  lemma ControlMonotone(set1: real, current1: real, set2: real, current2: real)
    requires set1 - current1 <= set2 - current2
    ensures Duty(Command(set1, current1), false) <= Duty(Command(set2, current2), false)
  {
  }
}
