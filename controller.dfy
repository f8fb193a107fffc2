/** The firmware's global state and the routines of the main loop that
    change it: the encoder poll, the setpoint update, the heater control
    step, the edit-mode toggle, and the loop pass that gates and orders
    them. Pin reads, the temperature sensor and the millisecond counter
    come in as parameters; the heater pin's PWM value is a field. */
module HeaterProject {
  import opened Clock
  import opened Encoder
  import opened Heater

  /** The edit-mode flag after a logical negation of the int `state`. */
  function Toggled(state: int): (r: int)
    ensures r == 0 || r == 1
    ensures r == 1 <==> state == 0
  {
    if state == 0 then 1 else 0
  }

  /** Toggling a flag that is 0 or 1 twice gives it back; any other value
      is normalised to 1 by the first toggle pair. */
  lemma ToggleTwiceRestores(state: int)
    ensures Toggled(Toggled(state)) == if state == 0 then 0 else 1
  {
  }

  class Controller {
    /** Whether the heater MOSFET is off when driven high (the request is
        then inverted before scaling). */
    const highOff: bool

    var currentTemperature: real
    var setTemperature: real
    var lastEncoderState: Level
    var encoderSteps: int
    var editModeToggleState: int
    /** The counter reading stored the last time the loop's gate fired. */
    var millisLast: Millis
    /** The PWM value last written to the heater pin. */
    var heaterDuty: int

    /** Every encoder sample polled since power-up. */
    ghost var history: seq<Sample>

    /** The state invariant. The decoder remembers the last phase-A level
        it read; every step it has ever decoded is either already added to
        the setpoint or still pending in the counter, never both and never
        lost; the edit flag is 0 or 1; the pin holds a valid PWM value. */
    ghost predicate Valid()
      reads this
    {
      && lastEncoderState == FinalA(0, history)
      && setTemperature == (NetSteps(0, history) - encoderSteps) as real
      && (editModeToggleState == 0 || editModeToggleState == 1)
      && 0 <= heaterDuty <= PWM_MAX
    }

    /** Power-up: every global is zero, the stored timestamp is the counter
        reading at start-up, the heater pin is low. */
    constructor (bootMillis: Millis, highOff: bool)
      ensures Valid()
      ensures this.highOff == highOff
      ensures currentTemperature == 0.0 && setTemperature == 0.0
      ensures lastEncoderState == 0 && encoderSteps == 0 && editModeToggleState == 0
      ensures millisLast == bootMillis && heaterDuty == 0
      ensures history == []
    {
      this.highOff := highOff;
      currentTemperature, setTemperature := 0.0, 0.0;
      lastEncoderState, encoderSteps, editModeToggleState := 0, 0, 0;
      millisLast, heaterDuty := bootMillis, 0;
      history := [];
    }

    /** One poll of the encoder with phase levels `a` and `b`. */
    method HandleEncoder(a: Level, b: Level)
      requires Valid()
      modifies this`lastEncoderState, this`encoderSteps, this`history
      ensures Valid()
      ensures encoderSteps == old(encoderSteps) + StepDelta(old(lastEncoderState), a, b)
      ensures lastEncoderState == a
      ensures history == old(history) + [Sample(a, b)]
    {
      NetStepsAppend(0, history, [Sample(a, b)]);
      if a != lastEncoderState {
        if b != a {
          encoderSteps := encoderSteps + 1;
        } else {
          encoderSteps := encoderSteps - 1;
        }
      }
      lastEncoderState := a;
      history := history + [Sample(a, b)];
    }

    /** Drains the pending encoder steps into the setpoint, stores the new
        sensor reading `sensed` and writes the setpoint itself to the
        heater as a percentage. */
    method UpdateValues(sensed: real)
      requires Valid()
      modifies this`setTemperature, this`encoderSteps, this`currentTemperature, this`heaterDuty
      ensures Valid()
      ensures setTemperature == old(setTemperature) + old(encoderSteps) as real
      ensures encoderSteps == 0
      ensures currentTemperature == sensed
      ensures heaterDuty == Duty(setTemperature, highOff)
    {
      setTemperature := setTemperature + encoderSteps as real;
      encoderSteps := 0;
      currentTemperature := sensed;
      heaterDuty := Duty(setTemperature, highOff);
    }

    /** Flips the edit-mode flag. */
    method EditModeToggle()
      requires Valid()
      modifies this`editModeToggleState
      ensures Valid()
      ensures editModeToggleState == Toggled(old(editModeToggleState))
      ensures editModeToggleState == 1 - old(editModeToggleState)
    {
      editModeToggleState := Toggled(editModeToggleState);
    }

    /** Writes the proportional power command to the heater. */
    method TempControl()
      requires Valid()
      modifies this`heaterDuty
      ensures Valid()
      ensures heaterDuty == Duty(Command(setTemperature, currentTemperature), highOff)
    {
      heaterDuty := Duty(Command(setTemperature, currentTemperature), highOff);
    }

    /** One pass of the main loop. `nowCheck` is the counter read by the
        gate's test and `nowStore` the one read again when the gate fires;
        `sensed` is the temperature the sensor gives if the values are
        updated; `a` and `b` are the encoder levels polled at the end.
        `fired` says whether the gate fired; `writes` lists the values
        written to the heater pin in this pass, in order. */
    method Loop(nowCheck: Millis, nowStore: Millis, sensed: real, a: Level, b: Level)
      returns (fired: bool, writes: seq<int>)
      requires Valid()
      modifies this
      ensures Valid()
      ensures fired == GateFires(nowCheck, old(millisLast))
      ensures millisLast == if fired then nowStore else old(millisLast)
      ensures setTemperature == if fired then old(setTemperature) + old(encoderSteps) as real else old(setTemperature)
      ensures currentTemperature == if fired then sensed else old(currentTemperature)
      ensures encoderSteps == (if fired then 0 else old(encoderSteps)) + StepDelta(old(lastEncoderState), a, b)
      ensures lastEncoderState == a
      ensures history == old(history) + [Sample(a, b)]
      ensures editModeToggleState == old(editModeToggleState)
      ensures heaterDuty == Duty(Command(setTemperature, currentTemperature), highOff)
      ensures writes == (if fired then [Duty(setTemperature, highOff)] else []) + [heaterDuty]
    {
      writes := [];
      fired := GateFires(nowCheck, millisLast);
      if fired {
        millisLast := nowStore;
        UpdateValues(sensed);
        writes := writes + [heaterDuty];
      }
      TempControl();
      writes := writes + [heaterDuty];
      HandleEncoder(a, b);
    }
  }
}
