/**
 * The temperature control unit: a three-state hysteresis thermostat that
 * drives a heater relay and a fan relay from the current indoor temperature,
 * the desired temperature and a power-saver flag.
 *
 * The pure part (cycles, the deadband, the transition rule and the two
 * module-wide indicator flags) is given by functions; the unit itself, the two
 * relays it drives and the module flags are objects updated in place, as in
 * the source.
 */
module TemperatureControl {

  datatype Option<T> = None | Some(value: T)

  /** The three states of the unit, `state[0]`, `state[1]` and `state[2]`. */
  datatype Cycle = Cooling | Neutral | Heating

  /** Whether a cycle's `execute` switches the heater on. */
  function HeaterOn(c: Cycle): bool
  {
    c == Heating
  }

  /** Whether a cycle's `execute` switches the fan on. */
  function FanOn(c: Cycle): bool
  {
    c == Cooling
  }

  /** The deadband `temp_diff`: how far the power saver widens the comfort band. */
  function TempDiff(powerSaver: bool): (diff: real)
    ensures diff >= 0.0
    ensures diff > 0.0 <==> powerSaver
    ensures diff == 0.0 || diff == 5.0
  {
    if powerSaver then 5.0 else 0.0
  }

  /**
   * The hysteresis rule of `temperature_control` for one pair of readings:
   * which cycle the unit is in after the call, given the cycle before it.
   */
  function Transition(c: Cycle, current: real, desired: real, powerSaver: bool): (next: Cycle)
    // no single call goes straight between cooling and heating
    ensures c == Cooling ==> next != Heating
    ensures c == Heating ==> next != Cooling
    // cooling is only ever entered above the widened band, heating only below it
    ensures next == Cooling && c != Cooling ==> current > desired + TempDiff(powerSaver) + 3.0
    ensures next == Heating && c != Heating ==> current < desired - TempDiff(powerSaver) - 3.0
  {
    var diff := TempDiff(powerSaver);
    match c
    case Cooling =>
      if current < desired + diff - 1.0 then Neutral else Cooling
    case Neutral =>
      if current > desired + diff + 3.0 then Cooling
      else if current < desired - diff - 3.0 then Heating
      else Neutral
    case Heating =>
      if current > desired - diff + 1.0 then Neutral else Heating
  }

  /**
   * `temperature_control` on possibly missing readings: a missing current or
   * desired temperature (`None` in the source) leaves the cycle as it is.
   */
  function Control(c: Cycle, currentTemp: Option<real>, desiredTemp: Option<real>, powerSaver: bool): (next: Cycle)
    ensures currentTemp.None? || desiredTemp.None? ==> next == c
    ensures c == Cooling ==> next != Heating
    ensures c == Heating ==> next != Cooling
  {
    if currentTemp.Some? && desiredTemp.Some? then
      Transition(c, currentTemp.value, desiredTemp.value, powerSaver)
    else
      c
  }

  /** The module-wide flags `ac_state` and `heater_state` as a value. */
  datatype Indicators = Indicators(ac: bool, heater: bool)

  /**
   * How a call of `temperature_control` that takes the unit from cycle `c` to
   * cycle `next` rewrites the flags: `ac_state` on entering and leaving
   * cooling, `heater_state` on entering and leaving heating, nothing otherwise.
   */
  function NextIndicators(c: Cycle, next: Cycle, ind: Indicators): (r: Indicators)
    // `ac_state` is only written on a change into or out of cooling,
    // `heater_state` only on a change into or out of heating
    ensures r.ac != ind.ac ==> (c == Cooling) != (next == Cooling)
    ensures r.heater != ind.heater ==> (c == Heating) != (next == Heating)
    // leaving neutral sets the flag of the new cycle, returning to it clears the old one
    ensures c == Neutral && next == Cooling ==> r.ac && r.heater == ind.heater
    ensures c == Neutral && next == Heating ==> r.heater && r.ac == ind.ac
    ensures c == Cooling && next == Neutral ==> !r.ac && r.heater == ind.heater
    ensures c == Heating && next == Neutral ==> !r.heater && r.ac == ind.ac
  {
    match (c, next)
    case (Cooling, Neutral) => ind.(ac := false)
    case (Neutral, Cooling) => ind.(ac := true)
    case (Neutral, Heating) => ind.(heater := true)
    case (Heating, Neutral) => ind.(heater := false)
    case _ => ind
  }

  /** The flags after one call of `temperature_control`. */
  function ControlIndicators(c: Cycle, ind: Indicators, currentTemp: Option<real>,
                             desiredTemp: Option<real>, powerSaver: bool): (r: Indicators)
    ensures currentTemp.None? || desiredTemp.None? ==> r == ind
    ensures Control(c, currentTemp, desiredTemp, powerSaver) == c ==> r == ind
  {
    NextIndicators(c, Control(c, currentTemp, desiredTemp, powerSaver), ind)
  }

  /** The flags say exactly which cycle the unit is in. */
  predicate InSync(c: Cycle, ind: Indicators)
  {
    ind.ac == (c == Cooling) && ind.heater == (c == Heating)
  }

  /** The arguments of one call of `temperature_control`. */
  datatype Reading = Reading(currentTemp: Option<real>, desiredTemp: Option<real>, powerSaver: bool)

  /** The cycle and the flags after a control loop has made one call per reading. */
  function Run(c: Cycle, ind: Indicators, readings: seq<Reading>): (Cycle, Indicators)
    decreases |readings|
  {
    if readings == [] then (c, ind)
    else
      var r := readings[0];
      Run(Control(c, r.currentTemp, r.desiredTemp, r.powerSaver),
          ControlIndicators(c, ind, r.currentTemp, r.desiredTemp, r.powerSaver),
          readings[1..])
  }

  // ---------------------------------------------------------------------------
  // Properties of the rule

  /** Every cycle drives exactly one of the three allowed output combinations. */
  lemma OutputsExclusive(c: Cycle)
    ensures !(HeaterOn(c) && FanOn(c))
    ensures c == Heating <==> HeaterOn(c) && !FanOn(c)
    ensures c == Cooling <==> !HeaterOn(c) && FanOn(c)
    ensures c == Neutral <==> !HeaterOn(c) && !FanOn(c)
  {
  }

  /** A missing reading holds the cycle and the flags. */
  lemma AbsentReadingHolds(c: Cycle, ind: Indicators, currentTemp: Option<real>,
                           desiredTemp: Option<real>, powerSaver: bool)
    requires currentTemp.None? || desiredTemp.None?
    ensures Control(c, currentTemp, desiredTemp, powerSaver) == c
    ensures ControlIndicators(c, ind, currentTemp, desiredTemp, powerSaver) == ind
  {
  }

  /** How far a cycle drives the room towards cold: heating, then neutral, then cooling. */
  function Level(c: Cycle): nat
  {
    match c
    case Heating => 0
    case Neutral => 1
    case Cooling => 2
  }

  /**
   * The rule is monotone in the reading: from any cycle, a warmer reading
   * never leads to a warmer-side outcome than a cooler one does. So from
   * cooling, if one reading already gives neutral then every lower reading
   * does, and from heating, if one reading gives neutral then every higher
   * reading does.
   */
  lemma ReadingMonotone(c: Cycle, x: real, y: real, desired: real, powerSaver: bool)
    requires x <= y
    ensures Level(Transition(c, x, desired, powerSaver)) <= Level(Transition(c, y, desired, powerSaver))
  {
  }

  /** The rule is monotone in the cycle the unit is already in: that is hysteresis. */
  lemma CycleMonotone(c1: Cycle, c2: Cycle, current: real, desired: real, powerSaver: bool)
    requires Level(c1) <= Level(c2)
    ensures Level(Transition(c1, current, desired, powerSaver)) <= Level(Transition(c2, current, desired, powerSaver))
  {
  }

  /** Raising the setpoint never makes the unit cool more. */
  lemma SetpointAntitone(c: Cycle, current: real, d1: real, d2: real, powerSaver: bool)
    requires d1 <= d2
    ensures Level(Transition(c, current, d2, powerSaver)) <= Level(Transition(c, current, d1, powerSaver))
  {
  }

  /**
   * Hysteresis: inside each band between an entry and an exit threshold the
   * outcome depends on the cycle the unit was already in, so a reading that
   * wobbles there does not make the relays chatter.
   */
  lemma HysteresisBands(current: real, desired: real, powerSaver: bool)
    ensures var diff := TempDiff(powerSaver);
      desired + diff - 1.0 <= current <= desired + diff + 3.0 ==>
        Transition(Cooling, current, desired, powerSaver) == Cooling &&
        Transition(Neutral, current, desired, powerSaver) == Neutral
    ensures var diff := TempDiff(powerSaver);
      desired - diff - 3.0 <= current <= desired - diff + 1.0 ==>
        Transition(Heating, current, desired, powerSaver) == Heating &&
        Transition(Neutral, current, desired, powerSaver) == Neutral
  {
  }

  /** The power saver only widens the band in which a neutral unit stays neutral. */
  lemma PowerSaverWidensBand(current: real, desired: real)
    ensures Transition(Neutral, current, desired, false) == Neutral ==>
              Transition(Neutral, current, desired, true) == Neutral
    ensures Transition(Neutral, desired + 5.0, desired, false) == Cooling
    ensures Transition(Neutral, desired + 5.0, desired, true) == Neutral
  {
  }

  /** At a constant reading the unit settles after at most two calls. */
  lemma SettlesWithinTwoCalls(c: Cycle, current: real, desired: real, powerSaver: bool)
    ensures var once := Transition(c, current, desired, powerSaver);
            var twice := Transition(once, current, desired, powerSaver);
            Transition(twice, current, desired, powerSaver) == twice
  {
  }

  /** The readings worked through by hand for a setpoint of 20 degrees. */
  lemma SampleReadings()
    ensures Control(Neutral, Some(23.0), Some(20.0), false) == Neutral
    ensures Control(Neutral, Some(23.001), Some(20.0), false) == Cooling
    ensures Control(Neutral, Some(24.0), Some(20.0), false) == Cooling
    ensures Control(Cooling, Some(18.99), Some(20.0), false) == Neutral
    ensures Control(Cooling, Some(19.5), Some(20.0), false) == Cooling
    ensures Control(Neutral, Some(28.0), Some(20.0), true) == Neutral
    ensures Control(Neutral, Some(28.5), Some(20.0), true) == Cooling
    ensures Control(Neutral, Some(25.0), Some(20.0), false) == Cooling
    ensures Control(Neutral, Some(25.0), Some(20.0), true) == Neutral
    ensures Control(Neutral, None, Some(20.0), false) == Neutral
    ensures Control(Heating, Some(22.0), None, false) == Heating
  {
  }

  /** One call keeps the flags in step with the cycle. */
  lemma ControlKeepsInSync(c: Cycle, ind: Indicators, currentTemp: Option<real>,
                           desiredTemp: Option<real>, powerSaver: bool)
    requires InSync(c, ind)
    ensures InSync(Control(c, currentTemp, desiredTemp, powerSaver),
                   ControlIndicators(c, ind, currentTemp, desiredTemp, powerSaver))
  {
  }

  /**
   * A control loop that only calls `temperature_control` keeps `ac_state` and
   * `heater_state` telling exactly whether the unit is cooling or heating.
   */
  lemma {:induction false} RunKeepsInSync(c: Cycle, ind: Indicators, readings: seq<Reading>)
    requires InSync(c, ind)
    ensures InSync(Run(c, ind, readings).0, Run(c, ind, readings).1)
    decreases |readings|
  {
    if readings != [] {
      var r := readings[0];
      ControlKeepsInSync(c, ind, r.currentTemp, r.desiredTemp, r.powerSaver);
      RunKeepsInSync(Control(c, r.currentTemp, r.desiredTemp, r.powerSaver),
                     ControlIndicators(c, ind, r.currentTemp, r.desiredTemp, r.powerSaver),
                     readings[1..]);
    }
  }

  /** A run whose readings are all missing changes nothing. */
  lemma {:induction false} AbsentRunHolds(c: Cycle, ind: Indicators, readings: seq<Reading>)
    requires forall i :: 0 <= i < |readings| ==> readings[i].currentTemp.None? || readings[i].desiredTemp.None?
    ensures Run(c, ind, readings) == (c, ind)
    decreases |readings|
  {
    if readings != [] {
      AbsentRunHolds(c, ind, readings[1..]);
    }
  }

  // ---------------------------------------------------------------------------
  // The objects

  /** A binary output (an LED standing in for a relay) with `on()` and `off()`. */
  class Relay {
    var isOn: bool

    constructor ()
      ensures !isOn
    {
      isOn := false;
    }

    method On()
      modifies this
      ensures isOn
    {
      isOn := true;
    }

    method Off()
      modifies this
      ensures !isOn
    {
      isOn := false;
    }
  }

  /** The module globals `ac_state` and `heater_state`, shared by every unit. */
  class ModuleFlags {
    var acState: bool
    var heaterState: bool

    /** Both flags are False when the module is loaded. */
    constructor ()
      ensures !acState && !heaterState
    {
      acState, heaterState := false, false;
    }

    function Value(): Indicators
      reads this
    {
      Indicators(acState, heaterState)
    }
  }

  /** `execute` of the three cycle classes: drive the relays to the cycle's fixed combination. */
  method Execute(c: Cycle, heater: Relay, fan: Relay)
    requires heater != fan
    modifies heater, fan
    ensures heater.isOn == HeaterOn(c) && fan.isOn == FanOn(c)
  {
    match c
    case Heating =>
      heater.On();
      fan.Off();
    case Cooling =>
      heater.Off();
      fan.On();
    case Neutral =>
      heater.Off();
      fan.Off();
  }

  class TemperatureControlUnit {
    const name: string
    const heater: Relay
    const fan: Relay
    var currentState: Cycle

    /** The relays are two distinct outputs and show the current cycle. */
    ghost predicate Valid()
      reads this, heater, fan
    {
      heater != fan &&
      heater.isOn == HeaterOn(currentState) &&
      fan.isOn == FanOn(currentState)
    }

    constructor (name: string, heater: Relay, fan: Relay)
      requires heater != fan
      modifies heater, fan
      ensures Valid()
      ensures this.name == name && this.heater == heater && this.fan == fan
      ensures currentState == Neutral && !heater.isOn && !fan.isOn
    {
      this.name := name;
      this.heater := heater;
      this.fan := fan;
      currentState := Neutral;
      new;
      Execute(Neutral, heater, fan);
    }

    method SetToCool()
      requires Valid()
      modifies this`currentState, heater, fan
      ensures Valid()
      ensures currentState == Cooling && !heater.isOn && fan.isOn
    {
      currentState := Cooling;
      Execute(currentState, heater, fan);
    }

    method SetToNeutral()
      requires Valid()
      modifies this`currentState, heater, fan
      ensures Valid()
      ensures currentState == Neutral && !heater.isOn && !fan.isOn
    {
      currentState := Neutral;
      Execute(currentState, heater, fan);
    }

    method SetToHeat()
      requires Valid()
      modifies this`currentState, heater, fan
      ensures Valid()
      ensures currentState == Heating && heater.isOn && !fan.isOn
    {
      currentState := Heating;
      Execute(currentState, heater, fan);
    }

    /**
     * `temperature_control`: one hysteresis step. The relays are only driven
     * when the cycle changes, and the module flags are rewritten on the
     * transitions into and out of cooling and heating.
     */
    method TemperatureControl(currentTemp: Option<real>, desiredTemp: Option<real>,
                              powerSaver: bool, flags: ModuleFlags)
      requires Valid()
      modifies this`currentState, heater, fan, flags
      ensures Valid()
      ensures currentState == Control(old(currentState), currentTemp, desiredTemp, powerSaver)
      ensures flags.Value() == ControlIndicators(old(currentState), old(flags.Value()),
                                                 currentTemp, desiredTemp, powerSaver)
      ensures currentState == old(currentState) ==> unchanged(heater, fan)
    {
      var tempDiff := TempDiff(powerSaver);
      if currentTemp.Some? && desiredTemp.Some? {
        var current, desired := currentTemp.value, desiredTemp.value;
        if currentState == Cooling {
          if current < desired + tempDiff - 1.0 {
            SetToNeutral();
            flags.acState := false;
          }
        } else if currentState == Neutral {
          if current > desired + tempDiff + 3.0 {
            SetToCool();
            flags.acState := true;
          } else if current < desired - tempDiff - 3.0 {
            SetToHeat();
            flags.heaterState := true;
          }
        } else if currentState == Heating {
          if current > desired - tempDiff + 1.0 {
            SetToNeutral();
            flags.heaterState := false;
          }
        }
      }
    }
  }

  /** A manual override followed by another: the last one wins and no heater output is left on. */
  method LastOverrideWins(unit: TemperatureControlUnit)
    requires unit.Valid()
    modifies unit`currentState, unit.heater, unit.fan
    ensures unit.Valid()
    ensures unit.currentState == Cooling && !unit.heater.isOn && unit.fan.isOn
  {
    unit.SetToHeat();
    unit.SetToCool();
  }
}
