# Weather station: temperature control unit and panel rules

This project models the two parts of the weather station that hold logic:

- **The temperature control unit** (`temperature_control_unit.py`). It is a
  hysteresis thermostat with three cycles: Cooling, Neutral and Heating. Each
  cycle drives the heater relay and the fan relay to a fixed combination. On
  every call the unit picks its next cycle from the cycle it is in, the current
  temperature, the desired temperature and a power-saver flag. The power saver
  widens the deadband by 5 degrees. The entry and exit thresholds differ, so a
  reading near a threshold does not make the relays chatter. The module also
  keeps two global flags, `ac_state` and `heater_state`, which are rewritten on
  transitions.
- **The panel rules** in `GUI/GUI.py`:
  - the refresh-interval counter, moved in one-second steps by the up and down
    buttons and overridden by energy-saving mode;
  - the on/off toggles that set the `auto_state` flag, and the energy-saving
    toggle;
  - the classifier that turns outdoor readings and the image classifier's sky
    label into the list of weather icons shown in the panel's three icon labels.

`temperature_control.dfy` (module `TemperatureControl`) has the pure rule
(`Transition`, `Control`, `ControlIndicators`). It also has the objects the
source updates in place:

- `Relay`, for the LED used as a relay, with `On` and `Off`;
- `ModuleFlags`, for the module globals `ac_state` and `heater_state`;
- `TemperatureControlUnit`, whose methods are proved against the rule.

The intended invariant is `Valid()`: the relays are two distinct objects and
they show the current cycle, so the heater and the fan are never both on. Every
method keeps it. `Run` folds `Control` over a sequence of readings, the way a
control loop calls `temperature_control` once per tick.

`gui.dfy` (module `Gui`) has the interval functions (`Increased`, `Decreased`,
`EnergySavingTime`) and the class `GuiState`, which holds the globals
`refresh_time`, `energy_saving_mode` and `auto_state`. It also has the toggle
classes and the classifier `DetermineWeatherCondition`. The classifier is
specified by `Describes`, a separate icon-by-icon description. A lemma shows
that the description has exactly one solution, and that solution is the
classifier's result.

Three consequences of the code's thresholds are easy to misjudge, and the
model states them as the code has them:

- From Neutral with a setpoint of 20 and no power saver, a reading of 24 enters
  Cooling, because 24 > 20 + 3. A reading of 23 stays Neutral. This is shown by
  `SampleReadings`.
- With the power saver on, 28.5 also enters Cooling, because 28.5 > 28. So the
  two modes do not differ at 28.5. They differ at 25, which cools without the
  power saver and stays Neutral with it. `SampleReadings` states both readings,
  and `PowerSaverWidensBand` states the split at setpoint + 5 for any setpoint.
- The source never reapplies a cycle's outputs when the cycle does not change.
  `TemperatureControl` states this: the relays are unchanged then.

Modelling choices:

- Temperatures, humidity and wind speed are `real`. The refresh interval is an
  `int` number of milliseconds.
- `ac_state` and `heater_state` are module-wide, not per unit, and the unit's
  constructor does not reset them. So they are a `ModuleFlags` object that is
  passed to `TemperatureControl`, and the unit does not own them.
- In the source, both toggles made by `create_on_off_toggle` ("Auto" and "Auto
  Lights") write the same `auto_state` global. So `OnOffToggle.OnClick` takes
  the shared `GuiState`. Two clicks on one toggle restore `auto_state` only if
  that toggle was the last writer (`ClickTwice`).

## Model

| member | source | states |
|---|---|---|
| `TemperatureControl.TemperatureControlUnit.constructor` | temperature_control_unit.py:28-42 | the new unit is Neutral with heater and fan off, keeps its name and the two injected relays, and satisfies the invariant |
| `TemperatureControl.ModuleFlags.constructor` | temperature_control_unit.py:22-23 | `ac_state` and `heater_state` both start False |
| `TemperatureControl.Relay.On` | temperature_control_unit.py:106-133 | `on()` (lines 106, 120) leaves the output on |
| `TemperatureControl.Relay.Off` | temperature_control_unit.py:106-133 | `off()` (lines 107, 119, 132, 133) leaves the output off |
| `TemperatureControl.Execute` | temperature_control_unit.py:96-133 | each cycle's `execute` leaves the heater on exactly in Heating and the fan on exactly in Cooling |
| `TemperatureControl.OutputsExclusive` | temperature_control_unit.py:96-133 | every cycle drives exactly one of heater-on/fan-off, heater-off/fan-on and both off, and never both on |
| `TemperatureControl.TemperatureControlUnit.SetToCool` | temperature_control_unit.py:75-78 | unconditionally Cooling, heater off, fan on; the module flags are not in its frame |
| `TemperatureControl.TemperatureControlUnit.SetToNeutral` | temperature_control_unit.py:80-83 | unconditionally Neutral, both relays off |
| `TemperatureControl.TemperatureControlUnit.SetToHeat` | temperature_control_unit.py:85-88 | unconditionally Heating, heater on, fan off |
| `TemperatureControl.LastOverrideWins` | temperature_control_unit.py:75-88 | heating then cooling leaves the heater off and the fan on: the last override wins |
| `TemperatureControl.TempDiff` | temperature_control_unit.py:49 | the deadband is never negative, is positive exactly with the power saver, and is 0 or 5 |
| `TemperatureControl.Transition` | temperature_control_unit.py:53-73 | its definition is the rule of the three branches; its contract says one call never goes straight between Cooling and Heating, Cooling is entered only above setpoint + deadband + 3, and Heating only below setpoint - deadband - 3 |
| `TemperatureControl.Control` | temperature_control_unit.py:51-73 | a missing current or desired temperature leaves the cycle as it is, and no call goes straight between Cooling and Heating |
| `TemperatureControl.NextIndicators` | temperature_control_unit.py:53-73 | `ac_state` is written only on a change into or out of Cooling and `heater_state` only on one into or out of Heating; leaving Neutral sets the new cycle's flag (lines 62, 65) and returning to Neutral clears the old one (lines 56, 73), leaving the other flag alone |
| `TemperatureControl.ControlIndicators` | temperature_control_unit.py:51-73 | the flags are untouched when a reading is missing or the cycle does not change |
| `TemperatureControl.ReadingMonotone` | temperature_control_unit.py:53-73 | from any cycle a warmer reading never gives an outcome nearer heating than a cooler reading does, so each exit and entry is a threshold |
| `TemperatureControl.CycleMonotone` | temperature_control_unit.py:53-73 | at the same reading, a unit already nearer cooling never ends up nearer heating than one that was not |
| `TemperatureControl.SetpointAntitone` | temperature_control_unit.py:53-73 | raising the desired temperature never makes the unit end up nearer cooling |
| `TemperatureControl.TemperatureControlUnit.TemperatureControl` | temperature_control_unit.py:44-73 | new cycle and new module flags are those of the rule; the relay invariant is kept; the relays are untouched when the cycle does not change |
| `TemperatureControl.AbsentReadingHolds` | temperature_control_unit.py:51 | a missing current or desired temperature leaves the cycle and both flags unchanged |
| `TemperatureControl.HysteresisBands` | temperature_control_unit.py:53-73 | between the exit and entry thresholds the outcome depends on the current cycle: a cooling unit keeps cooling and a neutral one stays neutral, and the same on the heating side |
| `TemperatureControl.PowerSaverWidensBand` | temperature_control_unit.py:49-67 | wherever a neutral unit stays neutral without the power saver it also stays neutral with it, and setpoint + 5 separates the two modes |
| `TemperatureControl.SettlesWithinTwoCalls` | temperature_control_unit.py:53-73 | at a constant reading the cycle is fixed after at most two calls |
| `TemperatureControl.SampleReadings` | temperature_control_unit.py:49-73 | worked readings for setpoint 20: 23 stays Neutral, 23.001 and 24 cool, 18.99 leaves Cooling, 19.5 keeps cooling, 28 with the power saver stays Neutral while 28.5 cools, 25 cools without the power saver but stays Neutral with it, missing readings hold |
| `TemperatureControl.ControlKeepsInSync` | temperature_control_unit.py:48-73 | if the flags said which cycle the unit was in, they still do after one call |
| `TemperatureControl.RunKeepsInSync` | temperature_control_unit.py:48-73 | over any sequence of calls the flags keep saying exactly whether the unit is cooling or heating |
| `TemperatureControl.AbsentRunHolds` | temperature_control_unit.py:51 | a sequence of calls with missing readings changes neither the cycle nor the flags |
| `Gui.GuiState.constructor` | GUI/GUI.py:34-41 | the panel starts with the given interval and with energy saving and auto off |
| `Gui.Increased` | GUI/GUI.py:333-338 | the up button never lowers the interval and changes it exactly when it is under 120000 ms |
| `Gui.IncreaseKeepsCap` | GUI/GUI.py:333-338 | a whole-second interval of at most 120000 ms stays a whole-second interval of at most 120000 ms |
| `Gui.GuiState.IncreaseRefreshTime` | GUI/GUI.py:333-338 | the new interval is the up-button function of the old one; nothing else changes |
| `Gui.Decreased` | GUI/GUI.py:340-345 | the down button never raises the interval, changes it exactly when it is over 1000 ms, and keeps a positive interval positive |
| `Gui.DecreaseKeepsFloor` | GUI/GUI.py:340-345 | a whole-second interval of at least 1000 ms stays a whole-second interval of at least 1000 ms |
| `Gui.GuiState.DecreaseRefreshTime` | GUI/GUI.py:340-345 | the new interval is the down-button function of the old one; nothing else changes |
| `Gui.EnergySavingTime` | GUI/GUI.py:276 | the interval becomes at least 1800000 ms and at least the old value, and is either the old value or 1800000 |
| `Gui.EnergySavingIdempotent` | GUI/GUI.py:276 | entering energy-saving mode twice gives the same interval as once |
| `Gui.GuiState.ActivateEnergySavingMode` | GUI/GUI.py:271-277 | energy saving on, interval raised to at least thirty minutes; auto flag untouched |
| `Gui.GuiState.DeactivateEnergySavingMode` | GUI/GUI.py:279-285 | energy saving off, interval exactly 5000 ms whatever it was |
| `Gui.DecreaseUndercutsEnergySaving` | GUI/GUI.py:340-345 | the down button is not blocked in energy-saving mode: one press after entering it gives 1799000 ms |
| `Gui.ApplyEventKeepsRange` | GUI/GUI.py:271-345 | each button press or energy-saving switch keeps the interval a whole number of seconds between 1 s and 30 min |
| `Gui.ApplyEventsKeepsRange` | GUI/GUI.py:271-345 | from any such interval (5000 ms at start), no sequence of presses and switches leaves that range |
| `Gui.Flipped` | GUI/GUI.py:207-213 | a click turns the toggle variable 0 into 1 and any other value into 0 |
| `Gui.FlipTwice` | GUI/GUI.py:207-213 | two clicks restore a toggle variable that is 0 or 1 |
| `Gui.OnOffToggle.constructor` | GUI/GUI.py:196-198 | a new toggle has its label text and variable 0 |
| `Gui.OnOffToggle.OnClick` | GUI/GUI.py:200-214 | the variable flips and `auto_state` becomes True exactly when it is now 1 |
| `Gui.ClickTwice` | GUI/GUI.py:206-214 | two clicks on a toggle whose variable matches `auto_state` restore both |
| `Gui.EnergySavingToggle.constructor` | GUI/GUI.py:250-252 | a new energy-saving toggle has its variable at 0 |
| `Gui.EnergySavingToggle.OnClick` | GUI/GUI.py:254-266 | the variable flips; energy saving is on exactly when it is now 1, with the raised interval, and otherwise the interval is 5000 ms |
| `Gui.DetermineWeatherCondition` | GUI/GUI.py:400-423 | meets the icon-by-icon description; at most three icons; wind, when present, is last; a clear sky gives only sunny, plus wind above 25 |
| `Gui.WeatherConditionNames` | GUI/GUI.py:409-423 | the source's list of strings: one key of the icon images (lines 87-93) per icon, in the same order; 'wind' appears exactly when the wind speed is above 25; a clear sky gives ['sunny'] or ['sunny', 'wind'] |
| `Gui.RankedUnique` | GUI/GUI.py:409-423 | two icon lists in group order with the same icons are equal |
| `Gui.DescriptionDetermines` | GUI/GUI.py:409-423 | any list that meets the description is the classifier's list |
| `Gui.IconsFitLabels` | GUI/GUI.py:127 | the list fits the three icon labels and shows no icon twice |

The icon-by-icon description (`Describes`) says:

- sunny appears exactly when the sky is Clear or the temperature is above 25;
- cold appears exactly when the sky is not Clear and the temperature is below 5;
- rain appears exactly when the sky is not Clear and the humidity is above 80 or
  the sky is Rainy;
- cloud appears exactly when the sky is not Clear, rain does not appear, and the
  humidity is above 70 or the sky is Cloudy;
- wind appears exactly when the wind speed is above 25;
- the icons come in group order: sunny or cold first, then rain or cloud, then
  wind.

## Left out

- Tkinter: widget construction, layout, colours, the interval label text,
  image loading and canvas updates. They are display code.
- `refresh_data`, `self_update` and `update_camera_image`. They are display and
  file I/O; only the classifier they call is modelled.
- `update_indoor_temperature`. It only stores the slider value in a global.
- The panel's own copies of `heater_state` and `ac_state`. They are display
  input only.
- `tcu_init` and the `main` test loop of the control unit. They build GPIO LEDs
  and sleep.
  - The relays are plain objects with an on/off field.
  - `TemperatureControlUnit.constructor` requires two distinct relays. If the
    source were given the same LED twice, its outputs would not follow the
    cycle, and the model does not cover that case.
- Sensor drivers, the anemometer, air quality, the camera, the image classifier
  and model conversion. The classifier's label is an input string.
- The thread orchestration of the main programs. Concurrency is out of scope.
- Python's `None` for `refresh_time` and for the outdoor readings before the
  first sample. The panel functions take numbers; comparing `None` in the source
  would raise an error.
- The desired temperature arriving as a slider string. `temperature_control`
  takes `Option<real>`, where `None` stands for the source's `None`.
