/**
 * The rules of the climate-control panel that are not widget plumbing: the
 * refresh-interval counter and the energy-saving mode that overrides it, the
 * on/off toggles that set the auto flag, and the classifier that picks the
 * weather icons shown in the panel's three icon labels.
 */
module Gui {

  // ---------------------------------------------------------------------------
  // The refresh interval, in milliseconds

  /** The up button: one more second while the interval is under two minutes. */
  function Increased(refreshTime: int): (r: int)
    ensures r >= refreshTime
    ensures r == refreshTime <==> refreshTime >= 120000
  {
    if refreshTime < 120000 then refreshTime + 1000 else refreshTime
  }

  /** The down button: one second less while the interval is over one second. */
  function Decreased(refreshTime: int): (r: int)
    ensures r <= refreshTime
    ensures r == refreshTime <==> refreshTime <= 1000
    ensures refreshTime > 0 ==> r > 0
  {
    if refreshTime > 1000 then refreshTime - 1000 else refreshTime
  }

  /** Entering energy-saving mode: the interval becomes at least thirty minutes. */
  function EnergySavingTime(refreshTime: int): (r: int)
    ensures r >= 1800000 && r >= refreshTime
    ensures r == refreshTime || r == 1800000
  {
    if refreshTime >= 1800000 then refreshTime else 1800000
  }

  /** The interval the panel falls back to when energy-saving mode is left. */
  const DefaultRefreshTime: int := 5000

  /** A whole number of seconds, at least one second and at most thirty minutes. */
  predicate WholeSecondsInRange(refreshTime: int)
  {
    refreshTime % 1000 == 0 && 1000 <= refreshTime <= 1800000
  }

  /** The events of the panel that change the interval. */
  datatype RefreshEvent = IncreasePressed | DecreasePressed | EnergySavingOn | EnergySavingOff

  function ApplyEvent(refreshTime: int, e: RefreshEvent): int
  {
    match e
    case IncreasePressed => Increased(refreshTime)
    case DecreasePressed => Decreased(refreshTime)
    case EnergySavingOn => EnergySavingTime(refreshTime)
    case EnergySavingOff => DefaultRefreshTime
  }

  /** The interval after a sequence of events, the first one first. */
  function ApplyEvents(refreshTime: int, events: seq<RefreshEvent>): int
    decreases |events|
  {
    if events == [] then refreshTime
    else ApplyEvents(ApplyEvent(refreshTime, events[0]), events[1..])
  }

  /** A capped interval that is a whole number of seconds stays capped. */
  lemma IncreaseKeepsCap(refreshTime: int)
    requires refreshTime <= 120000 && refreshTime % 1000 == 0
    ensures Increased(refreshTime) <= 120000 && Increased(refreshTime) % 1000 == 0
  {
  }

  /** An interval of at least a second that is a whole number of seconds stays at least a second. */
  lemma DecreaseKeepsFloor(refreshTime: int)
    requires refreshTime >= 1000 && refreshTime % 1000 == 0
    ensures Decreased(refreshTime) >= 1000 && Decreased(refreshTime) % 1000 == 0
  {
  }

  /** Entering energy-saving mode a second time changes nothing. */
  lemma EnergySavingIdempotent(refreshTime: int)
    ensures EnergySavingTime(EnergySavingTime(refreshTime)) == EnergySavingTime(refreshTime)
  {
  }

  /**
   * The down button is not blocked in energy-saving mode: one press takes an
   * interval that the mode raised to thirty minutes below thirty minutes again.
   */
  lemma DecreaseUndercutsEnergySaving(refreshTime: int)
    requires refreshTime <= 1800000
    ensures Decreased(EnergySavingTime(refreshTime)) == 1799000
  {
  }

  /** Each event keeps the interval a whole number of seconds between one second and thirty minutes. */
  lemma ApplyEventKeepsRange(refreshTime: int, e: RefreshEvent)
    requires WholeSecondsInRange(refreshTime)
    ensures WholeSecondsInRange(ApplyEvent(refreshTime, e))
  {
  }

  /**
   * Starting from the panel's interval of five seconds (or any whole number of
   * seconds in range), no sequence of button presses and energy-saving
   * switches leaves that range.
   */
  lemma {:induction false} ApplyEventsKeepsRange(refreshTime: int, events: seq<RefreshEvent>)
    requires WholeSecondsInRange(refreshTime)
    ensures WholeSecondsInRange(ApplyEvents(refreshTime, events))
    decreases |events|
  {
    if events != [] {
      ApplyEventKeepsRange(refreshTime, events[0]);
      ApplyEventsKeepsRange(ApplyEvent(refreshTime, events[0]), events[1..]);
    }
  }

  /** The module globals of the panel that its handlers update. */
  class GuiState {
    var refreshTime: int
    var energySavingMode: bool
    var autoState: bool

    /** The panel as the main program starts it: the given interval, both modes off. */
    constructor (refreshTime: int)
      ensures this.refreshTime == refreshTime && !energySavingMode && !autoState
    {
      this.refreshTime := refreshTime;
      energySavingMode := false;
      autoState := false;
    }

    method IncreaseRefreshTime()
      modifies this`refreshTime
      ensures refreshTime == Increased(old(refreshTime))
    {
      if refreshTime < 120000 {
        refreshTime := refreshTime + 1000;
      }
    }

    method DecreaseRefreshTime()
      modifies this`refreshTime
      ensures refreshTime == Decreased(old(refreshTime))
    {
      if refreshTime > 1000 {
        refreshTime := refreshTime - 1000;
      }
    }

    method ActivateEnergySavingMode()
      modifies this`refreshTime, this`energySavingMode
      ensures energySavingMode
      ensures refreshTime == EnergySavingTime(old(refreshTime))
    {
      energySavingMode := true;
      refreshTime := if refreshTime >= 1800000 then refreshTime else 1800000;
    }

    method DeactivateEnergySavingMode()
      modifies this`refreshTime, this`energySavingMode
      ensures !energySavingMode
      ensures refreshTime == DefaultRefreshTime
    {
      energySavingMode := false;
      refreshTime := 5000;
    }
  }

  // ---------------------------------------------------------------------------
  // Toggles

  /** What a click does to a toggle's integer variable: 0 becomes 1, anything else 0. */
  function Flipped(value: int): (v: int)
    ensures v == 0 || v == 1
    ensures v == 1 <==> value == 0
  {
    if value == 0 then 1 else 0
  }

  /** Two clicks restore a toggle's variable. */
  lemma FlipTwice(value: int)
    requires value == 0 || value == 1
    ensures Flipped(Flipped(value)) == value
  {
  }

  /**
   * The "Auto" (and "Auto Lights") on/off toggle: its own variable, starting
   * at 0, and the shared `auto_state` flag it sets to match.
   */
  class OnOffToggle {
    const text: string
    var value: int

    constructor (text: string)
      ensures this.text == text && value == 0
    {
      this.text := text;
      value := 0;
    }

    method OnClick(g: GuiState)
      modifies this`value, g`autoState
      ensures value == Flipped(old(value))
      ensures g.autoState == (value == 1)
    {
      if value == 0 {
        value := 1;
        g.autoState := true;
      } else {
        value := 0;
        g.autoState := false;
      }
    }
  }

  /** Two clicks on the same toggle restore both its variable and the auto flag it drives. */
  method ClickTwice(t: OnOffToggle, g: GuiState)
    requires t.value == 0 || t.value == 1
    requires g.autoState == (t.value == 1)
    modifies t`value, g`autoState
    ensures t.value == old(t.value) && g.autoState == old(g.autoState)
  {
    t.OnClick(g);
    t.OnClick(g);
    FlipTwice(old(t.value));
  }

  /** The energy-saving toggle: its own variable, switching the mode on and off. */
  class EnergySavingToggle {
    var value: int

    constructor ()
      ensures value == 0
    {
      value := 0;
    }

    method OnClick(g: GuiState)
      modifies this`value, g`refreshTime, g`energySavingMode
      ensures value == Flipped(old(value))
      ensures g.energySavingMode == (value == 1)
      ensures g.refreshTime == if value == 1 then EnergySavingTime(old(g.refreshTime)) else DefaultRefreshTime
    {
      if value == 0 {
        value := 1;
        g.ActivateEnergySavingMode();
      } else {
        value := 0;
        g.DeactivateEnergySavingMode();
      }
    }
  }

  // ---------------------------------------------------------------------------
  // Weather icons

  /** The five icons, keyed in the panel by 'sunny', 'cold', 'rain', 'cloud' and 'wind'. */
  datatype Icon = Sunny | Cold | Rain | Cloud | Wind

  function IconName(i: Icon): string
  {
    match i
    case Sunny => "sunny"
    case Cold => "cold"
    case Rain => "rain"
    case Cloud => "cloud"
    case Wind => "wind"
  }

  /** The order of the icon groups: sky or temperature first, precipitation next, wind last. */
  function Rank(i: Icon): nat
  {
    match i
    case Sunny | Cold => 0
    case Rain | Cloud => 1
    case Wind => 2
  }

  /** Icons in strictly increasing group order: at most one icon per group. */
  predicate StrictlyRanked(s: seq<Icon>)
  {
    forall i, j :: 0 <= i < j < |s| ==> Rank(s[i]) < Rank(s[j])
  }

  /**
   * What the icon list means, stated icon by icon: when each icon appears, and
   * that the icons come in group order.
   */
  predicate Describes(s: seq<Icon>, temp: real, humidity: real, windSpeed: real, skyConditions: string)
  {
    var clear := skyConditions == "Clear";
    var rainy := humidity > 80.0 || skyConditions == "Rainy";
    && StrictlyRanked(s)
    && (Sunny in s <==> clear || temp > 25.0)
    && (Cold in s <==> !clear && temp < 5.0)
    && (Rain in s <==> !clear && rainy)
    && (Cloud in s <==> !clear && !rainy && (humidity > 70.0 || skyConditions == "Cloudy"))
    && (Wind in s <==> windSpeed > 25.0)
  }

  /** `determine_weather_condition`: the icons for the readings and the classifier's sky label. */
  function DetermineWeatherCondition(temp: real, humidity: real, windSpeed: real, skyConditions: string)
    : (conditions: seq<Icon>)
    ensures Describes(conditions, temp, humidity, windSpeed, skyConditions)
    ensures |conditions| <= 3
    ensures windSpeed > 25.0 ==> conditions[|conditions| - 1] == Wind
    ensures skyConditions == "Clear" ==>
              conditions == if windSpeed > 25.0 then [Sunny, Wind] else [Sunny]
  {
    var sky :=
      if skyConditions == "Clear" then [Sunny]
      else
        (if temp > 25.0 then [Sunny] else if temp < 5.0 then [Cold] else []) +
        (if humidity > 80.0 || skyConditions == "Rainy" then [Rain]
         else if humidity > 70.0 || skyConditions == "Cloudy" then [Cloud]
         else []);
    sky + (if windSpeed > 25.0 then [Wind] else [])
  }

  /** The keys of the panel's icon images. */
  const WeatherImageKeys: set<string> := {"cloud", "cold", "rain", "sunny", "wind"}

  /**
   * The list of icon names the source returns: one name per icon, in order,
   * each a key of the icon images.
   */
  function WeatherConditionNames(temp: real, humidity: real, windSpeed: real, skyConditions: string)
    : (names: seq<string>)
    ensures var icons := DetermineWeatherCondition(temp, humidity, windSpeed, skyConditions);
      |names| == |icons| && forall i :: 0 <= i < |names| ==> names[i] == IconName(icons[i])
    ensures forall i :: 0 <= i < |names| ==> names[i] in WeatherImageKeys
    ensures "wind" in names <==> windSpeed > 25.0
    ensures skyConditions == "Clear" ==>
              names == if windSpeed > 25.0 then ["sunny", "wind"] else ["sunny"]
  {
    var icons := DetermineWeatherCondition(temp, humidity, windSpeed, skyConditions);
    var names := seq(|icons|, i requires 0 <= i < |icons| => IconName(icons[i]));
    assert "wind" in names ==> Wind in icons by {
      if "wind" in names {
        var k :| 0 <= k < |names| && names[k] == "wind";
        assert icons[k] == Wind;
      }
    }
    assert Wind in icons ==> "wind" in names by {
      if Wind in icons {
        var k :| 0 <= k < |icons| && icons[k] == Wind;
        assert names[k] == "wind";
      }
    }
    names
  }

  /** Two lists in group order with the same icons are the same list. */
  lemma {:induction false} RankedUnique(a: seq<Icon>, b: seq<Icon>)
    requires StrictlyRanked(a) && StrictlyRanked(b)
    requires forall x :: x in a <==> x in b
    ensures a == b
    decreases |a|
  {
    assert a != [] ==> a[0] in b;
    assert b != [] ==> b[0] in a;
    if a != [] {
      assert a[0] == b[0] by {
        var i :| 0 <= i < |b| && b[i] == a[0];
        var j :| 0 <= j < |a| && a[j] == b[0];
        assert Rank(a[0]) <= Rank(a[j]) && Rank(b[0]) <= Rank(b[i]);
        assert i == 0;
      }
      forall x
        ensures x in a[1..] <==> x in b[1..]
      {
        if x in a[1..] {
          var k :| 1 <= k < |a| && a[k] == x;
          assert Rank(a[0]) < Rank(x);
          assert x in b;
        }
        if x in b[1..] {
          var k :| 1 <= k < |b| && b[k] == x;
          assert Rank(b[0]) < Rank(x);
          assert x in a;
        }
      }
      RankedUnique(a[1..], b[1..]);
      assert a == [a[0]] + a[1..] && b == [b[0]] + b[1..];
    }
  }

  /** The icon-by-icon description determines the list: the classifier is the only list that meets it. */
  lemma DescriptionDetermines(s: seq<Icon>, temp: real, humidity: real, windSpeed: real, skyConditions: string)
    requires Describes(s, temp, humidity, windSpeed, skyConditions)
    ensures s == DetermineWeatherCondition(temp, humidity, windSpeed, skyConditions)
  {
    var r := DetermineWeatherCondition(temp, humidity, windSpeed, skyConditions);
    forall x
      ensures x in s <==> x in r
    {
      match x
      case Sunny =>
      case Cold =>
      case Rain =>
      case Cloud =>
      case Wind =>
    }
    RankedUnique(s, r);
  }

  /** Every icon of the list gets one of the panel's three icon labels, and no two labels show the same icon. */
  lemma IconsFitLabels(temp: real, humidity: real, windSpeed: real, skyConditions: string)
    ensures var s := DetermineWeatherCondition(temp, humidity, windSpeed, skyConditions);
      |s| <= 3 && forall i, j :: 0 <= i < j < |s| ==> s[i] != s[j]
  {
    var s := DetermineWeatherCondition(temp, humidity, windSpeed, skyConditions);
    forall i, j | 0 <= i < j < |s| ensures s[i] != s[j] {
      assert Rank(s[i]) < Rank(s[j]);
    }
  }
}
