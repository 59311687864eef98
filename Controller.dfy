/**
 * The view-state controller: the five state slots of the dashboard and the
 * transitions that overwrite them (navigation clicks, the unit selector,
 * the dark-mode button and the simulated-weather timer tick). Each
 * transition is first given as a function on `AppState`; the class
 * `WeatherApp` holds the slots as fields and its methods are proved to
 * perform exactly those functions.
 */
module Controller {
  import opened Weather
  import opened Temperature
  import opened Presentation

  /** A click on a navigation control: the page becomes the control's target. */
  function AfterClick(s: AppState, control: NavControl): AppState
  {
    s.(currentPage := ClickTarget(control))
  }

  /** A choice in the unit selector. */
  function AfterUnitChange(s: AppState, unit: Unit): AppState
  {
    s.(temperatureUnit := unit)
  }

  /** A click on the dark-mode button. */
  function AfterDarkModeToggle(s: AppState): AppState
  {
    s.(isDarkMode := !s.isDarkMode)
  }

  /**
   * What one timer tick draws, given the two values `r1`, `r2` the random
   * source returned (each in [0, 1)): a condition from the fixed list,
   * indexed by floor(r1 * 5), and a temperature floor(r2 * 30) + 50.
   */
  function Draw(r1: real, r2: real): (d: (Condition, int))
    requires 0.0 <= r1 < 1.0 && 0.0 <= r2 < 1.0
    ensures forall i :: 0 <= i < |Conditions| ==>
              (d.0 == Conditions[i] <==> i as real / 5.0 <= r1 < (i + 1) as real / 5.0)
    ensures 50 <= d.1 <= 79
  {
    (Conditions[(r1 * |Conditions| as real).Floor], (r2 * 30.0).Floor + 50)
  }

  /** A timer tick: the condition and temperature are replaced by a draw. */
  function AfterTick(s: AppState, r1: real, r2: real): AppState
    requires 0.0 <= r1 < 1.0 && 0.0 <= r2 < 1.0
  {
    var d := Draw(r1, r2);
    s.(weatherCondition := d.0, temperature := d.1)
  }

  /**
   * A navigation click sets the page to the control's target whatever page
   * was shown, and changes nothing else.
   */
  lemma NavigateSetsTarget(s: AppState, t: AppState, control: NavControl)
    ensures AfterClick(s, control).currentPage == AfterClick(t, control).currentPage == ClickTarget(control)
    ensures AfterClick(s, control).(currentPage := s.currentPage) == s
    ensures control == SearchIcon ==> AfterClick(s, control).currentPage == Forecast
    ensures control == SettingsIcon ==> AfterClick(s, control).currentPage == Settings
  {
  }

  /**
   * Every page can be reached from every state with one click on the
   * navigation bar, after which exactly that page's view is shown.
   */
  lemma EveryPageOneClickAway(s: AppState, page: Page)
    ensures exists b :: b in NavButtons && AfterClick(s, b).currentPage == page
                        && ShownViews(AfterClick(s, b).currentPage) == {ViewOf(page)}
  {
  }

  /**
   * Choosing a unit changes only the unit: the stored Fahrenheit
   * temperature stays, and the home reading and every forecast row are the
   * stored values shown in the new unit.
   */
  lemma SelectUnitKeepsTemperature(s: AppState, unit: Unit)
    ensures AfterUnitChange(s, unit).temperature == s.temperature
    ensures AfterUnitChange(s, unit).(temperatureUnit := s.temperatureUnit) == s
    ensures HomeReading(AfterUnitChange(s, unit)) == Reading(ConvertTemperature(s.temperature, unit), unit)
    ensures forall i :: 0 <= i < |DailyData| ==>
              ForecastRows(DailyData, AfterUnitChange(s, unit).temperatureUnit)[i].temperature
              == Reading(ConvertTemperature(DailyData[i].temp, unit), unit)
  {
  }

  /** The dark-mode button flips only the flag, and two clicks undo each other. */
  lemma ToggleDarkModeInvolution(s: AppState)
    ensures AfterDarkModeToggle(s).isDarkMode != s.isDarkMode
    ensures AfterDarkModeToggle(s).(isDarkMode := s.isDarkMode) == s
    ensures AfterDarkModeToggle(AfterDarkModeToggle(s)) == s
  {
  }

  /**
   * A tick leaves the page, the unit and the dark-mode flag as they were;
   * the condition it sets is one of the five and the temperature lies in
   * [50, 79].
   */
  lemma TickKeepsSettings(s: AppState, r1: real, r2: real)
    requires 0.0 <= r1 < 1.0 && 0.0 <= r2 < 1.0
    ensures var s' := AfterTick(s, r1, r2);
            s'.currentPage == s.currentPage && s'.temperatureUnit == s.temperatureUnit
            && s'.isDarkMode == s.isDarkMode
            && s'.weatherCondition == Draw(r1, r2).0 && 50 <= s'.temperature <= 79
  {
  }

  /**
   * Conversely every condition and every integer temperature in [50, 79]
   * is the outcome of some draw, so a tick can produce exactly those
   * values and no others.
   */
  lemma {:induction false} EveryOutcomeDrawable(c: Condition, t: int)
    requires 50 <= t <= 79
    ensures exists r1: real, r2: real :: 0.0 <= r1 < 1.0 && 0.0 <= r2 < 1.0 && Draw(r1, r2) == (c, t)
  {
    var i := match c case Sunny => 0 case Cloudy => 1 case Rainy => 2 case Thunder => 3 case Snowy => 4;
    var r1 := i as real / 5.0;
    var r2 := (t - 50) as real / 30.0;
    assert (r1 * 5.0).Floor == i;
    assert (r2 * 30.0).Floor == t - 50;
    assert Draw(r1, r2) == (c, t);
  }

  /**
   * The first render: the home page alone, 72 degrees Fahrenheit, sunny,
   * on the light base theme with the sunny gradient.
   */
  lemma InitialView()
    ensures ShownViews(InitialState.currentPage) == {HomePage}
    ensures HomeReading(InitialState) == Reading(72, F)
    ensures GetTheme(InitialState.isDarkMode, ConditionName(InitialState.weatherCondition))
            == Theme(Light, Some(YellowGradient))
  {
  }

  /** The dashboard's state holder: the five slots, overwritten by the handlers. */
  class WeatherApp {
    var currentPage: Page
    var weatherCondition: Condition
    var isDarkMode: bool
    var temperature: int
    var temperatureUnit: Unit

    /** The five slots as one value. */
    ghost function State(): AppState
      reads this
    {
      AppState(currentPage, weatherCondition, isDarkMode, temperature, temperatureUnit)
    }

    /** The component as first rendered. */
    constructor ()
      ensures State() == InitialState
      ensures currentPage == Home && weatherCondition == Sunny && !isDarkMode
      ensures temperature == 72 && temperatureUnit == F
    {
      currentPage := Home;
      weatherCondition := Sunny;
      isDarkMode := false;
      temperature := 72;
      temperatureUnit := F;
    }

    /** A click on the search icon, the settings icon or a navigation-bar button. */
    method Click(control: NavControl)
      modifies this
      ensures State() == AfterClick(old(State()), control)
    {
      currentPage := ClickTarget(control);
    }

    /** The unit selector's change handler. */
    method SetTemperatureUnit(unit: Unit)
      modifies this
      ensures State() == AfterUnitChange(old(State()), unit)
    {
      temperatureUnit := unit;
    }

    /** The dark-mode button's click handler. */
    method ToggleDarkMode()
      modifies this
      ensures State() == AfterDarkModeToggle(old(State()))
    {
      isDarkMode := !isDarkMode;
    }

    /** The timer callback, given the two values the random source returned. */
    method Tick(r1: real, r2: real)
      requires 0.0 <= r1 < 1.0 && 0.0 <= r2 < 1.0
      modifies this
      ensures State() == AfterTick(old(State()), r1, r2)
    {
      var conditions := [Sunny, Cloudy, Rainy, Thunder, Snowy];
      weatherCondition := conditions[(r1 * |conditions| as real).Floor];
      temperature := (r2 * 30.0).Floor + 50;
    }

    /** The theme of the page as rendered: always a base theme and a gradient. */
    function CurrentTheme(): (t: Theme)
      reads this
      ensures t.base == Dark <==> isDarkMode
      ensures t.gradient.Some?
    {
      GetTheme(isDarkMode, ConditionName(weatherCondition))
    }

    /** The dark-mode button's label. */
    function DarkModeLabel(): (caption: string)
      reads this
      ensures caption == "On" <==> isDarkMode
      ensures caption == "Off" <==> !isDarkMode
    {
      if isDarkMode then "On" else "Off"
    }
  }
}
