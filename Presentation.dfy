/**
 * What the dashboard derives from its state when it renders: the theme,
 * which page and which navigation button are shown as current, the current
 * reading on the home page and the rows of the 7-day forecast. Every one of
 * these is a function of the state; none of them changes it.
 */
module Presentation {
  import opened Weather
  import opened Temperature

  /** The base colours, chosen by the dark-mode flag alone. */
  datatype BaseTheme = Light | Dark

  /** The background gradient added for a known condition. */
  datatype Gradient = YellowGradient | GrayGradient | BlueGradient | PurpleGradient | PaleBlueGradient

  /** A theme is a base plus at most one gradient. */
  datatype Theme = Theme(base: BaseTheme, gradient: Option<Gradient>)

  datatype Option<T> = None | Some(value: T)

  /**
   * The page theme for a condition name: the base theme of the dark-mode
   * flag, plus the gradient of the condition when the name is one of the
   * five known ones, and the base theme alone for any other name.
   */
  function GetTheme(isDarkMode: bool, condition: string): (t: Theme)
    ensures t.base == Dark <==> isDarkMode
    ensures t.gradient.Some? <==> exists c :: ConditionName(c) == condition
  {
    var base := if isDarkMode then Dark else Light;
    KnownName(condition);
    match condition
    case "sunny" => Theme(base, Some(YellowGradient))
    case "cloudy" => Theme(base, Some(GrayGradient))
    case "rainy" => Theme(base, Some(BlueGradient))
    case "thunder" => Theme(base, Some(PurpleGradient))
    case "snowy" => Theme(base, Some(PaleBlueGradient))
    case _ => Theme(base, None)
  }

  /** Helper: a known name is the name of its own parse. */
  lemma KnownName(s: string)
    ensures (exists c :: ConditionName(c) == s) <==>
            s in {"sunny", "cloudy", "rainy", "thunder", "snowy"}
  {
    if s == "sunny" { assert ConditionName(Sunny) == s; }
    else if s == "cloudy" { assert ConditionName(Cloudy) == s; }
    else if s == "rainy" { assert ConditionName(Rainy) == s; }
    else if s == "thunder" { assert ConditionName(Thunder) == s; }
    else if s == "snowy" { assert ConditionName(Snowy) == s; }
  }

  /**
   * Each known condition gets its own gradient, the same one whatever the
   * dark-mode flag, so the page background tells the conditions apart.
   */
  lemma GradientPerCondition(isDarkMode: bool, c1: Condition, c2: Condition)
    ensures GetTheme(isDarkMode, ConditionName(c1)).gradient == GetTheme(!isDarkMode, ConditionName(c1)).gradient
    ensures c1 != c2 ==>
            GetTheme(isDarkMode, ConditionName(c1)).gradient != GetTheme(isDarkMode, ConditionName(c2)).gradient
  {
  }

  /** The views the main area can hold. */
  datatype View = HomePage | ForecastPage | SettingsPage

  /** The view that belongs to a page. */
  function ViewOf(page: Page): View
  {
    match page
    case Home => HomePage
    case Forecast => ForecastPage
    case Settings => SettingsPage
  }

  /**
   * The views the main area renders: each of the three views is rendered
   * on its own test of the current page, and exactly one test passes.
   */
  function ShownViews(currentPage: Page): (vs: set<View>)
    ensures |vs| == 1
    ensures vs == {ViewOf(currentPage)}
  {
    (if currentPage == Home then {HomePage} else {})
    + (if currentPage == Forecast then {ForecastPage} else {})
    + (if currentPage == Settings then {SettingsPage} else {})
  }

  /** The clickable controls that change the page. */
  datatype NavControl = SearchIcon | SettingsIcon | HomeButton | ForecastButton | SettingsButton

  /** The page a control leads to; it does not depend on the page shown. */
  function ClickTarget(control: NavControl): Page
  {
    match control
    case SearchIcon => Forecast
    case SettingsIcon => Settings
    case HomeButton => Home
    case ForecastButton => Forecast
    case SettingsButton => Settings
  }

  /** The three buttons of the bottom navigation bar. */
  const NavButtons: set<NavControl> := {HomeButton, ForecastButton, SettingsButton}

  /**
   * The navigation-bar buttons drawn as active: exactly one, the button
   * that leads to the page shown.
   */
  function ActiveButtons(currentPage: Page): (bs: set<NavControl>)
    ensures |bs| == 1 && bs <= NavButtons
    ensures forall b :: b in bs <==> b in NavButtons && ClickTarget(b) == currentPage
  {
    (if currentPage == Home then {HomeButton} else {})
    + (if currentPage == Forecast then {ForecastButton} else {})
    + (if currentPage == Settings then {SettingsButton} else {})
  }

  /** A temperature as shown on screen: the converted number and the unit letter. */
  datatype Reading = Reading(value: int, unit: Unit)

  /** The home page's current reading: the stored temperature in the chosen unit. */
  function HomeReading(s: AppState): (d: Reading)
    ensures d.unit == s.temperatureUnit
    ensures s.temperatureUnit == F ==> d.value == s.temperature
    ensures s.temperatureUnit == C ==> -4 <= 9 * d.value - 5 * (s.temperature - 32) <= 4
  {
    Reading(ConvertTemperature(s.temperature, s.temperatureUnit), s.temperatureUnit)
  }

  /** One row of the 7-day forecast. */
  datatype ForecastRow = ForecastRow(day: string, icon: Condition, temperature: Reading, humidity: int, wind: int)

  /**
   * The forecast rows for `data`: one row per day, in order, whose icon
   * cycles through the fixed condition list by position, whose temperature
   * is the day's temperature in the chosen unit, and whose humidity and
   * wind are the day's own.
   */
  function ForecastRows(data: seq<DailyPoint>, unit: Unit): (rows: seq<ForecastRow>)
    ensures |rows| == |data|
    ensures forall i :: 0 <= i < |rows| ==>
              rows[i].day == data[i].day && rows[i].humidity == data[i].humidity && rows[i].wind == data[i].wind
    ensures forall i :: 0 <= i < |rows| ==> rows[i].icon == Conditions[i % |Conditions|]
    ensures forall i :: 0 <= i < |rows| ==> rows[i].temperature.unit == unit
    ensures unit == F ==> forall i :: 0 <= i < |rows| ==> rows[i].temperature.value == data[i].temp
    ensures unit == C ==> forall i :: 0 <= i < |rows| ==>
              -4 <= 9 * rows[i].temperature.value - 5 * (data[i].temp - 32) <= 4
  {
    seq(|data|, i requires 0 <= i < |data| =>
      ForecastRow(data[i].day, Conditions[i % 5],
                  Reading(ConvertTemperature(data[i].temp, unit), unit),
                  data[i].humidity, data[i].wind))
  }

  /**
   * The forecast always has the seven days Monday to Sunday, with icons
   * sunny, cloudy, rainy, thunder, snowy, sunny, cloudy, whatever the unit.
   */
  lemma ForecastOfDailyData(unit: Unit)
    ensures var rows := ForecastRows(DailyData, unit);
            |rows| == 7
            && (forall i :: 0 <= i < 7 ==> rows[i].day == ["Mon", "Tue", "Wed", "Thu", "Fri", "Sat", "Sun"][i])
            && (forall i :: 0 <= i < 7 ==> rows[i].icon == [Sunny, Cloudy, Rainy, Thunder, Snowy, Sunny, Cloudy][i])
  {
  }

  /**
   * The two units give the same rows apart from the temperature, and the
   * Celsius temperatures are the converted Fahrenheit ones: the unit only
   * changes how each day's stored temperature is shown.
   */
  lemma ForecastUnitOnlyChangesTemperature(data: seq<DailyPoint>, i: nat)
    requires i < |data|
    ensures var f, c := ForecastRows(data, F)[i], ForecastRows(data, C)[i];
            f.(temperature := c.temperature) == c
            && c.temperature.value == ConvertTemperature(f.temperature.value, C)
  {
  }
}
