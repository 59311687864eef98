/**
 * The values the weather dashboard works with: the five simulated weather
 * conditions, the two display units, the three pages, the five state slots
 * the dashboard component holds, and its static hourly and daily data.
 */
module Weather {

  /** A simulated weather category. */
  datatype Condition = Sunny | Cloudy | Rainy | Thunder | Snowy

  /** The display scale chosen in the settings panel. */
  datatype Unit = F | C

  /** One of the three mutually exclusive top-level pages. */
  datatype Page = Home | Forecast | Settings

  /**
   * The fixed list of conditions, in the order both the timer and the
   * forecast rows index it.
   */
  const Conditions: seq<Condition> := [Sunny, Cloudy, Rainy, Thunder, Snowy]

  /** The string the component stores and switches on for a condition. */
  function ConditionName(c: Condition): string
  {
    match c
    case Sunny => "sunny"
    case Cloudy => "cloudy"
    case Rainy => "rainy"
    case Thunder => "thunder"
    case Snowy => "snowy"
  }

  /**
   * The component's whole state: the page shown, the current condition,
   * the dark-mode flag, the temperature (always stored in Fahrenheit)
   * and the unit it is displayed in.
   */
  datatype AppState = AppState(
    currentPage: Page,
    weatherCondition: Condition,
    isDarkMode: bool,
    temperature: int,
    temperatureUnit: Unit)

  /** The values the five state slots start from. */
  const InitialState: AppState := AppState(Home, Sunny, false, 72, F)

  /** One point of the hourly chart. */
  datatype HourlyPoint = HourlyPoint(time: string, temp: int)

  /** One day of the 7-day forecast. */
  datatype DailyPoint = DailyPoint(day: string, temp: int, humidity: int, wind: int)

  const HourlyData: seq<HourlyPoint> := [
    HourlyPoint("12AM", 68), HourlyPoint("3AM", 65), HourlyPoint("6AM", 67),
    HourlyPoint("9AM", 72), HourlyPoint("12PM", 76), HourlyPoint("3PM", 78),
    HourlyPoint("6PM", 75), HourlyPoint("9PM", 71)
  ]

  const DailyData: seq<DailyPoint> := [
    DailyPoint("Mon", 72, 30, 5), DailyPoint("Tue", 75, 35, 7),
    DailyPoint("Wed", 70, 40, 6), DailyPoint("Thu", 73, 38, 8),
    DailyPoint("Fri", 76, 32, 5), DailyPoint("Sat", 74, 36, 6),
    DailyPoint("Sun", 71, 39, 7)
  ]

  /** Every condition sits at exactly one position of the fixed list. */
  lemma ConditionsListed(c: Condition)
    ensures exists i :: 0 <= i < |Conditions| && Conditions[i] == c
    ensures forall i, j :: 0 <= i < j < |Conditions| ==> Conditions[i] != Conditions[j]
  {
    var i := match c
      case Sunny => 0 case Cloudy => 1 case Rainy => 2 case Thunder => 3 case Snowy => 4;
    assert Conditions[i] == c;
  }

  /** Distinct conditions have distinct names, so the string state is unambiguous. */
  lemma ConditionNameInjective(c1: Condition, c2: Condition)
    ensures ConditionName(c1) == ConditionName(c2) ==> c1 == c2
  {
  }
}
