# Weather dashboard view-state model

A Dafny model of the logic inside the single-page weather dashboard
(`src/WeatherApp.js`). The dashboard keeps five pieces of state — the page
shown, the simulated weather condition, the dark-mode flag, the temperature
(stored in Fahrenheit) and the display unit — and changes them through
navigation clicks, the unit selector, the dark-mode button and a timer that
simulates new weather. Everything it renders is derived from that state:
the theme, which page and navigation button are current, the home reading
and the 7-day forecast rows, whose temperatures are passed through
`convertTemperature` (the two charts are not; see below).

Files:

- `Weather.dfy` (module `Weather`): conditions, units, pages, the state
  record `AppState`, its initial value and the static hourly and daily data.
- `Temperature.dfy` (module `Temperature`): `convertTemperature` over the
  integers, and its properties: it is exactly `Math.round` of the real
  formula, the nearest integer, monotonic, and inverts whole-degree Celsius.
- `Presentation.dfy` (module `Presentation`): `getTheme` as enums, the
  page-to-view selection, the active navigation button, the home reading
  and the forecast rows.
- `Controller.dfy` (module `Controller`): each transition as a function on
  `AppState`, lemmas about them, and the class `WeatherApp` whose five
  fields are the component's state slots and whose methods are proved to
  perform exactly those transitions.

The random source is a parameter: a tick receives the two values
`Math.random` returned, each a real in [0, 1), and applies the source's
`Math.floor` arithmetic to them exactly. Because `(t - 32) * 5/9` is a
multiple of 1/9 for integer `t`, it is never a rounding tie, and the
Celsius display is computed as `(10 * (t - 32) + 9) / 18` with floor
division, which `Temperature.ConvertIsMathRound` proves equal to
rounding the real value half upward.

## Model

| member | source | states |
|---|---|---|
| `Weather.ConditionsListed` | src/WeatherApp.js:16 | every condition occurs in the fixed five-element list, and at exactly one position |
| `Weather.ConditionNameInjective` | src/WeatherApp.js:16 | the five condition strings are pairwise distinct |
| `Temperature.RoundHalfUp` | src/WeatherApp.js:83 | `Math.round`: the result is the integer `n` with `n - 1/2 <= x < n + 1/2` |
| `Temperature.ConvertTemperature` | src/WeatherApp.js:81-86 | identity whenever the unit is not `C`; for `C` the result is within 4/9 of the exact value (t - 32) * 5/9 |
| `Temperature.ConvertIsMathRound` | src/WeatherApp.js:83 | the integer formula equals `Math.round((t - 32) * 5/9)` computed over the reals |
| `Temperature.ConvertIsNearest` | src/WeatherApp.js:82-84 | every integer other than the Celsius reading is strictly farther from the exact value |
| `Temperature.ConvertMonotonic` | src/WeatherApp.js:81-86 | a higher stored temperature never displays lower, in either unit |
| `Temperature.ConvertExamples` | src/WeatherApp.js:81-86 | 32 F shows as 0 C, 212 F as 100 C, 100 F as 38 C, -40 F as -40 C, and 212 stays 212 in F |
| `Temperature.CelsiusRoundTrip` | src/WeatherApp.js:82-84 | a whole Celsius degree, rounded to Fahrenheit, displays back as the same Celsius degree |
| `Presentation.GetTheme` | src/WeatherApp.js:24-40 | the base is dark exactly when dark mode is on; a gradient is added exactly when the name is one of the five known conditions, otherwise the base theme alone |
| `Presentation.GradientPerCondition` | src/WeatherApp.js:26-36 | distinct conditions get distinct gradients, and the gradient does not depend on dark mode |
| `Presentation.ShownViews` | src/WeatherApp.js:201-203 | for every page exactly one view is rendered, the page's own |
| `Presentation.ActiveButtons` | src/WeatherApp.js:208-225 | exactly one navigation-bar button is drawn active, the one whose target is the current page |
| `Presentation.HomeReading` | src/WeatherApp.js:94 | the home reading carries the chosen unit and the stored temperature converted to it |
| `Presentation.ForecastRows` | src/WeatherApp.js:123-128 | one row per day in order, with the day's own name, humidity and wind, icon `i % 5` of the fixed list, and the day's temperature in the chosen unit: unchanged in F, within 4/9 of the exact Celsius value in C |
| `Presentation.ForecastOfDailyData` | src/WeatherApp.js:71-79 | the forecast has exactly seven rows, Monday to Sunday, with icons sunny, cloudy, rainy, thunder, snowy, sunny, cloudy, in either unit |
| `Presentation.ForecastUnitOnlyChangesTemperature` | src/WeatherApp.js:128 | the Fahrenheit and Celsius forecasts differ only in the temperature, which is the converted Fahrenheit value |
| `Controller.Draw` | src/WeatherApp.js:16-18 | for random values in [0, 1) the tick draws condition `i` of the fixed list exactly when the first value lies in [i/5, (i+1)/5), and a temperature in [50, 79] |
| `Controller.EveryOutcomeDrawable` | src/WeatherApp.js:17-18 | every condition and every integer temperature in [50, 79] is drawn by some random values in [0, 1) |
| `Controller.TickKeepsSettings` | src/WeatherApp.js:15-18 | a tick leaves page, unit and dark mode unchanged and sets the drawn condition and a temperature in [50, 79] |
| `Controller.NavigateSetsTarget` | src/WeatherApp.js:195-221 | a click sets the page to the control's fixed target whatever the current page (search icon to forecast, settings icon to settings) and changes nothing else |
| `Controller.EveryPageOneClickAway` | src/WeatherApp.js:208-225 | from any state every page is one navigation-bar click away, after which only its view is shown |
| `Controller.SelectUnitKeepsTemperature` | src/WeatherApp.js:163 | choosing a unit changes only the unit; the stored Fahrenheit temperature stays, and the home reading and every forecast row show the stored values converted to the new unit |
| `Controller.ToggleDarkModeInvolution` | src/WeatherApp.js:173 | the dark-mode button flips only the flag, and two clicks restore the state |
| `Controller.InitialView` | src/WeatherApp.js:7-11 | the first render shows only the home page, 72 F, on the light theme with the sunny gradient |
| `Controller.WeatherApp.constructor` | src/WeatherApp.js:7-11 | the state starts at page home, condition sunny, dark mode off, 72, unit F |
| `Controller.WeatherApp.Click` | src/WeatherApp.js:195-221 | a navigation click performs exactly `AfterClick` on the five fields |
| `Controller.WeatherApp.SetTemperatureUnit` | src/WeatherApp.js:163 | the unit selector performs exactly `AfterUnitChange` on the five fields |
| `Controller.WeatherApp.ToggleDarkMode` | src/WeatherApp.js:173 | the dark-mode button performs exactly `AfterDarkModeToggle` on the five fields |
| `Controller.WeatherApp.Tick` | src/WeatherApp.js:15-18 | the timer callback performs exactly `AfterTick` for the two random values on the five fields |
| `Controller.WeatherApp.CurrentTheme` | src/WeatherApp.js:187 | the rendered theme has the dark base exactly in dark mode and always a gradient, since the stored condition is always a known one |
| `Controller.WeatherApp.DarkModeLabel` | src/WeatherApp.js:175 | the button reads "On" exactly in dark mode and "Off" otherwise |

## Left out

- Rendering: the JSX markup of the three pages, the header and the
  navigation bar, and the `WeatherIcon` component's icons and animation
  classes; only which page, button, reading and rows are shown is modelled.
- The hourly line chart and the daily bar chart: they are calls into a
  charting library. `Weather.HourlyData` is kept as data only. Both charts
  plot the raw Fahrenheit `temp` field, so in Celsius mode they still show
  Fahrenheit numbers beside the Celsius readings; the model's conversion
  results cover only the home reading and the forecast rows.
- Theme CSS class strings: themes are modelled as a base enum plus an
  optional gradient enum.
- Timer scheduling, the 10-second period and clean-up on unmount: only the
  state change of one tick is modelled.
- `Math.random` itself: its two results are parameters of the tick,
  constrained to [0, 1); the model's arithmetic on them is exact real
  arithmetic, not double precision.
- Double-precision evaluation of `(temp - 32) * 5/9`: the model computes
  over unbounded integers; for temperatures of realistic magnitude the
  floating-point result rounds the same way, because the exact value is
  never closer than 1/18 to a rounding boundary.
- The notifications checkbox, which holds no state, and the fixed
  location, wind and humidity strings of the home page.
- The unit is a closed enum `F | C`, the two values the selector offers;
  an arbitrary string from elsewhere cannot reach the state.
