# Weather app: forecast bucketing, card labels and search input, in Dafny

This project models the logic inside the React front end of a small weather
lookup application. Three pieces of it do real work:

- **The five-day forecast strip** (`src/components/Forecast.tsx`).
  `getDailyForecasts` keeps the forecast samples stamped at or after the next
  local midnight. It groups them by calendar day in a dictionary, takes the
  middle sample of each day and keeps the first five days.
  - `forecast.dfy` models the dictionary-filling loop as a method over a map
    and the sequence of its keys in insertion order.
  - That method is proved equal to a declarative summary, `Daily`: filter,
    first-seen day keys, per-day groups, middle element, first five.
  - Lemmas about `Daily` state what the source promises: the bound,
    membership, the boundary, distinct days, the middle index, first-seen
    order and the exact length.
- **The label selectors** shared by the forecast strip and the current-weather
  card.
  - `labels.dfy` has the case-insensitive icon choice and the temperature and
    speed unit labels. The two components carry identical copies that differ
    only in CSS classes, so the model defines them once.
  - `weather_card.dfy` has the compass-point lookup `getWindDirection` and the
    card's skeleton branch for absent data.
- **The search bar** (`src/components/SearchBar.tsx`).
  - `search_bar.dfy` models it as a class holding the input's `query`.
  - Its handlers record the callbacks they make (`onSearch`,
    `onLocationRequest`) in a ghost log.
  - `trim` is modelled with the ECMA-262 WhiteSpace and LineTerminator code
    points.

The clock and the time zone are parameters. `tomorrowTs` is the Unix time of
the next local midnight, which the source computes with `setHours`/`setDate`.
`dayKey: int -> K` maps a timestamp to its local calendar day, which the source
does with `new Date(dt * 1000).toDateString()`.

The dictionary's iteration order is insertion order. `Object.values` lists
non-integer string keys in that order (OrdinaryOwnPropertyKeys, section
10.1.11.1 of ECMA-262), and `toDateString` never yields an integer-like key.

Each day's representative is the middle of that day's samples in the order the
provider sent them; the code does not sort them by time, and neither does the
model.

## Model

| member | source | states |
|---|---|---|
| `Labels.Lower` | src/components/Forecast.tsx:28 | the result has the same length, contains no letter A-Z, and each of its characters is the input's character or that character's lower-case form |
| `Labels.LowerIsWord` | src/components/WeatherCard.tsx:50 | for an all-lower-case word k, `s.toLowerCase() == k` exactly when s spells k with each letter in either case |
| `Labels.WeatherIcon` | src/components/Forecast.tsx:27-50 | read as a table: the lower-cased name is the j-th keyword exactly when the icon is the j-th keyword's icon, and is none of the keywords exactly when the icon is Droplets (the same switch is at WeatherCard.tsx:49-70) |
| `Labels.IconByKeyword` | src/components/Forecast.tsx:27-50 | each of clear/clouds/rain/snow/thunderstorm/drizzle gets its own icon exactly when the condition spells it in any mix of cases; every other condition gets Droplets |
| `Labels.IconIgnoresCase` | src/components/WeatherCard.tsx:49-70 | two condition names of the same length whose characters at each position are equal or differ only in A-Z case get the same icon |
| `Labels.RainInAnyCase` | src/components/WeatherCard.tsx:55-56 | "Rain", "rain" and "RAIN" all get the rain icon |
| `Labels.UnitSymbol` | src/components/Forecast.tsx:52 | the symbol is "°C" exactly for Celsius and "°F" exactly for Fahrenheit (the same selector is at WeatherCard.tsx:86) |
| `Labels.SpeedUnit` | src/components/WeatherCard.tsx:87 | the speed unit is "km/h" exactly for Celsius and "mph" exactly for Fahrenheit (the same selector is at Forecast.tsx:53) |
| `Forecast.Upcoming` | src/components/Forecast.tsx:66 | the filter never lengthens the list |
| `Forecast.UpcomingMembers` | src/components/Forecast.tsx:65-66 | a sample is kept exactly when it is in the input and its `dt` is at or after `tomorrowTs`, so a sample exactly at the boundary is kept |
| `Forecast.UpcomingAppend` | src/components/Forecast.tsx:65-66 | the filter works sample by sample: filtering a concatenation concatenates the filtered parts |
| `Forecast.DayKeys` | src/components/Forecast.tsx:68-70 | there are no more day keys than samples |
| `Forecast.DayKeysComplete` | src/components/Forecast.tsx:67-70 | the day of every kept sample is a key of the dictionary |
| `Forecast.DayKeysSound` | src/components/Forecast.tsx:67-70 | every key of the dictionary is the day of some kept sample |
| `Forecast.DayKeysDistinct` | src/components/Forecast.tsx:68 | a key is created only once |
| `Forecast.DayKeysFirstSeen` | src/components/Forecast.tsx:68-70 | keys are in order of first appearance: every sample of a later key's day is preceded by a sample of each earlier key's day |
| `Forecast.Group` | src/components/Forecast.tsx:71 | a day's list never has more samples than were kept |
| `Forecast.GroupMembers` | src/components/Forecast.tsx:67-71 | a sample is in a day's list exactly when it is a kept sample whose day is that day (order and multiplicity: `GroupAppend`, `GroupSingle`) |
| `Forecast.GroupAppend` | src/components/Forecast.tsx:65-71 | a day's list for a concatenation of samples is the list for the first part followed by the list for the second, so the pushes keep input order |
| `Forecast.GroupSingle` | src/components/Forecast.tsx:67-71 | a single sample contributes itself, once, to its own day's list and nothing to any other day's; with `GroupAppend` this fixes each list's order and multiplicity |
| `Forecast.GroupNonEmptyIffDay` | src/components/Forecast.tsx:68-71 | a day's list is non-empty exactly when the day is a key, so no empty group is ever produced |
| `Forecast.Middle` | src/components/Forecast.tsx:77 | the representative, at index floor(n / 2) of a non-empty list, is a member of that list |
| `Forecast.FirstFive` | src/components/Forecast.tsx:78 | `.slice(0, 5)` has min(5, n) elements, each the element at the same index |
| `Forecast.Daily` | src/components/Forecast.tsx:76-78 | the summary never has more than five entries |
| `Forecast.DailyLength` | src/components/Forecast.tsx:65-78 | the summary has min(5, number of distinct days among samples at or after the boundary) entries, so it is empty when nothing lies at or after the boundary |
| `Forecast.DailyEntries` | src/components/Forecast.tsx:76-77 | entry i is the sample at index floor(n / 2) of the n samples of the i-th first-seen day; it is an input sample at or after the boundary, on that day |
| `Forecast.DailyDistinctDays` | src/components/Forecast.tsx:67-71 | no two entries fall on the same day |
| `Forecast.DailyFirstSeenOrder` | src/components/Forecast.tsx:68-76 | entries come in order of their day's first appearance among the kept samples |
| `Forecast.EarlySampleIgnored` | src/components/Forecast.tsx:66 | inserting a sample before the boundary anywhere in the input does not change the summary |
| `Forecast.BucketsAdd` | src/components/Forecast.tsx:67-71 | creating a missing key with `[]` and then pushing the sample keeps the dictionary equal to the first-seen days and their groups |
| `Forecast.BucketsDaily` | src/components/Forecast.tsx:76-78 | mapping each list of the filled dictionary to its middle and slicing five gives the summary |
| `Forecast.DailyForecasts` | src/components/Forecast.tsx:55-79 | the loop that fills the dictionary, followed by middle-and-slice, returns exactly `Daily` of the payload; the payload is a value and is not changed |
| `WeatherCard.JsRem8` | src/components/WeatherCard.tsx:82 | JavaScript's `% 8`: a remainder in (-8, 8) with the sign of the dividend and congruent to it modulo 8 |
| `WeatherCard.WindDirection` | src/components/WeatherCard.tsx:80-84 | a found label is one of the eight compass points, and every angle of at least -22.5 finds one |
| `WeatherCard.WindSector` | src/components/WeatherCard.tsx:81-83 | the half-open sector [45k - 22.5, 45k + 22.5) gives point k, for k from 0 to 8, with k = 8 (337.5 up to 382.5) wrapping to "N" |
| `WeatherCard.WindBoundaries` | src/components/WeatherCard.tsx:82 | boundaries belong to the clockwise sector: 22.5 gives "NE", 67.5 gives "E", 337.5 gives "N"; 0 and 359.9 give "N" |
| `WeatherCard.WindPeriodic` | src/components/WeatherCard.tsx:82 | for deg at least -22.5, deg and deg + 360 give the same label |
| `WeatherCard.WindBelowRange` | src/components/WeatherCard.tsx:82-83 | below -22.5 the lookup is `undefined`, except that a sector index that is a multiple of 8 gives remainder -0 and so finds "N" |
| `WeatherCard.WindNegativeExamples` | src/components/WeatherCard.tsx:82-83 | -45 finds nothing, while -360 finds "N" |
| `WeatherCard.Render` | src/components/WeatherCard.tsx:28-215 | the skeleton is shown exactly when data is absent; reading `weather[0]` of an empty condition list throws; otherwise the card shows the snapshot's city, country, first condition's icon and description, the unit's symbol and speed labels, the wind direction, and the raw sunrise and sunset timestamps |
| `SearchBar.IsWhitespace` | src/components/SearchBar.tsx:20 | the characters `trim()` strips; within ASCII these are exactly the space and TAB through CR, and no letter or digit is one of them |
| `SearchBar.SkipLeading` | src/components/SearchBar.tsx:20 | the scan for the start of the trimmed text stops at the first character that is not whitespace, or at the end, and everything it passes is whitespace |
| `SearchBar.SkipTrailing` | src/components/SearchBar.tsx:20 | the scan back from the end stops just past the last character that is not whitespace, or at the start, and everything it passes is whitespace |
| `SearchBar.TrimBounds` | src/components/SearchBar.tsx:20 | whitespace, then `s[i..j]`, then whitespace: the middle is an infix with whitespace on both sides, it is empty exactly when `s` is all whitespace, and a non-empty middle starts and ends with non-whitespace |
| `SearchBar.Trim` | src/components/SearchBar.tsx:20-21 | `trim()` is an infix of the query with only whitespace around it; it is empty exactly when the query is all whitespace, and otherwise starts and ends with non-whitespace |
| `SearchBar.SearchBarState.constructor` | src/components/SearchBar.tsx:16 | the query starts empty and nothing has been called back |
| `SearchBar.SearchBarState.Change` | src/components/SearchBar.tsx:42 | a change event replaces the query with the input's value and calls nothing |
| `SearchBar.SearchBarState.Submit` | src/components/SearchBar.tsx:18-23 | an empty or all-whitespace query calls nothing; otherwise `onSearch` is called exactly once with the trimmed query, which is non-empty with no surrounding whitespace; the stored query is unchanged; every search ever logged carried a clean term |
| `SearchBar.SearchBarState.RequestLocation` | src/components/SearchBar.tsx:25-28 | the query becomes empty whatever it was, then `onLocationRequest` is called exactly once |

## Left out

- JSX rendering, Tailwind classes, framer-motion animation and the lucide-react icon components are presentation and foreign libraries. An icon is a tag of the `Icon` datatype.
- The forecast strip's per-day cards are rendering only and are not modelled: the day name from `toLocaleDateString`, each card's icon, and the rounded temperature and wind speed.
- `Date`, `setHours`/`setDate`, `toDateString`, `toLocaleTimeString` and `toLocaleDateString` depend on the clock, locale and time zone.
  - They become the `tomorrowTs` and `dayKey` parameters.
  - `formatTime` and `getDayName` are not modelled; the card passes the raw sunrise and sunset timestamps through.
- Floating-point display arithmetic is not modelled: `Math.round` of temperatures, humidity and wind speed, `Math.floor`/`Math.ceil` of the minimum and maximum, and `(visibility / 1000).toFixed(1)`.
- WindDirection: computes (deg + 22.5) / 45 over exact reals, not IEEE doubles. NaN and infinite angles have no counterpart. Rounding in `deg + 22.5` and in `/ 45` can move an angle within an ulp of a sector boundary into the next sector. For example, 22.499999999999996 is below 22.5, but `deg + 22.5` rounds to 45 and the source gives "NE" where the model gives "N".
- Labels.Lower: lower-cases A-Z only, not the full Unicode mapping of `toLowerCase`. The only non-ASCII character that lower-cases to an ASCII letter is the Kelvin sign (to "k"), which no keyword contains, so the icon choice is unaffected.
- SearchBar.IsWhitespace: its contract pins down only the ASCII members and rules out letters and digits. The non-ASCII members are given by its definition, which fixes the Unicode space separators at the current Unicode version's set.
- The handlers record callbacks in a ghost log; what `onSearch` and `onLocationRequest` do in the application is not modelled.
- React applies `setQuery` at the next render; the model applies it at once. `onLocationRequest` receives no argument, so the order is not observable to it.
- The search bar's `e.preventDefault()` and the `disabled={isLoading}` attributes are DOM behaviour and are not modelled.
- The location button at src/components/SearchBar.tsx:56 has no `onClick`, so `handleLocationRequest` cannot be reached from the page. `RequestLocation` models the handler anyway.
- src/App.tsx is not part of this model: both of its handlers only throw "Function not implemented.".
- src/components/Extension.tsx is not part of this model: a `<select>` that forwards its value.
- src/types/Weather.ts holds type declarations only, and its shapes give the datatypes. It exports `Weather` and `WeatherForecast` (src/types/Weather.ts:6 and 43). The components import `WeatherData` and `ForecastData` (src/components/WeatherCard.tsx:20, src/components/Forecast.tsx:2), names the file does not export. The model takes the shapes of the two exported interfaces.
- The fetch layer, geolocation, the unit-change refetch and the loading and error state are not in the modelled files and are not part of this model.
