# Speculum weather formatter

A model of `ForecastIOService.getCurrentWeather` from the Speculum Android
mirror app. It takes a weather provider's response (current conditions
plus a daily forecast) and a `metric` flag. It returns the display-ready
`Weather` record: unit tokens chosen by the flag, the wind bearing as a
compass label, four day forecasts with their average temperatures, and
the current readings as strings.

Modules:

- `JavaNumerics` (java_numerics.dfy) holds the Java numeric semantics the
  method relies on, over exact reals and unbounded integers:
  - `Double.intValue()` and the `(int)` cast truncate toward zero and
    saturate at the 32-bit bounds;
  - `int` addition wraps around;
  - `int` division truncates;
  - `double % 360` keeps the sign of the dividend;
  - `Math.round` is `floor(x + 0.5)`.
- `DecimalText` (decimal_text.dfy) holds the decimal text Java writes when
  an `int` is concatenated to a string, and a parser that reads it back.
- `ForecastIOService` (forecast_io_service.dfy) holds the response and
  display records, unit selection, the wind-direction lookup and the day
  average. It also holds the formatting of every `Weather` field.
  - `CurrentWeather` is the specification of the whole call.
  - `GetCurrentWeather` is the program's algorithm, with its loop that
    appends one forecast entry per day. It is proved equal to
    `CurrentWeather`.

The program's collaborators are parameters:
- `WeatherIconGenerator.getIcon` is `getIcon: string -> int`.
- `SimpleDateFormat` in the default locale and time zone is
  `Platform.formatDate(millis, pattern)`.
- The eight `Constants` unit strings are `Platform.constants`.
- The conversion of an `int` to text is `Platform.intText`. Lemmas that
  read a number back out of a display string require only
  `IsIntText(intText)`: every text parses back to its number.
  `DecimalText.IntToString` is Java's conversion, and
  `DecimalText.IntToStringIsIntText` proves that it qualifies.

The Java method throws in two cases. Both are modelled as
`Err` results:
- an index outside the direction table
  (`DirectionIndexOutOfBounds`);
- `get(i)` on a day list shorter than four (`ForecastDayMissing`).
The direction is looked up before the loop, so a bad bearing is the error
reported even when days are missing too.

Modelling choices that follow the code:
- The character written after every temperature is U+00BA (`º`), as in
  the code.
- The humidity percentage is truncated by the `(int)` cast, not rounded.
- Not every negative bearing fails:
  - Java's `%` keeps the sign, so a bearing whose remainder lies in
    [-22.5, 0) rounds to index 0 and reads "N";
  - only remainders below -22.5 give a negative index and the
    out-of-bounds error.
- The wind bearing is taken to be a `double`. This is the reading under
  which `(int) Math.round(...)` at line 53 is a `long`-to-`int` cast.
  The declaration of the field is not part of this model.

## Model

| member | source | states |
|---|---|---|
| JavaNumerics.Trunc | app/src/main/java/com/nielsmasdorp/speculum/services/ForecastIOService.java:60 | the integer part of a double, rounding toward zero for both signs |
| JavaNumerics.DoubleToInt | app/src/main/java/com/nielsmasdorp/speculum/services/ForecastIOService.java:69 | `Double.intValue()` lies in the int range, equals the truncation when that fits, and saturates at IntMax/IntMin otherwise |
| JavaNumerics.Wrap32 | app/src/main/java/com/nielsmasdorp/speculum/services/ForecastIOService.java:60 | int addition lands in the int range, is congruent to the exact sum mod 2^32, and is exact when the sum fits |
| JavaNumerics.IntDiv | app/src/main/java/com/nielsmasdorp/speculum/services/ForecastIOService.java:60 | Java's `/ 2` gives the quotient truncated toward zero: bounds on q*d for each sign of the dividend |
| JavaNumerics.DoubleRem360 | app/src/main/java/com/nielsmasdorp/speculum/services/ForecastIOService.java:53 | `bearing % 360` lies in [0, 360) for a non-negative bearing and in (-360, 0] for a negative one, and is the bearing itself when that lies strictly between -360 and 360 |
| JavaNumerics.MathRound | app/src/main/java/com/nielsmasdorp/speculum/services/ForecastIOService.java:53 | `Math.round` is the integer n with n - 0.5 <= x < n + 0.5 (ties go up) |
| JavaNumerics.DoubleRem360Periodic | app/src/main/java/com/nielsmasdorp/speculum/services/ForecastIOService.java:53 | two bearings of the same sign a full turn apart leave the same remainder (b and b + 360 for b >= 0, and for b + 360 <= 0); with the identity on (-360, 360) this fixes the remainder of every bearing |
| DecimalText.NatToString | app/src/main/java/com/nielsmasdorp/speculum/services/ForecastIOService.java:61 | the decimal digits of a natural number in canonical form: non-empty, digits only, no leading zero, and zero written as the single digit "0" |
| DecimalText.IntToString | app/src/main/java/com/nielsmasdorp/speculum/services/ForecastIOService.java:61 | an int's text starts with '-' exactly when it is negative; the magnitude after it is canonical digits that never start with '0', and zero is written "0" |
| DecimalText.ParseInt | app/src/main/java/com/nielsmasdorp/speculum/services/ForecastIOService.java:61 | a number is read only from non-empty text |
| DecimalText.ParseNatToString | app/src/main/java/com/nielsmasdorp/speculum/services/ForecastIOService.java:61 | reading back the digits of n gives n |
| DecimalText.ParseIntToString | app/src/main/java/com/nielsmasdorp/speculum/services/ForecastIOService.java:61 | reading back the text of any int gives that int |
| DecimalText.IntToStringInjective | app/src/main/java/com/nielsmasdorp/speculum/services/ForecastIOService.java:61 | different ints are written as different texts |
| DecimalText.IntToStringIsIntText | app/src/main/java/com/nielsmasdorp/speculum/services/ForecastIOService.java:61 | Java's int-to-text conversion satisfies IsIntText, the assumption the formatting lemmas make of `intText` |
| ForecastIOService.SelectUnits | app/src/main/java/com/nielsmasdorp/speculum/services/ForecastIOService.java:44-49 | unit selection is all-or-nothing: every token and the date pattern "d MMM" come from the metric set when `metric` holds, and every token and "MMM d" from the imperial set otherwise |
| ForecastIOService.DirectionIndex | app/src/main/java/com/nielsmasdorp/speculum/services/ForecastIOService.java:53 | `(int) Math.round((bearing % 360) / 45)` lies in -8..8, and the `(int)` cast of the rounded `long` loses nothing (the index is the rounded value itself) |
| ForecastIOService.RoundedSectorBounds | app/src/main/java/com/nielsmasdorp/speculum/services/ForecastIOService.java:53 | a remainder strictly between -360 and 360, divided by 45 and rounded half-up, lies in -8..8 |
| ForecastIOService.WindDirection | app/src/main/java/com/nielsmasdorp/speculum/services/ForecastIOService.java:52-53 | a successful lookup yields one of the eight compass labels; a failing one reports the index that was out of bounds |
| ForecastIOService.DirectionIndexRange | app/src/main/java/com/nielsmasdorp/speculum/services/ForecastIOService.java:52-53 | the index lies in -8..8, and it is non-negative exactly when the bearing's remainder is at least -22.5 |
| ForecastIOService.WindDirectionDefined | app/src/main/java/com/nielsmasdorp/speculum/services/ForecastIOService.java:52-53 | the lookup succeeds exactly when the remainder is at least -22.5, so always for a bearing >= 0 |
| ForecastIOService.WindDirectionSector | app/src/main/java/com/nielsmasdorp/speculum/services/ForecastIOService.java:52-53 | the label is compass point k if and only if the remainder lies in k's 45-degree sector, [45k - 22.5, 45k + 22.5); north also owns [337.5, 360), the table's ninth entry |
| ForecastIOService.WindDirectionPeriodic | app/src/main/java/com/nielsmasdorp/speculum/services/ForecastIOService.java:53 | bearings b >= 0 and b + 360 read the same label |
| ForecastIOService.WindDirectionExamples | app/src/main/java/com/nielsmasdorp/speculum/services/ForecastIOService.java:52-53 | half-up rounding: 22.5 has index 1 and reads NE, 100 has index 2 and reads E, 337.5 has index 8 and reads N, 0 and 360 have index 0 and read N; -10 reads N; -30 fails with index -1 |
| ForecastIOService.DayAverage | app/src/main/java/com/nielsmasdorp/speculum/services/ForecastIOService.java:60 | `(min.intValue() + max.intValue()) / 2` is an int whose double also fits in an int: the halving of a wrapped 32-bit sum; DayAverageBetween gives its value without overflow |
| ForecastIOService.DayAverageBetween | app/src/main/java/com/nielsmasdorp/speculum/services/ForecastIOService.java:60 | without overflow the day average is the truncated half of the truncated min and max, and lies between them |
| ForecastIOService.DayAverageExamples | app/src/main/java/com/nielsmasdorp/speculum/services/ForecastIOService.java:60 | min 2.9 and max 3.9 give 2 where the truncated mean would be 3; -3.5 and -4.2 give -3; 10.9 and 20.1 give 15 |
| ForecastIOService.DayAverageOverflow | app/src/main/java/com/nielsmasdorp/speculum/services/ForecastIOService.java:60 | bounds whose truncated sum leaves the int range wrap around: 3e9 and 3e9 give -1 |
| ForecastIOService.ParseReading | app/src/main/java/com/nielsmasdorp/speculum/services/ForecastIOService.java:69-74 | a number is read from a display string only when the string ends with the expected suffix |
| ForecastIOService.ReadingRoundTrip | app/src/main/java/com/nielsmasdorp/speculum/services/ForecastIOService.java:69-74 | a number followed by its suffix reads back as that number |
| ForecastIOService.DayEntry | app/src/main/java/com/nielsmasdorp/speculum/services/ForecastIOService.java:58-63 | the loop body's entry: its temperature string ends with U+00BA and the selected temperature token; ForecastEntries states its icon id, the average it shows and its date |
| ForecastIOService.WindInfo | app/src/main/java/com/nielsmasdorp/speculum/services/ForecastIOService.java:71 | the wind line, speed + speed token + " " + label + " \| " + apparent temperature: it ends with U+00BA and the temperature token; UnitTokenPresence gives its leading speed and WindInfoNamesSector the label it names |
| ForecastIOService.DayEntries | app/src/main/java/com/nielsmasdorp/speculum/services/ForecastIOService.java:55-64 | one forecast entry per day |
| ForecastIOService.FormatWeather | app/src/main/java/com/nielsmasdorp/speculum/services/ForecastIOService.java:66-76 | the record carries one forecast entry per day it is given |
| ForecastIOService.CurrentWeather | app/src/main/java/com/nielsmasdorp/speculum/services/ForecastIOService.java:42-77 | a successful call returns exactly four forecast entries |
| ForecastIOService.GetCurrentWeather | app/src/main/java/com/nielsmasdorp/speculum/services/ForecastIOService.java:42-77 | the loop that appends one entry per day for i = 0..3, with the direction lookup before it and the field assembly after it, returns what CurrentWeather specifies, including both errors |
| ForecastIOService.AssembledWeather | app/src/main/java/com/nielsmasdorp/speculum/services/ForecastIOService.java:66-76 | the builder's fields, concatenated left to right as the program writes them, form the same record as FormatWeather given the loop's entries |
| ForecastIOService.CurrentWeatherOutcome | app/src/main/java/com/nielsmasdorp/speculum/services/ForecastIOService.java:53-58 | the call succeeds if and only if the remainder is >= -22.5 and there are at least four days; it fails on the direction if and only if the remainder is < -22.5; it fails on the days if and only if the direction is fine and there are fewer than four, naming the first missing index |
| ForecastIOService.CurrentWeatherOk | app/src/main/java/com/nielsmasdorp/speculum/services/ForecastIOService.java:53-76 | a successful call formats the current conditions with the label read from the table and the first four days |
| ForecastIOService.ForecastEntries | app/src/main/java/com/nielsmasdorp/speculum/services/ForecastIOService.java:57-64 | entry i has day i's icon id, shows day i's average temperature followed by U+00BA and the unit, and is dated by day i's time in the selected pattern |
| ForecastIOService.OnlyFirstFourDays | app/src/main/java/com/nielsmasdorp/speculum/services/ForecastIOService.java:57-58 | responses that agree on the current conditions and on their first four days give the same result: later days are never read |
| ForecastIOService.FormatReadings | app/src/main/java/com/nielsmasdorp/speculum/services/ForecastIOService.java:69-74 | temperature, humidity, pressure and visibility strings read back as the truncated readings (humidity as the truncation of 100 times the fraction) |
| ForecastIOService.CurrentReadings | app/src/main/java/com/nielsmasdorp/speculum/services/ForecastIOService.java:66-76 | a successful call shows the icon id of the current condition code, its summary and its time as "h:mm", and the truncated readings with the selected units |
| ForecastIOService.UnitTokenPresence | app/src/main/java/com/nielsmasdorp/speculum/services/ForecastIOService.java:44-74 | every temperature string (current, apparent, each day) ends with U+00BA and the selected temperature token; pressure and visibility end with their selected tokens; the wind line starts with the speed followed by the speed token |
| ForecastIOService.WindInfoNamesSector | app/src/main/java/com/nielsmasdorp/speculum/services/ForecastIOService.java:71 | when the days are present and the bearing's remainder lies in sector k, the call succeeds and the wind line names compass point k |
| ForecastIOService.ExampleReadings | app/src/main/java/com/nielsmasdorp/speculum/services/ForecastIOService.java:69-74 | 21.6, 12.4, 19.9, 1013.2 and 9.8 truncate to 21, 12, 19, 1013 and 9; humidity 0.55 shows 55 and 0.559 also shows 55 |
| ForecastIOService.ExampleOutcome | app/src/main/java/com/nielsmasdorp/speculum/services/ForecastIOService.java:42-77 | a metric response with a 100-degree wind and six days succeeds with the label "E" and its first four days |
| ForecastIOService.EndToEndExample | app/src/main/java/com/nielsmasdorp/speculum/services/ForecastIOService.java:42-77 | for that response every field is as the program writes it: the icon id of "partly-cloudy-day", the summary, the "h:mm" time of 1700000000000 ms, the readings 21, 55, 1013 and 9 with their units, the wind line "12" + speed unit + " E \| 19º" + temperature unit, and four identical day entries showing 15 dated "d MMM" |
| ForecastIOService.IntToStringExamples | app/src/main/java/com/nielsmasdorp/speculum/services/ForecastIOService.java:69 | Java writes 21, 1013 and -3 as "21", "1013" and "-3" |

## Left out

- The constructor and the `ForecastIOApi` HTTP interface (lines 31-40, 79-88) are network client plumbing and are not modelled.
- `Observable.just` and `Weather.Builder` (lines 66, 76) are not modelled: the result is a plain `Weather` value.
- `SimpleDateFormat` (lines 49, 59, 70) depends on the default locale and time zone. It is the parameter `Platform.formatDate`, applied to epoch milliseconds and the pattern.
- `WeatherIconGenerator.getIcon` is not part of this model. It is the parameter `getIcon`.
- The values of the `Constants` unit strings are not part of this model. They are the fields of `Platform.constants`.
- IEEE-754 doubles are not modelled. Readings are exact reals, so rounding error in `humidity * 100` and NaN or infinite readings are out of scope.
- Null boxed `Double` fields, which would throw `NullPointerException`, are not modelled.
- The `(long)` cast before `* 1000` at lines 59 and 70 is modelled as exact integer multiplication. The time field's declared type is not part of this model.
- The conversion of an `int` to text is a parameter of the formatter. The round-trip lemmas hold for any conversion satisfying `IsIntText`, which `DecimalText.IntToString` does. `EndToEndExample` states the example's strings in terms of that parameter.
- UtilModule.java is dependency-injection wiring with no logic and is not modelled.
