/** The weather formatter of ForecastIOService.getCurrentWeather: from a
    forecast provider's response and a metric/imperial flag to a display-ready
    Weather record. The icon generator, the date formatter and the unit
    strings are the program's collaborators and come in as parameters. */
module ForecastIOService {
  import opened JavaNumerics
  import opened DecimalText

  // ---------------------------------------------------------------------------
  // The provider's response (only the fields the formatter reads)

  /** The current-conditions block. Numeric readings are doubles in the
      program and exact reals here; `time` is in epoch seconds. */
  datatype Currently = Currently(
    time: int,
    icon: string,
    summary: string,
    temperature: real,
    apparentTemperature: real,
    windSpeed: real,
    windBearing: real,
    humidity: real,
    pressure: real,
    visibility: real)

  /** One day of the daily forecast block. */
  datatype DayForecast = DayForecast(
    time: int,
    icon: string,
    temperatureMin: real,
    temperatureMax: real)

  datatype Forecast = Forecast(data: seq<DayForecast>)

  datatype ForecastResponse = ForecastResponse(currently: Currently, forecast: Forecast)

  // ---------------------------------------------------------------------------
  // The display model

  datatype ForecastDayWeather = ForecastDayWeather(iconId: int, temperature: string, date: string)

  datatype Weather = Weather(
    iconId: int,
    summary: string,
    temperature: string,
    lastUpdated: string,
    windInfo: string,
    humidityInfo: string,
    pressureInfo: string,
    visibilityInfo: string,
    forecast: seq<ForecastDayWeather>)

  /** The exceptions getCurrentWeather can raise: the direction table indexed
      out of bounds, or `get(i)` on a day list shorter than four. */
  datatype Failure =
    | DirectionIndexOutOfBounds(index: int)
    | ForecastDayMissing(day: nat)

  datatype Result<T> = Ok(value: T) | Err(failure: Failure)

  // ---------------------------------------------------------------------------
  // Collaborators

  /** The eight unit strings of the program's Constants class; their values
      are not part of this model. */
  datatype UnitConstants = UnitConstants(
    distanceMetric: string,
    distanceImperial: string,
    pressureMetric: string,
    pressureImperial: string,
    speedMetric: string,
    speedImperial: string,
    temperatureMetric: string,
    temperatureImperial: string)

  /** What the formatter takes from its surroundings: the unit strings;
      SimpleDateFormat in the default locale and time zone, as a function of
      (epoch milliseconds, pattern); and the decimal text Java writes when an
      int is concatenated to a string (DecimalText.IntToString is that
      conversion, and the lemmas that need it require only IsIntText). */
  datatype Platform = Platform(
    constants: UnitConstants,
    formatDate: (int, string) -> string,
    intText: int -> string)

  // ---------------------------------------------------------------------------
  // Unit selection

  /** The unit tokens and the day-label pattern in force for one call. */
  datatype Units = Units(
    distance: string,
    pressure: string,
    speed: string,
    temperature: string,
    datePattern: string)

  function MetricUnits(c: UnitConstants): Units {
    Units(c.distanceMetric, c.pressureMetric, c.speedMetric, c.temperatureMetric, "d MMM")
  }

  function ImperialUnits(c: UnitConstants): Units {
    Units(c.distanceImperial, c.pressureImperial, c.speedImperial, c.temperatureImperial, "MMM d")
  }

  /** Each token is chosen by its own test of the flag, as in the program;
      the selection is nevertheless all metric or all imperial. */
  function SelectUnits(c: UnitConstants, metric: bool): (u: Units)
    ensures u == if metric then MetricUnits(c) else ImperialUnits(c)
  {
    Units(
      if metric then c.distanceMetric else c.distanceImperial,
      if metric then c.pressureMetric else c.pressureImperial,
      if metric then c.speedMetric else c.speedImperial,
      if metric then c.temperatureMetric else c.temperatureImperial,
      if metric then "d MMM" else "MMM d")
  }

  // ---------------------------------------------------------------------------
  // Wind direction

  /** The program's lookup table: the eight compass points, then "N" again
      for bearings just short of a full turn. */
  const Directions: seq<string> := ["N", "NE", "E", "SE", "S", "SW", "W", "NW", "N"]

  /** The eight compass labels, clockwise from north. */
  const CompassLabels: seq<string> := Directions[..8]

  /** `(int) Math.round((bearing % 360) / 45)`. */
  function DirectionIndex(bearing: real): (i: int)
    ensures -8 <= i <= 8
    ensures i == MathRound(DoubleRem360(bearing) / 45.0)
  {
    RoundedSectorBounds(DoubleRem360(bearing));
    Wrap32(MathRound(DoubleRem360(bearing) / 45.0))
  }

  /** A remainder strictly inside (-360, 360) rounds to at most 8 sectors
      either way, so the `(int)` cast of the rounded long loses nothing. */
  lemma RoundedSectorBounds(r: real)
    requires -360.0 < r < 360.0
    ensures -8 <= MathRound(r / 45.0) <= 8
  {
    assert -8.0 < r / 45.0 < 8.0;
  }

  /** `directions[index]`, failing as Java does when the index is outside the
      table. */
  function WindDirection(bearing: real): (r: Result<string>)
    ensures r.Ok? ==> r.value in CompassLabels
    ensures r.Err? ==> r.failure == DirectionIndexOutOfBounds(DirectionIndex(bearing))
  {
    var i := DirectionIndex(bearing);
    if 0 <= i < |Directions| then
      assert Directions[i] == CompassLabels[i % 8];
      Ok(Directions[i])
    else Err(DirectionIndexOutOfBounds(i))
  }

  /** The index lies in -8..8; it is non-negative exactly when the remainder
      of the bearing is at least -22.5 degrees. */
  lemma DirectionIndexRange(bearing: real)
    ensures -8 <= DirectionIndex(bearing) <= 8
    ensures 0 <= DirectionIndex(bearing) <==> -22.5 <= DoubleRem360(bearing)
  {
    var x := DoubleRem360(bearing) / 45.0;
    var n := MathRound(x);
    assert -8.0 < x < 8.0;
    assert -8 <= n <= 8;
    assert 0 <= n <==> -0.5 <= x;
  }

  /** The lookup fails exactly for remainders below -22.5 degrees, so never
      for a non-negative bearing; a negative bearing whose remainder lies in
      [-22.5, 0) still reads "N". */
  lemma WindDirectionDefined(bearing: real)
    ensures WindDirection(bearing).Ok? <==> -22.5 <= DoubleRem360(bearing)
    ensures 0.0 <= bearing ==> WindDirection(bearing).Ok?
  {
    DirectionIndexRange(bearing);
  }

  /** Compass point k owns the 45-degree sector centred on 45k degrees,
      closed below and open above; north also owns [337.5, 360). */
  predicate InSector(r: real, k: int) {
    (45.0 * k as real - 22.5 <= r < 45.0 * k as real + 22.5) || (k == 0 && 337.5 <= r)
  }

  /** The label read from the table is compass point k exactly when the
      bearing's remainder falls in sector k: half-up rounding gives each
      boundary to the sector clockwise of it. */
  lemma WindDirectionSector(bearing: real, k: int)
    requires 0 <= k < 8
    ensures WindDirection(bearing) == Ok(CompassLabels[k]) <==> InSector(DoubleRem360(bearing), k)
  {
    DirectionIndexRange(bearing);
    var r := DoubleRem360(bearing);
    var i := DirectionIndex(bearing);
    assert i as real - 0.5 <= r / 45.0 < i as real + 0.5;
    assert 45.0 * i as real - 22.5 <= r < 45.0 * i as real + 22.5;
    if WindDirection(bearing) == Ok(CompassLabels[k]) {
      assert 0 <= i <= 8 && Directions[i] == CompassLabels[k];
      assert i == k || (i == 8 && k == 0);
    }
    if InSector(r, k) {
      assert i == k || (i == 8 && k == 0);
    }
  }

  /** A non-negative bearing and the same bearing a full turn later read the
      same label. */
  lemma WindDirectionPeriodic(bearing: real)
    requires 0.0 <= bearing
    ensures WindDirection(bearing + 360.0) == WindDirection(bearing)
  {
    DoubleRem360Periodic(bearing);
  }

  /** Points on the compass and on the boundaries between sectors. */
  lemma WindDirectionExamples()
    ensures WindDirection(0.0) == Ok("N") && WindDirection(360.0) == Ok("N")
    ensures WindDirection(22.5) == Ok("NE")
    ensures WindDirection(100.0) == Ok("E")
    ensures WindDirection(337.5) == Ok("N")
    ensures WindDirection(-10.0) == Ok("N")
    ensures WindDirection(-30.0) == Err(DirectionIndexOutOfBounds(-1))
    ensures DirectionIndex(0.0) == 0 && DirectionIndex(360.0) == 0
    ensures DirectionIndex(22.5) == 1 && DirectionIndex(100.0) == 2 && DirectionIndex(337.5) == 8
  {
    assert DirectionIndex(360.0) == 0;
    assert DirectionIndex(22.5) == 1;
    assert DirectionIndex(100.0) == 2;
    assert DirectionIndex(337.5) == 8;
    assert DirectionIndex(-10.0) == 0;
    assert DirectionIndex(-30.0) == -1;
  }

  // ---------------------------------------------------------------------------
  // Day average temperature

  /** `(min.intValue() + max.intValue()) / 2` in Java int arithmetic: each
      bound truncated first, the sum wrapping at 32 bits, the halving
      truncated toward zero. */
  function DayAverage(min: real, max: real): (a: int)
    ensures InIntRange(a)
    ensures IntMin <= 2 * a <= IntMax
  {
    IntDiv(Wrap32(DoubleToInt(min) + DoubleToInt(max)), 2)
  }

  /** Without overflow the average is the truncated half of the truncated
      bounds and lies between them. */
  lemma DayAverageBetween(min: real, max: real)
    requires InIntRange(Trunc(min)) && InIntRange(Trunc(max))
    requires InIntRange(Trunc(min) + Trunc(max))
    ensures DayAverage(min, max) == IntDiv(Trunc(min) + Trunc(max), 2)
    ensures Trunc(min) <= Trunc(max) ==> Trunc(min) <= DayAverage(min, max) <= Trunc(max)
    ensures Trunc(max) <= Trunc(min) ==> Trunc(max) <= DayAverage(min, max) <= Trunc(min)
  {
  }

  /** Truncating before averaging differs from averaging before truncating,
      and the halving of a negative sum goes toward zero. */
  lemma DayAverageExamples()
    ensures DayAverage(2.9, 3.9) == 2 && Trunc((2.9 + 3.9) / 2.0) == 3
    ensures DayAverage(-3.5, -4.2) == -3
    ensures DayAverage(10.9, 20.1) == 15
  {
    assert Trunc(2.9) == 2 && Trunc(3.9) == 3 && Trunc(3.4) == 3;
    assert Trunc(-3.5) == -3 && Trunc(-4.2) == -4;
    assert Trunc(10.9) == 10 && Trunc(20.1) == 20;
  }

  /** Bounds whose sum leaves the int range wrap around before halving. */
  lemma DayAverageOverflow()
    ensures DayAverage(3.0e9, 3.0e9) == -1
  {
    assert DoubleToInt(3.0e9) == IntMax;
    assert Wrap32(IntMax + IntMax) == -2;
  }


  // ---------------------------------------------------------------------------
  // Display strings

  /** U+00BA, the character the program writes after every temperature. */
  const Degree: string := "\U{00BA}"

  /** An int concatenated with the text that follows it. */
  function Reading(intText: int -> string, n: int, suffix: string): string {
    intText(n) + suffix
  }

  /** Recovers the number from a reading that ends with the given suffix. */
  function ParseReading(s: string, suffix: string): (r: Option<int>)
    ensures r.Some? ==> |suffix| < |s| && EndsWith(s, suffix)
  {
    if EndsWith(s, suffix) then ParseInt(s[..|s| - |suffix|]) else None
  }

  predicate EndsWith(s: string, suffix: string) {
    |suffix| <= |s| && s[|s| - |suffix|..] == suffix
  }

  /** The number a reading shows is the number it was built from. */
  lemma ReadingRoundTrip(intText: int -> string, n: int, suffix: string)
    ensures IsIntText(intText) ==> ParseReading(Reading(intText, n, suffix), suffix) == Some(n)
  {
    var s := Reading(intText, n, suffix);
    assert s[..|s| - |suffix|] == intText(n);
    assert EndsWith(s, suffix);
  }

  /** One entry of the forecast list, from one day of the response. */
  function DayEntry(f: DayForecast, getIcon: string -> int, units: Units, platform: Platform)
    : (e: ForecastDayWeather)
    ensures EndsWith(e.temperature, Degree + units.temperature)
  {
    var t := Reading(platform.intText, DayAverage(f.temperatureMin, f.temperatureMax), Degree + units.temperature);
    assert t[|t| - |Degree + units.temperature|..] == Degree + units.temperature;
    ForecastDayWeather(
      getIcon(f.icon),
      Reading(platform.intText, DayAverage(f.temperatureMin, f.temperatureMax), Degree + units.temperature),
      platform.formatDate(f.time * 1000, units.datePattern))
  }

  /** The forecast entries of a list of days, one per day, in order. */
  function DayEntries(days: seq<DayForecast>, getIcon: string -> int, units: Units, platform: Platform)
    : (r: seq<ForecastDayWeather>)
    ensures |r| == |days|
  {
    seq(|days|, i requires 0 <= i < |days| => DayEntry(days[i], getIcon, units, platform))
  }

  /** The wind line: speed and its unit, the compass label, and the apparent
      temperature. */
  function WindInfo(speed: real, direction: string, apparent: real, units: Units, intText: int -> string)
    : (w: string)
    ensures EndsWith(w, Degree + units.temperature)
  {
    var lead := intText(DoubleToInt(speed)) + units.speed + " " + direction + " | ";
    var tail := Reading(intText, DoubleToInt(apparent), Degree + units.temperature);
    assert (lead + tail)[|lead + tail| - |Degree + units.temperature|..] == Degree + units.temperature;
    lead + tail
  }

  /** The record as the program's builder assembles it, concatenating left
      to right, is the formatted record. */
  lemma AssembledWeather(c: Currently, direction: string, days: seq<DayForecast>, forecast: seq<ForecastDayWeather>,
                         getIcon: string -> int, units: Units, platform: Platform)
    requires forecast == DayEntries(days, getIcon, units, platform)
    ensures var intText := platform.intText;
      Weather(
        getIcon(c.icon),
        c.summary,
        intText(DoubleToInt(c.temperature)) + Degree + units.temperature,
        platform.formatDate(c.time * 1000, "h:mm"),
        intText(DoubleToInt(c.windSpeed)) + units.speed + " " + direction + " | "
          + intText(DoubleToInt(c.apparentTemperature)) + Degree + units.temperature,
        intText(DoubleToInt(c.humidity * 100.0)) + "%",
        intText(DoubleToInt(c.pressure)) + units.pressure,
        intText(DoubleToInt(c.visibility)) + units.distance,
        forecast)
      == FormatWeather(c, direction, days, getIcon, units, platform)
  {
    var intText := platform.intText;
    var lead := intText(DoubleToInt(c.windSpeed)) + units.speed + " " + direction + " | ";
    var apparent := intText(DoubleToInt(c.apparentTemperature));
    assert lead + apparent + Degree + units.temperature == lead + (apparent + (Degree + units.temperature));
    assert intText(DoubleToInt(c.temperature)) + Degree + units.temperature
      == Reading(intText, DoubleToInt(c.temperature), Degree + units.temperature);
  }

  /** The Weather record built from the current conditions, the compass
      label and the days that are read. */
  function FormatWeather(c: Currently, direction: string, days: seq<DayForecast>, getIcon: string -> int, units: Units,
                         platform: Platform): (w: Weather)
    ensures |w.forecast| == |days|
  {
    var intText := platform.intText;
    Weather(
      getIcon(c.icon),
      c.summary,
      Reading(intText, DoubleToInt(c.temperature), Degree + units.temperature),
      platform.formatDate(c.time * 1000, "h:mm"),
      WindInfo(c.windSpeed, direction, c.apparentTemperature, units, intText),
      Reading(intText, DoubleToInt(c.humidity * 100.0), "%"),
      Reading(intText, DoubleToInt(c.pressure), units.pressure),
      Reading(intText, DoubleToInt(c.visibility), units.distance),
      DayEntries(days, getIcon, units, platform))
  }

  // ---------------------------------------------------------------------------
  // getCurrentWeather

  /** What getCurrentWeather returns or throws: the direction lookup first,
      then the four forecast days, then the current conditions. */
  function CurrentWeather(response: ForecastResponse, getIcon: string -> int, metric: bool, platform: Platform)
    : (r: Result<Weather>)
    ensures r.Ok? ==> |r.value.forecast| == 4
  {
    var units := SelectUnits(platform.constants, metric);
    var c := response.currently;
    var days := response.forecast.data;
    match WindDirection(c.windBearing)
    case Err(e) => Err(e)
    case Ok(direction) =>
      if |days| < 4 then Err(ForecastDayMissing(|days|))
      else Ok(FormatWeather(c, direction, days[..4], getIcon, units, platform))
  }

  /** The program's algorithm: units, direction, then a loop appending one
      entry per day for days 0 to 3, then the current conditions. */
  method GetCurrentWeather(response: ForecastResponse, getIcon: string -> int, metric: bool, platform: Platform)
    returns (r: Result<Weather>)
    ensures r == CurrentWeather(response, getIcon, metric, platform)
  {
    var units := SelectUnits(platform.constants, metric);
    var c := response.currently;
    var days := response.forecast.data;
    var intText := platform.intText;

    var index := DirectionIndex(c.windBearing);
    if !(0 <= index < |Directions|) {
      return Err(DirectionIndexOutOfBounds(index));
    }
    var direction := Directions[index];

    var forecast: seq<ForecastDayWeather> := [];
    var i := 0;
    while i < 4
      invariant 0 <= i <= 4 && i <= |days|
      invariant |forecast| == i
      invariant forall k :: 0 <= k < i ==> forecast[k] == DayEntry(days[k], getIcon, units, platform)
    {
      if i >= |days| {
        return Err(ForecastDayMissing(i));
      }
      var f := days[i];
      var date := platform.formatDate(f.time * 1000, units.datePattern);
      var intTemp := DayAverage(f.temperatureMin, f.temperatureMax);
      var temp := intText(intTemp) + Degree + units.temperature;
      var iconId := getIcon(f.icon);
      forecast := forecast + [ForecastDayWeather(iconId, temp, date)];
      i := i + 1;
    }
    assert forecast == DayEntries(days[..4], getIcon, units, platform);

    AssembledWeather(c, direction, days[..4], forecast, getIcon, units, platform);
    r := Ok(Weather(
      getIcon(c.icon),
      c.summary,
      intText(DoubleToInt(c.temperature)) + Degree + units.temperature,
      platform.formatDate(c.time * 1000, "h:mm"),
      intText(DoubleToInt(c.windSpeed)) + units.speed + " " + direction + " | "
        + intText(DoubleToInt(c.apparentTemperature)) + Degree + units.temperature,
      intText(DoubleToInt(c.humidity * 100.0)) + "%",
      intText(DoubleToInt(c.pressure)) + units.pressure,
      intText(DoubleToInt(c.visibility)) + units.distance,
      forecast));
  }

  // ---------------------------------------------------------------------------
  // Properties of getCurrentWeather

  /** The call fails on the direction lookup exactly when the bearing's
      remainder is below -22.5 degrees, and otherwise fails exactly when the
      response holds fewer than four days, naming the first missing index. */
  lemma CurrentWeatherOutcome(response: ForecastResponse, getIcon: string -> int, metric: bool, platform: Platform)
    ensures var r := CurrentWeather(response, getIcon, metric, platform);
      var b := response.currently.windBearing;
      var n := |response.forecast.data|;
      && (r.Ok? <==> -22.5 <= DoubleRem360(b) && 4 <= n)
      && (r == Err(DirectionIndexOutOfBounds(DirectionIndex(b))) <==> DoubleRem360(b) < -22.5)
      && (r == Err(ForecastDayMissing(n)) <==> -22.5 <= DoubleRem360(b) && n < 4)
  {
    WindDirectionDefined(response.currently.windBearing);
  }

  /** The label of a response whose direction lookup succeeds. */
  function CurrentDirection(response: ForecastResponse): string {
    match WindDirection(response.currently.windBearing)
    case Ok(d) => d
    case Err(_) => ""
  }

  /** A successful call formats the current conditions with the label read
      from the table and the first four days. */
  lemma CurrentWeatherOk(response: ForecastResponse, getIcon: string -> int, metric: bool, platform: Platform)
    requires CurrentWeather(response, getIcon, metric, platform).Ok?
    ensures WindDirection(response.currently.windBearing) == Ok(CurrentDirection(response))
    ensures 4 <= |response.forecast.data|
    ensures CurrentWeather(response, getIcon, metric, platform).value
      == FormatWeather(response.currently, CurrentDirection(response), response.forecast.data[..4], getIcon,
                       SelectUnits(platform.constants, metric), platform)
  {
  }

  /** Entry i of the forecast comes from day i of the response alone: its
      icon, its average temperature and its date in the selected pattern. */
  lemma ForecastEntries(response: ForecastResponse, getIcon: string -> int, metric: bool, platform: Platform, i: int)
    requires IsIntText(platform.intText)
    requires CurrentWeather(response, getIcon, metric, platform).Ok?
    requires 0 <= i < 4
    ensures var w := CurrentWeather(response, getIcon, metric, platform).value;
      var f := response.forecast.data[i];
      var units := SelectUnits(platform.constants, metric);
      && w.forecast[i].iconId == getIcon(f.icon)
      && ParseReading(w.forecast[i].temperature, Degree + units.temperature)
         == Some(DayAverage(f.temperatureMin, f.temperatureMax))
      && w.forecast[i].date == platform.formatDate(f.time * 1000, units.datePattern)
  {
    CurrentWeatherOk(response, getIcon, metric, platform);
    var f := response.forecast.data[i];
    ReadingRoundTrip(platform.intText, DayAverage(f.temperatureMin, f.temperatureMax),
      Degree + SelectUnits(platform.constants, metric).temperature);
  }

  /** Days after the fourth are never read: two responses that agree on the
      current conditions and on their first four days give the same result. */
  lemma OnlyFirstFourDays(r1: ForecastResponse, r2: ForecastResponse, getIcon: string -> int, metric: bool,
                          platform: Platform)
    requires r1.currently == r2.currently
    requires 4 <= |r1.forecast.data| && 4 <= |r2.forecast.data|
    requires r1.forecast.data[..4] == r2.forecast.data[..4]
    ensures CurrentWeather(r1, getIcon, metric, platform) == CurrentWeather(r2, getIcon, metric, platform)
  {
  }

  /** The current-conditions strings show the truncated readings: the
      number each one parses back to is the reading's int value. */
  lemma FormatReadings(c: Currently, direction: string, days: seq<DayForecast>, getIcon: string -> int, units: Units,
                       platform: Platform)
    requires IsIntText(platform.intText)
    ensures var w := FormatWeather(c, direction, days, getIcon, units, platform);
      && ParseReading(w.temperature, Degree + units.temperature) == Some(DoubleToInt(c.temperature))
      && ParseReading(w.humidityInfo, "%") == Some(DoubleToInt(c.humidity * 100.0))
      && ParseReading(w.pressureInfo, units.pressure) == Some(DoubleToInt(c.pressure))
      && ParseReading(w.visibilityInfo, units.distance) == Some(DoubleToInt(c.visibility))
  {
    var intText := platform.intText;
    var w := FormatWeather(c, direction, days, getIcon, units, platform);
    var temperature, humidity := DoubleToInt(c.temperature), DoubleToInt(c.humidity * 100.0);
    var pressure, visibility := DoubleToInt(c.pressure), DoubleToInt(c.visibility);
    assert w.temperature == Reading(intText, temperature, Degree + units.temperature);
    assert w.humidityInfo == Reading(intText, humidity, "%");
    assert w.pressureInfo == Reading(intText, pressure, units.pressure);
    assert w.visibilityInfo == Reading(intText, visibility, units.distance);
    ReadingRoundTrip(intText, temperature, Degree + units.temperature);
    ReadingRoundTrip(intText, humidity, "%");
    ReadingRoundTrip(intText, pressure, units.pressure);
    ReadingRoundTrip(intText, visibility, units.distance);
  }

  /** What a successful call shows of the current conditions: the icon of
      their condition code, their summary, their time, and their truncated
      readings with the selected units. */
  lemma CurrentReadings(response: ForecastResponse, getIcon: string -> int, metric: bool, platform: Platform)
    requires IsIntText(platform.intText)
    requires CurrentWeather(response, getIcon, metric, platform).Ok?
    ensures var w := CurrentWeather(response, getIcon, metric, platform).value;
      var c := response.currently;
      var units := SelectUnits(platform.constants, metric);
      && w.iconId == getIcon(c.icon)
      && w.summary == c.summary
      && w.lastUpdated == platform.formatDate(c.time * 1000, "h:mm")
      && ParseReading(w.temperature, Degree + units.temperature) == Some(DoubleToInt(c.temperature))
      && ParseReading(w.humidityInfo, "%") == Some(DoubleToInt(c.humidity * 100.0))
      && ParseReading(w.pressureInfo, units.pressure) == Some(DoubleToInt(c.pressure))
      && ParseReading(w.visibilityInfo, units.distance) == Some(DoubleToInt(c.visibility))
  {
    CurrentWeatherOk(response, getIcon, metric, platform);
    var units := SelectUnits(platform.constants, metric);
    var w := CurrentWeather(response, getIcon, metric, platform).value;
    assert w == FormatWeather(response.currently, CurrentDirection(response), response.forecast.data[..4], getIcon,
                              units, platform);
    FormatReadings(response.currently, CurrentDirection(response), response.forecast.data[..4], getIcon,
                   units, platform);
  }

  /** Every formatted string carries the token of the selected unit system:
      the metric constants when `metric` holds, the imperial ones otherwise;
      the wind line has the speed token right after the speed. */
  lemma UnitTokenPresence(response: ForecastResponse, getIcon: string -> int, metric: bool, platform: Platform)
    requires CurrentWeather(response, getIcon, metric, platform).Ok?
    ensures var w := CurrentWeather(response, getIcon, metric, platform).value;
      var k := platform.constants;
      var temperature := if metric then k.temperatureMetric else k.temperatureImperial;
      var speed := platform.intText(DoubleToInt(response.currently.windSpeed))
        + if metric then k.speedMetric else k.speedImperial;
      && EndsWith(w.temperature, Degree + temperature)
      && EndsWith(w.windInfo, Degree + temperature)
      && EndsWith(w.pressureInfo, if metric then k.pressureMetric else k.pressureImperial)
      && EndsWith(w.visibilityInfo, if metric then k.distanceMetric else k.distanceImperial)
      && (forall i :: 0 <= i < |w.forecast| ==> EndsWith(w.forecast[i].temperature, Degree + temperature))
      && |speed| <= |w.windInfo| && w.windInfo[..|speed|] == speed
  {
    CurrentWeatherOk(response, getIcon, metric, platform);
    var units := SelectUnits(platform.constants, metric);
    var c := response.currently;
    var w := CurrentWeather(response, getIcon, metric, platform).value;
    var speed := platform.intText(DoubleToInt(c.windSpeed)) + units.speed;
    assert w.windInfo == speed + (" " + CurrentDirection(response) + " | "
      + Reading(platform.intText, DoubleToInt(c.apparentTemperature), Degree + units.temperature));
  }

  /** For a non-negative bearing the wind line names the compass point whose
      sector holds the bearing. */
  lemma WindInfoNamesSector(response: ForecastResponse, getIcon: string -> int, metric: bool, platform: Platform, k: int)
    requires 4 <= |response.forecast.data|
    requires 0 <= k < 8 && InSector(DoubleRem360(response.currently.windBearing), k)
    ensures CurrentWeather(response, getIcon, metric, platform).Ok?
    ensures CurrentWeather(response, getIcon, metric, platform).value.windInfo
      == WindInfo(response.currently.windSpeed, CompassLabels[k], response.currently.apparentTemperature,
                  SelectUnits(platform.constants, metric), platform.intText)
  {
    WindDirectionSector(response.currently.windBearing, k);
  }

  /** The truncated readings of the example below; a humidity of 0.559
      shows as 55, not 56. */
  lemma ExampleReadings()
    ensures DoubleToInt(21.6) == 21 && DoubleToInt(12.4) == 12 && DoubleToInt(19.9) == 19
    ensures DoubleToInt(0.55 * 100.0) == 55
    ensures DoubleToInt(1013.2) == 1013 && DoubleToInt(9.8) == 9
    ensures DoubleToInt(0.559 * 100.0) == 55
  {
    assert Trunc(21.6) == 21 && Trunc(12.4) == 12 && Trunc(19.9) == 19;
    assert Trunc(55.0) == 55 && Trunc(1013.2) == 1013 && Trunc(9.8) == 9;
    assert Trunc(55.9) == 55;
  }

  /** The response of the example below: a 100-degree wind and six
      identical days. */
  const ExampleDay := DayForecast(1700086400, "clear-day", 10.9, 20.1)
  const ExampleCurrently := Currently(1700000000, "partly-cloudy-day", "Partly Cloudy",
    21.6, 19.9, 12.4, 100.0, 0.55, 1013.2, 9.8)
  const ExampleResponse := ForecastResponse(ExampleCurrently,
    Forecast([ExampleDay, ExampleDay, ExampleDay, ExampleDay, ExampleDay, ExampleDay]))

  /** The example succeeds, reads "E" and formats its first four days. */
  lemma ExampleOutcome(getIcon: string -> int, platform: Platform)
    ensures CurrentWeather(ExampleResponse, getIcon, true, platform)
      == Ok(FormatWeather(ExampleCurrently, "E", ExampleResponse.forecast.data[..4], getIcon,
                          MetricUnits(platform.constants), platform))
  {
    WindDirectionExamples();
  }

  /** The metric example: the readings are truncated, the wind reads "E",
      and each day shows the truncated average of 10.9 and 20.1. */
  lemma EndToEndExample(getIcon: string -> int, platform: Platform)
    ensures var k := platform.constants;
      var t := platform.intText;
      var r := CurrentWeather(ExampleResponse, getIcon, true, platform);
      var e := ForecastDayWeather(getIcon("clear-day"), t(15) + Degree + k.temperatureMetric,
        platform.formatDate(1700086400000, "d MMM"));
      && r.Ok?
      && r.value.iconId == getIcon("partly-cloudy-day")
      && r.value.summary == "Partly Cloudy"
      && r.value.lastUpdated == platform.formatDate(1700000000000, "h:mm")
      && r.value.temperature == t(21) + Degree + k.temperatureMetric
      && r.value.windInfo == t(12) + k.speedMetric + " E | " + t(19) + Degree + k.temperatureMetric
      && r.value.humidityInfo == t(55) + "%"
      && r.value.pressureInfo == t(1013) + k.pressureMetric
      && r.value.visibilityInfo == t(9) + k.distanceMetric
      && r.value.forecast == [e, e, e, e]
  {
    ExampleOutcome(getIcon, platform);
    ExampleReadings();
    DayAverageExamples();
    var w := CurrentWeather(ExampleResponse, getIcon, true, platform).value;
    forall i | 0 <= i < 4
      ensures w.forecast[i] == DayEntry(ExampleDay, getIcon, MetricUnits(platform.constants), platform)
    {
      assert ExampleResponse.forecast.data[..4][i] == ExampleDay;
    }
    var e := DayEntry(ExampleDay, getIcon, MetricUnits(platform.constants), platform);
    assert w.forecast == [e, e, e, e];
    var k := platform.constants;
    assert e.temperature == platform.intText(15) + Degree + k.temperatureMetric;
  }

  /** The texts Integer.toString gives for the numbers of the example. */
  lemma IntToStringExamples()
    ensures IntToString(21) == "21" && IntToString(12) == "12" && IntToString(19) == "19"
    ensures IntToString(55) == "55" && IntToString(1013) == "1013" && IntToString(9) == "9"
    ensures IntToString(15) == "15" && IntToString(-3) == "-3"
  {
    assert IntToString(1013) == "1013";
  }
}
