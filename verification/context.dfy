/**
 * The context snapshot of chatbot.py: the day-part bucketing and sentence of
 * `get_realtime_context`, and the five-minute weather cache of `get_weather`
 * as a function from the cache's old state to its new one (the cache fields
 * themselves live in Chat.Chatbot).
 */
module Context {
  import opened Wrappers
  import opened Text

  datatype DayPart = Morning | Afternoon | Evening | Night
  {
    function Name(): string
    {
      match this
      case Morning => "morning"
      case Afternoon => "afternoon"
      case Evening => "evening"
      case Night => "night"
    }
  }

  /** The `if/elif` chain on the hour. */
  function DayPartOf(hour: int): DayPart
  {
    if 5 <= hour < 12 then Morning
    else if 12 <= hour < 18 then Afternoon
    else if 18 <= hour < 22 then Evening
    else Night
  }

  /** Each bucket is a closed-open interval of hours; night is everything else. */
  lemma DayPartBuckets(hour: int)
    ensures DayPartOf(hour) == Morning <==> 5 <= hour < 12
    ensures DayPartOf(hour) == Afternoon <==> 12 <= hour < 18
    ensures DayPartOf(hour) == Evening <==> 18 <= hour < 22
    ensures DayPartOf(hour) == Night <==> hour < 5 || 22 <= hour
  {
  }

  lemma DayPartBoundaries()
    ensures DayPartOf(4) == Night && DayPartOf(5) == Morning && DayPartOf(11) == Morning
    ensures DayPartOf(12) == Afternoon && DayPartOf(17) == Afternoon
    ensures DayPartOf(18) == Evening && DayPartOf(21) == Evening && DayPartOf(22) == Night
  {
  }

  // ---------------------------------------------------------------------
  // The weather cache
  // ---------------------------------------------------------------------

  const CACHE_SECONDS: real := 300.0
  const WEATHER_UNAVAILABLE := "weather unavailable"

  /** `(_last_weather, _last_time)`; the weather is None until the first fetch. */
  datatype WeatherCache = WeatherCache(value: Option<string>, stamp: real)

  /** `_last_weather, _last_time = None, 0`. */
  const INITIAL_CACHE := WeatherCache(None, 0.0)

  /** The cache refetches only when strictly more than 300 seconds have passed. */
  predicate Stale(cache: WeatherCache, now: real)
  {
    now - cache.stamp > CACHE_SECONDS
  }

  /**
   * What a refetch stores: the stripped response text, or the sentinel when
   * the request raised (`response` is None).
   */
  function Fetched(response: Option<string>): string
  {
    match response
    case Some(text) => Strip(text)
    case None => WEATHER_UNAVAILABLE
  }

  /**
   * One call of `get_weather`: `now` is the clock read for the staleness test,
   * `response` the outcome of the request, `finishedAt` the clock read after it.
   */
  function RefreshWeather(cache: WeatherCache, now: real, response: Option<string>, finishedAt: real): WeatherCache
  {
    if Stale(cache, now) then WeatherCache(Some(Fetched(response)), finishedAt) else cache
  }

  /**
   * A fresh cache is returned as it is, whatever the request would have
   * answered; a stale one is replaced by the fetched text or the sentinel,
   * stamped with the clock after the request, in both cases.
   */
  lemma RefreshWeatherSpec(cache: WeatherCache, now: real, response: Option<string>, finishedAt: real)
    ensures !Stale(cache, now) ==> RefreshWeather(cache, now, response, finishedAt) == cache
    ensures Stale(cache, now) && response.None? ==>
      RefreshWeather(cache, now, response, finishedAt) == WeatherCache(Some(WEATHER_UNAVAILABLE), finishedAt)
    ensures Stale(cache, now) && response.Some? ==>
      RefreshWeather(cache, now, response, finishedAt) == WeatherCache(Some(Strip(response.value)), finishedAt)
    ensures RefreshWeather(cache, now, response, finishedAt).value.Some? <==> Stale(cache, now) || cache.value.Some?
  {
  }

  /**
   * After a refetch, successful or not, every call made no more than 300
   * seconds after the refetch ended returns the same text and leaves the
   * cache alone: a failed fetch also cools down for the full window.
   */
  lemma RefetchHoldsForWindow(cache: WeatherCache, now: real, response: Option<string>, finishedAt: real,
                              later: real, laterResponse: Option<string>, laterFinishedAt: real)
    requires Stale(cache, now)
    requires later - finishedAt <= CACHE_SECONDS
    ensures var first := RefreshWeather(cache, now, response, finishedAt);
      && first.value == Some(Fetched(response))
      && RefreshWeather(first, later, laterResponse, laterFinishedAt) == first
  {
  }

  /**
   * The window runs from the last refetch, not from the previous call: two
   * calls one second apart can return different texts. It also shows that a
   * gap of exactly 300 seconds still counts as fresh.
   */
  lemma WindowStartsAtRefetch()
    ensures var cache := WeatherCache(Some("sunny"), 0.0);
      var first := RefreshWeather(cache, 300.0, Some("rain"), 300.0);
      var second := RefreshWeather(first, 301.0, Some("rain"), 301.0);
      && first.value == Some("sunny")
      && second.value == Some(Strip("rain"))
      && second.value != first.value
  {
    var cache := WeatherCache(Some("sunny"), 0.0);
    assert !Stale(cache, 300.0);
    assert Stale(cache, 301.0);
    assert Strip("rain") == "rain" by {
      assert !IsSpace('r') && !IsSpace('n');
      assert TrimStart("rain") == "rain";
      assert TrimEnd("rain") == "rain";
    }
  }

  // ---------------------------------------------------------------------
  // The context sentence
  // ---------------------------------------------------------------------

  /**
   * The environment read during one call: the rendered date and time, the
   * hour, the rendered CPU load, the rendered battery percentage (None when
   * the sensor read raised), and the clock and response of the weather fetch.
   */
  datatype Readings = Readings(
    timestamp: string,
    hour: int,
    cpu: string,
    battery: Option<string>,
    clock: real,
    weatherResponse: Option<string>,
    clockAfterFetch: real)

  /** f"{battery}" where battery falls back to "unknown". */
  function BatteryText(battery: Option<string>): string
  {
    match battery
    case Some(percent) => percent
    case None => "unknown"
  }

  /** f"{weather}": a weather value never fetched renders as Python's "None". */
  function WeatherText(weather: Option<string>): string
  {
    match weather
    case Some(text) => text
    case None => "None"
  }

  /** The sentence `get_realtime_context` returns. */
  function ContextSentence(timestamp: string, part: DayPart, cpu: string, battery: string, weather: string): string
  {
    ("It\U{2019}s " + timestamp) + (" (" + part.Name() + "). ")
    + ("CPU " + cpu + "%, Battery " + battery + "%, ") + ("Weather: " + weather + ".")
  }

  /** The sentence names the day part. */
  lemma ContextNamesDayPart(timestamp: string, part: DayPart, cpu: string, battery: string, weather: string)
    ensures Contains(ContextSentence(timestamp, part, cpu, battery, weather), " (" + part.Name() + "). ")
  {
    var a := "It\U{2019}s " + timestamp;
    var t := " (" + part.Name() + "). ";
    var b := "CPU " + cpu + "%, Battery " + battery + "%, ";
    var c := "Weather: " + weather + ".";
    assert ContextSentence(timestamp, part, cpu, battery, weather) == a + t + (b + c);
    ContainsMiddle(a, t, b + c);
  }

  /** The sentence ends with the weather text. */
  lemma ContextEndsWithWeather(timestamp: string, part: DayPart, cpu: string, battery: string, weather: string)
    ensures EndsWith(ContextSentence(timestamp, part, cpu, battery, weather), "Weather: " + weather + ".")
  {
    var a := ("It\U{2019}s " + timestamp) + (" (" + part.Name() + "). ") + ("CPU " + cpu + "%, Battery " + battery + "%, ");
    var t := "Weather: " + weather + ".";
    assert ContextSentence(timestamp, part, cpu, battery, weather) == a + t;
  }
}
