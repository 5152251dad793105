/** Derived fields of a current-weather payload: `get_weather_icon_url`,
    `format_timezone` and `_enrich_weather_data`. */
module WeatherData {
  import opened Wrappers
  import opened Text
  import opened Json

  const IconUrlPrefix: string := "https://openweathermap.org/img/wn/"
  const IconUrlSuffix: string := "@2x.png"

  /** `get_weather_icon_url(icon_code)`: the code sits between the fixed
      prefix and the "@2x.png" suffix, so it can be read back. */
  function WeatherIconUrl(iconCode: string): (url: string)
    ensures |url| == |IconUrlPrefix| + |iconCode| + |IconUrlSuffix|
    ensures IconCodeOfUrl(url) == Some(iconCode)
  {
    IconUrlPrefix + iconCode + IconUrlSuffix
  }

  /** Recovers the icon code from an icon URL, if it has the icon URL shape. */
  function IconCodeOfUrl(url: string): Option<string> {
    if |url| >= |IconUrlPrefix| + |IconUrlSuffix|
       && url[..|IconUrlPrefix|] == IconUrlPrefix
       && url[|url| - |IconUrlSuffix|..] == IconUrlSuffix
    then Some(url[|IconUrlPrefix|..|url| - |IconUrlSuffix|])
    else None
  }

  lemma IconUrlRoundTrip(iconCode: string)
    ensures IconCodeOfUrl(WeatherIconUrl(iconCode)) == Some(iconCode)
  {
  }

  lemma WeatherIconUrlExample()
    ensures WeatherIconUrl("04d") == "https://openweathermap.org/img/wn/04d@2x.png"
  {
  }

  /** Python's `seconds // 3600`: floor division, so a negative offset that
      is not a whole number of hours rounds towards minus infinity. */
  function FloorHours(seconds: int): (h: int)
    ensures h * 3600 <= seconds < h * 3600 + 3600
  {
    seconds / 3600
  }

  /** `format_timezone(seconds)`: "UTC+h" for h >= 0, "UTC" followed by the
      negative number (minus sign included) otherwise. */
  function FormatTimezone(seconds: int): (s: string)
    ensures |s| > 4 && s[..3] == "UTC"
    ensures s[3] == '+' <==> seconds >= 0
    ensures s[3] == '-' <==> seconds < 0
    ensures AllDigits(s[4..]) && (|s| > 5 ==> s[4] != '0')
  {
    var h := FloorHours(seconds);
    if h >= 0 then "UTC+" + IntToString(h) else "UTC" + IntToString(h)
  }

  /** Reads the whole-hour offset back from "UTC+h" / "UTC-h". */
  function ParseUtcOffset(s: string): Option<int> {
    if |s| > 4 && s[..3] == "UTC" && s[3] == '+' then ParseInt(s[4..])
    else if |s| > 4 && s[..3] == "UTC" && s[3] == '-' then ParseInt(s[3..])
    else None
  }

  /** The formatted offset is exactly the floored number of hours. */
  lemma FormatTimezoneRoundTrip(seconds: int)
    ensures ParseUtcOffset(FormatTimezone(seconds)) == Some(FloorHours(seconds))
  {
    var h := FloorHours(seconds);
    var s := FormatTimezone(seconds);
    IntToStringRoundTrip(h);
    if h >= 0 {
      assert s[4..] == IntToString(h);
    } else {
      assert s[3..] == IntToString(h);
      assert s[3] == '-';
    }
  }

  /** Whole-hour offsets, zero, and the sub-hour offsets that the floor
      division truncates: +5:30 shows as UTC+5, -3:30 as UTC-4. */
  lemma FormatTimezoneExamples()
    ensures FormatTimezone(10800) == "UTC+3"
    ensures FormatTimezone(0) == "UTC+0"
    ensures FormatTimezone(-18000) == "UTC-5"
    ensures FormatTimezone(19800) == "UTC+5"
    ensures FormatTimezone(-12600) == "UTC-4"
  {
  }

  /** `data['weather'][0]['icon']`, when that lookup yields a string. */
  function IconCode(data: map<string, Json>): Option<string> {
    if "weather" in data && data["weather"].JArray? && |data["weather"].items| > 0
       && data["weather"].items[0].JObject? && "icon" in data["weather"].items[0].fields
       && data["weather"].items[0].fields["icon"].JString?
    then Some(data["weather"].items[0].fields["icon"].s)
    else None
  }

  /** `data['timezone']`, when it is an integer number of seconds. */
  function TimezoneOffset(data: map<string, Json>): Option<int> {
    if "timezone" in data && data["timezone"].JInt? then Some(data["timezone"].i) else None
  }

  /** What `_enrich_weather_data` does with a payload: returns None for an
      empty one, returns the enriched dictionary, or raises (KeyError,
      IndexError, TypeError) on a payload without the fields it reads. */
  datatype Enrichment = NoData | Enriched(payload: map<string, Json>) | Malformed

  /** `_enrich_weather_data(data)`. */
  function EnrichWeatherData(data: map<string, Json>): (r: Enrichment)
    ensures r.NoData? <==> |data| == 0
    ensures r.Malformed? <==> |data| > 0 && (IconCode(data).None? || TimezoneOffset(data).None?)
    ensures r.Enriched? ==>
              && r.payload.Keys == data.Keys + {"icon_url", "timezone"}
              && (forall k :: k in data && k != "icon_url" && k != "timezone" ==>
                    r.payload[k] == data[k])
              && r.payload["icon_url"].JString?
              && IconCodeOfUrl(r.payload["icon_url"].s) == IconCode(data)
              && r.payload["timezone"].JString?
              && ParseUtcOffset(r.payload["timezone"].s) == Some(FloorHours(TimezoneOffset(data).value))
              && r.payload["icon_url"] == JString(WeatherIconUrl(IconCode(data).value))
              && r.payload["timezone"] == JString(FormatTimezone(TimezoneOffset(data).value))
  {
    if |data| == 0 then NoData
    else match (IconCode(data), TimezoneOffset(data))
      case (Some(icon), Some(seconds)) =>
        IconUrlRoundTrip(icon);
        FormatTimezoneRoundTrip(seconds);
        Enriched(data["icon_url" := JString(WeatherIconUrl(icon))]
                     ["timezone" := JString(FormatTimezone(seconds))])
      case _ => Malformed
  }
}
