/**
 * The label selectors that both the forecast strip and the current-weather card
 * define: the icon chosen for a condition name and the two unit labels.  The two
 * components carry identical copies that differ only in styling, so they are
 * modelled once here; the icon is a tag, not a drawn component.
 */
module Labels {

  /** The icon components a condition can be drawn with. */
  datatype Icon = Sun | Cloud | CloudRain | CloudSnow | CloudLightning | CloudDrizzle | Droplets

  /** The two temperature units the application can display. */
  datatype TemperatureUnit = Celsius | Fahrenheit

  /** The condition names that have an icon of their own, in lower case. */
  const Keywords: seq<string> := ["clear", "clouds", "rain", "snow", "thunderstorm", "drizzle"]

  /** Lower-casing of one character: A-Z become a-z, everything else is kept. */
  function LowerChar(c: char): char
  {
    if 'A' <= c <= 'Z' then (c as int + 32) as char else c
  }

  /** Upper-casing of one character: a-z become A-Z, everything else is kept. */
  function UpperChar(c: char): char
  {
    if 'a' <= c <= 'z' then (c as int - 32) as char else c
  }

  /** `s.toLowerCase()` restricted to the letters A-Z. */
  function Lower(s: string): (r: string)
    ensures |r| == |s|
    ensures forall i :: 0 <= i < |r| ==> !('A' <= r[i] <= 'Z')
    ensures forall i :: 0 <= i < |s| ==> r[i] == s[i] || UpperChar(r[i]) == s[i]
  {
    seq(|s|, i requires 0 <= i < |s| => LowerChar(s[i]))
  }

  /** True when `k` consists of the lower-case letters a-z only. */
  predicate LowerCaseWord(k: string)
  {
    forall i :: 0 <= i < |k| ==> 'a' <= k[i] <= 'z'
  }

  /**
   * `s` spells the lower-case word `k`, each letter written in either case.
   * This is an independent description of "equal ignoring case" that does not
   * mention lower-casing.
   */
  predicate SpelledIgnoringCase(s: string, k: string)
  {
    |s| == |k| && forall i :: 0 <= i < |s| ==> s[i] == k[i] || s[i] == UpperChar(k[i])
  }

  /** Lower-casing `s` gives the word `k` exactly when `s` spells `k` in any mix of cases. */
  lemma LowerIsWord(s: string, k: string)
    requires LowerCaseWord(k)
    ensures Lower(s) == k <==> SpelledIgnoringCase(s, k)
  {
    if SpelledIgnoringCase(s, k) {
      forall i | 0 <= i < |s|
        ensures Lower(s)[i] == k[i]
      {
        assert 'a' <= k[i] <= 'z';
      }
    }
  }

  /** The icon of each keyword, in the order of `Keywords`. */
  const KeywordIcons: seq<Icon> := [Sun, Cloud, CloudRain, CloudSnow, CloudLightning, CloudDrizzle]

  /**
   * `getWeatherIcon`: the switch over `condition.toLowerCase()`.  Read as a
   * table: the lower-cased name is a keyword exactly when the icon is that
   * keyword's, and it is none of them exactly when the icon is Droplets.
   */
  function WeatherIcon(condition: string): (r: Icon)
    ensures forall j :: 0 <= j < |Keywords| ==> (Lower(condition) == Keywords[j] <==> r == KeywordIcons[j])
    ensures r == Droplets <==> Lower(condition) !in Keywords
  {
    var c := Lower(condition);
    if c == "clear" then Sun
    else if c == "clouds" then Cloud
    else if c == "rain" then CloudRain
    else if c == "snow" then CloudSnow
    else if c == "thunderstorm" then CloudLightning
    else if c == "drizzle" then CloudDrizzle
    else Droplets
  }

  /**
   * Each listed condition gets its own icon exactly when the condition spells it in
   * any mix of cases, and every other condition falls back to Droplets.
   */
  lemma IconByKeyword(condition: string)
    ensures WeatherIcon(condition) == Sun <==> SpelledIgnoringCase(condition, "clear")
    ensures WeatherIcon(condition) == Cloud <==> SpelledIgnoringCase(condition, "clouds")
    ensures WeatherIcon(condition) == CloudRain <==> SpelledIgnoringCase(condition, "rain")
    ensures WeatherIcon(condition) == CloudSnow <==> SpelledIgnoringCase(condition, "snow")
    ensures WeatherIcon(condition) == CloudLightning <==> SpelledIgnoringCase(condition, "thunderstorm")
    ensures WeatherIcon(condition) == CloudDrizzle <==> SpelledIgnoringCase(condition, "drizzle")
    ensures WeatherIcon(condition) == Droplets <==>
      forall j :: 0 <= j < |Keywords| ==> !SpelledIgnoringCase(condition, Keywords[j])
  {
    LowerIsWord(condition, "clear");
    LowerIsWord(condition, "clouds");
    LowerIsWord(condition, "rain");
    LowerIsWord(condition, "snow");
    LowerIsWord(condition, "thunderstorm");
    LowerIsWord(condition, "drizzle");
    if forall j :: 0 <= j < |Keywords| ==> !SpelledIgnoringCase(condition, Keywords[j]) {
      assert !SpelledIgnoringCase(condition, Keywords[0]);
      assert !SpelledIgnoringCase(condition, Keywords[1]);
      assert !SpelledIgnoringCase(condition, Keywords[2]);
      assert !SpelledIgnoringCase(condition, Keywords[3]);
      assert !SpelledIgnoringCase(condition, Keywords[4]);
      assert !SpelledIgnoringCase(condition, Keywords[5]);
    }
  }

  /** Two condition names that agree letter by letter up to case get the same icon. */
  lemma IconIgnoresCase(a: string, b: string)
    requires |a| == |b|
    requires forall i :: 0 <= i < |a| ==> a[i] == b[i] || UpperChar(a[i]) == b[i] || a[i] == UpperChar(b[i])
    ensures WeatherIcon(a) == WeatherIcon(b)
  {
    forall i | 0 <= i < |a|
      ensures Lower(a)[i] == Lower(b)[i]
    {
      assert LowerChar(a[i]) == LowerChar(b[i]);
    }
    assert Lower(a) == Lower(b);
  }

  /** "Rain", "rain" and "RAIN" all get the rain icon. */
  lemma RainInAnyCase()
    ensures WeatherIcon("Rain") == WeatherIcon("rain") == WeatherIcon("RAIN") == CloudRain
  {
    LowerIsWord("Rain", "rain");
    LowerIsWord("rain", "rain");
    LowerIsWord("RAIN", "rain");
    assert SpelledIgnoringCase("Rain", "rain");
    assert SpelledIgnoringCase("RAIN", "rain");
    assert Keywords[2] == "rain" && KeywordIcons[2] == CloudRain;
  }

  /** `getUnitSymbol`: degrees Celsius for the Celsius unit, degrees Fahrenheit otherwise. */
  function UnitSymbol(unit: TemperatureUnit): (r: string)
    ensures r == "°C" <==> unit == Celsius
    ensures r == "°F" <==> unit == Fahrenheit
  {
    assert "°C"[1] != "°F"[1];
    match unit
    case Celsius => "°C"
    case Fahrenheit => "°F"
  }

  /** `getSpeedUnit`: km/h for the Celsius unit, mph otherwise. */
  function SpeedUnit(unit: TemperatureUnit): (r: string)
    ensures r == "km/h" <==> unit == Celsius
    ensures r == "mph" <==> unit == Fahrenheit
  {
    match unit
    case Celsius => "km/h"
    case Fahrenheit => "mph"
  }
}
