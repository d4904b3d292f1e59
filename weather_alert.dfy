/** The weather advisory: simulated weather data arrives after a timer, and the
    advisory is shown for cold, rain or snow, with an icon and a message. */
module WeatherAlert {
  import opened Wrappers
  import opened Text

  /** The temperature is in degrees Fahrenheit; the source's data has whole degrees. */
  datatype WeatherData = WeatherData(temp: int, condition: string, alert: Option<string>)

  const MockWeather := WeatherData(45, "cloudy", Some("Cold weather - use covered parking when possible"))

  /** Cold (below 50 degrees), rain or snow. */
  predicate ShouldShowAlert(w: WeatherData) {
    w.temp < 50 || Contains(w.condition, "rain") || Contains(w.condition, "snow")
  }

  datatype Icon = SnowIcon | RainIcon | CloudIcon

  /** Snow wins over rain, and a cloud stands for everything else. */
  function WeatherIcon(condition: string): (r: Icon)
    ensures r == SnowIcon <==> Contains(condition, "snow")
    ensures r == RainIcon <==> Contains(condition, "rain") && !Contains(condition, "snow")
    ensures r == CloudIcon <==> !Contains(condition, "rain") && !Contains(condition, "snow")
  {
    if Contains(condition, "snow") then SnowIcon
    else if Contains(condition, "rain") then RainIcon
    else CloudIcon
  }

  /** A cloud icon in a shown advisory means the cold alone triggered it. */
  lemma CloudIconMeansCold(w: WeatherData)
    requires ShouldShowAlert(w) && WeatherIcon(w.condition) == CloudIcon
    ensures w.temp < 50
  {
  }

  const DegreeSign: char := '\U{B0}'

  /** The fallback text's unit as the source file spells it: the two characters
      `Â°`, which is how the UTF-8 bytes of a degree sign read when decoded as
      Latin-1. */
  const UnitAsWritten: string := ['\U{C2}', DegreeSign, 'F']

  /** The unit the text evidently means: a degree sign and `F`. */
  const Unit: string := [DegreeSign, 'F']

  /** The message as the source writes it: the alert text when it is non-empty,
      otherwise temperature, unit and condition. */
  function MessageAsWritten(w: WeatherData): string {
    if w.alert.Some? && w.alert.value != "" then w.alert.value
    else IntToString(w.temp) + UnitAsWritten + " - " + w.condition
  }

  /** The message with the unit spelled as intended. */
  function Message(w: WeatherData): (r: string)
    ensures w.alert.Some? && w.alert.value != "" ==> r == w.alert.value
  {
    if w.alert.Some? && w.alert.value != "" then w.alert.value
    else IntToString(w.temp) + Unit + " - " + w.condition
  }

  /** Without an alert text, the corrected message reads the temperature, then
      exactly a degree sign and `F`, then the condition; no stray `Â` stands
      between the number and the condition. */
  lemma MessageFallbackShape(w: WeatherData)
    requires w.alert.None? || w.alert.value == ""
    ensures var r := Message(w); var n := |IntToString(w.temp)|;
      |r| == n + 5 + |w.condition|
      && r[n] == DegreeSign && r[n + 1] == 'F'
      && r[n + 5..] == w.condition
      && forall i :: 0 <= i < n + 5 ==> r[i] != '\U{C2}'
  {
    var s := IntToString(w.temp);
    var r := Message(w);
    assert r == s + Unit + " - " + w.condition;
    forall i | 0 <= i < |s|
      ensures r[i] != '\U{C2}'
    {
      assert r[i] == s[i];
      assert s[i] == '-' || '0' <= s[i] <= '9' by {
        if w.temp < 0 {
          assert s == "-" + NatToString(-w.temp);
          if i > 0 { assert s[i] == NatToString(-w.temp)[i - 1]; }
        }
      }
    }
  }

  /** The source's fallback message shows the stray `Â`: it is one character
      longer than the intended one and differs from it right after the number. */
  lemma MessageAsWrittenShowsMojibake(w: WeatherData)
    requires w.alert.None? || w.alert.value == ""
    ensures var n := |IntToString(w.temp)|;
      |MessageAsWritten(w)| == |Message(w)| + 1
      && MessageAsWritten(w)[n] == '\U{C2}'
      && Message(w)[n] == DegreeSign
      && MessageAsWritten(w) != Message(w)
  {
    var s := IntToString(w.temp);
    assert MessageAsWritten(w) == s + UnitAsWritten + " - " + w.condition;
    assert Message(w) == s + Unit + " - " + w.condition;
  }

  /** With an alert text both spellings agree. */
  lemma MessagesAgreeWithAlert(w: WeatherData)
    requires w.alert.Some? && w.alert.value != ""
    ensures MessageAsWritten(w) == Message(w) == w.alert.value
  {
  }

  /** The advisory as rendered: its icon and its message. */
  datatype Advisory = Advisory(icon: Icon, message: string)

  class WeatherAlertWidget {
    var weather: Option<WeatherData>
    var loading: bool

    constructor ()
      ensures weather == None && loading
    {
      weather := None;
      loading := true;
    }

    /** The half-second timer set on mount delivers the simulated data. */
    method TimerFires()
      modifies this
      ensures weather == Some(MockWeather) && !loading
    {
      weather := Some(MockWeather);
      loading := false;
    }

    /** What the component renders: nothing while loading, without data or when
        the weather is unremarkable. The message is the corrected `Message`, not
        `MessageAsWritten`; the two differ only for data without alert text
        (`MessagesAgreeWithAlert`), and the mock data always carries one. */
    function View(): (r: Option<Advisory>)
      reads this
      ensures r.Some? <==> !loading && weather.Some? && ShouldShowAlert(weather.value)
      ensures r.Some? ==> r.value.icon == WeatherIcon(weather.value.condition)
                          && r.value.message == Message(weather.value)
    {
      if loading || weather.None? then None
      else if !ShouldShowAlert(weather.value) then None
      else Some(Advisory(WeatherIcon(weather.value.condition), Message(weather.value)))
    }
  }

  /** A condition without `s` mentions no snow, one without `r` no rain. */
  lemma LacksLetters(condition: string)
    ensures 's' !in condition ==> !Contains(condition, "snow")
    ensures 'r' !in condition ==> !Contains(condition, "rain")
  {
    if Contains(condition, "snow") { ContainsChar(condition, "snow", 0); }
    if Contains(condition, "rain") { ContainsChar(condition, "rain", 0); }
  }

  /** The simulated data is cold enough to show the advisory, with the cloud icon
      and the simulated alert text. */
  lemma MockShowsColdAdvisory(w: WeatherData)
    requires w == MockWeather
    ensures ShouldShowAlert(w)
    ensures WeatherIcon(w.condition) == CloudIcon
    ensures Message(w) == "Cold weather - use covered parking when possible"
  {
    assert 's' !in w.condition && 'r' !in w.condition;
    LacksLetters(w.condition);
  }
}
