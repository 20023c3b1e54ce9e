/**
 * The weather shown beside the landmarks: the decoded OpenWeather response,
 * the app's own `Weather` value with its emoji, and the service's errors
 * with their (German) descriptions.
 */
module WeatherModels {
  import opened Wrappers

  datatype WeatherMain = WeatherMain(temp: real, feelsLike: real, humidity: int)

  datatype WeatherCondition = WeatherCondition(id: int, main: string, description: string, icon: string)

  /** The JSON body of an OpenWeather "current weather" response. */
  datatype WeatherResponse = WeatherResponse(main: WeatherMain, weather: seq<WeatherCondition>, name: string)

  datatype Weather = Weather(
    temperature: real,
    feelsLike: real,
    humidity: int,
    condition: string,
    description: string,
    icon: string)

  const Sun: string := "☀️"
  const SunBehindCloud: string := "🌤️"
  const Cloud: string := "☁️"
  const Rain: string := "🌧️"
  const SunBehindRain: string := "🌦️"
  const Thunderstorm: string := "⛈️"
  const Snow: string := "🌨️"
  const Fog: string := "🌫️"
  const Thermometer: string := "🌡️"

  /** OpenWeather's icon codes (without the day/night letter) and the emoji each one is shown as. */
  const IconTable: map<string, string> := map[
    "01" := Sun, "02" := SunBehindCloud, "03" := Cloud, "04" := Cloud, "09" := Rain,
    "10" := SunBehindRain, "11" := Thunderstorm, "13" := Snow, "50" := Fog]

  /** The first two characters of `icon`, or all of it when it is shorter. */
  function IconPrefix(icon: string): (p: string)
    ensures |p| == if |icon| < 2 then |icon| else 2
    ensures p <= icon
  {
    if |icon| <= 2 then icon else icon[..2]
  }

  /** The emoji for an icon code: looked up by its first two characters, a thermometer when unknown. */
  function IconEmoji(icon: string): (e: string)
    ensures IconPrefix(icon) in IconTable ==> e == IconTable[IconPrefix(icon)]
    ensures IconPrefix(icon) !in IconTable ==> e == Thermometer
  {
    match IconPrefix(icon)
    case "01" => Sun
    case "02" => SunBehindCloud
    case "03" => Cloud
    case "04" => Cloud
    case "09" => Rain
    case "10" => SunBehindRain
    case "11" => Thunderstorm
    case "13" => Snow
    case "50" => Fog
    case _ => Thermometer
  }

  /** Only the first two characters matter: day and night variants of a code look the same. */
  lemma IconEmojiIgnoresSuffix(a: string, b: string)
    requires |a| >= 2 && |b| >= 2 && a[..2] == b[..2]
    ensures IconEmoji(a) == IconEmoji(b)
  {
    assert IconPrefix(a) == a[..2] && IconPrefix(b) == b[..2];
  }

  /** "01d" and "01n", and every other day/night pair, give the same emoji. */
  lemma IconEmojiDayNight(code: string)
    requires |code| == 2
    ensures IconEmoji(code + "d") == IconEmoji(code + "n")
  {
    assert (code + "d")[..2] == code == (code + "n")[..2];
  }

  /** Scattered ("03") and broken ("04") clouds share one emoji. */
  lemma CloudCodesShareEmoji(suffix: string)
    ensures IconEmoji("03" + suffix) == IconEmoji("04" + suffix) == Cloud
  {
    assert IconPrefix("03" + suffix) == "03";
    assert IconPrefix("04" + suffix) == "04";
  }

  /** An icon shorter than two characters is never recognised. */
  lemma ShortIconIsThermometer(icon: string)
    requires |icon| < 2
    ensures IconEmoji(icon) == Thermometer
  {
  }

  /** The thermometer means exactly "unrecognised": no known code is shown as one. */
  lemma ThermometerIffUnknown(icon: string)
    ensures IconEmoji(icon) == Thermometer <==> IconPrefix(icon) !in IconTable
  {
    assert Thermometer[0] == '\U{1F321}';
    assert Sun[0] != Thermometer[0] && SunBehindCloud[0] != Thermometer[0] && Cloud[0] != Thermometer[0];
    assert Rain[0] != Thermometer[0] && SunBehindRain[0] != Thermometer[0];
    assert Thunderstorm[0] != Thermometer[0] && Snow[0] != Thermometer[0] && Fog[0] != Thermometer[0];
  }

  datatype WeatherError =
    | InvalidURL
    | NetworkError(message: string)
    | InvalidResponse
    | DecodingError(message: string)
    | MissingAPIKey

  const NetworkErrorPrefix: string := "Netzwerkfehler: "
  const DecodingErrorPrefix: string := "Dekodierungsfehler: "

  /**
   * The user-facing description of an error: present for every case; the
   * two cases that carry a message show it after a fixed prefix, and the
   * prefix tells which case it was.
   */
  function ErrorDescription(e: WeatherError): (d: Option<string>)
    ensures d.Some?
    ensures e.NetworkError? <==> NetworkErrorPrefix <= d.value
    ensures e.DecodingError? <==> DecodingErrorPrefix <= d.value
    ensures e.NetworkError? ==> d.value[|NetworkErrorPrefix|..] == e.message
    ensures e.DecodingError? ==> d.value[|DecodingErrorPrefix|..] == e.message
  {
    var d := match e
      case InvalidURL => "Ungültige URL"
      case NetworkError(message) => NetworkErrorPrefix + message
      case InvalidResponse => "Ungültige Antwort vom Server"
      case DecodingError(message) => DecodingErrorPrefix + message
      case MissingAPIKey => "OpenWeather API Key fehlt";
    assert NetworkErrorPrefix <= d ==> d[0] == 'N';
    assert DecodingErrorPrefix <= d ==> d[0] == 'D';
    Some(d)
  }

  /** Different errors never read the same. */
  lemma ErrorDescriptionInjective(a: WeatherError, b: WeatherError)
    requires ErrorDescription(a) == ErrorDescription(b)
    ensures a == b
  {
    var d := ErrorDescription(a).value;
    if a.NetworkError? || a.DecodingError? {
    } else {
      assert !b.NetworkError? && !b.DecodingError?;
      assert a.InvalidURL? ==> |d| == 13;
      assert a.InvalidResponse? ==> |d| == 28;
      assert a.MissingAPIKey? ==> |d| == 25;
    }
  }
}
