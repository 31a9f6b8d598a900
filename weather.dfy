/** The app's fixed weather constants (`CONFIG.RAIN_CODES`, `CONFIG.TEMP_THRESHOLD`),
    the weather-code icon table of `getWeatherEmoji`, and `Math.round`. */
module Weather {

  /** Weather codes that count as precipitation for the rain alert. */
  const RAIN_CODES: seq<int> :=
    [51, 53, 55, 56, 57, 61, 63, 65, 66, 67, 71, 73, 75, 77, 80, 81, 82, 85, 86, 95, 96, 99]

  /** An hour is "hot" when its temperature is strictly above this many degrees Celsius. */
  const TEMP_THRESHOLD: int := 10

  /** `CONFIG.RAIN_CODES.includes(code)`, spelled out code by code. */
  predicate IsRainCode(code: int)
  {
    || code == 51 || code == 53 || code == 55 || code == 56 || code == 57
    || code == 61 || code == 63 || code == 65 || code == 66 || code == 67
    || code == 71 || code == 73 || code == 75 || code == 77
    || code == 80 || code == 81 || code == 82 || code == 85 || code == 86
    || code == 95 || code == 96 || code == 99
  }

  /** IsRainCode is exactly membership in the configured list. */
  lemma RainCodesListed(code: int)
    ensures IsRainCode(code) <==> code in RAIN_CODES
  {
  }

  predicate IsHot(temperature: real)
  {
    temperature > TEMP_THRESHOLD as real
  }

  /** The pictograms of the icon table, named after what they show. */
  datatype Icon =
    | Sun                 // clear sky
    | SunBehindSmallCloud // mainly clear, and the default
    | SunBehindCloud      // partly cloudy
    | Cloud               // overcast
    | Fog
    | SunBehindRainCloud
    | CloudWithRain
    | CloudWithSnow
    | Snowflake
    | CloudWithLightningAndRain

  /** The characters each icon is written with. */
  function IconText(icon: Icon): string
  {
    match icon
    case Sun => "\U{2600}\U{FE0F}"
    case SunBehindSmallCloud => "\U{1F324}\U{FE0F}"
    case SunBehindCloud => "\U{26C5}"
    case Cloud => "\U{2601}\U{FE0F}"
    case Fog => "\U{1F32B}\U{FE0F}"
    case SunBehindRainCloud => "\U{1F326}\U{FE0F}"
    case CloudWithRain => "\U{1F327}\U{FE0F}"
    case CloudWithSnow => "\U{1F328}\U{FE0F}"
    case Snowflake => "\U{2744}\U{FE0F}"
    case CloudWithLightningAndRain => "\U{26C8}\U{FE0F}"
  }

  /** Icons that show falling rain, snow or hail. */
  predicate ShowsPrecipitation(icon: Icon)
  {
    !(icon.Sun? || icon.SunBehindSmallCloud? || icon.SunBehindCloud? || icon.Cloud? || icon.Fog?)
  }

  /** The `weatherEmojis` object of `getWeatherEmoji`: weather code to icon. */
  const WEATHER_ICONS: map<int, Icon> := map[
    0 := Sun, 1 := SunBehindSmallCloud, 2 := SunBehindCloud, 3 := Cloud,
    45 := Fog, 48 := Fog,
    51 := SunBehindRainCloud, 53 := SunBehindRainCloud, 55 := CloudWithRain,
    56 := CloudWithSnow, 57 := CloudWithSnow,
    61 := CloudWithRain, 63 := CloudWithRain, 65 := CloudWithRain,
    66 := CloudWithSnow, 67 := CloudWithSnow,
    71 := CloudWithSnow, 73 := CloudWithSnow, 75 := Snowflake, 77 := CloudWithSnow,
    80 := SunBehindRainCloud, 81 := CloudWithRain, 82 := CloudWithLightningAndRain,
    85 := CloudWithSnow, 86 := Snowflake,
    95 := CloudWithLightningAndRain, 96 := CloudWithLightningAndRain, 99 := CloudWithLightningAndRain
  ]

  /** `getWeatherEmoji(code)`: the table entry, or the mainly-clear icon for a
      code the table does not list. The icon shows precipitation exactly for
      the codes that raise the rain alert, so the table and RAIN_CODES agree. */
  function Emoji(code: int): (icon: Icon)
    ensures ShowsPrecipitation(icon) <==> IsRainCode(code)
    ensures IsRainCode(code) ==> code in WEATHER_ICONS
    ensures code !in WEATHER_ICONS ==> icon == SunBehindSmallCloud
  {
    TableAgreesWithRainCodes(code);
    if code in WEATHER_ICONS then WEATHER_ICONS[code] else SunBehindSmallCloud
  }

  /** Every rain code has its own entry, and the entries that show
      precipitation are exactly those of the rain codes. */
  lemma TableAgreesWithRainCodes(code: int)
    ensures IsRainCode(code) ==> code in WEATHER_ICONS
    ensures code in WEATHER_ICONS ==> (ShowsPrecipitation(WEATHER_ICONS[code]) <==> IsRainCode(code))
  {
  }


  /** `Math.round(t)`: the nearest integer, halves rounded up. */
  function Round(t: real): (r: int)
    ensures r as real - 0.5 <= t < r as real + 0.5
  {
    (t + 0.5).Floor
  }

  /** A temperature that raises the alert is shown as at least the threshold;
      it can equal the threshold itself (10.4 is shown as 10). */
  lemma HotRoundsToAtLeastThreshold(t: real)
    requires IsHot(t)
    ensures Round(t) >= TEMP_THRESHOLD
  {
  }
}
