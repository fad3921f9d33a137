/** The WMO "present weather" classifier: a constant table from the codes
    0..99 of WMO code table 4677 (FM 12 SYNOP) to an icon name, an icon
    colour and a human-readable description, with one fixed fallback for
    every other code, and the accessors projecting it. */
module WeatherCodes {
  import opened Wrappers
  import Js

  /** The icon names the table (or the fallback) can produce. */
  datatype Icon =
    | Sun | CloudSun | CloudSunRain | Cloudy | Eye | CloudFog | Zap | CloudRain
    | CloudLightning | Wind | Tornado | CloudDrizzle | CloudSnow | CloudHail
    | Snowflake | Cloud
  {
    /** The icon's name as the table spells it. */
    function Name(): string {
      match this
      case Sun => "Sun"
      case CloudSun => "CloudSun"
      case CloudSunRain => "CloudSunRain"
      case Cloudy => "Cloudy"
      case Eye => "Eye"
      case CloudFog => "CloudFog"
      case Zap => "Zap"
      case CloudRain => "CloudRain"
      case CloudLightning => "CloudLightning"
      case Wind => "Wind"
      case Tornado => "Tornado"
      case CloudDrizzle => "CloudDrizzle"
      case CloudSnow => "CloudSnow"
      case CloudHail => "CloudHail"
      case Snowflake => "Snowflake"
      case Cloud => "Cloud"
    }
  }

  /** One row of the table. The colour is optional in the record type even
      though every row supplies one. */
  datatype IconConfig = IconConfig(icon: Icon, color: Option<string>, description: string)

  /** Icon properties handed to an icon component: the size is always set,
      the colour only on request. */
  datatype IconProps = IconProps(size: real, color: Option<string>)

  const Gold := "#E9C46A"
  const Sand := "#F4A261"
  const White := "#FFFFFF"
  const Coral := "#E76F51"

  const UnknownDescription := "Unknown weather condition"

  /** What every code without a row resolves to. */
  const Fallback := IconConfig(Cloud, Some(White), UnknownDescription)

  /** Default of the `size` argument of `getIconProps`. */
  const DefaultIconSize: real := 20.0

  predicate IsWmoCode(code: int) {
    0 <= code <= 99
  }

  predicate InPalette(color: string) {
    color == Gold || color == Sand || color == White || color == Coral
  }

  function Entry(icon: Icon, color: string, description: string): IconConfig {
    IconConfig(icon, Some(color), description)
  }

  /** The table itself: a row exactly for the codes 0..99, grouped by the
      ranges of the WMO taxonomy. */
  function Lookup(code: int): Option<IconConfig> {
    if code < 0 then None
    else if code <= 3 then ClearSkyRows(code)
    else if code <= 19 then AtmosphericRows(code)
    else if code <= 29 then RecentWeatherRows(code)
    else if code <= 39 then DustSandSnowStormsRows(code)
    else if code <= 49 then FogRows(code)
    else if code <= 59 then DrizzleRows(code)
    else if code <= 69 then RainRows(code)
    else if code <= 79 then SnowRows(code)
    else if code <= 90 then ShowersRows(code)
    else if code <= 99 then ThunderstormRows(code)
    else None
  }

  /** Clear sky (0..3). */
  function ClearSkyRows(code: int): Option<IconConfig> {
    match code
    case 0 => Some(Entry(Sun, Gold, "Clear sky"))
    case 1 => Some(Entry(CloudSun, Gold, "Mainly clear"))
    case 2 => Some(Entry(CloudSunRain, Sand, "Partly cloudy"))
    case 3 => Some(Entry(Cloudy, White, "Overcast"))
    case _ => None
  }

  /** Visibility and atmospheric phenomena (4..19). */
  function AtmosphericRows(code: int): Option<IconConfig> {
    match code
    case 4 => Some(Entry(Eye, Sand, "Smoke visibility"))
    case 5 => Some(Entry(Eye, Sand, "Haze"))
    case 6 => Some(Entry(Eye, Sand, "Dust suspension"))
    case 7 => Some(Entry(Eye, Sand, "Dust/sand by wind"))
    case 8 => Some(Entry(Eye, Sand, "Dust whirls"))
    case 9 => Some(Entry(Eye, Sand, "Duststorm in sight"))
    case 10 => Some(Entry(CloudFog, White, "Mist"))
    case 11 => Some(Entry(CloudFog, White, "Shallow fog patches"))
    case 12 => Some(Entry(CloudFog, White, "Continuous shallow fog"))
    case 13 => Some(Entry(Zap, Coral, "Lightning visible"))
    case 14 => Some(Entry(CloudRain, White, "Precipitation in sight"))
    case 15 => Some(Entry(CloudRain, White, "Distant precipitation"))
    case 16 => Some(Entry(CloudRain, White, "Near precipitation"))
    case 17 => Some(Entry(CloudLightning, Coral, "Thunderstorm no precip"))
    case 18 => Some(Entry(Wind, Sand, "Squalls"))
    case 19 => Some(Entry(Tornado, Coral, "Funnel cloud"))
    case _ => None
  }

  /** Weather of the preceding hour (20..29). */
  function RecentWeatherRows(code: int): Option<IconConfig> {
    match code
    case 20 => Some(Entry(CloudDrizzle, White, "Recent drizzle"))
    case 21 => Some(Entry(CloudDrizzle, White, "Recent rain"))
    case 22 => Some(Entry(CloudSnow, White, "Recent snow"))
    case 23 => Some(Entry(CloudSnow, White, "Recent rain/snow"))
    case 24 => Some(Entry(CloudRain, White, "Recent freezing rain"))
    case 25 => Some(Entry(CloudRain, White, "Recent rain shower"))
    case 26 => Some(Entry(CloudRain, White, "Recent snow shower"))
    case 27 => Some(Entry(CloudRain, White, "Recent hail shower"))
    case 28 => Some(Entry(CloudFog, White, "Recent fog"))
    case 29 => Some(Entry(CloudLightning, Coral, "Recent thunderstorm"))
    case _ => None
  }

  /** Duststorm, sandstorm and blowing snow (30..39). */
  function DustSandSnowStormsRows(code: int): Option<IconConfig> {
    match code
    case 30 => Some(Entry(Wind, Sand, "Slight duststorm"))
    case 31 => Some(Entry(Wind, Sand, "Moderate duststorm"))
    case 32 => Some(Entry(Wind, Sand, "Increasing duststorm"))
    case 33 => Some(Entry(Wind, Coral, "Severe duststorm"))
    case 34 => Some(Entry(Wind, Coral, "Severe duststorm steady"))
    case 35 => Some(Entry(Wind, Coral, "Severe duststorm increasing"))
    case 36 => Some(Entry(CloudSnow, White, "Slight blowing snow"))
    case 37 => Some(Entry(CloudSnow, White, "Heavy drifting snow"))
    case 38 => Some(Entry(CloudSnow, White, "Moderate blowing snow"))
    case 39 => Some(Entry(CloudSnow, White, "Heavy drifting snow high"))
    case _ => None
  }

  /** Fog (40..49). */
  function FogRows(code: int): Option<IconConfig> {
    match code
    case 40 => Some(Entry(CloudFog, White, "Fog at distance"))
    case 41 => Some(Entry(CloudFog, White, "Fog patches"))
    case 42 => Some(Entry(CloudFog, White, "Fog thinning"))
    case 43 => Some(Entry(CloudFog, White, "Fog thinning invisible"))
    case 44 => Some(Entry(CloudFog, White, "Fog steady"))
    case 45 => Some(Entry(CloudFog, White, "Fog steady invisible"))
    case 46 => Some(Entry(CloudFog, White, "Fog thickening"))
    case 47 => Some(Entry(CloudFog, White, "Fog thickening invisible"))
    case 48 => Some(Entry(CloudFog, White, "Fog with rime"))
    case 49 => Some(Entry(CloudFog, White, "Fog with rime invisible"))
    case _ => None
  }

  /** Drizzle (50..59). */
  function DrizzleRows(code: int): Option<IconConfig> {
    match code
    case 50 => Some(Entry(CloudDrizzle, White, "Slight drizzle"))
    case 51 => Some(Entry(CloudDrizzle, White, "Continuous slight drizzle"))
    case 52 => Some(Entry(CloudDrizzle, White, "Moderate drizzle"))
    case 53 => Some(Entry(CloudDrizzle, White, "Continuous moderate drizzle"))
    case 54 => Some(Entry(CloudDrizzle, White, "Heavy drizzle"))
    case 55 => Some(Entry(CloudDrizzle, White, "Continuous heavy drizzle"))
    case 56 => Some(Entry(CloudDrizzle, White, "Slight freezing drizzle"))
    case 57 => Some(Entry(CloudDrizzle, White, "Heavy freezing drizzle"))
    case 58 => Some(Entry(CloudDrizzle, White, "Drizzle and rain"))
    case 59 => Some(Entry(CloudDrizzle, White, "Heavy drizzle and rain"))
    case _ => None
  }

  /** Rain (60..69). */
  function RainRows(code: int): Option<IconConfig> {
    match code
    case 60 => Some(Entry(CloudRain, White, "Slight rain"))
    case 61 => Some(Entry(CloudRain, White, "Continuous slight rain"))
    case 62 => Some(Entry(CloudRain, White, "Moderate rain"))
    case 63 => Some(Entry(CloudRain, White, "Continuous moderate rain"))
    case 64 => Some(Entry(CloudRain, White, "Heavy rain"))
    case 65 => Some(Entry(CloudRain, White, "Continuous heavy rain"))
    case 66 => Some(Entry(CloudHail, White, "Slight freezing rain"))
    case 67 => Some(Entry(CloudHail, White, "Heavy freezing rain"))
    case 68 => Some(Entry(CloudSnow, White, "Rain and snow slight"))
    case 69 => Some(Entry(CloudSnow, White, "Rain and snow heavy"))
    case _ => None
  }

  /** Solid precipitation (70..79). */
  function SnowRows(code: int): Option<IconConfig> {
    match code
    case 70 => Some(Entry(CloudSnow, White, "Slight snow"))
    case 71 => Some(Entry(CloudSnow, White, "Continuous slight snow"))
    case 72 => Some(Entry(CloudSnow, White, "Moderate snow"))
    case 73 => Some(Entry(CloudSnow, White, "Continuous moderate snow"))
    case 74 => Some(Entry(CloudSnow, White, "Heavy snow"))
    case 75 => Some(Entry(CloudSnow, White, "Continuous heavy snow"))
    case 76 => Some(Entry(Snowflake, Gold, "Diamond dust"))
    case 77 => Some(Entry(Snowflake, White, "Snow grains"))
    case 78 => Some(Entry(Snowflake, Gold, "Snow crystals"))
    case 79 => Some(Entry(CloudHail, White, "Ice pellets"))
    case _ => None
  }

  /** Showers (80..90). */
  function ShowersRows(code: int): Option<IconConfig> {
    match code
    case 80 => Some(Entry(CloudRain, White, "Slight rain shower"))
    case 81 => Some(Entry(CloudRain, White, "Heavy rain shower"))
    case 82 => Some(Entry(CloudRain, Coral, "Violent rain shower"))
    case 83 => Some(Entry(CloudSnow, White, "Slight mixed shower"))
    case 84 => Some(Entry(CloudSnow, White, "Heavy mixed shower"))
    case 85 => Some(Entry(CloudSnow, White, "Slight snow shower"))
    case 86 => Some(Entry(CloudSnow, White, "Heavy snow shower"))
    case 87 => Some(Entry(CloudHail, White, "Slight hail shower"))
    case 88 => Some(Entry(CloudHail, White, "Heavy hail shower"))
    case 89 => Some(Entry(CloudHail, White, "Slight hail shower"))
    case 90 => Some(Entry(CloudHail, White, "Heavy hail shower"))
    case _ => None
  }

  /** Thunderstorm (91..99). */
  function ThunderstormRows(code: int): Option<IconConfig> {
    match code
    case 91 => Some(Entry(CloudLightning, Coral, "Recent thunderstorm slight rain"))
    case 92 => Some(Entry(CloudLightning, Coral, "Recent thunderstorm heavy rain"))
    case 93 => Some(Entry(CloudLightning, Coral, "Recent thunderstorm slight mixed"))
    case 94 => Some(Entry(CloudLightning, Coral, "Recent thunderstorm heavy mixed"))
    case 95 => Some(Entry(CloudLightning, Coral, "Thunderstorm without hail"))
    case 96 => Some(Entry(CloudLightning, Coral, "Thunderstorm with slight hail"))
    case 97 => Some(Entry(CloudLightning, Coral, "Heavy thunderstorm"))
    case 98 => Some(Entry(CloudLightning, Coral, "Thunderstorm with duststorm"))
    case 99 => Some(Entry(CloudLightning, Coral, "Thunderstorm with heavy hail"))
    case _ => None
  }

  /** What the table promises of each of its rows: an icon other than the
      fallback's plain cloud, a palette colour, and a description that is
      neither empty nor the fallback's. */
  predicate IsProperRow(row: IconConfig) {
    && row.icon != Cloud
    && row.color.Some? && InPalette(row.color.value)
    && row.description != ""
    && row.description != UnknownDescription
  }

  /** Where the two icons without a component of their own in
      `iconComponents` sit:
      "Cloudy" only at code 3, "Snowflake" only at codes 76..78. */
  predicate IconPlacement(code: int, icon: Icon) {
    && (icon == Cloudy <==> code == 3)
    && (icon == Snowflake <==> 76 <= code <= 78)
  }

  /** Every code 0..99 has its own proper row, and no other code has one. */
  lemma RowFacts(code: int)
    ensures Lookup(code).Some? <==> IsWmoCode(code)
    ensures Lookup(code).Some? ==> IsProperRow(Lookup(code).value)
    ensures Lookup(code).Some? ==> IconPlacement(code, Lookup(code).value.icon)
  {
    if code < 0 {
    } else if code <= 3 {
      ClearSkyRowsAreProper(code);
    } else if code <= 19 {
      AtmosphericRowsAreProper(code);
    } else if code <= 29 {
      RecentWeatherRowsAreProper(code);
    } else if code <= 39 {
      DustSandSnowStormsRowsAreProper(code);
    } else if code <= 49 {
      FogRowsAreProper(code);
    } else if code <= 59 {
      DrizzleRowsAreProper(code);
    } else if code <= 69 {
      RainRowsAreProper(code);
    } else if code <= 79 {
      SnowRowsAreProper(code);
    } else if code <= 90 {
      ShowersRowsAreProper(code);
    } else if code <= 99 {
      ThunderstormRowsAreProper(code);
    }
  }

  lemma ClearSkyRowsAreProper(code: int)
    requires 0 <= code <= 3
    ensures ClearSkyRows(code).Some? && IsProperRow(ClearSkyRows(code).value)
    ensures IconPlacement(code, ClearSkyRows(code).value.icon)
  {
  }

  lemma AtmosphericRowsAreProper(code: int)
    requires 4 <= code <= 19
    ensures AtmosphericRows(code).Some? && IsProperRow(AtmosphericRows(code).value)
    ensures IconPlacement(code, AtmosphericRows(code).value.icon)
  {
    // Two halves keep the case analysis small.
    if code <= 11 {
    } else {
    }
  }

  lemma RecentWeatherRowsAreProper(code: int)
    requires 20 <= code <= 29
    ensures RecentWeatherRows(code).Some? && IsProperRow(RecentWeatherRows(code).value)
    ensures IconPlacement(code, RecentWeatherRows(code).value.icon)
  {
  }

  lemma DustSandSnowStormsRowsAreProper(code: int)
    requires 30 <= code <= 39
    ensures DustSandSnowStormsRows(code).Some? && IsProperRow(DustSandSnowStormsRows(code).value)
    ensures IconPlacement(code, DustSandSnowStormsRows(code).value.icon)
  {
  }

  lemma FogRowsAreProper(code: int)
    requires 40 <= code <= 49
    ensures FogRows(code).Some? && IsProperRow(FogRows(code).value)
    ensures IconPlacement(code, FogRows(code).value.icon)
  {
  }

  lemma DrizzleRowsAreProper(code: int)
    requires 50 <= code <= 59
    ensures DrizzleRows(code).Some? && IsProperRow(DrizzleRows(code).value)
    ensures IconPlacement(code, DrizzleRows(code).value.icon)
  {
  }

  lemma RainRowsAreProper(code: int)
    requires 60 <= code <= 69
    ensures RainRows(code).Some? && IsProperRow(RainRows(code).value)
    ensures IconPlacement(code, RainRows(code).value.icon)
  {
  }

  lemma SnowRowsAreProper(code: int)
    requires 70 <= code <= 79
    ensures SnowRows(code).Some? && IsProperRow(SnowRows(code).value)
    ensures IconPlacement(code, SnowRows(code).value.icon)
  {
  }

  lemma ShowersRowsAreProper(code: int)
    requires 80 <= code <= 90
    ensures ShowersRows(code).Some? && IsProperRow(ShowersRows(code).value)
    ensures IconPlacement(code, ShowersRows(code).value.icon)
  {
  }

  lemma ThunderstormRowsAreProper(code: int)
    requires 91 <= code <= 99
    ensures ThunderstormRows(code).Some? && IsProperRow(ThunderstormRows(code).value)
    ensures IconPlacement(code, ThunderstormRows(code).value.icon)
  {
  }

  /** `getWeatherIconConfig`: the row for `code`, or the fallback when there
      is none. */
  function GetIconConfig(code: int): (r: IconConfig)
    ensures IsWmoCode(code) ==> Lookup(code) == Some(r)
    ensures !IsWmoCode(code) ==> r == Fallback
    ensures IsWmoCode(code) ==> IsProperRow(r)
    ensures IconPlacement(code, r.icon)
    ensures Js.TruthyString(r.color) && InPalette(r.color.value)
    ensures r.description != ""
  {
    RowFacts(code);
    Lookup(code).GetOr(Fallback)
  }

  /** `getWeatherCondition`: a non-empty description, which is the fallback
      text for exactly the codes outside 0..99. */
  function Condition(code: int): (r: string)
    ensures r != ""
    ensures r == UnknownDescription <==> !IsWmoCode(code)
  {
    GetIconConfig(code).description
  }

  /** `getWeatherIconName`: the row's icon, the plain cloud exactly for the
      codes outside 0..99. */
  function IconName(code: int): (r: Icon)
    ensures r == Cloud <==> !IsWmoCode(code)
    ensures r == Cloudy <==> code == 3
    ensures r == Snowflake <==> 76 <= code <= 78
  {
    GetIconConfig(code).icon
  }

  /** `getWeatherIconColor`: the row's colour (white when it has none, which
      never happens), so always one of the four palette colours. */
  function IconColor(code: int): (r: string)
    ensures InPalette(r)
    ensures GetIconConfig(code).color == Some(r)
  {
    var config := GetIconConfig(code);
    if Js.TruthyString(config.color) then config.color.value else White
  }

  /** `getIconProps(code, size = 20, includeColor = false)`. */
  function GetIconProps(code: int, size: Option<real>, includeColor: Option<bool>): (r: IconProps)
    ensures r.size == size.GetOr(DefaultIconSize)
    ensures r.color.Some? <==> includeColor.GetOr(false)
    ensures r.color.Some? ==> r.color.value == IconColor(code)
  {
    var config := GetIconConfig(code);
    var color := if includeColor.GetOr(false) && Js.TruthyString(config.color) then config.color else None;
    IconProps(size.GetOr(DefaultIconSize), color)
  }

  /** The accessors are projections of one and the same row. */
  lemma AccessorsAgree(code: int)
    ensures Condition(code) == GetIconConfig(code).description
    ensures IconName(code) == GetIconConfig(code).icon
    ensures IsWmoCode(code) ==> Lookup(code) == Some(IconConfig(IconName(code), Some(IconColor(code)), Condition(code)))
  {
  }

  /** Codes 40..49 (fog) all share the fog icon. */
  lemma FogCodesShareIcon()
    ensures forall c | 40 <= c <= 49 :: IconName(c) == CloudFog
  {
  }

  /** Codes 50..59 (drizzle) all share the drizzle icon. */
  lemma DrizzleCodesShareIcon()
    ensures forall c | 50 <= c <= 59 :: IconName(c) == CloudDrizzle
  {
  }

  /** Codes 91..99 (thunderstorm) all share the lightning icon. */
  lemma ThunderstormCodesShareIcon()
    ensures forall c | 91 <= c <= 99 :: IconName(c) == CloudLightning && IconColor(c) == Coral
  {
  }

  /** Descriptions do not identify codes: the hail showers 87/89 and 88/90
      carry the same text. */
  lemma HailDescriptionsRepeat()
    ensures Condition(87) == Condition(89) == "Slight hail shower"
    ensures Condition(88) == Condition(90) == "Heavy hail shower"
  {
  }
}
