/** The `WeatherIcon` component's choice of what to draw for a weather code:
    the table's icon name is looked up among the lucide components the
    component imports, with the plain cloud as fallback, and drawn with the
    table colour, the requested size and stroke width. */
module WeatherIcon {
  import opened Wrappers
  import WeatherCodes

  /** The lucide icon components the component imports. */
  datatype Glyph =
    | Sun | Cloud | CloudSun | CloudFog | CloudDrizzle | CloudRain | CloudSnow
    | CloudLightning | CloudHail | CloudSunRain | Eye | Zap | Wind | Tornado
  {
    /** The component's export name. */
    function Name(): string {
      match this
      case Sun => "Sun"
      case Cloud => "Cloud"
      case CloudSun => "CloudSun"
      case CloudFog => "CloudFog"
      case CloudDrizzle => "CloudDrizzle"
      case CloudRain => "CloudRain"
      case CloudSnow => "CloudSnow"
      case CloudLightning => "CloudLightning"
      case CloudHail => "CloudHail"
      case CloudSunRain => "CloudSunRain"
      case Eye => "Eye"
      case Zap => "Zap"
      case Wind => "Wind"
      case Tornado => "Tornado"
    }
  }

  /** What the component renders: a glyph and the props handed to it. */
  datatype RenderedIcon = RenderedIcon(glyph: Glyph, size: real, color: Option<string>, strokeWidth: real, className: string)

  const DefaultSize: real := 20.0
  const DefaultStrokeWidth: real := 2.0

  /** `iconComponents`: every glyph under its own name, plus "Cloudy" as an
      alias of the plain cloud. */
  const IconComponents: map<string, Glyph> := map[
    "Sun" := Sun,
    "Cloud" := Cloud,
    "Cloudy" := Cloud,
    "CloudSun" := CloudSun,
    "CloudFog" := CloudFog,
    "CloudDrizzle" := CloudDrizzle,
    "CloudRain" := CloudRain,
    "CloudSnow" := CloudSnow,
    "CloudLightning" := CloudLightning,
    "CloudHail" := CloudHail,
    "CloudSunRain" := CloudSunRain,
    "Eye" := Eye,
    "Zap" := Zap,
    "Wind" := Wind,
    "Tornado" := Tornado
  ]

  /** `iconComponents[name] || iconComponents.Cloud`. */
  function Resolve(name: string): Glyph {
    if name in IconComponents then IconComponents[name] else Cloud
  }

  /** The table icons that have no component of their own and so are drawn
      as the plain cloud. */
  predicate DrawnAsPlainCloud(icon: WeatherCodes.Icon) {
    icon == WeatherCodes.Cloud || icon == WeatherCodes.Cloudy || icon == WeatherCodes.Snowflake
  }

  /** Every table icon resolves to the component of the same name, except
      the three drawn as the plain cloud: "Cloud" itself, the "Cloudy" alias,
      and "Snowflake", which is not a key at all. */
  lemma ResolveTableIcon(icon: WeatherCodes.Icon)
    ensures DrawnAsPlainCloud(icon) ==> Resolve(icon.Name()) == Cloud
    ensures !DrawnAsPlainCloud(icon) ==> Resolve(icon.Name()).Name() == icon.Name()
    ensures icon == WeatherCodes.Snowflake <==> icon.Name() !in IconComponents
  {
  }

  /** The `WeatherIcon` component for `code`, with the optional `size`,
      `strokeWidth` and `className` props defaulting to 20, 2 and "". The
      colour is always the table colour, because the icon props are asked
      for with `includeColor` set. */
  function Render(code: int, size: Option<real>, strokeWidth: Option<real>, className: Option<string>): (r: RenderedIcon)
    ensures r.glyph == Resolve(WeatherCodes.IconName(code).Name())
    ensures r.color == Some(WeatherCodes.IconColor(code))
    ensures r.size == size.GetOr(DefaultSize)
    ensures r.strokeWidth == strokeWidth.GetOr(DefaultStrokeWidth)
    ensures r.className == className.GetOr("")
  {
    var iconName := WeatherCodes.IconName(code).Name();
    var glyph := Resolve(iconName);
    var s := size.GetOr(DefaultSize);
    var props := WeatherCodes.GetIconProps(code, Some(s), Some(true));
    RenderedIcon(glyph, s, props.color, strokeWidth.GetOr(DefaultStrokeWidth), className.GetOr(""))
  }

  /** The plain cloud is drawn exactly for the overcast code 3, the
      snowflake codes 76..78 and every code outside 0..99; every other code
      gets the component named like its table icon. */
  lemma PlainCloudCodes(code: int, size: Option<real>, strokeWidth: Option<real>, className: Option<string>)
    ensures Render(code, size, strokeWidth, className).glyph == Cloud
            <==> code == 3 || 76 <= code <= 78 || !WeatherCodes.IsWmoCode(code)
    ensures Render(code, size, strokeWidth, className).glyph != Cloud
            ==> Render(code, size, strokeWidth, className).glyph.Name() == WeatherCodes.IconName(code).Name()
  {
    ResolveTableIcon(WeatherCodes.IconName(code));
  }
}
