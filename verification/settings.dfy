/**
 * `loadSettings`: the dashboard settings file coerced field by field into
 * well-typed settings, behind a cache that re-reads the file at most every
 * five seconds.
 */
module Settings {
  import opened Wrappers
  import opened Json

  datatype Theme = Dark | Light
  datatype CardDensity = Compact | Comfortable
  datatype TimeDisplay = Utc | Local

  datatype Gradient = Gradient(topLeft: string, bottomRight: string)

  /** `DashboardSettings`; `agents` is the custom roster, None for the default one. */
  datatype DashboardSettings = DashboardSettings(
    name: string,
    subtitle: string,
    repoUrl: Option<string>,
    logoIcon: string,
    theme: Theme,
    accentColor: string,
    backgroundGradient: Gradient,
    cardDensity: CardDensity,
    showMetricsPanel: bool,
    showTokenPanel: bool,
    refreshInterval: int,
    timeDisplay: TimeDisplay,
    agents: Option<seq<Json>>)

  /** The keys of `ACCENT_PRESETS`. */
  const PresetKeys: set<string> := {"green", "blue", "purple", "orange", "red", "cyan", "amber", "pink"}

  /** The shortest refresh interval a settings file may ask for, in milliseconds. */
  const MinRefreshInterval: int := 5000

  /** `CACHE_TTL`: how long a loaded value is served without reading the file again. */
  const CacheTtl: int := 5000

  const DefaultName: string := "OpenClaw"
  const DefaultSubtitle: string := "Mission Control"
  const DefaultLogoIcon: string := "zap"
  const DefaultAccent: string := "green"
  const DefaultGradient: Gradient := Gradient("rgba(70,167,88,0.05)", "rgba(62,99,221,0.05)")
  const DefaultRefreshInterval: int := 30000

  /** `DEFAULTS` */
  const Defaults: DashboardSettings := DashboardSettings(
    DefaultName, DefaultSubtitle, None, DefaultLogoIcon, Dark, DefaultAccent, DefaultGradient,
    Comfortable, true, true, DefaultRefreshInterval, Utc, None)

  /** What the declared types promise: a preset accent and an interval of at least five seconds. */
  predicate WellFormed(s: DashboardSettings) {
    s.accentColor in PresetKeys && s.refreshInterval >= MinRefreshInterval
  }

  /** `typeof v === 'string' ? v : d`: the value when it is a string, the default otherwise. */
  function StringOr(v: Option<Json>, d: string): (r: string)
    ensures v.Some? && v.value.JStr? ==> r == v.value.s
    ensures r == d || v == Some(JStr(r))
  {
    if v.Some? && v.value.JStr? then v.value.s else d
  }

  /** `repoUrl`: kept when it is a string, null otherwise. */
  function RepoUrlOf(v: Option<Json>): (r: Option<string>)
    ensures r.Some? <==> v.Some? && v.value.JStr?
    ensures r.Some? ==> v == Some(JStr(r.value))
  {
    if v.Some? && v.value.JStr? then Some(v.value.s) else None
  }

  /** `raw.x?.key`: None when `raw.x` is undefined or null. */
  function GetOptional(v: Option<Json>, key: string): Option<Json> {
    if v.Some? then Get(v.value, key) else None
  }

  /** `backgroundGradient`: each colour kept when it is a string. */
  function GradientOf(v: Option<Json>): Gradient {
    Gradient(
      StringOr(GetOptional(v, "topLeft"), DefaultGradient.topLeft),
      StringOr(GetOptional(v, "bottomRight"), DefaultGradient.bottomRight))
  }

  /** `raw.theme === 'light' ? 'light' : 'dark'` */
  function ThemeOf(v: Option<Json>): (t: Theme)
    ensures t == Light <==> v == Some(JStr("light"))
  {
    if v == Some(JStr("light")) then Light else Dark
  }

  /** `raw.cardDensity === 'compact' ? 'compact' : 'comfortable'` */
  function DensityOf(v: Option<Json>): (d: CardDensity)
    ensures d == Compact <==> v == Some(JStr("compact"))
  {
    if v == Some(JStr("compact")) then Compact else Comfortable
  }

  /** `raw.timeDisplay === 'local' ? 'local' : 'utc'` */
  function TimeDisplayOf(v: Option<Json>): (t: TimeDisplay)
    ensures t == Local <==> v == Some(JStr("local"))
  {
    if v == Some(JStr("local")) then Local else Utc
  }

  /** `v !== false`: a panel is hidden only by a literal `false`. */
  function ShownUnlessFalse(v: Option<Json>): (b: bool)
    ensures !b <==> v == Some(JBool(false))
  {
    v != Some(JBool(false))
  }

  /** `refreshInterval`: kept when it is a number of at least 5000, 30000 otherwise. */
  function RefreshOf(v: Option<Json>): (n: int)
    ensures n >= MinRefreshInterval
    ensures v.Some? && v.value.JNum? && v.value.n >= MinRefreshInterval ==> n == v.value.n
    ensures n == DefaultRefreshInterval || v == Some(JNum(n))
  {
    if v.Some? && v.value.JNum? && v.value.n >= MinRefreshInterval then v.value.n else DefaultRefreshInterval
  }

  /** `Array.isArray(raw.agents) ? raw.agents : null` */
  function AgentsOf(v: Option<Json>): (r: Option<seq<Json>>)
    ensures r.Some? <==> v.Some? && v.value.JArr?
    ensures r.Some? ==> v == Some(JArr(r.value))
  {
    if v.Some? && v.value.JArr? then Some(v.value.items) else None
  }

  /** The accent colour kept only when it names a preset; `green` otherwise. */
  function Accent(v: Option<Json>): (r: string)
    ensures r in PresetKeys
    ensures v.Some? && v.value.JStr? && v.value.s in PresetKeys ==> r == v.value.s
    ensures r != DefaultAccent ==> v == Some(JStr(r))
  {
    if v.Some? && v.value.JStr? && v.value.s in PresetKeys then v.value.s else DefaultAccent
  }

  /**
   * `(raw.accentColor && raw.accentColor in ACCENT_PRESETS) ? raw.accentColor : 'green'`
   * as the code reads it: `in` converts the value to a property key with
   * `String(v)` and also finds the names every object inherits.
   */
  function AccentAsWritten(v: Option<Json>): (r: Json)
    ensures r != JStr("green") ==> v == Some(r) && Truthy(v)
  {
    if Truthy(v) && ToStr(v.value) in PresetKeys + ObjectPrototypeNames then v.value else JStr("green")
  }

  /**
   * `"toString"` and `["blue"]` pass the accent check as written, although
   * neither is a preset name; the intended check replaces both with `green`.
   */
  lemma ForeignAccents(a: Option<Json>, b: Option<Json>)
    requires a == Some(JStr("toString")) && b == Some(JArr([JStr("blue")]))
    ensures AccentAsWritten(a) == JStr("toString") && "toString" !in PresetKeys && Accent(a) == "green"
    ensures AccentAsWritten(b) == JArr([JStr("blue")]) && Accent(b) == "green"
  {
    assert ToStr(b.value) == "blue";
  }

  /**
   * The settings object built from the values a parsed file holds under
   * each key (None where the key is absent).
   */
  function FromFields(
    name: Option<Json>, subtitle: Option<Json>, repoUrl: Option<Json>, logoIcon: Option<Json>,
    theme: Option<Json>, accentColor: Option<Json>, gradient: Option<Json>, cardDensity: Option<Json>,
    showMetricsPanel: Option<Json>, showTokenPanel: Option<Json>, refreshInterval: Option<Json>,
    timeDisplay: Option<Json>, agents: Option<Json>): (s: DashboardSettings)
    ensures WellFormed(s)
  {
    DashboardSettings(
      StringOr(name, DefaultName), StringOr(subtitle, DefaultSubtitle), RepoUrlOf(repoUrl),
      StringOr(logoIcon, DefaultLogoIcon), ThemeOf(theme), Accent(accentColor), GradientOf(gradient),
      DensityOf(cardDensity), ShownUnlessFalse(showMetricsPanel), ShownUnlessFalse(showTokenPanel),
      RefreshOf(refreshInterval), TimeDisplayOf(timeDisplay), AgentsOf(agents))
  }

  /** The settings object built from a parsed file that is not null. */
  function Coerce(raw: Json): DashboardSettings {
    FromFields(
      Get(raw, "name"), Get(raw, "subtitle"), Get(raw, "repoUrl"), Get(raw, "logoIcon"),
      Get(raw, "theme"), Get(raw, "accentColor"), Get(raw, "backgroundGradient"), Get(raw, "cardDensity"),
      Get(raw, "showMetricsPanel"), Get(raw, "showTokenPanel"), Get(raw, "refreshInterval"),
      Get(raw, "timeDisplay"), Get(raw, "agents"))
  }

  /** The settings file as the loader finds it. */
  datatype SettingsFile =
    | Missing            // `existsSync` is false
    | Unparseable        // `readFileSync` or `JSON.parse` throws
    | Parsed(doc: Json)

  /**
   * The value a load computes from the file: the defaults when it is
   * missing, unreadable or `null` (reading `raw.name` throws), the coerced
   * document otherwise.
   */
  function Read(file: SettingsFile): (s: DashboardSettings)
    ensures WellFormed(s)
    ensures file.Missing? || file.Unparseable? || file == Parsed(JNull) ==> s == Defaults
    ensures file.Parsed? && !file.doc.JNull? ==> s == Coerce(file.doc)
  {
    match file
    case Parsed(raw) => if raw.JNull? then Defaults else Coerce(raw)
    case _ => Defaults
  }

  /** The settings file that holds exactly `s`. */
  function Encode(s: DashboardSettings): Json {
    JObj(map[
      "name" := JStr(s.name),
      "subtitle" := JStr(s.subtitle),
      "repoUrl" := (if s.repoUrl.Some? then JStr(s.repoUrl.value) else JNull),
      "logoIcon" := JStr(s.logoIcon),
      "theme" := JStr(if s.theme == Light then "light" else "dark"),
      "accentColor" := JStr(s.accentColor),
      "backgroundGradient" := JObj(map[
        "topLeft" := JStr(s.backgroundGradient.topLeft),
        "bottomRight" := JStr(s.backgroundGradient.bottomRight)]),
      "cardDensity" := JStr(if s.cardDensity == Compact then "compact" else "comfortable"),
      "showMetricsPanel" := JBool(s.showMetricsPanel),
      "showTokenPanel" := JBool(s.showTokenPanel),
      "refreshInterval" := JNum(s.refreshInterval),
      "timeDisplay" := JStr(if s.timeDisplay == Local then "local" else "utc"),
      "agents" := (if s.agents.Some? then JArr(s.agents.value) else JNull)])
  }

  /** Every well-formed settings value survives being written to the file and loaded back. */
  lemma ReadEncode(s: DashboardSettings)
    requires WellFormed(s)
    ensures Read(Parsed(Encode(s))) == s
  {
    var raw := Encode(s);
    EncodeFields(s, raw);
    EncodeFlags(s, raw);
    EncodeGradient(s, raw);
  }

  lemma EncodeFields(s: DashboardSettings, raw: Json)
    requires WellFormed(s) && raw == Encode(s)
    ensures StringOr(Get(raw, "name"), DefaultName) == s.name
    ensures StringOr(Get(raw, "subtitle"), DefaultSubtitle) == s.subtitle
    ensures StringOr(Get(raw, "logoIcon"), DefaultLogoIcon) == s.logoIcon
    ensures Get(raw, "repoUrl") == (if s.repoUrl.Some? then Some(JStr(s.repoUrl.value)) else Some(JNull))
    ensures Get(raw, "accentColor") == Some(JStr(s.accentColor))
    ensures Get(raw, "refreshInterval") == Some(JNum(s.refreshInterval))
    ensures Get(raw, "agents") == (if s.agents.Some? then Some(JArr(s.agents.value)) else Some(JNull))
  {
  }

  lemma EncodeFlags(s: DashboardSettings, raw: Json)
    requires raw == Encode(s)
    ensures Get(raw, "theme") == Some(JStr("light")) <==> s.theme == Light
    ensures Get(raw, "cardDensity") == Some(JStr("compact")) <==> s.cardDensity == Compact
    ensures Get(raw, "timeDisplay") == Some(JStr("local")) <==> s.timeDisplay == Local
    ensures Get(raw, "showMetricsPanel") == Some(JBool(s.showMetricsPanel))
    ensures Get(raw, "showTokenPanel") == Some(JBool(s.showTokenPanel))
  {
  }

  lemma EncodeGradient(s: DashboardSettings, raw: Json)
    requires raw == Encode(s)
    ensures StringOr(GetOptional(Get(raw, "backgroundGradient"), "topLeft"), DefaultGradient.topLeft)
      == s.backgroundGradient.topLeft
    ensures StringOr(GetOptional(Get(raw, "backgroundGradient"), "bottomRight"), DefaultGradient.bottomRight)
      == s.backgroundGradient.bottomRight
  {
  }

  /** An empty settings object loads as the defaults, and the defaults are well-formed. */
  lemma EmptyObjectIsDefaults(raw: Json)
    requires raw == JObj(map[])
    ensures Read(Parsed(raw)) == Defaults && WellFormed(Defaults)
  {
    assert Accent(None) == "green";
  }

  /** Loading a settings file twice gives what loading it once gave. */
  lemma ReadIdempotent(file: SettingsFile)
    ensures Read(Parsed(Encode(Read(file)))) == Read(file)
  {
    ReadEncode(Read(file));
  }

  /**
   * The module-level `_cached` and `_cachedAt`. A value younger than
   * `CACHE_TTL` is served as it is; otherwise the file is read again and
   * the time of the read recorded.
   */
  class SettingsCache {
    var cached: Option<DashboardSettings>
    var cachedAt: int

    /** Every value the cache holds came from a load. */
    predicate Valid()
      reads this
    {
      cached.Some? ==> WellFormed(cached.value)
    }

    constructor()
      ensures cached == None && cachedAt == 0
      ensures Valid()
    {
      cached := None;
      cachedAt := 0;
    }

    /** `_cached && (now - _cachedAt) < CACHE_TTL` */
    predicate Fresh(now: int)
      reads this
    {
      cached.Some? && now - cachedAt < CacheTtl
    }

    /** `loadSettings()` at time `now`, `file` being the settings file at that moment. */
    method Load(now: int, file: SettingsFile) returns (s: DashboardSettings)
      requires Valid()
      modifies this
      ensures Valid() && WellFormed(s) && cached == Some(s)
      ensures old(Fresh(now)) ==> s == old(cached.value) && cachedAt == old(cachedAt)
      ensures !old(Fresh(now)) ==> s == Read(file) && cachedAt == now
    {
      if cached.Some? && now - cachedAt < CacheTtl {
        return cached.value;
      }
      match file {
        case Missing =>
          s := Defaults;
        case Unparseable =>
          s := Defaults;
        case Parsed(raw) =>
          if raw.JNull? {
            s := Defaults;
          } else {
            s := Coerce(raw);
          }
      }
      cached := Some(s);
      cachedAt := now;
    }
  }
}
