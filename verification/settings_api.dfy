/**
 * The settings endpoints of the HTTP API: GET /api/settings projects the
 * published configuration onto sixteen flat JSON keys, and POST /api/settings
 * merges such a map back into it and saves the result.
 */
module SettingsApi {
  import opened Wrappers
  import opened Text
  import opened Json
  import opened ConfigTypes
  import ConfigLoader

  // ---------------------------------------------------------------------------
  // The sixteen settings keys
  // ---------------------------------------------------------------------------

  datatype SettingKey =
    | DownloadPath | FilenameFormat | AudioFormat
    | EmbedLyrics | EmbedMaxQualityCover | TrackNumber | UseAlbumTrackNumber | UseFirstArtistOnly | AllowFallback
    | DefaultService | TidalApiUrl | UseSpotFetchApi | SpotFetchApiUrl
    | Theme | ThemeMode | FontFamily

  /** The JSON key the frontend uses for each setting. */
  function KeyName(k: SettingKey): string {
    match k
    case DownloadPath => "downloadPath"
    case FilenameFormat => "filenameFormat"
    case AudioFormat => "audioFormat"
    case EmbedLyrics => "embedLyrics"
    case EmbedMaxQualityCover => "embedMaxQualityCover"
    case TrackNumber => "trackNumber"
    case UseAlbumTrackNumber => "useAlbumTrackNumber"
    case UseFirstArtistOnly => "useFirstArtistOnly"
    case AllowFallback => "allowFallback"
    case DefaultService => "defaultService"
    case TidalApiUrl => "tidalAPIUrl"
    case UseSpotFetchApi => "useSpotFetchAPI"
    case SpotFetchApiUrl => "spotFetchAPIUrl"
    case Theme => "theme"
    case ThemeMode => "themeMode"
    case FontFamily => "fontFamily"
  }

  /** The setting a JSON key names, if it names one: the inverse of KeyName. */
  function KeyFor(name: string): (k: Option<SettingKey>)
    ensures k.Some? ==> KeyName(k.value) == name
  {
    if name == "downloadPath" then Some(DownloadPath)
    else if name == "filenameFormat" then Some(FilenameFormat)
    else if name == "audioFormat" then Some(AudioFormat)
    else if name == "embedLyrics" then Some(EmbedLyrics)
    else if name == "embedMaxQualityCover" then Some(EmbedMaxQualityCover)
    else if name == "trackNumber" then Some(TrackNumber)
    else if name == "useAlbumTrackNumber" then Some(UseAlbumTrackNumber)
    else if name == "useFirstArtistOnly" then Some(UseFirstArtistOnly)
    else if name == "allowFallback" then Some(AllowFallback)
    else if name == "defaultService" then Some(DefaultService)
    else if name == "tidalAPIUrl" then Some(TidalApiUrl)
    else if name == "useSpotFetchAPI" then Some(UseSpotFetchApi)
    else if name == "spotFetchAPIUrl" then Some(SpotFetchApiUrl)
    else if name == "theme" then Some(Theme)
    else if name == "themeMode" then Some(ThemeMode)
    else if name == "fontFamily" then Some(FontFamily)
    else None
  }

  lemma KeyForKeyName(k: SettingKey)
    ensures KeyFor(KeyName(k)) == Some(k)
  {
    if k.DownloadPath? || k.FilenameFormat? || k.AudioFormat? || k.EmbedLyrics? {
      DownloadKeyNamesFound(k);
    } else if k.EmbedMaxQualityCover? || k.TrackNumber? || k.UseAlbumTrackNumber? || k.UseFirstArtistOnly? {
      FlagsKeyNamesFound(k);
    } else if k.AllowFallback? || k.DefaultService? || k.TidalApiUrl? || k.UseSpotFetchApi? {
      ServicesKeyNamesFound(k);
    } else {
      AppearanceKeyNamesFound(k);
    }
  }

  lemma DownloadKeyNamesFound(k: SettingKey)
    requires k.DownloadPath? || k.FilenameFormat? || k.AudioFormat? || k.EmbedLyrics?
    ensures KeyFor(KeyName(k)) == Some(k)
  {
  }

  lemma FlagsKeyNamesFound(k: SettingKey)
    requires k.EmbedMaxQualityCover? || k.TrackNumber? || k.UseAlbumTrackNumber? || k.UseFirstArtistOnly?
    ensures KeyFor(KeyName(k)) == Some(k)
  {
  }

  lemma ServicesKeyNamesFound(k: SettingKey)
    requires k.AllowFallback? || k.DefaultService? || k.TidalApiUrl? || k.UseSpotFetchApi?
    ensures KeyFor(KeyName(k)) == Some(k)
  {
  }

  lemma AppearanceKeyNamesFound(k: SettingKey)
    requires k.SpotFetchApiUrl? || k.Theme? || k.ThemeMode? || k.FontFamily?
    ensures KeyFor(KeyName(k)) == Some(k)
  {
  }

  /** The flags take JSON booleans; every other setting takes a JSON string. */
  predicate IsFlag(k: SettingKey) {
    match k
    case EmbedLyrics | EmbedMaxQualityCover | TrackNumber | UseAlbumTrackNumber | UseFirstArtistOnly
       | AllowFallback | UseSpotFetchApi => true
    case _ => false
  }

  /** The Go type assertion `v.(string)` or `v.(bool)` that the setting's update is guarded by. */
  predicate Accepts(k: SettingKey, v: JsonValue) {
    if IsFlag(k) then v.JBool? else v.JString?
  }

  /** The field behind a setting, as the JSON value GetSettings reports for it. */
  function Read(c: Config, k: SettingKey): (v: JsonValue)
    ensures Accepts(k, v)
  {
    match k
    case DownloadPath => JString(c.download.path)
    case FilenameFormat => JString(c.download.filenameFormat)
    case AudioFormat => JString(c.download.audioFormat)
    case EmbedLyrics => JBool(c.download.embedLyrics)
    case EmbedMaxQualityCover => JBool(c.download.embedMaxQualityCover)
    case TrackNumber => JBool(c.download.trackNumber)
    case UseAlbumTrackNumber => JBool(c.download.useAlbumTrackNumber)
    case UseFirstArtistOnly => JBool(c.download.useFirstArtistOnly)
    case AllowFallback => JBool(c.download.allowFallback)
    case DefaultService => JString(c.services.defaultService)
    case TidalApiUrl => JString(c.services.tidalApiUrl)
    case UseSpotFetchApi => JBool(c.services.useSpotFetchApi)
    case SpotFetchApiUrl => JString(c.services.spotFetchApiUrl)
    case Theme => JString(c.ui.theme)
    case ThemeMode => JString(c.ui.themeMode)
    case FontFamily => JString(c.ui.fontFamily)
  }

  // ---------------------------------------------------------------------------
  // GetSettings
  // ---------------------------------------------------------------------------

  /** The sixteen JSON keys of the settings map. */
  const SettingNames: set<string> := {
    "downloadPath", "filenameFormat", "audioFormat", "embedLyrics", "embedMaxQualityCover", "trackNumber",
    "useAlbumTrackNumber", "useFirstArtistOnly", "allowFallback", "defaultService", "tidalAPIUrl",
    "useSpotFetchAPI", "spotFetchAPIUrl", "theme", "themeMode", "fontFamily"}

  lemma SettingNamesNamed(k: SettingKey)
    ensures KeyName(k) in SettingNames
  {
  }

  /**
   * The settings map GetSettings answers with: each of the sixteen keys
   * mapped to its field's value.
   */
  function SettingsOf(c: Config): (m: map<string, JsonValue>)
    ensures forall name :: name in m ==> name in SettingNames && KeyFor(name).Some?
  {
    map name | name in SettingNames && KeyFor(name).Some? :: Read(c, KeyFor(name).value)
  }

  /** Every setting appears in the projection, under its own key, with its field's value. */
  lemma {:induction false} SettingsOfReads(c: Config, k: SettingKey)
    ensures KeyName(k) in SettingsOf(c) && SettingsOf(c)[KeyName(k)] == Read(c, k)
  {
    SettingNamesNamed(k);
    KeyForKeyName(k);
  }

  /** GetSettings: reads the published configuration (config.Get panics before Load). */
  method GetSettings(store: ConfigLoader.ConfigStore) returns (settings: map<string, JsonValue>)
    requires store.global != null
    ensures forall k :: KeyName(k) in settings && settings[KeyName(k)] == Read(store.global.config, k)
    ensures forall name :: name in settings ==> KeyFor(name).Some?
  {
    var cfg := store.Get();
    settings := SettingsOf(cfg.config);
    forall k ensures KeyName(k) in settings && settings[KeyName(k)] == Read(cfg.config, k) {
      SettingsOfReads(cfg.config, k);
    }
  }

  // ---------------------------------------------------------------------------
  // The SaveSettings merge
  // ---------------------------------------------------------------------------

  /** The string under `key`, when present and a string; otherwise `current`. */
  function StringOr(settings: map<string, JsonValue>, key: string, current: string): string {
    if key in settings && settings[key].JString? then settings[key].s else current
  }

  /** The boolean under `key`, when present and a boolean; otherwise `current`. */
  function BoolOr(settings: map<string, JsonValue>, key: string, current: bool): bool {
    if key in settings && settings[key].JBool? then settings[key].b else current
  }

  /** Whether the request carries setting `k` with the expected type (Go's `val, ok := settings[key].(T)`). */
  predicate Carries(settings: map<string, JsonValue>, k: SettingKey) {
    KeyName(k) in settings && Accepts(k, settings[KeyName(k)])
  }

  /** What the merge leaves in setting `k`: the request's value when it carries one, else the current value. */
  function Pick(c: Config, settings: map<string, JsonValue>, k: SettingKey): JsonValue {
    if Carries(settings, k) then settings[KeyName(k)] else Read(c, k)
  }

  function MergedDownload(d: DownloadConfig, settings: map<string, JsonValue>): DownloadConfig {
    DownloadConfig(
      StringOr(settings, "downloadPath", d.path),
      StringOr(settings, "filenameFormat", d.filenameFormat),
      StringOr(settings, "audioFormat", d.audioFormat),
      BoolOr(settings, "embedLyrics", d.embedLyrics),
      BoolOr(settings, "embedMaxQualityCover", d.embedMaxQualityCover),
      BoolOr(settings, "trackNumber", d.trackNumber),
      BoolOr(settings, "useAlbumTrackNumber", d.useAlbumTrackNumber),
      BoolOr(settings, "useFirstArtistOnly", d.useFirstArtistOnly),
      BoolOr(settings, "allowFallback", d.allowFallback))
  }

  function MergedServices(s: ServicesConfig, settings: map<string, JsonValue>): ServicesConfig {
    ServicesConfig(
      StringOr(settings, "defaultService", s.defaultService),
      StringOr(settings, "tidalAPIUrl", s.tidalApiUrl),
      BoolOr(settings, "useSpotFetchAPI", s.useSpotFetchApi),
      StringOr(settings, "spotFetchAPIUrl", s.spotFetchApiUrl))
  }

  function MergedUI(u: UIConfig, settings: map<string, JsonValue>): UIConfig {
    UIConfig(
      StringOr(settings, "theme", u.theme),
      StringOr(settings, "themeMode", u.themeMode),
      StringOr(settings, "fontFamily", u.fontFamily))
  }

  /**
   * The configuration after merging a settings map, section by section: every
   * setting takes the request's value when it has the expected type; the
   * server and database sections are not reachable from the map.
   */
  function Merged(c: Config, settings: map<string, JsonValue>): (r: Config)
    ensures r.server == c.server && r.database == c.database
  {
    c.(download := MergedDownload(c.download, settings),
       services := MergedServices(c.services, settings),
       ui := MergedUI(c.ui, settings))
  }

  /**
   * Per setting: the merged field holds the request's value when it is present
   * with the right type, and its previous value otherwise (absent key, or a
   * wrong-typed value).
   */
  lemma {:induction false} MergedPicks(c: Config, settings: map<string, JsonValue>, k: SettingKey)
    ensures Read(Merged(c, settings), k) == Pick(c, settings, k)
  {
    match k
    case DownloadPath =>
    case FilenameFormat =>
    case AudioFormat =>
    case EmbedLyrics =>
    case EmbedMaxQualityCover =>
    case TrackNumber =>
    case UseAlbumTrackNumber =>
    case UseFirstArtistOnly =>
    case AllowFallback =>
    case DefaultService =>
    case TidalApiUrl =>
    case UseSpotFetchApi =>
    case SpotFetchApiUrl =>
    case Theme =>
    case ThemeMode =>
    case FontFamily =>
  }

  /** Keys that name no setting have no effect on the merge. */
  lemma UnknownKeysIgnored(c: Config, settings: map<string, JsonValue>, name: string, v: JsonValue)
    requires name !in SettingNames
    ensures Merged(c, settings[name := v]) == Merged(c, settings)
  {
  }

  /** An empty request changes nothing. */
  lemma EmptyMergeIsIdentity(c: Config)
    ensures Merged(c, map[]) == c
  {
  }

  /** The update the handler makes for setting `k`: its field becomes the request's value if it carries one. */
  function Step(c: Config, settings: map<string, JsonValue>, k: SettingKey): Config {
    match k
    case DownloadPath => c.(download := c.download.(path := StringOr(settings, KeyName(k), c.download.path)))
    case FilenameFormat =>
      c.(download := c.download.(filenameFormat := StringOr(settings, KeyName(k), c.download.filenameFormat)))
    case AudioFormat => c.(download := c.download.(audioFormat := StringOr(settings, KeyName(k), c.download.audioFormat)))
    case EmbedLyrics => c.(download := c.download.(embedLyrics := BoolOr(settings, KeyName(k), c.download.embedLyrics)))
    case EmbedMaxQualityCover =>
      c.(download := c.download.(embedMaxQualityCover := BoolOr(settings, KeyName(k), c.download.embedMaxQualityCover)))
    case TrackNumber => c.(download := c.download.(trackNumber := BoolOr(settings, KeyName(k), c.download.trackNumber)))
    case UseAlbumTrackNumber =>
      c.(download := c.download.(useAlbumTrackNumber := BoolOr(settings, KeyName(k), c.download.useAlbumTrackNumber)))
    case UseFirstArtistOnly =>
      c.(download := c.download.(useFirstArtistOnly := BoolOr(settings, KeyName(k), c.download.useFirstArtistOnly)))
    case AllowFallback => c.(download := c.download.(allowFallback := BoolOr(settings, KeyName(k), c.download.allowFallback)))
    case DefaultService =>
      c.(services := c.services.(defaultService := StringOr(settings, KeyName(k), c.services.defaultService)))
    case TidalApiUrl => c.(services := c.services.(tidalApiUrl := StringOr(settings, KeyName(k), c.services.tidalApiUrl)))
    case UseSpotFetchApi =>
      c.(services := c.services.(useSpotFetchApi := BoolOr(settings, KeyName(k), c.services.useSpotFetchApi)))
    case SpotFetchApiUrl =>
      c.(services := c.services.(spotFetchApiUrl := StringOr(settings, KeyName(k), c.services.spotFetchApiUrl)))
    case Theme => c.(ui := c.ui.(theme := StringOr(settings, KeyName(k), c.ui.theme)))
    case ThemeMode => c.(ui := c.ui.(themeMode := StringOr(settings, KeyName(k), c.ui.themeMode)))
    case FontFamily => c.(ui := c.ui.(fontFamily := StringOr(settings, KeyName(k), c.ui.fontFamily)))
  }

  /** `c` with setting `k` replaced by the JSON value `v` (of the setting's type). */
  function Assign(c: Config, k: SettingKey, v: JsonValue): (r: Config)
    requires Accepts(k, v)
    ensures Read(r, k) == v
    ensures forall j :: j != k ==> Read(r, j) == Read(c, j)
    ensures r.server == c.server && r.database == c.database
  {
    match k
    case DownloadPath => c.(download := c.download.(path := v.s))
    case FilenameFormat => c.(download := c.download.(filenameFormat := v.s))
    case AudioFormat => c.(download := c.download.(audioFormat := v.s))
    case EmbedLyrics => c.(download := c.download.(embedLyrics := v.b))
    case EmbedMaxQualityCover => c.(download := c.download.(embedMaxQualityCover := v.b))
    case TrackNumber => c.(download := c.download.(trackNumber := v.b))
    case UseAlbumTrackNumber => c.(download := c.download.(useAlbumTrackNumber := v.b))
    case UseFirstArtistOnly => c.(download := c.download.(useFirstArtistOnly := v.b))
    case AllowFallback => c.(download := c.download.(allowFallback := v.b))
    case DefaultService => c.(services := c.services.(defaultService := v.s))
    case TidalApiUrl => c.(services := c.services.(tidalApiUrl := v.s))
    case UseSpotFetchApi => c.(services := c.services.(useSpotFetchApi := v.b))
    case SpotFetchApiUrl => c.(services := c.services.(spotFetchApiUrl := v.s))
    case Theme => c.(ui := c.ui.(theme := v.s))
    case ThemeMode => c.(ui := c.ui.(themeMode := v.s))
    case FontFamily => c.(ui := c.ui.(fontFamily := v.s))
  }

  datatype MergeError = DownloadPathTraversal

  /** The merge as a whole: a string `downloadPath` containing ".." rejects the request before any field is written. */
  function MergeOutcome(c: Config, settings: map<string, JsonValue>): (r: Result<Config, MergeError>)
    ensures r.Err? <==> "downloadPath" in settings && settings["downloadPath"].JString?
                        && HasDotDot(settings["downloadPath"].s)
    ensures r.Ok? ==> !HasDotDot(r.value.download.path) || r.value.download.path == c.download.path
  {
    if "downloadPath" in settings && settings["downloadPath"].JString? && HasDotDot(settings["downloadPath"].s)
    then Err(DownloadPathTraversal)
    else Ok(Merged(c, settings))
  }

  /**
   * Sending back what GetSettings returned changes nothing, unless the stored
   * download path itself contains "..", in which case the request is refused.
   */
  lemma {:induction false} GetThenSaveRoundTrip(c: Config)
    ensures MergeOutcome(c, SettingsOf(c)) == if HasDotDot(c.download.path) then Err(DownloadPathTraversal) else Ok(c)
  {
    var m := SettingsOf(c);
    SettingsOfReads(c, DownloadPath);
    forall k: SettingKey ensures Read(Merged(c, m), k) == Read(c, k) {
      MergedPicks(c, m, k);
      SettingsOfReads(c, k);
    }
    ReadsDetermine(Merged(c, m), c);
  }

  /** Two configurations with the same server and database sections and the same sixteen settings are equal. */
  lemma {:induction false} ReadsDetermine(c1: Config, c2: Config)
    requires c1.server == c2.server && c1.database == c2.database
    requires forall k: SettingKey :: Read(c1, k) == Read(c2, k)
    ensures c1 == c2
  {
    DownloadDetermined(c1, c2);
    ServicesDetermined(c1, c2);
    UIDetermined(c1, c2);
  }

  lemma DownloadDetermined(c1: Config, c2: Config)
    requires Read(c1, DownloadPath) == Read(c2, DownloadPath)
    requires Read(c1, FilenameFormat) == Read(c2, FilenameFormat)
    requires Read(c1, AudioFormat) == Read(c2, AudioFormat)
    requires Read(c1, EmbedLyrics) == Read(c2, EmbedLyrics)
    requires Read(c1, EmbedMaxQualityCover) == Read(c2, EmbedMaxQualityCover)
    requires Read(c1, TrackNumber) == Read(c2, TrackNumber)
    requires Read(c1, UseAlbumTrackNumber) == Read(c2, UseAlbumTrackNumber)
    requires Read(c1, UseFirstArtistOnly) == Read(c2, UseFirstArtistOnly)
    requires Read(c1, AllowFallback) == Read(c2, AllowFallback)
    ensures c1.download == c2.download
  {
  }

  lemma ServicesDetermined(c1: Config, c2: Config)
    requires Read(c1, DefaultService) == Read(c2, DefaultService)
    requires Read(c1, TidalApiUrl) == Read(c2, TidalApiUrl)
    requires Read(c1, UseSpotFetchApi) == Read(c2, UseSpotFetchApi)
    requires Read(c1, SpotFetchApiUrl) == Read(c2, SpotFetchApiUrl)
    ensures c1.services == c2.services
  {
  }

  lemma UIDetermined(c1: Config, c2: Config)
    requires Read(c1, Theme) == Read(c2, Theme)
    requires Read(c1, ThemeMode) == Read(c2, ThemeMode)
    requires Read(c1, FontFamily) == Read(c2, FontFamily)
    ensures c1.ui == c2.ui
  {
  }

  // ---------------------------------------------------------------------------
  // The SaveSettings handler
  // ---------------------------------------------------------------------------

  datatype SaveReply =
    | Saved               // 200 {"success": true}
    | InvalidSettingsFormat // 400
    | InvalidDownloadPath // 400
    | FailedToSave        // 500

  /** The HTTP status of each reply. */
  function Status(r: SaveReply): (code: int)
    ensures code == 200 <==> r == Saved
  {
    match r
    case Saved => 200
    case InvalidSettingsFormat => 400
    case InvalidDownloadPath => 400
    case FailedToSave => 500
  }

  /**
   * Binding the request body into `map[string]interface{}`: an object gives its
   * members, `null` gives an empty (nil) map, anything else is a bind error.
   */
  function BindSettings(body: JsonValue): (m: Option<map<string, JsonValue>>)
    ensures m.None? <==> !body.JObject? && !body.JNull?
  {
    match body
    case JObject(fields) => Some(fields)
    case JNull => Some(map[])
    case _ => None
  }

  /** `if val, ok := settings[key].(T); ok { field = val }`, for the field of setting `k`. */
  method ApplySetting(cfg: ConfigRef, settings: map<string, JsonValue>, k: SettingKey)
    modifies cfg
    ensures cfg.config == Step(old(cfg.config), settings, k)
  {
    if KeyName(k) in settings && Accepts(k, settings[KeyName(k)]) {
      cfg.config := Assign(cfg.config, k, settings[KeyName(k)]);
    }
  }

  /** The download-section string updates and the two embedding flags, in the handler's order. */
  method MergeDownloadFormats(cfg: ConfigRef, settings: map<string, JsonValue>)
    modifies cfg
    ensures var d := old(cfg.config).download;
            cfg.config == old(cfg.config).(download := d.(
              filenameFormat := StringOr(settings, "filenameFormat", d.filenameFormat),
              audioFormat := StringOr(settings, "audioFormat", d.audioFormat),
              embedLyrics := BoolOr(settings, "embedLyrics", d.embedLyrics),
              embedMaxQualityCover := BoolOr(settings, "embedMaxQualityCover", d.embedMaxQualityCover)))
  {
    ApplySetting(cfg, settings, FilenameFormat);
    ApplySetting(cfg, settings, AudioFormat);
    ApplySetting(cfg, settings, EmbedLyrics);
    ApplySetting(cfg, settings, EmbedMaxQualityCover);
  }

  /** The track-numbering, artist and fallback flags, in the handler's order. */
  method MergeDownloadNumbering(cfg: ConfigRef, settings: map<string, JsonValue>)
    modifies cfg
    ensures var d := old(cfg.config).download;
            cfg.config == old(cfg.config).(download := d.(
              trackNumber := BoolOr(settings, "trackNumber", d.trackNumber),
              useAlbumTrackNumber := BoolOr(settings, "useAlbumTrackNumber", d.useAlbumTrackNumber),
              useFirstArtistOnly := BoolOr(settings, "useFirstArtistOnly", d.useFirstArtistOnly),
              allowFallback := BoolOr(settings, "allowFallback", d.allowFallback)))
  {
    ApplySetting(cfg, settings, TrackNumber);
    ApplySetting(cfg, settings, UseAlbumTrackNumber);
    ApplySetting(cfg, settings, UseFirstArtistOnly);
    ApplySetting(cfg, settings, AllowFallback);
  }

  /** The services-section updates, in the handler's order. */
  method MergeServices(cfg: ConfigRef, settings: map<string, JsonValue>)
    modifies cfg
    ensures cfg.config == old(cfg.config).(services := MergedServices(old(cfg.config).services, settings))
  {
    ApplySetting(cfg, settings, DefaultService);
    ApplySetting(cfg, settings, TidalApiUrl);
    ApplySetting(cfg, settings, UseSpotFetchApi);
    ApplySetting(cfg, settings, SpotFetchApiUrl);
  }

  /** The UI-section updates, in the handler's order. */
  method MergeUI(cfg: ConfigRef, settings: map<string, JsonValue>)
    modifies cfg
    ensures cfg.config == old(cfg.config).(ui := MergedUI(old(cfg.config).ui, settings))
  {
    ApplySetting(cfg, settings, Theme);
    ApplySetting(cfg, settings, ThemeMode);
    ApplySetting(cfg, settings, FontFamily);
  }

  /** Every update after downloadPath, in the handler's order. */
  method MergeRest(cfg: ConfigRef, settings: map<string, JsonValue>)
    modifies cfg
    ensures var c := old(cfg.config);
            cfg.config == c.(download := MergedDownload(c.download, settings).(path := c.download.path),
                             services := MergedServices(c.services, settings),
                             ui := MergedUI(c.ui, settings))
  {
    MergeDownloadFormats(cfg, settings);
    MergeDownloadNumbering(cfg, settings);
    MergeServices(cfg, settings);
    MergeUI(cfg, settings);
  }

  /**
   * Merges a settings map into `cfg` in place, in the handler's key order:
   * downloadPath first (refused, with nothing written, when it contains ".."),
   * then the other fifteen keys.
   */
  method MergeSettings(cfg: ConfigRef, settings: map<string, JsonValue>) returns (ok: bool)
    modifies cfg
    ensures ok <==> MergeOutcome(old(cfg.config), settings).Ok?
    ensures cfg.config == if ok then Merged(old(cfg.config), settings) else old(cfg.config)
  {
    ghost var c := cfg.config;
    if "downloadPath" in settings && settings["downloadPath"].JString? {
      var val := settings["downloadPath"].s;
      if HasDotDot(val) {
        return false;
      }
      cfg.config := cfg.config.(download := cfg.config.download.(path := val));
    }
    assert cfg.config == c.(download := c.download.(path := StringOr(settings, "downloadPath", c.download.path)));
    MergeRest(cfg, settings);
    MergedInTwoSteps(c, settings);
    return true;
  }

  /** The merge as the handler performs it: downloadPath first, then the rest. */
  lemma MergedInTwoSteps(c: Config, settings: map<string, JsonValue>)
    ensures var first := c.(download := c.download.(path := StringOr(settings, "downloadPath", c.download.path)));
            Merged(c, settings)
            == first.(download := MergedDownload(first.download, settings).(path := first.download.path),
                      services := MergedServices(first.services, settings),
                      ui := MergedUI(first.ui, settings))
  {
  }

  /**
   * SaveSettings, as written: the merge writes straight into the configuration
   * that config.Get() returns, which is the published one, and only afterwards
   * does config.Save validate it. A request rejected by validation (or by the
   * write) therefore still leaves its changes in the published configuration.
   */
  method SaveSettings(store: ConfigLoader.ConfigStore, body: JsonValue, writeSucceeds: bool)
    returns (reply: SaveReply)
    requires store.global != null
    modifies store, store.global
    ensures store.global == old(store.global)
    ensures BindSettings(body).None? ==> reply == InvalidSettingsFormat && store.global.config == old(store.global.config)
    ensures BindSettings(body).Some? ==>
              match MergeOutcome(old(store.global.config), BindSettings(body).value)
              case Err(_) => reply == InvalidDownloadPath && store.global.config == old(store.global.config)
              case Ok(merged) =>
                && store.global.config == merged
                && (reply == Saved <==> ConfigLoader.IsValid(merged) && writeSucceeds)
                && (reply != Saved ==> reply == FailedToSave)
  {
    var settings := BindSettings(body);
    if settings.None? {
      return InvalidSettingsFormat;
    }
    var cfg := store.Get();
    var ok := MergeSettings(cfg, settings.value);
    if !ok {
      return InvalidDownloadPath;
    }
    var saved := store.Save(cfg, writeSucceeds);
    if saved.Fail? {
      return FailedToSave;
    }
    return Saved;
  }

  /**
   * The defect SaveSettings exhibits: from a valid published configuration, a
   * request setting `themeMode` to "bogus" merges (it is a string) into a
   * configuration that validation rejects. SaveSettings answers 500 and leaves
   * exactly that invalid configuration published.
   */
  lemma {:induction false} RejectedSaveLeavesInvalidConfig(c: Config)
    requires ConfigLoader.IsValid(c)
    ensures var request := JObject(map["themeMode" := JString("bogus")]);
            && BindSettings(request).Some?
            && MergeOutcome(c, BindSettings(request).value).Ok?
            && ConfigLoader.Validate(MergeOutcome(c, BindSettings(request).value).value)
               == Fail(ConfigLoader.InvalidThemeMode("bogus"))
  {
    var merged := Merged(c, map["themeMode" := JString("bogus")]);
    assert merged.ui.themeMode == "bogus";
    assert merged.server == c.server && merged.download.path == c.download.path;
    assert merged.download.audioFormat == c.download.audioFormat;
    assert merged.services.defaultService == c.services.defaultService;
  }

  /**
   * SaveSettings with the evident intent: the merge goes into a copy, and the
   * copy is published only when config.Save accepts it. A rejected request
   * leaves the published configuration exactly as it was, so a valid published
   * configuration stays valid.
   */
  method SaveSettingsAtomic(store: ConfigLoader.ConfigStore, body: JsonValue, writeSucceeds: bool)
    returns (reply: SaveReply)
    requires store.global != null
    modifies store
    ensures store.global != null
    ensures old(store.PublishedValid()) ==> store.PublishedValid()
    ensures reply != Saved ==> store.global == old(store.global) && store.global.config == old(store.global.config)
    ensures BindSettings(body).None? ==> reply == InvalidSettingsFormat
    ensures BindSettings(body).Some? ==>
              match MergeOutcome(old(store.global.config), BindSettings(body).value)
              case Err(_) => reply == InvalidDownloadPath
              case Ok(merged) =>
                && (reply == Saved <==> ConfigLoader.IsValid(merged) && writeSucceeds)
                && (reply == Saved ==> store.global.config == merged)
                && (reply != Saved ==> reply == FailedToSave)
  {
    var settings := BindSettings(body);
    if settings.None? {
      return InvalidSettingsFormat;
    }
    var current := store.Get();
    var draft := new ConfigRef(current.config);
    var ok := MergeSettings(draft, settings.value);
    if !ok {
      return InvalidDownloadPath;
    }
    var saved := store.Save(draft, writeSucceeds);
    if saved.Fail? {
      return FailedToSave;
    }
    return Saved;
  }
}
