/**
 * Loading, defaulting, environment overrides and validation of the
 * configuration, and the package-level `globalConfig` pointer that only ever
 * receives a configuration that passed validation through `Load` or `Save`.
 */
module ConfigLoader {
  import opened Wrappers
  import opened Text
  import opened ConfigTypes

  // ---------------------------------------------------------------------------
  // Defaults
  // ---------------------------------------------------------------------------

  const DefaultHost: string := "0.0.0.0"
  const DefaultPort: int := 8080
  const DefaultCorsOrigins: seq<string> := ["http://localhost:5173", "http://localhost:8080"]
  const FallbackDownloadPath: string := "./downloads"
  const DefaultFilenameFormat: string := "title-artist"
  const DefaultAudioFormat: string := "LOSSLESS"
  const DefaultService: string := "tidal"
  const DefaultTheme: string := "default"
  const DefaultThemeMode: string := "auto"
  const DefaultFontFamily: string := "Inter"
  const DefaultDatabasePath: string := "SpotiFLAC"

  /**
   * The default download directory: `Music` under the home directory, or
   * `./downloads` when the home directory cannot be determined (`home` is
   * `os.UserHomeDir()`, None standing for its error).
   */
  function DefaultDownloadPath(home: Option<string>): (p: string)
    ensures p != ""
  {
    match home
    case Some(h) => JoinPath(h, "Music")
    case None => FallbackDownloadPath
  }

  function OrDefault(s: string, default: string): string {
    if s == "" then default else s
  }

  /** Every field that is already set (non-empty, non-zero) is carried over unchanged. */
  predicate KeepsSetFields(c: Config, r: Config) {
    && (c.server.host != "" ==> r.server.host == c.server.host)
    && (c.server.port != 0 ==> r.server.port == c.server.port)
    && (c.server.corsOrigins != [] ==> r.server.corsOrigins == c.server.corsOrigins)
    && (c.download.path != "" ==> r.download.path == c.download.path)
    && (c.download.filenameFormat != "" ==> r.download.filenameFormat == c.download.filenameFormat)
    && (c.download.audioFormat != "" ==> r.download.audioFormat == c.download.audioFormat)
    && (c.services.defaultService != "" ==> r.services.defaultService == c.services.defaultService)
    && (c.ui.theme != "" ==> r.ui.theme == c.ui.theme)
    && (c.ui.themeMode != "" ==> r.ui.themeMode == c.ui.themeMode)
    && (c.ui.fontFamily != "" ==> r.ui.fontFamily == c.ui.fontFamily)
    && (c.database.path != "" ==> r.database.path == c.database.path)
    // fields that have no default are never touched
    && r.download == c.download.(path := r.download.path, filenameFormat := r.download.filenameFormat,
                                 audioFormat := r.download.audioFormat)
    && r.services == c.services.(defaultService := r.services.defaultService)
  }

  /** Every empty field received its documented default. */
  predicate FillsEmptyFields(c: Config, r: Config, home: Option<string>) {
    && (c.server.host == "" ==> r.server.host == DefaultHost)
    && (c.server.port == 0 ==> r.server.port == DefaultPort)
    && (c.server.corsOrigins == [] ==> r.server.corsOrigins == DefaultCorsOrigins)
    && (c.download.path == "" ==> r.download.path == DefaultDownloadPath(home))
    && (c.download.filenameFormat == "" ==> r.download.filenameFormat == DefaultFilenameFormat)
    && (c.download.audioFormat == "" ==> r.download.audioFormat == DefaultAudioFormat)
    && (c.services.defaultService == "" ==> r.services.defaultService == DefaultService)
    && (c.ui.theme == "" ==> r.ui.theme == DefaultTheme)
    && (c.ui.themeMode == "" ==> r.ui.themeMode == DefaultThemeMode)
    && (c.ui.fontFamily == "" ==> r.ui.fontFamily == DefaultFontFamily)
    && (c.database.path == "" ==> r.database.path == DefaultDatabasePath)
  }

  /** The fields that applyDefaults guarantees to be set afterwards. */
  predicate DefaultedFieldsSet(r: Config) {
    && r.server.host != "" && r.server.port != 0 && r.server.corsOrigins != []
    && r.download.path != "" && r.download.filenameFormat != "" && r.download.audioFormat != ""
    && r.services.defaultService != ""
    && r.ui.theme != "" && r.ui.themeMode != "" && r.ui.fontFamily != ""
    && r.database.path != ""
  }

  function DefaultedServer(s: ServerConfig): ServerConfig {
    ServerConfig(
      OrDefault(s.host, DefaultHost),
      if s.port == 0 then DefaultPort else s.port,
      if s.corsOrigins == [] then DefaultCorsOrigins else s.corsOrigins)
  }

  function DefaultedDownload(d: DownloadConfig, home: Option<string>): DownloadConfig {
    d.(path := if d.path == "" then DefaultDownloadPath(home) else d.path,
       filenameFormat := OrDefault(d.filenameFormat, DefaultFilenameFormat),
       audioFormat := OrDefault(d.audioFormat, DefaultAudioFormat))
  }

  function DefaultedUI(u: UIConfig): UIConfig {
    UIConfig(OrDefault(u.theme, DefaultTheme), OrDefault(u.themeMode, DefaultThemeMode),
             OrDefault(u.fontFamily, DefaultFontFamily))
  }

  /** The configuration as applyDefaults leaves it. */
  function Defaulted(c: Config, home: Option<string>): (r: Config)
    ensures KeepsSetFields(c, r)
    ensures FillsEmptyFields(c, r, home)
    ensures DefaultedFieldsSet(r)
  {
    Config(
      DefaultedServer(c.server),
      DefaultedDownload(c.download, home),
      c.services.(defaultService := OrDefault(c.services.defaultService, DefaultService)),
      DefaultedUI(c.ui),
      DatabaseConfig(OrDefault(c.database.path, DefaultDatabasePath)))
  }

  /** applyDefaults: fills the empty fields of `*cfg` one by one, section by section. */
  method ApplyDefaults(cfg: ConfigRef, home: Option<string>)
    modifies cfg
    ensures cfg.config == Defaulted(old(cfg.config), home)
  {
    ApplyServerDefaults(cfg);
    ApplyDownloadDefaults(cfg, home);
    ApplyRemainingDefaults(cfg);
  }

  method ApplyServerDefaults(cfg: ConfigRef)
    modifies cfg
    ensures cfg.config == old(cfg.config).(server := DefaultedServer(old(cfg.config).server))
  {
    if cfg.config.server.host == "" {
      cfg.config := cfg.config.(server := cfg.config.server.(host := DefaultHost));
    }
    if cfg.config.server.port == 0 {
      cfg.config := cfg.config.(server := cfg.config.server.(port := DefaultPort));
    }
    if |cfg.config.server.corsOrigins| == 0 {
      cfg.config := cfg.config.(server := cfg.config.server.(corsOrigins := DefaultCorsOrigins));
    }
  }

  method ApplyDownloadDefaults(cfg: ConfigRef, home: Option<string>)
    modifies cfg
    ensures cfg.config == old(cfg.config).(download := DefaultedDownload(old(cfg.config).download, home))
  {
    ApplyDownloadPathDefault(cfg, home);
    if cfg.config.download.filenameFormat == "" {
      cfg.config := cfg.config.(download := cfg.config.download.(filenameFormat := DefaultFilenameFormat));
    }
    if cfg.config.download.audioFormat == "" {
      cfg.config := cfg.config.(download := cfg.config.download.(audioFormat := DefaultAudioFormat));
    }
  }

  /** The download path default: ~/Music, or ./downloads when the home directory is unknown. */
  method ApplyDownloadPathDefault(cfg: ConfigRef, home: Option<string>)
    modifies cfg
    ensures cfg.config == old(cfg.config).(download := old(cfg.config).download.(
              path := if old(cfg.config).download.path == "" then DefaultDownloadPath(home)
                      else old(cfg.config).download.path))
  {
    if cfg.config.download.path == "" {
      var path := if home.Some? then JoinPath(home.value, "Music") else FallbackDownloadPath;
      cfg.config := cfg.config.(download := cfg.config.download.(path := path));
    }
  }

  /** The services, UI and database defaults. */
  method ApplyRemainingDefaults(cfg: ConfigRef)
    modifies cfg
    ensures cfg.config == old(cfg.config).(
              services := old(cfg.config).services.(
                defaultService := OrDefault(old(cfg.config).services.defaultService, DefaultService)),
              ui := DefaultedUI(old(cfg.config).ui),
              database := DatabaseConfig(OrDefault(old(cfg.config).database.path, DefaultDatabasePath)))
  {
    if cfg.config.services.defaultService == "" {
      cfg.config := cfg.config.(services := cfg.config.services.(defaultService := DefaultService));
    }
    if cfg.config.ui.theme == "" {
      cfg.config := cfg.config.(ui := cfg.config.ui.(theme := DefaultTheme));
    }
    if cfg.config.ui.themeMode == "" {
      cfg.config := cfg.config.(ui := cfg.config.ui.(themeMode := DefaultThemeMode));
    }
    if cfg.config.ui.fontFamily == "" {
      cfg.config := cfg.config.(ui := cfg.config.ui.(fontFamily := DefaultFontFamily));
    }
    if cfg.config.database.path == "" {
      cfg.config := cfg.config.(database := cfg.config.database.(path := DefaultDatabasePath));
    }
  }

  /** Applying the defaults a second time changes nothing. */
  lemma DefaultedIdempotent(c: Config, home: Option<string>)
    ensures Defaulted(Defaulted(c, home), home) == Defaulted(c, home)
  {
  }

  // ---------------------------------------------------------------------------
  // Environment overrides
  // ---------------------------------------------------------------------------

  const PortVariable: string := "SPOTIFLAC_SERVER_PORT"
  const HostVariable: string := "SPOTIFLAC_SERVER_HOST"
  const DownloadPathVariable: string := "SPOTIFLAC_DOWNLOAD_PATH"
  const ServiceVariable: string := "SPOTIFLAC_DEFAULT_SERVICE"

  /** `os.Getenv`: an unset variable reads as the empty string. */
  function Getenv(env: map<string, string>, name: string): string {
    if name in env then env[name] else ""
  }

  /** The configuration as applyEnvOverrides leaves it, for the environment `env`. */
  function WithEnvOverrides(c: Config, env: map<string, string>): (r: Config)
    // the port changes only to a value that parses as an integer
    ensures Atoi(Getenv(env, PortVariable)).Some? ==> r.server.port == Atoi(Getenv(env, PortVariable)).value
    ensures Atoi(Getenv(env, PortVariable)).None? ==> r.server.port == c.server.port
    // host, path and service take any non-empty value
    ensures r.server.host == (if Getenv(env, HostVariable) != "" then Getenv(env, HostVariable) else c.server.host)
    ensures r.download.path ==
              (if Getenv(env, DownloadPathVariable) != "" then Getenv(env, DownloadPathVariable) else c.download.path)
    ensures r.services.defaultService ==
              (if Getenv(env, ServiceVariable) != "" then Getenv(env, ServiceVariable) else c.services.defaultService)
    // nothing else changes
    ensures r.server.corsOrigins == c.server.corsOrigins
    ensures r.download == c.download.(path := r.download.path)
    ensures r.services == c.services.(defaultService := r.services.defaultService)
    ensures r.ui == c.ui && r.database == c.database
  {
    c.(server := OverriddenServer(c.server, env),
       download := OverriddenDownload(c.download, env),
       services := OverriddenServices(c.services, env))
  }

  function OverriddenServer(s: ServerConfig, env: map<string, string>): ServerConfig {
    var port := Atoi(Getenv(env, PortVariable));
    s.(port := if port.Some? then port.value else s.port,
       host := OrDefault(Getenv(env, HostVariable), s.host))
  }

  function OverriddenDownload(d: DownloadConfig, env: map<string, string>): DownloadConfig {
    d.(path := OrDefault(Getenv(env, DownloadPathVariable), d.path))
  }

  function OverriddenServices(s: ServicesConfig, env: map<string, string>): ServicesConfig {
    s.(defaultService := OrDefault(Getenv(env, ServiceVariable), s.defaultService))
  }

  /** applyEnvOverrides: applies the SPOTIFLAC_* variables to `*cfg` one by one. */
  method ApplyEnvOverrides(cfg: ConfigRef, env: map<string, string>)
    modifies cfg
    ensures cfg.config == WithEnvOverrides(old(cfg.config), env)
  {
    ApplyServerOverrides(cfg, env);
    ApplyStorageOverrides(cfg, env);
  }

  /** The port and host overrides. */
  method ApplyServerOverrides(cfg: ConfigRef, env: map<string, string>)
    modifies cfg
    ensures cfg.config == old(cfg.config).(server := OverriddenServer(old(cfg.config).server, env))
  {
    var port := Getenv(env, PortVariable);
    if port != "" {
      var p := Atoi(port);
      if p.Some? {
        cfg.config := cfg.config.(server := cfg.config.server.(port := p.value));
      }
    }
    var host := Getenv(env, HostVariable);
    if host != "" {
      cfg.config := cfg.config.(server := cfg.config.server.(host := host));
    }
  }

  /** The download path and default service overrides. */
  method ApplyStorageOverrides(cfg: ConfigRef, env: map<string, string>)
    modifies cfg
    ensures cfg.config == old(cfg.config).(download := OverriddenDownload(old(cfg.config).download, env),
                                           services := OverriddenServices(old(cfg.config).services, env))
  {
    var path := Getenv(env, DownloadPathVariable);
    if path != "" {
      cfg.config := cfg.config.(download := cfg.config.download.(path := path));
    }
    var service := Getenv(env, ServiceVariable);
    if service != "" {
      cfg.config := cfg.config.(services := cfg.config.services.(defaultService := service));
    }
  }

  /** An environment without SPOTIFLAC_* variables leaves the configuration as it is. */
  lemma NoOverridesWithoutVariables(c: Config, env: map<string, string>)
    requires PortVariable !in env && HostVariable !in env
    requires DownloadPathVariable !in env && ServiceVariable !in env
    ensures WithEnvOverrides(c, env) == c
  {
  }

  /** SPOTIFLAC_SERVER_PORT set to the decimal spelling of a port selects that port. */
  lemma PortOverride(c: Config, env: map<string, string>, port: nat)
    requires port <= MaxInt64
    requires PortVariable in env && env[PortVariable] == Decimal(port)
    ensures WithEnvOverrides(c, env).server.port == port
  {
    AtoiDecimal(port);
  }

  // ---------------------------------------------------------------------------
  // Validation
  // ---------------------------------------------------------------------------

  datatype ConfigError =
    | PortOutOfRange
    | DownloadPathTraversal
    | InvalidAudioFormat(format: string)
    | InvalidDefaultService(service: string)
    | InvalidThemeMode(mode: string)

  const AudioFormats: set<string> := {"LOSSLESS", "6", "7", "27"}
  const Services: set<string> := {"tidal", "qobuz", "amazon"}
  const ThemeModes: set<string> := {"light", "dark", "auto"}

  /** Non-privileged TCP ports only. */
  predicate PortAllowed(c: Config) {
    1024 <= c.server.port <= 65535
  }

  /** The five rules of validate, as one predicate. */
  predicate IsValid(c: Config) {
    && PortAllowed(c)
    && !HasDotDot(c.download.path)
    && c.download.audioFormat in AudioFormats
    && c.services.defaultService in Services
    && c.ui.themeMode in ThemeModes
  }

  /**
   * validate: passes exactly when all five rules hold; otherwise reports the first
   * rule that fails, in the order port, path, audio format, service, theme mode.
   */
  function Validate(c: Config): (r: Outcome<ConfigError>)
    ensures r.Pass? <==> IsValid(c)
    ensures !PortAllowed(c) ==> r == Fail(PortOutOfRange)
    ensures PortAllowed(c) && HasDotDot(c.download.path) ==> r == Fail(DownloadPathTraversal)
    ensures PortAllowed(c) && !HasDotDot(c.download.path) && c.download.audioFormat !in AudioFormats
            ==> r == Fail(InvalidAudioFormat(c.download.audioFormat))
    ensures PortAllowed(c) && !HasDotDot(c.download.path) && c.download.audioFormat in AudioFormats
            && c.services.defaultService !in Services
            ==> r == Fail(InvalidDefaultService(c.services.defaultService))
    ensures PortAllowed(c) && !HasDotDot(c.download.path) && c.download.audioFormat in AudioFormats
            && c.services.defaultService in Services && c.ui.themeMode !in ThemeModes
            ==> r == Fail(InvalidThemeMode(c.ui.themeMode))
  {
    if c.server.port < 1024 || c.server.port > 65535 then Fail(PortOutOfRange)
    else if HasDotDot(c.download.path) then Fail(DownloadPathTraversal)
    else if c.download.audioFormat != "LOSSLESS" && c.download.audioFormat != "6"
         && c.download.audioFormat != "7" && c.download.audioFormat != "27"
    then Fail(InvalidAudioFormat(c.download.audioFormat))
    else if c.services.defaultService != "tidal" && c.services.defaultService != "qobuz"
         && c.services.defaultService != "amazon"
    then Fail(InvalidDefaultService(c.services.defaultService))
    else if c.ui.themeMode != "light" && c.ui.themeMode != "dark" && c.ui.themeMode != "auto"
    then Fail(InvalidThemeMode(c.ui.themeMode))
    else Pass
  }

  /** Theme, font family, host, CORS origins, URLs, flags and database path are unconstrained. */
  lemma ValidateIgnoresFreeFields(c: Config, server: ServerConfig, download: DownloadConfig,
                                  services: ServicesConfig, ui: UIConfig, database: DatabaseConfig)
    requires server.port == c.server.port && download.path == c.download.path
    requires download.audioFormat == c.download.audioFormat
    requires services.defaultService == c.services.defaultService && ui.themeMode == c.ui.themeMode
    ensures Validate(Config(server, download, services, ui, database)) == Validate(c)
  {
  }

  lemma {:induction false} NoDotDotInLiterals()
    ensures !HasDotDot("Music") && !HasDotDot(FallbackDownloadPath)
  {
    var s := FallbackDownloadPath;
    assert forall i :: 0 <= i < |s| - 1 ==> !(s[i] == '.' && s[i + 1] == '.') by {
      assert s == ['.', '/', 'd', 'o', 'w', 'n', 'l', 'o', 'a', 'd', 's'];
    }
  }

  /**
   * A configuration whose set fields already pass validation passes it after
   * applyDefaults, provided the home directory (when known) has no "..".
   */
  lemma {:induction false} DefaultedValid(c: Config, home: Option<string>)
    requires c.server.port == 0 || PortAllowed(c)
    requires c.download.path == "" ==> home.None? || !HasDotDot(home.value)
    requires !HasDotDot(c.download.path)
    requires c.download.audioFormat == "" || c.download.audioFormat in AudioFormats
    requires c.services.defaultService == "" || c.services.defaultService in Services
    requires c.ui.themeMode == "" || c.ui.themeMode in ThemeModes
    ensures Validate(Defaulted(c, home)).Pass?
  {
    NoDotDotInLiterals();
    if c.download.path == "" && home.Some? {
      JoinPathNoDotDot(home.value, "Music");
    }
  }

  /** A configuration file that sets nothing loads as a valid configuration. */
  lemma EmptyConfigDefaultsValid(home: Option<string>)
    requires home.None? || !HasDotDot(home.value)
    ensures Validate(Defaulted(EmptyConfig, home)).Pass?
  {
    assert !HasDotDot("");
    DefaultedValid(EmptyConfig, home);
  }

  // ---------------------------------------------------------------------------
  // Load, Get, Save and globalConfig
  // ---------------------------------------------------------------------------

  /** What Load makes of a parsed file before validating it. */
  function Prepared(parsed: Config, home: Option<string>, env: map<string, string>): Config {
    WithEnvOverrides(Defaulted(parsed, home), env)
  }

  datatype LoadError = ReadOrParseFailed | InvalidConfiguration(cause: ConfigError)

  datatype SaveError = CannotSaveInvalid(cause: ConfigError) | WriteFailed

  /** The config package's state: the `globalConfig` pointer, nil until a Load succeeds. */
  class ConfigStore {
    var global: ConfigRef?

    /** The configuration the rest of the program reads is one that passed validation. */
    ghost predicate PublishedValid()
      reads this, global
    {
      global != null ==> Validate(global.config).Pass?
    }

    constructor ()
      ensures global == null && PublishedValid()
    {
      global := null;
    }

    /**
     * Load: `parsed` is the outcome of reading and decoding the YAML file (None on a
     * read or parse error). Defaults, then overrides, then validation; only a valid
     * result is published, as a fresh pointer.
     */
    method Load(parsed: Option<Config>, home: Option<string>, env: map<string, string>)
      returns (r: Result<ConfigRef, LoadError>)
      modifies this
      ensures parsed.None? ==> r == Err(ReadOrParseFailed)
      ensures parsed.Some? ==>
                var prepared := Prepared(parsed.value, home, env);
                match Validate(prepared)
                case Fail(e) => r == Err(InvalidConfiguration(e))
                case Pass => r.Ok? && fresh(r.value) && r.value.config == prepared
      ensures r.Ok? ==> global == r.value && PublishedValid()
      ensures r.Err? ==> global == old(global)
    {
      if parsed.None? {
        return Err(ReadOrParseFailed);
      }
      var cfg := new ConfigRef(parsed.value);
      ApplyDefaults(cfg, home);
      ApplyEnvOverrides(cfg, env);
      var check := Validate(cfg.config);
      if check.Fail? {
        return Err(InvalidConfiguration(check.error));
      }
      global := cfg;
      return Ok(cfg);
    }

    /** Get: the published pointer; calling it before a successful Load panics. */
    method Get() returns (cfg: ConfigRef)
      requires global != null
      ensures cfg == global
    {
      cfg := global;
    }

    /**
     * Save: an invalid configuration is refused before anything is written;
     * `writeSucceeds` is the outcome of marshalling and writing the file. Only a
     * written configuration is published.
     */
    method Save(cfg: ConfigRef, writeSucceeds: bool) returns (r: Outcome<SaveError>)
      modifies this
      ensures Validate(cfg.config).Fail? ==>
                r == Fail(CannotSaveInvalid(Validate(cfg.config).error)) && global == old(global)
      ensures Validate(cfg.config).Pass? && !writeSucceeds ==> r == Fail(WriteFailed) && global == old(global)
      ensures Validate(cfg.config).Pass? && writeSucceeds ==> r == Pass && global == cfg
      ensures old(PublishedValid()) ==> PublishedValid()
    {
      var check := Validate(cfg.config);
      if check.Fail? {
        return Fail(CannotSaveInvalid(check.error));
      }
      if !writeSucceeds {
        return Fail(WriteFailed);
      }
      global := cfg;
      return Pass;
    }
  }
}
