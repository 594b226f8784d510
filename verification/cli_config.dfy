/**
 * The CLI's `config get` / `config set` helpers: dotted keys such as
 * `download.path` that address one field of the loaded configuration.
 */
module CliConfig {
  import opened Wrappers
  import opened Text
  import opened ConfigTypes

  /** What getConfigValue returns: nil, one scalar field, or a whole section record. */
  datatype ConfigValue =
    | Nil
    | Str(s: string)
    | Number(n: int)
    | Flag(b: bool)
    | DownloadSection(download: DownloadConfig)
    | ServicesSection(services: ServicesConfig)
    | ServerSection(server: ServerConfig)

  const ReadableSections: set<string> := {"download", "services", "server"}
  const DownloadReadable: set<string> := {"path", "filename_format", "audio_format", "embed_lyrics", "allow_fallback"}
  const ServicesReadable: set<string> := {"default_service", "tidal_api_url"}
  const ServerReadable: set<string> := {"port", "host"}

  /**
   * getConfigValue: the first key segment picks a section; alone it yields the
   * whole section, otherwise the second segment picks a field. Anything not
   * recognised yields nil; segments after the second are ignored.
   */
  function GetConfigValue(c: Config, key: string): (v: ConfigValue)
    ensures Split(key)[0] !in ReadableSections ==> v == Nil
    ensures |Split(key)| == 1 && Split(key)[0] == "download" ==> v == DownloadSection(c.download)
    ensures |Split(key)| == 1 && Split(key)[0] == "services" ==> v == ServicesSection(c.services)
    ensures |Split(key)| == 1 && Split(key)[0] == "server" ==> v == ServerSection(c.server)
    ensures |Split(key)| >= 2 && Split(key)[0] == "download" && Split(key)[1] !in DownloadReadable ==> v == Nil
    ensures |Split(key)| >= 2 && Split(key)[0] == "services" && Split(key)[1] !in ServicesReadable ==> v == Nil
    ensures |Split(key)| >= 2 && Split(key)[0] == "server" && Split(key)[1] !in ServerReadable ==> v == Nil
  {
    var parts := Split(key);
    if parts[0] == "download" then
      if |parts| == 1 then DownloadSection(c.download)
      else if parts[1] == "path" then Str(c.download.path)
      else if parts[1] == "filename_format" then Str(c.download.filenameFormat)
      else if parts[1] == "audio_format" then Str(c.download.audioFormat)
      else if parts[1] == "embed_lyrics" then Flag(c.download.embedLyrics)
      else if parts[1] == "allow_fallback" then Flag(c.download.allowFallback)
      else Nil
    else if parts[0] == "services" then
      if |parts| == 1 then ServicesSection(c.services)
      else if parts[1] == "default_service" then Str(c.services.defaultService)
      else if parts[1] == "tidal_api_url" then Str(c.services.tidalApiUrl)
      else Nil
    else if parts[0] == "server" then
      if |parts| == 1 then ServerSection(c.server)
      else if parts[1] == "port" then Number(c.server.port)
      else if parts[1] == "host" then Str(c.server.host)
      else Nil
    else Nil
  }

  // ---------------------------------------------------------------------------
  // The fields `config set` can change
  // ---------------------------------------------------------------------------

  datatype Setting = DownloadPath | FilenameFormat | AudioFormat | DefaultService | TidalApiUrl

  /** The section a settable field lives in. */
  function SectionOf(s: Setting): string {
    if s in {DownloadPath, FilenameFormat, AudioFormat} then "download" else "services"
  }

  /** The field's name within its section. */
  function NameOf(s: Setting): string {
    match s
    case DownloadPath => "path"
    case FilenameFormat => "filename_format"
    case AudioFormat => "audio_format"
    case DefaultService => "default_service"
    case TidalApiUrl => "tidal_api_url"
  }

  /** The `section.name` key of each settable field. */
  function KeyOf(s: Setting): string {
    SectionOf(s) + "." + NameOf(s)
  }

  /** The settable field named by a section and a field name, if any. */
  function SettingNamed(section: string, name: string): (s: Option<Setting>)
    ensures s.Some? ==> SectionOf(s.value) == section && NameOf(s.value) == name
    ensures section !in EditableSections ==> s == None
  {
    if section == "download" then
      if name == "path" then Some(DownloadPath)
      else if name == "filename_format" then Some(FilenameFormat)
      else if name == "audio_format" then Some(AudioFormat)
      else None
    else if section == "services" then
      if name == "default_service" then Some(DefaultService)
      else if name == "tidal_api_url" then Some(TidalApiUrl)
      else None
    else None
  }

  function Read(c: Config, s: Setting): string {
    match s
    case DownloadPath => c.download.path
    case FilenameFormat => c.download.filenameFormat
    case AudioFormat => c.download.audioFormat
    case DefaultService => c.services.defaultService
    case TidalApiUrl => c.services.tidalApiUrl
  }

  /** `c` with the one field `s` replaced by `v`. */
  function Assign(c: Config, s: Setting, v: string): (r: Config)
    ensures Read(r, s) == v
    ensures forall t :: t != s ==> Read(r, t) == Read(c, t)
    ensures r.server == c.server && r.ui == c.ui && r.database == c.database
    ensures r.download == c.download.(path := r.download.path, filenameFormat := r.download.filenameFormat,
                                      audioFormat := r.download.audioFormat)
    ensures r.services == c.services.(defaultService := r.services.defaultService, tidalApiUrl := r.services.tidalApiUrl)
  {
    match s
    case DownloadPath => c.(download := c.download.(path := v))
    case FilenameFormat => c.(download := c.download.(filenameFormat := v))
    case AudioFormat => c.(download := c.download.(audioFormat := v))
    case DefaultService => c.(services := c.services.(defaultService := v))
    case TidalApiUrl => c.(services := c.services.(tidalApiUrl := v))
  }

  // ---------------------------------------------------------------------------
  // setConfigValue
  // ---------------------------------------------------------------------------

  datatype SetError = PathTraversal | UnknownKey(key: string) | UnknownSection(section: string)

  const EditableSections: set<string> := {"download", "services"}

  /**
   * setConfigValue indexes the second key segment without checking that it
   * exists, for the `download` and `services` sections: a caller must supply
   * one there (unless the value is rejected first).
   */
  predicate SetIndexable(key: string, value: string) {
    !HasDotDot(value) && Split(key)[0] in EditableSections ==> |Split(key)| >= 2
  }

  /**
   * The stored form of a download path: a leading `~/` is replaced by the home
   * directory (os.UserHomeDir, whose error is ignored and reads as "").
   */
  function StoredPath(value: string, home: Option<string>): (p: string)
    ensures !HasPrefix(value, "~/") ==> p == value
    ensures HasPrefix(value, "~/") && home.GetOr("") != "" ==> HasPrefix(p, home.value)
    ensures HasPrefix(value, "~/") && home.GetOr("") == "" ==> p == value[2..]
    ensures HasPrefix(value, "~/") ==> |value| - 2 <= |p| && p[|p| - (|value| - 2)..] == value[2..]
  {
    if HasPrefix(value, "~/") then JoinPath(home.GetOr(""), value[2..]) else value
  }

  /** The value a successful set stores into field `s`. */
  function Stored(s: Setting, value: string, home: Option<string>): string {
    if s == DownloadPath then StoredPath(value, home) else value
  }

  /**
   * What setConfigValue does to configuration `c`, stated through the field table:
   * a value with ".." is refused first, then an unknown section, then an unknown
   * field; otherwise exactly the one named field changes.
   */
  function ConfigAfterSet(c: Config, key: string, value: string, home: Option<string>): (r: Result<Config, SetError>)
    requires SetIndexable(key, value)
    ensures HasDotDot(value) ==> r == Err(PathTraversal)
    ensures !HasDotDot(value) && Split(key)[0] !in EditableSections ==> r == Err(UnknownSection(Split(key)[0]))
    ensures !HasDotDot(value) && Split(key)[0] in EditableSections && |Split(key)| >= 2 ==>
              SettingNamed(Split(key)[0], Split(key)[1]).None? ==> r == Err(UnknownKey(key))
    ensures r.Ok? <==> !HasDotDot(value) && |Split(key)| >= 2 && SettingNamed(Split(key)[0], Split(key)[1]).Some?
    ensures r.Ok? ==>
              var s := SettingNamed(Split(key)[0], Split(key)[1]).value;
              r.value == Assign(c, s, Stored(s, value, home))
  {
    var parts := Split(key);
    if HasDotDot(value) then Err(PathTraversal)
    else if parts[0] !in EditableSections then Err(UnknownSection(parts[0]))
    else
      match SettingNamed(parts[0], parts[1])
      case None => Err(UnknownKey(key))
      case Some(s) => Ok(Assign(c, s, Stored(s, value, home)))
  }

  /** setConfigValue: updates `*cfg` in place; on an error `*cfg` is left as it was. */
  method SetConfigValue(cfg: ConfigRef, key: string, value: string, home: Option<string>)
    returns (err: Option<SetError>)
    requires SetIndexable(key, value)
    modifies cfg
    ensures match ConfigAfterSet(old(cfg.config), key, value, home)
            case Ok(updated) => err == None && cfg.config == updated
            case Err(e) => err == Some(e) && cfg.config == old(cfg.config)
  {
    var parts := Split(key);
    if HasDotDot(value) {
      return Some(PathTraversal);
    }
    var value := value;
    if parts[0] == "download" {
      if parts[1] == "path" {
        if HasPrefix(value, "~/") {
          var home := home.GetOr("");
          value := JoinPath(home, value[2..]);
        }
        cfg.config := cfg.config.(download := cfg.config.download.(path := value));
      } else if parts[1] == "filename_format" {
        cfg.config := cfg.config.(download := cfg.config.download.(filenameFormat := value));
      } else if parts[1] == "audio_format" {
        cfg.config := cfg.config.(download := cfg.config.download.(audioFormat := value));
      } else {
        return Some(UnknownKey(key));
      }
    } else if parts[0] == "services" {
      if parts[1] == "default_service" {
        cfg.config := cfg.config.(services := cfg.config.services.(defaultService := value));
      } else if parts[1] == "tidal_api_url" {
        cfg.config := cfg.config.(services := cfg.config.services.(tidalApiUrl := value));
      } else {
        return Some(UnknownKey(key));
      }
    } else {
      return Some(UnknownSection(parts[0]));
    }
    return None;
  }

  /**
   * `config set download <value>` (or `services`): the key has a single segment,
   * so the second-segment lookup has nothing to index and the command panics.
   */
  lemma {:induction false} SectionOnlyKeyPanics(section: string, value: string)
    requires section in EditableSections && !HasDotDot(value)
    ensures !SetIndexable(section, value)
  {
    SplitNoDot(section);
  }

  /**
   * setConfigValue with the length check getConfigValue already makes: a key
   * naming only an editable section is an unknown key; every other key behaves
   * as before.
   */
  function ConfigAfterSetGuarded(c: Config, key: string, value: string, home: Option<string>)
    : (r: Result<Config, SetError>)
    ensures HasDotDot(value) ==> r == Err(PathTraversal)
    ensures !HasDotDot(value) && Split(key)[0] !in EditableSections ==> r == Err(UnknownSection(Split(key)[0]))
    ensures !HasDotDot(value) && Split(key)[0] in EditableSections && |Split(key)| < 2 ==> r == Err(UnknownKey(key))
    ensures !HasDotDot(value) && Split(key)[0] in EditableSections && |Split(key)| >= 2 ==>
              SettingNamed(Split(key)[0], Split(key)[1]).None? ==> r == Err(UnknownKey(key))
    ensures r.Ok? <==> !HasDotDot(value) && |Split(key)| >= 2 && SettingNamed(Split(key)[0], Split(key)[1]).Some?
    ensures r.Ok? ==>
              var s := SettingNamed(Split(key)[0], Split(key)[1]).value;
              r.value == Assign(c, s, Stored(s, value, home))
  {
    if SetIndexable(key, value) then ConfigAfterSet(c, key, value, home) else Err(UnknownKey(key))
  }

  /** The guarded setConfigValue: callable with any key. */
  method SetConfigValueGuarded(cfg: ConfigRef, key: string, value: string, home: Option<string>)
    returns (err: Option<SetError>)
    modifies cfg
    ensures match ConfigAfterSetGuarded(old(cfg.config), key, value, home)
            case Ok(updated) => err == None && cfg.config == updated
            case Err(e) => err == Some(e) && cfg.config == old(cfg.config)
  {
    var parts := Split(key);
    if !HasDotDot(value) && parts[0] in EditableSections && |parts| < 2 {
      return Some(UnknownKey(key));
    }
    err := SetConfigValue(cfg, key, value, home);
  }

  // ---------------------------------------------------------------------------
  // Properties relating get and set
  // ---------------------------------------------------------------------------

  lemma {:induction false} SettingKeySplits(s: Setting)
    ensures Split(KeyOf(s)) == [SectionOf(s), NameOf(s)]
    ensures SettingNamed(SectionOf(s), NameOf(s)) == Some(s)
  {
    assert '.' !in SectionOf(s) && '.' !in NameOf(s) by {
      match s
      case DownloadPath =>
      case FilenameFormat =>
      case AudioFormat =>
      case DefaultService =>
      case TidalApiUrl =>
    }
    SplitDotted(SectionOf(s), NameOf(s));
  }

  /**
   * Setting any of the five settable keys to a value without ".." succeeds, and
   * getting the same key afterwards yields what was stored (the value itself,
   * with `~/` expanded for `download.path`).
   */
  lemma {:induction false} SetThenGet(c: Config, s: Setting, value: string, home: Option<string>)
    requires !HasDotDot(value)
    ensures SetIndexable(KeyOf(s), value)
    ensures ConfigAfterSet(c, KeyOf(s), value, home).Ok?
    ensures GetConfigValue(ConfigAfterSet(c, KeyOf(s), value, home).value, KeyOf(s)) == Str(Stored(s, value, home))
  {
    SettingKeySplits(s);
  }

  /** `server.port` and `server.host` can be read but not set. */
  lemma {:induction false} ServerKeysReadOnly(c: Config, name: string, value: string, home: Option<string>)
    requires name in ServerReadable && !HasDotDot(value)
    ensures GetConfigValue(c, "server" + "." + name)
            == if name == "port" then Number(c.server.port) else Str(c.server.host)
    ensures ConfigAfterSet(c, "server" + "." + name, value, home) == Err(UnknownSection("server"))
  {
    SplitDotted("server", name);
  }

  /** A one-segment key naming a section reads the whole section record. */
  lemma {:induction false} SectionKeys(c: Config, section: string)
    requires section in ReadableSections
    ensures GetConfigValue(c, section)
            == if section == "download" then DownloadSection(c.download)
               else if section == "services" then ServicesSection(c.services)
               else ServerSection(c.server)
  {
    SplitNoDot(section);
  }

  /** `download.embed_lyrics` and `download.allow_fallback` are readable but not settable. */
  lemma {:induction false} DownloadFlagsReadOnly(c: Config, name: string, value: string, home: Option<string>)
    requires name in {"embed_lyrics", "allow_fallback"} && !HasDotDot(value)
    ensures GetConfigValue(c, "download" + "." + name)
            == Flag(if name == "embed_lyrics" then c.download.embedLyrics else c.download.allowFallback)
    ensures ConfigAfterSet(c, "download" + "." + name, value, home) == Err(UnknownKey("download" + "." + name))
  {
    SplitDotted("download", name);
  }
}
