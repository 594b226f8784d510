/** The configuration records of config.yml, one datatype per Go struct. */
module ConfigTypes {

  datatype ServerConfig = ServerConfig(host: string, port: int, corsOrigins: seq<string>)

  datatype DownloadConfig = DownloadConfig(
    path: string,
    filenameFormat: string,
    audioFormat: string,
    embedLyrics: bool,
    embedMaxQualityCover: bool,
    trackNumber: bool,
    useAlbumTrackNumber: bool,
    useFirstArtistOnly: bool,
    allowFallback: bool)

  datatype ServicesConfig = ServicesConfig(
    defaultService: string,
    tidalApiUrl: string,
    useSpotFetchApi: bool,
    spotFetchApiUrl: string)

  datatype UIConfig = UIConfig(theme: string, themeMode: string, fontFamily: string)

  datatype DatabaseConfig = DatabaseConfig(path: string)

  datatype Config = Config(
    server: ServerConfig,
    download: DownloadConfig,
    services: ServicesConfig,
    ui: UIConfig,
    database: DatabaseConfig)

  /** Go's zero value of `Config`: what YAML leaves behind when a file sets nothing. */
  const EmptyConfig: Config := Config(
    ServerConfig("", 0, []),
    DownloadConfig("", "", "", false, false, false, false, false, false),
    ServicesConfig("", "", false, ""),
    UIConfig("", "", ""),
    DatabaseConfig(""))

  /**
   * A `*Config`: a heap cell holding one configuration record. Everything that
   * holds the same pointer sees every update made through it.
   */
  class ConfigRef {
    var config: Config

    constructor (c: Config)
      ensures config == c
    {
      config := c;
    }
  }
}
