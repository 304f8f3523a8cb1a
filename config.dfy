/** The `[pseudosonic]` configuration section and the values the script
    derives from it: connection parameters, collection mode, file format,
    music directory and stream bitrate, each with its default. */
module Config {
  import opened Wrappers
  import opened Decimal

  /** Option name to value, as configparser hands them out (already stripped). */
  type Section = map<string, string>

  /** `KeyError` from `cfg[key]` and `ValueError` from `cfg.getint(key)`. */
  datatype ConfigError = MissingOption(key: string) | NotAnInteger(key: string, value: string)

  /** `cfg.get(key, fallback)`. */
  function Get(cfg: Section, key: string, fallback: string): string {
    if key in cfg then cfg[key] else fallback
  }

  /** `cfg.getint(key, fallback)`. */
  function GetInt(cfg: Section, key: string, fallback: int): (r: Result<int, ConfigError>)
    ensures key !in cfg ==> r == Success(fallback)
    ensures key in cfg ==> (r.Success? <==> ParseInt(cfg[key]).Some?)
    ensures key in cfg && r.Success? ==> r.value == ParseInt(cfg[key]).value
    ensures r.Failure? ==> r.error == NotAnInteger(key, cfg[key])
  {
    if key !in cfg then Success(fallback)
    else match ParseInt(cfg[key])
      case Some(n) => Success(n)
      case None => Failure(NotAnInteger(key, cfg[key]))
  }

  predicate StartsWith(s: string, prefix: string) {
    |prefix| <= |s| && s[..|prefix|] == prefix
  }

  /** The port used when none is configured. */
  function DefaultPort(url: string): (p: int)
    ensures p == 443 <==> StartsWith(url, "https")
    ensures p == 80 <==> !StartsWith(url, "https")
  {
    if StartsWith(url, "https") then 443 else 80
  }

  /** The `port=` argument of the connection. */
  function Port(cfg: Section): (r: Result<int, ConfigError>)
    ensures "url" !in cfg <==> r == Failure(MissingOption("url"))
    ensures "url" in cfg && "port" !in cfg ==>
              r == Success(if StartsWith(cfg["url"], "https") then 443 else 80)
    ensures "url" in cfg && "port" in cfg ==>
              (r.Success? <==> ParseInt(cfg["port"]).Some?)
              && (r.Success? ==> r.value == ParseInt(cfg["port"]).value)
    ensures "url" in cfg && r.Failure? ==> r.error == NotAnInteger("port", cfg["port"])
  {
    if "url" !in cfg then Failure(MissingOption("url"))
    else GetInt(cfg, "port", DefaultPort(cfg["url"]))
  }

  /** The arguments of `libsonic.Connection` that the model keeps. */
  datatype Connection = Connection(url: string, port: int, username: string, password: string)

  /** Building the connection: the options are looked up in argument order
      (url, port, username, password) and the first failure is reported. */
  function Connect(cfg: Section): (r: Result<Connection, ConfigError>)
    ensures r.Success? <==>
              "url" in cfg && Port(cfg).Success? && "username" in cfg && "password" in cfg
    ensures r.Success? ==>
              r.value == Connection(cfg["url"], Port(cfg).value, cfg["username"], cfg["password"])
    ensures "url" !in cfg ==> r == Failure(MissingOption("url"))
    ensures "url" in cfg && Port(cfg).Failure? ==> r == Failure(NotAnInteger("port", cfg["port"]))
    ensures "url" in cfg && Port(cfg).Success? && "username" !in cfg ==>
              r == Failure(MissingOption("username"))
    ensures "url" in cfg && Port(cfg).Success? && "username" in cfg && "password" !in cfg ==>
              r == Failure(MissingOption("password"))
  {
    match Port(cfg)
    case Failure(e) => Failure(e)
    case Success(port) =>
      if "username" !in cfg then Failure(MissingOption("username"))
      else if "password" !in cfg then Failure(MissingOption("password"))
      else Success(Connection(cfg["url"], port, cfg["username"], cfg["password"]))
  }

  /** Favorites unless a non-empty `playlist` option names a playlist. */
  datatype Mode = Favorites | Playlist(name: string)

  /** `if not cfg.get("playlist")`. */
  function ModeOf(cfg: Section): (m: Mode)
    ensures m.Favorites? <==> "playlist" !in cfg || cfg["playlist"] == ""
    ensures m.Playlist? ==> m.name == cfg["playlist"] && m.name != ""
  {
    var name := Get(cfg, "playlist", "");
    if name == "" then Favorites else Playlist(name)
  }

  /** The download settings: `format` (default "mp3"), `music_dir` (default ".")
      and `bitrate` (default 128, passed on as text). */
  datatype Settings = Settings(format: string, musicDir: string, maxBitRate: string)

  function SettingsOf(cfg: Section): (s: Settings)
    ensures "format" !in cfg ==> s.format == "mp3"
    ensures "music_dir" !in cfg ==> s.musicDir == "."
    ensures "bitrate" !in cfg ==> s.maxBitRate == "128"
    ensures "format" in cfg ==> s.format == cfg["format"]
    ensures "music_dir" in cfg ==> s.musicDir == cfg["music_dir"]
    ensures "bitrate" in cfg ==> s.maxBitRate == cfg["bitrate"]
  {
    Settings(Get(cfg, "format", "mp3"), Get(cfg, "music_dir", "."), Get(cfg, "bitrate", "128"))
  }
}
