/** The GUI's own configuration file (gui/src/app/config.rs): its record, the default locations
    and the classification of read and parse failures. The file system, the `dirs` crate and
    TOML decoding are parameters. */
module AppConfig {
  import opened Wrappers
  import opened Paths

  /** Contents of `gui.toml`. */
  datatype Config = Config(minisafedConfigPath: Path, logLevel: Option<string>, debug: Option<bool>)

  const DefaultFileName: string := "gui.toml"

  /** A configuration pointing at the daemon's configuration file, with every option unset. */
  function New(minisafedConfigPath: Path): (c: Config)
    ensures c.minisafedConfigPath == minisafedConfigPath
    ensures c.logLevel.None? && c.debug.None?
  {
    Config(minisafedConfigPath, None, None)
  }

  datatype ConfigError = NotFound | ReadingFile(message: string) | Unexpected(message: string)

  /** `Display` for `ConfigError`. */
  function DisplayError(e: ConfigError): (s: string)
    ensures e.NotFound? ==> s == "Config file not found"
    ensures e.ReadingFile? ==> s == "Error while reading file: " + e.message
    ensures e.Unexpected? ==> s == "Unexpected error: " + e.message
    ensures !e.NotFound? ==> s[|s| - |e.message|..] == e.message
  {
    match e
    case NotFound => "Config file not found"
    case ReadingFile(m) => "Error while reading file: " + m
    case Unexpected(m) => "Unexpected error: " + m
  }

  /** Distinct configuration errors always print differently: the message names the variant and
      carries its text unchanged. */
  lemma DisplayErrorInjective(a: ConfigError, b: ConfigError)
    ensures DisplayError(a) == DisplayError(b) <==> a == b
  {
    if DisplayError(a) == DisplayError(b) {
      var sa, sb := DisplayError(a), DisplayError(b);
      assert sa[0] == sb[0];
      match a
      case NotFound =>
        assert b.NotFound?;
      case ReadingFile(m) =>
        assert b.ReadingFile?;
        assert m == sa[|"Error while reading file: "|..];
      case Unexpected(m) =>
        assert b.Unexpected?;
        assert m == sa[|"Unexpected error: "|..];
    }
  }

  /** The platform the GUI was compiled for: only Linux is told apart. */
  datatype TargetOs = Linux | NotLinux

  /** What the `dirs` crate reports about the user's directories. */
  datatype UserDirs = UserDirs(home: Option<Path>, config: Option<Path>)

  /** The base directory `default_datadir` starts from on `os`. */
  function BaseDir(os: TargetOs, dirs: UserDirs): Option<Path>
  {
    if os == Linux then dirs.home else dirs.config
  }

  /** The folder name `default_datadir` appends on `os`. */
  function DatadirName(os: TargetOs): string
  {
    if os == Linux then ".minisafe" else "Minisafe"
  }

  /** The minisafe data directory: `~/.minisafe` on Linux, `<config dir>/Minisafe` elsewhere;
      an error when that base directory is unknown. */
  function DefaultDatadir(os: TargetOs, dirs: UserDirs): (r: Result<Path, string>)
    ensures r.Ok? <==> BaseDir(os, dirs).Some?
    ensures os == Linux && dirs.home.Some? ==> r == Ok(Push(dirs.home.value, ".minisafe"))
    ensures os == NotLinux && dirs.config.Some? ==> r == Ok(Push(dirs.config.value, "Minisafe"))
    ensures r.Err? ==> r.error == "Failed to get default data directory"
  {
    match BaseDir(os, dirs)
    case Some(base) => Ok(Push(base, DatadirName(os)))
    case None => Err("Failed to get default data directory")
  }

  /** Only the directory that matters on `os` is consulted. */
  lemma DefaultDatadirIgnoresOtherDir(os: TargetOs, d1: UserDirs, d2: UserDirs)
    requires BaseDir(os, d1) == BaseDir(os, d2)
    ensures DefaultDatadir(os, d1) == DefaultDatadir(os, d2)
  {
  }

  /** The default location of `gui.toml`: inside the data directory, or `Unexpected` when the
      data directory cannot be located. */
  function DefaultPath(os: TargetOs, dirs: UserDirs): (r: Result<Path, ConfigError>)
    ensures DefaultDatadir(os, dirs).Ok? ==>
              r == Ok(Push(DefaultDatadir(os, dirs).value, DefaultFileName))
    ensures DefaultDatadir(os, dirs).Err? ==>
              r == Err(Unexpected("Could not locate the default datadir directory."))
    ensures r.Ok? ==> |r.value| >= 2 && r.value[|r.value| - 1] == DefaultFileName
                      && r.value[|r.value| - 2] == DatadirName(os)
  {
    match DefaultDatadir(os, dirs)
    case Err(_) => Err(Unexpected("Could not locate the default datadir directory."))
    case Ok(datadir) => Ok(Push(datadir, DefaultFileName))
  }

  /** A failed `std::fs::read`: whether its kind is `NotFound`, and its `Display` text. */
  datatype IoError = IoError(notFound: bool, message: string)

  /** Read `path` through `read` and decode the bytes through `parse`. A missing file is
      `NotFound`; any other read failure and any parse failure are `ReadingFile`, told apart by
      their message prefix; the parser only ever sees bytes that were read. */
  function FromFile(path: Path, read: Path -> Result<seq<bv8>, IoError>,
                    parse: seq<bv8> -> Result<Config, string>): (r: Result<Config, ConfigError>)
    ensures read(path).Err? && read(path).error.notFound ==> r == Err(NotFound)
    ensures read(path).Err? && !read(path).error.notFound ==>
              r == Err(ReadingFile("Reading configuration file: " + read(path).error.message))
    ensures read(path).Ok? && parse(read(path).value).Err? ==>
              r == Err(ReadingFile("Parsing configuration file: " + parse(read(path).value).error))
    ensures r.Ok? <==> read(path).Ok? && parse(read(path).value).Ok?
    ensures r.Ok? ==> r.value == parse(read(path).value).value
  {
    match read(path)
    case Err(e) =>
      if e.notFound then Err(NotFound)
      else Err(ReadingFile("Reading configuration file: " + e.message))
    case Ok(content) =>
      match parse(content)
      case Err(m) => Err(ReadingFile("Parsing configuration file: " + m))
      case Ok(config) => Ok(config)
  }

  /** Parsing is attempted only after a successful read: when the read fails the parser has no
      influence on the outcome. */
  lemma FromFileParsesOnlyAfterRead(path: Path, read: Path -> Result<seq<bv8>, IoError>,
                                    p1: seq<bv8> -> Result<Config, string>,
                                    p2: seq<bv8> -> Result<Config, string>)
    requires read(path).Err?
    ensures FromFile(path, read, p1) == FromFile(path, read, p2)
  {
  }
}
