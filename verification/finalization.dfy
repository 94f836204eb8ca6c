/** `install` (gui/src/installer/mod.rs): validate the assembled daemon configuration by starting
    the daemon once, then write the daemon's and the GUI's configuration files into
    `<data dir>/<network>/`. Every external operation is answered by an `Env`. */
module Finalization {
  import opened Wrappers
  import opened Paths
  import Daemon
  import AppConfig

  datatype Error =
    | CannotCreateDatadir(message: string)
    | CannotCreateFile(message: string)
    | CannotWriteToFile(message: string)
    | Unexpected(message: string)

  /** `Display` for `Error`. */
  function Display(e: Error): (s: string)
    ensures e.CannotCreateDatadir? ==> s == "Failed to create datadir: " + e.message
    ensures e.CannotWriteToFile? ==> s == "Failed to write to file: " + e.message
    ensures e.CannotCreateFile? ==> s == "Failed to create file: " + e.message
    ensures e.Unexpected? ==> s == "Unexpected: " + e.message
    ensures |s| > |e.message| && s[|s| - |e.message|..] == e.message
  {
    match e
    case CannotCreateDatadir(m) => "Failed to create datadir: " + m
    case CannotWriteToFile(m) => "Failed to write to file: " + m
    case CannotCreateFile(m) => "Failed to create file: " + m
    case Unexpected(m) => "Unexpected: " + m
  }

  /** Distinct errors always print differently: the message names the variant and carries its
      text unchanged. */
  lemma DisplayInjective(a: Error, b: Error)
    ensures Display(a) == Display(b) <==> a == b
  {
    if Display(a) == Display(b) {
      var s, t := Display(a), Display(b);
      assert s[0] == t[0];
      // Index 10 is where "Failed to create" and "Failed to write" first differ, index 17 where
      // "Failed to create datadir" and "Failed to create file" first differ.
      if !a.Unexpected? && !b.Unexpected? {
        assert s[10] == t[10];
        if !a.CannotWriteToFile? && !b.CannotWriteToFile? {
          assert s[17] == t[17];
        }
      }
      match a
      case CannotCreateDatadir(m) =>
        assert b.CannotCreateDatadir?;
        assert m == s[|"Failed to create datadir: "|..];
      case CannotWriteToFile(m) =>
        assert b.CannotWriteToFile?;
        assert m == s[|"Failed to write to file: "|..];
      case CannotCreateFile(m) =>
        assert b.CannotCreateFile?;
        assert m == s[|"Failed to create file: "|..];
      case Unexpected(m) =>
        assert b.Unexpected?;
        assert m == s[|"Unexpected: "|..];
    }
  }

  /** The outside world as `install` sees it: whether the daemon starts with the configuration,
      and how `canonicalize`, `File::create` and `write_all` answer for each path (each as
      `Display` text on failure). */
  datatype Env = Env(
    startDaemon: Outcome<string>,
    canonicalize: Path -> Result<Path, string>,
    create: Path -> Outcome<string>,
    write: Path -> Outcome<string>)

  /** What ends up in a written file. */
  datatype Contents<B> = DaemonToml(daemon: Daemon.Config<B>) | GuiToml(gui: AppConfig.Config)

  /** A file-system effect of `install`, in the order it happens. */
  datatype FileOp<B> = Created(path: Path) | Wrote(path: Path, contents: Contents<B>)

  datatype Installation<B> = Installation(result: Result<Path, Error>, effects: seq<FileOp<B>>)

  /** The directory both files land in, once the data directory is canonical. */
  function TargetDir(canonicalDataDir: Path, network: Daemon.Network): (d: Path)
    ensures |d| == |canonicalDataDir| + 1
    ensures d[..|canonicalDataDir|] == canonicalDataDir
    ensures d[|canonicalDataDir|] == Daemon.NetworkName(network)
  {
    Push(canonicalDataDir, Daemon.NetworkName(network))
  }

  /** `p` names an entry directly inside `dir`. */
  predicate InDir(p: Path, dir: Path)
  {
    |p| == |dir| + 1 && p[..|dir|] == dir
  }

  /** True when every operation `install` performs on `cfg` succeeds in `env`. */
  predicate AllSucceed<B>(cfg: Daemon.Config<B>, daemonFileName: string, env: Env)
  {
    && env.startDaemon.Pass?
    && cfg.dataDir.Some?
    && env.canonicalize(cfg.dataDir.value).Ok?
    && var dir := TargetDir(env.canonicalize(cfg.dataDir.value).value, cfg.network);
       && env.create(Push(dir, daemonFileName)).Pass?
       && env.write(Push(dir, daemonFileName)).Pass?
       && env.create(Push(dir, AppConfig.DefaultFileName)).Pass?
       && env.canonicalize(Push(dir, daemonFileName)).Ok?
       && env.write(Push(dir, AppConfig.DefaultFileName)).Pass?
  }

  /** `install(ctx, cfg)`. `daemonFileName` is the daemon's `DEFAULT_FILE_NAME`. The daemon is
      started first and nothing is written when it fails; then the data directory is
      canonicalised, the daemon file is created and written, and the GUI file is created, fed
      the canonical path of the daemon file and written. Nothing is rolled back on failure. */
  function Install<B>(cfg: Daemon.Config<B>, daemonFileName: string, env: Env): (r: Installation<B>)
    requires env.startDaemon.Pass? ==> cfg.dataDir.Some?
    ensures r.result.Ok? <==> AllSucceed(cfg, daemonFileName, env)
    ensures r.result.Err? ==> !r.result.error.CannotCreateDatadir?
    ensures env.startDaemon.Fail? ==>
              r == Installation(Err(Unexpected("Failed to start daemon with entered config: "
                                      + env.startDaemon.error)), [])
    ensures env.startDaemon.Pass? && env.canonicalize(cfg.dataDir.value).Err? ==>
              r == Installation(Err(Unexpected("Failed to canonicalize datadir path: "
                                      + env.canonicalize(cfg.dataDir.value).error)), [])
    ensures env.startDaemon.Pass? && env.canonicalize(cfg.dataDir.value).Ok? ==>
              var dir := TargetDir(env.canonicalize(cfg.dataDir.value).value, cfg.network);
              forall k :: 0 <= k < |r.effects| ==> InDir(r.effects[k].path, dir)
    ensures |r.effects| > 0 ==>
              && env.startDaemon.Pass? && env.canonicalize(cfg.dataDir.value).Ok?
              && r.effects[0]
                   == Created(Push(TargetDir(env.canonicalize(cfg.dataDir.value).value, cfg.network),
                                   daemonFileName))
    ensures r.result.Ok? ==>
              cfg.dataDir.Some? && env.canonicalize(cfg.dataDir.value).Ok? &&
              var dir := TargetDir(env.canonicalize(cfg.dataDir.value).value, cfg.network);
              var daemonPath := Push(dir, daemonFileName);
              var guiPath := Push(dir, AppConfig.DefaultFileName);
              && r.result.value == guiPath
              && r.effects == [Created(daemonPath),
                               Wrote(daemonPath, DaemonToml(cfg.(dataDir := Some(env.canonicalize(cfg.dataDir.value).value)))),
                               Created(guiPath),
                               Wrote(guiPath, GuiToml(AppConfig.New(env.canonicalize(daemonPath).value)))]
  {
    match env.startDaemon
    case Fail(e) => Installation(Err(Unexpected("Failed to start daemon with entered config: " + e)), [])
    case Pass =>
      match env.canonicalize(cfg.dataDir.value)
      case Err(e) => Installation(Err(Unexpected("Failed to canonicalize datadir path: " + e)), [])
      case Ok(dataDir) =>
        var written := cfg.(dataDir := Some(dataDir));
        var dir := TargetDir(dataDir, cfg.network);
        PersistDaemonFile(written, dir, Push(dir, daemonFileName), env)
  }

  /** From the creation of the daemon's file on. */
  function PersistDaemonFile<B>(written: Daemon.Config<B>, dir: Path, daemonPath: Path,
                                env: Env): (r: Installation<B>)
    requires InDir(daemonPath, dir)
    ensures r.result.Err? ==> !r.result.error.CannotCreateDatadir?
    ensures forall k :: 0 <= k < |r.effects| ==> InDir(r.effects[k].path, dir)
    ensures env.create(daemonPath).Fail? ==> r == Installation(Err(CannotCreateFile(env.create(daemonPath).error)), [])
    ensures env.create(daemonPath).Pass? ==> |r.effects| > 0 && r.effects[0] == Created(daemonPath)
    ensures env.create(daemonPath).Pass? && env.write(daemonPath).Fail? ==>
              r == Installation(Err(CannotWriteToFile(env.write(daemonPath).error)), [Created(daemonPath)])
  {
    match env.create(daemonPath)
    case Fail(e) => Installation(Err(CannotCreateFile(e)), [])
    case Pass =>
      match env.write(daemonPath)
      case Fail(e) => Installation(Err(CannotWriteToFile(e)), [Created(daemonPath)])
      case Pass =>
        var done := [Created(daemonPath), Wrote(daemonPath, DaemonToml(written))];
        PersistGuiFile(done, Push(dir, AppConfig.DefaultFileName), daemonPath, env)
  }

  /** From the creation of `gui.toml` on, after the effects `done`; `daemonPath` is the file it
      must point at. */
  function PersistGuiFile<B>(done: seq<FileOp<B>>, guiPath: Path, daemonPath: Path, env: Env): (r: Installation<B>)
    ensures r.result.Err? ==> !r.result.error.CannotCreateDatadir?
    ensures env.create(guiPath).Fail? ==> r == Installation(Err(CannotCreateFile(env.create(guiPath).error)), done)
    ensures env.create(guiPath).Pass? && env.canonicalize(daemonPath).Err? ==>
              r == Installation(Err(Unexpected("Failed to canonicalize minisafed config path: "
                                      + env.canonicalize(daemonPath).error)), done + [Created(guiPath)])
    ensures env.create(guiPath).Pass? && env.canonicalize(daemonPath).Ok? && env.write(guiPath).Fail? ==>
              r == Installation(Err(CannotWriteToFile(env.write(guiPath).error)), done + [Created(guiPath)])
    ensures r.result.Ok? <==>
              env.create(guiPath).Pass? && env.canonicalize(daemonPath).Ok? && env.write(guiPath).Pass?
    ensures r.result.Ok? ==>
              && r.result.value == guiPath
              && r.effects == done + [Created(guiPath),
                                      Wrote(guiPath, GuiToml(AppConfig.New(env.canonicalize(daemonPath).value)))]
  {
    match env.create(guiPath)
    case Fail(e) => Installation(Err(CannotCreateFile(e)), done)
    case Pass =>
      // The canonical path is computed while building the file's contents, before writing.
      match env.canonicalize(daemonPath)
      case Err(e) =>
        Installation(Err(Unexpected("Failed to canonicalize minisafed config path: " + e)), done + [Created(guiPath)])
      case Ok(canonical) =>
        match env.write(guiPath)
        case Fail(e) => Installation(Err(CannotWriteToFile(e)), done + [Created(guiPath)])
        case Pass =>
          Installation(Ok(guiPath), done + [Created(guiPath), Wrote(guiPath, GuiToml(AppConfig.New(canonical)))])
  }

  /** Which error each failing file operation produces, and what is left on disk by then. The
      GUI file is created before the daemon file's path is canonicalised, so that failure leaves
      an empty `gui.toml` behind. */
  lemma InstallFailures<B>(cfg: Daemon.Config<B>, daemonFileName: string, env: Env)
    requires cfg.dataDir.Some? && env.startDaemon.Pass? && env.canonicalize(cfg.dataDir.value).Ok?
    ensures
      var written := cfg.(dataDir := Some(env.canonicalize(cfg.dataDir.value).value));
      var dir := TargetDir(env.canonicalize(cfg.dataDir.value).value, cfg.network);
      var daemonPath := Push(dir, daemonFileName);
      var guiPath := Push(dir, AppConfig.DefaultFileName);
      var daemonDone := [Created(daemonPath), Wrote(daemonPath, DaemonToml(written))];
      var r := Install(cfg, daemonFileName, env);
      && (env.create(daemonPath).Fail? ==>
            r == Installation(Err(CannotCreateFile(env.create(daemonPath).error)), []))
      && (env.create(daemonPath).Pass? && env.write(daemonPath).Fail? ==>
            r == Installation(Err(CannotWriteToFile(env.write(daemonPath).error)), [Created(daemonPath)]))
      && (env.create(daemonPath).Pass? && env.write(daemonPath).Pass? ==>
            && (env.create(guiPath).Fail? ==>
                  r == Installation(Err(CannotCreateFile(env.create(guiPath).error)), daemonDone))
            && (env.create(guiPath).Pass? && env.canonicalize(daemonPath).Err? ==>
                  r == Installation(Err(Unexpected("Failed to canonicalize minisafed config path: "
                                          + env.canonicalize(daemonPath).error)),
                           daemonDone + [Created(guiPath)]))
            && (env.create(guiPath).Pass? && env.canonicalize(daemonPath).Ok?
                && env.write(guiPath).Fail? ==>
                  r == Installation(Err(CannotWriteToFile(env.write(guiPath).error)),
                           daemonDone + [Created(guiPath)])))
  {
  }
}
