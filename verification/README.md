# minisafe installer — Dafny model

This project models the first-run installer of the minisafe GUI:

- the **navigation state machine** (`Installer` in `gui/src/installer/mod.rs`): four steps
  (Welcome, DefineDescriptor, DefineBitcoind, Final), the index of the current one, the shared
  context and daemon configuration the steps fill in, and the exit flag; `next`/`previous`
  clamping, and `update`'s routing of every message, including the skip loop after an accepted
  `Next`;
- **`install`**, the finalisation routine: start the daemon once to validate the configuration,
  canonicalise the data directory, then create and write the daemon's configuration file and
  `gui.toml` under `<data dir>/<network>/`. Every external operation is answered by an
  environment record (`Finalization.Env`), and the result is the returned path or error together
  with the list of file effects, in order;
- the GUI's **configuration helpers** (`gui/src/app/config.rs`): `Config::new`, the default
  data directory and `gui.toml` location (paths are sequences of components), the classification
  of read and parse failures in `from_file`, and the `Display` texts of both error types.

The steps' own code is not part of this model. Their `new` (only `Welcome::new` takes the network), `apply`, `skip`, `load_context`
and `update`, and `Context::new`, are the function-valued fields of `Installer.StepBehaviour`,
and every statement about the installer holds for any choice of them. A step's interaction
state and the context are type parameters. The daemon configuration is `Daemon.Config`. Its
data directory and network are explicit, and everything else in it is opaque.

Modules: `Wrappers` (Option/Result/Outcome), `Paths`, `Daemon`, `AppConfig`, `Finalization`,
`Installer`.

Four facts about the code's behaviour that the model keeps as they are:

- When every step from the landing index to the end skips, the skip loop in `update` never
  exits, because `next` does nothing at the last step; reaching the last step does not stop it.
  `Installer.Update` returns `Hangs` in exactly that case (`Installer.NextAccepted`). With the
  four real steps this happens only if `Final` asks to be skipped.
- When `apply` returns false, the installer keeps the context and configuration that `apply`
  left, because it lends them mutably. Leaving them unchanged on failure is up to the steps.
- `load_context` is called only after an accepted `Next`, never after `Previous`. `Previous`
  ignores `skip`.
- A failure to canonicalise the data directory is `Unexpected`, like a daemon start failure.
  `CannotCreateDatadir` is never produced. No file is removed after a later failure. `gui.toml`
  is created before the daemon file's path is canonicalised, so that failure leaves it behind.

## Model

| member | source | states |
|---|---|---|
| Installer.GoNext | gui/src/installer/mod.rs:30-34 | moves one step forward only below the last index, otherwise leaves the installer unchanged; only the index changes and it stays in range |
| Installer.GoPrevious | gui/src/installer/mod.rs:36-40 | moves one step back only above index 0 (a no-op there, never below 0); only the index changes and it stays in range |
| Installer.New | gui/src/installer/mod.rs:42-63 | a valid installer at index 0, not exiting, with exactly the four steps Welcome, DefineDescriptor, DefineBitcoind, Final; `Welcome` built for the network and the other three from their argument-less `new`, the new context, and the daemon config's data dir set to the destination |
| Installer.Installer.ShouldExit | gui/src/installer/mod.rs:69-71 | reports exactly the exit flag: false after `new`, set by `stop`, and never cleared by a message; the contract states the first part, and `Installer.New`, `Installer.Stop`, `Installer.Update` and `Installer.Run` state the rest |
| Installer.Stop | gui/src/installer/mod.rs:69-75 | raises the exit flag that `should_exit` reports and changes nothing else |
| Installer.Settle | gui/src/installer/mod.rs:87-94 | the skip loop lands on the first index from its start whose step does not skip, all steps passed over skip; it never exits exactly when every step from the start to the end skips |
| Installer.SkipLoop | gui/src/installer/mod.rs:87-94 | the while loop as written terminates when the last step does not skip, and stops at the first non-skipping index from its start, agreeing with `Settle` |
| Installer.ApplyCurrent | gui/src/installer/mod.rs:80-84 | runs the current step's `apply` on the current context and config: the acceptance flag, the current step's new state, the context and the config are exactly what `apply` returns; the index, the exit flag, the other steps and the screen order are kept |
| Installer.ForwardToStep | gui/src/installer/mod.rs:106-124 | forwarding a message replaces the current step's state with the result of that step's `update` on the message, and changes nothing else |
| Installer.Update | gui/src/installer/mod.rs:77-128 | keeps the index valid, the screen order and a raised exit flag; only `Next` can hang and only `Install` launches `install`, on the context and config as they are; `Previous` is exactly `previous` (skip ignored), close is exactly `stop`; `Install`, `Installed` and every other message are exactly forwarded to the current step's `update`; every message but `Next`/`Previous` keeps the index |
| Installer.NextRejected | gui/src/installer/mod.rs:79-84 | when `apply` rejects, the index stays and no other step is touched (no `load_context`); the context and config are those `apply` left |
| Installer.NextAccepted | gui/src/installer/mod.rs:84-101 | when `apply` accepts, `update` hangs iff every step from min(old+1, last) skips; otherwise it lands on the first non-skipping step from there, all steps passed over skip, and `load_context` runs once, on the landing step, with the post-`apply` context, no other step changing |
| Installer.NextTerminates | gui/src/installer/mod.rs:85-94 | if the last step does not skip in the post-`apply` context, `Next` always returns |
| Installer.Run | gui/src/installer/mod.rs:77-128 | over any message sequence the index stays valid, the screen order is kept, a raised exit flag is never cleared, and only `Next` can hang |
| Installer.CloseIsFinal | gui/src/installer/mod.rs:116-119 | after a close request has been handled the installer reports `should_exit` whatever messages follow |
| Finalization.Install | gui/src/installer/mod.rs:138-189 | succeeds iff every operation succeeds; a daemon start failure or a data-dir canonicalisation failure is `Unexpected` with no file effect; every file lands in `<canonical data dir>/<network>/`, the first effect is creating the daemon file; on success it returns `.../gui.toml` after creating and writing the daemon file (with the canonical data dir) and then `gui.toml` pointing at the daemon file's canonical path; `CannotCreateDatadir` never occurs |
| Finalization.PersistDaemonFile | gui/src/installer/mod.rs:154-166 | a create failure is `CannotCreateFile` with nothing created, a write failure is `CannotWriteToFile` with only the daemon file created; all effects stay in the target directory |
| Finalization.PersistGuiFile | gui/src/installer/mod.rs:168-189 | continuing after the daemon file's effects: a create failure is `CannotCreateFile` with nothing added, a failed canonicalisation of the daemon file's path is `Unexpected` after `gui.toml` was created, a write failure is `CannotWriteToFile`; success returns the `gui.toml` path after creating it and writing `Config::new` of the canonical daemon path into it |
| Finalization.InstallFailures | gui/src/installer/mod.rs:154-187 | for each file operation that fails, the error variant and message `install` returns and exactly which files were created or written before it |
| Finalization.TargetDir | gui/src/installer/mod.rs:151-152 | the target directory is the canonical data directory with the network's name appended |
| Finalization.Display | gui/src/installer/mod.rs:200-209 | "Failed to create datadir: ", "Failed to write to file: ", "Failed to create file: " or "Unexpected: " followed by the error's text, which always ends the message |
| Finalization.DisplayInjective | gui/src/installer/mod.rs:200-209 | two installer errors print the same message only if they are the same error |
| Daemon.NetworkNameInjective | gui/src/installer/mod.rs:152 | each network gets its own sub-directory name |
| AppConfig.New | gui/src/app/config.rs:16-23 | stores the given daemon config path, with `log_level` and `debug` unset |
| AppConfig.DefaultDatadir | gui/src/app/config.rs:74-91 | `<home>/.minisafe` on Linux, `<config dir>/Minisafe` elsewhere; an error exactly when that base directory is unknown |
| AppConfig.DefaultDatadirIgnoresOtherDir | gui/src/app/config.rs:74-80 | only the base directory of the target platform is consulted |
| AppConfig.DefaultPath | gui/src/app/config.rs:14-45 | `gui.toml` inside the default data directory, or `Unexpected("Could not locate the default datadir directory.")` when it cannot be located |
| AppConfig.FromFile | gui/src/app/config.rs:25-37 | a NotFound read error is `NotFound`, any other is `ReadingFile("Reading configuration file: …")`, a parse failure is `ReadingFile("Parsing configuration file: …")`; success iff both read and parse succeed, returning the parsed value |
| AppConfig.FromFileParsesOnlyAfterRead | gui/src/app/config.rs:26-35 | when the read fails the parser cannot affect the outcome |
| AppConfig.DisplayError | gui/src/app/config.rs:55-63 | "Config file not found", "Error while reading file: " followed by the text, or "Unexpected error: " followed by the text |
| AppConfig.DisplayErrorInjective | gui/src/app/config.rs:55-63 | two configuration errors print the same message only if they are the same error |

## Left out

- Rendering (`view`), `subscription` and the iced `Command` machinery. `Install` is modelled as returning a `PerformInstall` command that carries the context and config. `install` itself is `Finalization.Install`, and its `Installed` result reaches the current step like any other forwarded message.
- The step implementations (`step.rs`), `Context` and the daemon configuration's own module are not part of this model. Their behaviour is the arbitrary `StepBehaviour`. `DaemonConfig::new()` is the `blank` argument of `Installer.New`, and the daemon's `DEFAULT_FILE_NAME` is the `daemonFileName` argument of `Finalization.Install`.
- Starting and shutting down the daemon, `canonicalize`, `File::create`, `write_all`, `std::fs::read`, the `dirs` crate and TOML encoding and decoding. They are I/O or foreign code, so only their outcomes appear, as parameters. `canonicalize`, `create` and `write` are answered per path, independently of the file-system changes made in between. File contents are the values serialised, not their text.
- Finalization.Install: requires `data_dir` to be set whenever the daemon starts, because the source then unwraps it and would panic; a daemon start failure with no `data_dir` is modelled and returns `Unexpected`. The `try_into().unwrap()`, `expect` and `unwrap` around the daemon config conversion and TOML serialisation are taken to succeed.
- Installer.GoNext: requires at least one step, because the source computes `len - 1` on an unsigned length. The installer always has four.
- `Display` for `bitcoin::Network`: `Daemon.NetworkName` uses that crate's lower-case names, which come from code not shown here.
- gui/src/utils/mock.rs, a test-only threaded mock daemon, and gui/src/app/message.rs, the application's message enum with no behaviour.
