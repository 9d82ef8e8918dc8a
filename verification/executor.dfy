/** The execution envelope of `run_cargo_command`: the availability check,
    the choice of working directory, the spawn request, and the result
    record or `CargoError` built from what the spawn reports.

    The spawn itself is not modelled. What the host looks like (whether
    `cargo` is on the search path, the resolved current directory, which
    directories hold a `Cargo.toml`) is a `Host` value, and what the spawned
    process did is a `SpawnOutcome` value. The model returns the spawn it
    would issue, so that "nothing was spawned" is observable. */
module Executor {
  import opened Wrappers
  import opened Text
  import opened Workspace

  datatype Host = Host(cargoOnPath: bool, currentDir: Path, manifestDirs: set<Path>)

  /** What creating and awaiting the subprocess produced: an exception with
      its message, or an exit code with the captured, decoded and stripped
      output streams. */
  datatype SpawnOutcome =
    | SpawnFailed(reason: string)
    | Exited(exitCode: int, stdout: string, stderr: string)

  /** The subprocess the server asks for: `cmd`, the working directory, and
      whether both output streams are piped and captured. */
  datatype SpawnRequest = SpawnRequest(argv: seq<string>, cwd: string, captureOutput: bool)

  /** The result dictionary; `stdout` and `stderr` are absent keys when the
      output was not captured. */
  datatype ExecResult = ExecResult(
    command: string,
    exitCode: int,
    stdout: Option<string>,
    stderr: Option<string>,
    success: bool,
    workingDirectory: string)

  datatype CargoError = CargoError(message: string)

  /** One call of `run_cargo_command`: the spawn it issued, if any, and what
      it returned or raised. */
  datatype Execution = Execution(spawned: Option<SpawnRequest>, result: Result<ExecResult, CargoError>)

  const NotInstalled: string := "Cargo is not installed or not in PATH"
  const SpawnFailurePrefix: string := "Failed to run cargo command: "

  /** The directory the command runs in: the explicit `cwd` when one is
      given (even an empty one, since only `None` is replaced), else the
      directory of the nearest `Cargo.toml` in or above the current directory,
      else `.`. */
  function WorkingDirectory(cwd: Option<string>, host: Host): (r: string)
    ensures cwd.Some? ==> r == cwd.value
    ensures cwd.None? ==> (r == "." <==> NoneMarked(host.currentDir, host.manifestDirs))
    ensures forall d :: cwd.None? && NearestMarked(d, host.currentDir, host.manifestDirs) ==> r == Render(d)
  {
    if cwd.Some? then cwd.value
    else
      match FindCargoToml(host.currentDir, host.manifestDirs)
      case Some(manifest) =>
        assert forall d :: NearestMarked(d, host.currentDir, host.manifestDirs) ==> d == Parent(manifest) by {
          forall d | NearestMarked(d, host.currentDir, host.manifestDirs) {
            NearestMarkedUnique(d, Parent(manifest), host.currentDir, host.manifestDirs);
          }
        }
        assert Render(Parent(manifest))[0] == '/';
        Render(Parent(manifest))
      case None => "."
  }

  /** `run_cargo_command(args, cwd, capture_output)`. */
  function RunCargoCommand(args: seq<string>, cwd: Option<string>, captureOutput: bool,
                           host: Host, outcome: SpawnOutcome): (r: Execution)
    ensures r.spawned.Some? <==> host.cargoOnPath
    ensures !host.cargoOnPath ==> r.result == Failure(CargoError(NotInstalled))
    ensures r.spawned.Some? ==>
      r.spawned.value == SpawnRequest(["cargo"] + args, WorkingDirectory(cwd, host), captureOutput)
    ensures host.cargoOnPath && outcome.SpawnFailed? ==>
      r.result == Failure(CargoError(SpawnFailurePrefix + outcome.reason))
    ensures r.result.Success? <==> host.cargoOnPath && outcome.Exited?
    ensures r.result.Success? ==>
      var e := r.result.value;
      && e.exitCode == outcome.exitCode
      && e.success == (e.exitCode == 0)
      && e.workingDirectory == r.spawned.value.cwd
      && e.command == Join(r.spawned.value.argv, " ")
      && (e.stdout.Some? <==> captureOutput) && (e.stderr.Some? <==> captureOutput)
      && (captureOutput ==> e.stdout.value == outcome.stdout && e.stderr.value == outcome.stderr)
  {
    if !host.cargoOnPath then
      Execution(None, Failure(CargoError(NotInstalled)))
    else
      var wd := WorkingDirectory(cwd, host);
      var cmd := ["cargo"] + args;
      var request := SpawnRequest(cmd, wd, captureOutput);
      match outcome
      case SpawnFailed(reason) =>
        Execution(Some(request), Failure(CargoError(SpawnFailurePrefix + reason)))
      case Exited(code, out, err) =>
        var record :=
          if captureOutput then ExecResult(Join(cmd, " "), code, Some(out), Some(err), code == 0, wd)
          else ExecResult(Join(cmd, " "), code, None, None, code == 0, wd);
        Execution(Some(request), Success(record))
  }

  /** The displayed command is `cargo` followed by the arguments, separated
      by single spaces; with no arguments it is just `cargo`. */
  lemma CommandDisplay(args: seq<string>)
    ensures args != [] ==> Join(["cargo"] + args, " ") == "cargo " + Join(args, " ")
    ensures args == [] ==> Join(["cargo"] + args, " ") == "cargo"
  {
    if args != [] {
      assert (["cargo"] + args)[1..] == args;
    }
  }
}
