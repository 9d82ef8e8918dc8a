/** The request handler `handle_call_tool`: dispatch on the tool name, build
    the argument vector, run it through the execution envelope, and turn
    the result record or the error into the one text block returned. */
module Handler {
  import opened Wrappers
  import opened Text
  import opened Commands
  import opened Executor

  const ErrorPrefix: string := "Error: "
  const UnexpectedPrefix: string := "Unexpected error: "
  const UnknownToolPrefix: string := "Unknown tool: "
  const CommandLabel: string := "Command: "
  const DirectoryLabel: string := "Working Directory: "
  const ExitCodeLabel: string := "Exit Code: "
  const SuccessLabel: string := "Success: "
  const StdoutBanner: string := "\n--- STDOUT ---"
  const StderrBanner: string := "\n--- STDERR ---"

  /** The single text block of the response, and the spawn the call issued. */
  datatype Response = Response(spawned: Option<SpawnRequest>, text: string)

  /** `f"{b}"` for a Python bool. */
  function PyBool(b: bool): string {
    if b then "True" else "False"
  }

  /** `result.get(key)` is truthy: present and non-empty. */
  predicate Shown(stream: Option<string>) {
    stream.Some? && stream.value != ""
  }

  /** The four header lines every report starts with. */
  function HeaderLines(e: ExecResult): seq<string> {
    [ CommandLabel + e.command,
      DirectoryLabel + e.workingDirectory,
      ExitCodeLabel + IntToDecimal(e.exitCode),
      SuccessLabel + PyBool(e.success) ]
  }

  /** `output_lines` for a result record: the header, then a STDOUT section
      and a STDERR section, each only when that stream is non-empty. */
  function ReportLines(e: ExecResult): (r: seq<string>)
    ensures |r| == 4 + (if Shown(e.stdout) then 2 else 0) + (if Shown(e.stderr) then 2 else 0)
    ensures r[..4] == HeaderLines(e)
    ensures Shown(e.stdout) ==> r[4] == StdoutBanner && r[5] == e.stdout.value
    ensures Shown(e.stderr) ==> r[|r| - 2] == StderrBanner && r[|r| - 1] == e.stderr.value
    ensures StdoutBanner in r[4..] ==> Shown(e.stdout) || (Shown(e.stderr) && e.stderr.value == StdoutBanner)
  {
    HeaderLines(e)
    + (if Shown(e.stdout) then [StdoutBanner, e.stdout.value] else [])
    + (if Shown(e.stderr) then [StderrBanner, e.stderr.value] else [])
  }

  /** `"\n".join(output_lines)`. */
  function ReportText(e: ExecResult): (r: string)
    ensures |r| >= |CommandLabel + e.command| && r[..|CommandLabel + e.command|] == CommandLabel + e.command
  {
    Join(ReportLines(e), "\n")
  }

  /** When the command and the directory are single lines, the first four
      lines of the report give back the command, the directory, the exit
      code and the success flag. */
  lemma ReportHeaderReadable(e: ExecResult)
    requires '\n' !in e.command && '\n' !in e.workingDirectory
    ensures var lines := Split(ReportText(e), '\n');
      && |lines| >= 4
      && lines[0] == CommandLabel + e.command
      && lines[1] == DirectoryLabel + e.workingDirectory
      && lines[3] == SuccessLabel + PyBool(e.success)
      && |lines[2]| > |ExitCodeLabel|
      && lines[2][..|ExitCodeLabel|] == ExitCodeLabel
      && ParseInt(lines[2][|ExitCodeLabel|..]) == Some(e.exitCode)
  {
    HeaderSingleLines(e);
    SplitJoinPrefix(ReportLines(e), '\n', 4);
    var lines := Split(ReportText(e), '\n');
    assert lines[..4] == HeaderLines(e);
    ExitCodeLineReadable(e.exitCode);
  }

  /** No header line contains a line break of its own. */
  lemma HeaderSingleLines(e: ExecResult)
    requires '\n' !in e.command && '\n' !in e.workingDirectory
    ensures forall i :: 0 <= i < 4 ==> '\n' !in HeaderLines(e)[i]
  {
    var digits := IntToDecimal(e.exitCode);
    assert '\n' !in digits by {
      assert forall i :: 0 <= i < |digits| ==> digits[i] != '\n';
    }
    assert '\n' !in CommandLabel && '\n' !in DirectoryLabel;
    assert '\n' !in ExitCodeLabel && '\n' !in SuccessLabel;
    assert '\n' !in PyBool(e.success);
  }

  /** The exit-code line parses back to the exit code. */
  lemma ExitCodeLineReadable(code: int)
    ensures var line := ExitCodeLabel + IntToDecimal(code);
      && |line| > |ExitCodeLabel|
      && line[..|ExitCodeLabel|] == ExitCodeLabel
      && ParseInt(line[|ExitCodeLabel|..]) == Some(code)
  {
    var line := ExitCodeLabel + IntToDecimal(code);
    assert line[|ExitCodeLabel|..] == IntToDecimal(code);
    DecimalRoundTrip(code);
  }

  /** `handle_call_tool(name, arguments)`, with the host and the outcome of
      the spawn as inputs. */
  function HandleCallTool(name: string, a: Arguments, host: Host, outcome: SpawnOutcome): (r: Response)
    ensures name !in ToolNames ==> r == Response(None, UnexpectedPrefix + UnknownToolPrefix + name)
    ensures name in ToolNames ==>
      var op := Dispatch(name, a).value;
      r.spawned == (if host.cargoOnPath
                    then Some(SpawnRequest(["cargo"] + BuildArgs(op), WorkingDirectory(a.workspacePath, host), true))
                    else None)
    ensures name in ToolNames && !host.cargoOnPath ==>
      r.text == ErrorPrefix + NotInstalled
    ensures name in ToolNames && host.cargoOnPath && outcome.SpawnFailed? ==>
      r.text == ErrorPrefix + SpawnFailurePrefix + outcome.reason
    ensures name in ToolNames && host.cargoOnPath && outcome.Exited? ==>
      var op := Dispatch(name, a).value;
      r.text == ReportText(ExecResult(
        "cargo " + Join(BuildArgs(op), " "),
        outcome.exitCode,
        Some(outcome.stdout),
        Some(outcome.stderr),
        outcome.exitCode == 0,
        WorkingDirectory(a.workspacePath, host)))
  {
    match Dispatch(name, a)
    case None => Response(None, UnexpectedPrefix + UnknownToolPrefix + name)
    case Some(op) =>
      var args := BuildArgs(op);
      CommandDisplay(args);
      var run := RunCargoCommand(args, a.workspacePath, true, host, outcome);
      match run.result
      case Success(e) => Response(run.spawned, ReportText(e))
      case Failure(err) => Response(run.spawned, ErrorPrefix + err.message)
  }
}
