/** Concrete calls of the model, one per behaviour the repository's tests
    and the server's code pin down, each proved for the exact inputs. */
module Scenarios {
  import opened Wrappers
  import opened Text
  import opened Workspace
  import opened Commands
  import opened Executor
  import opened Handler

  /** `cargo_build` with no arguments runs plain `cargo build`, and with
      `release` and one feature puts the flag before the feature list. */
  lemma BuildVectors()
    ensures Dispatch("cargo_build", NoArguments) == Some(Build(None, None, None))
    ensures BuildArgs(Build(None, None, None)) == ["build"]
    ensures BuildArgs(Build(Some(true), Some(["serde"]), None)) == ["build", "--release", "--features", "serde"]
    ensures BuildArgs(Build(Some(true), Some(["serde", "tokio"]), None)) == ["build", "--release", "--features", "serde,tokio"]
  {
    assert Join(["serde", "tokio"], ",") == "serde" + "," + "tokio" == "serde,tokio";
  }

  /** Falsy options emit nothing: `false`, `""` and `[]` behave as absent. */
  lemma FalsyOptionsAreAbsent()
    ensures BuildArgs(Build(Some(false), Some([]), Some(""))) == ["build"]
    ensures BuildArgs(Run(Some(""), Some(false), Some([]), Some([]))) == ["run"]
    ensures BuildArgs(Clean) == ["clean"]
  {
  }

  /** `cargo_test` with a test name and `cargo_run` with pass-through
      arguments. */
  lemma PositionalAndPassThrough()
    ensures BuildArgs(Test(Some("parse"), Some(true), None)) == ["test", "parse", "--release"]
    ensures BuildArgs(Run(Some("calc"), None, None, Some(["1", "+", "2"]))) == ["run", "--bin", "calc", "--", "1", "+", "2"]
  {
  }

  /** The manifest is found in the start directory, in its parent, three
      levels up, or not at all; a manifest at the root is never found. */
  lemma FindCargoTomlCases()
    ensures FindCargoToml(["tmp", "p"], {["tmp", "p"]}) == Some(["tmp", "p", "Cargo.toml"])
    ensures FindCargoToml(["tmp", "p", "src"], {["tmp", "p"]}) == Some(["tmp", "p", "Cargo.toml"])
    ensures FindCargoToml(["tmp", "p", "a", "b", "c"], {["tmp", "p"]}) == Some(["tmp", "p", "Cargo.toml"])
    ensures FindCargoToml(["tmp", "q"], {["tmp", "p"]}) == None
    ensures FindCargoToml(["tmp", "q"], {[]}) == None
  {
    assert ["tmp", "p"] != Parent(["tmp", "p"]);
    assert FindCargoToml(["tmp", "p"], {["tmp", "p"]}) == Some(["tmp", "p"] + [ManifestName]);
    assert ["tmp", "p"] + [ManifestName] == ["tmp", "p", "Cargo.toml"];
    assert ["tmp", "p", "src"][..2] == ["tmp", "p"];
    assert ["tmp", "p", "a", "b", "c"][..4] == ["tmp", "p", "a", "b"];
    assert ["tmp", "p", "a", "b"][..3] == ["tmp", "p", "a"];
    assert ["tmp", "p", "a"][..2] == ["tmp", "p"];
  }

  /** Without `cargo` on the path nothing is spawned and the error is the
      not-installed one. */
  lemma CargoMissing(outcome: SpawnOutcome)
    ensures RunCargoCommand(["--version"], None, true, Host(false, ["w"], {}), outcome)
      == Execution(None, Failure(CargoError(NotInstalled)))
  {
  }

  /** A zero exit succeeds and a non-zero exit is a normal, unsuccessful
      result with its output kept. */
  lemma ExitCodes()
    ensures var r := RunCargoCommand(["--version"], None, true, Host(true, ["w"], {}), Exited(0, "cargo 1.70.0", ""));
      && r.result.Success?
      && r.result.value.success
      && r.result.value.exitCode == 0
      && r.result.value.stdout == Some("cargo 1.70.0")
      && r.result.value.workingDirectory == "."
      && r.result.value.command == "cargo --version"
    ensures var r := RunCargoCommand(["build"], Some("/p"), true, Host(true, ["w"], {}), Exited(1, "", "error: could not find Cargo.toml"));
      && r.result.Success?
      && !r.result.value.success
      && r.result.value.exitCode == 1
      && r.result.value.stderr == Some("error: could not find Cargo.toml")
      && r.result.value.workingDirectory == "/p"
  {
    assert Join(["cargo", "--version"], " ") == "cargo" + " " + "--version";
  }

  /** An unknown tool name spawns nothing and reports the name. */
  lemma UnknownTool(host: Host, outcome: SpawnOutcome)
    ensures HandleCallTool("unknown_tool", NoArguments, host, outcome)
      == Response(None, UnexpectedPrefix + UnknownToolPrefix + "unknown_tool")
  {
  }

  /** Started in `src` below the project root with no explicit workspace
      path, the command runs in the project root. */
  lemma RunsInProjectRoot()
    ensures WorkingDirectory(None, Host(true, ["home", "p", "src"], {["home", "p"]})) == "/home/p"
  {
    var start := ["home", "p", "src"];
    assert start[..2] == ["home", "p"];
    assert FindCargoToml(start, {["home", "p"]}) == Some(["home", "p"] + [ManifestName]);
    assert Parent(["home", "p"] + [ManifestName]) == ["home", "p"];
    assert Join(["home", "p"], "/") == "home" + "/" + "p";
  }

  /** A release build with two features, started below the project root,
      spawns `cargo build --release --features serde,tokio` there and
      reports that command line, its words joined by single spaces. */
  lemma EndToEndBuild(a: Arguments, host: Host)
    requires a == NoArguments.(release := Some(true), features := Some(["serde", "tokio"]))
    requires host == Host(true, ["home", "p", "src"], {["home", "p"]})
    ensures var r := HandleCallTool("cargo_build", a, host, Exited(0, "Finished", ""));
      var argv := ["cargo", "build", "--release", "--features", "serde,tokio"];
      && r.spawned == Some(SpawnRequest(argv, "/home/p", true))
      && r.text == ReportText(ExecResult(Join(argv, " "), 0, Some("Finished"), Some(""), true, "/home/p"))
  {
    var op := Build(Some(true), Some(["serde", "tokio"]), None);
    var args := ["build", "--release", "--features", "serde,tokio"];
    var argv := ["cargo"] + args;
    assert argv == ["cargo", "build", "--release", "--features", "serde,tokio"];
    assert "cargo_build" in ToolNames && Dispatch("cargo_build", a) == Some(op);
    BuildVectors();
    RunsInProjectRoot();
    CommandDisplay(args);
    var r := HandleCallTool("cargo_build", a, host, Exited(0, "Finished", ""));
    assert r.spawned == Some(SpawnRequest(argv, "/home/p", true));
    assert r.text == ReportText(ExecResult(Join(argv, " "), 0, Some("Finished"), Some(""), true, "/home/p"));
  }
}
