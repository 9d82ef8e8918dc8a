# cargo-mcp: a Dafny model of the tool-call core

cargo-mcp is a Model Context Protocol server. It exposes eleven `cargo`
subcommands as tools: build, test, run, check, clippy, fmt, doc, clean,
tree, update and bench. For each tool call the server does four things:

- it picks the tool by name;
- it turns the call's `arguments` mapping into a `cargo` argument vector;
- it chooses a working directory, either the explicit `workspace_path` or
  the directory of the nearest `Cargo.toml` in or above the server's
  current directory;
- it runs `cargo` and formats the result record, or the error, as one text
  block.

This project models that core in Dafny and proves properties of it. Its
modules follow the structure of `src/cargo_mcp/server.py`:

| module | file | models |
|---|---|---|
| `Wrappers` | `wrappers.dfy` | `Option` (Python `None` or a value) and `Result` (a return or a raised error) |
| `Text` | `text.dfy` | `str.join`, splitting on one character, counting occurrences, and `str(int)` with a parser that inverts it |
| `Workspace` | `workspace.dfy` | `find_cargo_toml`, as a recursive function and as the loop the source writes |
| `Commands` | `commands.dfy` | the eleven tool names, one options record per tool, and the argument vector builder; also a second, table-driven definition of the same vector |
| `ArgvProperties` | `argv_properties.dfy` | properties of the argument vector, proved through the table-driven definition |
| `Executor` | `executor.dfy` | `run_cargo_command`: the availability check, the working directory, the spawn request, the result record and `CargoError` |
| `Handler` | `handler.dfy` | `handle_call_tool`: dispatch, output formatting and the two error envelopes |
| `Scenarios` | `scenarios.dfy` | concrete calls taken from the repository's tests and from the server's code |

## Modelling choices

**Truthiness.** Every tool argument keeps the value the caller sent, as an
`Option`. The builder applies Python truthiness the way the source's
`if arguments.get(key):` does:

- a switch needs `true`;
- a string needs to be non-empty;
- a list needs at least one item.

`workspace_path` is handled differently. `run_cargo_command` only replaces
`None`, so an empty `workspace_path` is passed on as the working directory.

**Host and spawn as inputs.** The host and the spawned process are values
the caller passes in:

- `Host` says whether `cargo` is on the search path (`shutil.which`), gives
  the resolved current directory as its sequence of path components, and
  gives the set of directories that hold a `Cargo.toml`;
- `SpawnOutcome` is either a failure to spawn, with its message, or an exit
  code together with the already decoded and stripped output streams.

`RunCargoCommand` returns the `SpawnRequest` it would issue. This makes
"nothing was spawned" a checkable result.

**Root directory.** `find_cargo_toml` stops as soon as a directory is its
own parent. It therefore never checks the filesystem root for a manifest.
The model keeps this behaviour, and `Workspace.RootNeverInspected` states it.

**Manifest path and unknown tools.** `find_cargo_toml` returns the path of
`Cargo.toml` itself, and `run_cargo_command` takes its `.parent`
(server.py:51, 71). An unknown tool name raises `ValueError`, which the
general handler turns into `Unexpected error: Unknown tool: <name>`
(server.py:470, 493).

**Reference definition.** The builder `Commands.CargoArgs` follows the
source's structure: one branch per tool, appending in source order. Beside
it, `Commands.ReferenceCargoArgs` builds the same vector from tables:

- the flags each tool accepts, in emission order (`FlagOrder`);
- how each flag is spelled (`Spelling`);
- what each requested flag carries (`Requested`).

`ArgvProperties.CargoArgsMatchesReference` proves that the two agree for
every input. The counting, adjacency and separator properties are then
proved once, by induction over the flag table, rather than once per branch.

## Model

| member | source | states |
|---|---|---|
| `Workspace.FindCargoToml` | src/cargo_mcp/server.py:44-54 | Finds nothing exactly when no non-root directory from the start upwards holds a manifest. Otherwise it returns `<dir>/Cargo.toml`, where `<dir>` is an ancestor of the start that holds a manifest and has no manifest below it on the way up. |
| `Workspace.FindCargoTomlIsNearest` | src/cargo_mcp/server.py:44-54 | Returns `d/Cargo.toml` if and only if `d` is the nearest directory holding a manifest, counting from the start upwards. |
| `Workspace.NearestMarkedUnique` | src/cargo_mcp/server.py:47-51 | The walk can stop in only one directory: there is at most one nearest manifest directory. |
| `Workspace.RootNeverInspected` | src/cargo_mcp/server.py:48 | Whether the filesystem root holds a `Cargo.toml` never changes the result, because the loop guard stops before the root is checked. |
| `Workspace.WalkUp` | src/cargo_mcp/server.py:46-54 | The `while` loop as written (check, step to the parent, stop at a self-parent) returns what the recursive definition returns. |
| `Commands.Dispatch` | src/cargo_mcp/server.py:372-470 | The name chain accepts a name if and only if it is one of the eleven catalogue names. The chosen record belongs to that same tool, and each of its fields holds the caller's value for the key of the same name (`release`, `features`, `target`, `test_name`, `bin_name`, `args`, `fix`, `check`, `open`, `no_deps`, `package`, `bench_name`). |
| `Commands.DispatchRoundTrip` | src/cargo_mcp/server.py:117-362 | The catalogue lists eleven distinct names. Dispatching a tool's own name with the arguments that request a record gives back exactly that record. |
| `Commands.ToolNameIsSubcommand` | src/cargo_mcp/server.py:372-465 | Every tool `cargo_X` runs the subcommand `X`, and every tool's name is in the catalogue. |
| `Commands.CargoArgs` | src/cargo_mcp/server.py:372-465 | The branch-per-tool builder as written. Its own contract says the vector starts with the tool's subcommand. `ArgvProperties.CargoArgsMatchesReference` states its full contents. |
| `Commands.BuildArgs` | src/cargo_mcp/server.py:372-467 | The vector is never empty, and it starts with the tool's own subcommand. |
| `ArgvProperties.CargoArgsMatchesReference` | src/cargo_mcp/server.py:372-465 | The branch-per-tool builder equals the table-driven reference for every input. The reference is the subcommand, then the positional name, then each accepted flag that was requested, in table order, with its value. |
| `ArgvProperties.FlagCount` | src/cargo_mcp/server.py:372-465 | For every input, a flag occurs in the vector once if the caller requested it from a tool that accepts it, and zero times otherwise, plus once for each caller-supplied value spelled like it. A request is a switch that is `true`, a non-empty string or a non-empty feature list. |
| `ArgvProperties.FlagCountExact` | src/cargo_mcp/server.py:372-465 | When no caller value is spelled like the flag, the flag occurs exactly once if requested and not at all otherwise. |
| `ArgvProperties.FlagFollowedByValue` | src/cargo_mcp/server.py:376-379 | Each requested value flag (`--features`, `--target`, `--bin`, `--package`) is followed directly by its value, somewhere after the subcommand. |
| `ArgvProperties.NeverEmitsUnaccepted` | src/cargo_mcp/server.py:372-465 | For a flag the tool does not accept, every occurrence of its spelling in the vector is a caller-supplied value. So the flag is absent whenever no caller value is spelled like it. |
| `ArgvProperties.FmtNeverReleases` | src/cargo_mcp/server.py:424-429 | `cargo_fmt` never emits `--release`. |
| `ArgvProperties.PositionalRightAfterSubcommand` | src/cargo_mcp/server.py:383-463 | A non-empty test or bench name sits at index 1, right after the subcommand. |
| `ArgvProperties.PassThroughSeparator` | src/cargo_mcp/server.py:394-405 | For every input, `cargo_run`'s pass-through arguments follow a `--` placed right after the cargo part, in order. When no caller value in the cargo part is literally `--`, `--` appears if and only if there are pass-through arguments, and never before them. |
| `ArgvProperties.CargoPartHasNoSeparator` | src/cargo_mcp/server.py:372-401 | The cargo part of the vector holds no `--` unless a caller value in it is literally `--`. |
| `ArgvProperties.FeaturesRecoverable` | src/cargo_mcp/server.py:376-377 | The single `--features` value is the caller's list joined by commas. Splitting it on commas gives the list back, in order. |
| `ArgvProperties.ExpandCount` | src/cargo_mcp/server.py:372-465 | In the table-driven expansion of a duplicate-free flag table, a flag's spelling occurs once if the flag is in the table and requested, zero times otherwise, plus once for each caller value spelled like it. |
| `ArgvProperties.ExpandAdjacent` | src/cargo_mcp/server.py:376-379 | In the table-driven expansion, a requested value flag is immediately followed by its value. |
| `Text.SplitJoin` | src/cargo_mcp/server.py:377 | Splitting a comma-joined, non-empty list of comma-free items gives back the list. |
| `Text.JoinSplit` | src/cargo_mcp/server.py:377 | Joining the pieces of a split, with the same separator, gives back the original string. |
| `Text.DecimalRoundTrip` | src/cargo_mcp/server.py:475 | The decimal rendering of any exit code, negative ones included, parses back to that code. |
| `Executor.WorkingDirectory` | src/cargo_mcp/server.py:66-73 | An explicit `cwd` always wins, even an empty one. Otherwise the result is the nearest manifest directory. It is `.` exactly when no such directory exists. |
| `Executor.RunCargoCommand` | src/cargo_mcp/server.py:57-113 | Spawns if and only if `cargo` is on the path, with `["cargo"] + args` in the chosen directory. The errors are the not-installed message and the spawn-failure message. The result is a record if and only if the process exited. `success` holds exactly for exit code 0. The output streams are present exactly when captured. |
| `Executor.CommandDisplay` | src/cargo_mcp/server.py:76 | The displayed command is `cargo` plus a space and the space-joined arguments. With no arguments it is just `cargo`. |
| `Handler.ReportText` | src/cargo_mcp/server.py:486 | The report is the lines joined with `\n`. Its contract says it starts with the `Command: ` line. `Handler.ReportLines` fixes every line, and `Handler.ReportHeaderReadable` reads the header back. |
| `Handler.ReportLines` | src/cargo_mcp/server.py:473-484 | There are four header lines, followed by a STDOUT section and a STDERR section. Each section has two lines and appears only when its stream is non-empty. The STDOUT banner appears only if stdout is shown, or if stderr's text is literally that banner. |
| `Handler.ReportHeaderReadable` | src/cargo_mcp/server.py:473-486 | Splitting the report on newlines gives back the command, the directory and the success flag. The exit-code line parses back to the exit code. |
| `Handler.ExitCodeLineReadable` | src/cargo_mcp/server.py:475 | The `Exit Code: ` line, with its label removed, parses back to the exit code. |
| `Handler.HandleCallTool` | src/cargo_mcp/server.py:366-493 | An unknown name spawns nothing and gives `Unexpected error: Unknown tool: <name>`. A known name spawns `cargo` with that tool's vector and working directory. A `CargoError` becomes `Error: ` plus its message. An exited process becomes the report of its record. |
| `Scenarios.BuildVectors` | tests/test_server.py:111-151 | `cargo_build` with no arguments runs `build`. With `release` and features, it runs `build --release --features serde[,tokio]`. |
| `Scenarios.FalsyOptionsAreAbsent` | src/cargo_mcp/server.py:374-405 | `false`, `""` and `[]` emit nothing, exactly as if the option were absent. |
| `Scenarios.PositionalAndPassThrough` | src/cargo_mcp/server.py:383-405 | A test name is positional. `cargo_run`'s arguments follow `--`. |
| `Scenarios.FindCargoTomlCases` | tests/test_server.py:20-45 | The manifest is found in the start directory, in a parent, and three levels up. It is not found when absent, and not found when it sits only at the root. |
| `Scenarios.CargoMissing` | tests/test_server.py:52-56 | Without `cargo` on the path, nothing is spawned and the error is the not-installed one. |
| `Scenarios.ExitCodes` | tests/test_server.py:59-87 | Exit 0 is a success, with its stdout and the `cargo --version` command line. Exit 1 is an unsuccessful result that keeps its stderr. |
| `Scenarios.UnknownTool` | tests/test_server.py:154-159 | An unknown tool name spawns nothing and reports the name. |
| `Scenarios.RunsInProjectRoot` | src/cargo_mcp/server.py:67-71 | Started in `src` below the project root, with no explicit path, the command runs in the project root. |
| `Scenarios.EndToEndBuild` | tests/test_server.py:131-151 | A release build with two features spawns `cargo build --release --features serde,tokio` in the project root. It reports that command line. |

## Left out

- The subprocess itself is not modelled: `asyncio` spawning, pipe draining, waiting, and UTF-8 decoding with replacement and `strip()`. A `SpawnOutcome` value stands in for all of it, and any exception while spawning is `SpawnFailed` with its message.
- `shutil.which`, `Path.resolve` and `Path.exists` are host inputs (`Host`), not modelled operations. Symlink resolution is assumed done.
  These queries are assumed not to fail. In the source, an exception from `Path.resolve` or `Path.exists` inside `find_cargo_toml` (for example, a deleted current directory) is raised outside `run_cargo_command`'s `try` (server.py:69, 78), so the text becomes `Unexpected error: <message>` (server.py:491-493). `Handler.HandleCallTool` never produces that envelope for a known tool name.
  Paths are rendered POSIX-style: `Workspace.Render` always joins the components with `/`.
- `handle_list_tools` is modelled by its tool names only. The JSON input schemas and descriptions are not part of the model.
- Ill-typed arguments cannot be written in the model, because its `Arguments` record is typed. `Handler.HandleCallTool` therefore produces the `Unexpected error:` envelope only for an unknown name. The source handles ill-typed arguments as follows:
  - a non-`str` `target`, `bin_name`, `package`, test name or `args` item passes into the vector untouched. The spawn then fails inside `run_cargo_command`'s `try` (server.py:78-113), so the text is `Error: Failed to run cargo command: …`;
  - a string `features` raises nothing: `",".join` runs over its characters, so `"serde"` gives `--features s,e,r,d,e` (server.py:377);
  - a truthy non-bool switch, such as `"release": "false"`, emits its flag (server.py:374);
  - a non-`str` item in `features`, or a truthy `features` or `args` that is not iterable, raises `TypeError` outside `run_cargo_command`. The text is then `Unexpected error: <message>` (server.py:377, 404, 491-493);
  - a string `args` is split into its characters after `--` (server.py:404).
- `capture_output=False` is modelled in `Executor.RunCargoCommand`, but the handler always passes `True`, as the source does.
- Logging, `main`, `cli_main` and the MCP server wiring are I/O and not modelled.
- The Rust crate under `test-project/` is test data for the server and is not part of this model.
- ArgvProperties.PassThroughSeparator: the if-and-only-if and the "nowhere before" clause assume that no caller value in the cargo part of the vector is literally `--`. If one is, `--` is in the vector even without pass-through arguments, and with them it also occurs before the separator. The position of the separator and of the arguments after it hold for every input.
- ArgvProperties.FeaturesRecoverable: covers only feature names without commas. Joining with commas loses the item boundaries otherwise.
- Handler.ReportHeaderReadable: covers only a command and working directory without line breaks. Otherwise the header no longer splits into four lines.
