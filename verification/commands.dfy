/** The command builder of `handle_call_tool`: the closed catalogue of eleven
    tool names, one options record per tool, and the argument vector handed
    to `cargo` for each.

    Each option is kept as the caller sent it, absent (`None`) or present,
    and the builder applies Python truthiness the way `arguments.get(key)`
    in an `if` does: a flag needs `true`, a string needs to be non-empty, a
    list needs an item. */
module Commands {
  import opened Wrappers
  import opened Text

  /** The `arguments` mapping of a tool call, one entry per key the server
      reads (`workspace_path` is read for every tool). */
  datatype Arguments = Arguments(
    release: Option<bool>,
    features: Option<seq<string>>,
    target: Option<string>,
    testName: Option<string>,
    binName: Option<string>,
    args: Option<seq<string>>,
    fix: Option<bool>,
    check: Option<bool>,
    open: Option<bool>,
    noDeps: Option<bool>,
    package: Option<string>,
    benchName: Option<string>,
    workspacePath: Option<string>)

  /** A call with no arguments at all (`{}`). */
  const NoArguments: Arguments :=
    Arguments(None, None, None, None, None, None, None, None, None, None, None, None, None)

  /** One record per tool, holding only the options that tool reads. */
  datatype Operation =
    | Build(release: Option<bool>, features: Option<seq<string>>, target: Option<string>)
    | Test(testName: Option<string>, release: Option<bool>, features: Option<seq<string>>)
    | Run(binName: Option<string>, release: Option<bool>, features: Option<seq<string>>, args: Option<seq<string>>)
    | Check(features: Option<seq<string>>)
    | Clippy(fix: Option<bool>, features: Option<seq<string>>)
    | Fmt(check: Option<bool>)
    | Doc(open: Option<bool>, noDeps: Option<bool>)
    | Clean
    | Tree(package: Option<string>, features: Option<seq<string>>)
    | Update(package: Option<string>)
    | Bench(benchName: Option<string>, features: Option<seq<string>>)

  /** The tool names of `handle_list_tools`, in the order it lists them. */
  const ToolNames: seq<string> := [
    "cargo_build", "cargo_test", "cargo_run", "cargo_check", "cargo_clippy", "cargo_fmt",
    "cargo_doc", "cargo_clean", "cargo_tree", "cargo_update", "cargo_bench"
  ]

  function ToolName(op: Operation): string {
    match op
    case Build(_, _, _) => "cargo_build"
    case Test(_, _, _) => "cargo_test"
    case Run(_, _, _, _) => "cargo_run"
    case Check(_) => "cargo_check"
    case Clippy(_, _) => "cargo_clippy"
    case Fmt(_) => "cargo_fmt"
    case Doc(_, _) => "cargo_doc"
    case Clean => "cargo_clean"
    case Tree(_, _) => "cargo_tree"
    case Update(_) => "cargo_update"
    case Bench(_, _) => "cargo_bench"
  }

  /** The cargo subcommand each tool runs. */
  function Subcommand(op: Operation): string {
    match op
    case Build(_, _, _) => "build"
    case Test(_, _, _) => "test"
    case Run(_, _, _, _) => "run"
    case Check(_) => "check"
    case Clippy(_, _) => "clippy"
    case Fmt(_) => "fmt"
    case Doc(_, _) => "doc"
    case Clean => "clean"
    case Tree(_, _) => "tree"
    case Update(_) => "update"
    case Bench(_, _) => "bench"
  }

  /** The `if name == ...` chain: picks the record for a known tool name and
      copies into it the options that tool reads; any other name is refused. */
  function Dispatch(name: string, a: Arguments): (r: Option<Operation>)
    ensures r.Some? <==> name in ToolNames
    ensures r.Some? ==> ToolName(r.value) == name
    // Each field holds the caller's value for the key of the same name.
    ensures r.Some? && (r.value.Build? || r.value.Test? || r.value.Run?) ==> r.value.release == a.release
    ensures r.Some? && !(r.value.Fmt? || r.value.Doc? || r.value.Clean? || r.value.Update?) ==>
      r.value.features == a.features
    ensures r.Some? && r.value.Build? ==> r.value.target == a.target
    ensures r.Some? && r.value.Test? ==> r.value.testName == a.testName
    ensures r.Some? && r.value.Run? ==> r.value.binName == a.binName && r.value.args == a.args
    ensures r.Some? && r.value.Clippy? ==> r.value.fix == a.fix
    ensures r.Some? && r.value.Fmt? ==> r.value.check == a.check
    ensures r.Some? && r.value.Doc? ==> r.value.open == a.open && r.value.noDeps == a.noDeps
    ensures r.Some? && (r.value.Tree? || r.value.Update?) ==> r.value.package == a.package
    ensures r.Some? && r.value.Bench? ==> r.value.benchName == a.benchName
  {
    if name == "cargo_build" then Some(Build(a.release, a.features, a.target))
    else if name == "cargo_test" then Some(Test(a.testName, a.release, a.features))
    else if name == "cargo_run" then Some(Run(a.binName, a.release, a.features, a.args))
    else if name == "cargo_check" then Some(Check(a.features))
    else if name == "cargo_clippy" then Some(Clippy(a.fix, a.features))
    else if name == "cargo_fmt" then Some(Fmt(a.check))
    else if name == "cargo_doc" then Some(Doc(a.open, a.noDeps))
    else if name == "cargo_clean" then Some(Clean)
    else if name == "cargo_tree" then Some(Tree(a.package, a.features))
    else if name == "cargo_update" then Some(Update(a.package))
    else if name == "cargo_bench" then Some(Bench(a.benchName, a.features))
    else None
  }

  /** The arguments mapping a caller sends to request exactly `op`. */
  function ArgumentsOf(op: Operation): Arguments {
    match op
    case Build(rel, feat, target) => NoArguments.(release := rel, features := feat, target := target)
    case Test(name, rel, feat) => NoArguments.(testName := name, release := rel, features := feat)
    case Run(bin, rel, feat, args) => NoArguments.(binName := bin, release := rel, features := feat, args := args)
    case Check(feat) => NoArguments.(features := feat)
    case Clippy(fix, feat) => NoArguments.(fix := fix, features := feat)
    case Fmt(check) => NoArguments.(check := check)
    case Doc(open, noDeps) => NoArguments.(open := open, noDeps := noDeps)
    case Clean => NoArguments
    case Tree(pkg, feat) => NoArguments.(package := pkg, features := feat)
    case Update(pkg) => NoArguments.(package := pkg)
    case Bench(name, feat) => NoArguments.(benchName := name, features := feat)
  }

  /** Every tool name is `cargo_` followed by the subcommand it runs. */
  lemma ToolNameIsSubcommand(op: Operation)
    ensures ToolName(op) == "cargo_" + Subcommand(op)
    ensures ToolName(op) in ToolNames
  {
  }

  /** The catalogue has eleven distinct names, and dispatching a tool's own
      name with the arguments that request `op` yields `op` back. */
  lemma DispatchRoundTrip(op: Operation)
    ensures |ToolNames| == 11
    ensures forall i, j :: 0 <= i < j < |ToolNames| ==> ToolNames[i] != ToolNames[j]
    ensures Dispatch(ToolName(op), ArgumentsOf(op)) == Some(op)
  {
  }

  // ---------------------------------------------------------------------
  // Python truthiness of an `arguments.get(key)` value

  predicate IsTrue(b: Option<bool>) {
    b == Some(true)
  }

  predicate NonEmptyString(s: Option<string>) {
    s.Some? && s.value != ""
  }

  predicate NonEmptyList(l: Option<seq<string>>) {
    l.Some? && l.value != []
  }

  // ---------------------------------------------------------------------
  // The builder as the source writes it: one branch per tool, appending in
  // a fixed order.

  function FlagArg(on: bool, flag: string): seq<string> {
    if on then [flag] else []
  }

  function ValueArg(flag: string, v: Option<string>): seq<string> {
    if NonEmptyString(v) then [flag, v.value] else []
  }

  function FeaturesArg(features: Option<seq<string>>): seq<string> {
    if NonEmptyList(features) then ["--features", Join(features.value, ",")] else []
  }

  function PositionalArg(v: Option<string>): seq<string> {
    if NonEmptyString(v) then [v.value] else []
  }

  /** The arguments meant for cargo itself, before any pass-through part.
      `ArgvProperties.CargoArgsMatchesReference` states what it contains. */
  function CargoArgs(op: Operation): (r: seq<string>)
    ensures |r| >= 1 && r[0] == Subcommand(op)
  {
    match op
    case Build(rel, feat, target) =>
      ["build"] + FlagArg(IsTrue(rel), "--release") + FeaturesArg(feat) + ValueArg("--target", target)
    case Test(name, rel, feat) =>
      ["test"] + PositionalArg(name) + FlagArg(IsTrue(rel), "--release") + FeaturesArg(feat)
    case Run(bin, rel, feat, _) =>
      ["run"] + ValueArg("--bin", bin) + FlagArg(IsTrue(rel), "--release") + FeaturesArg(feat)
    case Check(feat) =>
      ["check"] + FeaturesArg(feat)
    case Clippy(fix, feat) =>
      ["clippy"] + FlagArg(IsTrue(fix), "--fix") + FeaturesArg(feat)
    case Fmt(check) =>
      ["fmt"] + FlagArg(IsTrue(check), "--check")
    case Doc(open, noDeps) =>
      ["doc"] + FlagArg(IsTrue(open), "--open") + FlagArg(IsTrue(noDeps), "--no-deps")
    case Clean =>
      ["clean"]
    case Tree(pkg, feat) =>
      ["tree"] + ValueArg("--package", pkg) + FeaturesArg(feat)
    case Update(pkg) =>
      ["update"] + ValueArg("--package", pkg)
    case Bench(name, feat) =>
      ["bench"] + PositionalArg(name) + FeaturesArg(feat)
  }

  /** `cargo_run`'s arguments for the built binary, after a `--` token. */
  function PassThrough(op: Operation): seq<string> {
    if op.Run? && NonEmptyList(op.args) then ["--"] + op.args.value else []
  }

  /** The argument vector passed to `run_cargo_command` for `op`. */
  function BuildArgs(op: Operation): (r: seq<string>)
    ensures |r| >= 1 && r[0] == Subcommand(op)
  {
    CargoArgs(op) + PassThrough(op)
  }

  // ---------------------------------------------------------------------
  // A table-driven reference for the same vector: which option flags each
  // tool accepts, in emission order, and what each requested flag carries.

  /** The option flags the tools emit. */
  datatype OptionFlag = Release | Features | Target | Bin | Fix | CheckOnly | Open | NoDeps | Package

  /** How a flag is spelled on the command line. */
  function Spelling(f: OptionFlag): string {
    match f
    case Release => "--release"
    case Features => "--features"
    case Target => "--target"
    case Bin => "--bin"
    case Fix => "--fix"
    case CheckOnly => "--check"
    case Open => "--open"
    case NoDeps => "--no-deps"
    case Package => "--package"
  }

  /** The option flags `op` accepts, in the order it emits them. */
  function FlagOrder(op: Operation): seq<OptionFlag> {
    match op
    case Build(_, _, _) => [Release, Features, Target]
    case Test(_, _, _) => [Release, Features]
    case Run(_, _, _, _) => [Bin, Release, Features]
    case Check(_) => [Features]
    case Clippy(_, _) => [Fix, Features]
    case Fmt(_) => [CheckOnly]
    case Doc(_, _) => [Open, NoDeps]
    case Clean => []
    case Tree(_, _) => [Package, Features]
    case Update(_) => [Package]
    case Bench(_, _) => [Features]
  }

  /** What a requested flag carries: nothing for a switch, one value token
      for an option. */
  datatype Setting = Switch | Value(value: string)

  function BoolOption(b: Option<bool>): Option<Setting> {
    if IsTrue(b) then Some(Switch) else None
  }

  function StringOption(s: Option<string>): Option<Setting> {
    if NonEmptyString(s) then Some(Value(s.value)) else None
  }

  function FeaturesOption(features: Option<seq<string>>): Option<Setting> {
    if NonEmptyList(features) then Some(Value(Join(features.value, ","))) else None
  }

  /** Whether the caller asked `op` for flag `f`, and if so the tokens that
      follow it. A flag the tool does not accept is never requested. */
  function Requested(op: Operation, f: OptionFlag): Option<Setting> {
    match (op, f)
    case (Build(rel, _, _), Release) => BoolOption(rel)
    case (Build(_, feat, _), Features) => FeaturesOption(feat)
    case (Build(_, _, target), Target) => StringOption(target)
    case (Test(_, rel, _), Release) => BoolOption(rel)
    case (Test(_, _, feat), Features) => FeaturesOption(feat)
    case (Run(bin, _, _, _), Bin) => StringOption(bin)
    case (Run(_, rel, _, _), Release) => BoolOption(rel)
    case (Run(_, _, feat, _), Features) => FeaturesOption(feat)
    case (Check(feat), Features) => FeaturesOption(feat)
    case (Clippy(fix, _), Fix) => BoolOption(fix)
    case (Clippy(_, feat), Features) => FeaturesOption(feat)
    case (Fmt(check), CheckOnly) => BoolOption(check)
    case (Doc(open, _), Open) => BoolOption(open)
    case (Doc(_, noDeps), NoDeps) => BoolOption(noDeps)
    case (Tree(pkg, _), Package) => StringOption(pkg)
    case (Tree(_, feat), Features) => FeaturesOption(feat)
    case (Update(pkg), Package) => StringOption(pkg)
    case (Bench(_, feat), Features) => FeaturesOption(feat)
    case _ => None
  }

  /** The bare positional token right after the subcommand, if any. */
  function Positional(op: Operation): seq<string> {
    match op
    case Test(name, _, _) => PositionalArg(name)
    case Bench(name, _) => PositionalArg(name)
    case _ => []
  }

  /** Flag `f` followed by its tokens when `op` requests it, else nothing. */
  function Piece(op: Operation, f: OptionFlag): seq<string> {
    match Requested(op, f)
    case Some(Switch) => [Spelling(f)]
    case Some(Value(v)) => [Spelling(f), v]
    case None => []
  }

  /** The caller value a requested flag carries, if any. */
  function ValueOf(s: Option<Setting>): seq<string> {
    match s
    case Some(Value(v)) => [v]
    case _ => []
  }

  /** Each flag of `order` that `op` requests, followed by its tokens. */
  function Expand(order: seq<OptionFlag>, op: Operation): seq<string>
    decreases |order|
  {
    if |order| == 0 then [] else Piece(op, order[0]) + Expand(order[1..], op)
  }

  /** The caller-supplied values `Expand` copies in, in order. */
  function ExpandValues(order: seq<OptionFlag>, op: Operation): seq<string>
    decreases |order|
  {
    if |order| == 0 then []
    else ValueOf(Requested(op, order[0])) + ExpandValues(order[1..], op)
  }

  /** The caller-supplied strings in the cargo part of the vector: a
      positional name, option values, a joined feature list. */
  function OptionValues(op: Operation): seq<string> {
    Positional(op) + ExpandValues(FlagOrder(op), op)
  }

  /** The arguments `cargo_run` passes through to the built binary. */
  function PassedArgs(op: Operation): seq<string> {
    if op.Run? && NonEmptyList(op.args) then op.args.value else []
  }

  /** Every caller-supplied string that lands anywhere in the vector. */
  function Supplied(op: Operation): seq<string> {
    OptionValues(op) + PassedArgs(op)
  }

  function ReferenceCargoArgs(op: Operation): seq<string> {
    [Subcommand(op)] + Positional(op) + Expand(FlagOrder(op), op)
  }
}
