/** What the argument vector of each tool contains: the subcommand first,
    each requested option exactly once with its value right after it, the
    positional name at index 1 and the pass-through part after a single
    `--`. The table-driven reference of `Commands` is the partner of the
    branch-per-tool builder. */
module ArgvProperties {
  import opened Wrappers
  import opened Text
  import opened Commands

  lemma ExpandPieces(op: Operation, order: seq<OptionFlag>)
    ensures |order| == 1 ==> Expand(order, op) == Piece(op, order[0])
    ensures |order| == 2 ==> Expand(order, op) == Piece(op, order[0]) + Piece(op, order[1])
    ensures |order| == 3 ==> Expand(order, op) == Piece(op, order[0]) + Piece(op, order[1]) + Piece(op, order[2])
  {
    if |order| >= 2 {
      assert order[1..][1..] == order[2..];
      if |order| == 3 {
        assert order[2..][1..] == [];
      }
    }
  }

  lemma PiecesOfSwitch(op: Operation, f: OptionFlag, b: Option<bool>)
    requires Requested(op, f) == BoolOption(b)
    ensures Piece(op, f) == FlagArg(IsTrue(b), Spelling(f))
  {
  }

  lemma PiecesOfValue(op: Operation, f: OptionFlag, v: Option<string>)
    requires Requested(op, f) == StringOption(v)
    ensures Piece(op, f) == ValueArg(Spelling(f), v)
  {
  }

  lemma PiecesOfFeatures(op: Operation, feat: Option<seq<string>>)
    requires Requested(op, Features) == FeaturesOption(feat)
    ensures Piece(op, Features) == FeaturesArg(feat)
  {
  }

  /** The reference vector spelled out piece by piece, for the order
      lengths the tools use. */
  lemma ReferenceShape(op: Operation)
    ensures var order, head := FlagOrder(op), [Subcommand(op)] + Positional(op);
      && (|order| == 0 ==> ReferenceCargoArgs(op) == head)
      && (|order| == 1 ==> ReferenceCargoArgs(op) == head + Piece(op, order[0]))
      && (|order| == 2 ==> ReferenceCargoArgs(op) == head + Piece(op, order[0]) + Piece(op, order[1]))
      && (|order| == 3 ==> ReferenceCargoArgs(op) == head + Piece(op, order[0]) + Piece(op, order[1]) + Piece(op, order[2]))
  {
    ExpandPieces(op, FlagOrder(op));
  }

  /** The reference agrees with the builder for the tools with three flags. */
  lemma ReferenceBuildRun(op: Operation)
    requires op.Build? || op.Run?
    ensures CargoArgs(op) == ReferenceCargoArgs(op)
  {
    ReferenceShape(op);
    match op
    case Build(rel, feat, target) =>
      PiecesOfSwitch(op, Release, rel);
      PiecesOfFeatures(op, feat);
      PiecesOfValue(op, Target, target);
      assert [Subcommand(op)] + Positional(op) == ["build"];
    case Run(bin, rel, feat, _) =>
      PiecesOfValue(op, Bin, bin);
      PiecesOfSwitch(op, Release, rel);
      PiecesOfFeatures(op, feat);
      assert [Subcommand(op)] + Positional(op) == ["run"];
  }

  /** The reference agrees with the builder for `cargo_test` and `cargo_check`. */
  lemma ReferenceTestCheck(op: Operation)
    requires op.Test? || op.Check?
    ensures CargoArgs(op) == ReferenceCargoArgs(op)
  {
    ReferenceShape(op);
    match op
    case Test(name, rel, feat) =>
      PiecesOfSwitch(op, Release, rel);
      PiecesOfFeatures(op, feat);
    case Check(feat) =>
      PiecesOfFeatures(op, feat);
      assert [Subcommand(op)] + Positional(op) == ["check"];
  }

  /** The reference agrees with the builder for the remaining seven tools. */
  lemma ReferenceOthers(op: Operation)
    requires !(op.Build? || op.Test? || op.Run? || op.Check?)
    ensures CargoArgs(op) == ReferenceCargoArgs(op)
  {
    ReferenceShape(op);
    match op
    case Clippy(fix, feat) =>
      PiecesOfSwitch(op, Fix, fix);
      PiecesOfFeatures(op, feat);
      assert [Subcommand(op)] + Positional(op) == ["clippy"];
    case Fmt(check) =>
      PiecesOfSwitch(op, CheckOnly, check);
      assert [Subcommand(op)] + Positional(op) == ["fmt"];
    case Doc(open, noDeps) =>
      PiecesOfSwitch(op, Open, open);
      PiecesOfSwitch(op, NoDeps, noDeps);
      assert [Subcommand(op)] + Positional(op) == ["doc"];
    case Clean =>
      assert [Subcommand(op)] + Positional(op) == ["clean"];
    case Tree(pkg, feat) =>
      PiecesOfValue(op, Package, pkg);
      PiecesOfFeatures(op, feat);
      assert [Subcommand(op)] + Positional(op) == ["tree"];
    case Update(pkg) =>
      PiecesOfValue(op, Package, pkg);
      assert [Subcommand(op)] + Positional(op) == ["update"];
    case Bench(name, feat) =>
      PiecesOfFeatures(op, feat);
  }

  /** The branch-per-tool builder and the table-driven reference agree. */
  lemma CargoArgsMatchesReference(op: Operation)
    ensures CargoArgs(op) == ReferenceCargoArgs(op)
  {
    if op.Build? || op.Run? {
      ReferenceBuildRun(op);
    } else if op.Test? || op.Check? {
      ReferenceTestCheck(op);
    } else {
      ReferenceOthers(op);
    }
  }

  // ---------------------------------------------------------------------
  // Counting tokens

  /** Distinct flags are spelled differently. */
  lemma SpellingInjective(f: OptionFlag, g: OptionFlag)
    ensures Spelling(f) == Spelling(g) ==> f == g
  {
  }

  /** No flag is spelled like a subcommand or like the `--` separator. */
  lemma SpellingIsNoSubcommandOrSeparator(f: OptionFlag, op: Operation)
    ensures Spelling(f) != Subcommand(op)
    ensures Spelling(f) != "--"
  {
  }

  predicate NoDuplicates(order: seq<OptionFlag>) {
    forall i, j :: 0 <= i < j < |order| ==> order[i] != order[j]
  }

  /** Each tool lists every flag it accepts once, and only those flags can
      be requested. */
  lemma FlagOrderWellFormed(op: Operation, f: OptionFlag)
    ensures NoDuplicates(FlagOrder(op))
    ensures Requested(op, f).Some? ==> f in FlagOrder(op)
  {
  }

  /** A piece holds the flag once if it is requested, plus whatever copies
      of the flag's spelling its own value carries. */
  lemma PieceCount(op: Operation, g: OptionFlag, f: OptionFlag)
    ensures Count(Piece(op, g), Spelling(f))
      == (if f == g && Requested(op, g).Some? then 1 else 0) + Count(ValueOf(Requested(op, g)), Spelling(f))
  {
    SpellingInjective(f, g);
    var vs := ValueOf(Requested(op, g));
    if Requested(op, g).Some? {
      assert Piece(op, g) == [Spelling(g)] + vs;
      CountAppend([Spelling(g)], vs, Spelling(f));
    }
  }

  /** A flag's spelling occurs in the expansion once if it is in the order
      and requested, plus once for every caller value spelled like it. */
  lemma {:induction false} ExpandCount(order: seq<OptionFlag>, op: Operation, f: OptionFlag)
    requires NoDuplicates(order)
    ensures Count(Expand(order, op), Spelling(f))
      == (if f in order && Requested(op, f).Some? then 1 else 0) + Count(ExpandValues(order, op), Spelling(f))
    decreases |order|
  {
    if |order| > 0 {
      var g, rest := order[0], order[1..];
      var vs := ValueOf(Requested(op, g));
      assert ExpandValues(order, op) == vs + ExpandValues(rest, op);
      ExpandCount(rest, op, f);
      CountAppend(Piece(op, g), Expand(rest, op), Spelling(f));
      CountAppend(vs, ExpandValues(rest, op), Spelling(f));
      PieceCount(op, g, f);
      assert order == [g] + rest;
      assert forall k :: 0 <= k < |rest| ==> rest[k] == order[k + 1];
    }
  }

  /** Every token of the expansion is a flag of the order or a caller value. */
  lemma {:induction false} ExpandProvenance(order: seq<OptionFlag>, op: Operation, t: string)
    requires t in Expand(order, op)
    ensures t in ExpandValues(order, op) || exists g :: g in order && Spelling(g) == t
    decreases |order|
  {
    var g := order[0];
    var vs := ValueOf(Requested(op, g));
    assert ExpandValues(order, op) == vs + ExpandValues(order[1..], op);
    if t in Piece(op, g) {
      assert t == Spelling(g) || t in vs;
    } else {
      ExpandProvenance(order[1..], op, t);
    }
  }

  /** `a` sits at index `i` of `r` with `b` right after it. */
  predicate FollowedBy(r: seq<string>, i: int, a: string, b: string) {
    0 <= i < |r| - 1 && r[i] == a && r[i + 1] == b
  }

  /** A requested option appears in the expansion with its value right after it. */
  lemma {:induction false} ExpandAdjacent(order: seq<OptionFlag>, op: Operation, f: OptionFlag, v: string)
    requires f in order
    requires Requested(op, f) == Some(Value(v))
    ensures exists i :: FollowedBy(Expand(order, op), i, Spelling(f), v)
    decreases |order|
  {
    var e, p := Expand(order, op), Piece(op, order[0]);
    if order[0] == f {
      assert p == [Spelling(f), v];
      assert e == p + Expand(order[1..], op);
      assert FollowedBy(e, 0, Spelling(f), v);
    } else {
      ExpandAdjacent(order[1..], op, f, v);
      var rest := Expand(order[1..], op);
      var i :| FollowedBy(rest, i, Spelling(f), v);
      assert e == p + rest;
      assert FollowedBy(e, |p| + i, Spelling(f), v);
    }
  }

  // ---------------------------------------------------------------------
  // The properties of the argument vector

  /** Every option flag appears in the vector once if the caller requested
      it from a tool that accepts it (a switch set to `true`, a non-empty
      string, a non-empty feature list) and never otherwise, apart from the
      caller-supplied values that happen to be spelled like it. */
  lemma FlagCount(op: Operation, f: OptionFlag)
    ensures Count(BuildArgs(op), Spelling(f))
      == (if Requested(op, f).Some? then 1 else 0) + Count(Supplied(op), Spelling(f))
  {
    var t := Spelling(f);
    var head, e := [Subcommand(op)] + Positional(op), Expand(FlagOrder(op), op);
    CargoArgsMatchesReference(op);
    FlagOrderWellFormed(op, f);
    SpellingIsNoSubcommandOrSeparator(f, op);
    ExpandCount(FlagOrder(op), op, f);
    CountAppend(head, e, t);
    CountAppend([Subcommand(op)], Positional(op), t);
    CountAppend(CargoArgs(op), PassThrough(op), t);
    CountAppend(Positional(op), ExpandValues(FlagOrder(op), op), t);
    CountAppend(OptionValues(op), PassedArgs(op), t);
    if PassThrough(op) != [] {
      CountAppend(["--"], PassedArgs(op), t);
    }
  }

  /** When no caller value is spelled like the flag, it occurs exactly once
      if requested and not at all otherwise. */
  lemma FlagCountExact(op: Operation, f: OptionFlag)
    requires Spelling(f) !in Supplied(op)
    ensures Count(BuildArgs(op), Spelling(f)) == (if Requested(op, f).Some? then 1 else 0)
  {
    FlagCount(op, f);
    CountZero(Supplied(op), Spelling(f));
  }

  /** A requested option flag is followed directly by its value: the
      target, binary or package name, or the feature list joined by commas. */
  lemma FlagFollowedByValue(op: Operation, f: OptionFlag, v: string)
    requires Requested(op, f) == Some(Value(v))
    ensures exists i :: i >= 1 && FollowedBy(BuildArgs(op), i, Spelling(f), v)
  {
    var r := BuildArgs(op);
    CargoArgsMatchesReference(op);
    FlagOrderWellFormed(op, f);
    ExpandAdjacent(FlagOrder(op), op, f, v);
    var e := Expand(FlagOrder(op), op);
    var head := [Subcommand(op)] + Positional(op);
    var i :| FollowedBy(e, i, Spelling(f), v);
    FollowedByWithin(head, e, PassThrough(op), i, Spelling(f), v);
  }

  /** An adjacent pair stays adjacent inside a longer vector. */
  lemma FollowedByWithin(head: seq<string>, e: seq<string>, tail: seq<string>, i: int, a: string, b: string)
    requires FollowedBy(e, i, a, b)
    ensures FollowedBy(head + e + tail, |head| + i, a, b)
  {
    assert (head + e + tail)[|head| + i] == e[i];
    assert (head + e + tail)[|head| + i + 1] == e[i + 1];
  }

  /** A tool never emits a flag it does not accept: that spelling reaches
      the vector only inside caller-supplied values. */
  lemma NeverEmitsUnaccepted(op: Operation, f: OptionFlag)
    requires f !in FlagOrder(op)
    ensures Count(BuildArgs(op), Spelling(f)) == Count(Supplied(op), Spelling(f))
    ensures Spelling(f) !in Supplied(op) ==> Spelling(f) !in BuildArgs(op)
  {
    FlagOrderWellFormed(op, f);
    FlagCount(op, f);
    CountZero(BuildArgs(op), Spelling(f));
    CountZero(Supplied(op), Spelling(f));
  }

  /** `cargo_fmt` never asks for a release build, whatever the caller sends. */
  lemma FmtNeverReleases(check: Option<bool>)
    ensures "--release" !in BuildArgs(Fmt(check))
  {
    var op := Fmt(check);
    assert FlagOrder(op)[1..] == [];
    assert ExpandValues(FlagOrder(op), op) == [];
    NeverEmitsUnaccepted(Fmt(check), Release);
  }

  /** The positional test or bench name sits at index 1, directly after the
      subcommand. */
  lemma PositionalRightAfterSubcommand(op: Operation)
    ensures Positional(op) != [] ==> |BuildArgs(op)| >= 2 && BuildArgs(op)[1] == Positional(op)[0]
    ensures op.Test? && NonEmptyString(op.testName) ==> BuildArgs(op)[1] == op.testName.value
    ensures op.Bench? && NonEmptyString(op.benchName) ==> BuildArgs(op)[1] == op.benchName.value
  {
    CargoArgsMatchesReference(op);
  }

  /** The cargo part holds `--` only when a caller value is spelled `--`. */
  lemma CargoPartHasNoSeparator(op: Operation)
    ensures "--" in CargoArgs(op) ==> "--" in OptionValues(op)
  {
    var e := Expand(FlagOrder(op), op);
    CargoArgsMatchesReference(op);
    assert CargoArgs(op) == [Subcommand(op)] + Positional(op) + e;
    forall g | g in FlagOrder(op)
      ensures Spelling(g) != "--"
    {
      SpellingIsNoSubcommandOrSeparator(g, op);
    }
    if "--" in e {
      ExpandProvenance(FlagOrder(op), op, "--");
    }
  }

  /** `cargo_run`'s pass-through arguments follow a `--` that sits right
      after the cargo part, in order. When no caller value in the cargo part
      is itself `--`, that separator is the only `--`: it is in the vector
      exactly when there are arguments to pass, and nowhere before them. */
  lemma PassThroughSeparator(op: Operation)
    ensures op.Run? && NonEmptyList(op.args) ==>
      var r, n := BuildArgs(op), |CargoArgs(op)|;
      && r[n] == "--"
      && r[n + 1..] == op.args.value
    ensures "--" !in OptionValues(op) ==>
      ("--" in BuildArgs(op) <==> op.Run? && NonEmptyList(op.args))
    ensures "--" !in OptionValues(op) && op.Run? && NonEmptyList(op.args) ==>
      "--" !in BuildArgs(op)[..|CargoArgs(op)|]
  {
    var c := CargoArgs(op);
    if op.Run? && NonEmptyList(op.args) {
      assert BuildArgs(op) == c + (["--"] + op.args.value);
      assert BuildArgs(op)[..|c|] == c;
    }
    CargoPartHasNoSeparator(op);
  }



  /** The comma-joined feature list the vector carries splits back into the
      caller's features, in order, when no feature contains a comma. */
  lemma FeaturesRecoverable(op: Operation)
    requires Requested(op, Features).Some?
    requires op.Build? || op.Test? || op.Run? || op.Check? || op.Clippy? || op.Tree? || op.Bench?
    requires forall i :: 0 <= i < |op.features.value| ==> ',' !in op.features.value[i]
    ensures Requested(op, Features) == Some(Value(Join(op.features.value, ",")))
    ensures Split(Requested(op, Features).value.value, ',') == op.features.value
  {
    SplitJoin(op.features.value, ',');
  }
}
