/** The workspace resolver, `find_cargo_toml`: from a starting directory, walk
    up the directory tree to the nearest directory that holds `Cargo.toml`.

    The filesystem is abstract. A resolved absolute path is its sequence of
    components (`/home/p/src` is `["home", "p", "src"]`), the root is `[]`,
    and the parent of a path drops its last component (the root is its own
    parent). Which directories hold a `Cargo.toml` is a set of paths. */
module Workspace {
  import opened Wrappers
  import opened Text

  type Path = seq<string>

  const ManifestName: string := "Cargo.toml"

  /** `path.parent`: the root is its own parent. */
  function Parent(p: Path): (r: Path)
    ensures p == [] ==> r == []
    ensures p != [] ==> |r| == |p| - 1 && r == p[..|r|]
  {
    if p == [] then [] else p[..|p| - 1]
  }

  /** `str(path)` for an absolute path. */
  function Render(p: Path): string {
    "/" + Join(p, "/")
  }

  /** `d` is `p` or one of its ancestors. */
  predicate IsAncestorOrSelf(d: Path, p: Path) {
    |d| <= |p| && d == p[..|d|]
  }

  /** `d` is the directory the upward walk from `start` stops at: a non-root
      directory on the chain from `start` up, holding a manifest, with no
      manifest in any directory strictly between `start` and it. */
  ghost predicate NearestMarked(d: Path, start: Path, marked: set<Path>) {
    && d != []
    && IsAncestorOrSelf(d, start)
    && d in marked
    && forall j :: |d| < j <= |start| ==> start[..j] !in marked
  }

  /** No non-root directory from `start` up holds a manifest. */
  ghost predicate NoneMarked(start: Path, marked: set<Path>) {
    forall k :: 1 <= k <= |start| ==> start[..k] !in marked
  }

  /** `find_cargo_toml(start)`: the manifest path of the nearest directory
      from `start` up that holds one, never looking at the root itself. */
  function FindCargoToml(start: Path, marked: set<Path>): (r: Option<Path>)
    ensures r.None? <==> NoneMarked(start, marked)
    ensures r.Some? ==> r.value == Parent(r.value) + [ManifestName]
    ensures r.Some? ==> NearestMarked(Parent(r.value), start, marked)
    decreases |start|
  {
    if start == Parent(start) then None
    else if start in marked then
      assert start[..|start|] == start;
      Some(start + [ManifestName])
    else
      assert start[..|start|] == start;
      assert forall j :: 0 <= j < |start| ==> Parent(start)[..j] == start[..j];
      FindCargoToml(Parent(start), marked)
  }

  /** At most one directory is the nearest marked one. */
  lemma NearestMarkedUnique(d1: Path, d2: Path, start: Path, marked: set<Path>)
    requires NearestMarked(d1, start, marked)
    requires NearestMarked(d2, start, marked)
    ensures d1 == d2
  {
  }

  /** The walk stops at exactly the nearest marked directory when there is
      one, and finds nothing otherwise. */
  lemma FindCargoTomlIsNearest(start: Path, marked: set<Path>, d: Path)
    ensures NearestMarked(d, start, marked) <==> FindCargoToml(start, marked) == Some(d + [ManifestName])
  {
    var r := FindCargoToml(start, marked);
    if NearestMarked(d, start, marked) {
      assert !NoneMarked(start, marked) by {
        assert start[..|d|] == d;
      }
      NearestMarkedUnique(d, Parent(r.value), start, marked);
    }
    if r == Some(d + [ManifestName]) {
      assert Parent(r.value) == d;
    }
  }

  /** Whether the root holds a manifest never changes the outcome: the loop
      guard `path != path.parent` stops before the root is looked at. It
      follows from the contract of `FindCargoToml`, which only ever speaks of
      non-root directories. */
  lemma RootNeverInspected(start: Path, marked: set<Path>)
    ensures FindCargoToml(start, marked + {[]}) == FindCargoToml(start, marked - {[]})
  {
  }

  /** The loop of `find_cargo_toml` as written: test the current directory,
      step to its parent, and stop once the parent is the directory itself. */
  method WalkUp(start: Path, marked: set<Path>) returns (r: Option<Path>)
    ensures r == FindCargoToml(start, marked)
  {
    var current := start;
    while current != Parent(current)
      invariant FindCargoToml(current, marked) == FindCargoToml(start, marked)
      decreases |current|
    {
      if current in marked {
        return Some(current + [ManifestName]);
      }
      current := Parent(current);
    }
    return None;
  }
}
