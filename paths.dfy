/** The part of `pathlib` the build helpers use, on absolute paths given as their components:
    `/`, `parent`, `str`, `relative_to` (with and without `walk_up`) and `with_suffix`. */
module Paths {
  import opened Wrappers
  import opened Text

  /** An absolute path: `Path(["home", "me", "app"])` is `/home/me/app`, `Path([])` is `/`. */
  datatype Path = Path(parts: seq<string>)

  /** `p / name` for a single component. */
  function Child(p: Path, name: string): Path
  {
    Path(p.parts + [name])
  }

  /** `p.parent`; the root is its own parent. */
  function Parent(p: Path): Path
  {
    if |p.parts| == 0 then p else Path(p.parts[..|p.parts| - 1])
  }

  /** `str(p)` for an absolute path. */
  function PathStr(p: Path): string
  {
    "/" + Join(p.parts, "/")
  }

  /** `str(q)` for a relative path given as its components: "." when there are none. */
  function RelStr(rel: seq<string>): string
  {
    if rel == [] then "." else Join(rel, "/")
  }

  /** A path whose components name real directory entries: no "", "." or ".." and no separator. */
  predicate Normal(p: Path)
  {
    forall i :: 0 <= i < |p.parts| ==> p.parts[i] != "" && p.parts[i] != "." && p.parts[i] != ".." && '/' !in p.parts[i]
  }

  /** The number of leading components two paths share. */
  function CommonPrefix(a: seq<string>, b: seq<string>): (k: nat)
    ensures k <= |a| && k <= |b| && a[..k] == b[..k]
    ensures k < |a| && k < |b| ==> a[k] != b[k]
  {
    if |a| == 0 || |b| == 0 || a[0] != b[0] then 0
    else
      var k := CommonPrefix(a[1..], b[1..]);
      assert a[..k + 1] == [a[0]] + a[1..][..k];
      assert b[..k + 1] == [b[0]] + b[1..][..k];
      k + 1
  }

  function Ups(n: nat): (r: seq<string>)
    ensures |r| == n && forall c <- r :: c == ".."
  {
    seq(n, _ => "..")
  }

  /** `p.relative_to(base, walk_up=True)`: climb from `base` to the deepest directory it shares with
      `p`, then descend to `p`. */
  function RelativeWalkUp(p: Path, base: Path): seq<string>
  {
    var k := CommonPrefix(p.parts, base.parts);
    Ups(|base.parts| - k) + p.parts[k..]
  }

  /** `p.relative_to(base)`: the components below `base`, or None (ValueError) when `p` is not inside it. */
  function RelativeTo(p: Path, base: Path): (r: Option<seq<string>>)
    ensures r.Some? <==> base.parts <= p.parts
    ensures r.Some? ==> base.parts + r.value == p.parts
  {
    if base.parts <= p.parts then
      assert base.parts + p.parts[|base.parts|..] == p.parts;
      Some(p.parts[|base.parts|..])
    else None
  }

  /** Following a relative path from a directory, as the operating system resolves it. */
  function Navigate(dir: Path, rel: seq<string>): Path
    decreases |rel|
  {
    if rel == [] then dir
    else if rel[0] == ".." then Navigate(Parent(dir), rel[1..])
    else Navigate(Child(dir, rel[0]), rel[1..])
  }

  lemma {:induction false} NavigateUp(dir: Path, n: nat, rest: seq<string>)
    requires n <= |dir.parts|
    ensures Navigate(dir, Ups(n) + rest) == Navigate(Path(dir.parts[..|dir.parts| - n]), rest)
    decreases n
  {
    if n > 0 {
      assert (Ups(n) + rest)[1..] == Ups(n - 1) + rest;
      NavigateUp(Parent(dir), n - 1, rest);
      assert Parent(dir).parts[..|Parent(dir).parts| - (n - 1)] == dir.parts[..|dir.parts| - n];
    } else {
      assert Ups(0) + rest == rest;
      assert dir.parts[..|dir.parts|] == dir.parts;
    }
  }

  lemma {:induction false} NavigateDown(dir: Path, rest: seq<string>)
    requires forall i :: 0 <= i < |rest| ==> rest[i] != ".."
    ensures Navigate(dir, rest) == Path(dir.parts + rest)
    decreases |rest|
  {
    if rest != [] {
      assert rest[0] != "..";
      NavigateDown(Child(dir, rest[0]), rest[1..]);
      assert dir.parts + [rest[0]] + rest[1..] == dir.parts + rest;
    }
  }

  /** The relative path that `relative_to(..., walk_up=True)` computes leads from `base` back to `p`. */
  lemma WalkUpRoundTrip(p: Path, base: Path)
    requires Normal(p)
    ensures Navigate(base, RelativeWalkUp(p, base)) == p
  {
    var k := CommonPrefix(p.parts, base.parts);
    var rest := p.parts[k..];
    var shared := Path(p.parts[..k]);
    assert RelativeWalkUp(p, base) == Ups(|base.parts| - k) + rest;
    NavigateUp(base, |base.parts| - k, rest);
    assert base.parts[..|base.parts| - (|base.parts| - k)] == shared.parts;
    assert Navigate(base, RelativeWalkUp(p, base)) == Navigate(shared, rest);
    forall i | 0 <= i < |rest|
      ensures rest[i] != ".."
    {
      assert rest[i] == p.parts[k + i];
    }
    NavigateDown(shared, rest);
    assert shared.parts + rest == p.parts;
  }

  /** Inside `base`, walking up is never needed: both forms of `relative_to` agree. */
  lemma WalkUpAgreesInside(p: Path, base: Path)
    requires RelativeTo(p, base).Some?
    ensures RelativeWalkUp(p, base) == RelativeTo(p, base).value
  {
    var k := CommonPrefix(p.parts, base.parts);
    assert base.parts == p.parts[..|base.parts|];
    assert k == |base.parts|;
  }

  /** The index of the last `c` in `s`, or -1. */
  function LastIndexOf(s: string, c: char): (i: int)
    ensures -1 <= i < |s|
    ensures i >= 0 ==> s[i] == c && forall j :: i < j < |s| ==> s[j] != c
    ensures i == -1 ==> c !in s
  {
    if |s| == 0 then -1
    else if s[|s| - 1] == c then |s| - 1
    else LastIndexOf(s[..|s| - 1], c)
  }

  /** `name` without its suffix: the part before the last dot, when that dot is neither first nor last. */
  function Stem(name: string): (r: string)
    ensures r <= name
  {
    var i := LastIndexOf(name, '.');
    if 0 < i < |name| - 1 then name[..i] else name
  }

  /** `p.with_suffix(suffix)`: None (ValueError) for the root, which has an empty name. */
  function WithSuffix(p: Path, suffix: string): (r: Option<Path>)
    ensures r.Some? <==> |p.parts| > 0
    ensures r.Some? ==> Parent(r.value) == Parent(p) && |r.value.parts| == |p.parts|
    ensures r.Some? ==> var name := r.value.parts[|p.parts| - 1]; |name| >= |suffix| && name[|name| - |suffix|..] == suffix
  {
    if |p.parts| == 0 then None
    else
      var n := |p.parts|;
      var q := Path(p.parts[..n - 1] + [Stem(p.parts[n - 1]) + suffix]);
      assert q.parts[..n - 1] == p.parts[..n - 1];
      Some(q)
  }
}
