/** POSIX paths as lmd/helpers.py uses them through `pathlib.Path`: a flag for
    a leading "/" and the list of components. `Path("/")` and `Path(".")` both
    have no components, and each is its own parent. */
module Paths {
  import opened Wrappers
  import Strings

  datatype Path = Path(absolute: bool, parts: seq<string>)

  /** `path.parent`: drops the last component; a path without components is its own parent. */
  function Parent(p: Path): (q: Path)
    ensures q.absolute == p.absolute
    ensures p.parts == [] ==> q == p
    ensures p.parts != [] ==> q.parts + [p.parts[|p.parts| - 1]] == p.parts
  {
    if p.parts == [] then p else Path(p.absolute, p.parts[..|p.parts| - 1])
  }

  /** `is_system_root`: the path equals its own parent. */
  predicate IsSystemRoot(p: Path)
    ensures IsSystemRoot(p) <==> p.parts == []
  {
    p == Parent(p)
  }

  /** The path cut to its first `n` components. */
  function Prefix(p: Path, n: nat): Path
    requires n <= |p.parts|
  {
    Path(p.absolute, p.parts[..n])
  }

  /** The value `max_depth` takes in `yield_parents`: 999 when absent; a negative bound yields nothing. */
  function Depth(maxDepth: Option<int>): nat
  {
    if maxDepth.None? then 999 else if maxDepth.value < 0 then 0 else maxDepth.value
  }

  /** `list(yield_parents(directory, max_depth))`: the loop reassigns `directory` to its parent
      and yields it, at most `Depth(maxDepth)` times, stopping at the system root. */
  method YieldParents(directory: Path, maxDepth: Option<int>) returns (parents: seq<Path>)
    ensures |parents| == if Depth(maxDepth) < |directory.parts| then Depth(maxDepth) else |directory.parts|
    ensures forall i :: 0 <= i < |parents| ==>
      parents[i] == Prefix(directory, |directory.parts| - 1 - i)
  {
    var n := Depth(maxDepth);
    var d := directory;
    parents := [];
    var step := 0;
    while step < n
      invariant 0 <= step <= n
      invariant |parents| <= step && |parents| <= |directory.parts|
      invariant d == Prefix(directory, |directory.parts| - |parents|)
      invariant |parents| < step ==> |parents| == |directory.parts|
      invariant forall i :: 0 <= i < |parents| ==> parents[i] == Prefix(directory, |directory.parts| - 1 - i)
    {
      if IsSystemRoot(d) {
        break;
      }
      d := Parent(d);
      parents := parents + [d];
      step := step + 1;
    }
  }

  /** What `yield_parents` promises: it starts at the parent of the input, each path is the
      parent of the one before, the input itself never appears, and the walk ends either after
      `max_depth` paths or at the system root. */
  lemma {:induction false} YieldParentsWalk(directory: Path, maxDepth: Option<int>, parents: seq<Path>)
    requires |parents| == if Depth(maxDepth) < |directory.parts| then Depth(maxDepth) else |directory.parts|
    requires forall i :: 0 <= i < |parents| ==> parents[i] == Prefix(directory, |directory.parts| - 1 - i)
    ensures |parents| <= Depth(maxDepth)
    ensures |parents| > 0 ==> parents[0] == Parent(directory)
    ensures forall i :: 0 < i < |parents| ==> parents[i] == Parent(parents[i - 1])
    ensures directory !in parents
    ensures |parents| < Depth(maxDepth) ==>
      IsSystemRoot(if parents == [] then directory else parents[|parents| - 1])
    ensures forall i :: 0 <= i < |parents| - 1 ==> !IsSystemRoot(parents[i])
  {
    var m := |directory.parts|;
    if |parents| > 0 {
      assert directory.parts[..m - 1] + [directory.parts[m - 1]] == directory.parts;
    }
    forall i | 0 < i < |parents|
      ensures parents[i] == Parent(parents[i - 1])
    {
      assert directory.parts[..m - i][..m - 1 - i] == directory.parts[..m - 1 - i];
    }
    forall i | 0 <= i < |parents|
      ensures parents[i] != directory
    {
      assert |parents[i].parts| < m;
    }
  }

  /** `str(path)` for a POSIX path. */
  function ToString(p: Path): string
  {
    if p.parts == [] then (if p.absolute then "/" else ".")
    else if p.absolute then "/" + Strings.Join(p.parts, '/')
    else Strings.Join(p.parts, '/')
  }
}
