/**
 * Paths as Rust's `std::path::Path` sees them once split into components:
 * an optional root followed by names and `..` entries. Repeated separators
 * and `.` entries, which `Path::components` drops, do not appear.
 */
module Paths {

  import opened Base

  datatype Component = Normal(name: string) | ParentDir

  datatype Path = Path(rooted: bool, comps: seq<Component>)

  /** The path `/`. */
  const Root := Path(true, [])

  /** `Path::has_root`. */
  predicate HasRoot(p: Path) {
    p.rooted
  }

  /** `Path::join`: a rooted argument replaces the base, a relative one is appended. */
  function Join(base: Path, rel: Path): (r: Path)
    ensures rel.rooted ==> r == rel
    ensures !rel.rooted ==> r.rooted == base.rooted && |r.comps| == |base.comps| + |rel.comps|
    ensures !rel.rooted ==> r.comps[..|base.comps|] == base.comps && r.comps[|base.comps|..] == rel.comps
  {
    if rel.rooted then rel else Path(base.rooted, base.comps + rel.comps)
  }

  /**
   * `Path::parent`: the path without its last component, or `None` when
   * there is no component left to remove (`/` and the empty path).
   */
  function Parent(p: Path): (r: Option<Path>)
    ensures r.Some? <==> |p.comps| > 0
    ensures r.Some? ==> r.value.rooted == p.rooted && r.value.comps + [p.comps[|p.comps| - 1]] == p.comps
  {
    if |p.comps| == 0 then None else Some(Path(p.rooted, p.comps[..|p.comps| - 1]))
  }

  /** `Path::file_name`: the last component when it is a name; `None` for `/`, the empty path or a trailing `..`. */
  function FileName(p: Path): (r: Option<string>)
    ensures r.Some? <==> |p.comps| > 0 && p.comps[|p.comps| - 1].Normal?
    ensures r.Some? ==> p.comps[|p.comps| - 1] == Normal(r.value)
  {
    if |p.comps| > 0 && p.comps[|p.comps| - 1].Normal? then Some(p.comps[|p.comps| - 1].name) else None
  }

  /** A path all of whose components are names (no `..`). */
  predicate Plain(p: Path) {
    forall i :: 0 <= i < |p.comps| ==> p.comps[i].Normal?
  }
}
