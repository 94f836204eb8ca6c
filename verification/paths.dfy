/** File-system paths as sequences of components (`PathBuf`). */
module Paths {

  type Path = seq<string>

  /** `PathBuf::push` of one plain component (never an absolute one). */
  function Push(p: Path, component: string): (r: Path)
    ensures |r| == |p| + 1
    ensures r[..|p|] == p && r[|p|] == component
  {
    p + [component]
  }
}
