/**
 * File-system paths as `java.io.File` and `java.nio.file.Path` build them, reduced
 * to their name segments: no separators, no normalisation.
 */
module Files {
  import opened Wrappers

  /** A path: whether it starts at the file-system root, and its names from the top down. */
  datatype Path = Path(absolute: bool, names: seq<string>)

  /** `new File(parent, child)`: the child name appended below the parent. */
  function Child(parent: Path, child: string): (r: Path)
    ensures r.absolute == parent.absolute
    ensures |r.names| == |parent.names| + 1 && r.names[..|parent.names|] == parent.names
  {
    Path(parent.absolute, parent.names + [child])
  }

  /** `File.getName()`: the last name, or "" for a path without names. */
  function Name(p: Path): (r: string)
    ensures p.names == [] ==> r == ""
    ensures p.names != [] ==> p == Child(Path(p.absolute, p.names[..|p.names| - 1]), r)
  {
    if p.names == [] then "" else p.names[|p.names| - 1]
  }

  /**
   * `File.getParentFile()`: the path without its last name; null for a relative
   * path of one name and for a path without names.
   */
  function Parent(p: Path): (r: Option<Path>)
    ensures r.Some? ==> |r.value.names| + 1 == |p.names|
    ensures r.Some? ==> Child(r.value, Name(p)) == p
    ensures r.None? ==> |p.names| <= 1
  {
    if p.names == [] || (!p.absolute && |p.names| == 1) then None
    else Some(Path(p.absolute, p.names[..|p.names| - 1]))
  }

  /** Parent and Name undo Child, except below the empty relative path. */
  lemma ChildInverse(parent: Path, child: string)
    requires parent.absolute || parent.names != []
    ensures Parent(Child(parent, child)) == Some(parent)
    ensures Name(Child(parent, child)) == child
  {
    assert (parent.names + [child])[..|parent.names|] == parent.names;
  }
}
