/**
 * Directory paths as sequences of segments: "/home/me/project" is
 * ["home", "me", "project"] and the file-system root is the empty sequence.
 * The parent of a directory drops its last segment.
 */
module Paths {

  type Path = seq<string>

  /** The marker file name, appended to a directory to name its configuration document. */
  const MARKER_FILE := "/.envcli.yml"

  /** The directory has no parent ("/" on Unix, a drive root such as "C:\" on Windows). */
  predicate IsRoot(p: Path) {
    p == []
  }

  /** filepath.Dir on a directory that is not the root. */
  function Parent(p: Path): Path
    requires !IsRoot(p)
  {
    p[..|p| - 1]
  }

  /** The textual form of a directory: "/" for the root, "/a/b" otherwise. */
  function Render(p: Path): string {
    if IsRoot(p) then "/" else RenderSegments(p)
  }

  function RenderSegments(p: Path): string {
    if p == [] then "" else RenderSegments(p[..|p| - 1]) + "/" + p[|p| - 1]
  }
}
