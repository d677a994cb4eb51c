/**
 * The project locator: walks upward from the working directory and stops at
 * the first directory that holds the marker file .envcli.yml. The root
 * itself is tested before the search gives up.
 */
module ProjectLocator {
  import opened Wrappers
  import opened Paths

  /**
   * The nearest of dir and its ancestors that is in markers (the directories
   * that hold .envcli.yml), or None when none of them is.
   */
  function NearestMarked(markers: set<Path>, dir: Path): (r: Option<Path>)
    ensures r.Some? ==> r.value <= dir && r.value in markers
    ensures r.Some? ==> forall k :: |r.value| < k <= |dir| ==> dir[..k] !in markers
    ensures r.None? <==> forall k :: 0 <= k <= |dir| ==> dir[..k] !in markers
    decreases |dir|
  {
    assert dir[..|dir|] == dir;
    if dir in markers then Some(dir)
    else if IsRoot(dir) then None
    else
      assert forall k :: 0 <= k < |dir| ==> Parent(dir)[..k] == dir[..k];
      NearestMarked(markers, Parent(dir))
  }

  /** GetProjectDirectory over the working directory workingDirectory. */
  method GetProjectDirectory(markers: set<Path>, workingDirectory: Path) returns (r: Option<Path>)
    ensures r == NearestMarked(markers, workingDirectory)
  {
    var current := workingDirectory;
    while current !in markers && !IsRoot(current)
      invariant NearestMarked(markers, current) == NearestMarked(markers, workingDirectory)
      decreases |current|
    {
      current := Parent(current);
    }
    if current in markers {
      r := Some(current);
    } else {
      r := None;
    }
  }

  /** When both the parent and the grandparent hold a marker, the parent is found. */
  lemma NearestWins(markers: set<Path>, dir: Path)
    requires |dir| >= 2
    requires dir !in markers
    requires Parent(dir) in markers && Parent(Parent(dir)) in markers
    ensures NearestMarked(markers, dir) == Some(Parent(dir))
  {
  }
}
