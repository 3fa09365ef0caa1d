/**
 * Locating an Unreal project and its editor log (UnrealNotifierDeamon/unFrame.cpp:22-69).
 * The file system is not modelled: a query of a project directory is given as
 * whether the path is a directory and the file names its listing yields, in order.
 */
module ProjectLayout {
  import opened Wrappers

  /** The text a project descriptor's file name carries. */
  const UprojectExt: string := ".uproject"
  /** The sub-path from a project's root to its editor logs. */
  const LogsRelativePath: string := "\\Saved\\Logs\\"
  const LogExt: string := ".log"

  /** pat occurs in s starting at position j. */
  predicate OccursAt(s: string, pat: string, j: int)
  {
    0 <= j && j + |pat| <= |s| && s[j..j + |pat|] == pat
  }

  /** pat occurs somewhere in s. */
  predicate Contains(s: string, pat: string)
  {
    exists j | 0 <= j <= |s| :: OccursAt(s, pat, j)
  }

  /** The first position at or after from where pat occurs in s. */
  function FindFrom(s: string, pat: string, from: nat): (r: Option<nat>)
    decreases |s| - from
    ensures r.Some? ==> from <= r.value && OccursAt(s, pat, r.value)
    ensures forall j | from <= j && (r.None? || j < r.value) :: !OccursAt(s, pat, j)
  {
    if from + |pat| > |s| then None
    else if s[from..from + |pat|] == pat then Some(from)
    else FindFrom(s, pat, from + 1)
  }

  /** std::wstring::find: the first position of pat in s, None standing for npos. */
  function IndexOf(s: string, pat: string): (r: Option<nat>)
    ensures r.Some? <==> Contains(s, pat)
    ensures r.Some? ==> OccursAt(s, pat, r.value) && forall j | 0 <= j < r.value :: !OccursAt(s, pat, j)
  {
    FindFrom(s, pat, 0)
  }

  /** The index of the first entry of listing that contains pat anywhere. */
  function FirstMatch(listing: seq<string>, pat: string): (r: Option<nat>)
    ensures r.Some? ==> r.value < |listing| && Contains(listing[r.value], pat)
    ensures forall i | 0 <= i < |listing| && (r.None? || i < r.value) :: !Contains(listing[i], pat)
  {
    if listing == [] then None
    else if IndexOf(listing[0], pat).Some? then Some(0)
    else match FirstMatch(listing[1..], pat)
      case None => None
      case Some(i) => Some(i + 1)
  }

  /** A descriptor's file name erased from its first ".uproject" on. */
  function Stem(fileName: string): string
    requires Contains(fileName, UprojectExt)
  {
    fileName[..IndexOf(fileName, UprojectExt).value]
  }

  /** The project name tryGetProjectName finds, as a function of the directory query. */
  function ProjectName(isDirectory: bool, listing: seq<string>): (r: string)
    ensures !isDirectory ==> r == ""
    ensures r != "" ==> exists i | 0 <= i < |listing| ::
      && |r| <= |listing[i]| && r == listing[i][..|r|] && OccursAt(listing[i], UprojectExt, |r|)
  {
    if !isDirectory then ""
    else match FirstMatch(listing, UprojectExt)
      case None => ""
      case Some(i) => Stem(listing[i])
  }

  /** The prefix of s before the first occurrence of a non-empty pat does not contain pat. */
  lemma {:induction false} PrefixBeforeFirstOccurrence(s: string, pat: string)
    requires pat != [] && Contains(s, pat)
    ensures !Contains(s[..IndexOf(s, pat).value], pat)
  {
    var p := IndexOf(s, pat).value;
    if Contains(s[..p], pat) {
      var j :| 0 <= j <= p && OccursAt(s[..p], pat, j);
      assert s[..p][j..j + |pat|] == s[j..j + |pat|];
      assert OccursAt(s, pat, j) && j < p;
      assert false;
    }
  }

  /**
   * tryGetProjectName (unFrame.cpp:38-56): nothing when the path is not a directory;
   * otherwise the first listed entry whose name contains ".uproject", cut at its first
   * ".uproject"; nothing when no entry contains it.
   */
  method TryGetProjectName(isDirectory: bool, listing: seq<string>) returns (name: string)
    ensures name == ProjectName(isDirectory, listing)
    ensures !isDirectory ==> name == ""
    ensures (forall i | 0 <= i < |listing| :: !Contains(listing[i], UprojectExt)) ==> name == ""
  {
    if !isDirectory {
      return "";
    }
    var i := 0;
    while i < |listing|
      invariant 0 <= i <= |listing|
      invariant forall k | 0 <= k < i :: !Contains(listing[k], UprojectExt)
    {
      var iterFilename := listing[i];
      var pos := IndexOf(iterFilename, UprojectExt);
      if pos.Some? {
        iterFilename := iterFilename[..pos.value];
        return iterFilename;
      }
      i := i + 1;
    }
    return "";
  }

  /**
   * The name found is exactly the part of the first descriptor-bearing entry that
   * precedes its first ".uproject", and so never contains ".uproject" itself.
   */
  lemma {:induction false} ProjectNameIsFirstDescriptorStem(listing: seq<string>, i: nat)
    requires i < |listing| && Contains(listing[i], UprojectExt)
    requires forall k | 0 <= k < i :: !Contains(listing[k], UprojectExt)
    ensures var name := ProjectName(true, listing);
      && |name| <= |listing[i]|
      && name == listing[i][..|name|]
      && OccursAt(listing[i], UprojectExt, |name|)
      && (forall j | 0 <= j < |name| :: !OccursAt(listing[i], UprojectExt, j))
      && !Contains(name, UprojectExt)
  {
    var m := FirstMatch(listing, UprojectExt);
    assert m == Some(i);
    PrefixBeforeFirstOccurrence(listing[i], UprojectExt);
  }

  /** Whatever the listing, the project name never contains ".uproject". */
  lemma {:induction false} ProjectNameExcludesExt(isDirectory: bool, listing: seq<string>)
    ensures !Contains(ProjectName(isDirectory, listing), UprojectExt)
  {
    if isDirectory {
      match FirstMatch(listing, UprojectExt)
      case None =>
      case Some(i) => ProjectNameIsFirstDescriptorStem(listing, i);
    }
  }

  /**
   * A project path counts as valid (a non-empty name) exactly when it is a directory and
   * its first descriptor-bearing entry does not begin with ".uproject"; such an entry
   * hides every later descriptor.
   */
  lemma ValidProjectPathIff(isDirectory: bool, listing: seq<string>)
    ensures ProjectName(isDirectory, listing) != "" <==>
      isDirectory && exists i | 0 <= i < |listing| ::
        && Contains(listing[i], UprojectExt)
        && (forall k | 0 <= k < i :: !Contains(listing[k], UprojectExt))
        && !OccursAt(listing[i], UprojectExt, 0)
  {
  }

  /**
   * getPathToProjectLogFile (unFrame.cpp:65-69): the project path, "\Saved\Logs\", the
   * project name and ".log", built even when no project name was found.
   */
  function GetPathToProjectLogFile(projectPath: string, isDirectory: bool, listing: seq<string>): (r: string)
    ensures |r| == |projectPath| + |LogsRelativePath| + |ProjectName(isDirectory, listing)| + |LogExt|
    ensures r[..|projectPath|] == projectPath
    ensures r[|projectPath|..|projectPath| + |LogsRelativePath|] == LogsRelativePath
    ensures r[|projectPath| + |LogsRelativePath|..|r| - |LogExt|] == ProjectName(isDirectory, listing)
    ensures r[|r| - |LogExt|..] == LogExt
    ensures ProjectName(isDirectory, listing) == "" ==> r == projectPath + "\\Saved\\Logs\\.log"
  {
    projectPath + LogsRelativePath + ProjectName(isDirectory, listing) + LogExt
  }

  /** Under one project path, the log path determines the project name. */
  lemma LogPathDeterminesName(projectPath: string, d1: bool, l1: seq<string>, d2: bool, l2: seq<string>)
    ensures GetPathToProjectLogFile(projectPath, d1, l1) == GetPathToProjectLogFile(projectPath, d2, l2)
      <==> ProjectName(d1, l1) == ProjectName(d2, l2)
  {
  }
}

/** Worked listings for the rules above. */
module ProjectLayoutExamples {
  import opened ProjectLayout

  /** ".uproject" may sit anywhere in a name: a backup copy of a descriptor also names the project. */
  lemma BackupDescriptorNamesProject()
    ensures ProjectName(true, ["Config", "Game.uproject.bak", "Other.uproject"]) == "Game"
  {
    var listing := ["Config", "Game.uproject.bak", "Other.uproject"];
    assert OccursAt(listing[1], UprojectExt, 4);
    assert !Contains(listing[0], UprojectExt);
    ProjectNameIsFirstDescriptorStem(listing, 1);
    forall j | 0 <= j < 4
      ensures !OccursAt(listing[1], UprojectExt, j)
    {
      assert listing[1][j..j + |UprojectExt|][0] == listing[1][j] != UprojectExt[0];
    }
    var name := ProjectName(true, listing);
    assert |name| == 4;
    assert name == listing[1][..4] == "Game";
  }

  /** A file named just ".uproject" listed first hides a later descriptor: the path counts as invalid. */
  lemma BareDescriptorHidesLaterOne()
    ensures ProjectName(true, [".uproject", "Game.uproject"]) == ""
  {
  }

}
