/**
 * The settings file path: a project root, a fixed settings folder, one
 * folder per profile and a file named after the container's owner.
 */
module SavePaths {
  import opened SettingsTypes
  import opened Codec

  predicate IsSlash(c: char)
  {
    c == '/' || c == '\\'
  }

  /**
   * The engine's path join: a '/' goes between the two parts when the left
   * part is non-empty, does not already end in a slash, and the right part
   * does not start with '/'.
   */
  function PathAppend(lhs: string, rhs: string): (r: string)
    ensures r == lhs + rhs || r == lhs + "/" + rhs
    ensures |lhs| > 0 && !IsSlash(lhs[|lhs| - 1]) && (rhs == [] || rhs[0] != '/') ==> r == lhs + "/" + rhs
    ensures (lhs == [] || IsSlash(lhs[|lhs| - 1])) ==> r == lhs + rhs
  {
    if |lhs| > 0 && !IsSlash(lhs[|lhs| - 1]) && (rhs == [] || rhs[0] != '/') then lhs + "/" + rhs else lhs + rhs
  }

  /** The profile folder name. */
  function ProfileFolder(profileIndex: nat): string
  {
    "Profile" + NatToString(profileIndex)
  }

  /** The class name of the container's owner, or "Default" when it has none. */
  function OwnerName(outerClassName: Option<string>): string
  {
    match outerClassName
    case Some(name) => name
    case None => "Default"
  }

  /**
   * The file a container saves to and loads from. Editor builds use the
   * project folder and "Saved/Settings/", other builds the per-user project
   * folder and "Settings/"; a stack file carries the stack tag's text after
   * the extension. The path is the root folder, the profile folder and the
   * tail, in that order: the profile folder is followed by a separator that
   * depends only on the owner's name.
   */
  function SaveLoadFilePath(editorBuild: bool, projectDir: string, projectUserDir: string, profileIndex: nat,
                            outerClassName: Option<string>, isStack: bool, stackTag: Tag): (r: string)
    ensures r == SettingsRoot(editorBuild, projectDir, projectUserDir) + ProfileFolder(profileIndex)
                 + FileTail(outerClassName, isStack, stackTag)
  {
    var root := SettingsRoot(editorBuild, projectDir, projectUserDir);
    var folder := ProfileFolder(profileIndex);
    ProfileFolderEnd(profileIndex);
    var left := PathAppend(root, folder);
    assert left == root + folder;
    assert left[|left| - 1] == folder[|folder| - 1];
    PathAppend(left, OwnerName(outerClassName)) + ".json" + (if isStack then TagToString(stackTag) else "")
  }

  /** The root folder of the settings files, which ends in a slash. */
  function SettingsRoot(editorBuild: bool, projectDir: string, projectUserDir: string): (r: string)
    ensures |r| > 0 && r[|r| - 1] == '/'
  {
    var r := if editorBuild then PathAppend(projectDir, "Saved/Settings/") else PathAppend(projectUserDir, "Settings/");
    assert r[|r| - 1] == '/';
    r
  }

  /** What follows the profile folder: the separator, the owner's file name, the extension and the stack suffix. */
  function FileTail(outerClassName: Option<string>, isStack: bool, stackTag: Tag): string
  {
    var owner := OwnerName(outerClassName);
    (if owner == [] || owner[0] != '/' then "/" else "") + owner + ".json" + (if isStack then TagToString(stackTag) else "")
  }

  /** A profile folder ends in a digit. */
  lemma ProfileFolderEnd(profileIndex: nat)
    ensures |ProfileFolder(profileIndex)| > 7 && !IsSlash(ProfileFolder(profileIndex)[|ProfileFolder(profileIndex)| - 1])
    ensures ProfileFolder(profileIndex)[7..] == NatToString(profileIndex)
  {
    var digits := NatToString(profileIndex);
    NatToStringReadsBack(profileIndex);
    assert IsDigit(digits[|digits| - 1]);
    var f := ProfileFolder(profileIndex);
    assert f[|f| - 1] == digits[|digits| - 1];
  }

  /** Different profiles of the same owner and build never share a file. */
  lemma ProfilesUseDistinctFiles(editorBuild: bool, projectDir: string, projectUserDir: string, i: nat, j: nat,
                                 outerClassName: Option<string>, isStack: bool, stackTag: Tag)
    requires i != j
    ensures SaveLoadFilePath(editorBuild, projectDir, projectUserDir, i, outerClassName, isStack, stackTag)
         != SaveLoadFilePath(editorBuild, projectDir, projectUserDir, j, outerClassName, isStack, stackTag)
  {
    ProfileFolderEnd(i);
    ProfileFolderEnd(j);
    NatToStringReadsBack(i);
    NatToStringReadsBack(j);
    var root := SettingsRoot(editorBuild, projectDir, projectUserDir);
    var tail := FileTail(outerClassName, isStack, stackTag);
    var fi, fj := ProfileFolder(i), ProfileFolder(j);
    var pi, pj := root + fi + tail, root + fj + tail;
    if |fi| == |fj| {
      assert fi[7..] != fj[7..];
      assert pi[|root|..|root| + |fi|] == fi;
      assert pj[|root|..|root| + |fj|] == fj;
    } else {
      assert |pi| != |pj|;
    }
  }

  /** Whatever precedes them, a separator, a name and an extension end with the name and the extension. */
  lemma EndsWith(prefix: string, sep: string, name: string, ext: string)
    ensures var p := prefix + (sep + name + ext + ""); |p| >= |name + ext| && p[|p| - |name + ext|..] == name + ext
  {
    var p := prefix + (sep + name + ext + "");
    assert p == (prefix + sep) + (name + ext);
  }

  /** A file that is not a stack's is a ".json" file named after its owner. */
  lemma SaveLoadFilePathEnds(editorBuild: bool, projectDir: string, projectUserDir: string, profileIndex: nat,
                             outerClassName: Option<string>, stackTag: Tag)
    ensures var p := SaveLoadFilePath(editorBuild, projectDir, projectUserDir, profileIndex, outerClassName, false, stackTag);
      var tail := OwnerName(outerClassName) + ".json";
      |p| >= |tail| && p[|p| - |tail|..] == tail
  {
    var owner := OwnerName(outerClassName);
    var sep := if owner == [] || owner[0] != '/' then "/" else "";
    assert FileTail(outerClassName, false, stackTag) == sep + owner + ".json" + "";
    EndsWith(SettingsRoot(editorBuild, projectDir, projectUserDir) + ProfileFolder(profileIndex), sep, owner, ".json");
  }
}
