/**
 * The two path helpers of the plotting utility: locating the Python
 * plotting script next to the executable, and rewriting a Windows path
 * for Python. Paths are sequences of components; the empty sequence is
 * the empty std::filesystem::path. Whether a file exists is an oracle
 * passed in, and the executable's own path is an input that may be
 * missing (the Windows lookup failed).
 */
module PlottingUtilities {
  import opened Wrappers
  import opened CharReplace

  type Path = seq<string>

  /** path::parent_path: the path without its last component. */
  function ParentPath(p: Path): (r: Path)
    ensures |p| > 0 ==> p == r + [p[|p| - 1]]
    ensures |p| == 0 ==> r == []
  {
    if |p| == 0 then [] else p[..|p| - 1]
  }

  /** The four places the script is looked for, in order, relative to the
      executable's directory. The first spells the file name with a space
      before ".py". */
  function ScriptCandidates(appDir: Path): (c: seq<Path>)
    ensures |c| == 4
    ensures forall i :: 0 <= i < 4 ==> |c[i]| > |appDir| && c[i][..|appDir|] == appDir
    ensures forall i :: 0 <= i < 2 ==> ".." !in c[i][|appDir|..]
    ensures forall i :: 2 <= i < 4 ==> c[i][|appDir|] == ".."
  {
    [ appDir + ["plotting_scripts", "plot_regression .py"],
      appDir + ["plotting_scripts", "plot_regression.py"],
      appDir + ["..", "plotting_scripts", "plot_regression.py"],
      appDir + ["..", "resources", "plot_regression.py"] ]
  }

  /** The first candidate that exists, or the empty path. */
  function FirstExisting(candidates: seq<Path>, pathExists: Path -> bool): Path
  {
    if |candidates| == 0 then []
    else if pathExists(candidates[0]) then candidates[0]
    else FirstExisting(candidates[1..], pathExists)
  }

  /** The first-match search, over non-empty candidates: the result is
      empty exactly when none exists, and otherwise is the candidate at
      some index that exists while none before it does. */
  lemma {:induction false} FirstExistingIsFirst(candidates: seq<Path>, pathExists: Path -> bool)
    requires forall i :: 0 <= i < |candidates| ==> candidates[i] != []
    ensures FirstExisting(candidates, pathExists) == [] <==>
      forall i :: 0 <= i < |candidates| ==> !pathExists(candidates[i])
    ensures FirstExisting(candidates, pathExists) != [] ==>
      exists k :: 0 <= k < |candidates| && FirstExisting(candidates, pathExists) == candidates[k] &&
        pathExists(candidates[k]) && forall j :: 0 <= j < k ==> !pathExists(candidates[j])
  {
    if |candidates| > 0 && !pathExists(candidates[0]) {
      var rest := candidates[1..];
      FirstExistingIsFirst(rest, pathExists);
      if FirstExisting(rest, pathExists) != [] {
        var k :| 0 <= k < |rest| && FirstExisting(rest, pathExists) == rest[k] &&
          pathExists(rest[k]) && forall j :: 0 <= j < k ==> !pathExists(rest[j]);
        assert candidates[k + 1] == rest[k];
        forall j | 0 <= j < k + 1 ensures !pathExists(candidates[j]) {
          if j > 0 {
            assert candidates[j] == rest[j - 1];
          }
        }
      } else {
        forall i | 0 <= i < |candidates| ensures !pathExists(candidates[i]) {
          if i > 0 {
            assert candidates[i] == rest[i - 1];
          }
        }
      }
    }
  }

  /**
   * getPlottingScriptPath: empty when the executable's path cannot be
   * read; otherwise the first of the four candidates under its directory
   * that exists, and empty when none does.
   */
  method GetPlottingScriptPath(execPath: Option<Path>, pathExists: Path -> bool) returns (r: Path)
    ensures execPath.None? ==> r == []
    ensures execPath.Some? ==> r == FirstExisting(ScriptCandidates(ParentPath(execPath.value)), pathExists)
  {
    if execPath.None? {
      return [];
    }
    var locations := ScriptCandidates(ParentPath(execPath.value));
    var i := 0;
    while i < |locations|
      invariant 0 <= i <= |locations|
      invariant FirstExisting(locations[i..], pathExists) == FirstExisting(locations, pathExists)
    {
      assert locations[i..][1..] == locations[i + 1..];
      if pathExists(locations[i]) {
        return locations[i];
      }
      i := i + 1;
    }
    return [];
  }

  /** The search returns one of the four candidates, the first that
      exists, and the executable's directory is a leading part of what it
      returns (the last two candidates then climb out of it with ".."). */
  lemma ScriptPathUnderAppDir(execPath: Path, pathExists: Path -> bool)
    ensures var appDir := ParentPath(execPath);
      var r := FirstExisting(ScriptCandidates(appDir), pathExists);
      r == [] <==> forall i :: 0 <= i < 4 ==> !pathExists(ScriptCandidates(appDir)[i])
    ensures var appDir := ParentPath(execPath);
      var r := FirstExisting(ScriptCandidates(appDir), pathExists);
      r != [] ==>
        pathExists(r) &&
        exists k :: 0 <= k < 4 && r == ScriptCandidates(appDir)[k] &&
          forall j :: 0 <= j < k ==> !pathExists(ScriptCandidates(appDir)[j])
    ensures var appDir := ParentPath(execPath);
      var r := FirstExisting(ScriptCandidates(appDir), pathExists);
      r != [] ==> |r| > |appDir| && r[..|appDir|] == appDir
  {
    FirstExistingIsFirst(ScriptCandidates(ParentPath(execPath)), pathExists);
  }

  /** formatPathForPython: a copy of the path with every backslash turned
      into a forward slash. */
  method FormatPathForPython(path: string) returns (r: string)
    ensures |r| == |path|
    ensures forall i :: 0 <= i < |path| ==> r[i] == (if path[i] == '\\' then '/' else path[i])
    ensures '\\' !in r
  {
    var result := ToArray(path);
    ReplaceInPlace(result, '\\', '/');
    r := result[..];
    ReplacedFacts(path, '\\', '/');
  }

  /** Formatting a formatted path changes nothing. */
  lemma FormatPathIdempotent(path: string)
    ensures Replaced(Replaced(path, '\\', '/'), '\\', '/') == Replaced(path, '\\', '/')
  {
    ReplacedFacts(path, '\\', '/');
  }
}
