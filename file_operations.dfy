/** The two decisions of `FileOperations` that are pure once the file
    system is abstracted: the project-name sanitiser of `get_project_dir`
    and the stale-lock rule of `is_project_locked`.

    A path is the sequence of its components. Joining with `/` appends a
    component, except that `pathlib` drops an empty one. The file system is
    a map from the paths of existing files to their modification times, in
    seconds. */
module FileOperations {
  import opened Wrappers
  import opened Strings

  type Path = seq<string>

  // ---------------------------------------------------------------------
  // The sanitiser
  // ---------------------------------------------------------------------

  /** The characters the sanitiser keeps: `c.isalnum()`, space, `-`, `_`. */
  predicate Allowed(c: char) {
    IsAlnum(c) || c == ' ' || c == '-' || c == '_'
  }

  /** `safe_name`: the allowed characters, in order, stripped. */
  function SafeName(name: string): string {
    Strip(Filter(name, Allowed))
  }

  /** The only white space an allowed character can be is the space. */
  lemma AllowedSpace(c: char)
    requires Allowed(c)
    ensures IsSpace(c) <==> c == ' '
  {
  }

  lemma {:induction false} FilterKeeps(s: string, keep: char -> bool)
    ensures forall k :: 0 <= k < |Filter(s, keep)| ==> keep(Filter(s, keep)[k])
  {
    if s != [] {
      FilterKeeps(s[1..], keep);
      var h := if keep(s[0]) then [s[0]] else [];
      assert Filter(s, keep) == h + Filter(s[1..], keep);
    }
  }

  /** Every character of `safe_name` is alphanumeric, a space, `-` or `_`. */
  lemma SafeNameChars(name: string)
    ensures forall k :: 0 <= k < |SafeName(name)| ==> Allowed(SafeName(name)[k])
  {
    var f := Filter(name, Allowed);
    FilterKeeps(name, Allowed);
    StripSpec(f);
    var i := StripStart(f);
    forall k | 0 <= k < |SafeName(name)| ensures Allowed(SafeName(name)[k]) {
      assert SafeName(name)[k] == f[i + k];
    }
  }

  /** `safe_name` neither starts nor ends with a space. */
  lemma SafeNameNoOuterSpace(name: string)
    ensures SafeName(name) != [] ==> SafeName(name)[0] != ' ' && SafeName(name)[|SafeName(name)| - 1] != ' '
  {
    StripSpec(Filter(name, Allowed));
  }

  /** `safe_name` holds no `/`, `\` or `.`: it is one path component and
      cannot climb out of the projects directory. */
  lemma SafeNameIsOneComponent(name: string)
    ensures forall k :: 0 <= k < |SafeName(name)| ==> SafeName(name)[k] !in {'/', '\\', '.'}
  {
    SafeNameChars(name);
  }

  /** `a` is `b` with some characters left out: `idx` gives, for each
      character of `a`, its position in `b`, strictly increasing. */
  predicate Embeds(a: string, b: string, idx: seq<int>) {
    && |idx| == |a|
    && (forall k :: 0 <= k < |idx| ==> 0 <= idx[k] < |b| && a[k] == b[idx[k]])
    && (forall k, l :: 0 <= k < l < |idx| ==> idx[k] < idx[l])
  }

  ghost predicate IsSubsequence(a: string, b: string) {
    exists idx :: Embeds(a, b, idx)
  }

  /** Positions in `s[1..]` shifted to positions in `s`. */
  lemma ShiftEmbeds(a: string, s: string, rest: seq<int>) returns (shifted: seq<int>)
    requires s != [] && Embeds(a, s[1..], rest)
    ensures Embeds(a, s, shifted)
    ensures forall k :: 0 <= k < |shifted| ==> shifted[k] >= 1
  {
    shifted := seq(|rest|, k requires 0 <= k < |rest| => rest[k] + 1);
    forall k | 0 <= k < |shifted| ensures 0 <= shifted[k] < |s| && a[k] == s[shifted[k]] {
      assert s[1..][rest[k]] == s[rest[k] + 1];
    }
  }

  lemma {:induction false} FilterEmbeds(s: string, keep: char -> bool) returns (idx: seq<int>)
    ensures Embeds(Filter(s, keep), s, idx)
  {
    if s == [] {
      idx := [];
    } else {
      var tail := Filter(s[1..], keep);
      var rest := FilterEmbeds(s[1..], keep);
      var shifted := ShiftEmbeds(tail, s, rest);
      if keep(s[0]) {
        idx := [0] + shifted;
        var f := Filter(s, keep);
        assert f == [s[0]] + tail;
        forall k | 0 <= k < |idx| ensures 0 <= idx[k] < |s| && f[k] == s[idx[k]] {
          if k > 0 {
            assert idx[k] == shifted[k - 1] && f[k] == tail[k - 1];
          }
        }
        forall k, l | 0 <= k < l < |idx| ensures idx[k] < idx[l] {
          assert idx[l] == shifted[l - 1];
          if k > 0 {
            assert idx[k] == shifted[k - 1];
          }
        }
      } else {
        idx := shifted;
        assert Filter(s, keep) == tail;
      }
    }
  }

  /** A slice of an embedded string is embedded by the same slice of positions. */
  lemma SliceEmbeds(a: string, b: string, idx: seq<int>, i: nat, j: nat)
    requires Embeds(a, b, idx) && i <= j <= |a|
    ensures Embeds(a[i..j], b, idx[i..j])
  {
    var sub := idx[i..j];
    forall k | 0 <= k < |sub| ensures 0 <= sub[k] < |b| && a[i..j][k] == b[sub[k]] {
      assert sub[k] == idx[i + k] && a[i..j][k] == a[i + k];
    }
    forall k, l | 0 <= k < l < |sub| ensures sub[k] < sub[l] {
      assert sub[k] == idx[i + k] && sub[l] == idx[i + l];
    }
  }

  /** `safe_name` keeps characters of the name in their order: it is a
      subsequence of the name. */
  lemma SafeNameSubsequence(name: string)
    ensures IsSubsequence(SafeName(name), name)
  {
    var f := Filter(name, Allowed);
    var idx := FilterEmbeds(name, Allowed);
    StripSpec(f);
    var i := StripStart(f);
    var j := StripEnd(f, i);
    assert SafeName(name) == f[i..j];
    SliceEmbeds(f, name, idx, i, j);
  }

  /** A name that is already safe (allowed characters only, no outer space)
      is its own `safe_name`. */
  lemma SafeNameFixed(name: string)
    requires forall k :: 0 <= k < |name| ==> Allowed(name[k])
    requires name != [] ==> name[0] != ' ' && name[|name| - 1] != ' '
    ensures SafeName(name) == name
  {
    FilterAll(name, Allowed);
    if name != [] {
      AllowedSpace(name[0]);
      AllowedSpace(name[|name| - 1]);
      assert StripStart(name) == 0;
      assert StripEnd(name, 0) == |name|;
    }
  }

  /** Sanitising twice is sanitising once. */
  lemma SafeNameIdempotent(name: string)
    ensures SafeName(SafeName(name)) == SafeName(name)
  {
    SafeNameChars(name);
    SafeNameNoOuterSpace(name);
    SafeNameFixed(SafeName(name));
  }

  // ---------------------------------------------------------------------
  // The project directory
  // ---------------------------------------------------------------------

  /** `dir / part` in `pathlib`: an empty part leaves the path unchanged. */
  function JoinPath(dir: Path, part: string): (r: Path)
    ensures part == "" ==> r == dir
    ensures part != "" ==> r == dir + [part]
  {
    if part == "" then dir else dir + [part]
  }

  /** `get_project_dir` as written: `projects_dir / safe_name`. */
  function ProjectDirAsWritten(projectsDir: Path, name: string): Path {
    JoinPath(projectsDir, SafeName(name))
  }

  /** A name with no allowed character sanitises to the empty string, so its
      project directory is the projects directory itself, which holds every
      other project: `delete_project_files("???")` would remove them all. */
  lemma UnnamedProjectIsProjectsDir(projectsDir: Path, other: string)
    ensures ProjectDirAsWritten(projectsDir, "???") == projectsDir
    ensures ProjectDirAsWritten(projectsDir, other)[..|projectsDir|] == projectsDir
  {
    NoSafeCharIsProjectsDir(projectsDir, "???");
  }

  /** As written, every name without an allowed character gets the projects
      directory itself. */
  lemma NoSafeCharIsProjectsDir(projectsDir: Path, name: string)
    requires forall k :: 0 <= k < |name| ==> !Allowed(name[k])
    ensures ProjectDirAsWritten(projectsDir, name) == projectsDir
  {
    FilterNone(name, Allowed);
    assert Strip([]) == [];
  }

  /** The corrected directory: `None` when the name has no safe character,
      otherwise one non-empty component below the projects directory. */
  function ProjectDir(projectsDir: Path, name: string): (r: Option<Path>)
    ensures r.None? <==> SafeName(name) == ""
    ensures r.Some? ==> r.value == projectsDir + [SafeName(name)]
  {
    if SafeName(name) == "" then None else Some(projectsDir + [SafeName(name)])
  }

  /** Every corrected project directory lies strictly below the projects
      directory, and names with different safe names get different
      directories. */
  lemma ProjectDirSpec(projectsDir: Path, a: string, b: string)
    ensures ProjectDir(projectsDir, a).Some? ==>
              |ProjectDir(projectsDir, a).value| == |projectsDir| + 1
              && ProjectDir(projectsDir, a).value != projectsDir
              && ProjectDir(projectsDir, a).value[..|projectsDir|] == projectsDir
    ensures ProjectDir(projectsDir, a).Some? && ProjectDir(projectsDir, b).Some? ==>
              (ProjectDir(projectsDir, a) == ProjectDir(projectsDir, b) <==> SafeName(a) == SafeName(b))
  {
    if ProjectDir(projectsDir, a).Some? && ProjectDir(projectsDir, b).Some?
       && ProjectDir(projectsDir, a) == ProjectDir(projectsDir, b) {
      assert ProjectDir(projectsDir, a).value[|projectsDir|] == SafeName(a);
      assert ProjectDir(projectsDir, b).value[|projectsDir|] == SafeName(b);
    }
  }

  // ---------------------------------------------------------------------
  // The stale-lock rule
  // ---------------------------------------------------------------------

  /** A lock older than this many seconds is stale. */
  const StaleAfter: real := 3600.0

  const LockFileName: string := ".lock"

  /** The verdict of `is_project_locked` and the files afterwards. */
  datatype LockCheck = LockCheck(locked: bool, files: map<Path, real>)

  /** `is_project_locked(name)` at time `now`: no lock file means unlocked;
      a lock file older than an hour is removed and means unlocked; any
      other lock file means locked. The lock file is looked up as the source
      does, under `get_project_dir` as written, so a name without a safe
      character checks the projects directory's own `.lock`. */
  function IsProjectLocked(files: map<Path, real>, projectsDir: Path, name: string, now: real): (r: LockCheck)
    ensures r.files.Keys <= files.Keys
    ensures forall p :: p in r.files ==> r.files[p] == files[p]
  {
    var lock := ProjectDirAsWritten(projectsDir, name) + [LockFileName];
    if lock !in files then LockCheck(false, files)
    else if now - files[lock] > StaleAfter then LockCheck(false, files - {lock})
    else LockCheck(true, files)
  }

  /** The lock rule: locked exactly when the lock file exists and is at most
      an hour old; only a stale lock file is removed, and nothing else
      changes. */
  lemma LockRule(files: map<Path, real>, projectsDir: Path, name: string, now: real)
    ensures var lock := ProjectDirAsWritten(projectsDir, name) + [LockFileName];
      var r := IsProjectLocked(files, projectsDir, name, now);
      && (r.locked <==> lock in files && now - files[lock] <= 3600.0)
      && (lock in files && now - files[lock] > 3600.0 ==> lock !in r.files)
      && (forall p :: p in files && p != lock ==> p in r.files)
  {
  }

  /** After the check the project is locked exactly when its lock file is
      still there, and checking again at the same time gives the same verdict
      and changes nothing. */
  lemma LockCheckSettles(files: map<Path, real>, projectsDir: Path, name: string, now: real)
    ensures var r := IsProjectLocked(files, projectsDir, name, now);
      && (r.locked <==> ProjectDirAsWritten(projectsDir, name) + [LockFileName] in r.files)
      && IsProjectLocked(r.files, projectsDir, name, now) == LockCheck(r.locked, r.files)
  {
  }
}
