/**
 * One input recording and what the phases derive from it: the filtered copy that is replayed,
 * and one recording per run, which cleanup moves out of the folder the recorder wrote it into.
 */
module ReplayFixtures {
  import opened Wrappers
  import opened Strings
  import Paths
  import opened FileTree
  import opened Models
  import opened Utils

  /** The file name of the filtered copy inside a fixture's folder. */
  const FilteredName := "/filtered_fixture.mcap"

  /** Why cleanup stopped. */
  datatype CleanupError = NoMcapFiles(folder: string) | Os(error: OsError)

  /** The file system after relocating one run's recording, and its new path or the error that stopped it. */
  datatype Relocation = Relocation(fs: Node, outcome: Result<string, CleanupError>)

  /** The directory that holds `folder`, as `str(Path(folder).parent)`. */
  function ParentDir(folder: string): string {
    Paths.Render(Paths.Parent(Paths.Parse(folder)))
  }

  /**
   * The first recording found below `folder` is moved into the folder's parent and the folder is
   * removed with everything still in it. A failing removal leaves the move done.
   */
  function Relocate(fs: Node, folder: string): Relocation {
    var files := McapPaths(WalkPath(fs, folder));
    if |files| == 0 then Relocation(fs, Failure(NoMcapFiles(folder)))
    else
      match Move(fs, files[0], ParentDir(folder))
      case Failure(e) => Relocation(fs, Failure(Os(e)))
      case Success((fs1, newPath)) =>
        match RmTree(fs1, folder)
        case Failure(e) => Relocation(fs1, Failure(Os(e)))
        case Success(fs2) => Relocation(fs2, Success(newPath))
  }

  /** A directory that has a recording below it has a parent directory. */
  lemma ParentDirIsDir(fs: Node, folder: string)
    requires McapPaths(WalkPath(fs, folder)) != []
    ensures IsDir(fs, ParentDir(folder))
  {
    var p := Paths.Parse(folder);
    Paths.ParseRender(Paths.Parent(p));
    if p.parts != [] {
      LookupParent(fs, p.parts);
    }
  }

  /** Whatever exists below the root lies in a directory. */
  lemma {:induction false} LookupParent(n: Node, p: seq<string>)
    requires |p| > 0 && Lookup(n, p).Some?
    ensures var d := Lookup(n, p[..|p| - 1]); d.Some? && d.value.Dir?
    decreases p
  {
    if |p| > 1 {
      var i := Find(n.entries, p[0]);
      LookupParent(n.entries[i].node, p[1..]);
      assert p[..|p| - 1][1..] == p[1..][..|p| - 2];
    }
  }

  /** The state after cleanup: the file system, the run recordings, and the error if one stopped it. */
  datatype Cleaned = Cleaned(fs: Node, runs: seq<McapFixture>, error: Option<CleanupError>)

  /** Cleanup over `runs`, front to back, with `relocate` as the step for one run folder, stopping at the first error. */
  function CleanupBy(relocate: (Node, string) -> Relocation, fs: Node, runs: seq<McapFixture>): (c: Cleaned)
    ensures |c.runs| == |runs|
    decreases |runs|
  {
    if runs == [] then Cleaned(fs, [], None)
    else
      var step := relocate(fs, runs[0].path);
      match step.outcome
      case Failure(e) => Cleaned(step.fs, runs, Some(e))
      case Success(newPath) =>
        var rest := CleanupBy(relocate, step.fs, runs[1..]);
        Cleaned(rest.fs, [McapFixture(newPath)] + rest.runs, rest.error)
  }

  /** `cleanup_run_fixtures`: each run folder in turn is relocated by `Relocate`. */
  function Cleanup(fs: Node, runs: seq<McapFixture>): Cleaned {
    CleanupBy(Relocate, fs, runs)
  }

  /** The body of the cleanup loop for one run folder. */
  method RelocateRun(fs: Node, mcapFolder: string) returns (fs': Node, outcome: Result<string, CleanupError>)
    ensures Relocation(fs', outcome) == Relocate(fs, mcapFolder)
  {
    var mcapFiles := FindMcapFiles(fs, mcapFolder);
    if |mcapFiles| == 0 {
      return fs, Failure(NoMcapFiles(mcapFolder));
    }
    var mcapFilePath := mcapFiles[0];
    var moved := Move(fs, mcapFilePath, ParentDir(mcapFolder));
    if moved.Failure? {
      return fs, Failure(Os(moved.error));
    }
    var newPath := moved.value.1;
    var removed := RmTree(moved.value.0, mcapFolder);
    if removed.Failure? {
      return moved.value.0, Failure(Os(removed.error));
    }
    return removed.value, Success(newPath);
  }

  /** The fields of a fixture, as a value. */
  datatype FixtureView = FixtureView(basePath: string, input: McapFixture, filtered: McapFixture, runs: seq<McapFixture>)

  class ReplayFixture {
    var basePath: string
    var inputFixture: McapFixture
    var filteredFixture: McapFixture
    var runFixtures: seq<McapFixture>

    /** The fixture's fields now. */
    function View(): FixtureView
      reads this
    {
      FixtureView(basePath, inputFixture, filteredFixture, runFixtures)
    }

    /** A fixture rooted at `baseFolder`, with its filtered copy inside that folder and no runs yet. */
    constructor (baseFolder: string, input: McapFixture)
      ensures basePath == baseFolder && inputFixture == input && runFixtures == []
      ensures filteredFixture == McapFixture(baseFolder + FilteredName)
    {
      runFixtures := [];
      basePath := baseFolder;
      inputFixture := input;
      filteredFixture := McapFixture(baseFolder + FilteredName);
    }

    /** `cleanup_run_fixtures` on the file system `fs`: each run path is replaced by the new path of its recording. */
    method CleanupRunFixtures(fs: Node) returns (fs': Node, err: Option<CleanupError>)
      modifies this
      ensures var c := Cleanup(fs, old(runFixtures)); fs' == c.fs && runFixtures == c.runs && err == c.error
      ensures basePath == old(basePath) && inputFixture == old(inputFixture) && filteredFixture == old(filteredFixture)
    {
      hide Relocate;
      var runs := runFixtures;
      fs' := fs;
      err := None;
      var i := 0;
      while i < |runs|
        invariant i <= |runs| == |old(runFixtures)|
        invariant runs[i..] == old(runFixtures)[i..]
        invariant var rest := CleanupBy(Relocate, fs', runs[i..]);
          Cleanup(fs, old(runFixtures)) == Cleaned(rest.fs, runs[..i] + rest.runs, rest.error)
        invariant unchanged(this)
      {
        var mcapFolder := runs[i].path;
        ghost var fsCur := fs';
        var outcome;
        fs', outcome := RelocateRun(fs', mcapFolder);
        CleanupStep(Relocate, fs, old(runFixtures), runs[..i], fsCur, runs[i..]);
        if outcome.Failure? {
          err := Some(outcome.error);
          assert runs[..i] + runs[i..] == runs;
          break;
        }
        var newPath := outcome.value;
        assert runs[i..][1..] == runs[i + 1..];
        UpdateSplits(runs, i, McapFixture(newPath));
        runs := runs[i := McapFixture(newPath)];
        i := i + 1;
      }
      runFixtures := runs;
    }
  }

  lemma UpdateSplits<T>(s: seq<T>, i: nat, x: T)
    requires i < |s|
    ensures s[i := x][..i + 1] == s[..i] + [x]
    ensures s[i := x][i + 1..] == s[i + 1..]
  {
  }

  /** One step of the cleanup loop, for any per-run step `relocate`: with `done` relocated and `rest` to go, the next run either stops cleanup or joins `done`. */
  lemma CleanupStep(relocate: (Node, string) -> Relocation, fs0: Node, runs0: seq<McapFixture>, done: seq<McapFixture>, fs: Node, rest: seq<McapFixture>)
    requires rest != []
    requires var r := CleanupBy(relocate, fs, rest); CleanupBy(relocate, fs0, runs0) == Cleaned(r.fs, done + r.runs, r.error)
    ensures var step := relocate(fs, rest[0].path);
      match step.outcome
      case Failure(e) => CleanupBy(relocate, fs0, runs0) == Cleaned(step.fs, done + rest, Some(e))
      case Success(newPath) =>
        var r := CleanupBy(relocate, step.fs, rest[1..]);
        CleanupBy(relocate, fs0, runs0) == Cleaned(r.fs, (done + [McapFixture(newPath)]) + r.runs, r.error)
  {
    var step := relocate(fs, rest[0].path);
    if step.outcome.Success? {
      var r := CleanupBy(relocate, step.fs, rest[1..]);
      assert done + ([McapFixture(step.outcome.value)] + r.runs) == (done + [McapFixture(step.outcome.value)]) + r.runs;
    }
  }

  /** A run folder without a recording stops cleanup there with `ValueError`, before anything changes. */
  lemma NoRecordingStops(fs: Node, runs: seq<McapFixture>)
    requires |runs| > 0 && McapPaths(WalkPath(fs, runs[0].path)) == []
    ensures Cleanup(fs, runs) == Cleaned(fs, runs, Some(NoMcapFiles(runs[0].path)))
  {
  }

  /** Relocating one run: the new path is the parent of the folder joined with the first recording's name, the recording is found there, and the folder and everything below it are gone. */
  lemma RelocateMoves(fs: Node, folder: string)
    ensures var files := McapPaths(WalkPath(fs, folder)); var r := Relocate(fs, folder);
      r.outcome.Success? ==>
        files != [] &&
        r.outcome.value == Paths.OsJoin(ParentDir(folder), Paths.Basename(files[0])) &&
        At(r.fs, r.outcome.value) == At(fs, files[0]) &&
        forall q :: Lookup(r.fs, Locate(folder) + q).None?
  {
    var files := McapPaths(WalkPath(fs, folder));
    if Relocate(fs, folder).outcome.Success? {
      var src := files[0];
      var dst := ParentDir(folder);
      var realDst := Paths.OsJoin(dst, Paths.Basename(src));
      FirstRecordingName(fs, folder);
      ParentDirIsDir(fs, folder);
      var fs1 := Move(fs, src, dst).value.0;
      MoveMoves(fs, src, dst);
      NewPathApart(fs, folder);
      LookupRemove(fs1, Locate(folder), Locate(realDst));
      forall q
        ensures Lookup(Relocate(fs, folder).fs, Locate(folder) + q).None?
      {
        RmTreeRemoves(fs1, folder, q);
      }
    }
  }

  /** The recording that is moved has a name that is a proper path part, and no trailing '/'. */
  lemma FirstRecordingName(fs: Node, folder: string)
    requires McapPaths(WalkPath(fs, folder)) != []
    ensures var src := McapPaths(WalkPath(fs, folder))[0];
      RStripSlash(src) == src && Paths.IsPart(Paths.Basename(src))
  {
    var files := McapPaths(WalkPath(fs, folder));
    var src := files[0];
    ResultsAreMcap(WalkPath(fs, folder));
    assert src in files;
    assert src[|src| - 1] == 'p';
    Paths.BasenameKeepsSuffix(src, ".mcap");
  }

  /** The new path lies beside the folder, not inside it: the two differ in the folder's last part. */
  lemma NewPathApart(fs: Node, folder: string)
    requires McapPaths(WalkPath(fs, folder)) != [] && Locate(folder) != []
    requires Move(fs, McapPaths(WalkPath(fs, folder))[0], ParentDir(folder)).Success?
    ensures var src := McapPaths(WalkPath(fs, folder))[0];
      Apart(Locate(folder), Locate(Paths.OsJoin(ParentDir(folder), Paths.Basename(src))))
  {
    var b := Paths.Basename(McapPaths(WalkPath(fs, folder))[0]);
    var pp := Paths.Parent(Paths.Parse(folder));
    var parts := Locate(folder);
    NewPathParts(fs, folder);
    ParentDirIsDir(fs, folder);
    WalkedIsDir(fs, folder);
    assert parts[|parts| - 1] != b;
    PartsApart(pp.parts, parts, parts[|parts| - 1], b);
  }

  /** The new path is the folder's parent with the recording's name as last part. */
  lemma NewPathParts(fs: Node, folder: string)
    requires McapPaths(WalkPath(fs, folder)) != []
    ensures var b := Paths.Basename(McapPaths(WalkPath(fs, folder))[0]);
      Locate(Paths.OsJoin(ParentDir(folder), b)) == Paths.Parent(Paths.Parse(folder)).parts + [b]
  {
    var b := Paths.Basename(McapPaths(WalkPath(fs, folder))[0]);
    FirstRecordingName(fs, folder);
    var pp := Paths.Parent(Paths.Parse(folder));
    assert Paths.WellFormed(pp) by {
      var p := Paths.Parse(folder);
      assert forall i :: 0 <= i < |pp.parts| ==> pp.parts[i] == p.parts[i];
    }
    Paths.ParseJoin(pp, b);
  }

  lemma PartsApart(common: seq<string>, p: seq<string>, x: string, y: string)
    requires p == common + [x] && x != y
    ensures Apart(p, common + [y])
  {
    assert p[|common|] != (common + [y])[|common|];
  }

  /** `os.walk` yields something only on a directory. */
  lemma WalkedIsDir(fs: Node, folder: string)
    requires WalkPath(fs, folder) != []
    ensures IsDir(fs, folder)
  {
  }

  /** Cleanup is not atomic: running it on `a + b` is running it on `a` and, if that succeeded, on `b` from there; an error in `b` leaves the runs of `a` relocated. */
  lemma {:induction false} CleanupAppend(relocate: (Node, string) -> Relocation, fs: Node, a: seq<McapFixture>, b: seq<McapFixture>)
    ensures var ca := CleanupBy(relocate, fs, a);
      CleanupBy(relocate, fs, a + b) ==
        if ca.error.Some? then Cleaned(ca.fs, ca.runs + b, ca.error)
        else var cb := CleanupBy(relocate, ca.fs, b); Cleaned(cb.fs, ca.runs + cb.runs, cb.error)
    decreases |a|
  {
    if a == [] {
      assert a + b == b;
    } else {
      assert (a + b)[0] == a[0] && (a + b)[1..] == a[1..] + b;
      var step := relocate(fs, a[0].path);
      if step.outcome.Success? {
        CleanupAppend(relocate, step.fs, a[1..], b);
      } else {
        assert a + b == [a[0]] + (a[1..] + b);
      }
    }
  }

  /** Cleanup relocates a prefix of the runs and leaves the rest as they were; it gets through all of them exactly when no error stops it. */
  lemma {:induction false} CleanupPrefix(relocate: (Node, string) -> Relocation, fs: Node, runs: seq<McapFixture>)
    ensures var c := CleanupBy(relocate, fs, runs);
      exists k :: 0 <= k <= |runs| && c.runs[k..] == runs[k..] && (c.error.None? <==> k == |runs|)
    decreases |runs|
  {
    var c := CleanupBy(relocate, fs, runs);
    if runs == [] {
      assert c.runs[0..] == runs[0..];
    } else {
      var step := relocate(fs, runs[0].path);
      if step.outcome.Failure? {
        assert c.runs[0..] == runs[0..];
      } else {
        var rest := CleanupBy(relocate, step.fs, runs[1..]);
        CleanupPrefix(relocate, step.fs, runs[1..]);
        var k :| 0 <= k <= |runs| - 1 && rest.runs[k..] == runs[1..][k..] && (rest.error.None? <==> k == |runs| - 1);
        assert c.runs[k + 1..] == rest.runs[k..];
        assert runs[k + 1..] == runs[1..][k..];
      }
    }
  }
}
