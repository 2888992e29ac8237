/** `find_mcap_files`: every file below a directory whose name ends with ".mcap", in `os.walk` order. */
module Utils {
  import opened Strings
  import Paths
  import opened FileTree

  /** The paths `join(root, f)` of the names `f` among `files` that end with ".mcap", in order. */
  function Matches(root: string, files: seq<string>): seq<string> {
    if files == [] then []
    else (if EndsWith(files[0], ".mcap") then [Paths.OsJoin(root, files[0])] else []) + Matches(root, files[1..])
  }

  /** The matches of all walk steps, step after step. */
  function McapPaths(steps: seq<WalkStep>): seq<string> {
    if steps == [] then [] else Matches(steps[0].root, steps[0].files) + McapPaths(steps[1..])
  }

  /** The matches of one step are the joined paths of its names ending with ".mcap". */
  lemma {:induction false} MatchesMembers(root: string, files: seq<string>)
    ensures forall p :: p in Matches(root, files) <==> exists f :: f in files && EndsWith(f, ".mcap") && p == Paths.OsJoin(root, f)
  {
    if files != [] {
      MatchesMembers(root, files[1..]);
      assert forall g :: g in files <==> g == files[0] || g in files[1..] by {
        assert files == [files[0]] + files[1..];
      }
    }
  }

  /** Exactly the paths `join(root, f)` are found, for every step of the walk and every name `f` it lists that ends with ".mcap". */
  lemma {:induction false} McapPathsMembers(steps: seq<WalkStep>)
    ensures forall p :: p in McapPaths(steps) <==>
      exists s, f :: s in steps && f in s.files && EndsWith(f, ".mcap") && p == Paths.OsJoin(s.root, f)
  {
    if steps != [] {
      McapPathsMembers(steps[1..]);
      MatchesMembers(steps[0].root, steps[0].files);
      assert forall s :: s in steps <==> s == steps[0] || s in steps[1..] by {
        assert steps == [steps[0]] + steps[1..];
      }
    }
  }

  /** `find_mcap_files(input_dir)` on the file system `fs`: the walk is listed, then each step's names are tested in turn. */
  method FindMcapFiles(fs: Node, inputDir: string) returns (mcapFiles: seq<string>)
    ensures mcapFiles == McapPaths(WalkPath(fs, inputDir))
  {
    mcapFiles := CollectMcapFiles(WalkPath(fs, inputDir));
  }

  /** The loops of `find_mcap_files` over the steps of a walk. */
  method CollectMcapFiles(steps: seq<WalkStep>) returns (mcapFiles: seq<string>)
    ensures mcapFiles == McapPaths(steps)
  {
    hide *;
    mcapFiles := [];
    for i := 0 to |steps|
      invariant mcapFiles + McapPaths(steps[i..]) == McapPaths(steps)
    {
      var step := steps[i];
      McapPathsStep(steps, i);
      for j := 0 to |step.files|
        invariant mcapFiles + Matches(step.root, step.files[j..]) + McapPaths(steps[i + 1..]) == McapPaths(steps)
      {
        var file := step.files[j];
        MatchesStep(step.root, step.files, j);
        ghost var before := mcapFiles;
        if EndsWith(file, ".mcap") {
          mcapFiles := mcapFiles + [Paths.OsJoin(step.root, file)];
        }
        Regroup(before, mcapFiles[|before|..], Matches(step.root, step.files[j + 1..]), McapPaths(steps[i + 1..]));
      }
      NoFilesLeft(step.root, step.files);
    }
    NoStepsLeft(steps);
  }

  lemma NoStepsLeft(steps: seq<WalkStep>)
    ensures McapPaths(steps[|steps|..]) == []
  {
    assert steps[|steps|..] == [];
  }

  lemma NoFilesLeft(root: string, files: seq<string>)
    ensures Matches(root, files[|files|..]) == []
  {
    assert files[|files|..] == [];
  }

  lemma McapPathsStep(steps: seq<WalkStep>, i: nat)
    requires i < |steps|
    ensures McapPaths(steps[i..]) == Matches(steps[i].root, steps[i].files) + McapPaths(steps[i + 1..])
  {
    assert steps[i..][1..] == steps[i + 1..];
  }

  lemma MatchesStep(root: string, files: seq<string>, j: nat)
    requires j < |files|
    ensures Matches(root, files[j..]) ==
      (if EndsWith(files[j], ".mcap") then [Paths.OsJoin(root, files[j])] else []) + Matches(root, files[j + 1..])
  {
    assert files[j..][1..] == files[j + 1..];
  }

  lemma Regroup<T>(a: seq<T>, b: seq<T>, c: seq<T>, d: seq<T>)
    ensures a + (b + c) + d == (a + b) + c + d
  {
  }

  /** Every returned path ends with ".mcap": the case-sensitive suffix of the file name carries over to the joined path. */
  lemma ResultsAreMcap(steps: seq<WalkStep>)
    ensures forall p :: p in McapPaths(steps) ==> EndsWith(p, ".mcap")
  {
    McapPathsMembers(steps);
    forall p | p in McapPaths(steps)
      ensures EndsWith(p, ".mcap")
    {
      var k, f :| 0 <= k < |steps| && f in steps[k].files && EndsWith(f, ".mcap") && p == Paths.OsJoin(steps[k].root, f);
      EndsWithTrans(p, f, ".mcap");
    }
  }

  /** `top` joined with each of `names` in turn: the directory `os.walk` reports for that descent. */
  function Joined(top: string, names: seq<string>): string
    decreases names
  {
    if names == [] then top else Joined(Paths.OsJoin(top, names[0]), names[1..])
  }

  lemma {:induction false} FileNamesHas(es: seq<Entry>, i: nat)
    requires i < |es| && es[i].node.File?
    ensures es[i].name in FileNames(es)
  {
    if i > 0 {
      FileNamesHas(es[1..], i - 1);
    }
  }

  lemma {:induction false} WalkEachHas(top: string, es: seq<Entry>, i: nat)
    requires i < |es| && es[i].node.Dir?
    ensures forall s :: s in Walk(Paths.OsJoin(top, es[i].name), es[i].node) ==> s in WalkEach(top, es)
  {
    if i > 0 {
      WalkEachHas(top, es[1..], i - 1);
    }
  }

  /** The walk reaches every file of the tree: the file found by following `q` is listed in the step for the directory above it. */
  lemma {:induction false} WalkFinds(top: string, n: Node, q: seq<string>)
    requires |q| >= 1 && Lookup(n, q).Some? && Lookup(n, q).value.File?
    ensures exists s :: s in Walk(top, n) && s.root == Joined(top, q[..|q| - 1]) && q[|q| - 1] in s.files
    decreases q
  {
    if |q| == 1 {
      WalkFindsHere(top, n, q[0]);
      assert q[..0] == [];
    } else {
      var es := n.entries;
      var i := Find(es, q[0]);
      var top' := Paths.OsJoin(top, q[0]);
      var rest := q[1..];
      assert Lookup(es[i].node, rest) == Lookup(n, q);
      WalkFinds(top', es[i].node, rest);
      var s :| s in Walk(top', es[i].node) && s.root == Joined(top', rest[..|rest| - 1]) && rest[|rest| - 1] in s.files;
      WalkFindsStep(top, q, s.root);
      WalkEachHas(top, es, i);
      assert s in Walk(top, n);
    }
  }

  /** A file directly in the top directory is listed in the first step. */
  lemma WalkFindsHere(top: string, n: Node, name: string)
    requires Lookup(n, [name]).Some? && Lookup(n, [name]).value.File?
    ensures Walk(top, n)[0] == WalkStep(top, DirNames(n.entries), FileNames(n.entries))
    ensures name in FileNames(n.entries)
  {
    FileNamesHas(n.entries, Find(n.entries, name));
  }

  lemma WalkFindsStep(top: string, q: seq<string>, root: string)
    requires |q| >= 2 && root == Joined(Paths.OsJoin(top, q[0]), q[1..][..|q| - 2])
    ensures root == Joined(top, q[..|q| - 1])
  {
    assert q[..|q| - 1][1..] == q[1..][..|q| - 2];
  }

  /** Every file anywhere below `top` whose name ends with ".mcap" is returned, joined onto the directory it was found in. */
  lemma FindsEveryMcap(top: string, n: Node, q: seq<string>)
    requires |q| >= 1 && Lookup(n, q).Some? && Lookup(n, q).value.File?
    requires EndsWith(q[|q| - 1], ".mcap")
    ensures Paths.OsJoin(Joined(top, q[..|q| - 1]), q[|q| - 1]) in McapPaths(Walk(top, n))
  {
    var steps := Walk(top, n);
    WalkFinds(top, n, q);
    McapPathsMembers(steps);
  }

  /** The names of all files anywhere in the tree. */
  function FileNamesBelow(n: Node): set<string>
    decreases n, 1
  {
    match n
    case File(_) => {}
    case Dir(es) => FileNamesAmong(es)
  }

  function FileNamesAmong(es: seq<Entry>): set<string>
    decreases es, 0
  {
    if es == [] then {}
    else (if es[0].node.File? then {es[0].name} else FileNamesBelow(es[0].node)) + FileNamesAmong(es[1..])
  }

  lemma {:induction false} DirectFileNames(es: seq<Entry>)
    ensures forall f :: f in FileNames(es) ==> f in FileNamesAmong(es)
  {
    if es != [] {
      DirectFileNames(es[1..]);
    }
  }

  /** The walk lists only names of files in the tree. */
  lemma {:induction false} WalkFileNames(top: string, n: Node)
    ensures forall s, f :: s in Walk(top, n) && f in s.files ==> f in FileNamesBelow(n)
    decreases n, 1
  {
    if n.Dir? {
      DirectFileNames(n.entries);
      WalkEachFileNames(top, n.entries);
    }
  }

  lemma {:induction false} WalkEachFileNames(top: string, es: seq<Entry>)
    ensures forall s, f :: s in WalkEach(top, es) && f in s.files ==> f in FileNamesAmong(es)
    decreases es, 0
  {
    if es != [] {
      if es[0].node.Dir? {
        WalkFileNames(Paths.OsJoin(top, es[0].name), es[0].node);
      }
      WalkEachFileNames(top, es[1..]);
    }
  }

  lemma {:induction false} MatchesNone(root: string, files: seq<string>)
    requires forall f :: f in files ==> !EndsWith(f, ".mcap")
    ensures Matches(root, files) == []
  {
    if files != [] {
      assert files[0] in files;
      MatchesNone(root, files[1..]);
    }
  }

  /** A walk none of whose steps lists a name ending with ".mcap" yields nothing. */
  lemma {:induction false} McapPathsNone(steps: seq<WalkStep>)
    requires forall s, f :: s in steps && f in s.files ==> !EndsWith(f, ".mcap")
    ensures McapPaths(steps) == []
  {
    if steps != [] {
      assert steps[0] in steps;
      MatchesNone(steps[0].root, steps[0].files);
      McapPathsNone(steps[1..]);
    }
  }

  /** With no file name ending in ".mcap" anywhere below `top` (in particular in an empty directory), nothing is found. */
  lemma NoMcapNoResult(top: string, n: Node)
    requires forall f :: f in FileNamesBelow(n) ==> !EndsWith(f, ".mcap")
    ensures McapPaths(Walk(top, n)) == []
  {
    WalkFileNames(top, n);
    McapPathsNone(Walk(top, n));
  }

  /** A missing directory yields nothing. */
  lemma MissingDirNoResult(fs: Node, inputDir: string)
    requires !Exists(fs, inputDir)
    ensures McapPaths(WalkPath(fs, inputDir)) == []
  {
  }
}
