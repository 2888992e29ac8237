/**
 * A file system as a directory tree. Entries keep the order in which the operating system lists
 * them, which is the order `os.walk` reports. Paths are resolved by their `pathlib` parts from the
 * root, so the working directory is taken to be the root.
 */
module FileTree {
  import opened Wrappers
  import opened Strings
  import Paths

  type Bytes = seq<bv8>

  datatype Node = File(data: Bytes) | Dir(entries: seq<Entry>)
  datatype Entry = Entry(name: string, node: Node)

  /** The `OSError` subclasses (and `shutil.Error`) that the file operations raise. */
  datatype OsError =
    | FileNotFound(path: string)
    | FileExists(path: string)
    | NotADirectory(path: string)
    | IsADirectory(path: string)
    | DestinationExists(path: string)
    | SameFile(path: string)
    | CannotRemove(path: string)

  /** Index of the first entry called `name`, or -1. */
  function Find(es: seq<Entry>, name: string): (i: int)
    ensures -1 <= i < |es|
    ensures i >= 0 ==> es[i].name == name && forall j :: 0 <= j < i ==> es[j].name != name
    ensures i < 0 ==> forall j :: 0 <= j < |es| ==> es[j].name != name
  {
    if es == [] then -1
    else if es[0].name == name then 0
    else
      var k := Find(es[1..], name);
      if k < 0 then -1 else k + 1
  }

  /** Entries with the same names in the same order are searched alike. */
  lemma FindSameNames(es: seq<Entry>, es': seq<Entry>, name: string)
    requires |es| == |es'| && forall j :: 0 <= j < |es| ==> es[j].name == es'[j].name
    ensures Find(es', name) == Find(es, name)
  {
  }

  /** A name not yet listed is found where it is appended. */
  lemma {:induction false} FindAppended(es: seq<Entry>, e: Entry)
    requires Find(es, e.name) < 0
    ensures Find(es + [e], e.name) == |es|
  {
    if es != [] {
      assert (es + [e])[1..] == es[1..] + [e];
      FindAppended(es[1..], e);
    }
  }

  /** The entries not called `name`, in their order. */
  function Without(es: seq<Entry>, name: string): (r: seq<Entry>)
    ensures forall j :: 0 <= j < |r| ==> r[j].name != name
  {
    if es == [] then []
    else if es[0].name == name then Without(es[1..], name)
    else [es[0]] + Without(es[1..], name)
  }

  /** Dropping the entries called `a` does not change which entry a search for another name finds. */
  lemma {:induction false} FindWithout(es: seq<Entry>, a: string, b: string)
    requires a != b
    ensures (Find(Without(es, a), b) < 0) == (Find(es, b) < 0)
    ensures Find(es, b) >= 0 ==> Without(es, a)[Find(Without(es, a), b)] == es[Find(es, b)]
  {
    if es != [] {
      var rest := Without(es[1..], a);
      FindWithout(es[1..], a, b);
      var k := Find(es[1..], b);
      if es[0].name == a {
        assert Without(es, a) == rest;
        assert Find(es, b) == if k < 0 then -1 else k + 1;
      } else if es[0].name == b {
        assert Without(es, a) == [es[0]] + rest;
        assert Find(Without(es, a), b) == 0;
      } else {
        var w := [es[0]] + rest;
        assert Without(es, a) == w && w[1..] == rest;
        assert Find(w, b) == if Find(rest, b) < 0 then -1 else Find(rest, b) + 1;
        assert Find(es, b) == if k < 0 then -1 else k + 1;
      }
    }
  }

  /** The node reached from `n` by following `parts`. */
  function Lookup(n: Node, parts: seq<string>): Option<Node>
    decreases parts
  {
    if parts == [] then Some(n)
    else match n
      case File(_) => None
      case Dir(es) =>
        var i := Find(es, parts[0]);
        if i < 0 then None else Lookup(es[i].node, parts[1..])
  }

  /** The parts by which a path string is resolved. */
  function Locate(path: string): seq<string> {
    Paths.Parse(path).parts
  }

  function At(root: Node, path: string): Option<Node> {
    Lookup(root, Locate(path))
  }

  /** `os.path.exists`. */
  predicate Exists(root: Node, path: string) {
    At(root, path).Some?
  }

  /** `os.path.isdir`. */
  predicate IsDir(root: Node, path: string) {
    At(root, path).Some? && At(root, path).value.Dir?
  }

  /** `os.path.isfile`. */
  predicate IsFile(root: Node, path: string) {
    At(root, path).Some? && At(root, path).value.File?
  }

  /** Sets the entry at `parts` to `v`, creating it at the end of its directory's listing when it is new; the directory above must exist. */
  function Put(n: Node, parts: seq<string>, v: Node): Option<Node>
    requires |parts| > 0
    decreases parts
  {
    match n
    case File(_) => None
    case Dir(es) =>
      var i := Find(es, parts[0]);
      if |parts| == 1 then
        Some(Dir(if i < 0 then es + [Entry(parts[0], v)] else es[i := Entry(parts[0], v)]))
      else if i < 0 then None
      else match Put(es[i].node, parts[1..], v)
        case None => None
        case Some(c) => Some(Dir(es[i := Entry(parts[0], c)]))
  }

  /** Removes the entry at `parts`, which must exist (with every other entry of that name, should a listing hold several). */
  function Remove(n: Node, parts: seq<string>): Option<Node>
    requires |parts| > 0
    decreases parts
  {
    match n
    case File(_) => None
    case Dir(es) =>
      var i := Find(es, parts[0]);
      if i < 0 then None
      else if |parts| == 1 then Some(Dir(Without(es, parts[0])))
      else match Remove(es[i].node, parts[1..])
        case None => None
        case Some(c) => Some(Dir(es[i := Entry(parts[0], c)]))
  }

  /** Two paths that differ in some part: neither lies inside the other. */
  predicate Apart(p: seq<string>, q: seq<string>) {
    exists k :: 0 <= k < |p| && k < |q| && p[k] != q[k]
  }

  /** Putting succeeds exactly when the directory above exists, and the entry then holds `v`. */
  lemma {:induction false} LookupPut(n: Node, parts: seq<string>, v: Node)
    requires |parts| > 0
    ensures Put(n, parts, v).Some? <==> (var d := Lookup(n, parts[..|parts| - 1]); d.Some? && d.value.Dir?)
    ensures Put(n, parts, v).Some? ==> Lookup(Put(n, parts, v).value, parts) == Some(v)
    decreases parts
  {
    if n.Dir? {
      var es := n.entries;
      var i := Find(es, parts[0]);
      if |parts| == 1 {
        LookupPutHere(es, parts[0], v);
      } else if i < 0 {
        assert parts[..|parts| - 1][0] == parts[0];
      } else {
        assert parts[..|parts| - 1][1..] == parts[1..][..|parts| - 2];
        LookupPut(es[i].node, parts[1..], v);
        if Put(n, parts, v).Some? {
          FindSameNames(es, Put(n, parts, v).value.entries, parts[0]);
        }
      }
    }
  }

  lemma LookupPutHere(es: seq<Entry>, name: string, v: Node)
    ensures Put(Dir(es), [name], v).Some? && Lookup(Put(Dir(es), [name], v).value, [name]) == Some(v)
  {
    var i := Find(es, name);
    if i < 0 {
      FindAppended(es, Entry(name, v));
    } else {
      FindSameNames(es, es[i := Entry(name, v)], name);
    }
  }

  /** Putting at `p` leaves every path apart from `p` as it was. */
  lemma {:induction false} LookupPutApart(n: Node, p: seq<string>, v: Node, q: seq<string>)
    requires |p| > 0 && Put(n, p, v).Some? && Apart(p, q)
    ensures Lookup(Put(n, p, v).value, q) == Lookup(n, q)
  {
    var es := n.entries;
    var i := Find(es, p[0]);
    var es' := Put(n, p, v).value.entries;
    if p[0] != q[0] {
      if |p| == 1 && i < 0 {
        assert es' == es + [Entry(p[0], v)];
        var j := Find(es, q[0]);
        assert forall k :: 0 <= k < |es| ==> es'[k] == es[k];
        if j < 0 {
          assert Find(es', q[0]) < 0;
        } else {
          assert Find(es', q[0]) == j;
        }
      } else {
        FindSameNames(es, es', q[0]);
      }
    } else {
      assert Apart(p[1..], q[1..]) by {
        var k :| 0 <= k < |p| && k < |q| && p[k] != q[k];
        assert p[1..][k - 1] != q[1..][k - 1];
      }
      LookupPutApart(es[i].node, p[1..], v, q[1..]);
      FindSameNames(es, es', q[0]);
    }
  }

  /** Removing at `p` makes `p` absent and leaves every path apart from `p` as it was. */
  lemma {:induction false} LookupRemove(n: Node, p: seq<string>, q: seq<string>)
    requires |p| > 0 && Remove(n, p).Some?
    ensures Lookup(Remove(n, p).value, p) == None
    ensures Apart(p, q) ==> Lookup(Remove(n, p).value, q) == Lookup(n, q)
  {
    var es := n.entries;
    var i := Find(es, p[0]);
    var es' := Remove(n, p).value.entries;
    if |p| == 1 {
      assert Find(es', p[0]) < 0;
      if Apart(p, q) {
        FindWithout(es, p[0], q[0]);
      }
    } else {
      FindSameNames(es, es', p[0]);
      LookupRemove(es[i].node, p[1..], if |q| > 0 then q[1..] else []);
      if Apart(p, q) {
        FindSameNames(es, es', q[0]);
        if q[0] == p[0] {
          assert Apart(p[1..], q[1..]) by {
            var k :| 0 <= k < |p| && k < |q| && p[k] != q[k];
            assert p[1..][k - 1] != q[1..][k - 1];
          }
        }
      }
    }
  }

  /** Creates the directories missing along `parts` (each new one last in its listing); None when a file stands in the way. */
  function MkdirAll(n: Node, parts: seq<string>): (r: Option<Node>)
    ensures r.Some? ==> r.value.Dir?
    decreases parts
  {
    if parts == [] then (if n.Dir? then Some(n) else None)
    else match n
      case File(_) => None
      case Dir(es) =>
        var i := Find(es, parts[0]);
        var child := if i < 0 then Dir([]) else es[i].node;
        match MkdirAll(child, parts[1..])
        case None => None
        case Some(c) => Some(Dir(if i < 0 then es + [Entry(parts[0], c)] else es[i := Entry(parts[0], c)]))
  }

  /** After MkdirAll every directory along the way exists. */
  lemma {:induction false} MkdirAllMakes(n: Node, parts: seq<string>)
    requires MkdirAll(n, parts).Some?
    ensures var d := Lookup(MkdirAll(n, parts).value, parts); d.Some? && d.value.Dir?
    decreases parts
  {
    if parts != [] {
      var es := n.entries;
      var i := Find(es, parts[0]);
      var child := if i < 0 then Dir([]) else es[i].node;
      MkdirAllMakes(child, parts[1..]);
      var c := MkdirAll(child, parts[1..]).value;
      if i < 0 {
        FindAppended(es, Entry(parts[0], c));
      } else {
        FindSameNames(es, es[i := Entry(parts[0], c)], parts[0]);
      }
    }
  }

  /** `os.makedirs(path)`: it is an error for `path` to exist already. */
  function MakeDirs(root: Node, path: string): Result<Node, OsError> {
    if Exists(root, path) then Failure(FileExists(path))
    else match MkdirAll(root, Locate(path))
      case None => Failure(NotADirectory(path))
      case Some(r) => Success(r)
  }

  /** `Path(path).mkdir(parents=True, exist_ok=True)`: an existing directory is fine, an existing file is not. */
  function EnsureDir(root: Node, path: string): (r: Result<Node, OsError>)
    ensures IsDir(root, path) ==> r == Success(root)
  {
    if IsDir(root, path) then Success(root)
    else if Exists(root, path) then Failure(FileExists(path))
    else match MkdirAll(root, Locate(path))
      case None => Failure(NotADirectory(path))
      case Some(r) => Success(r)
  }

  /** Opening `path` for writing and writing `data`: the directory above must exist. */
  function WriteFile(root: Node, path: string, data: Bytes): (r: Result<Node, OsError>)
    ensures r.Success? ==> Locate(path) != [] && !IsDir(root, path)
  {
    var parts := Locate(path);
    if parts == [] || IsDir(root, path) then Failure(IsADirectory(path))
    else
      match Put(root, parts, File(data))
      case Some(r) => Success(r)
      case None =>
        if Lookup(root, parts[..|parts| - 1]).None? then Failure(FileNotFound(path)) else Failure(NotADirectory(path))
  }

  /** `shutil.copy(src, dst)` (and `copy2`, whose copying of timestamps is not modelled): copying onto a directory copies into it; the target path is returned. */
  function CopyFile(root: Node, src: string, dst: string): (r: Result<(Node, string), OsError>)
    ensures r.Success? ==> IsFile(root, src) && r.value.1 == (if IsDir(root, dst) then Paths.OsJoin(dst, Paths.Basename(src)) else dst)
  {
    var target := if IsDir(root, dst) then Paths.OsJoin(dst, Paths.Basename(src)) else dst;
    match At(root, src)
    case None => Failure(FileNotFound(src))
    case Some(Dir(_)) => Failure(IsADirectory(src))
    case Some(File(data)) =>
      if Locate(src) == Locate(target) then Failure(SameFile(src))
      else match WriteFile(root, target, data)
        case Failure(e) => Failure(e)
        case Success(r) => Success((r, target))
  }

  /** `path.rstrip('/')`. */
  function RStripSlash(path: string): (r: string)
    ensures StartsWith(path, r)
  {
    if |path| > 0 && path[|path| - 1] == '/' then RStripSlash(path[..|path| - 1]) else path
  }

  /** `os.rename(src, dst)`: the node leaves `src` and appears at `dst`, replacing a file there. */
  function Rename(root: Node, src: string, dst: string): (r: Result<Node, OsError>)
    ensures r.Success? ==> At(root, src).Some? && Locate(src) != [] && Locate(dst) != [] && !IsDir(root, dst)
  {
    var s, d := Locate(src), Locate(dst);
    match At(root, src)
    case None => Failure(FileNotFound(src))
    case Some(node) =>
      if s == [] || d == [] || IsDir(root, dst) then Failure(IsADirectory(dst))
      else match Remove(root, s)
        case None => Failure(FileNotFound(src))
        case Some(r1) =>
          match Put(r1, d, node)
          case None => Failure(FileNotFound(dst))
          case Some(r2) => Success(r2)
  }

  /** `shutil.move(src, dst)`: moving onto a directory moves into it, unless an entry of that name is there; the new path is returned. */
  function Move(root: Node, src: string, dst: string): (r: Result<(Node, string), OsError>)
    ensures r.Success? ==> r.value.1 == (if IsDir(root, dst) then Paths.OsJoin(dst, Paths.Basename(RStripSlash(src))) else dst)
  {
    var realDst := if IsDir(root, dst) then Paths.OsJoin(dst, Paths.Basename(RStripSlash(src))) else dst;
    if IsDir(root, dst) && Exists(root, realDst) then Failure(DestinationExists(realDst))
    else match Rename(root, src, realDst)
      case Failure(e) => Failure(e)
      case Success(r) => Success((r, realDst))
  }

  /** `shutil.rmtree(path)`: `path` must be a directory other than the root or the working directory; it goes with everything below it. */
  function RmTree(root: Node, path: string): (r: Result<Node, OsError>)
    ensures r.Success? ==> IsDir(root, path) && Locate(path) != []
  {
    var parts := Locate(path);
    match At(root, path)
    case None => Failure(FileNotFound(path))
    case Some(File(_)) => Failure(NotADirectory(path))
    case Some(Dir(_)) =>
      if parts == [] then Failure(CannotRemove(path))
      else match Remove(root, parts)
        case None => Failure(FileNotFound(path))
        case Some(r) => Success(r)
  }

  /** `Path(path).unlink(missing_ok)`: removes a file; a missing one is an error unless `missingOk`. */
  function Unlink(root: Node, path: string, missingOk: bool): (r: Result<Node, OsError>)
    ensures r.Success? ==> At(root, path).None? ==> missingOk && r.value == root
  {
    var parts := Locate(path);
    match At(root, path)
    case None => if missingOk then Success(root) else Failure(FileNotFound(path))
    case Some(Dir(_)) => Failure(IsADirectory(path))
    case Some(File(_)) =>
      if parts == [] then Failure(IsADirectory(path))
      else match Remove(root, parts)
        case None => Failure(FileNotFound(path))
        case Some(r) => Success(r)
  }

  /** Writing succeeds exactly when `path` names no directory and the directory above it exists; the file then holds `data`. */
  lemma WriteFileWrites(root: Node, path: string, data: Bytes)
    ensures var parts := Locate(path);
      WriteFile(root, path, data).Success? <==>
        parts != [] && !IsDir(root, path) && (var d := Lookup(root, parts[..|parts| - 1]); d.Some? && d.value.Dir?)
    ensures WriteFile(root, path, data).Success? ==> At(WriteFile(root, path, data).value, path) == Some(File(data))
  {
    if Locate(path) != [] {
      LookupPut(root, Locate(path), File(data));
    }
  }

  /** A copy holds the data of its source. */
  lemma CopyFileCopies(root: Node, src: string, dst: string)
    requires CopyFile(root, src, dst).Success?
    ensures var r := CopyFile(root, src, dst).value; At(r.0, r.1) == At(root, src)
  {
    hide WriteFile, Locate;
    var target := if IsDir(root, dst) then Paths.OsJoin(dst, Paths.Basename(src)) else dst;
    var data := At(root, src).value.data;
    assert CopyFile(root, src, dst) == Success((WriteFile(root, target, data).value, target));
    WriteFileWrites(root, target, data);
  }

  /** A renamed node is found at its new path and no longer at its old one (when neither path lies inside the other). */
  lemma RenameMoves(root: Node, src: string, dst: string)
    requires Rename(root, src, dst).Success?
    ensures At(Rename(root, src, dst).value, dst) == At(root, src)
    ensures Apart(Locate(src), Locate(dst)) ==> !Exists(Rename(root, src, dst).value, src)
  {
    var s, d := Locate(src), Locate(dst);
    var r1 := Remove(root, s).value;
    LookupPut(r1, d, At(root, src).value);
    LookupRemove(root, s, s);
    if Apart(s, d) {
      assert Apart(d, s) by {
        var k :| 0 <= k < |s| && k < |d| && s[k] != d[k];
        assert d[k] != s[k];
      }
      LookupPutApart(r1, d, At(root, src).value, s);
    }
  }

  /** A moved node is found at the path `Move` returns. */
  lemma MoveMoves(root: Node, src: string, dst: string)
    requires Move(root, src, dst).Success?
    ensures var r := Move(root, src, dst).value; At(r.0, r.1) == At(root, src)
  {
    var realDst := if IsDir(root, dst) then Paths.OsJoin(dst, Paths.Basename(RStripSlash(src))) else dst;
    RenameMoves(root, src, realDst);
  }

  /** After `rmtree` the directory is gone, and so is everything below it. */
  lemma RmTreeRemoves(root: Node, path: string, q: seq<string>)
    requires RmTree(root, path).Success?
    ensures Lookup(RmTree(root, path).value, Locate(path) + q).None?
  {
    LookupRemove(root, Locate(path), Locate(path));
    LookupBelowMissing(RmTree(root, path).value, Locate(path), q);
  }

  /** Nothing is found below a missing path. */
  lemma {:induction false} LookupBelowMissing(n: Node, p: seq<string>, q: seq<string>)
    requires Lookup(n, p).None?
    ensures Lookup(n, p + q).None?
    decreases p
  {
    assert (p + q)[0] == p[0] && (p + q)[1..] == p[1..] + q;
    if n.Dir? {
      var i := Find(n.entries, p[0]);
      if i >= 0 {
        LookupBelowMissing(n.entries[i].node, p[1..], q);
      }
    }
  }

  /** Whatever exists can be removed. */
  lemma {:induction false} RemoveExisting(n: Node, p: seq<string>)
    requires |p| > 0 && Lookup(n, p).Some?
    ensures Remove(n, p).Some?
    decreases p
  {
    if |p| > 1 {
      var i := Find(n.entries, p[0]);
      RemoveExisting(n.entries[i].node, p[1..]);
    }
  }

  /** Unlinking a file succeeds, unless the path is the root. */
  lemma UnlinkFile(root: Node, path: string, missingOk: bool)
    requires IsFile(root, path) && Locate(path) != []
    ensures Unlink(root, path, missingOk).Success?
  {
    RemoveExisting(root, Locate(path));
  }

  /** Unlinking a file leaves every path apart from it as it was. */
  lemma UnlinkKeepsApart(root: Node, path: string, missingOk: bool, other: string)
    requires Unlink(root, path, missingOk).Success? && Apart(Locate(path), Locate(other))
    ensures At(Unlink(root, path, missingOk).value, other) == At(root, other)
  {
    if At(root, path).Some? {
      LookupRemove(root, Locate(path), Locate(other));
    }
  }

  /** After unlinking, no file is at the path. */
  lemma UnlinkRemoves(root: Node, path: string, missingOk: bool)
    requires Unlink(root, path, missingOk).Success?
    ensures !IsFile(Unlink(root, path, missingOk).value, path)
  {
    if At(root, path).Some? {
      LookupRemove(root, Locate(path), Locate(path));
    }
  }

  /** One triple `(root, dirs, files)` that `os.walk` yields. */
  datatype WalkStep = WalkStep(root: string, dirs: seq<string>, files: seq<string>)

  function DirNames(es: seq<Entry>): seq<string> {
    if es == [] then [] else (if es[0].node.Dir? then [es[0].name] else []) + DirNames(es[1..])
  }

  function FileNames(es: seq<Entry>): seq<string> {
    if es == [] then [] else (if es[0].node.File? then [es[0].name] else []) + FileNames(es[1..])
  }

  /** `os.walk(top)` top-down over the tree `n` found at `top`: `top` itself, then each subdirectory in listing order. */
  function Walk(top: string, n: Node): seq<WalkStep>
    decreases n, 1
  {
    match n
    case File(_) => []
    case Dir(es) => [WalkStep(top, DirNames(es), FileNames(es))] + WalkEach(top, es)
  }

  /** The walks of the subdirectories among `es`, one after another. */
  function WalkEach(top: string, es: seq<Entry>): seq<WalkStep>
    decreases es, 0
  {
    if es == [] then []
    else (if es[0].node.Dir? then Walk(Paths.OsJoin(top, es[0].name), es[0].node) else []) + WalkEach(top, es[1..])
  }

  /** `os.walk(top)` on the file system `root`: a path that is missing or a file yields nothing. */
  function WalkPath(root: Node, top: string): seq<WalkStep> {
    match At(root, top)
    case None => []
    case Some(n) => Walk(top, n)
  }
}
