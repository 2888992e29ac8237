/** The path rules of Python's `os.path` (on strings) and `pathlib` (on normalised parts), POSIX flavour. */
module Paths {
  import opened Strings

  /** Length of the directory part of `p`: everything up to and including the last '/', 0 when there is none. */
  function DirLength(p: string): (k: nat)
    ensures k <= |p|
    ensures k > 0 ==> p[k - 1] == '/'
    ensures '/' !in p[k..]
  {
    if |p| == 0 || p[|p| - 1] == '/' then |p|
    else
      var k := DirLength(p[..|p| - 1]);
      assert p[k..] == p[..|p| - 1][k..] + [p[|p| - 1]];
      k
  }

  /** `os.path.basename(p)`: what follows the last '/'. */
  function Basename(p: string): (r: string)
    ensures '/' !in r
    ensures EndsWith(p, r)
    ensures '/' !in p ==> r == p
  {
    var k := DirLength(p);
    assert '/' !in p ==> k == 0;
    p[k..]
  }

  /** `p.split("/")[-1]`, the idiom the providers use for the file name. */
  function LastPiece(p: string): string {
    var pieces := Split(p, '/');
    pieces[|pieces| - 1]
  }

  /** Any k with the two properties of DirLength is DirLength. */
  lemma DirLengthUnique(p: string, k: nat)
    requires k <= |p| && (k > 0 ==> p[k - 1] == '/') && '/' !in p[k..]
    ensures k == DirLength(p)
  {
  }

  /** The two file-name idioms agree: `p.split("/")[-1] == os.path.basename(p)`. */
  lemma {:induction false} LastPieceIsBasename(p: string)
    ensures LastPiece(p) == Basename(p)
  {
    if |p| > 0 {
      var t := p[1..];
      LastPieceIsBasename(t);
      if p[0] == '/' {
        LastPieceAfterSlash(p);
      } else if '/' in t {
        LastPieceInner(p);
      } else {
        LastPieceWhole(p);
      }
    }
  }

  lemma LastPieceAfterSlash(p: string)
    requires |p| > 0 && p[0] == '/' && LastPiece(p[1..]) == Basename(p[1..])
    ensures LastPiece(p) == Basename(p)
  {
    DirLengthUnique(p, 1 + DirLength(p[1..]));
    assert p[1 + DirLength(p[1..])..] == p[1..][DirLength(p[1..])..];
  }

  lemma LastPieceInner(p: string)
    requires |p| > 0 && p[0] != '/' && '/' in p[1..] && LastPiece(p[1..]) == Basename(p[1..])
    ensures LastPiece(p) == Basename(p)
  {
    var t := p[1..];
    var rest := Split(t, '/');
    assert DirLength(t) > 0;
    DirLengthUnique(p, 1 + DirLength(t));
    assert p[1 + DirLength(t)..] == t[DirLength(t)..];
    JoinSplit(t, '/');
    assert |rest| > 1;
    assert Split(p, '/') == [[p[0]] + rest[0]] + rest[1..];
  }

  lemma LastPieceWhole(p: string)
    requires |p| > 0 && p[0] != '/' && '/' !in p[1..]
    ensures LastPiece(p) == Basename(p)
  {
    SplitWithout(p[1..], '/');
    assert [p[0]] + p[1..] == p;
    assert '/' !in p;
  }

  /** `os.path.join(a, b)` for two arguments. */
  function OsJoin(a: string, b: string): (r: string)
    ensures EndsWith(r, b)
  {
    if StartsWith(b, "/") then b
    else if a == "" || EndsWith(a, "/") then a + b
    else a + "/" + b
  }

  /** Index of the last '.' in `s`, or -1 when there is none. */
  function LastDot(s: string): (d: int)
    ensures -1 <= d < |s|
    ensures d >= 0 ==> s[d] == '.'
    ensures forall i :: d < i < |s| ==> s[i] != '.'
  {
    if |s| == 0 then -1 else if s[|s| - 1] == '.' then |s| - 1 else LastDot(s[..|s| - 1])
  }

  /** `os.path.splitext(p)[1]`: the file name's last '.'-suffix, unless only dots precede that '.'. */
  function Extension(p: string): (e: string)
    ensures e == "" || (e[0] == '.' && EndsWith(p, e) && '/' !in e && '.' !in e[1..])
  {
    var name := Basename(p);
    var d := LastDot(name);
    if d > 0 && exists i | 0 <= i < d :: name[i] != '.' then
      assert EndsWith(p, name[d..]) by {
        assert p[|p| - |name|..] == name;
        assert p[|p| - |name[d..]|..] == name[d..];
      }
      name[d..]
    else ""
  }

  /** A `pathlib.PurePosixPath`: whether it is rooted, and its parts (non-empty, never ".", without '/'). */
  datatype PurePath = PurePath(absolute: bool, parts: seq<string>)

  predicate IsPart(s: string) {
    s != "" && s != "." && '/' !in s
  }

  predicate WellFormed(p: PurePath) {
    forall i :: 0 <= i < |p.parts| ==> p.parts[i] != "" && p.parts[i] != "." && '/' !in p.parts[i]
  }

  /** The pieces that remain parts: empty pieces (from "//" or a leading or trailing '/') and "." are dropped. */
  function Clean(pieces: seq<string>): (r: seq<string>)
    requires forall i :: 0 <= i < |pieces| ==> '/' !in pieces[i]
    ensures forall i :: 0 <= i < |r| ==> r[i] != "" && r[i] != "." && '/' !in r[i]
  {
    if |pieces| == 0 then []
    else if pieces[0] == "" || pieces[0] == "." then Clean(pieces[1..])
    else [pieces[0]] + Clean(pieces[1..])
  }

  /** `PurePosixPath(s)`. */
  function Parse(s: string): (p: PurePath)
    ensures WellFormed(p)
  {
    PurePath(StartsWith(s, "/"), Clean(Split(s, '/')))
  }

  /** `str(p)`. */
  function Render(p: PurePath): string {
    if p.absolute then "/" + Join(p.parts, '/')
    else if p.parts == [] then "."
    else Join(p.parts, '/')
  }

  /** Parsing the string of a well-formed path gives the path back. */
  lemma ParseRender(p: PurePath)
    requires WellFormed(p)
    ensures Parse(Render(p)) == p
  {
    var s := Render(p);
    if p.parts == [] {
      assert Split("/", '/') == ["", ""];
      SplitWithout(".", '/');
    } else {
      SplitJoin(p.parts, '/');
      CleanParts(p.parts);
      if p.absolute {
        SplitPrefix("", Join(p.parts, '/'), '/');
        assert "" + "/" + Join(p.parts, '/') == s;
      }
    }
  }

  /** Cleaning leaves a sequence of parts as it is. */
  lemma {:induction false} CleanParts(parts: seq<string>)
    requires forall i :: 0 <= i < |parts| ==> parts[i] != "" && parts[i] != "." && '/' !in parts[i]
    ensures Clean(parts) == parts
  {
    if |parts| > 0 {
      CleanParts(parts[1..]);
    }
  }

  /** `p.parent`: the path without its last part (a path without parts is its own parent). */
  function Parent(p: PurePath): (r: PurePath)
    ensures r.absolute == p.absolute
    ensures |p.parts| > 0 ==> r.parts + [p.parts[|p.parts| - 1]] == p.parts
    ensures p.parts == [] ==> r == p
  {
    if p.parts == [] then p else p.(parts := p.parts[..|p.parts| - 1])
  }

  /** `p.name`: the last part, or "" when there is none. */
  function Name(p: PurePath): string {
    if p.parts == [] then "" else p.parts[|p.parts| - 1]
  }

  /** `p.stem`: the name without its last suffix; a leading or trailing '.' is no suffix. */
  function Stem(p: PurePath): (r: string)
    ensures StartsWith(Name(p), r)
  {
    var name := Name(p);
    var i := LastDot(name);
    if 0 < i < |name| - 1 then name[..i] else name
  }

  /** `p / s`: an absolute `s` replaces `p`, otherwise its parts are appended. */
  function Div(p: PurePath, s: string): (r: PurePath)
    ensures StartsWith(s, "/") ==> r == Parse(s)
    ensures !StartsWith(s, "/") ==> r.absolute == p.absolute && r.parts == p.parts + Parse(s).parts
  {
    var q := Parse(s);
    if q.absolute then q else PurePath(p.absolute, p.parts + q.parts)
  }

  /** Joining a name without '/' onto a folder: the result starts with the folder and its base name is the name. */
  lemma BasenameOfJoin(a: string, b: string)
    requires b != "" && '/' !in b
    ensures StartsWith(OsJoin(a, b), a)
    ensures Basename(OsJoin(a, b)) == b
  {
    var r := OsJoin(a, b);
    assert b[0] != '/';
    if a == "" {
      DirLengthUnique(r, 0);
    } else if EndsWith(a, "/") {
      assert r[|a|..] == b;
      DirLengthUnique(r, |a|);
    } else {
      assert r[|a| + 1..] == b;
      DirLengthUnique(r, |a| + 1);
    }
  }

  /** Joining onto a well-formed path gives a well-formed path. */
  lemma DivWellFormed(p: PurePath, s: string)
    requires WellFormed(p)
    ensures WellFormed(Div(p, s))
  {
    var q := Parse(s);
    if !q.absolute {
      var all := p.parts + q.parts;
      assert forall i :: 0 <= i < |all| ==> all[i] == (if i < |p.parts| then p.parts[i] else q.parts[i - |p.parts|]);
    }
  }

  /** A path's parent is a prefix of it, so a path below its parent's string keeps the parent's parts. */
  lemma ParentOfDiv(p: PurePath, name: string)
    requires IsPart(name)
    ensures Parent(Div(p, name)) == p
    ensures Name(Div(p, name)) == name
  {
    SplitWithout(name, '/');
    assert Split(name, '/') == [name];
    assert Clean([name]) == [name];
  }

  /** A suffix without '/' of a path is a suffix of its base name. */
  lemma BasenameKeepsSuffix(p: string, s: string)
    requires EndsWith(p, s) && '/' !in s
    ensures EndsWith(Basename(p), s)
  {
    var k := DirLength(p);
    assert p[k..][|p[k..]| - |s|..] == p[|p| - |s|..];
  }

  /** The last character of a join of non-empty parts is the last character of the last part. */
  lemma {:induction false} JoinLast(parts: seq<string>)
    requires |parts| >= 1 && forall i :: 0 <= i < |parts| ==> parts[i] != ""
    ensures var j := Join(parts, '/'); |j| > 0 && j[|j| - 1] == parts[|parts| - 1][|parts[|parts| - 1]| - 1]
  {
    if |parts| > 1 {
      var rest := Join(parts[1..], '/');
      JoinLast(parts[1..]);
      assert Join(parts, '/') == parts[0] + ['/'] + rest;
      assert parts[1..][|parts| - 2] == parts[|parts| - 1];
    }
  }

  /** The first character of a join of non-empty parts is the first character of the first part. */
  lemma JoinFirst(parts: seq<string>)
    requires |parts| >= 1 && parts[0] != ""
    ensures |Join(parts, '/')| > 0 && Join(parts, '/')[0] == parts[0][0]
  {
    if |parts| > 1 {
      assert Join(parts, '/') == parts[0] + ['/'] + Join(parts[1..], '/');
    }
  }

  /** Joining a part onto the string of a path appends that part: `os.path.join(str(p), name)` is `p / name`. */
  lemma ParseJoin(p: PurePath, name: string)
    requires WellFormed(p) && IsPart(name)
    ensures Parse(OsJoin(Render(p), name)) == PurePath(p.absolute, p.parts + [name])
  {
    SplitWithout(name, '/');
    assert !StartsWith(name, "/");
    if p.parts == [] {
      ParseJoinTop(p.absolute, name);
    } else {
      ParseJoinParts(p, name);
    }
  }

  lemma ParseJoinTop(absolute: bool, name: string)
    requires IsPart(name) && !StartsWith(name, "/") && Split(name, '/') == [name]
    ensures Parse(OsJoin(Render(PurePath(absolute, [])), name)) == PurePath(absolute, [name])
  {
    if absolute {
      ParseJoinRoot(name);
    } else {
      ParseJoinDot(name);
    }
  }

  lemma ParseJoinRoot(name: string)
    requires IsPart(name) && !StartsWith(name, "/") && Split(name, '/') == [name]
    ensures Parse(OsJoin("/", name)) == PurePath(true, [name])
  {
    var s := OsJoin("/", name);
    assert s == "" + ['/'] + name;
    SplitPrefix("", name, '/');
    assert Split(s, '/') == ["", name];
    assert Clean(["", name]) == Clean([name]);
  }

  lemma ParseJoinDot(name: string)
    requires IsPart(name) && !StartsWith(name, "/") && Split(name, '/') == [name]
    ensures Parse(OsJoin(".", name)) == PurePath(false, [name])
  {
    var s := OsJoin(".", name);
    assert s == "." + ['/'] + name;
    assert s[0] == '.';
    SplitPrefix(".", name, '/');
    assert Split(s, '/') == [".", name];
    assert Clean([".", name]) == Clean([name]);
  }

  lemma ParseJoinParts(p: PurePath, name: string)
    requires WellFormed(p) && IsPart(name) && !StartsWith(name, "/") && p.parts != []
    ensures Parse(OsJoin(Render(p), name)) == PurePath(p.absolute, p.parts + [name])
  {
    var j := Join(p.parts, '/');
    var all := p.parts + [name];
    JoinSnoc(p.parts, name, '/');
    assert forall i :: 0 <= i < |all| ==> all[i] != "" && all[i] != "." && '/' !in all[i];
    SplitJoin(all, '/');
    CleanParts(all);
    JoinNoSlashAtEnds(p.parts);
    if p.absolute {
      assert Render(p) == "/" + j;
      ParseJoinAbsolute(j, name, all);
    } else {
      assert Render(p) == j;
      ParseJoinRelative(j, name, all);
    }
  }

  lemma ParseJoinAbsolute(j: string, name: string, all: seq<string>)
    requires j != "" && !EndsWith(j, "/") && !StartsWith(name, "/")
    requires Clean(Split(j + ['/'] + name, '/')) == all
    ensures Parse(OsJoin("/" + j, name)) == PurePath(true, all)
  {
    var t := j + ['/'] + name;
    JoinBelowRoot(j, name);
    ParseRooted(t, all);
  }

  lemma JoinBelowRoot(j: string, name: string)
    requires j != "" && !EndsWith(j, "/") && !StartsWith(name, "/")
    ensures OsJoin("/" + j, name) == "" + ['/'] + (j + ['/'] + name)
  {
    var a := "/" + j;
    assert a[|a| - 1..] == j[|j| - 1..];
    assert !EndsWith(a, "/");
    assert OsJoin(a, name) == a + "/" + name;
  }

  lemma ParseRooted(t: string, all: seq<string>)
    requires Clean(Split(t, '/')) == all
    ensures Parse("" + ['/'] + t) == PurePath(true, all)
  {
    SplitPrefix("", t, '/');
    assert ([""] + Split(t, '/'))[1..] == Split(t, '/');
  }

  lemma ParseJoinRelative(j: string, name: string, all: seq<string>)
    requires j != "" && !EndsWith(j, "/") && !StartsWith(j, "/") && !StartsWith(name, "/")
    requires Clean(Split(j + ['/'] + name, '/')) == all
    ensures Parse(OsJoin(j, name)) == PurePath(false, all)
  {
    assert OsJoin(j, name) == j + ['/'] + name;
    assert (j + ['/'] + name)[..1] == j[..1];
  }

  /** A join of proper parts neither starts nor ends with '/'. */
  lemma JoinNoSlashAtEnds(parts: seq<string>)
    requires |parts| >= 1 && forall i :: 0 <= i < |parts| ==> parts[i] != "" && '/' !in parts[i]
    ensures var j := Join(parts, '/'); |j| > 0 && j[0] != '/' && j[|j| - 1] != '/'
    ensures !StartsWith(Join(parts, '/'), "/") && !EndsWith(Join(parts, '/'), "/")
  {
    JoinLast(parts);
    JoinFirst(parts);
    var last := parts[|parts| - 1];
    assert last[|last| - 1] in last;
    assert parts[0][0] in parts[0];
    var j := Join(parts, '/');
    assert j[|j| - 1..] == [j[|j| - 1]];
    assert j[..1] == [j[0]];
  }
}
