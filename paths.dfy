/** The parts of POSIX `os.path` the core uses: `join` with two components,
    `basename` and `splitext`. */
module Paths {
  import opened Builtins

  /** `s.rfind(c)`: the position of the last `c` in `s`, or -1. */
  function LastIndex(s: string, c: char): (r: int)
    ensures -1 <= r < |s|
    ensures r >= 0 ==> s[r] == c
    ensures forall k :: r < k < |s| ==> s[k] != c
    decreases |s|
  {
    if s == [] then -1
    else if s[|s| - 1] == c then |s| - 1
    else LastIndex(s[..|s| - 1], c)
  }

  /** Appending text without `c` does not move the last `c`. */
  lemma LastIndexAppend(a: string, b: string, c: char)
    requires forall i :: 0 <= i < |b| ==> b[i] != c
    ensures LastIndex(a + b, c) == LastIndex(a, c)
  {
    var r, r' := LastIndex(a + b, c), LastIndex(a, c);
    if r' >= 0 {
      assert (a + b)[r'] == a[r'];
    }
    if r >= 0 {
      assert (a + b)[r] == a[r];
    }
  }

  /** `os.path.join(a, b)`: `b` itself when it is absolute, otherwise `b`
      after `a` with one '/' between them unless `a` is empty or ends in '/'. */
  function Join(a: string, b: string): (r: string)
    ensures EndsWith(r, b)
  {
    if StartsWith(b, "/") then b
    else if a == [] || EndsWith(a, "/") then a + b
    else a + "/" + b
  }

  /** What `Join(a, _)` puts in front of a relative name. */
  function JoinPrefix(a: string): (d: string)
    ensures d == [] || d[|d| - 1] == '/'
  {
    if a == [] || EndsWith(a, "/") then a else a + "/"
  }

  lemma JoinRelative(a: string, b: string)
    requires b != [] && b[0] != '/'
    ensures Join(a, b) == JoinPrefix(a) + b
  {
  }

  /** `os.path.basename(p)`: everything after the last '/'. */
  function Basename(p: string): (r: string)
    ensures EndsWith(p, r)
    ensures forall i :: 0 <= i < |r| ==> r[i] != '/'
  {
    p[LastIndex(p, '/') + 1..]
  }

  /** The base name of a directory joined with a plain file name is that name. */
  lemma {:induction false} BasenameOfJoin(dir: string, name: string)
    requires name != [] && forall i :: 0 <= i < |name| ==> name[i] != '/'
    ensures Basename(Join(dir, name)) == name
  {
    JoinRelative(dir, name);
    var d := JoinPrefix(dir);
    LastIndexAppend(d, name, '/');
    assert LastIndex(d, '/') == |d| - 1;
    assert (d + name)[|d|..] == name;
  }

  /** `os.path.splitext(p)`: `(root, ext)` where `ext` runs from the last '.'
      of the last path component, provided some character other than '.'
      precedes that dot within the component; otherwise `(p, "")`. */
  function SplitExt(p: string): (r: (string, string))
    ensures r.0 + r.1 == p
    ensures r.1 == [] || (r.1[0] == '.' && forall i :: 0 < i < |r.1| ==> r.1[i] != '.' && r.1[i] != '/')
  {
    var sep := LastIndex(p, '/');
    var dot := LastIndex(p, '.');
    if dot > sep && exists k :: sep < k < dot && p[k] != '.' then
      assert p[..dot] + p[dot..] == p;
      (p[..dot], p[dot..])
    else (p, [])
  }

  /** SplitExt of `d + stem + ext` once the last '/' is known to end `d` and
      the last '.' to start `ext`, with a character other than '.' in `stem`. */
  lemma SplitExtParts(d: string, stem: string, ext: string, i0: int)
    requires LastIndex(d + stem + ext, '/') == |d| - 1
    requires LastIndex(d + stem + ext, '.') == |d| + |stem|
    requires 0 <= i0 < |stem| && stem[i0] != '.'
    ensures SplitExt(d + stem + ext) == (d + stem, ext)
  {
    var root := d + stem;
    var p := root + ext;
    assert p[|d| + i0] == stem[i0];
    assert p[..|root|] == root && p[|root|..] == ext;
  }

  /** The last `c` of `a + b` ends `a` when `a` ends in `c` and `b` holds none. */
  lemma LastIndexAtJoint(a: string, b: string, c: char)
    requires a == [] || a[|a| - 1] == c
    requires forall i :: 0 <= i < |b| ==> b[i] != c
    ensures LastIndex(a + b, c) == |a| - 1
  {
    LastIndexAppend(a, b, c);
  }

  /** The last '.' of `root + ext` starts `ext` when `ext` is '.' followed by dot-free text. */
  lemma LastDotStartsExt(root: string, ext: string)
    requires ext != [] && ext[0] == '.'
    requires forall i :: 0 < i < |ext| ==> ext[i] != '.'
    ensures LastIndex(root + ext, '.') == |root|
  {
    var front := root + ['.'];
    var e := ext[1..];
    assert root + ext == front + e;
    LastIndexAtJoint(front, e, '.');
  }

  /** The last '/' of `d + name` ends `d` when `d` ends in '/' and `name` has none. */
  lemma LastSlashEndsDir(d: string, stem: string, ext: string)
    requires d == [] || d[|d| - 1] == '/'
    requires forall i :: 0 <= i < |stem| ==> stem[i] != '/'
    requires forall i :: 0 <= i < |ext| ==> ext[i] != '/'
    ensures LastIndex(d + stem + ext, '/') == |d| - 1
  {
    var name := stem + ext;
    forall i | 0 <= i < |name| ensures name[i] != '/' {
      if i >= |stem| { assert name[i] == ext[i - |stem|]; }
    }
    assert d + stem + ext == d + name;
    LastIndexAtJoint(d, name, '/');
  }

  /** Splitting the extension off `dir/stem.ext` gives back `dir/stem` when
      the stem holds a character other than '.'. */
  lemma SplitExtOfJoin(dir: string, stem: string, ext: string)
    requires forall i :: 0 <= i < |stem| ==> stem[i] != '/'
    requires exists i :: 0 <= i < |stem| && stem[i] != '.'
    requires ext != [] && ext[0] == '.'
    requires forall i :: 0 < i < |ext| ==> ext[i] != '.' && ext[i] != '/'
    ensures SplitExt(Join(dir, stem + ext)) == (Join(dir, stem), ext)
  {
    var i0 :| 0 <= i0 < |stem| && stem[i0] != '.';
    JoinRelative(dir, stem + ext);
    JoinRelative(dir, stem);
    var d := JoinPrefix(dir);
    assert d + (stem + ext) == d + stem + ext;
    LastSlashEndsDir(d, stem, ext);
    LastDotStartsExt(d + stem, ext);
    SplitExtParts(d, stem, ext, i0);
  }
}
