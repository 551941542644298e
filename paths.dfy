/** POSIX path handling as Python's `os.path` does it (`basename`, `join` with two parts,
    `splitext`), and the upload directory the services write to. */
module Paths {
  import opened Common

  const UploadDir: string := "./uploaded_docs"

  /** `os.path.basename(p)`: everything after the last `/`. */
  function Basename(p: string): (b: string)
    ensures forall i :: 0 <= i < |b| ==> b[i] != '/'
    ensures |b| <= |p| && b == p[|p| - |b|..]
  {
    match LastIndexOf(p, '/')
    case None => p
    case Some(k) => p[k + 1..]
  }

  /** `os.path.join(dir, name)`: an absolute `name` replaces `dir`. */
  function JoinPath(dir: string, name: string): string
  {
    if name != [] && name[0] == '/' then name
    else if dir == [] || dir[|dir| - 1] == '/' then dir + name
    else dir + "/" + name
  }

  /** A name without `/` joined under a directory keeps that name as its basename. */
  lemma BasenameOfJoin(dir: string, name: string)
    requires forall i :: 0 <= i < |name| ==> name[i] != '/'
    ensures Basename(JoinPath(dir, name)) == name
  {
    var p := JoinPath(dir, name);
    var prefix := if dir == [] || dir[|dir| - 1] == '/' then dir else dir + "/";
    assert p == prefix + name;
    var k := |prefix|;
    assert forall i :: k <= i < |p| ==> p[i] == name[i - k];
    if k > 0 {
      assert p[k - 1] == '/';
    }
  }

  /** `os.path.splitext(p)`: the extension starts at the last `.` of the last component,
      provided that component has a character other than `.` before it. */
  function SplitExt(p: string): (parts: (string, string))
    ensures parts.0 + parts.1 == p
    ensures parts.1 != [] ==> parts.1[0] == '.'
    ensures forall i :: 0 < i < |parts.1| ==> parts.1[i] != '.' && parts.1[i] != '/'
  {
    var sep: int := match LastIndexOf(p, '/') case Some(k) => k case None => -1;
    match LastIndexOf(p, '.')
    case None => (p, "")
    case Some(d) =>
      if d > sep && exists k :: sep < k < d && p[k] != '.' then (p[..d], p[d..]) else (p, "")
  }

  /** The lower-cased extension the dispatchers compare against. */
  function LowerExt(p: string): string
  {
    Lower(SplitExt(p).1)
  }

  /** `splitext(p)[0] + new`: the same path with its extension replaced. */
  function WithExt(p: string, newExt: string): string
  {
    SplitExt(p).0 + newExt
  }

  lemma SplitExtOfSimpleName(stem: string, ext: string)
    requires stem != [] && forall i :: 0 <= i < |stem| ==> stem[i] != '/' && stem[i] != '.'
    requires ext != [] && ext[0] == '.' && forall i :: 0 < i < |ext| ==> ext[i] != '.' && ext[i] != '/'
    ensures SplitExt(stem + ext) == (stem, ext)
  {
    var p := stem + ext;
    assert p[|stem|] == '.';
    assert p[0] == stem[0] && p[0] != '.';
    match LastIndexOf(p, '/')
    case None =>
    case Some(k) =>
      assert false;
  }
  /** The last character of a joined path is the name's, or the separator `join` adds
      when the name is empty. */
  lemma LastOfJoin(name: string)
    ensures var p := JoinPath(UploadDir, name);
      p != [] && p[|p| - 1] == (if name == [] then '/' else name[|name| - 1])
  {
  }

  /** A path that does not end in `/` ends in the same character as its base name. */
  lemma LastOfBasename(p: string)
    requires p != [] && p[|p| - 1] != '/'
    ensures Basename(p) != [] && Basename(p)[|Basename(p)| - 1] == p[|p| - 1]
  {
    match LastIndexOf(p, '/')
    case None =>
    case Some(k) =>
      assert k < |p| - 1;
  }

  /** The extension `splitext` finds ends where the path ends. */
  lemma LastOfExt(p: string)
    requires SplitExt(p).1 != []
    ensures var e := SplitExt(p).1; p != [] && e[|e| - 1] == p[|p| - 1]
  {
    var parts := SplitExt(p);
    assert parts.0 + parts.1 == p;
    assert p[|p| - 1] == (parts.0 + parts.1)[|parts.0| + |parts.1| - 1];
  }
}
