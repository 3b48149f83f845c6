/** The part of the machine the uploader looks at through `os` and `os.path`.
    The file system is a map from absolute paths to the kind of object stored
    there (a missing key: nothing exists there); a relative path is looked up
    through `abspath`, which resolves it against the working directory.
    `abspath`, `listdir` and `getsize` are left uninterpreted; `join` and
    `basename` follow POSIX `posixpath`. Symbolic links are not modelled. */
module OsPath {
  import opened Python

  type Path = string

  datatype Kind = File | Dir

  datatype Host = Host(
    cwd: Path,                    // os.getcwd()
    kinds: map<Path, Kind>,       // what exists, keyed by absolute path
    abspath: Path -> Path,        // os.path.abspath, uninterpreted
    listdir: Path -> seq<Path>,   // os.listdir, names in listing order
    size: Path -> nat)            // os.path.getsize of an existing object
  {
    /** `abspath` gives absolute paths, and that of "." is the working directory. */
    ghost predicate Valid() {
      IsAbs(cwd) && abspath(".") == cwd && forall p :: IsAbs(abspath(p))
    }
  }

  /** os.path.isabs */
  predicate IsAbs(p: Path) {
    |p| > 0 && p[0] == '/'
  }

  /** os.path.join(a, b): an absolute `b` replaces `a`; otherwise `b` is
      appended after a separator, unless `a` is empty or already ends in one. */
  function Join(a: Path, b: Path): (r: Path)
    ensures IsAbs(b) ==> r == b
    ensures IsAbs(a) ==> IsAbs(r)
  {
    if IsAbs(b) then b
    else if a == "" || a[|a| - 1] == '/' then a + b
    else a + "/" + b
  }

  /** os.path.basename: what follows the last separator. */
  function Basename(p: Path): Path
  {
    if p == "" || p[|p| - 1] == '/' then ""
    else Basename(p[..|p| - 1]) + [p[|p| - 1]]
  }

  /** The base name is the part of the path after its last separator: a
      suffix holding no separator, preceded by one unless it is the whole path. */
  lemma {:induction false} BasenameIsLastComponent(p: Path)
    ensures var r := Basename(p);
      '/' !in r && |r| <= |p| && r == p[|p| - |r|..] && (|r| < |p| ==> p[|p| - |r| - 1] == '/')
    decreases |p|
  {
    if p != "" && p[|p| - 1] != '/' {
      var q := p[..|p| - 1];
      BasenameIsLastComponent(q);
      var r := Basename(q);
      assert p[|p| - |r| - 1..] == q[|q| - |r|..] + [p[|p| - 1]];
    }
  }

  /** os.path.abspath */
  function Abspath(h: Host, p: Path): (r: Path)
    ensures h.Valid() ==> IsAbs(r)
  {
    h.abspath(p)
  }

  /** os.stat as far as the kind of object goes; the empty path never exists. */
  function Stat(h: Host, p: Path): Option<Kind>
  {
    if p == "" then None
    else if Abspath(h, p) in h.kinds then Some(h.kinds[Abspath(h, p)])
    else None
  }

  /** os.path.exists */
  predicate Exists(h: Host, p: Path) {
    Stat(h, p).Some?
  }

  /** os.path.isfile */
  predicate IsFile(h: Host, p: Path) {
    Stat(h, p) == Some(File)
  }

  /** os.path.isdir */
  predicate IsDir(h: Host, p: Path) {
    Stat(h, p) == Some(Dir)
  }

  /** os.path.getsize of a path that exists. */
  function GetSize(h: Host, p: Path): nat
  {
    h.size(Abspath(h, p))
  }
}
