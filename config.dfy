/** config.py: the settings read at start-up, the logger, and `FilesConfig`,
    which parses an upload request, collects every validation error, and
    only when there is none rewrites the file list to absolute paths. */
module Config {
  import opened Python
  import opened OsPath

  /** SharepointConfig: the `sp` section of config.yaml and the subsite named
      on the command line. */
  datatype SharepointConfig = SharepointConfig(
    tenant: string, client: string, site: string, secret: string, subsite: Option<string>)

  /** RuntimeConfig: the debug flag from the command line and `chunk_size`
      from the `runtime` section of config.yaml. */
  datatype RuntimeConfig = RuntimeConfig(debug: bool, chunkSize: int)

  // ---------------------------------------------------------------- Logger

  datatype Level = Debug | Info | Warning | Error | Exception | Success

  datatype LogEntry = LogEntry(level: Level, text: string)

  /** Logger, reduced to the sequence of messages it was given, in order:
      every call prints to the console, whatever level the file handler keeps. */
  class Logger {
    var entries: seq<LogEntry>

    constructor ()
      ensures entries == []
    {
      entries := [];
    }

    method Log(level: Level, text: string)
      modifies this
      ensures entries == old(entries) + [LogEntry(level, text)]
    {
      entries := entries + [LogEntry(level, text)];
    }
  }

  // ------------------------------------------------------ validation errors

  /** The messages `FilesConfig.verify` can report. */
  datatype ConfigError =
    | NoInput
    | PathMissing(path: string)
    | NotADirectory(path: string)
    | MissingOnPath(entry: string, path: string)
    | NotAFile(entry: string)
    | Missing(entry: string)
    | IllegalName(name: string)

  /** The value an error is about (nothing for NoInput). */
  function Subject(e: ConfigError): string
  {
    match e
    case NoInput => ""
    case PathMissing(p) => p
    case NotADirectory(p) => p
    case MissingOnPath(f, _) => f
    case NotAFile(f) => f
    case Missing(f) => f
    case IllegalName(n) => n
  }

  /** The text of an error: never empty, and it starts with the value it is about. */
  function Message(e: ConfigError): (m: string)
    ensures |m| > |Subject(e)| && m[..|Subject(e)|] == Subject(e)
  {
    match e
    case NoInput => "at least one of -i or -f must be present"
    case PathMissing(p) => p + " does not exist"
    case NotADirectory(p) => p + " is not a directory"
    case MissingOnPath(f, p) => f + " does not exist on path " + p
    case NotAFile(f) => f + " is not a file"
    case Missing(f) => f + " does not exist"
    case IllegalName(n) => n + " contains illegal characters: only a-zA-Z0-9._- are allowed"
  }

  function Messages(errs: seq<ConfigError>): seq<string>
  {
    seq(|errs|, i requires 0 <= i < |errs| => Message(errs[i]))
  }

  /** `[x for x in ret if x]`: drops the empty strings. */
  function KeepTruthy(xs: seq<string>): seq<string>
  {
    if xs == [] then []
    else (if xs[0] != "" then [xs[0]] else []) + KeepTruthy(xs[1..])
  }

  /** The filter keeps a list without empty strings as it is. */
  lemma {:induction false} KeepTruthyOfNonEmpty(xs: seq<string>)
    requires forall i :: 0 <= i < |xs| ==> xs[i] != ""
    ensures KeepTruthy(xs) == xs
    decreases |xs|
  {
    if xs != [] {
      KeepTruthyOfNonEmpty(xs[1..]);
      assert xs == [xs[0]] + xs[1..];
    }
  }

  /** The filter in `verify` never removes a message: none is empty. */
  lemma KeepTruthyKeepsMessages(errs: seq<ConfigError>)
    ensures KeepTruthy(Messages(errs)) == Messages(errs)
  {
    var ms := Messages(errs);
    forall i | 0 <= i < |ms| ensures ms[i] != "" {
      assert |Message(errs[i])| > 0;
    }
    KeepTruthyOfNonEmpty(ms);
  }

  // ------------------------------------------------------------- parsing

  /** `files.split(",")` for a non-empty string, else `None`: the list is
      non-empty, its entries hold no comma and join back to the input. */
  function ParseFiles(files: Option<string>): (r: Option<seq<string>>)
    ensures r.Some? <==> Truthy(files)
    ensures r.Some? ==> |r.value| > 0 && JoinWith(r.value, ',') == files.value
    ensures r.Some? ==> forall i :: 0 <= i < |r.value| ==> ',' !in r.value[i]
  {
    if Truthy(files) then
      JoinSplit(files.value, ',');
      SplitPiecesHaveNoSep(files.value, ',');
      Some(Split(files.value, ','))
    else None
  }

  /** The output folder: an explicit one wins; otherwise, with a path, the
      last component of the absolute path; otherwise none. */
  function DefaultOutFolder(h: Host, path: Option<string>, outFolder: Option<string>): (r: Option<string>)
    ensures Truthy(outFolder) ==> r == outFolder
    ensures !Truthy(outFolder) && Truthy(path) ==>
      var a := Abspath(h, path.value);
      r.Some? && '/' !in r.value && |r.value| <= |a| && a[|a| - |r.value|..] == r.value &&
      (|r.value| < |a| ==> a[|a| - |r.value| - 1] == '/')
    ensures !Truthy(outFolder) && !Truthy(path) ==> r == None
  {
    if Truthy(outFolder) then outFolder
    else if Truthy(path) then
      BasenameIsLastComponent(Abspath(h, path.value));
      Some(Basename(Abspath(h, path.value)))
    else None
  }

  // ------------------------------------------------------------ checks

  /** `_verify_path`: nothing to report without a path or for an existing
      directory; otherwise exactly one error saying which test failed. */
  function PathErrors(h: Host, path: Option<string>): (r: seq<ConfigError>)
    ensures |r| <= 1
    ensures r == [] <==> !Truthy(path) || IsDir(h, path.value)
    ensures r != [] ==> r[0] == (if Exists(h, path.value) then NotADirectory(path.value)
                                 else PathMissing(path.value))
  {
    if Truthy(path) then
      if !Exists(h, path.value) then [PathMissing(path.value)]
      else if !IsDir(h, path.value) then [NotADirectory(path.value)]
      else []
    else []
  }

  /** What `_verify_files` reports for one entry. */
  function EntryError(h: Host, path: Option<string>, f: Path): Option<ConfigError>
  {
    if !Exists(h, f) then
      if Truthy(path) && !Exists(h, Join(path.value, f)) then Some(MissingOnPath(f, path.value))
      else if Truthy(path) && !IsFile(h, Join(path.value, f)) then Some(NotAFile(f))
      else if !Truthy(path) then Some(Missing(f))
      else None
    else if !IsFile(h, f) then Some(NotAFile(f))
    else None
  }

  /** An entry passes exactly when it is a regular file as given, or a path
      was given, the entry does not exist as given and is a regular file
      under that path. A failing entry yields one error naming the entry, and
      without a path a missing entry is reported as not existing. */
  lemma EntryErrorCases(h: Host, path: Option<string>, f: Path)
    ensures EntryError(h, path, f) == None <==>
      IsFile(h, f) || (Truthy(path) && !Exists(h, f) && IsFile(h, Join(path.value, f)))
    ensures EntryError(h, path, f).Some? ==> Subject(EntryError(h, path, f).value) == f
    ensures !Truthy(path) && !Exists(h, f) ==> EntryError(h, path, f) == Some(Missing(f))
  {
  }

  function OptionToSeq<T>(o: Option<T>): seq<T>
  {
    if o.Some? then [o.value] else []
  }

  /** The errors of a list of entries, entry by entry, at most one each. */
  function EntriesErrors(h: Host, path: Option<string>, fs: seq<Path>): (r: seq<ConfigError>)
    ensures |r| <= |fs|
  {
    if fs == [] then []
    else EntriesErrors(h, path, fs[..|fs| - 1]) + OptionToSeq(EntryError(h, path, fs[|fs| - 1]))
  }

  /** Errors come in entry order: those of a list are those of its first
      part followed by those of the rest. */
  lemma {:induction false} EntriesErrorsAppend(h: Host, path: Option<string>, a: seq<Path>, b: seq<Path>)
    ensures EntriesErrors(h, path, a + b) == EntriesErrors(h, path, a) + EntriesErrors(h, path, b)
    decreases |b|
  {
    if b == [] {
      assert a + b == a;
    } else {
      var b' := b[..|b| - 1];
      EntriesErrorsAppend(h, path, a, b');
      assert (a + b)[..|a + b| - 1] == a + b';
      assert (a + b)[|a + b| - 1] == b[|b| - 1];
      AppendAssoc(EntriesErrors(h, path, a), EntriesErrors(h, path, b'), OptionToSeq(EntryError(h, path, b[|b| - 1])));
    }
  }

  /** A list of entries is error-free exactly when every entry is. */
  lemma {:induction false} EntriesErrorsNone(h: Host, path: Option<string>, fs: seq<Path>)
    ensures EntriesErrors(h, path, fs) == [] <==>
      forall i :: 0 <= i < |fs| ==> EntryError(h, path, fs[i]) == None
    decreases |fs|
  {
    if fs != [] {
      var fs' := fs[..|fs| - 1];
      EntriesErrorsNone(h, path, fs');
      var last := OptionToSeq(EntryError(h, path, fs[|fs| - 1]));
      assert EntriesErrors(h, path, fs) == EntriesErrors(h, path, fs') + last;
      assert EntriesErrors(h, path, fs) == [] <==> EntriesErrors(h, path, fs') == [] && last == [];
      assert forall i :: 0 <= i < |fs'| ==> fs'[i] == fs[i];
    }
  }

  /** The result `_verify_files` computes: nothing for an unset or empty list. */
  function FilesErrors(h: Host, path: Option<string>, files: Option<seq<Path>>): seq<ConfigError>
  {
    if NonEmpty(files) then EntriesErrors(h, path, files.value) else []
  }

  /** The character class `[a-zA-Z0-9._-]`. */
  predicate AllowedChar(c: char) {
    ('a' <= c <= 'z') || ('A' <= c <= 'Z') || ('0' <= c <= '9') || c == '.' || c == '_' || c == '-'
  }

  predicate AllAllowed(t: string) {
    forall i :: 0 <= i < |t| ==> AllowedChar(t[i])
  }

  /** Python's `re.match("^[a-zA-Z0-9._-]+$", s)` succeeds: one or more
      allowed characters, then the end of the string or a single newline
      that ends it (`$` also matches before a final newline). */
  ghost predicate PatternMatches(s: string) {
    exists t :: |t| > 0 && AllAllowed(t) && (s == t || s == t + "\n")
  }

  /** The pattern, decided by the last character: a final newline may only
      follow one or more allowed characters; otherwise every character must
      be allowed. */
  lemma PatternByLastChar(s: string)
    ensures PatternMatches(s) <==>
      if |s| > 0 && s[|s| - 1] == '\n' then |s| > 1 && AllAllowed(s[..|s| - 1])
      else |s| > 0 && AllAllowed(s)
  {
    if |s| > 0 && s[|s| - 1] == '\n' {
      var t := s[..|s| - 1];
      assert s == t + "\n";
      if PatternMatches(s) {
        var u :| |u| > 0 && AllAllowed(u) && (s == u || s == u + "\n");
        assert !AllAllowed(s) by { assert !AllowedChar(s[|s| - 1]); }
        assert s != u;
        assert u == t;
      }
    } else if PatternMatches(s) {
      var u :| |u| > 0 && AllAllowed(u) && (s == u || s == u + "\n");
      assert (u + "\n")[|u|] == '\n';
      assert s != u + "\n";
    }
  }

  /** Decides the pattern by looking at the last character. */
  function NameIsLegal(s: string): (b: bool)
    ensures b <==> PatternMatches(s)
  {
    PatternByLastChar(s);
    if |s| > 0 && s[|s| - 1] == '\n' then |s| > 1 && AllAllowed(s[..|s| - 1])
    else |s| > 0 && AllAllowed(s)
  }

  /** `_verify_out_folder`: nothing for an unset or empty name; otherwise one
      error exactly when the name does not match the pattern. */
  function OutFolderErrors(outFolder: Option<string>): (r: seq<ConfigError>)
    ensures r == [] <==> !Truthy(outFolder) || PatternMatches(outFolder.value)
    ensures r != [] ==> r == [IllegalName(outFolder.value)]
  {
    if !Truthy(outFolder) then []
    else if NameIsLegal(outFolder.value) then []
    else [IllegalName(outFolder.value)]
  }

  /** A name holding a character outside the class, other than one final
      newline, is refused: a separator, a space, any other symbol. */
  lemma IllegalCharRejected(name: string, i: nat)
    requires i < |name| && !AllowedChar(name[i])
    requires !(i == |name| - 1 && name[i] == '\n')
    ensures OutFolderErrors(Some(name)) == [IllegalName(name)]
  {
    if name[|name| - 1] == '\n' {
      assert name[..|name| - 1][i] == name[i];
    }
  }

  /** A name made only of letters, digits, `.`, `_` and `-` is accepted,
      and so is that name followed by one newline. */
  lemma LegalNameAccepted(name: string)
    requires |name| > 0 && AllAllowed(name)
    ensures OutFolderErrors(Some(name)) == []
    ensures OutFolderErrors(Some(name + "\n")) == []
  {
  }

  /** What `verify` collects, in order: the missing-input error, then the
      path, entry and folder-name errors. The missing-input error heads the
      list exactly when neither a path nor files were given. */
  function VerifyErrors(h: Host, path: Option<string>, files: Option<seq<Path>>, outFolder: Option<string>)
    : (r: seq<ConfigError>)
    ensures (!Truthy(path) && !NonEmpty(files)) <==> (r != [] && r[0] == NoInput)
  {
    var head := if !Truthy(path) && !NonEmpty(files) then [NoInput] else [];
    var rest := PathErrors(h, path) + FilesErrors(h, path, files) + OutFolderErrors(outFolder);
    assert NoInput !in rest by {
      if NonEmpty(files) {
        var fs := files.value;
        NoInputNotInEntries(h, path, fs);
      }
    }
    head + rest
  }

  lemma {:induction false} NoInputNotInEntries(h: Host, path: Option<string>, fs: seq<Path>)
    ensures NoInput !in EntriesErrors(h, path, fs)
    decreases |fs|
  {
    if fs != [] {
      NoInputNotInEntries(h, path, fs[..|fs| - 1]);
    }
  }

  /** `verify` finds nothing exactly when some input was given, a given path
      is a directory, every entry passes and the folder name is legal. */
  lemma VerifyErrorsNone(h: Host, path: Option<string>, files: Option<seq<Path>>, outFolder: Option<string>)
    ensures VerifyErrors(h, path, files, outFolder) == [] <==>
      (Truthy(path) || NonEmpty(files)) &&
      (!Truthy(path) || IsDir(h, path.value)) &&
      (NonEmpty(files) ==> forall i :: 0 <= i < |files.value| ==> EntryError(h, path, files.value[i]) == None) &&
      (!Truthy(outFolder) || PatternMatches(outFolder.value))
  {
    if NonEmpty(files) {
      EntriesErrorsNone(h, path, files.value);
    }
  }

  /** The same condition stated on the raw `-f` argument, as verify splits it. */
  lemma ParsedErrorsNone(h: Host, path: Option<string>, files: Option<string>, outFolder: Option<string>)
    ensures VerifyErrors(h, path, ParseFiles(files), outFolder) == [] <==>
      (Truthy(path) || Truthy(files)) &&
      (!Truthy(path) || IsDir(h, path.value)) &&
      (Truthy(files) ==>
         forall i :: 0 <= i < |Split(files.value, ',')| ==> EntryError(h, path, Split(files.value, ',')[i]) == None) &&
      (!Truthy(outFolder) || PatternMatches(outFolder.value))
  {
    VerifyErrorsNone(h, path, ParseFiles(files), outFolder);
    if Truthy(files) {
      assert ParseFiles(files) == Some(Split(files.value, ','));
    }
  }

  // -------------------------------------------------------- normalisation

  /** The directory `_fix_paths` resolves against: the given path, or ".". */
  function BaseDir(h: Host, path: Option<string>): (base: Path)
    ensures h.Valid() ==> IsAbs(base)
  {
    Abspath(h, if Truthy(path) then path.value else ".")
  }

  function JoinAll(base: Path, fs: seq<Path>): seq<Path>
  {
    seq(|fs|, i requires 0 <= i < |fs| => Join(base, fs[i]))
  }

  /** The regular files among some paths, in their order: what the listing
      loop of `_fix_paths` keeps. */
  function RegularFiles(h: Host, ps: seq<Path>): (r: seq<Path>)
    ensures |r| <= |ps|
  {
    if ps == [] then []
    else
      var p := ps[|ps| - 1];
      RegularFiles(h, ps[..|ps| - 1]) + (if IsFile(h, p) then [p] else [])
  }

  /** Filtering keeps order: the files of a list are those of its first part
      followed by those of the rest. */
  lemma {:induction false} RegularFilesAppend(h: Host, a: seq<Path>, b: seq<Path>)
    ensures RegularFiles(h, a + b) == RegularFiles(h, a) + RegularFiles(h, b)
    decreases |b|
  {
    if b == [] {
      assert a + b == a;
    } else {
      var b' := b[..|b| - 1];
      RegularFilesAppend(h, a, b');
      assert (a + b)[..|a + b| - 1] == a + b';
      assert (a + b)[|a + b| - 1] == b[|b| - 1];
    }
  }

  /** A path is kept exactly when it is among the paths and is a regular file. */
  lemma {:induction false} RegularFilesMembers(h: Host, ps: seq<Path>, x: Path)
    ensures x in RegularFiles(h, ps) <==> x in ps && IsFile(h, x)
    decreases |ps|
  {
    if ps != [] {
      var ps' := ps[..|ps| - 1];
      RegularFilesMembers(h, ps', x);
      assert ps == ps' + [ps[|ps| - 1]];
    }
  }

  /** What `_fix_paths` sets the file list to. */
  function FixedFiles(h: Host, path: Option<string>, files: Option<seq<Path>>): seq<Path>
  {
    var base := BaseDir(h, path);
    if NonEmpty(files) then JoinAll(base, files.value)
    else RegularFiles(h, JoinAll(base, h.listdir(base)))
  }

  /** Explicit entries keep their number and order, each joined to the base. */
  lemma FixedFilesExplicit(h: Host, path: Option<string>, files: Option<seq<Path>>)
    requires NonEmpty(files)
    ensures var r := FixedFiles(h, path, files);
      |r| == |files.value| &&
      forall i :: 0 <= i < |r| ==> r[i] == Join(BaseDir(h, path), files.value[i])
  {
  }

  /** Without entries, the list is exactly the regular files of the base
      directory's listing, each joined to the base. */
  lemma FixedFilesListed(h: Host, path: Option<string>, files: Option<seq<Path>>, x: Path)
    requires !NonEmpty(files)
    ensures var base := BaseDir(h, path);
      x in FixedFiles(h, path, files) <==>
      IsFile(h, x) && exists i :: 0 <= i < |h.listdir(base)| && x == Join(base, h.listdir(base)[i])
  {
    var base := BaseDir(h, path);
    var names := h.listdir(base);
    var joined := JoinAll(base, names);
    RegularFilesMembers(h, joined, x);
    if x in joined {
      var i :| 0 <= i < |joined| && joined[i] == x;
      assert 0 <= i < |names| && x == Join(base, names[i]);
    }
    if exists i :: 0 <= i < |names| && x == Join(base, names[i]) {
      var i :| 0 <= i < |names| && x == Join(base, names[i]);
      assert joined[i] == x;
    }
  }

  /** Every rewritten path is absolute. */
  lemma FixedFilesAbsolute(h: Host, path: Option<string>, files: Option<seq<Path>>)
    requires h.Valid()
    ensures forall i :: 0 <= i < |FixedFiles(h, path, files)| ==> IsAbs(FixedFiles(h, path, files)[i])
  {
    var base := BaseDir(h, path);
    var r := FixedFiles(h, path, files);
    if !NonEmpty(files) {
      forall i | 0 <= i < |r| ensures IsAbs(r[i]) {
        RegularFilesMembers(h, JoinAll(base, h.listdir(base)), r[i]);
      }
    }
  }

  /** Rewriting twice does not prefix the paths again: absolute entries are
      left as they are, and an empty result lists the same directory again. */
  lemma FixPathsIdempotent(h: Host, path: Option<string>, files: Option<seq<Path>>)
    requires h.Valid()
    ensures FixedFiles(h, path, Some(FixedFiles(h, path, files))) == FixedFiles(h, path, files)
  {
    var r := FixedFiles(h, path, files);
    FixedFilesAbsolute(h, path, files);
    if r != [] {
      var again := FixedFiles(h, path, Some(r));
      assert |again| == |r|;
      forall i | 0 <= i < |r| ensures again[i] == r[i] {
        assert again[i] == Join(BaseDir(h, path), r[i]);
      }
    }
  }

  /** A host whose working directory "/w" holds the file "a.txt" and which
      also has an empty directory "/d". */
  function SplitHost(): (h: Host)
    ensures h.Valid()
  {
    Host("/w", map["/w/a.txt" := File, "/d" := Dir],
         p => if p == "." then "/w" else if IsAbs(p) then p else "/w/" + p,
         _ => [], _ => 0)
  }

  /** `-i /d -f a.txt` passes `verify` on SplitHost: "a.txt" exists
      relative to the working directory. */
  lemma SplitRequestAccepted()
    ensures VerifyErrors(SplitHost(), Some("/d"), Some(["a.txt"]), Some("d")) == []
  {
    var h, path := SplitHost(), Some("/d");
    assert !IsAbs("a.txt") && "a.txt" != ".";
    assert Abspath(h, "a.txt") == "/w/a.txt";
    assert IsFile(h, "a.txt");
    assert EntryError(h, path, "a.txt") == None;
    assert EntriesErrors(h, path, ["a.txt"]) == EntriesErrors(h, path, []) + [];
    assert PatternMatches("d") by {
      assert AllAllowed("d");
    }
    LegalNameAccepted("d");
  }

  /** An entry accepted because it exists relative to the working directory
      is still rewritten under the given path, where it need not exist:
      `-i /d -f a.txt` passes `verify` and leaves "/d/a.txt" to upload. */
  lemma AcceptedEntryRewrittenUnderPath()
    ensures var h, path, files := SplitHost(), Some("/d"), Some(["a.txt"]);
      VerifyErrors(h, path, files, Some("d")) == [] &&
      FixedFiles(h, path, files) == ["/d/a.txt"] && !Exists(h, "/d/a.txt")
  {
    SplitRequestAccepted();
    assert Join("/d", "a.txt") == "/d/a.txt";
  }

  // ---------------------------------------------------------- FilesConfig

  /** FilesConfig: the upload request. `verify` validates it and, only when
      nothing is wrong, rewrites `files` to absolute paths. */
  class FilesConfig {
    var path: Option<string>
    var files: Option<seq<Path>>
    var outFolder: Option<string>

    constructor (h: Host, path: Option<string>, files: Option<string>, outFolder: Option<string>)
      ensures this.path == path
      ensures this.files == ParseFiles(files)
      ensures this.outFolder == DefaultOutFolder(h, path, outFolder)
    {
      this.path := path;
      if Truthy(files) {
        this.files := Some(Split(files.value, ','));
      } else {
        this.files := None;
      }
      if Truthy(outFolder) {
        this.outFolder := outFolder;
      } else if Truthy(path) {
        this.outFolder := Some(Basename(Abspath(h, path.value)));
      } else {
        this.outFolder := None;
      }
    }

    /** verify: returns every error message, in order; the file list is
        rewritten when there is none and left alone otherwise. */
    method Verify(h: Host) returns (ret: seq<string>)
      modifies this
      ensures path == old(path) && outFolder == old(outFolder)
      ensures ret == Messages(VerifyErrors(h, path, old(files), outFolder))
      ensures files == if ret == [] then Some(FixedFiles(h, path, old(files))) else old(files)
    {
      var errs: seq<ConfigError> := [];
      if !Truthy(path) && !NonEmpty(files) {
        errs := errs + [NoInput];
      }
      ghost var head := errs;
      errs := errs + PathErrors(h, path);
      var fileErrs := VerifyFiles(h);
      errs := errs + fileErrs;
      errs := errs + OutFolderErrors(outFolder);
      AppendAssoc(head, PathErrors(h, path), fileErrs);
      AppendAssoc(head, PathErrors(h, path) + fileErrs, OutFolderErrors(outFolder));
      assert errs == VerifyErrors(h, path, old(files), outFolder);
      KeepTruthyKeepsMessages(errs);
      ret := KeepTruthy(Messages(errs));
      if ret == [] {
        FixPaths(h);
      }
    }

    /** _verify_files: one pass over the entries, at most one error each. */
    method VerifyFiles(h: Host) returns (ret: seq<ConfigError>)
      ensures ret == FilesErrors(h, path, files)
    {
      if !NonEmpty(files) {
        return [];
      }
      ret := [];
      var fs := files.value;
      for i := 0 to |fs|
        invariant ret == EntriesErrors(h, path, fs[..i])
      {
        var f := fs[i];
        ghost var before := ret;
        if !Exists(h, f) {
          if Truthy(path) && !Exists(h, Join(path.value, f)) {
            ret := ret + [MissingOnPath(f, path.value)];
          } else if Truthy(path) && !IsFile(h, Join(path.value, f)) {
            ret := ret + [NotAFile(f)];
          } else if !Truthy(path) {
            ret := ret + [Missing(f)];
          }
        } else if !IsFile(h, f) {
          ret := ret + [NotAFile(f)];
        }
        assert ret == before + OptionToSeq(EntryError(h, path, f));
        assert fs[..i + 1][..i] == fs[..i];
      }
      assert fs[..|fs|] == fs;
    }

    /** _fix_paths: explicit entries are joined to the base directory;
        without entries the base directory's regular files are listed. */
    method FixPaths(h: Host)
      modifies this
      ensures path == old(path) && outFolder == old(outFolder)
      ensures files == Some(FixedFiles(h, path, old(files)))
    {
      var localPath;
      if Truthy(path) {
        localPath := Abspath(h, path.value);
      } else {
        localPath := Abspath(h, ".");
      }
      if NonEmpty(files) {
        files := Some(JoinAll(localPath, files.value));
      } else {
        var acc: seq<Path> := [];
        var names := h.listdir(localPath);
        ghost var joined := JoinAll(localPath, names);
        for i := 0 to |names|
          invariant acc == RegularFiles(h, joined[..i])
        {
          var p := Join(localPath, names[i]);
          if IsFile(h, p) {
            acc := acc + [p];
          }
          assert joined[..i + 1][..i] == joined[..i];
          assert joined[..i + 1][i] == p;
        }
        assert joined[..|names|] == joined;
        files := Some(acc);
      }
    }
  }
}
