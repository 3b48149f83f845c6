/** sputil.py: the `Sharepoint` wrapper. The office365 library and the server
    behind it are a `Remote` whose answers are fixed in advance and which
    records every request that reaches it, in order. */
module SpUtil {
  import opened Python
  import opened OsPath
  import opened Config

  /** How a remote request ends: an answer (with the URL and title it
      reports), a ClientRequestException carrying the server's message
      (`err.args[2]`), or any other exception. */
  datatype Reply = Done(url: string, title: string) | Rejected(message: string) | Crashed(reason: string)

  /** The requests that reach the server. */
  datatype Request =
    | AcquireToken(url: string, client: string)
    | QuerySite(url: string)
    | CreateFolder(url: string, library: string, name: Option<string>)
    | Upload(url: string, library: string, folder: Option<string>, file: Path, chunkSize: int)

  /** A Python call either returns a value or raises an exception. */
  datatype Flow<T> = Return(value: T) | Raise(reason: string)

  /** The document library every folder and file goes to. */
  const Documents: string := "Documents"

  /** The text of the exception a reply raises when it is not an answer. */
  function ReasonOf(reply: Reply): string
  {
    match reply
    case Done(_, _) => ""
    case Rejected(m) => m
    case Crashed(x) => x
  }

  // ------------------------------------------------------------- progress

  /** The tqdm progress bar of one file: its size and its counter. */
  class ProgressBar {
    const total: nat
    var n: int

    constructor (total: nat)
      ensures this.total == total && n == 0
    {
      this.total := total;
      n := 0;
    }

    method Update(delta: int)
      modifies this
      ensures n == old(n) + delta
    {
      n := n + delta;
    }
  }

  /** The closure `display_upload_progress`: the progress bar of the file
      being uploaded and the configured chunk size, both captured. */
  datatype ProgressCallback = ProgressCallback(bar: ProgressBar, chunkSize: int)

  /** display_upload_progress(offset): advances the bar by the chunk size and
      ignores the offset it is given. */
  method DisplayUploadProgress(cb: ProgressCallback, offset: int)
    modifies cb.bar
    ensures cb.bar.n == old(cb.bar.n) + cb.chunkSize
  {
    cb.bar.Update(cb.chunkSize);
  }

  // --------------------------------------------------------------- remote

  /** The remote end. Its answers are fixed: one per kind of request, one per
      uploaded file, and the number of progress reports an upload makes. */
  class Remote {
    const tokenReply: Reply
    const siteReply: Reply
    const folderReply: Reply
    const uploadReply: Path -> Reply
    const progressReports: Path -> nat
    var requests: seq<Request>

    constructor (tokenReply: Reply, siteReply: Reply, folderReply: Reply,
                 uploadReply: Path -> Reply, progressReports: Path -> nat)
      ensures this.tokenReply == tokenReply && this.siteReply == siteReply
      ensures this.folderReply == folderReply && this.uploadReply == uploadReply
      ensures this.progressReports == progressReports
      ensures requests == []
    {
      this.tokenReply := tokenReply;
      this.siteReply := siteReply;
      this.folderReply := folderReply;
      this.uploadReply := uploadReply;
      this.progressReports := progressReports;
      requests := [];
    }

    /** AuthenticationContext(url).acquire_token_for_app(client, secret) */
    method AcquireTokenForApp(url: string, client: string, secret: string) returns (r: Reply)
      modifies this
      ensures requests == old(requests) + [AcquireToken(url, client)]
      ensures r == tokenReply
    {
      requests := requests + [AcquireToken(url, client)];
      r := tokenReply;
    }

    /** ctx.web.get().execute_query() */
    method GetWeb(url: string) returns (r: Reply)
      modifies this
      ensures requests == old(requests) + [QuerySite(url)]
      ensures r == siteReply
    {
      requests := requests + [QuerySite(url)];
      r := siteReply;
    }

    /** root_folder.add(name) on a library, then ctx.execute_query() */
    method AddFolder(url: string, library: string, name: Option<string>) returns (r: Reply)
      modifies this
      ensures requests == old(requests) + [CreateFolder(url, library, name)]
      ensures r == folderReply
    {
      requests := requests + [CreateFolder(url, library, name)];
      r := folderReply;
    }

    /** create_upload_session(file, chunk_size, callback), then
        ctx.execute_query(): the session reports its progress a fixed number
        of times, passing the offset reached, so the bar ends up advanced by
        that number of chunk sizes. */
    method UploadSession(url: string, library: string, folder: Option<string>, file: Path,
                         chunkSize: int, cb: ProgressCallback) returns (r: Reply)
      modifies this, cb.bar
      ensures requests == old(requests) + [Upload(url, library, folder, file, chunkSize)]
      ensures r == uploadReply(file)
      ensures cb.bar.n == old(cb.bar.n) + progressReports(file) * cb.chunkSize
    {
      var k := 0;
      while k < progressReports(file)
        invariant 0 <= k <= progressReports(file)
        invariant cb.bar.n == old(cb.bar.n) + k * cb.chunkSize
        invariant requests == old(requests)
      {
        DisplayUploadProgress(cb, k * chunkSize);
        k := k + 1;
      }
      requests := requests + [Upload(url, library, folder, file, chunkSize)];
      r := uploadReply(file);
    }
  }

  // --------------------------------------------------------- specification

  /** The URL of the target site: the site, followed by "/" and the subsite
      when one is given. */
  function SiteUrl(c: SharepointConfig): (u: string)
    ensures |u| >= |c.site| && u[..|c.site|] == c.site
    ensures !Truthy(c.subsite) ==> u == c.site
    ensures Truthy(c.subsite) ==>
      |u| == |c.site| + 1 + |c.subsite.value| && u[|c.site|] == '/' && u[|c.site| + 1..] == c.subsite.value
  {
    if Truthy(c.subsite) then c.site + "/" + c.subsite.value else c.site
  }

  /** verify_url and add_folder: an answer gives True, a ClientRequestException
      gives False, any other exception propagates. */
  function Checked(reply: Reply): Flow<bool>
  {
    match reply
    case Done(_, _) => Return(true)
    case Rejected(_) => Return(false)
    case Crashed(x) => Raise(x)
  }

  /** What verify_url and add_folder log: the success line for an answer, the
      server's message for a ClientRequestException, nothing otherwise. */
  function CheckedLog(reply: Reply, success: string): seq<LogEntry>
  {
    match reply
    case Done(_, _) => [LogEntry(Success, success)]
    case Rejected(m) => [LogEntry(Error, m)]
    case Crashed(_) => []
  }

  function SiteBanner(reply: Reply): string
  {
    if reply.Done? then "Site " + reply.title + ": " + reply.url else ""
  }

  function FolderBanner(reply: Reply): string
  {
    if reply.Done? then "Added folder: " + reply.url else ""
  }

  /** A file is uploaded when its size can be read and the server answers. */
  predicate Uploaded(h: Host, remote: Remote, f: Path) {
    Exists(h, f) && remote.uploadReply(f).Done?
  }

  /** The position of the first file that is not uploaded, or the length. */
  function FirstFailure(h: Host, remote: Remote, fs: seq<Path>): (k: nat)
    ensures k <= |fs|
    ensures forall j :: 0 <= j < k ==> Uploaded(h, remote, fs[j])
    ensures k < |fs| ==> !Uploaded(h, remote, fs[k])
  {
    if fs == [] then 0
    else if Uploaded(h, remote, fs[0]) then 1 + FirstFailure(h, remote, fs[1..])
    else 0
  }

  function NoSuchFile(f: Path): string
  {
    "[Errno 2] No such file or directory: '" + f + "'"
  }

  /** The request upload_files makes for one file: a session, unless the
      size of the file cannot be read. */
  function FileRequests(h: Host, url: string, folder: Option<string>, chunkSize: int, f: Path): seq<Request>
  {
    if Exists(h, f) then [Upload(url, Documents, folder, f, chunkSize)] else []
  }

  /** What upload_files logs for one file: the start line, then the success
      line or the server's message. */
  function FileLog(h: Host, remote: Remote, f: Path): seq<LogEntry>
  {
    [LogEntry(Info, "File upload: " + Basename(f))] +
    if !Exists(h, f) then []
    else match remote.uploadReply(f)
      case Done(u, _) => [LogEntry(Success, "File " + f + " uploaded to: " + u)]
      case Rejected(m) => [LogEntry(Error, m)]
      case Crashed(_) => []
  }

  /** How the upload of one file ends: an unreadable size raises, and the
      server's answer is checked as in verify_url. */
  function FileResult(h: Host, remote: Remote, f: Path): Flow<bool>
  {
    if !Exists(h, f) then Raise(NoSuchFile(f)) else Checked(remote.uploadReply(f))
  }

  /** The requests upload_files makes: those of each file in order, up to
      and including the first file that is not uploaded. */
  function UploadRequests(h: Host, remote: Remote, url: string, folder: Option<string>,
                          chunkSize: int, fs: seq<Path>): seq<Request>
  {
    if fs == [] then []
    else
      FileRequests(h, url, folder, chunkSize, fs[0]) +
      (if Uploaded(h, remote, fs[0]) then UploadRequests(h, remote, url, folder, chunkSize, fs[1..]) else [])
  }

  /** What upload_files logs: the lines of each file in order, up to and
      including the first file that is not uploaded. */
  function UploadLog(h: Host, remote: Remote, fs: seq<Path>): seq<LogEntry>
  {
    if fs == [] then []
    else FileLog(h, remote, fs[0]) + (if Uploaded(h, remote, fs[0]) then UploadLog(h, remote, fs[1..]) else [])
  }

  /** What upload_files returns or raises: True after the last file, or how
      the first file that is not uploaded ends. */
  function UploadResult(h: Host, remote: Remote, fs: seq<Path>): Flow<bool>
  {
    if fs == [] then Return(true)
    else if Uploaded(h, remote, fs[0]) then UploadResult(h, remote, fs[1..])
    else FileResult(h, remote, fs[0])
  }

  /** One upload session per file, in list order. */
  function Sessions(url: string, folder: Option<string>, chunkSize: int, fs: seq<Path>): seq<Request>
  {
    seq(|fs|, i requires 0 <= i < |fs| => Upload(url, Documents, folder, fs[i], chunkSize))
  }

  /** The start and success lines of files that were all uploaded. */
  function SuccessLog(remote: Remote, fs: seq<Path>): seq<LogEntry>
    requires forall j :: 0 <= j < |fs| ==> remote.uploadReply(fs[j]).Done?
  {
    if fs == [] then []
    else
      [LogEntry(Info, "File upload: " + Basename(fs[0])),
       LogEntry(Success, "File " + fs[0] + " uploaded to: " + remote.uploadReply(fs[0]).url)] +
      SuccessLog(remote, fs[1..])
  }

  /** The sessions of a non-empty list: that of its first file, then the rest. */
  lemma SessionsCons(url: string, folder: Option<string>, chunkSize: int, fs: seq<Path>)
    requires |fs| > 0
    ensures Sessions(url, folder, chunkSize, fs) ==
      [Upload(url, Documents, folder, fs[0], chunkSize)] + Sessions(url, folder, chunkSize, fs[1..])
  {
  }

  /** upload_files stops at the first file that is not uploaded: a session
      is opened for every file before it, for the failing one only if its
      size could be read, and for nothing after it. */
  lemma {:induction false} UploadRequestsStopAtFirstFailure(h: Host, remote: Remote, url: string,
                                                            folder: Option<string>, chunkSize: int, fs: seq<Path>)
    ensures var k := FirstFailure(h, remote, fs);
      UploadRequests(h, remote, url, folder, chunkSize, fs) ==
        Sessions(url, folder, chunkSize, fs[..k]) +
        (if k < |fs| && Exists(h, fs[k]) then [Upload(url, Documents, folder, fs[k], chunkSize)] else [])
    decreases |fs|
  {
    if fs != [] && Uploaded(h, remote, fs[0]) {
      var k, k' := FirstFailure(h, remote, fs), FirstFailure(h, remote, fs[1..]);
      var first := [Upload(url, Documents, folder, fs[0], chunkSize)];
      var tail := if k < |fs| && Exists(h, fs[k]) then [Upload(url, Documents, folder, fs[k], chunkSize)] else [];
      assert k == k' + 1;
      assert k' < |fs[1..]| ==> fs[1..][k'] == fs[k];
      UploadRequestsStopAtFirstFailure(h, remote, url, folder, chunkSize, fs[1..]);
      assert fs[..k][1..] == fs[1..][..k'];
      SessionsCons(url, folder, chunkSize, fs[..k]);
      AppendAssoc(first, Sessions(url, folder, chunkSize, fs[1..][..k']), tail);
    }
  }

  /** For a file that is not uploaded, upload_files logs the start line and,
      when the server rejected the file, the server's message. */
  lemma FailedFileLog(h: Host, remote: Remote, f: Path)
    requires !Uploaded(h, remote, f)
    ensures FileLog(h, remote, f) ==
      [LogEntry(Info, "File upload: " + Basename(f))] +
      (if Exists(h, f) && remote.uploadReply(f).Rejected? then [LogEntry(Error, remote.uploadReply(f).message)] else [])
  {
  }

  /** upload_files logs a start line and a success line for every file
      before the first failure, then the lines of the failing file. */
  lemma {:induction false} UploadLogStopsAtFirstFailure(h: Host, remote: Remote, fs: seq<Path>)
    ensures var k := FirstFailure(h, remote, fs);
      UploadLog(h, remote, fs) ==
        SuccessLog(remote, fs[..k]) + (if k < |fs| then FileLog(h, remote, fs[k]) else [])
    decreases |fs|
  {
    var k := FirstFailure(h, remote, fs);
    if fs != [] && Uploaded(h, remote, fs[0]) {
      var k' := FirstFailure(h, remote, fs[1..]);
      assert k == k' + 1;
      assert k' < |fs[1..]| ==> fs[1..][k'] == fs[k];
      UploadLogStopsAtFirstFailure(h, remote, fs[1..]);
      assert fs[1..][..k'] == fs[..k][1..];
      AppendAssoc(FileLog(h, remote, fs[0]), SuccessLog(remote, fs[1..][..k']),
                  if k < |fs| then FileLog(h, remote, fs[k]) else []);
    } else if fs != [] {
      assert k == 0 && fs[..k] == [];
    }
  }

  /** upload_files returns True exactly when every file was uploaded; at the
      first failure it raises for a file whose size cannot be read, returns
      False for a rejection and propagates any other exception. */
  lemma {:induction false} UploadResultAtFirstFailure(h: Host, remote: Remote, fs: seq<Path>)
    ensures var k := FirstFailure(h, remote, fs);
      UploadResult(h, remote, fs) ==
        if k == |fs| then Return(true)
        else if !Exists(h, fs[k]) then Raise(NoSuchFile(fs[k]))
        else Checked(remote.uploadReply(fs[k]))
    decreases |fs|
  {
    if fs != [] && Uploaded(h, remote, fs[0]) {
      UploadResultAtFirstFailure(h, remote, fs[1..]);
    }
  }

  /** The sessions upload_files opens are those of a prefix of the file list. */
  lemma UploadRequestsPrefix(h: Host, remote: Remote, url: string, folder: Option<string>,
                             chunkSize: int, fs: seq<Path>)
    ensures var r := UploadRequests(h, remote, url, folder, chunkSize, fs);
      |r| <= |fs| && r == Sessions(url, folder, chunkSize, fs[..|r|])
  {
    UploadRequestsStopAtFirstFailure(h, remote, url, folder, chunkSize, fs);
    var k := FirstFailure(h, remote, fs);
    if k < |fs| && Exists(h, fs[k]) {
      assert Sessions(url, folder, chunkSize, fs[..k + 1]) ==
        Sessions(url, folder, chunkSize, fs[..k]) + [Upload(url, Documents, folder, fs[k], chunkSize)];
    }
  }

  /** Nothing upload_files logs is an exception. */
  lemma {:induction false} UploadLogHasNoException(h: Host, remote: Remote, fs: seq<Path>)
    ensures forall i :: 0 <= i < |UploadLog(h, remote, fs)| ==> UploadLog(h, remote, fs)[i].level != Exception
    decreases |fs|
  {
    if fs != [] {
      UploadLogHasNoException(h, remote, fs[1..]);
    }
  }

  // ------------------------------------------------------------ Sharepoint

  /** The authentication context: the URL it is for and whether a token was
      acquired. */
  datatype AuthContext = AuthContext(url: string, tokenAcquired: bool)

  /** Sharepoint: the access wrapper built from the validated request and
      the configuration. */
  class Sharepoint {
    const fconfig: FilesConfig
    const spconfig: SharepointConfig
    const runtime: RuntimeConfig
    const logger: Logger
    var contextAuth: Option<AuthContext>
    var url: Option<string>

    constructor (fconf: FilesConfig, spconfig: SharepointConfig, runtime: RuntimeConfig, logger: Logger)
      ensures fconfig == fconf && this.spconfig == spconfig && this.runtime == runtime
      ensures this.logger == logger
      ensures contextAuth == None && url == None
    {
      fconfig := fconf;
      this.spconfig := spconfig;
      this.runtime := runtime;
      this.logger := logger;
      contextAuth := None;
      url := None;
    }

    /** get_token: sets the site URL, logs it in debug mode, and asks for an
        application token for it; a failure propagates as an exception. */
    method GetToken(remote: Remote) returns (r: Flow<()>)
      modifies this, logger, remote
      ensures url == Some(SiteUrl(spconfig))
      ensures contextAuth == Some(AuthContext(SiteUrl(spconfig), remote.tokenReply.Done?))
      ensures remote.requests == old(remote.requests) + [AcquireToken(SiteUrl(spconfig), spconfig.client)]
      ensures logger.entries ==
        old(logger.entries) + (if runtime.debug then [LogEntry(Debug, SiteUrl(spconfig))] else [])
      ensures r == if remote.tokenReply.Done? then Return(()) else Raise(ReasonOf(remote.tokenReply))
    {
      if Truthy(spconfig.subsite) {
        url := Some(spconfig.site + "/" + spconfig.subsite.value);
      } else {
        url := Some(spconfig.site);
      }
      if runtime.debug {
        logger.Log(Debug, url.value);
      }
      contextAuth := Some(AuthContext(url.value, false));
      var reply := remote.AcquireTokenForApp(url.value, spconfig.client, spconfig.secret);
      if reply.Done? {
        contextAuth := Some(AuthContext(url.value, true));
        r := Return(());
      } else {
        r := Raise(ReasonOf(reply));
      }
    }

    /** verify_url: queries the site; logs its title and URL and gives True,
        or logs the server's message and gives False. */
    method VerifyUrl(remote: Remote) returns (r: Flow<bool>)
      requires url.Some?
      modifies logger, remote
      ensures remote.requests == old(remote.requests) + [QuerySite(url.value)]
      ensures logger.entries == old(logger.entries) + CheckedLog(remote.siteReply, SiteBanner(remote.siteReply))
      ensures r == Checked(remote.siteReply)
    {
      var reply := remote.GetWeb(url.value);
      match reply
      case Rejected(m) =>
        logger.Log(Error, m);
        return Return(false);
      case Crashed(x) =>
        return Raise(x);
      case Done(u, title) =>
        logger.Log(Success, "Site " + title + ": " + u);
        return Return(true);
    }

    /** add_folder: creates the output folder in the document library; logs
        its server-relative URL and gives True, or logs the server's message
        and gives False. */
    method AddFolder(remote: Remote) returns (r: Flow<bool>)
      requires url.Some?
      modifies logger, remote
      ensures remote.requests == old(remote.requests) + [CreateFolder(url.value, Documents, fconfig.outFolder)]
      ensures logger.entries == old(logger.entries) + CheckedLog(remote.folderReply, FolderBanner(remote.folderReply))
      ensures r == Checked(remote.folderReply)
    {
      var reply := remote.AddFolder(url.value, Documents, fconfig.outFolder);
      match reply
      case Rejected(m) =>
        logger.Log(Error, m);
        return Return(false);
      case Crashed(x) =>
        return Raise(x);
      case Done(u, _) =>
        logger.Log(Success, "Added folder: " + u);
        return Return(true);
    }

    /** The body of upload_files' loop for one file: logs its start, reads
        its size for the progress bar, opens an upload session and checks the
        server's answer; True means the loop goes on. */
    method UploadFile(h: Host, remote: Remote, url: string, f: Path) returns (r: Flow<bool>)
      modifies logger, remote
      ensures remote.requests == old(remote.requests) + FileRequests(h, url, fconfig.outFolder, runtime.chunkSize, f)
      ensures logger.entries == old(logger.entries) + FileLog(h, remote, f)
      ensures r == FileResult(h, remote, f)
      ensures r == Return(true) <==> Uploaded(h, remote, f)
    {
      logger.Log(Info, "File upload: " + Basename(f));
      if !Exists(h, f) {
        return Raise(NoSuchFile(f));
      }
      var bar := new ProgressBar(GetSize(h, f));
      var reply := remote.UploadSession(url, Documents, fconfig.outFolder, f, runtime.chunkSize,
                                        ProgressCallback(bar, runtime.chunkSize));
      match reply
      case Rejected(m) =>
        logger.Log(Error, m);
        return Return(false);
      case Crashed(x) =>
        return Raise(x);
      case Done(u, _) =>
        logger.Log(Success, "File " + f + " uploaded to: " + u);
        return Return(true);
    }

    /** upload_files: uploads the files one at a time, in list order, into
        the output folder, and stops at the first one that fails. */
    method UploadFiles(h: Host, remote: Remote) returns (r: Flow<bool>)
      requires url.Some?
      modifies logger, remote
      ensures fconfig.files.None? ==>
        remote.requests == old(remote.requests) && logger.entries == old(logger.entries) &&
        r == Raise("'NoneType' object is not iterable")
      ensures fconfig.files.Some? ==>
        remote.requests == old(remote.requests) +
          UploadRequests(h, remote, url.value, fconfig.outFolder, runtime.chunkSize, fconfig.files.value) &&
        logger.entries == old(logger.entries) + UploadLog(h, remote, fconfig.files.value) &&
        r == UploadResult(h, remote, fconfig.files.value)
    {
      if fconfig.files.None? {
        return Raise("'NoneType' object is not iterable");
      }
      var fs := fconfig.files.value;
      var u := url.value;
      ghost var allRequests := old(remote.requests) +
        UploadRequests(h, remote, u, fconfig.outFolder, runtime.chunkSize, fs);
      ghost var allEntries := old(logger.entries) + UploadLog(h, remote, fs);
      var i := 0;
      while i < |fs|
        invariant 0 <= i <= |fs|
        invariant remote.requests + UploadRequests(h, remote, u, fconfig.outFolder, runtime.chunkSize, fs[i..]) == allRequests
        invariant logger.entries + UploadLog(h, remote, fs[i..]) == allEntries
        invariant UploadResult(h, remote, fs[i..]) == UploadResult(h, remote, fs)
      {
        ghost var requests0, entries0 := remote.requests, logger.entries;
        assert fs[i..][0] == fs[i] && fs[i..][1..] == fs[i + 1..];
        r := UploadFile(h, remote, u, fs[i]);
        if r != Return(true) {
          return;
        }
        AppendAssoc(requests0, FileRequests(h, u, fconfig.outFolder, runtime.chunkSize, fs[i]),
                    UploadRequests(h, remote, u, fconfig.outFolder, runtime.chunkSize, fs[i + 1..]));
        AppendAssoc(entries0, FileLog(h, remote, fs[i]), UploadLog(h, remote, fs[i + 1..]));
        i := i + 1;
      }
      return Return(true);
    }
  }
}
