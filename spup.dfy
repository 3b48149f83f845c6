/** spup.py: `Uploader.main`, which builds the three configurations,
    validates the upload request, and only when it is valid runs the remote
    stages in order (token, site check, folder, uploads), logging any
    exception they raise instead of letting it escape. */
module Spup {
  import opened Python
  import opened OsPath
  import opened Config
  import opened SpUtil

  /** The contents of config.yaml: the `sp` section and `runtime.chunk_size`. */
  datatype Settings = Settings(tenant: string, client: string, site: string, secret: string, chunkSize: int)

  /** What a run does to the outside world: the requests that reach the
      server and the entries given to the logger, each in order. */
  datatype Effects = Effects(requests: seq<Request>, entries: seq<LogEntry>)

  const NoEffects := Effects([], [])

  /** One stage followed by the next. */
  function Then(a: Effects, b: Effects): Effects
  {
    Effects(a.requests + b.requests, a.entries + b.entries)
  }

  /** The `except` clause of main: the exception is logged, nothing is sent. */
  function Caught(reason: string): Effects
  {
    Effects([], [LogEntry(Exception, reason)])
  }

  /** How a stage's outcome ends the try block: an exception is caught and
      logged; a result, True or False, ends it quietly. */
  function Ending(outcome: Flow<bool>): Effects
  {
    match outcome
    case Raise(x) => Caught(x)
    case Return(_) => NoEffects
  }

  /** After a checked call (verify_url, add_folder): an answer goes on to the
      next stage; a False result or an exception ends the try block. */
  function AfterCheck(reply: Reply, next: Effects): Effects
  {
    if reply.Done? then next else Ending(Checked(reply))
  }

  /** The upload stage: upload_files, whose False result main ignores. */
  function UploadStage(h: Host, remote: Remote, url: string, outFolder: Option<string>, chunkSize: int,
                       files: Option<seq<Path>>): Effects
  {
    if files.None? then Caught("'NoneType' object is not iterable")
    else
      var fs := files.value;
      Then(Effects(UploadRequests(h, remote, url, outFolder, chunkSize, fs), UploadLog(h, remote, fs)),
           Ending(UploadResult(h, remote, fs)))
  }

  /** The folder stage and what follows it: add_folder runs only for a set
      output folder, and a False result ends the run. */
  function FolderStage(h: Host, remote: Remote, url: string, outFolder: Option<string>, chunkSize: int,
                       files: Option<seq<Path>>): Effects
  {
    var uploads := UploadStage(h, remote, url, outFolder, chunkSize, files);
    if !Truthy(outFolder) then uploads
    else
      Then(Effects([CreateFolder(url, Documents, outFolder)],
                   CheckedLog(remote.folderReply, FolderBanner(remote.folderReply))),
           AfterCheck(remote.folderReply, uploads))
  }

  /** What get_token sends and logs. */
  function TokenStage(spconf: SharepointConfig, runtime: RuntimeConfig): Effects
  {
    var url := SiteUrl(spconf);
    Effects([AcquireToken(url, spconf.client)], if runtime.debug then [LogEntry(Debug, url)] else [])
  }

  /** The debug dump of the Sharepoint object, then what verify_url sends
      and logs. */
  function SiteStage(remote: Remote, spconf: SharepointConfig, runtime: RuntimeConfig): Effects
  {
    Effects([QuerySite(SiteUrl(spconf))],
            (if runtime.debug then [LogEntry(Debug, "Sharepoint")] else []) +
            CheckedLog(remote.siteReply, SiteBanner(remote.siteReply)))
  }

  /** The try block of main from verify_url on, once a token is granted:
      the debug dump of the Sharepoint object, verify_url, then the folder
      and upload stages. */
  function FromSite(h: Host, remote: Remote, spconf: SharepointConfig, runtime: RuntimeConfig,
                    files: Option<seq<Path>>, outFolder: Option<string>): Effects
  {
    Then(SiteStage(remote, spconf, runtime),
         AfterCheck(remote.siteReply, FolderStage(h, remote, SiteUrl(spconf), outFolder, runtime.chunkSize, files)))
  }

  /** The try block of main, once the request is valid: get_token, then the
      later stages. The first exception raised ends the block. */
  function RemoteStages(h: Host, remote: Remote, spconf: SharepointConfig, runtime: RuntimeConfig,
                        files: Option<seq<Path>>, outFolder: Option<string>): Effects
  {
    Then(TokenStage(spconf, runtime),
         if remote.tokenReply.Done? then FromSite(h, remote, spconf, runtime, files, outFolder)
         else Caught(ReasonOf(remote.tokenReply)))
  }

  /** The debug dumps of the three configurations (by class name). */
  function ConfigDumps(debug: bool): seq<LogEntry>
  {
    if debug then [LogEntry(Debug, "SharepointConfig"), LogEntry(Debug, "RuntimeConfig"), LogEntry(Debug, "FilesConfig")]
    else []
  }

  /** One error line per validation message, in order. */
  function ErrorLines(msgs: seq<string>): (r: seq<LogEntry>)
    ensures |r| == |msgs| && forall i :: 0 <= i < |r| ==> r[i] == LogEntry(Error, msgs[i])
  {
    seq(|msgs|, i requires 0 <= i < |msgs| => LogEntry(Error, msgs[i]))
  }

  /** What `verify` leaves main with: its messages, and the file list and
      output folder FilesConfig then holds. */
  datatype Verdict = Verdict(messages: seq<string>, files: Option<seq<Path>>, outFolder: Option<string>)

  /** FilesConfig(path, files, out) followed by verify(): the list is split,
      the output folder defaulted, and the list rewritten only when there is
      no message. */
  function Verified(h: Host, path: Option<string>, files: Option<string>, out: Option<string>): Verdict
  {
    var parsed := ParseFiles(files);
    var outFolder := DefaultOutFolder(h, path, out);
    var messages := Messages(VerifyErrors(h, path, parsed, outFolder));
    Verdict(messages, if messages == [] then Some(FixedFiles(h, path, parsed)) else parsed, outFolder)
  }

  /** SharepointConfig(subsite), with the `sp` section of config.yaml. */
  function SpConfig(settings: Settings, subsite: Option<string>): SharepointConfig
  {
    SharepointConfig(settings.tenant, settings.client, settings.site, settings.secret, subsite)
  }

  /** Everything main does once verify has run: messages are logged and end
      the run before any request; otherwise the remote stages run on the
      rewritten file list. */
  function MainEffects(h: Host, remote: Remote, settings: Settings, debug: bool, subsite: Option<string>,
                       v: Verdict): Effects
  {
    if v.messages != [] then Effects([], ConfigDumps(debug) + ErrorLines(v.messages))
    else
      Then(Effects([], ConfigDumps(debug) + (if debug then [LogEntry(Debug, "FilesConfig")] else [])),
           RemoteStages(h, remote, SpConfig(settings, subsite), RuntimeConfig(debug, settings.chunkSize),
                        v.files, v.outFolder))
  }

  // ------------------------------------------------------------ properties

  /** The order main talks to the server in: token, site, the folder when
      one is set, then one session per file. */
  function Plan(spconf: SharepointConfig, runtime: RuntimeConfig, fs: seq<Path>, outFolder: Option<string>)
    : seq<Request>
  {
    var url := SiteUrl(spconf);
    [AcquireToken(url, spconf.client), QuerySite(url)] +
    (if Truthy(outFolder) then [CreateFolder(url, Documents, outFolder)] else []) +
    Sessions(url, outFolder, runtime.chunkSize, fs)
  }

  /** A prefix stays a prefix behind a common head. */
  lemma PrefixBehind<T>(a: seq<T>, c: seq<T>, d: seq<T>)
    requires c <= d
    ensures a + c <= a + d
  {
    assert (a + d)[..|a + c|] == a + d[..|c|];
  }

  /** upload_files opens its sessions in list order and never skips a file:
      what it sends is a prefix of one session per file. */
  lemma UploadStageInOrder(h: Host, remote: Remote, url: string, outFolder: Option<string>,
                           chunkSize: int, fs: seq<Path>)
    ensures UploadStage(h, remote, url, outFolder, chunkSize, Some(fs)).requests <= Sessions(url, outFolder, chunkSize, fs)
  {
    var u := UploadRequests(h, remote, url, outFolder, chunkSize, fs);
    var all := Sessions(url, outFolder, chunkSize, fs);
    UploadRequestsPrefix(h, remote, url, outFolder, chunkSize, fs);
    assert u == all[..|u|];
  }

  /** add_folder comes before every session, and only for a set output folder. */
  lemma FolderStageInOrder(h: Host, remote: Remote, url: string, outFolder: Option<string>,
                           chunkSize: int, fs: seq<Path>)
    ensures FolderStage(h, remote, url, outFolder, chunkSize, Some(fs)).requests <=
      (if Truthy(outFolder) then [CreateFolder(url, Documents, outFolder)] else []) +
      Sessions(url, outFolder, chunkSize, fs)
  {
    UploadStageInOrder(h, remote, url, outFolder, chunkSize, fs);
    var uploads := UploadStage(h, remote, url, outFolder, chunkSize, Some(fs));
    var sessions := Sessions(url, outFolder, chunkSize, fs);
    if Truthy(outFolder) {
      var folder := [CreateFolder(url, Documents, outFolder)];
      if remote.folderReply.Done? {
        PrefixBehind(folder, uploads.requests, sessions);
      } else {
        PrefixBehind(folder, [], sessions);
      }
    }
  }

  /** The site query comes before the folder and the sessions. */
  lemma FromSiteInOrder(h: Host, remote: Remote, spconf: SharepointConfig, runtime: RuntimeConfig,
                        fs: seq<Path>, outFolder: Option<string>)
    ensures var url := SiteUrl(spconf);
      FromSite(h, remote, spconf, runtime, Some(fs), outFolder).requests <=
        [QuerySite(url)] + ((if Truthy(outFolder) then [CreateFolder(url, Documents, outFolder)] else []) +
        Sessions(url, outFolder, runtime.chunkSize, fs))
  {
    var url := SiteUrl(spconf);
    var rest := (if Truthy(outFolder) then [CreateFolder(url, Documents, outFolder)] else []) +
      Sessions(url, outFolder, runtime.chunkSize, fs);
    var folder := FolderStage(h, remote, url, outFolder, runtime.chunkSize, Some(fs));
    FolderStageInOrder(h, remote, url, outFolder, runtime.chunkSize, fs);
    if remote.siteReply.Done? {
      PrefixBehind([QuerySite(url)], folder.requests, rest);
    } else {
      PrefixBehind([QuerySite(url)], [], rest);
    }
  }

  /** The remote stages never skip a step and never reorder: what reaches the
      server is always a prefix of the plan. */
  lemma StagesInOrder(h: Host, remote: Remote, spconf: SharepointConfig, runtime: RuntimeConfig,
                      fs: seq<Path>, outFolder: Option<string>)
    ensures RemoteStages(h, remote, spconf, runtime, Some(fs), outFolder).requests <= Plan(spconf, runtime, fs, outFolder)
  {
    var url := SiteUrl(spconf);
    var token := [AcquireToken(url, spconf.client)];
    var folder := if Truthy(outFolder) then [CreateFolder(url, Documents, outFolder)] else [];
    var sessions := Sessions(url, outFolder, runtime.chunkSize, fs);
    var rest := [QuerySite(url)] + (folder + sessions);
    FromSiteInOrder(h, remote, spconf, runtime, fs, outFolder);
    if remote.tokenReply.Done? {
      PrefixBehind(token, FromSite(h, remote, spconf, runtime, Some(fs), outFolder).requests, rest);
    } else {
      PrefixBehind(token, [], rest);
    }
    AppendAssoc([QuerySite(url)], folder, sessions);
    AppendAssoc(token, [QuerySite(url)] + folder, sessions);
    assert token + ([QuerySite(url)] + folder) == [AcquireToken(url, spconf.client), QuerySite(url)] + folder;
  }

  /** A token that is not granted ends the run after its one request, with
      the exception as the last log entry. */
  lemma TokenFailureStops(h: Host, remote: Remote, spconf: SharepointConfig, runtime: RuntimeConfig,
                          files: Option<seq<Path>>, outFolder: Option<string>)
    requires !remote.tokenReply.Done?
    ensures var e := RemoteStages(h, remote, spconf, runtime, files, outFolder);
      e.requests == [AcquireToken(SiteUrl(spconf), spconf.client)] &&
      |e.entries| > 0 && e.entries[|e.entries| - 1] == LogEntry(Exception, ReasonOf(remote.tokenReply))
  {
  }

  /** A site the server does not confirm ends the run after the site query:
      no folder is created and nothing is uploaded. A rejection is logged
      with the server's message, any other failure as an exception. */
  lemma SiteFailureStops(h: Host, remote: Remote, spconf: SharepointConfig, runtime: RuntimeConfig,
                         files: Option<seq<Path>>, outFolder: Option<string>)
    requires remote.tokenReply.Done? && !remote.siteReply.Done?
    ensures var e := RemoteStages(h, remote, spconf, runtime, files, outFolder);
      e.requests == [AcquireToken(SiteUrl(spconf), spconf.client), QuerySite(SiteUrl(spconf))] &&
      |e.entries| > 0 &&
      e.entries[|e.entries| - 1] ==
        if remote.siteReply.Rejected? then LogEntry(Error, remote.siteReply.message)
        else LogEntry(Exception, remote.siteReply.reason)
  {
  }

  /** A folder the server does not create ends the run after the folder
      request: upload_files is not called. */
  lemma FolderFailureStops(h: Host, remote: Remote, spconf: SharepointConfig, runtime: RuntimeConfig,
                           files: Option<seq<Path>>, outFolder: Option<string>)
    requires remote.tokenReply.Done? && remote.siteReply.Done?
    requires Truthy(outFolder) && !remote.folderReply.Done?
    ensures var url := SiteUrl(spconf);
      var e := RemoteStages(h, remote, spconf, runtime, files, outFolder);
      e.requests == [AcquireToken(url, spconf.client), QuerySite(url), CreateFolder(url, Documents, outFolder)] &&
      |e.entries| > 0 &&
      e.entries[|e.entries| - 1] ==
        if remote.folderReply.Rejected? then LogEntry(Error, remote.folderReply.message)
        else LogEntry(Exception, remote.folderReply.reason)
  {
  }

  /** An exception raised by upload_files is caught and logged as the last
      entry of the upload stage. */
  lemma UploadExceptionLogged(h: Host, remote: Remote, url: string, outFolder: Option<string>,
                              chunkSize: int, fs: seq<Path>)
    requires UploadResult(h, remote, fs).Raise?
    ensures var e := UploadStage(h, remote, url, outFolder, chunkSize, Some(fs)).entries;
      |e| > 0 && e[|e| - 1] == LogEntry(Exception, UploadResult(h, remote, fs).reason)
  {
  }

  /** Without an output folder, upload_files follows the site check directly. */
  lemma UploadsRunWithoutFolder(h: Host, remote: Remote, spconf: SharepointConfig, runtime: RuntimeConfig,
                                files: Option<seq<Path>>, outFolder: Option<string>)
    requires remote.tokenReply.Done? && remote.siteReply.Done? && !Truthy(outFolder)
    ensures var url := SiteUrl(spconf);
      RemoteStages(h, remote, spconf, runtime, files, outFolder).requests ==
        [AcquireToken(url, spconf.client), QuerySite(url)] +
        UploadStage(h, remote, url, outFolder, runtime.chunkSize, files).requests
  {
    var url := SiteUrl(spconf);
    AppendAssoc([AcquireToken(url, spconf.client)], [QuerySite(url)],
                UploadStage(h, remote, url, outFolder, runtime.chunkSize, files).requests);
  }

  /** main ignores what upload_files returns: True and False end the run
      alike, with only what the uploads themselves sent and logged. */
  lemma UploadResultIgnored(h: Host, remote: Remote, url: string, outFolder: Option<string>,
                            chunkSize: int, fs: seq<Path>)
    requires UploadResult(h, remote, fs).Return?
    ensures UploadStage(h, remote, url, outFolder, chunkSize, Some(fs)) ==
      Effects(UploadRequests(h, remote, url, outFolder, chunkSize, fs), UploadLog(h, remote, fs))
  {
  }

  /** upload_files sends nothing but upload sessions. */
  lemma UploadStageOnlyUploads(h: Host, remote: Remote, url: string, outFolder: Option<string>,
                               chunkSize: int, fs: seq<Path>)
    ensures forall q :: q in UploadStage(h, remote, url, outFolder, chunkSize, Some(fs)).requests ==> q.Upload?
  {
    var u := UploadStage(h, remote, url, outFolder, chunkSize, Some(fs)).requests;
    var sessions := Sessions(url, outFolder, chunkSize, fs);
    UploadStageInOrder(h, remote, url, outFolder, chunkSize, fs);
    forall q | q in u ensures q.Upload? {
      var i :| 0 <= i < |u| && u[i] == q;
      assert q == sessions[i];
    }
  }

  /** add_folder is called exactly when the token and the site succeed and
      an output folder is set. */
  lemma FolderCreatedOnlyAfterChecks(h: Host, remote: Remote, spconf: SharepointConfig, runtime: RuntimeConfig,
                                     fs: seq<Path>, outFolder: Option<string>)
    ensures var r := RemoteStages(h, remote, spconf, runtime, Some(fs), outFolder).requests;
      CreateFolder(SiteUrl(spconf), Documents, outFolder) in r <==>
        remote.tokenReply.Done? && remote.siteReply.Done? && Truthy(outFolder)
  {
    var url := SiteUrl(spconf);
    var r := RemoteStages(h, remote, spconf, runtime, Some(fs), outFolder).requests;
    var u := UploadStage(h, remote, url, outFolder, runtime.chunkSize, Some(fs)).requests;
    var folder := CreateFolder(url, Documents, outFolder);
    if remote.tokenReply.Done? && remote.siteReply.Done? {
      if Truthy(outFolder) {
        assert r[2] == folder;
      } else {
        UploadStageOnlyUploads(h, remote, url, outFolder, runtime.chunkSize, fs);
        assert r == [AcquireToken(url, spconf.client)] + ([QuerySite(url)] + u);
        assert folder !in u;
      }
    }
  }

  /** Entries that report neither an error nor an exception. */
  predicate Quiet(entries: seq<LogEntry>) {
    forall i :: 0 <= i < |entries| ==> entries[i].level in {Debug, Info, Success}
  }

  lemma QuietThen(a: seq<LogEntry>, b: seq<LogEntry>)
    requires Quiet(a) && Quiet(b)
    ensures Quiet(a + b)
  {
    forall i | 0 <= i < |a + b| ensures (a + b)[i].level in {Debug, Info, Success} {
      if i >= |a| {
        assert (a + b)[i] == b[i - |a|];
      }
    }
  }

  /** The success log holds start and success lines only. */
  lemma {:induction false} SuccessLogQuiet(remote: Remote, fs: seq<Path>)
    requires forall j :: 0 <= j < |fs| ==> remote.uploadReply(fs[j]).Done?
    ensures Quiet(SuccessLog(remote, fs))
    decreases |fs|
  {
    if fs != [] {
      SuccessLogQuiet(remote, fs[1..]);
      var head := [LogEntry(Info, "File upload: " + Basename(fs[0])),
                   LogEntry(Success, "File " + fs[0] + " uploaded to: " + remote.uploadReply(fs[0]).url)];
      QuietThen(head, SuccessLog(remote, fs[1..]));
    }
  }

  /** When every file is uploaded, the upload stage opens one session per
      file and logs a start and a success line for each. */
  lemma UploadStageAllUploaded(h: Host, remote: Remote, url: string, outFolder: Option<string>,
                               chunkSize: int, fs: seq<Path>)
    requires forall i :: 0 <= i < |fs| ==> Exists(h, fs[i]) && remote.uploadReply(fs[i]).Done?
    ensures var e := UploadStage(h, remote, url, outFolder, chunkSize, Some(fs));
      e.requests == Sessions(url, outFolder, chunkSize, fs) && e.entries == SuccessLog(remote, fs)
  {
    var k := FirstFailure(h, remote, fs);
    assert k == |fs|;
    assert fs[..k] == fs;
    UploadRequestsStopAtFirstFailure(h, remote, url, outFolder, chunkSize, fs);
    UploadLogStopsAtFirstFailure(h, remote, fs);
    UploadResultAtFirstFailure(h, remote, fs);
  }

  /** When the folder and every file succeed, the folder stage creates the
      folder (when one is set) and opens one session per file, quietly. */
  lemma FolderStageAllSucceed(h: Host, remote: Remote, url: string, outFolder: Option<string>,
                              chunkSize: int, fs: seq<Path>)
    requires Truthy(outFolder) ==> remote.folderReply.Done?
    requires forall i :: 0 <= i < |fs| ==> Exists(h, fs[i]) && remote.uploadReply(fs[i]).Done?
    ensures var e := FolderStage(h, remote, url, outFolder, chunkSize, Some(fs));
      e.requests == (if Truthy(outFolder) then [CreateFolder(url, Documents, outFolder)] else []) +
                    Sessions(url, outFolder, chunkSize, fs) &&
      Quiet(e.entries)
  {
    var uploads := UploadStage(h, remote, url, outFolder, chunkSize, Some(fs));
    UploadStageAllUploaded(h, remote, url, outFolder, chunkSize, fs);
    SuccessLogQuiet(remote, fs);
    if Truthy(outFolder) {
      QuietThen(CheckedLog(remote.folderReply, FolderBanner(remote.folderReply)), uploads.entries);
    }
  }

  /** From verify_url on, when the site, the folder and every file succeed. */
  lemma FromSiteAllSucceed(h: Host, remote: Remote, spconf: SharepointConfig, runtime: RuntimeConfig,
                           fs: seq<Path>, outFolder: Option<string>)
    requires remote.siteReply.Done?
    requires Truthy(outFolder) ==> remote.folderReply.Done?
    requires forall i :: 0 <= i < |fs| ==> Exists(h, fs[i]) && remote.uploadReply(fs[i]).Done?
    ensures var url := SiteUrl(spconf);
      var e := FromSite(h, remote, spconf, runtime, Some(fs), outFolder);
      e.requests == [QuerySite(url)] + ((if Truthy(outFolder) then [CreateFolder(url, Documents, outFolder)] else []) +
                    Sessions(url, outFolder, runtime.chunkSize, fs)) &&
      Quiet(e.entries)
  {
    var url := SiteUrl(spconf);
    var folder := FolderStage(h, remote, url, outFolder, runtime.chunkSize, Some(fs));
    FolderStageAllSucceed(h, remote, url, outFolder, runtime.chunkSize, fs);
    QuietThen(SiteStage(remote, spconf, runtime).entries, folder.entries);
  }

  /** When the token, the site, the folder and every file succeed, the
      whole plan is carried out and nothing is logged as an error or an
      exception. */
  lemma AllStagesSucceed(h: Host, remote: Remote, spconf: SharepointConfig, runtime: RuntimeConfig,
                         fs: seq<Path>, outFolder: Option<string>)
    requires remote.tokenReply.Done? && remote.siteReply.Done?
    requires Truthy(outFolder) ==> remote.folderReply.Done?
    requires forall i :: 0 <= i < |fs| ==> Exists(h, fs[i]) && remote.uploadReply(fs[i]).Done?
    ensures var e := RemoteStages(h, remote, spconf, runtime, Some(fs), outFolder);
      e.requests == Plan(spconf, runtime, fs, outFolder) && Quiet(e.entries)
  {
    var url := SiteUrl(spconf);
    var token := TokenStage(spconf, runtime);
    var rest := FromSite(h, remote, spconf, runtime, Some(fs), outFolder);
    FromSiteAllSucceed(h, remote, spconf, runtime, fs, outFolder);
    QuietThen(token.entries, rest.entries);
    var created := if Truthy(outFolder) then [CreateFolder(url, Documents, outFolder)] else [];
    var sessions := Sessions(url, outFolder, runtime.chunkSize, fs);
    AppendAssoc([QuerySite(url)], created, sessions);
    AppendAssoc(token.requests, [QuerySite(url)] + created, sessions);
    assert token.requests + ([QuerySite(url)] + created) == [AcquireToken(url, spconf.client), QuerySite(url)] + created;
  }

  predicate NoException(entries: seq<LogEntry>) {
    forall i :: 0 <= i < |entries| ==> entries[i].level != Exception
  }

  /** An exception, if logged at all, is the last entry. */
  predicate ExceptionLast(entries: seq<LogEntry>) {
    forall i :: 0 <= i < |entries| && entries[i].level == Exception ==> i == |entries| - 1
  }

  lemma ExceptionLastAfter(a: seq<LogEntry>, b: seq<LogEntry>)
    requires NoException(a) && ExceptionLast(b)
    ensures ExceptionLast(a + b)
  {
    forall i | 0 <= i < |a + b| && (a + b)[i].level == Exception
      ensures i == |a + b| - 1
    {
      assert i >= |a| && (a + b)[i] == b[i - |a|];
    }
  }

  /** The upload stage logs an exception only as its last entry. */
  lemma UploadStageExceptionLast(h: Host, remote: Remote, url: string, outFolder: Option<string>,
                                 chunkSize: int, files: Option<seq<Path>>)
    ensures ExceptionLast(UploadStage(h, remote, url, outFolder, chunkSize, files).entries)
  {
    if files.Some? {
      var fs := files.value;
      UploadLogHasNoException(h, remote, fs);
      ExceptionLastAfter(UploadLog(h, remote, fs), Ending(UploadResult(h, remote, fs)).entries);
    }
  }

  /** The folder stage and what follows log an exception only as their
      last entry. */
  lemma FolderStageExceptionLast(h: Host, remote: Remote, url: string, outFolder: Option<string>,
                                 chunkSize: int, files: Option<seq<Path>>)
    ensures ExceptionLast(FolderStage(h, remote, url, outFolder, chunkSize, files).entries)
  {
    var uploads := UploadStage(h, remote, url, outFolder, chunkSize, files);
    UploadStageExceptionLast(h, remote, url, outFolder, chunkSize, files);
    if Truthy(outFolder) {
      ExceptionLastAfter(CheckedLog(remote.folderReply, FolderBanner(remote.folderReply)),
                         AfterCheck(remote.folderReply, uploads).entries);
    }
  }

  /** From verify_url on, an exception is logged only as the last entry. */
  lemma FromSiteExceptionLast(h: Host, remote: Remote, spconf: SharepointConfig, runtime: RuntimeConfig,
                              files: Option<seq<Path>>, outFolder: Option<string>)
    ensures ExceptionLast(FromSite(h, remote, spconf, runtime, files, outFolder).entries)
  {
    var site := SiteStage(remote, spconf, runtime);
    var folder := FolderStage(h, remote, SiteUrl(spconf), outFolder, runtime.chunkSize, files);
    var rest := AfterCheck(remote.siteReply, folder);
    FolderStageExceptionLast(h, remote, SiteUrl(spconf), outFolder, runtime.chunkSize, files);
    assert ExceptionLast(rest.entries);
    ExceptionLastAfter(site.entries, rest.entries);
  }

  /** The try block of main logs an exception only as its last entry. */
  lemma RemoteStagesExceptionLast(h: Host, remote: Remote, spconf: SharepointConfig, runtime: RuntimeConfig,
                                  files: Option<seq<Path>>, outFolder: Option<string>)
    ensures ExceptionLast(RemoteStages(h, remote, spconf, runtime, files, outFolder).entries)
  {
    var token := TokenStage(spconf, runtime);
    if !remote.tokenReply.Done? {
      ExceptionLastAfter(token.entries, Caught(ReasonOf(remote.tokenReply)).entries);
    } else {
      FromSiteExceptionLast(h, remote, spconf, runtime, files, outFolder);
      ExceptionLastAfter(token.entries, FromSite(h, remote, spconf, runtime, files, outFolder).entries);
    }
  }

  /** main logs at most one exception, and only as its very last entry:
      whatever raises ends the run. */
  lemma ExceptionOnlyLast(h: Host, remote: Remote, settings: Settings, debug: bool, subsite: Option<string>,
                          v: Verdict)
    ensures ExceptionLast(MainEffects(h, remote, settings, debug, subsite, v).entries)
  {
    if v.messages == [] {
      var spconf := SpConfig(settings, subsite);
      var runtime := RuntimeConfig(debug, settings.chunkSize);
      RemoteStagesExceptionLast(h, remote, spconf, runtime, v.files, v.outFolder);
      ExceptionLastAfter(ConfigDumps(debug) + (if debug then [LogEntry(Debug, "FilesConfig")] else []),
                         RemoteStages(h, remote, spconf, runtime, v.files, v.outFolder).entries);
    } else {
      assert NoException(ErrorLines(v.messages));
    }
  }

  /** Validation decides whether anything is sent: with messages nothing is
      sent and one error line per message follows the configuration dumps;
      without, the run always starts by asking for a token. */
  lemma ValidationGate(h: Host, remote: Remote, settings: Settings, debug: bool, subsite: Option<string>,
                       v: Verdict)
    ensures var e := MainEffects(h, remote, settings, debug, subsite, v);
      (e.requests == [] <==> v.messages != []) &&
      (v.messages != [] ==> e.entries == ConfigDumps(debug) + ErrorLines(v.messages)) &&
      (v.messages == [] ==> e.requests[0] == AcquireToken(SiteUrl(SpConfig(settings, subsite)), settings.client))
  {
  }

  /** main talks to the server exactly when the request is valid: some
      input is given, a given path is a directory, every entry of the
      split list passes its check and the output folder, given or
      defaulted, is a legal name. */
  lemma RequestsSentIffValid(h: Host, remote: Remote, settings: Settings, debug: bool, subsite: Option<string>,
                             path: Option<string>, files: Option<string>, out: Option<string>)
    ensures var folder := DefaultOutFolder(h, path, out);
      MainEffects(h, remote, settings, debug, subsite, Verified(h, path, files, out)).requests != [] <==>
        (Truthy(path) || Truthy(files)) &&
        (!Truthy(path) || IsDir(h, path.value)) &&
        (Truthy(files) ==>
           forall i :: 0 <= i < |Split(files.value, ',')| ==> EntryError(h, path, Split(files.value, ',')[i]) == None) &&
        (!Truthy(folder) || PatternMatches(folder.value))
  {
    var folder := DefaultOutFolder(h, path, out);
    var errs := VerifyErrors(h, path, ParseFiles(files), folder);
    var v := Verified(h, path, files, out);
    ValidationGate(h, remote, settings, debug, subsite, v);
    assert |v.messages| == |errs|;
    ParsedErrorsNone(h, path, files, folder);
  }

  /** The last entry of a log is that of its last non-empty part. */
  lemma LastOfThen(a: seq<LogEntry>, b: seq<LogEntry>)
    requires |b| > 0
    ensures (a + b)[|a + b| - 1] == b[|b| - 1]
  {
  }

  /** An exception raised by upload_files, once the earlier stages have
      succeeded, is the last thing main logs. */
  lemma UploadExceptionEndsMain(h: Host, remote: Remote, settings: Settings, debug: bool, subsite: Option<string>,
                                fs: seq<Path>, outFolder: Option<string>)
    requires remote.tokenReply.Done? && remote.siteReply.Done?
    requires Truthy(outFolder) ==> remote.folderReply.Done?
    requires UploadResult(h, remote, fs).Raise?
    ensures var e := MainEffects(h, remote, settings, debug, subsite, Verdict([], Some(fs), outFolder)).entries;
      |e| > 0 && e[|e| - 1] == LogEntry(Exception, UploadResult(h, remote, fs).reason)
  {
    var spconf := SpConfig(settings, subsite);
    var runtime := RuntimeConfig(debug, settings.chunkSize);
    var url := SiteUrl(spconf);
    var uploads := UploadStage(h, remote, url, outFolder, runtime.chunkSize, Some(fs)).entries;
    UploadExceptionLogged(h, remote, url, outFolder, runtime.chunkSize, fs);
    var folder := FolderStage(h, remote, url, outFolder, runtime.chunkSize, Some(fs)).entries;
    if Truthy(outFolder) {
      LastOfThen(CheckedLog(remote.folderReply, FolderBanner(remote.folderReply)), uploads);
    }
    assert |folder| > 0 && folder[|folder| - 1] == uploads[|uploads| - 1];
    var site := FromSite(h, remote, spconf, runtime, Some(fs), outFolder).entries;
    LastOfThen(SiteStage(remote, spconf, runtime).entries, folder);
    var stages := RemoteStages(h, remote, spconf, runtime, Some(fs), outFolder).entries;
    LastOfThen(TokenStage(spconf, runtime).entries, site);
    LastOfThen(ConfigDumps(debug) + (if debug then [LogEntry(Debug, "FilesConfig")] else []), stages);
  }

  /** What verify makes of `-i /d -f a.txt` on SplitHost: no message, the
      entry rewritten to "/d/a.txt", and the folder "d" taken from the path. */
  lemma SplitRequestVerdict()
    ensures Verified(SplitHost(), Some("/d"), Some("a.txt"), None) == Verdict([], Some(["/d/a.txt"]), Some("d"))
  {
    var h := SplitHost();
    SplitWithoutSep("a.txt", ',');
    assert ParseFiles(Some("a.txt")) == Some(["a.txt"]);
    assert Abspath(h, "/d") == "/d";
    assert Basename("/d") == Basename("/") + "d";
    assert DefaultOutFolder(h, Some("/d"), None) == Some("d");
    AcceptedEntryRewrittenUnderPath();
  }

  /** main on `-i /d -f a.txt` with SplitHost: the request passes, but once
      the token, the site and the folder succeed, getsize fails on
      "/d/a.txt" and main logs that exception last. */
  lemma SplitRequestUploadRaises(remote: Remote, settings: Settings, debug: bool, subsite: Option<string>)
    requires remote.tokenReply.Done? && remote.siteReply.Done? && remote.folderReply.Done?
    ensures var e := MainEffects(SplitHost(), remote, settings, debug, subsite,
                                 Verified(SplitHost(), Some("/d"), Some("a.txt"), None)).entries;
      |e| > 0 && e[|e| - 1] == LogEntry(Exception, NoSuchFile("/d/a.txt"))
  {
    var h := SplitHost();
    SplitRequestVerdict();
    AcceptedEntryRewrittenUnderPath();
    assert UploadResult(h, remote, ["/d/a.txt"]) == Raise(NoSuchFile("/d/a.txt"));
    UploadExceptionEndsMain(h, remote, settings, debug, subsite, ["/d/a.txt"], Some("d"));
  }

  // ------------------------------------------------------------- Uploader

  /** Uploader: the command-line arguments and the logger of one run. */
  class Uploader {
    const debug: bool
    const subsite: Option<string>
    const logger: Logger
    const path: Option<string>
    const files: Option<string>
    const out: Option<string>

    constructor (debug: bool, subsite: Option<string>, directory: Option<string>,
                 files: Option<string>, out: Option<string>)
      ensures this.debug == debug && this.subsite == subsite && path == directory
      ensures this.files == files && this.out == out
      ensures fresh(logger) && logger.entries == []
    {
      this.debug := debug;
      this.subsite := subsite;
      logger := new Logger();
      path := directory;
      this.files := files;
      this.out := out;
    }

    /** main, given the contents of config.yaml, the machine and the server:
        the file configuration is built and verified, then acted upon. */
    method Run(h: Host, remote: Remote, settings: Settings)
      modifies logger, remote
      ensures remote.requests ==
        old(remote.requests) + MainEffects(h, remote, settings, debug, subsite, Verified(h, path, files, out)).requests
      ensures logger.entries ==
        old(logger.entries) + MainEffects(h, remote, settings, debug, subsite, Verified(h, path, files, out)).entries
    {
      var fconf := new FilesConfig(h, path, files, out);
      var verify := fconf.Verify(h);
      assert Verified(h, path, files, out) == Verdict(verify, fconf.files, fconf.outFolder);
      Act(h, remote, settings, fconf, verify);
    }

    /** The rest of main once verify has returned: the debug dumps, then
        either the error lines or the try block. */
    method Act(h: Host, remote: Remote, settings: Settings, fconf: FilesConfig, verify: seq<string>)
      modifies logger, remote
      ensures remote.requests ==
        old(remote.requests) + MainEffects(h, remote, settings, debug, subsite, Verdict(verify, fconf.files, fconf.outFolder)).requests
      ensures logger.entries ==
        old(logger.entries) + MainEffects(h, remote, settings, debug, subsite, Verdict(verify, fconf.files, fconf.outFolder)).entries
    {
      var spconf := SharepointConfig(settings.tenant, settings.client, settings.site, settings.secret, subsite);
      var runtime := RuntimeConfig(debug, settings.chunkSize);
      ghost var effects := MainEffects(h, remote, settings, debug, subsite, Verdict(verify, fconf.files, fconf.outFolder));
      LogDumps();
      if verify != [] {
        LogErrors(verify);
        assert effects.entries == ConfigDumps(debug) + ErrorLines(verify);
        AppendAssoc(old(logger.entries), ConfigDumps(debug), ErrorLines(verify));
        return;
      }
      ghost var prefix := ConfigDumps(debug) + (if debug then [LogEntry(Debug, "FilesConfig")] else []);
      if debug {
        logger.Log(Debug, "FilesConfig");
      }
      AppendAssoc(old(logger.entries), ConfigDumps(debug), if debug then [LogEntry(Debug, "FilesConfig")] else []);
      ghost var stages := RemoteStages(h, remote, spconf, runtime, fconf.files, fconf.outFolder);
      assert effects == Then(Effects([], prefix), stages);
      Transfer(h, remote, fconf, spconf, runtime);
      AppendAssoc(old(logger.entries), prefix, stages.entries);
    }

    /** The debug dumps of the three configurations. */
    method LogDumps()
      modifies logger
      ensures logger.entries == old(logger.entries) + ConfigDumps(debug)
    {
      if debug {
        logger.Log(Debug, "SharepointConfig");
        logger.Log(Debug, "RuntimeConfig");
        logger.Log(Debug, "FilesConfig");
      }
    }

    /** The error branch of main: one error line per message, in order. */
    method LogErrors(msgs: seq<string>)
      modifies logger
      ensures logger.entries == old(logger.entries) + ErrorLines(msgs)
    {
      for i := 0 to |msgs|
        invariant logger.entries == old(logger.entries) + ErrorLines(msgs[..i])
      {
        assert ErrorLines(msgs[..i + 1]) == ErrorLines(msgs[..i]) + [LogEntry(Error, msgs[i])];
        logger.Log(Error, msgs[i]);
      }
      assert msgs[..|msgs|] == msgs;
    }

    /** The try block of main: the Sharepoint wrapper is built and a token
        acquired; an exception is logged and ends the block. */
    method Transfer(h: Host, remote: Remote, fconf: FilesConfig, spconf: SharepointConfig, runtime: RuntimeConfig)
      modifies logger, remote
      ensures remote.requests ==
        old(remote.requests) + RemoteStages(h, remote, spconf, runtime, fconf.files, fconf.outFolder).requests
      ensures logger.entries ==
        old(logger.entries) + RemoteStages(h, remote, spconf, runtime, fconf.files, fconf.outFolder).entries
    {
      var sp := new Sharepoint(fconf, spconf, runtime, logger);
      var t := sp.GetToken(remote);
      ghost var e0, r0 := logger.entries, remote.requests;
      if t.Raise? {
        logger.Log(Exception, t.reason);
      } else {
        RunFromSite(sp, h, remote);
      }
      ghost var rest := if remote.tokenReply.Done? then FromSite(h, remote, spconf, runtime, fconf.files, fconf.outFolder)
        else Caught(ReasonOf(remote.tokenReply));
      ghost var token := TokenStage(spconf, runtime);
      AppendAssoc(old(logger.entries), token.entries, rest.entries);
      AppendAssoc(old(remote.requests), token.requests, rest.requests);
    }

    /** The try block once a token is granted: the debug dump of the
        Sharepoint object and verify_url; a False result ends the block. */
    method RunFromSite(sp: Sharepoint, h: Host, remote: Remote)
      requires sp.logger == logger && sp.url == Some(SiteUrl(sp.spconfig))
      modifies logger, remote
      ensures remote.requests == old(remote.requests) +
        FromSite(h, remote, sp.spconfig, sp.runtime, sp.fconfig.files, sp.fconfig.outFolder).requests
      ensures logger.entries == old(logger.entries) +
        FromSite(h, remote, sp.spconfig, sp.runtime, sp.fconfig.files, sp.fconfig.outFolder).entries
    {
      ghost var dump := if sp.runtime.debug then [LogEntry(Debug, "Sharepoint")] else [];
      if sp.runtime.debug {
        logger.Log(Debug, "Sharepoint");
      }
      assert logger.entries == old(logger.entries) + dump;
      var ok := sp.VerifyUrl(remote);
      ghost var site := SiteStage(remote, sp.spconfig, sp.runtime);
      AppendAssoc(old(logger.entries), dump, CheckedLog(remote.siteReply, SiteBanner(remote.siteReply)));
      assert logger.entries == old(logger.entries) + site.entries;
      assert remote.requests == old(remote.requests) + site.requests;
      ghost var rest := AfterCheck(remote.siteReply,
        FolderStage(h, remote, SiteUrl(sp.spconfig), sp.fconfig.outFolder, sp.runtime.chunkSize, sp.fconfig.files));
      if ok.Raise? {
        logger.Log(Exception, ok.reason);
      } else if ok.value {
        RunFolderStage(sp, h, remote);
      }
      AppendAssoc(old(logger.entries), site.entries, rest.entries);
      AppendAssoc(old(remote.requests), site.requests, rest.requests);
    }

    /** The try block once the site is confirmed: add_folder when an output
        folder is set, then upload_files. */
    method RunFolderStage(sp: Sharepoint, h: Host, remote: Remote)
      requires sp.logger == logger && sp.url == Some(SiteUrl(sp.spconfig))
      modifies logger, remote
      ensures remote.requests == old(remote.requests) +
        FolderStage(h, remote, SiteUrl(sp.spconfig), sp.fconfig.outFolder, sp.runtime.chunkSize, sp.fconfig.files).requests
      ensures logger.entries == old(logger.entries) +
        FolderStage(h, remote, SiteUrl(sp.spconfig), sp.fconfig.outFolder, sp.runtime.chunkSize, sp.fconfig.files).entries
    {
      if !Truthy(sp.fconfig.outFolder) {
        RunUploadStage(sp, h, remote);
        return;
      }
      var ok := sp.AddFolder(remote);
      ghost var e1, r1 := logger.entries, remote.requests;
      if ok.Raise? {
        logger.Log(Exception, ok.reason);
      } else if ok.value {
        RunUploadStage(sp, h, remote);
      }
      ghost var rest := AfterCheck(remote.folderReply,
        UploadStage(h, remote, SiteUrl(sp.spconfig), sp.fconfig.outFolder, sp.runtime.chunkSize, sp.fconfig.files));
      AppendAssoc(old(logger.entries), CheckedLog(remote.folderReply, FolderBanner(remote.folderReply)), rest.entries);
      AppendAssoc(old(remote.requests), [CreateFolder(SiteUrl(sp.spconfig), Documents, sp.fconfig.outFolder)],
                  rest.requests);
    }

    /** The last step of the try block: upload_files, whose exception is
        logged and whose False result is ignored. */
    method RunUploadStage(sp: Sharepoint, h: Host, remote: Remote)
      requires sp.logger == logger && sp.url == Some(SiteUrl(sp.spconfig))
      modifies logger, remote
      ensures remote.requests == old(remote.requests) +
        UploadStage(h, remote, SiteUrl(sp.spconfig), sp.fconfig.outFolder, sp.runtime.chunkSize, sp.fconfig.files).requests
      ensures logger.entries == old(logger.entries) +
        UploadStage(h, remote, SiteUrl(sp.spconfig), sp.fconfig.outFolder, sp.runtime.chunkSize, sp.fconfig.files).entries
    {
      var uploaded := sp.UploadFiles(h, remote);
      if uploaded.Raise? {
        logger.Log(Exception, uploaded.reason);
      }
      if sp.fconfig.files.Some? {
        var fs := sp.fconfig.files.value;
        AppendAssoc(old(logger.entries), UploadLog(h, remote, fs), Ending(UploadResult(h, remote, fs)).entries);
      }
    }
  }
}
