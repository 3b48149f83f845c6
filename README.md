# spuppy upload request and upload run, in Dafny

spuppy uploads files to a SharePoint document library. This project models
three parts of it:

- `FilesConfig` in config.py. It parses an upload request: an optional
  directory (`-i`), an optional comma-separated file list (`-f`) and an
  optional output folder (`-o`). `verify` collects every validation error.
  Only when there is none does it rewrite the file list to absolute paths.
- The control flow of `Sharepoint` in sputil.py: `get_token`, `verify_url`,
  `add_folder` and the `upload_files` loop, which stops at the first file
  that fails.
- `Uploader.main` in spup.py. It validates the request and only then runs
  the remote stages in order, logging any exception they raise.

The modules follow the program:

- `Python`: `None`, truthiness, and `str.split` with `",".join`.
- `OsPath`: the machine, as seen through `os.path`.
- `Config`: config.py.
- `SpUtil`: sputil.py.
- `Spup`: spup.py.

The file system is a map from absolute path to `File` or `Dir`; a missing
key means the path does not exist. Relative paths are resolved through an
uninterpreted `abspath`. `join` and `basename` follow POSIX `posixpath`.

The office365 library and the server are a `Remote` object. It has a fixed
reply for each kind of request and records every request that reaches it,
in order. The logger is the sequence of `(level, text)` entries it was
given. Python exceptions are `Flow.Raise`.

Each method is proved against a specification function:

- `Config.VerifyErrors` and `Config.FixedFiles` for `FilesConfig`;
- `SpUtil.UploadRequests`, `SpUtil.UploadLog` and `SpUtil.UploadResult` for
  the upload loop;
- `Spup.MainEffects` for `main`.

The lemmas then state what those functions promise.

The docstring of `FilesConfig.verify` (config.py:90-94) says that it
verifies that the paths exist. For the files it does not ensure this. An entry accepted because
it exists relative to the working directory (config.py:126 and 133) is still
rewritten as `join(abspath(path), entry)` (config.py:157). The model follows
the code. `Config.AcceptedEntryRewrittenUnderPath` exhibits such a request.

## Model

| member | source | states |
|---|---|---|
| Python.JoinSplit | config.py:74-75 | joining the pieces of `split(",")` with "," gives the input back |
| Python.SplitJoin | config.py:74-75 | splitting a join of comma-free pieces gives the pieces back |
| Python.SplitPiecesHaveNoSep | config.py:75 | no piece of a split holds the separator |
| Python.Split | config.py:75 | a split always has at least one piece |
| OsPath.Join | config.py:127 | an absolute second part replaces the first; joining onto an absolute path stays absolute |
| OsPath.BasenameIsLastComponent | config.py:82 | the base name is a separator-free suffix of the path, preceded by "/" unless it is the whole path |
| Config.Message | config.py:98-146 | every error text is non-empty and starts with the value it is about |
| Config.KeepTruthyKeepsMessages | config.py:103 | the filter `[x for x in ret if x]` never drops a message |
| Config.ParseFiles | config.py:74-77 | a non-empty string becomes a non-empty list of comma-free entries that join back to it; otherwise `None` |
| Config.DefaultOutFolder | config.py:79-84 | an explicit folder wins; otherwise the last component of the absolute path; otherwise `None` |
| Config.FilesConfig.constructor | config.py:71-84 | the fields are the parsed list, the path and the defaulted folder |
| Config.PathErrors | config.py:110-118 | no error without a path or for a directory; otherwise exactly one, "does not exist" or "is not a directory" |
| Config.EntryErrorCases | config.py:125-134 | an entry passes iff it is a file as given, or a path is set, the entry is missing as given and is a file under the path; any error names the entry; without a path a missing entry "does not exist" |
| Config.EntriesErrors | config.py:120-136 | at most one error per entry |
| Config.EntriesErrorsAppend | config.py:125-134 | errors come in entry order |
| Config.EntriesErrorsNone | config.py:120-136 | the list passes iff every entry passes |
| Config.FilesConfig.VerifyFiles | config.py:120-136 | the loop returns the errors of all entries in order, nothing for an unset or empty list |
| Config.PatternByLastChar | config.py:143-144 | `re.match("^[a-zA-Z0-9._-]+$")` holds iff the string is one or more allowed characters, optionally followed by one final newline |
| Config.NameIsLegal | config.py:143-144 | decides the pattern exactly |
| Config.OutFolderErrors | config.py:138-148 | no error for an unset or empty name; otherwise exactly one, iff the pattern fails |
| Config.IllegalCharRejected | config.py:138-148 | a character outside the class, other than one final newline, is refused |
| Config.LegalNameAccepted | config.py:138-148 | a name of allowed characters is accepted, with or without one final newline |
| Config.VerifyErrors | config.py:96-102 | the "at least one of -i or -f" error heads the list iff neither a path nor files were given |
| Config.VerifyErrorsNone | config.py:96-105 | no error iff some input is given, a given path is a directory, every entry passes and the name is legal |
| Config.ParsedErrorsNone | config.py:73-105 | the same condition on the raw `-f` argument: every comma-separated piece passes its check |
| Config.FilesConfig.Verify | config.py:89-108 | returns the messages of all errors in order; rewrites the list iff there is none, and otherwise leaves it unchanged |
| Config.BaseDir | config.py:151-154 | the base directory, `abspath(path)` or `abspath(".")`, is absolute |
| Config.RegularFiles | config.py:159-163 | the kept paths are no more than the listed ones |
| Config.RegularFilesAppend | config.py:159-163 | the listing loop keeps listing order |
| Config.RegularFilesMembers | config.py:159-163 | a path is kept iff it is listed and is a regular file |
| Config.FixedFilesExplicit | config.py:156-157 | explicit entries keep their number and order, each joined to the base |
| Config.FixedFilesListed | config.py:158-164 | without entries, the list is exactly the regular files of the base listing, joined to the base |
| Config.FixedFilesAbsolute | config.py:150-164 | every rewritten path is absolute |
| Config.FixPathsIdempotent | config.py:150-164 | rewriting again changes nothing |
| Config.FilesConfig.FixPaths | config.py:150-164 | sets the list to the rewritten one, nothing else changes |
| Config.SplitRequestAccepted | config.py:126-133 | `-i /d -f a.txt` passes validation when "a.txt" exists only in the working directory |
| Config.AcceptedEntryRewrittenUnderPath | config.py:157 | that request leaves "/d/a.txt" to upload, which does not exist |
| SpUtil.SiteUrl | sputil.py:60-63 | the site, then "/" and the subsite when one is set |
| SpUtil.Sharepoint.constructor | sputil.py:28-34 | no URL and no token yet |
| SpUtil.Sharepoint.GetToken | sputil.py:39-71 | sets the URL, logs it in debug mode, sends one token request; a refusal raises |
| SpUtil.Remote.AcquireTokenForApp | sputil.py:68-71 | records the token request and returns the fixed reply |
| SpUtil.Sharepoint.VerifyUrl | sputil.py:73-88 | one site query; True with the title line, False with `err.args[2]`, other exceptions propagate |
| SpUtil.Remote.GetWeb | sputil.py:80-82 | records the site query and returns the fixed reply |
| SpUtil.Sharepoint.AddFolder | sputil.py:90-106 | one folder request in "Documents"; True with the folder URL, False with `err.args[2]`, other exceptions propagate |
| SpUtil.Remote.AddFolder | sputil.py:96-100 | records the folder request and returns the fixed reply |
| SpUtil.ProgressBar.Update | sputil.py:143-145 | the counter advances by the given step |
| SpUtil.DisplayUploadProgress | sputil.py:131-145 | each callback advances the bar by the chunk size, whatever the offset |
| SpUtil.Remote.UploadSession | sputil.py:147-151 | records one session; after k progress reports the bar has advanced by k chunk sizes, with no bound by the file size |
| SpUtil.FirstFailure | sputil.py:118-154 | the first file that is not uploaded, or the length |
| SpUtil.Sharepoint.UploadFile | sputil.py:119-158 | one iteration: the start line, then a session unless the size is unreadable; continues iff the file is uploaded |
| SpUtil.Sharepoint.UploadFiles | sputil.py:108-160 | the loop sends, logs and returns what the upload specification says; `None` files raise |
| SpUtil.UploadRequestsStopAtFirstFailure | sputil.py:118-154 | one session for each file before the first failure, one for it if its size was read, none after |
| SpUtil.FailedFileLog | sputil.py:119-154 | a failing file logs its start line and, for a rejection, the server's message |
| SpUtil.UploadLogStopsAtFirstFailure | sputil.py:118-158 | a start and a success line for every file before the first failure, then the failing file's lines |
| SpUtil.UploadResultAtFirstFailure | sputil.py:118-160 | True iff every file is uploaded; otherwise the unreadable size raises, a rejection gives False, other exceptions propagate |
| SpUtil.UploadRequestsPrefix | sputil.py:118-154 | the sessions are those of a prefix of the list |
| SpUtil.UploadLogHasNoException | sputil.py:108-160 | upload_files itself logs no exception |
| Spup.UploadStageInOrder | spup.py:63 | what upload_files sends is a prefix of one session per file |
| Spup.FolderStageInOrder | spup.py:60-63 | add_folder comes before every session, and only for a set folder |
| Spup.FromSiteInOrder | spup.py:57-63 | the site query comes before the folder and the sessions |
| Spup.StagesInOrder | spup.py:51-63 | what reaches the server is a prefix of token, site, folder (when set), one session per file |
| Spup.TokenFailureStops | spup.py:51-67 | a refused token ends the run after one request; the exception is the last entry |
| Spup.SiteFailureStops | spup.py:57-58 | a failed site check ends the run: no folder, no upload |
| Spup.FolderFailureStops | spup.py:60-67 | a failed add_folder ends the run before upload_files; the last entry is the server's message for False or the logged exception |
| Spup.UploadExceptionLogged | spup.py:63-67 | an exception raised by upload_files is logged as the upload stage's last entry |
| Spup.UploadExceptionEndsMain | spup.py:43-67 | after a clean verify and successful earlier stages, an exception from upload_files is the last entry main logs |
| Spup.SplitRequestVerdict | config.py:108-164 | verify accepts `-i /d -f a.txt` on the example host, rewrites the entry to /d/a.txt and takes the folder d from the path |
| Spup.SplitRequestUploadRaises | spup.py:28-67 | on that request main logs, last, the exception for the missing file /d/a.txt |
| Spup.UploadsRunWithoutFolder | spup.py:60-63 | without an output folder, upload_files follows the site check directly |
| Spup.UploadResultIgnored | spup.py:63 | True and False from upload_files end main alike |
| Spup.UploadStageOnlyUploads | spup.py:63 | upload_files sends only upload sessions |
| Spup.FolderCreatedOnlyAfterChecks | spup.py:52-61 | add_folder is called iff the token and the site succeed and a folder is set |
| Spup.SuccessLogQuiet | sputil.py:119-158 | the lines of uploaded files are neither errors nor exceptions |
| Spup.UploadStageAllUploaded | sputil.py:118-160 | when every file uploads: one session and a start and success line per file |
| Spup.FolderStageAllSucceed | spup.py:60-63 | when the folder and the files succeed, the folder stage does all of its work quietly |
| Spup.FromSiteAllSucceed | spup.py:57-63 | the same from verify_url on |
| Spup.AllStagesSucceed | spup.py:51-63 | when everything succeeds, the whole plan is sent and no error or exception is logged |
| Spup.UploadStageExceptionLast | spup.py:63-67 | the upload stage logs an exception only last |
| Spup.FolderStageExceptionLast | spup.py:60-67 | the folder stage logs an exception only last |
| Spup.FromSiteExceptionLast | spup.py:55-67 | from the Sharepoint dump on, an exception is logged only last |
| Spup.RemoteStagesExceptionLast | spup.py:51-67 | the try block logs an exception only last |
| Spup.ExceptionOnlyLast | spup.py:28-67 | main logs at most one exception, as its last entry |
| Spup.ValidationGate | spup.py:43-46 | validation messages mean no request and one error line each; otherwise the run starts with the token request |
| Spup.RequestsSentIffValid | spup.py:33-46 | main sends a request iff some input is given, a given path is a directory, every comma-separated entry passes and the given or defaulted folder name is legal |
| Spup.Uploader.constructor | spup.py:20-26 | the fields are the command-line values; the log is empty |
| Spup.Uploader.Run | spup.py:28-67 | main sends and logs exactly what the main specification gives for the verified request |
| Spup.Uploader.Act | spup.py:38-67 | after verify: the debug dumps, then the error lines or the try block |
| Spup.Uploader.LogDumps | spup.py:38-41 | the three debug dumps in debug mode |
| Spup.Uploader.LogErrors | spup.py:43-46 | one error line per message, in order |
| Spup.Uploader.Transfer | spup.py:51-67 | the try block: token, then the later stages; an exception is logged and ends it |
| Spup.Uploader.RunFromSite | spup.py:54-58 | the Sharepoint dump and verify_url; False or an exception ends the block |
| Spup.Uploader.RunFolderStage | spup.py:60-63 | add_folder for a set folder; False or an exception ends the block |
| Spup.Uploader.RunUploadStage | spup.py:63-67 | upload_files; an exception is logged, False is ignored |

## Left out

- Logging: the console colours, the file handler and its file name are
  not modelled. The log is the sequence of messages, and every call is
  kept whatever the level.
- The debug dumps of objects are logged by class name only; the `repr`
  text is not modelled.
- Loading config.yaml (`SharepointConfig`, `RuntimeConfig`): the loaded
  values are inputs (`Spup.Settings`), and a missing or malformed file is
  not modelled.
- office365 (`AuthenticationContext`, `ClientContext`, `execute_query`,
  `create_upload_session`): the server is a `Remote` with one fixed reply
  per kind of request and per file. Retries, chunking and the library's
  own laziness are not modelled.
- The token request: a refused token is assumed to raise. What
  `acquire_token_for_app` does when it returns without a token is not
  part of this model.
- tqdm: only the counter of the progress bar is modelled, not its output
  or closing.
- `os.path.abspath`, `os.listdir` and `os.path.getsize` are uninterpreted
  fields of the host. The host only assumes that `abspath` gives absolute
  paths and resolves "." to the working directory. `exists` of the empty
  path is false. Symbolic links are not modelled.
- `verify` never raises in the model (`os.listdir` is total), so an
  exception escaping main from `verify`, outside the try block
  (spup.py:36), is not represented.
- `os.path.getsize` fails exactly when the path does not exist. Permission
  errors are not modelled.
- The argparse command line (spup.py:70-108) and the commented-out MSAL
  code (sputil.py:44-58) are not modelled.
- The structure of main's try block: it is split into one method per
  stage (`Transfer`, `RunFromSite`, `RunFolderStage`, `RunUploadStage`),
  called in the same order as in the source.
