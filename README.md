# update-webcams, modelled in Dafny

`update-webcams.py` keeps a set of webcam pictures fresh. Each camera is a
section of an INI file. On every pass the script downloads the camera's image
into a temporary file. If an archive directory is set, it copies the
download to `archive_dir/name/YYYY-MM/YYYY-MM-DD/YYYY-MM-DD-HH-MM.ext`. It
draws a label on the picture with `gm convert`, uploads the result to an FTP
server with `STOR <filename>`, and removes its temporary files. A camera
that fails is logged and the pass goes on with the next one. After a pass
the script sleeps for the rest of the interval, or stops if no interval is
configured.

The model has six modules:

- `Outcomes`: the exceptions the script can raise and a `Status`
  (`Ok` or `Raised(e)`) that stands for Python's exception flow.
- `Text`: the zero-padded decimal fields that `strftime` prints, and
  `replacetoken` / `str.replace("{}", v)`.
- `Clock`: the capture timestamp, a `strftime` for the numeric directives,
  the archive path and the label.
- `Host`: the machine, as a class whose `files` map each path to its size in
  bytes, with the `gm convert` calls it saw and the temporary files
  `mkstemp` handed out; and an `FtpSession` class with the STOR commands the
  server accepted. Every outcome decided outside the program (download,
  drawing, transfer, login) is a parameter.
- `Webcam`: `WebcamProcessor` as a class whose methods change the host in
  place, each proved equal to a step function; `ProcessSpec` composes the
  steps, and lemmas about it state what a `process` call guarantees.
- `Scheduler`: the `__main__` block: the credential check, `get_ftp`, the
  camera filter, one camera's turn with its exception handler, one pass over
  the cameras, one iteration of the interval loop, and the loop itself.

Some of the script's behaviour is modelled as written, not as its authors
presumably intended:

- The credential check prints to `sys.sterr`, which does not exist. A
  half-given FTP login therefore ends the script with an `AttributeError`;
  exit code 64 is never reached (`Scheduler.CheckCredentials`, `Scheduler.Run`).
- `ftp.quit()` runs after every pass even when no FTP host is configured.
  Without a host, the first complete pass ends the script with an
  `AttributeError`, so it never sleeps and never starts a second pass
  (`Scheduler.OnePass`, `Scheduler.Serve`).
- The exception handler prints `cam['title']`. A camera section without a
  title raises a second `KeyError` that no handler catches, and the pass and
  the script end there, even when that section is the last one and every
  camera has had its turn. Any other missing key is logged and skipped
  (`Scheduler.ProcessCamera`, `Scheduler.RunPass`, `Scheduler.UntitledLastSection`).
- When `gm` fails, the second temporary file that `paint` created is never
  removed (`Webcam.ProcessLeaksOnGmFailure`).
- `paint` catches only `CalledProcessError`. When `gm` cannot be started at
  all, `check_output` raises `FileNotFoundError`, which escapes `process`:
  nothing is uploaded and the camera's error is logged
  (`Webcam.GmNotStartedEndsProcess`).
- The sleep length `interval - elapsed` is not clamped. A pass longer than
  the interval makes `time.sleep` raise `ValueError`, which ends the script
  (`Scheduler.OnePass`, `Scheduler.Serve`).
- If the archive path equals the temporary file's name, `copyfile` raises
  `SameFileError`. Nothing is then painted or uploaded
  (`Webcam.PaintRunsAfterDownloadAndArchive`).

## Model

| member | source | states |
|---|---|---|
| Text.ZeroPad | update-webcams.py:45-47 | a strftime field is exactly `width` decimal digits |
| Text.ZeroPadRoundTrip | update-webcams.py:45-47 | reading the digits back gives the number whenever it fits in the width |
| Text.ZeroPadInjective | update-webcams.py:45-47 | two numbers that fit the width print the same field only when equal |
| Text.ReplaceToken | update-webcams.py:90-91 | replacing the placeholder by itself leaves the string unchanged |
| Text.ReplaceTokenUntouched | update-webcams.py:90-91 | a string without `{}` comes back unchanged, whatever the value |
| Text.ReplaceTokenFirst | update-webcams.py:90-91 | the first `{}` becomes the value, the text before it is kept, and the scan resumes after it |
| Text.ReplaceTokenLeavesNone | update-webcams.py:90-91 | a non-empty value without braces leaves no `{}` in the result, not even one formed around a substitution |
| Clock.ArchiveTarget | update-webcams.py:45-48 | the archive path lies under `archive_dir/name/` and ends in `.ext` |
| Clock.Strftime | update-webcams.py:45-47 | a pattern without `%` is printed as it is |
| Clock.ArchiveTargetShape | update-webcams.py:45-48 | the archive path is `dir/name/YYYY-MM/YYYY-MM-DD/YYYY-MM-DD-HH-MM.ext` with zero-padded fields |
| Clock.ArchiveTargetExample | update-webcams.py:45-48 | a capture at 2024-03-05 14:22 of camera `harbor` under `/data` goes to `/data/harbor/2024-03/2024-03-05/2024-03-05-14-22.jpg` |
| Clock.ArchiveTargetCollision | update-webcams.py:45-48 | for valid timestamps, two captures share an archive path exactly when they fall in the same minute |
| Clock.Label | update-webcams.py:56-57 | the label is the strftime expansion with `{}` replaced by the title; a pattern without directives only has its placeholders replaced |
| Clock.LabelFilled | update-webcams.py:56-57 | a non-empty title without braces leaves no placeholder in the label |
| Clock.DefaultPatternExpands | update-webcams.py:18 | the default pattern prints `YYYY-MM-DD HH:MM Webcam {}` |
| Clock.DefaultLabel | update-webcams.py:56-57 | with the default pattern the label is `YYYY-MM-DD HH:MM Webcam <title>` for any title |
| Host.Host.MakeTemp | update-webcams.py:26-27 | mkstemp creates an empty file under a new name with the requested suffix and records it as a temporary file |
| Host.Host.GetSize | update-webcams.py:30-34 | the size is known exactly when the file exists |
| Host.Host.Retrieve | update-webcams.py:36-41 | a successful download stores the image at the destination; a failure raises URLError and changes nothing |
| Host.Host.CopyFile | update-webcams.py:50 | a missing source raises FileNotFoundError, copying onto itself raises SameFileError, otherwise the target gets the source's contents |
| Host.Host.Unlink | update-webcams.py:74-78 | the path is gone afterwards; a missing path raises FileNotFoundError and changes nothing |
| Host.Host.Convert | update-webcams.py:59-62 | the gm call is recorded; success writes the output file, a failure raises CalledProcessError with gm's code, and a gm that cannot be started raises FileNotFoundError; neither failure writes anything |
| Host.FtpSession.constructor | update-webcams.py:95 | a new session is open and has stored nothing |
| Host.FtpSession.StoreBinary | update-webcams.py:72 | an accepted STOR is recorded with the bytes sent; a refused one raises and records nothing |
| Host.FtpSession.Quit | update-webcams.py:148 | the session is closed and its record kept |
| Webcam.DownloadStep | update-webcams.py:36-41 | success exactly when the fetch succeeded, the temporary file then holds the image, and no other file changes |
| Webcam.ArchiveStep | update-webcams.py:43-51 | without a truthy directory and a valid file nothing changes; a successful copy gives the target the download's contents; no file but the target changes |
| Webcam.PaintStep | update-webcams.py:53-67 | the current file becomes the second temporary file exactly when gm drew onto an existing file; `CalledProcessError` is absorbed, while a gm that cannot be started, or an unlink of a missing input, escapes; no file but the two temporary files changes |
| Webcam.UploadStep | update-webcams.py:69-72 | without a session nothing happens; a transfer carries the current file's size, and happens exactly when the upload succeeds with a session |
| Webcam.FinishStep | update-webcams.py:74-78 | the file is gone afterwards and no other file changes |
| Webcam.ProcessSpec | update-webcams.py:80-87 | on every path the final temporary file is removed; a transfer only with a session and a successful end; a failed download is re-raised before gm runs |
| Webcam.WebcamProcessor.constructor | update-webcams.py:18-28 | the processor keeps its settings and owns a new empty temporary file with the extension as suffix |
| Webcam.WebcamProcessor.IsValidFile | update-webcams.py:30-34 | the file is valid exactly when it exists and is not empty |
| Webcam.WebcamProcessor.Download | update-webcams.py:36-41 | the temporary file receives the image, or URLError is re-raised with nothing changed |
| Webcam.WebcamProcessor.Archive | update-webcams.py:43-51 | a dated copy is made only when the archive directory is truthy and the download is valid |
| Webcam.WebcamProcessor.Paint | update-webcams.py:53-67 | gm draws the label onto the current file into a new temporary file; on success that file replaces the old one, and on failure both remain |
| Webcam.WebcamProcessor.Upload | update-webcams.py:69-72 | with a session the current file is sent as `STOR <name>`; without one nothing happens |
| Webcam.WebcamProcessor.Finish | update-webcams.py:74-78 | the current temporary file is removed, and a missing file is ignored |
| Webcam.WebcamProcessor.Process | update-webcams.py:80-87 | the filesystem, final temporary file, status, gm calls, temporary files and FTP record are those of the steps run in order up to the first exception, followed by finish |
| Webcam.DownloadFailureSkipsTheRest | update-webcams.py:80-87 | a failed download is re-raised; nothing is archived, drawn or sent, and only the temporary file is gone |
| Webcam.ProcessRemovesTemp | update-webcams.py:74-87 | on every path neither the first temporary file nor the final one survives |
| Webcam.ProcessLeaksOnGmFailure | update-webcams.py:53-67 | the second temporary file survives exactly when paint ran and gm did not draw, and it is then empty |
| Webcam.PaintRunsAfterDownloadAndArchive | update-webcams.py:80-87 | gm is called exactly when the download succeeded and archiving did not raise, on the downloaded file with the camera's label |
| Webcam.ArchiveHoldsDownload | update-webcams.py:43-51 | with an archive directory and a non-empty download, the archive copy holds the unlabelled download |
| Webcam.ProcessTouchesOnlyItsFiles | update-webcams.py:43-87 | no file other than the two temporary files and the archive target is created, removed or changed |
| Webcam.UploadSendsCurrentImage | update-webcams.py:69-72 | a transfer happens exactly when paint ran without an escaping error, a session exists and the server accepts; it carries the labelled image if gm drew and the plain one if not; without a session no transfer error occurs |
| Webcam.GmFailureIsNotFatal | update-webcams.py:61-67 | after a gm failure the unlabelled file stays current and process ends as the upload does: FtpError exactly when a session exists and the server refuses |
| Webcam.GmNotStartedEndsProcess | update-webcams.py:59-65 | a gm that cannot be started makes process raise FileNotFoundError with nothing uploaded, the first temporary file removed and the second left behind |
| Scheduler.SettingsOf | update-webcams.py:115-118 | archive directory and label pattern are set exactly when configured, and then to the configured values; the URL pattern is the configured one, or `http://{}` when none is given |
| Scheduler.Resolve | update-webcams.py:126-141 | a missing `url` and `host` raises KeyError('host') before anything else is read; otherwise a missing title is the KeyError; only `host`, `title` or `filename` can be missing |
| Scheduler.DefaultUrl | update-webcams.py:118 | under the default URL pattern a camera's host becomes `http://<host>` |
| Scheduler.CheckCredentials | update-webcams.py:111-114 | the check passes exactly when a host name comes with both user name and password; otherwise it raises AttributeError, never exit 64 |
| Scheduler.FindSection | update-webcams.py:110 | the general section is found exactly when a section of that name exists, and it is that section's keys |
| Scheduler.CameraSections | update-webcams.py:124 | the cameras are exactly the sections not named `general` |
| Scheduler.CameraSectionsConcat | update-webcams.py:124 | the filter keeps the configuration file's order |
| Scheduler.ResolveUsesSection | update-webcams.py:126-141 | a camera is built exactly when its section has a title, a file name and a url or host; its URL, archive directory, extension, label pattern and timestamp come from the section, the general settings and the constructor's defaults |
| Scheduler.ProcessCamera | update-webcams.py:125-147 | a missing title is fatal; another missing key is logged with nothing changed; otherwise the host ends as ProcessSpec says from a fresh temporary file, any exception is logged, the uploads are added to the session, and the temporary files and gm runs are recorded |
| Scheduler.PassCoversAllCameras | update-webcams.py:124-147 | when every section has a title, every camera gets its turn and none is fatal |
| Scheduler.RunPass | update-webcams.py:124-147 | the cameras run in order, each turn taking the filesystem from where the previous one left it as that camera's ProcessCamera turn does, the uploads are the turns' uploads in order, and the pass stops exactly at the first camera without a title, with KeyError('title') |
| Scheduler.GetFtp | update-webcams.py:93-95 | a session is opened only when a host name is configured; a failed login raises |
| Scheduler.FullPassEnd | update-webcams.py:124-148 | a pass is complete exactly when it is empty or its last turn was not fatal, whatever the number of results |
| Scheduler.UntitledLastSection | update-webcams.py:143-148 | a pass whose last section has no title ends the script with KeyError('title') although every camera had its turn |
| Scheduler.PassEnding | update-webcams.py:121-154 | the loop goes on exactly when the login succeeded, the pass was complete, an FTP host is set and the interval is positive and not exceeded; FtpError exactly when a configured login is refused |
| Scheduler.OnePass | update-webcams.py:122-154 | a failed login raises FtpError before the pass and changes nothing; the pass's turns take the filesystem from before the pass to after it as Steps states; the outcome is PassEnding's: a pass ended by a title-less camera ends the script, after a complete pass `ftp.quit()` on None raises AttributeError, no interval stops cleanly, and otherwise the script sleeps `interval - elapsed` or raises ValueError when that is negative |
| Scheduler.ServeEnds | update-webcams.py:121-154 | after passes that all went on, a pass that does not go on ends the loop as Ended states, with its own results in the log unless its login was refused |
| Scheduler.ServeRuns | update-webcams.py:121-154 | a loop that went on after every pass is running, as Ended states |
| Scheduler.LoopGoesOn | update-webcams.py:121-154 | every logged pass had a successful login; a logged pass that goes on is followed by its sleep of `interval - elapsed` and by the next pass, unless that login is refused |
| Scheduler.Serve | update-webcams.py:121-154 | the passes' turns chain the filesystem from before the loop to after it (Passes); and the ending is as Ended states: a pass runs once the login succeeds; only the last pass can be incomplete, and an incomplete pass ends the script with KeyError('title'); without an FTP host the first complete pass ends it with AttributeError; with a host and no interval it ends cleanly after one pass; each sleep is `interval - elapsed`; ValueError exactly when a complete pass overran a positive interval; FtpError exactly when the next login is refused; pass by pass, each pass before the last sleep was complete and went on, and the loop ends as its last pass does |
| Scheduler.Run | update-webcams.py:98-158 | a missing general section or a half-given login ends the script before any pass with nothing changed; past those checks the passes and the ending are as Serve states for the camera sections and the general settings |

## Left out

- The network, the FTP protocol and `gm` itself: their results are parameters
  (`FetchOutcome`, `GmOutcome`, the STOR verdict, the login outcome).
- File contents: a file is its size in bytes. The drawing and the bytes on
  the wire are not modelled.
- `os.makedirs` and directories: the archive directory tree is taken to
  exist or be creatable. Errors from creating it are not modelled.
- Operating-system errors other than the ones named in `Outcomes`: an
  `OSError` from `copyfile` itself, such as a full disk or a refused
  permission (update-webcams.py:50), which would skip `paint` and `upload`,
  and errors from `os.unlink` other than `FileNotFoundError`
  (update-webcams.py:63, 76). `Host.Host.CopyFile` fails only on a missing
  source or on the same file, and `Host.Host.Unlink` only on a missing file.
- Reading the INI file: `sys.argv`, the existence check, `ConfigParser` and
  its DEFAULT-section merging. The sections arrive already parsed, with the
  `interval` already converted to an integer; `getint` on a non-number is
  not modelled.
- `verbose` and every `print`: they only write to the console. Reading
  `cam['title']` inside the verbose branch does not change which camera is
  fatal, because the handler reads it too.
- Time: the clock and `time.monotonic()` are parameters. Elapsed time is a
  whole number of seconds, not a float.
- strftime directives other than `%Y %m %d %H %M %S %%`, which are copied
  as written. The year is zero-padded to four digits, which glibc does not
  do for years below 1000. Locale-dependent directives are not modelled.
- Partial writes by `urlretrieve` before a failure. A failed download leaves
  the temporary file as it was.
- Exceptions raised by `ftp.quit()`, by `mkstemp`, or by `KeyboardInterrupt`.
- Scheduler.Serve: the loop runs forever in the script; here it runs once
  per element of `passes`, and `Running` says it would go on.
- Host.Host.Convert: a gm that fails or cannot be started is taken to write
  nothing to its output file, so the leaked second temporary file is empty.
