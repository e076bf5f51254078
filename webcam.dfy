/** One camera's pass through the pipeline: `WebcamProcessor` downloads the
    image into a temporary file, archives a dated copy, draws the label with
    `gm`, uploads the result over FTP and always removes its temporary file.

    `ProcessSpec` is the pipeline as a function of the filesystem and of the
    outside world's answers; the class's methods are proved to do what its
    steps say, and the lemmas below state what the pipeline guarantees. */
module Webcam {
  import opened Outcomes
  import opened Text
  import opened Clock
  import opened Host

  const DEFAULT_EXT: string := "jpg"

  /** The settings one WebcamProcessor is built with; `hasFtp` says whether
      it was handed an FTP session. */
  datatype Camera = Camera(title: string, name: string, url: string, archiveDir: Option<string>,
                           ext: string, labelPattern: string, ts: Timestamp, hasFtp: bool)

  /** The outside world's answers during one `process` call. */
  datatype Answers = Answers(fetch: FetchOutcome, draw: GmOutcome, accepted: bool)

  /** `self.archive_dir` is truthy: set and not empty. */
  predicate ArchiveDirSet(c: Camera) {
    c.archiveDir.Some? && c.archiveDir.value != ""
  }

  function TargetOf(c: Camera): string
    requires ArchiveDirSet(c)
  {
    ArchiveTarget(c.archiveDir.value, c.name, c.ts, c.ext)
  }

  function LabelOf(c: Camera): string {
    Label(c.labelPattern, c.ts, c.title)
  }

  /** `is_valid_file`: the file exists and is not empty. */
  predicate IsValid(files: map<string, nat>, tmp: string) {
    tmp in files && files[tmp] > 0
  }

  /** The condition under which `archive` copies the file. */
  predicate Archives(c: Camera, files: map<string, nat>, tmp: string) {
    ArchiveDirSet(c) && IsValid(files, tmp)
  }

  /** `f` and `g` agree on whether `p` exists and on its contents. */
  predicate Keeps(f: map<string, nat>, g: map<string, nat>, p: string) {
    (p in f <==> p in g) && (p in f ==> f[p] == g[p])
  }

  // The steps, each as the change it makes to the filesystem and how it ends.

  /** `download`: the temporary file receives the image, or URLError is
      re-raised; no other file changes. */
  function DownloadStep(files: map<string, nat>, tmp: string, fetch: FetchOutcome): (r: (map<string, nat>, Status))
    ensures r.1 == Ok <==> fetch.Fetched?
    ensures r.1 == Ok ==> tmp in r.0 && r.0[tmp] == fetch.size
    ensures forall p :: p != tmp ==> Keeps(files, r.0, p)
  {
    match fetch
    case Fetched(size) => (files[tmp := size], Ok)
    case FetchFailed => (files, Raised(URLError))
  }

  /** `archive`: a dated copy of a valid download when the archive directory
      is set; the target is the only file that can change. */
  function ArchiveStep(c: Camera, files: map<string, nat>, tmp: string): (r: (map<string, nat>, Status))
    ensures !Archives(c, files, tmp) ==> r == (files, Ok)
    ensures r.1 == Ok && Archives(c, files, tmp) ==> TargetOf(c) in r.0 && r.0[TargetOf(c)] == files[tmp]
    ensures forall p :: (ArchiveDirSet(c) ==> p != TargetOf(c)) ==> Keeps(files, r.0, p)
  {
    if !Archives(c, files, tmp) then (files, Ok)
    else if TargetOf(c) == tmp then (files, Raised(SameFileError(tmp)))
    else (files[TargetOf(c) := files[tmp]], Ok)
  }

  /** `paint` with `second` the second temporary file: the filesystem, the
      new `self.tmp` and how it ended. */
  function PaintStep(files: map<string, nat>, tmp: string, second: string, draw: GmOutcome): (r: (map<string, nat>, string, Status))
    ensures r.1 == tmp || r.1 == second
    ensures second != tmp ==> second in r.0 && (r.1 == second <==> draw.Drawn? && tmp in files)
    ensures r.2.Raised? ==> !draw.GmFailed?
    ensures forall p :: p != tmp && p != second ==> Keeps(files, r.0, p)
  {
    var created := files[second := 0];
    match draw
    case GmFailed(_) => (created, tmp, Ok)
    case GmNotStarted => (created, tmp, Raised(FileNotFoundError(GM)))
    case Drawn(size) =>
      if tmp in created then (created[second := size] - {tmp}, second, Ok)
      else (created[second := size], tmp, Raised(FileNotFoundError(tmp)))
  }

  /** `upload`: how it ended and the bytes the server accepted, if any. */
  function UploadStep(c: Camera, files: map<string, nat>, tmp: string, accepted: bool): (r: (Status, Option<nat>))
    ensures !c.hasFtp ==> r == (Ok, None)
    ensures r.1.Some? <==> r.0 == Ok && c.hasFtp
    ensures r.1.Some? ==> tmp in files && r.1.value == files[tmp]
  {
    if !c.hasFtp then (Ok, None)
    else if tmp !in files then (Raised(FileNotFoundError(tmp)), None)
    else if accepted then (Ok, Some(files[tmp]))
    else (Raised(FtpError), None)
  }

  /** `finish`: the file is gone, whether or not it existed. */
  function FinishStep(files: map<string, nat>, tmp: string): (r: map<string, nat>)
    ensures tmp !in r
    ensures forall p :: p != tmp ==> Keeps(files, r, p)
  {
    files - {tmp}
  }

  /** What one `process` call leaves behind: the filesystem, the final
      `self.tmp`, how it ended, the gm invocation and the upload. */
  datatype Effect = Effect(files: map<string, nat>, tmp: string, status: Status,
                           drawn: Option<GmCall>, uploaded: Option<nat>)

  /** `process`: the steps in order, the first exception skips the rest, and
      `finish` runs on every path. */
  function ProcessSpec(c: Camera, files: map<string, nat>, tmp: string, second: string, a: Answers): (e: Effect)
    ensures e.tmp !in e.files
    ensures e.uploaded.Some? ==> e.status == Ok && c.hasFtp
    ensures a.fetch.FetchFailed? ==> e.status == Raised(URLError) && e.drawn.None?
  {
    var (f1, s1) := DownloadStep(files, tmp, a.fetch);
    if s1.Raised? then Effect(FinishStep(f1, tmp), tmp, s1, None, None)
    else
      var (f2, s2) := ArchiveStep(c, f1, tmp);
      if s2.Raised? then Effect(FinishStep(f2, tmp), tmp, s2, None, None)
      else
        var (f3, t3, s3) := PaintStep(f2, tmp, second, a.draw);
        var call := Some(GmCall(tmp, LabelOf(c), second));
        if s3.Raised? then Effect(FinishStep(f3, t3), t3, s3, call, None)
        else
          var (s4, sent) := UploadStep(c, f3, t3, a.accepted);
          Effect(FinishStep(f3, t3), t3, s4, call, sent)
  }

  /** The second temporary file is a name no file had when `paint` ran. */
  predicate FreshFor(c: Camera, files: map<string, nat>, tmp: string, second: string, a: Answers) {
    second !in ArchiveStep(c, DownloadStep(files, tmp, a.fetch).0, tmp).0
  }

  /** A download error is re-raised, and nothing is archived, drawn or
      uploaded; only the temporary file is gone. */
  lemma DownloadFailureSkipsTheRest(c: Camera, files: map<string, nat>, tmp: string, second: string, a: Answers)
    requires a.fetch.FetchFailed?
    ensures ProcessSpec(c, files, tmp, second, a) == Effect(files - {tmp}, tmp, Raised(URLError), None, None)
  {
  }

  /** `finish` runs on every path: neither the first temporary file nor the
      final `self.tmp` survives `process`. */
  lemma ProcessRemovesTemp(c: Camera, files: map<string, nat>, tmp: string, second: string, a: Answers)
    requires ProcessSpec(c, files, tmp, second, a).drawn.Some? ==> FreshFor(c, files, tmp, second, a)
    ensures var e := ProcessSpec(c, files, tmp, second, a);
      e.tmp !in e.files && tmp !in e.files && (e.tmp == tmp || e.tmp == second)
  {
    var (f1, s1) := DownloadStep(files, tmp, a.fetch);
    if s1 == Ok {
      var (f2, s2) := ArchiveStep(c, f1, tmp);
      if s2 == Ok {
        var (f3, t3, s3) := PaintStep(f2, tmp, second, a.draw);
        assert t3 == second ==> tmp !in f3;
        assert t3 == tmp || t3 == second;
      }
    }
  }

  /** The second temporary file outlives `process` exactly when `paint`
      ran and gm did not draw, whether it failed or could not be started;
      it is left behind empty. */
  lemma ProcessLeaksOnGmFailure(c: Camera, files: map<string, nat>, tmp: string, second: string, a: Answers)
    requires FreshFor(c, files, tmp, second, a)
    ensures var e := ProcessSpec(c, files, tmp, second, a);
      (second in e.files <==> e.drawn.Some? && !a.draw.Drawn?)
      && (second in e.files ==> e.files[second] == 0)
  {
  }

  /** `paint` runs exactly when the download succeeded and archiving did not
      raise, and it draws the label onto the downloaded file. */
  lemma PaintRunsAfterDownloadAndArchive(c: Camera, files: map<string, nat>, tmp: string, second: string, a: Answers)
    ensures var e := ProcessSpec(c, files, tmp, second, a);
      e.drawn.Some? <==> a.fetch.Fetched? && !(Archives(c, files[tmp := a.fetch.size], tmp) && TargetOf(c) == tmp)
    ensures var e := ProcessSpec(c, files, tmp, second, a);
      e.drawn.Some? ==> e.drawn.value == GmCall(tmp, LabelOf(c), second)
  {
  }

  /** The archive receives the downloaded image, before any label is drawn,
      when the archive directory is set and the download is not empty. */
  lemma ArchiveHoldsDownload(c: Camera, files: map<string, nat>, tmp: string, second: string, a: Answers)
    requires ProcessSpec(c, files, tmp, second, a).drawn.Some? ==> FreshFor(c, files, tmp, second, a)
    requires a.fetch.Fetched? && a.fetch.size > 0 && ArchiveDirSet(c) && TargetOf(c) != tmp
    ensures var e := ProcessSpec(c, files, tmp, second, a);
      TargetOf(c) in e.files && e.files[TargetOf(c)] == a.fetch.size
  {
    var target := TargetOf(c);
    var (f1, s1) := DownloadStep(files, tmp, a.fetch);
    var (f2, s2) := ArchiveStep(c, f1, tmp);
    assert s2 == Ok && target in f2 && f2[target] == a.fetch.size;
    var (f3, t3, s3) := PaintStep(f2, tmp, second, a.draw);
    assert second != target;
    assert Keeps(f2, f3, target) && (t3 == tmp || t3 == second);
  }

  /** Apart from the two temporary files and the archive target, no file is
      created, removed or changed; without an archive copy not even that one. */
  lemma ProcessTouchesOnlyItsFiles(c: Camera, files: map<string, nat>, tmp: string, second: string, a: Answers, p: string)
    requires p != tmp && p != second
    requires ArchiveDirSet(c) ==> p != TargetOf(c)
    ensures var e := ProcessSpec(c, files, tmp, second, a);
      (p in e.files <==> p in files) && (p in files ==> e.files[p] == files[p])
  {
    var (f1, s1) := DownloadStep(files, tmp, a.fetch);
    assert Keeps(f1, files, p);
    if s1 == Ok {
      var (f2, s2) := ArchiveStep(c, f1, tmp);
      assert Keeps(f2, files, p);
      if s2 == Ok {
        var (f3, t3, s3) := PaintStep(f2, tmp, second, a.draw);
        assert Keeps(f3, files, p) && (t3 == tmp || t3 == second);
      }
    }
  }

  /** With a session, the server receives the labelled image when gm
      succeeded and the unlabelled one when gm failed; without a session
      nothing is sent and no transfer error can occur. */
  lemma UploadSendsCurrentImage(c: Camera, files: map<string, nat>, tmp: string, second: string, a: Answers)
    requires ProcessSpec(c, files, tmp, second, a).drawn.Some? ==> FreshFor(c, files, tmp, second, a)
    ensures var e := ProcessSpec(c, files, tmp, second, a);
      e.uploaded.Some? <==> e.drawn.Some? && !a.draw.GmNotStarted? && c.hasFtp && a.accepted
    ensures var e := ProcessSpec(c, files, tmp, second, a);
      e.uploaded.Some? ==> e.uploaded.value == (if a.draw.Drawn? then a.draw.size else a.fetch.size)
    ensures var e := ProcessSpec(c, files, tmp, second, a);
      !c.hasFtp ==> e.status != Raised(FtpError)
  {
  }

  /** A gm failure is absorbed: `process` goes on to upload the unlabelled
      image and ends as the upload does. */
  lemma GmFailureIsNotFatal(c: Camera, files: map<string, nat>, tmp: string, second: string, a: Answers)
    requires ProcessSpec(c, files, tmp, second, a).drawn.Some? ==> FreshFor(c, files, tmp, second, a)
    requires a.draw.GmFailed?
    ensures var e := ProcessSpec(c, files, tmp, second, a);
      e.drawn.Some? ==> e.tmp == tmp && e.status == (if c.hasFtp && !a.accepted then Raised(FtpError) else Ok)
  {
  }

  /** A gm that cannot be started is not absorbed: its FileNotFoundError
      escapes `process` after `finish`, nothing is uploaded, and the second
      temporary file is left behind. */
  lemma GmNotStartedEndsProcess(c: Camera, files: map<string, nat>, tmp: string, second: string, a: Answers)
    requires ProcessSpec(c, files, tmp, second, a).drawn.Some? ==> FreshFor(c, files, tmp, second, a)
    requires a.draw.GmNotStarted?
    ensures var e := ProcessSpec(c, files, tmp, second, a);
      e.drawn.Some? ==> e.status == Raised(FileNotFoundError(GM)) && e.uploaded.None?
                        && tmp !in e.files && second in e.files
  {
  }

  /** The STOR record an upload leaves on the session. */
  function Sent(name: string, uploaded: Option<nat>): seq<(string, nat)> {
    match uploaded
    case Some(size) => [("STOR " + name, size)]
    case None => []
  }

  class WebcamProcessor {
    const archiveDir: Option<string>
    const ext: string
    const ftp: FtpSession?
    const labelPattern: string
    const name: string
    const title: string
    const url: string
    const ts: Timestamp
    const host: Host
    var tmp: string

    function Settings(): Camera {
      Camera(title, name, url, archiveDir, ext, labelPattern, ts, ftp != null)
    }

    /** `WebcamProcessor(title, name, url, ...)` at time `now`: creates the
        empty temporary file the pipeline owns. */
    constructor (host: Host, now: Timestamp, title: string, name: string, url: string,
                 archiveDir: Option<string> := None, ext: string := DEFAULT_EXT, ftp: FtpSession? := null,
                 labelPattern: string := DEFAULT_LABEL_PATTERN)
      modifies host
      ensures this.host == host && ts == now && this.ftp == ftp
      ensures Settings() == Camera(title, name, url, archiveDir, ext, labelPattern, now, ftp != null)
      ensures tmp !in old(host.files) && EndsWith(tmp, "." + ext)
      ensures host.files == old(host.files)[tmp := 0]
      ensures host.temps == old(host.temps) + {tmp} && host.gmCalls == old(host.gmCalls)
    {
      this.archiveDir := archiveDir;
      this.ext := ext;
      this.ftp := ftp;
      this.labelPattern := labelPattern;
      this.name := name;
      this.title := title;
      this.url := url;
      this.host := host;
      var t := host.MakeTemp("." + ext);
      this.tmp := t;
      this.ts := now;
    }

    method IsValidFile() returns (valid: bool)
      ensures valid == IsValid(host.files, tmp)
    {
      var size := host.GetSize(tmp);
      valid := size.Some? && size.value > 0;
    }

    method Download(fetch: FetchOutcome) returns (st: Status)
      modifies host
      ensures (host.files, st) == DownloadStep(old(host.files), tmp, fetch)
      ensures host.gmCalls == old(host.gmCalls) && host.temps == old(host.temps)
    {
      st := host.Retrieve(url, tmp, fetch);
    }

    method Archive() returns (st: Status)
      modifies host
      ensures (host.files, st) == ArchiveStep(Settings(), old(host.files), tmp)
      ensures host.gmCalls == old(host.gmCalls) && host.temps == old(host.temps)
    {
      st := Ok;
      if archiveDir.Some? && archiveDir.value != "" {
        var valid := IsValidFile();
        if valid {
          var target := ArchiveTarget(archiveDir.value, name, ts, ext);
          st := host.CopyFile(tmp, target);
        }
      }
    }

    method Paint(draw: GmOutcome) returns (st: Status, ghost second: string)
      modifies this, host
      ensures second !in old(host.files) && EndsWith(second, "." + ext)
      ensures (host.files, tmp, st) == PaintStep(old(host.files), old(tmp), second, draw)
      ensures host.gmCalls == old(host.gmCalls) + [GmCall(old(tmp), LabelOf(Settings()), second)]
      ensures host.temps == old(host.temps) + {second}
    {
      var out := host.MakeTemp("." + ext);
      second := out;
      var text := Strftime(labelPattern, ts);
      text := ReplaceToken(text, title);
      var drawn := host.Convert(tmp, text, out, draw);
      st := Ok;
      if drawn == Ok {
        st := host.Unlink(tmp);
        if st == Ok {
          tmp := out;
        }
      } else if !drawn.e.CalledProcessError? {
        // Only CalledProcessError is caught; an OSError escapes paint.
        st := drawn;
      }
    }

    method Upload(accepted: bool) returns (st: Status)
      modifies ftp
      ensures st == UploadStep(Settings(), host.files, tmp, accepted).0
      ensures ftp != null ==> ftp.open == old(ftp.open)
      ensures ftp != null ==>
                ftp.stored == old(ftp.stored) + Sent(name, UploadStep(Settings(), host.files, tmp, accepted).1)
    {
      st := Ok;
      if ftp != null {
        var size := host.GetSize(tmp);
        if size.None? {
          st := Raised(FileNotFoundError(tmp));
        } else {
          st := ftp.StoreBinary("STOR " + name, size.value, accepted);
        }
      }
    }

    method Finish()
      modifies host
      ensures host.files == FinishStep(old(host.files), tmp)
      ensures host.gmCalls == old(host.gmCalls) && host.temps == old(host.temps)
    {
      var _ := host.Unlink(tmp);
    }

    /** `process`: download, archive, paint and upload under try/finally. */
    method Process(a: Answers) returns (st: Status, ghost second: string)
      modifies this, host, ftp
      ensures var e := ProcessSpec(Settings(), old(host.files), old(tmp), second, a);
        && host.files == e.files && tmp == e.tmp && st == e.status
        && host.gmCalls == old(host.gmCalls) + (match e.drawn case Some(call) => [call] case None => [])
        && host.temps == old(host.temps) + (if e.drawn.Some? then {second} else {})
        && (e.drawn.Some? ==> FreshFor(Settings(), old(host.files), old(tmp), second, a))
        && (ftp != null ==> ftp.open == old(ftp.open))
        && (ftp != null ==> ftp.stored == old(ftp.stored) + Sent(name, e.uploaded))
    {
      second := tmp + "~";
      st := Download(a.fetch);
      if st == Ok {
        st := Archive();
        if st == Ok {
          st, second := Paint(a.draw);
          if st == Ok {
            st := Upload(a.accepted);
          }
        }
      }
      Finish();
    }
  }
}
