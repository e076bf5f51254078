/** The script's main loop: read the general settings, reject a half-given
    FTP login, then pass over every camera section once per interval,
    catching each camera's exception so the rest of the batch still runs.

    The loop runs until the process is stopped; here it runs for as many
    passes as the environment supplies answers for. */
module Scheduler {
  import opened Outcomes
  import opened Text
  import opened Clock
  import opened Host
  import opened Webcam

  const GENERAL: string := "general"
  const DEFAULT_URL_PATTERN: string := "http://{}"

  /** A section of the configuration file, its defaults already merged. */
  datatype Section = Section(name: string, keys: map<string, string>)

  /** The general settings the loop reads once (update-webcams.py:115-118). */
  datatype Settings = Settings(archiveDir: Option<string>, labelPattern: Option<string>, urlPattern: string)

  function SettingsOf(g: map<string, string>): (s: Settings)
    ensures s.archiveDir.Some? <==> "archive_dir" in g
    ensures s.labelPattern.Some? <==> "label_pattern" in g
    ensures "archive_dir" in g ==> s.archiveDir.value == g["archive_dir"]
    ensures "label_pattern" in g ==> s.labelPattern.value == g["label_pattern"]
    ensures s.urlPattern == if "url_pattern" in g then g["url_pattern"] else DEFAULT_URL_PATTERN
  {
    Settings(
      if "archive_dir" in g then Some(g["archive_dir"]) else None,
      if "label_pattern" in g then Some(g["label_pattern"]) else None,
      if "url_pattern" in g then g["url_pattern"] else DEFAULT_URL_PATTERN)
  }

  /** A host fragment under the default URL pattern becomes an http URL. */
  lemma DefaultUrl(host: string)
    ensures ReplaceToken(DEFAULT_URL_PATTERN, host) == "http://" + host
  {
    NoBracesNoToken("http://");
    ReplaceTokenFirst("http://", "", host);
    assert "http://" + TOKEN + "" == DEFAULT_URL_PATTERN;
    assert "http://" + host + "" == "http://" + host;
  }

  /** The credential check of update-webcams.py:111-114. Its message is
      printed to `sys.sterr`, which does not exist, so the check raises an
      AttributeError before `sys.exit(64)` is reached. */
  function CheckCredentials(g: map<string, string>): (st: Status)
    ensures st == Ok || st == Raised(AttributeError("sterr"))
    ensures st == Ok <==> ("hostname" in g ==> "username" in g && "password" in g)
  {
    if "hostname" in g && ("username" !in g || "password" !in g) then Raised(AttributeError("sterr"))
    else Ok
  }

  /** The camera sections: `filter(lambda x: 'general' != x, config.sections())`. */
  function CameraSections(sections: seq<Section>): (cams: seq<Section>)
    ensures |cams| <= |sections|
    ensures forall s :: s in cams <==> s in sections && s.name != GENERAL
  {
    if sections == [] then []
    else if sections[0].name == GENERAL then CameraSections(sections[1..])
    else [sections[0]] + CameraSections(sections[1..])
  }

  /** The filter keeps the order of the configuration file: filtering a
      concatenation filters each part in turn. */
  lemma {:induction false} CameraSectionsConcat(a: seq<Section>, b: seq<Section>)
    ensures CameraSections(a + b) == CameraSections(a) + CameraSections(b)
  {
    if a == [] {
      assert a + b == b;
    } else {
      var rest := CameraSections(a[1..] + b);
      assert (a + b)[0] == a[0] && (a + b)[1..] == a[1..] + b;
      assert CameraSections(a + b) == if a[0].name == GENERAL then rest else [a[0]] + rest;
      CameraSectionsConcat(a[1..], b);
      assert rest == CameraSections(a[1..]) + CameraSections(b);
    }
  }

  /** The camera a section describes, or the first key whose absence raises
      a KeyError (update-webcams.py:126-141). */
  datatype Resolution = Resolved(camera: Camera) | Missing(key: string)

  function Resolve(cam: map<string, string>, s: Settings, hasFtp: bool, now: Timestamp): (r: Resolution)
    ensures r == Missing("host") <==> "url" !in cam && "host" !in cam
    ensures r == Missing("title") <==> ("url" in cam || "host" in cam) && "title" !in cam
    ensures r.Missing? ==> r.key == "host" || r.key == "title" || r.key == "filename"
  {
    if "url" !in cam && "host" !in cam then Missing("host")
    else if "title" !in cam then Missing("title")
    else if "filename" !in cam then Missing("filename")
    else
      var url := if "url" in cam then cam["url"] else ReplaceToken(s.urlPattern, cam["host"]);
      var archiveDir := if s.archiveDir.Some? && s.archiveDir.value != "" then s.archiveDir else None;
      var ext := if "ext" in cam then cam["ext"] else DEFAULT_EXT;
      var pattern := if s.labelPattern.Some? && s.labelPattern.value != "" then s.labelPattern.value
                     else DEFAULT_LABEL_PATTERN;
      Resolved(Camera(cam["title"], cam["filename"], url, archiveDir, ext, pattern, now, hasFtp))
  }

  /** A section resolves exactly when it names a title, a file name and a
      source; the processor is then built from the section, with the
      general settings filling in what the section leaves out. */
  lemma ResolveUsesSection(cam: map<string, string>, s: Settings, hasFtp: bool, now: Timestamp)
    ensures Resolve(cam, s, hasFtp, now).Resolved?
            <==> "title" in cam && "filename" in cam && ("url" in cam || "host" in cam)
    ensures var r := Resolve(cam, s, hasFtp, now);
      r.Resolved? ==>
        && r.camera.title == cam["title"] && r.camera.name == cam["filename"] && r.camera.ts == now
        && r.camera.url == (if "url" in cam then cam["url"] else ReplaceToken(s.urlPattern, cam["host"]))
        && (ArchiveDirSet(r.camera) <==> s.archiveDir.Some? && s.archiveDir.value != "")
        && (ArchiveDirSet(r.camera) ==> TargetOf(r.camera) == ArchiveTarget(s.archiveDir.value, cam["filename"], now, r.camera.ext))
        && r.camera.hasFtp == hasFtp
        && r.camera.ext == (if "ext" in cam then cam["ext"] else DEFAULT_EXT)
        && r.camera.labelPattern == (if s.labelPattern.Some? && s.labelPattern.value != "" then s.labelPattern.value
                                     else DEFAULT_LABEL_PATTERN)
  {
  }

  /** How one camera's turn in the loop ended: processed, its exception
      caught and logged, or an exception that escaped the handler. */
  datatype CameraResult = Processed | Logged(e: Exception) | Fatal(e: Exception)

  /** The answers the outside world gives during one camera's turn. */
  datatype CameraAnswers = CameraAnswers(now: Timestamp, answers: Answers)

  /** One camera's turn as a relation between the filesystem before and
      after it: `first` and `second` are the processor's two temporary files
      and `sent` the STOR records the turn added. */
  predicate CameraStep(cam: map<string, string>, s: Settings, hasFtp: bool, ca: CameraAnswers,
                       before: map<string, nat>, after: map<string, nat>, first: string, second: string,
                       sent: seq<(string, nat)>, r: CameraResult)
  {
    match Resolve(cam, s, hasFtp, ca.now)
    case Missing(key) =>
      && after == before && sent == []
      && r == (if "title" in cam then Logged(KeyError(key)) else Fatal(KeyError("title")))
    case Resolved(c) =>
      var e := ProcessSpec(c, before[first := 0], first, second, ca.answers);
      && first !in before
      && (e.drawn.Some? ==> FreshFor(c, before[first := 0], first, second, ca.answers))
      && after == e.files && sent == Sent(c.name, e.uploaded)
      && r == (if e.status == Ok then Processed else Logged(e.status.e))
  }

  /** One iteration of `for k in ...` (update-webcams.py:125-147). The
      handler prints `cam['title']`, so a section without a title raises a
      second KeyError that no handler catches. */
  method ProcessCamera(cam: map<string, string>, s: Settings, ftp: FtpSession?, host: Host, ca: CameraAnswers)
    returns (r: CameraResult, ghost first: string, ghost second: string, ghost sent: seq<(string, nat)>)
    modifies host, ftp
    ensures r.Fatal? <==> "title" !in cam
    ensures r.Fatal? ==> r.e == KeyError("title")
    ensures CameraStep(cam, s, ftp != null, ca, old(host.files), host.files, first, second, sent, r)
    ensures ftp != null ==> ftp.stored == old(ftp.stored) + sent && ftp.open == old(ftp.open)
    // The temporary files made and the gm runs, which CameraStep does not track.
    ensures match Resolve(cam, s, ftp != null, ca.now)
      case Missing(_) =>
        host.temps == old(host.temps) && host.gmCalls == old(host.gmCalls)
      case Resolved(c) =>
        var e := ProcessSpec(c, old(host.files)[first := 0], first, second, ca.answers);
        && host.temps == old(host.temps) + {first} + (if e.drawn.Some? then {second} else {})
        && host.gmCalls == old(host.gmCalls) + (match e.drawn case Some(call) => [call] case None => [])
  {
    first, second, sent := "", "", [];
    ghost var before := host.files;
    match Resolve(cam, s, ftp != null, ca.now)
    case Missing(key) =>
      r := if "title" in cam then Logged(KeyError(key)) else Fatal(KeyError("title"));
    case Resolved(c) =>
      var p := new WebcamProcessor(host, ca.now, c.title, c.name, c.url, c.archiveDir, c.ext, ftp, c.labelPattern);
      first := p.tmp;
      var st;
      st, second := p.Process(ca.answers);
      ghost var e := ProcessSpec(c, before[first := 0], first, second, ca.answers);
      assert host.files == e.files && st == e.status;
      sent := Sent(c.name, e.uploaded);
      r := if st == Ok then Processed else Logged(st.e);
  }

  /** The cameras' turns in one pass stop at the first fatal one. */
  predicate PassShape(cams: seq<Section>, results: seq<CameraResult>) {
    && |results| <= |cams|
    && (forall i :: 0 <= i < |results| ==> (results[i].Fatal? <==> "title" !in cams[i].keys))
    && (forall i :: 0 <= i < |results| - 1 ==> !results[i].Fatal?)
    && (|results| < |cams| ==> results != [] && results[|results| - 1].Fatal?)
  }

  /** Every camera had its turn and none raised past the handler. */
  predicate FullPass(cams: seq<Section>, results: seq<CameraResult>) {
    |results| == |cams| && forall k :: 0 <= k < |results| ==> !results[k].Fatal?
  }

  /** A pass is complete exactly when it did not end on a fatal turn; a
      last section without a title still ends the script, even though the
      pass has as many results as there are cameras. */
  lemma FullPassEnd(cams: seq<Section>, results: seq<CameraResult>)
    requires PassShape(cams, results)
    ensures FullPass(cams, results) <==> results == [] || !results[|results| - 1].Fatal?
  {
  }

  /** When every section names a title, every camera gets its turn in every
      pass, however many of them fail. */
  lemma PassCoversAllCameras(cams: seq<Section>, results: seq<CameraResult>)
    requires PassShape(cams, results)
    requires forall i :: 0 <= i < |cams| ==> "title" in cams[i].keys
    ensures |results| == |cams|
    ensures forall i :: 0 <= i < |results| ==> !results[i].Fatal?
  {
  }

  /** Turn `k` of a pass took the filesystem from `snaps[k]` to
      `snaps[k + 1]`, as CameraStep says. */
  predicate Steps(cams: seq<Section>, s: Settings, hasFtp: bool, answers: seq<CameraAnswers>,
                  results: seq<CameraResult>, snaps: seq<map<string, nat>>, firsts: seq<string>,
                  seconds: seq<string>, sents: seq<seq<(string, nat)>>)
  {
    && |results| <= |cams| && |results| <= |answers|
    && |snaps| == |results| + 1 && |firsts| == |results| && |seconds| == |results| && |sents| == |results|
    && forall k :: 0 <= k < |results| ==>
         CameraStep(cams[k].keys, s, hasFtp, answers[k], snaps[k], snaps[k + 1], firsts[k], seconds[k], sents[k], results[k])
  }

  lemma StepsSnoc(cams: seq<Section>, s: Settings, hasFtp: bool, answers: seq<CameraAnswers>,
                  results: seq<CameraResult>, snaps: seq<map<string, nat>>, firsts: seq<string>,
                  seconds: seq<string>, sents: seq<seq<(string, nat)>>,
                  r: CameraResult, after: map<string, nat>, first: string, second: string, sent: seq<(string, nat)>)
    requires Steps(cams, s, hasFtp, answers, results, snaps, firsts, seconds, sents)
    requires |results| < |cams| && |results| < |answers|
    requires CameraStep(cams[|results|].keys, s, hasFtp, answers[|results|], snaps[|results|], after, first, second, sent, r)
    ensures Steps(cams, s, hasFtp, answers, results + [r], snaps + [after], firsts + [first], seconds + [second], sents + [sent])
  {
    var i := |results|;
    forall k | 0 <= k < i + 1
      ensures CameraStep(cams[k].keys, s, hasFtp, answers[k], (snaps + [after])[k], (snaps + [after])[k + 1],
                         (firsts + [first])[k], (seconds + [second])[k], (sents + [sent])[k], (results + [r])[k])
    {
      if k < i {
        assert (snaps + [after])[k] == snaps[k] && (snaps + [after])[k + 1] == snaps[k + 1];
        assert (firsts + [first])[k] == firsts[k] && (seconds + [second])[k] == seconds[k];
        assert (sents + [sent])[k] == sents[k] && (results + [r])[k] == results[k];
      }
    }
  }

  /** The records of several turns, one after another. */
  function Flatten<T>(parts: seq<seq<T>>): (all: seq<T>)
    ensures parts == [] ==> all == []
  {
    if parts == [] then [] else Flatten(parts[..|parts| - 1]) + parts[|parts| - 1]
  }

  /** One pass of the `for` loop over the camera sections, in order: each
      camera's turn starts from the filesystem the previous one left, and
      the pass ends at the first fatal turn. */
  method RunPass(cams: seq<Section>, s: Settings, ftp: FtpSession?, host: Host, answers: seq<CameraAnswers>)
    returns (results: seq<CameraResult>, ghost snaps: seq<map<string, nat>>, ghost firsts: seq<string>,
             ghost seconds: seq<string>, ghost sents: seq<seq<(string, nat)>>)
    requires |answers| == |cams|
    modifies host, ftp
    ensures PassShape(cams, results)
    ensures forall k :: 0 <= k < |results| && results[k].Fatal? ==> results[k].e == KeyError("title")
    ensures Steps(cams, s, ftp != null, answers, results, snaps, firsts, seconds, sents)
    ensures snaps[0] == old(host.files) && snaps[|results|] == host.files
    ensures ftp != null ==> ftp.open == old(ftp.open) && ftp.stored == old(ftp.stored) + Flatten(sents)
  {
    results, snaps, firsts, seconds, sents := [], [host.files], [], [], [];
    var i := 0;
    while i < |cams|
      invariant 0 <= i <= |cams| && |results| == i
      invariant forall k :: 0 <= k < i ==> !results[k].Fatal? && "title" in cams[k].keys
      invariant Steps(cams, s, ftp != null, answers, results, snaps, firsts, seconds, sents)
      invariant snaps[0] == old(host.files) && snaps[i] == host.files
      invariant ftp != null ==> ftp.open == old(ftp.open) && ftp.stored == old(ftp.stored) + Flatten(sents)
    {
      var r, first, second, sent := ProcessCamera(cams[i].keys, s, ftp, host, answers[i]);
      StepsSnoc(cams, s, ftp != null, answers, results, snaps, firsts, seconds, sents, r, host.files, first, second, sent);
      results := results + [r];
      snaps := snaps + [host.files];
      firsts := firsts + [first];
      seconds := seconds + [second];
      assert Flatten(sents + [sent]) == Flatten(sents) + sent by {
        assert (sents + [sent])[..|sents|] == sents;
      }
      sents := sents + [sent];
      if r.Fatal? {
        return;
      }
      i := i + 1;
    }
  }

  /** The answers for one pass: whether the FTP login succeeds, each camera's
      answers, and how many seconds the pass took. */
  datatype PassAnswers = PassAnswers(connected: bool, cameras: seq<CameraAnswers>, elapsed: int)

  /** How the script ended: after its single pass, by an exception, or not
      at all within the passes modelled. */
  datatype Ending = SinglePass | Crashed(e: Exception) | Running

  /** `get_ftp(g)`: a session when a host name is configured. */
  method GetFtp(g: map<string, string>, connected: bool) returns (ftp: FtpSession?, st: Status)
    ensures "hostname" !in g ==> ftp == null && st == Ok
    ensures "hostname" in g && "username" in g && "password" in g ==>
      if connected then st == Ok && ftp != null && fresh(ftp) && ftp.open && ftp.stored == []
      else st == Raised(FtpError) && ftp == null
    ensures "hostname" in g && "username" !in g ==> st == Raised(KeyError("username")) && ftp == null
    ensures "hostname" in g && "username" in g && "password" !in g ==> st == Raised(KeyError("password")) && ftp == null
  {
    ftp, st := null, Ok;
    if "hostname" in g {
      if "username" !in g {
        st := Raised(KeyError("username"));
      } else if "password" !in g {
        st := Raised(KeyError("password"));
      } else if connected {
        ftp := new FtpSession();
      } else {
        st := Raised(FtpError);
      }
    }
  }

  function FindSection(sections: seq<Section>, name: string): (r: Option<map<string, string>>)
    ensures r.Some? <==> exists i :: 0 <= i < |sections| && sections[i].name == name
    ensures r.Some? ==> exists i :: 0 <= i < |sections| && sections[i] == Section(name, r.value)
  {
    if sections == [] then None
    else if sections[0].name == name then Some(sections[0].keys)
    else
      var r := FindSection(sections[1..], name);
      assert forall i :: 1 <= i < |sections| ==> sections[i] == sections[1..][i - 1];
      r
  }

  /** What one pass did to the filesystem: the snapshots between its
      cameras' turns, their temporary files and their STOR records. */
  datatype PassTrace = PassTrace(snaps: seq<map<string, nat>>, firsts: seq<string>,
                                 seconds: seq<string>, sents: seq<seq<(string, nat)>>)

  /** Pass `k` ran the turns `log[k]` as Steps states, each pass starting
      from the filesystem the one before it left: the first starts from
      `start` and the last leaves `end`. */
  predicate Passes(cams: seq<Section>, s: Settings, hasFtp: bool, passes: seq<PassAnswers>,
                   log: seq<seq<CameraResult>>, trace: seq<PassTrace>, start: map<string, nat>, end: map<string, nat>)
    decreases |log|
  {
    && |trace| == |log| && |log| <= |passes|
    && if log == [] then end == start
       else
         var n := |log| - 1;
         && Steps(cams, s, hasFtp, passes[n].cameras, log[n], trace[n].snaps, trace[n].firsts, trace[n].seconds, trace[n].sents)
         && trace[n].snaps[|log[n]|] == end
         && Passes(cams, s, hasFtp, passes, log[..n], trace[..n], start, trace[n].snaps[0])
  }

  lemma PassesSnoc(cams: seq<Section>, s: Settings, hasFtp: bool, passes: seq<PassAnswers>,
                   log: seq<seq<CameraResult>>, trace: seq<PassTrace>, start: map<string, nat>, mid: map<string, nat>,
                   results: seq<CameraResult>, t: PassTrace, end: map<string, nat>)
    requires Passes(cams, s, hasFtp, passes, log, trace, start, mid)
    requires |log| < |passes|
    requires Steps(cams, s, hasFtp, passes[|log|].cameras, results, t.snaps, t.firsts, t.seconds, t.sents)
    requires t.snaps[0] == mid && t.snaps[|results|] == end
    ensures Passes(cams, s, hasFtp, passes, log + [results], trace + [t], start, end)
  {
    assert (log + [results])[..|log|] == log && (trace + [t])[..|trace|] == trace;
  }

  /** How one pass of the loop ends, from whether the general section names
      an FTP host, the pass's answers and its camera results: `Running`
      when the loop sleeps and goes on. */
  function PassEnding(hasHost: bool, cams: seq<Section>, interval: int, pa: PassAnswers, results: seq<CameraResult>): (next: Ending)
    ensures next == Running <==> hasHost && pa.connected && FullPass(cams, results) && interval > 0 && interval - pa.elapsed >= 0
    ensures next == Crashed(FtpError) <==> hasHost && !pa.connected
  {
    if hasHost && !pa.connected then Crashed(FtpError)
    else if !FullPass(cams, results) then Crashed(KeyError("title"))
    else if !hasHost then Crashed(AttributeError("quit"))
    else if interval <= 0 then SinglePass
    else if interval - pa.elapsed < 0 then Crashed(ValueError)
    else Running
  }

  /** A pass whose last camera section has no title has a result for every
      camera, and still ends the script with the handler's KeyError. */
  lemma UntitledLastSection(hasHost: bool, cams: seq<Section>, interval: int, pa: PassAnswers, results: seq<CameraResult>)
    requires PassShape(cams, results) && |results| == |cams| && cams != []
    requires "title" !in cams[|cams| - 1].keys
    requires hasHost ==> pa.connected
    ensures PassEnding(hasHost, cams, interval, pa, results) == Crashed(KeyError("title"))
  {
  }

  /** How the loop ends after the passes in `log` ran, for a general section
      that does (`hasHost`) or does not name an FTP host; `sleeps` holds
      the sleeps between them. */
  predicate Ended(hasHost: bool, cams: seq<Section>, interval: int, passes: seq<PassAnswers>,
                  log: seq<seq<CameraResult>>, sleeps: seq<int>, ending: Ending)
  {
    && |log| <= |passes|
    // A pass runs once the login, if any, succeeds.
    && (passes != [] && (hasHost ==> passes[0].connected) ==> |log| >= 1)
    && (forall k :: 0 <= k < |log| ==> PassShape(cams, log[k]))
    // Only the last pass can stop short, and a pass that stops short ends the script.
    && (forall k :: 0 <= k < |log| - 1 ==> FullPass(cams, log[k]))
    && (log != [] && !FullPass(cams, log[|log| - 1]) ==> ending == Crashed(KeyError("title")))
    // Without an FTP host, `ftp.quit()` on None ends the script after its first full pass.
    && (!hasHost && log != [] && FullPass(cams, log[0]) ==> ending == Crashed(AttributeError("quit")))
    && (!hasHost ==> |log| <= 1)
    // With an FTP host and no interval, the script stops cleanly after one full pass.
    && (hasHost && interval <= 0 && log != [] && FullPass(cams, log[0]) ==> ending == SinglePass)
    && (interval <= 0 ==> |log| <= 1 && sleeps == [])
    && (ending == SinglePass ==> interval <= 0 && |log| == 1 && FullPass(cams, log[0]))
    // The sleeps: `interval - elapsed`, and a negative one raises ValueError.
    && |sleeps| <= |log| && (forall k :: 0 <= k < |sleeps| ==> sleeps[k] == interval - passes[k].elapsed >= 0)
    && ((log != [] && FullPass(cams, log[|log| - 1]) && hasHost && interval > 0
         && interval - passes[|log| - 1].elapsed < 0) ==> ending == Crashed(ValueError))
    && (ending == Crashed(ValueError) ==> |log| >= 1 && interval > 0 && interval - passes[|log| - 1].elapsed < 0)
    // A refused login ends the script: at the first pass, or at the pass after a full one and its sleep.
    && (ending == Crashed(FtpError) <==>
          && hasHost && |log| < |passes| && !passes[|log|].connected
          && (log == [] || (FullPass(cams, log[|log| - 1]) && interval > 0 && interval - passes[|log| - 1].elapsed >= 0)))
    // Otherwise the loop is still running after the last pass modelled.
    && (ending == Running ==> |log| == |passes| && (passes != [] ==> interval > 0))
    && (interval > 0 && ending == Running ==> |sleeps| == |passes|)
    // Pass by pass: every pass before the last sleep logged in, was complete
    // and went on; the loop stops only at a pass that does not go on, and
    // ends as that pass does.
    && Continued(hasHost, cams, interval, passes, log[..|sleeps|], sleeps)
    && (ending == Running <==> |sleeps| == |passes|)
    && (ending == Running ==> |log| == |sleeps|)
    && (ending != Running ==>
          && |log| == |sleeps| + (if ending == Crashed(FtpError) then 0 else 1)
          && ending == PassEnding(hasHost, cams, interval, passes[|sleeps|], if |log| > |sleeps| then log[|sleeps|] else []))
  }

  /** Every logged pass had its login, and a logged pass that goes on is
      followed by its sleep of `interval - elapsed` and then by the next
      pass, unless that pass's login is refused. */
  lemma LoopGoesOn(hasHost: bool, cams: seq<Section>, interval: int, passes: seq<PassAnswers>,
                   log: seq<seq<CameraResult>>, sleeps: seq<int>, ending: Ending, k: nat)
    requires Ended(hasHost, cams, interval, passes, log, sleeps, ending) && k < |log|
    ensures hasHost ==> passes[k].connected
    ensures PassEnding(hasHost, cams, interval, passes[k], log[k]) == Running ==>
      && k < |sleeps| && sleeps[k] == interval - passes[k].elapsed >= 0
      && (k + 1 < |passes| ==> k + 1 < |log| || ending == Crashed(FtpError))
  {
    if k < |sleeps| {
      assert log[..|sleeps|][k] == log[k];
    }
  }

  /** The passes before `log`'s end all went on to sleep. */
  predicate Continued(hasHost: bool, cams: seq<Section>, interval: int, passes: seq<PassAnswers>,
                      log: seq<seq<CameraResult>>, sleeps: seq<int>)
  {
    && |log| <= |passes| && |sleeps| == |log|
    && (forall k :: 0 <= k < |log| ==> PassShape(cams, log[k]) && PassEnding(hasHost, cams, interval, passes[k], log[k]) == Running)
    && (forall k :: 0 <= k < |log| ==> sleeps[k] == interval - passes[k].elapsed)
  }

  lemma ContinuedSnoc(hasHost: bool, cams: seq<Section>, interval: int, passes: seq<PassAnswers>,
                      log: seq<seq<CameraResult>>, sleeps: seq<int>, results: seq<CameraResult>)
    requires Continued(hasHost, cams, interval, passes, log, sleeps) && |log| < |passes|
    requires PassShape(cams, results) && PassEnding(hasHost, cams, interval, passes[|log|], results) == Running
    ensures Continued(hasHost, cams, interval, passes, log + [results], sleeps + [interval - passes[|log|].elapsed])
  {
    var n := |log|;
    assert forall k :: 0 <= k < n ==> (log + [results])[k] == log[k];
    assert forall k :: 0 <= k < n ==> (sleeps + [interval - passes[n].elapsed])[k] == sleeps[k];
  }

  /** A pass that does not go on ends the loop as Ended states. */
  lemma ServeEnds(hasHost: bool, cams: seq<Section>, interval: int, passes: seq<PassAnswers>,
                  log: seq<seq<CameraResult>>, sleeps: seq<int>, results: seq<CameraResult>)
    requires Continued(hasHost, cams, interval, passes, log, sleeps) && |log| < |passes|
    requires if hasHost && !passes[|log|].connected then results == [] else PassShape(cams, results)
    requires PassEnding(hasHost, cams, interval, passes[|log|], results) != Running
    ensures var ending := PassEnding(hasHost, cams, interval, passes[|log|], results);
      Ended(hasHost, cams, interval, passes, if ending == Crashed(FtpError) then log else log + [results], sleeps, ending)
  {
    assert (log + [results])[..|sleeps|] == log && (log + [results])[|sleeps|] == results;
  }

  /** A loop that went on after every pass is still running. */
  lemma ServeRuns(hasHost: bool, cams: seq<Section>, interval: int, passes: seq<PassAnswers>,
                  log: seq<seq<CameraResult>>, sleeps: seq<int>)
    requires Continued(hasHost, cams, interval, passes, log, sleeps) && |log| == |passes|
    ensures Ended(hasHost, cams, interval, passes, log, sleeps, Running)
  {
    assert log[..|sleeps|] == log;
  }

  /** The `while True` loop (update-webcams.py:121-154) for the general
      section `g`, which passed the credential check. `log` holds each
      pass's camera results, `sleeps` each sleep's length and `trace` what
      each pass did to the filesystem. */
  method Serve(g: map<string, string>, cams: seq<Section>, interval: int, passes: seq<PassAnswers>, host: Host)
    returns (ending: Ending, log: seq<seq<CameraResult>>, sleeps: seq<int>, ghost trace: seq<PassTrace>)
    requires CheckCredentials(g) == Ok
    requires forall k :: 0 <= k < |passes| ==> |passes[k].cameras| == |cams|
    modifies host
    // Each camera's turn, pass after pass, from the filesystem before the loop to the one after.
    ensures Passes(cams, SettingsOf(g), "hostname" in g, passes, log, trace, old(host.files), host.files)
    ensures Ended("hostname" in g, cams, interval, passes, log, sleeps, ending)
  {
    ending, log, sleeps, trace := Running, [], [], [];
    var settings := SettingsOf(g);
    var i := 0;
    while i < |passes|
      invariant 0 <= i <= |passes| && |log| == i && ending == Running
      invariant Continued("hostname" in g, cams, interval, passes, log, sleeps)
      invariant Passes(cams, settings, "hostname" in g, passes, log, trace, old(host.files), host.files)
    {
      ghost var mid := host.files;
      var ran, results, next, duration, t := OnePass(g, settings, cams, interval, passes[i], host);
      if ran {
        PassesSnoc(cams, settings, "hostname" in g, passes, log, trace, old(host.files), mid, results, t, host.files);
      }
      if next != Running {
        ServeEnds("hostname" in g, cams, interval, passes, log, sleeps, results);
        if ran {
          log, trace := log + [results], trace + [t];
        }
        ending := next;
        return;
      }
      ContinuedSnoc("hostname" in g, cams, interval, passes, log, sleeps, results);
      log, trace := log + [results], trace + [t];
      sleeps := sleeps + [duration];
      i := i + 1;
    }
    ServeRuns("hostname" in g, cams, interval, passes, log, sleeps);
  }

  /** One iteration of `while True` (update-webcams.py:122-154): log in,
      run the pass, quit the session and decide whether to sleep. `ran` says
      whether the pass started; `next` is `Running` when the loop goes on
      after sleeping `duration` seconds; `t` is what the pass did to the
      filesystem. */
  method OnePass(g: map<string, string>, settings: Settings, cams: seq<Section>, interval: int, pa: PassAnswers, host: Host)
    returns (ran: bool, results: seq<CameraResult>, next: Ending, duration: int, ghost t: PassTrace)
    requires CheckCredentials(g) == Ok
    requires |pa.cameras| == |cams|
    modifies host
    ensures ran <==> !("hostname" in g && !pa.connected)
    ensures next == Crashed(FtpError) <==> !ran
    ensures next == PassEnding("hostname" in g, cams, interval, pa, results)
    ensures !ran ==> results == [] && host.files == old(host.files)
    ensures ran ==> PassShape(cams, results)
    ensures ran ==> Steps(cams, settings, "hostname" in g, pa.cameras, results, t.snaps, t.firsts, t.seconds, t.sents)
    ensures ran ==> t.snaps[0] == old(host.files) && t.snaps[|results|] == host.files
    ensures ran && !FullPass(cams, results) ==> next == Crashed(KeyError("title"))
    ensures ran && FullPass(cams, results) && "hostname" !in g ==> next == Crashed(AttributeError("quit"))
    ensures ran && FullPass(cams, results) && "hostname" in g && interval <= 0 ==> next == SinglePass
    ensures ran && FullPass(cams, results) && "hostname" in g && interval > 0 ==>
      if interval - pa.elapsed < 0 then next == Crashed(ValueError)
      else next == Running && duration == interval - pa.elapsed
  {
    results, duration := [], 0;
    t := PassTrace([host.files], [], [], []);
    var ftp, st := GetFtp(g, pa.connected);
    if st.Raised? {
      ran, next := false, Crashed(st.e);
      return;
    }
    ran := true;
    var passResults, snaps, firsts, seconds, sents := RunPass(cams, settings, ftp, host, pa.cameras);
    results := passResults;
    t := PassTrace(snaps, firsts, seconds, sents);
    FullPassEnd(cams, results);
    if results != [] && results[|results| - 1].Fatal? {
      // The KeyError escapes the loop; the `finally` clause closes the session.
      if ftp != null {
        ftp.Quit();
      }
      next := Crashed(results[|results| - 1].e);
      return;
    }
    if ftp == null {
      // `ftp.quit()` on None.
      next := Crashed(AttributeError("quit"));
      return;
    }
    ftp.Quit();
    if interval <= 0 {
      next := SinglePass;
      return;
    }
    duration := interval - pa.elapsed;
    // time.sleep refuses a negative duration.
    next := if duration < 0 then Crashed(ValueError) else Running;
  }

  /** The whole script after the configuration is parsed (update-webcams.py:98-158):
      `interval` is `g.getint('interval', 0)`, and `passes` holds the answers
      for each pass the process lives to start. */
  method Run(sections: seq<Section>, interval: int, passes: seq<PassAnswers>, host: Host)
    returns (ending: Ending, log: seq<seq<CameraResult>>, sleeps: seq<int>, ghost trace: seq<PassTrace>)
    requires forall k :: 0 <= k < |passes| ==> |passes[k].cameras| == |CameraSections(sections)|
    modifies host
    // Before the loop: the general section and the credential check.
    ensures FindSection(sections, GENERAL).None? ==>
      ending == Crashed(KeyError(GENERAL)) && log == [] && sleeps == [] && host.files == old(host.files)
    ensures FindSection(sections, GENERAL).Some? && CheckCredentials(FindSection(sections, GENERAL).value).Raised? ==>
      ending == Crashed(AttributeError("sterr")) && log == [] && sleeps == [] && host.files == old(host.files)
    // Past the checks, the loop runs over the camera sections as Serve states.
    ensures FindSection(sections, GENERAL).Some? && CheckCredentials(FindSection(sections, GENERAL).value) == Ok ==>
      var g := FindSection(sections, GENERAL).value;
      && Passes(CameraSections(sections), SettingsOf(g), "hostname" in g, passes, log, trace, old(host.files), host.files)
      && Ended("hostname" in g, CameraSections(sections), interval, passes, log, sleeps, ending)
  {
    ending, log, sleeps, trace := Running, [], [], [];
    var general := FindSection(sections, GENERAL);
    if general.None? {
      ending := Crashed(KeyError(GENERAL));
      return;
    }
    var check := CheckCredentials(general.value);
    if check.Raised? {
      ending := Crashed(check.e);
      return;
    }
    ending, log, sleeps, trace := Serve(general.value, CameraSections(sections), interval, passes, host);
  }
}
