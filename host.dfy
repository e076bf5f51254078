/** The machine the updater runs on, reduced to what the pipeline can
    observe: a filesystem mapping each path to its length in bytes, the
    `gm convert` invocations it made, and an FTP session. Every outcome
    decided outside the program (a download, a drawing, a transfer) is a
    parameter. */
module Host {
  import opened Outcomes
  import opened Text

  /** What urlretrieve achieved: the image it stored, or a URLError. */
  datatype FetchOutcome = Fetched(size: nat) | FetchFailed

  /** What `gm convert` achieved: the labelled image it wrote, the non-zero
      exit code that makes check_output raise CalledProcessError, or no run
      at all because the program could not be started, which check_output
      reports as the OSError FileNotFoundError. */
  datatype GmOutcome = Drawn(size: nat) | GmFailed(code: int) | GmNotStarted

  /** The program `paint` runs. */
  const GM: string := "gm"

  /** One `gm convert <input> ... -draw "text 10,5 \"<text>\"" <output>`. */
  datatype GmCall = GmCall(input: string, text: string, output: string)

  /** A path longer than every path in `paths` exists. */
  lemma {:induction false} LongerThanAll(paths: set<string>) returns (n: nat)
    ensures forall p :: p in paths ==> |p| < n
  {
    if paths == {} {
      n := 0;
    } else {
      var p :| p in paths;
      var m := LongerThanAll(paths - {p});
      n := if |p| + 1 > m then |p| + 1 else m;
    }
  }

  function Repeat(c: char, n: nat): (s: string)
    ensures |s| == n
  {
    if n == 0 then "" else Repeat(c, n - 1) + [c]
  }

  class Host {
    var files: map<string, nat>
    var gmCalls: seq<GmCall>
    /** Every path mkstemp has handed out. */
    ghost var temps: set<string>

    constructor (files: map<string, nat>)
      ensures this.files == files && gmCalls == [] && temps == {}
    {
      this.files := files;
      gmCalls := [];
      temps := {};
    }

    /** `tempfile.mkstemp(suffix=suffix)` followed by closing the handle:
        an empty file under a name no file had. */
    method MakeTemp(suffix: string) returns (p: string)
      modifies this
      ensures p !in old(files) && EndsWith(p, suffix)
      ensures files == old(files)[p := 0]
      ensures temps == old(temps) + {p}
      ensures gmCalls == old(gmCalls)
    {
      ghost var n := LongerThanAll(files.Keys);
      assert EndsWith(Repeat('t', n) + suffix, suffix);
      p :| p !in files && EndsWith(p, suffix);
      files := files[p := 0];
      temps := temps + {p};
    }

    /** `os.path.getsize(p)`; `None` stands for FileNotFoundError. */
    method GetSize(p: string) returns (size: Option<nat>)
      ensures p in files <==> size.Some?
      ensures p in files ==> size.value == files[p]
    {
      size := if p in files then Some(files[p]) else None;
    }

    /** `urlretrieve(url, dest)`: on success `dest` holds the image. */
    method Retrieve(url: string, dest: string, outcome: FetchOutcome) returns (st: Status)
      modifies this
      ensures outcome.Fetched? ==> st == Ok && files == old(files)[dest := outcome.size]
      ensures outcome.FetchFailed? ==> st == Raised(URLError) && files == old(files)
      ensures gmCalls == old(gmCalls) && temps == old(temps)
    {
      match outcome
      case Fetched(size) =>
        files := files[dest := size];
        st := Ok;
      case FetchFailed =>
        st := Raised(URLError);
    }

    /** `shutil.copyfile(src, dst)`. */
    method CopyFile(src: string, dst: string) returns (st: Status)
      modifies this
      ensures src !in old(files) ==> st == Raised(FileNotFoundError(src)) && files == old(files)
      ensures src in old(files) && src == dst ==> st == Raised(SameFileError(src)) && files == old(files)
      ensures src in old(files) && src != dst ==> st == Ok && files == old(files)[dst := old(files)[src]]
      ensures gmCalls == old(gmCalls) && temps == old(temps)
    {
      if src !in files {
        st := Raised(FileNotFoundError(src));
      } else if src == dst {
        st := Raised(SameFileError(src));
      } else {
        files := files[dst := files[src]];
        st := Ok;
      }
    }

    /** `os.unlink(p)`. */
    method Unlink(p: string) returns (st: Status)
      modifies this
      ensures p in old(files) ==> st == Ok
      ensures p !in old(files) ==> st == Raised(FileNotFoundError(p)) && files == old(files)
      ensures files == old(files) - {p}
      ensures gmCalls == old(gmCalls) && temps == old(temps)
    {
      if p in files {
        files := files - {p};
        st := Ok;
      } else {
        st := Raised(FileNotFoundError(p));
      }
    }

    /** `check_output(["gm", "convert", input, ..., text, ..., output])`; the
        attempt is recorded even when gm cannot be started. */
    method Convert(input: string, text: string, output: string, outcome: GmOutcome) returns (st: Status)
      modifies this
      ensures gmCalls == old(gmCalls) + [GmCall(input, text, output)]
      ensures outcome.Drawn? ==> st == Ok && files == old(files)[output := outcome.size]
      ensures outcome.GmFailed? ==> st == Raised(CalledProcessError(outcome.code)) && files == old(files)
      ensures outcome.GmNotStarted? ==> st == Raised(FileNotFoundError(GM)) && files == old(files)
      ensures temps == old(temps)
    {
      gmCalls := gmCalls + [GmCall(input, text, output)];
      match outcome
      case Drawn(size) =>
        files := files[output := size];
        st := Ok;
      case GmFailed(code) =>
        st := Raised(CalledProcessError(code));
      case GmNotStarted =>
        st := Raised(FileNotFoundError(GM));
    }
  }

  /** One connection made by `FTP(hostname, username, password)`. */
  class FtpSession {
    var open: bool
    /** The STOR commands the server accepted, each with the bytes sent. */
    var stored: seq<(string, nat)>

    constructor ()
      ensures open && stored == []
    {
      open := true;
      stored := [];
    }

    /** `storbinary(command, fd)` for a file of `size` bytes; `accepted` is
        the server's verdict. */
    method StoreBinary(command: string, size: nat, accepted: bool) returns (st: Status)
      modifies this
      ensures accepted ==> st == Ok && stored == old(stored) + [(command, size)]
      ensures !accepted ==> st == Raised(FtpError) && stored == old(stored)
      ensures open == old(open)
    {
      if accepted {
        stored := stored + [(command, size)];
        st := Ok;
      } else {
        st := Raised(FtpError);
      }
    }

    /** `quit()`: the session is closed. */
    method Quit()
      modifies this
      ensures !open && stored == old(stored)
    {
      open := false;
    }
  }
}
