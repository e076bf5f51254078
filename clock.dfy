/** The capture timestamp and the two strings derived from it: the archive
    path `archive_dir/name/YYYY-MM/YYYY-MM-DD/YYYY-MM-DD-HH-MM.ext` and the
    label drawn on the picture. */
module Clock {
  import opened Text

  /** A local `datetime` down to the second. */
  datatype Timestamp = Timestamp(year: nat, month: nat, day: nat, hour: nat, minute: nat, second: nat)

  predicate ValidTimestamp(t: Timestamp) {
    && 1 <= t.year <= 9999
    && 1 <= t.month <= 12
    && 1 <= t.day <= 31
    && t.hour < 24
    && t.minute < 60
    && t.second < 60
  }

  /** Two captures that the archive cannot tell apart. */
  predicate SameMinute(t1: Timestamp, t2: Timestamp) {
    && t1.year == t2.year
    && t1.month == t2.month
    && t1.day == t2.day
    && t1.hour == t2.hour
    && t1.minute == t2.minute
  }

  /** What one `%c` directive prints: the numeric fields zero-padded, `%%` a
      percent sign, any other directive itself. */
  function Directive(c: char, t: Timestamp): string {
    match c
    case 'Y' => ZeroPad(t.year, 4)
    case 'm' => ZeroPad(t.month, 2)
    case 'd' => ZeroPad(t.day, 2)
    case 'H' => ZeroPad(t.hour, 2)
    case 'M' => ZeroPad(t.minute, 2)
    case 'S' => ZeroPad(t.second, 2)
    case '%' => "%"
    case _ => ['%', c]
  }

  predicate NoPercent(s: string) {
    forall i :: 0 <= i < |s| ==> s[i] != '%'
  }

  /** `t.strftime(pattern)` for the numeric directives. */
  function Strftime(pattern: string, t: Timestamp): (r: string)
    ensures NoPercent(pattern) ==> r == pattern
  {
    if pattern == [] then []
    else if pattern[0] == '%' && |pattern| >= 2 then Directive(pattern[1], t) + Strftime(pattern[2..], t)
    else
      assert NoPercent(pattern) ==> NoPercent(pattern[1..]);
      [pattern[0]] + Strftime(pattern[1..], t)
  }

  function YearMonth(t: Timestamp): string {
    Strftime("%Y-%m", t)
  }

  function Day(t: Timestamp): string {
    Strftime("%Y-%m-%d", t)
  }

  function HourMinute(t: Timestamp): string {
    Strftime("%H-%M", t)
  }

  /** Where `archive` copies a capture taken at `t` (update-webcams.py:45-48). */
  function ArchiveTarget(archiveDir: string, name: string, t: Timestamp, ext: string): (path: string)
    ensures |archiveDir| + |name| + 2 <= |path| && path[..|archiveDir| + |name| + 2] == archiveDir + "/" + name + "/"
    ensures EndsWith(path, "." + ext)
  {
    Layout(archiveDir, name, YearMonth(t), Day(t), HourMinute(t), ext)
  }

  /** `archive_dir/name/<yearmonth>/<day>/<day>-<time>.ext`: always under the
      camera's own directory, always with the camera's extension. */
  function Layout(archiveDir: string, name: string, yearmonth: string, day: string, time: string, ext: string): (path: string)
    ensures |archiveDir| + |name| + 2 <= |path| && path[..|archiveDir| + |name| + 2] == archiveDir + "/" + name + "/"
    ensures EndsWith(path, "." + ext)
  {
    var head := archiveDir + "/" + name + "/";
    var mid := yearmonth + "/" + day + "/" + day + "-" + time;
    assert head + mid + "." + ext == head + mid + ("." + ext);
    Framed(head, mid, "." + ext);
    archiveDir + "/" + name + "/" + yearmonth + "/" + day + "/" + day + "-" + time + "." + ext
  }

  lemma Framed(head: string, mid: string, tail: string)
    ensures (head + mid + tail)[..|head|] == head
    ensures EndsWith(head + mid + tail, tail)
  {
    assert head + mid + tail == head + (mid + tail);
  }

  lemma StrftimeDirective(c: char, rest: string, t: Timestamp)
    ensures Strftime(['%', c] + rest, t) == Directive(c, t) + Strftime(rest, t)
  {
    assert (['%', c] + rest)[2..] == rest;
  }

  lemma StrftimeLiteral(c: char, rest: string, t: Timestamp)
    requires c != '%'
    ensures Strftime([c] + rest, t) == [c] + Strftime(rest, t)
  {
    assert ([c] + rest)[1..] == rest;
  }

  /** A directive followed by a literal separator. */
  lemma StrftimeDirectiveLiteral(a: char, sep: char, rest: string, t: Timestamp)
    requires sep != '%'
    ensures Strftime(['%', a, sep] + rest, t) == Directive(a, t) + [sep] + Strftime(rest, t)
  {
    assert ['%', a, sep] + rest == ['%', a] + ([sep] + rest);
    StrftimeDirective(a, [sep] + rest, t);
    StrftimeLiteral(sep, rest, t);
  }

  /** `%Y-%m` and `%H-%M` style pairs: two directives around a separator. */
  lemma StrftimePair(a: char, sep: char, b: char, rest: string, t: Timestamp)
    requires sep != '%'
    ensures Strftime(['%', a, sep, '%', b] + rest, t) == Directive(a, t) + [sep] + Directive(b, t) + Strftime(rest, t)
  {
    assert ['%', a, sep, '%', b] + rest == ['%', a, sep] + (['%', b] + rest);
    StrftimeDirectiveLiteral(a, sep, ['%', b] + rest, t);
    StrftimeDirective(b, rest, t);
  }

  lemma StampPatternsSplit()
    ensures "%Y-%m" == ['%', 'Y', '-', '%', 'm'] + ""
    ensures "%Y-%m-%d" == ['%', 'Y', '-', '%', 'm'] + "-%d"
    ensures "-%d" == ['-'] + "%d" && "%d" == ['%', 'd'] + ""
    ensures "%H-%M" == ['%', 'H', '-', '%', 'M'] + ""
  {
  }

  lemma DayOfStamp(t: Timestamp)
    ensures Day(t) == ZeroPad(t.year, 4) + "-" + ZeroPad(t.month, 2) + "-" + ZeroPad(t.day, 2)
  {
    StampPatternsSplit();
    StrftimePair('Y', '-', 'm', "-%d", t);
    StrftimeLiteral('-', "%d", t);
    StrftimeDirective('d', "", t);
  }

  /** The directive expansions the archive path is made of. */
  lemma FieldsOfStamp(t: Timestamp)
    ensures YearMonth(t) == ZeroPad(t.year, 4) + "-" + ZeroPad(t.month, 2)
    ensures Day(t) == ZeroPad(t.year, 4) + "-" + ZeroPad(t.month, 2) + "-" + ZeroPad(t.day, 2)
    ensures HourMinute(t) == ZeroPad(t.hour, 2) + "-" + ZeroPad(t.minute, 2)
  {
    StampPatternsSplit();
    StrftimePair('Y', '-', 'm', "", t);
    DayOfStamp(t);
    StrftimePair('H', '-', 'M', "", t);
  }

  /** The archive path with its directive expansions spelled out. */
  function PathOf(archiveDir: string, name: string, y: string, m: string, d: string, hh: string, mm: string, ext: string): string {
    archiveDir + "/" + name + "/" + y + "-" + m + "/" + y + "-" + m + "-" + d + "/"
    + y + "-" + m + "-" + d + "-" + hh + "-" + mm + "." + ext
  }

  lemma PathOfRegrouped(archiveDir: string, name: string, y: string, m: string, d: string, hh: string, mm: string, ext: string)
    ensures PathOf(archiveDir, name, y, m, d, hh, mm, ext)
            == archiveDir + "/" + name + "/" + (y + "-" + m) + "/" + (y + "-" + m + "-" + d) + "/"
               + (y + "-" + m + "-" + d) + "-" + (hh + "-" + mm) + "." + ext
  {
  }

  /** The archive path written out field by field:
      `archive_dir/name/YYYY-MM/YYYY-MM-DD/YYYY-MM-DD-HH-MM.ext`. */
  lemma ArchiveTargetShape(archiveDir: string, name: string, t: Timestamp, ext: string)
    ensures ArchiveTarget(archiveDir, name, t, ext)
            == PathOf(archiveDir, name, ZeroPad(t.year, 4), ZeroPad(t.month, 2), ZeroPad(t.day, 2),
                      ZeroPad(t.hour, 2), ZeroPad(t.minute, 2), ext)
  {
    FieldsOfStamp(t);
    PathOfRegrouped(archiveDir, name, ZeroPad(t.year, 4), ZeroPad(t.month, 2), ZeroPad(t.day, 2),
                    ZeroPad(t.hour, 2), ZeroPad(t.minute, 2), ext);
  }

  lemma ExamplePads()
    ensures ZeroPad(2024, 4) == "2024" && ZeroPad(3, 2) == "03" && ZeroPad(5, 2) == "05"
    ensures ZeroPad(14, 2) == "14" && ZeroPad(22, 2) == "22"
  {
    assert ZeroPad(2024, 4) == "2024";
    assert ZeroPad(3, 2) == "03";
    assert ZeroPad(5, 2) == "05";
    assert ZeroPad(14, 2) == "14";
    assert ZeroPad(22, 2) == "22";
  }

  lemma ExamplePath()
    ensures PathOf("/data", "harbor", "2024", "03", "05", "14", "22", "jpg")
            == "/data/harbor/2024-03/2024-03-05/2024-03-05-14-22.jpg"
  {
    var a: string := "/data/harbor/";
    assert "/data" + "/" + "harbor" + "/" == a;
    var b: string := "/data/harbor/2024-03/";
    assert a + "2024" + "-" + "03" + "/" == b;
    var c: string := "/data/harbor/2024-03/2024-03-05/";
    assert b + "2024" + "-" + "03" + "-" + "05" + "/" == c;
    var d: string := "/data/harbor/2024-03/2024-03-05/2024-03-05-";
    assert c + "2024" + "-" + "03" + "-" + "05" + "-" == d;
    assert d + "14" + "-" + "22" + "." + "jpg" == "/data/harbor/2024-03/2024-03-05/2024-03-05-14-22.jpg";
  }

  /** A capture at 2024-03-05 14:22 by camera `harbor` under `/data`. */
  lemma ArchiveTargetExample(t: Timestamp)
    requires t.year == 2024 && t.month == 3 && t.day == 5 && t.hour == 14 && t.minute == 22
    ensures ArchiveTarget("/data", "harbor", t, "jpg") == "/data/harbor/2024-03/2024-03-05/2024-03-05-14-22.jpg"
  {
    ArchiveTargetShape("/data", "harbor", t, "jpg");
    ExamplePads();
    ExamplePath();
  }

  /** Peel equal-length tails off equal concatenations. */
  lemma SplitTail(a1: string, b1: string, a2: string, b2: string)
    requires a1 + b1 == a2 + b2 && |b1| == |b2|
    ensures a1 == a2 && b1 == b2
  {
    assert a1 == (a1 + b1)[..|a1|];
    assert a2 == (a2 + b2)[..|a2|];
    assert b1 == (a1 + b1)[|a1|..];
    assert b2 == (a2 + b2)[|a2|..];
  }

  /** Equal archive paths under one directory, camera and extension have
      equal fields, since every field has a fixed width. */
  lemma PathOfFields(dir: string, name: string, ext: string,
                     y1: string, m1: string, d1: string, h1: string, n1: string,
                     y2: string, m2: string, d2: string, h2: string, n2: string)
    requires |y1| == |y2| && |m1| == |m2| && |d1| == |d2| && |h1| == |h2| && |n1| == |n2|
    requires PathOf(dir, name, y1, m1, d1, h1, n1, ext) == PathOf(dir, name, y2, m2, d2, h2, n2, ext)
    ensures y1 == y2 && m1 == m2 && d1 == d2 && h1 == h2 && n1 == n2
  {
    var p1 := dir + "/" + name + "/" + y1 + "-" + m1 + "/" + y1 + "-" + m1 + "-" + d1 + "/";
    var p2 := dir + "/" + name + "/" + y2 + "-" + m2 + "/" + y2 + "-" + m2 + "-" + d2 + "/";
    var q1 := p1 + y1 + "-" + m1 + "-" + d1;
    var q2 := p2 + y2 + "-" + m2 + "-" + d2;
    assert PathOf(dir, name, y1, m1, d1, h1, n1, ext) == q1 + "-" + h1 + "-" + n1 + "." + ext;
    assert PathOf(dir, name, y2, m2, d2, h2, n2, ext) == q2 + "-" + h2 + "-" + n2 + "." + ext;
    SplitTail(q1 + "-" + h1 + "-" + n1 + ".", ext, q2 + "-" + h2 + "-" + n2 + ".", ext);
    SplitTail(q1 + "-" + h1 + "-" + n1, ".", q2 + "-" + h2 + "-" + n2, ".");
    SplitTail(q1 + "-" + h1 + "-", n1, q2 + "-" + h2 + "-", n2);
    SplitTail(q1 + "-" + h1, "-", q2 + "-" + h2, "-");
    SplitTail(q1 + "-", h1, q2 + "-", h2);
    SplitTail(q1, "-", q2, "-");
    SplitTail(p1 + y1 + "-" + m1 + "-", d1, p2 + y2 + "-" + m2 + "-", d2);
    SplitTail(p1 + y1 + "-" + m1, "-", p2 + y2 + "-" + m2, "-");
    SplitTail(p1 + y1 + "-", m1, p2 + y2 + "-", m2);
    SplitTail(p1 + y1, "-", p2 + y2, "-");
    SplitTail(p1, y1, p2, y2);
  }

  /** The same directory, camera and extension give the same archive path
      exactly when the two captures fall in the same minute: a second capture
      in that minute overwrites the first, and no other capture does. */
  lemma ArchiveTargetCollision(archiveDir: string, name: string, t1: Timestamp, t2: Timestamp, ext: string)
    requires ValidTimestamp(t1) && ValidTimestamp(t2)
    ensures ArchiveTarget(archiveDir, name, t1, ext) == ArchiveTarget(archiveDir, name, t2, ext)
            <==> SameMinute(t1, t2)
  {
    ArchiveTargetShape(archiveDir, name, t1, ext);
    ArchiveTargetShape(archiveDir, name, t2, ext);
    if ArchiveTarget(archiveDir, name, t1, ext) == ArchiveTarget(archiveDir, name, t2, ext) {
      PathOfFields(archiveDir, name, ext,
                   ZeroPad(t1.year, 4), ZeroPad(t1.month, 2), ZeroPad(t1.day, 2), ZeroPad(t1.hour, 2), ZeroPad(t1.minute, 2),
                   ZeroPad(t2.year, 4), ZeroPad(t2.month, 2), ZeroPad(t2.day, 2), ZeroPad(t2.hour, 2), ZeroPad(t2.minute, 2));
      assert Pow10(4) == 10000 && Pow10(2) == 100;
      ZeroPadInjective(t1.year, t2.year, 4);
      ZeroPadInjective(t1.month, t2.month, 2);
      ZeroPadInjective(t1.day, t2.day, 2);
      ZeroPadInjective(t1.hour, t2.hour, 2);
      ZeroPadInjective(t1.minute, t2.minute, 2);
    }
  }

  /** The label pattern used when the configuration names none. */
  const DEFAULT_LABEL_PATTERN: string := "%Y-%m-%d %H:%M Webcam {}"

  /** The text drawn on the picture: the pattern formatted by strftime, then
      every `{}` replaced by the camera's title (update-webcams.py:56-57). */
  function Label(pattern: string, t: Timestamp, title: string): (text: string)
    ensures NoPercent(pattern) ==> text == ReplaceToken(pattern, title)
  {
    ReplaceToken(Strftime(pattern, t), title)
  }

  /** A non-empty title free of braces leaves no placeholder in the label. */
  lemma LabelFilled(pattern: string, t: Timestamp, title: string)
    requires title != [] && NoBraces(title)
    ensures !HasToken(Label(pattern, t, title))
  {
    ReplaceTokenLeavesNone(Strftime(pattern, t), title);
  }

  /** The date and time part of the default label, up to its placeholder. */
  function DefaultStamp(t: Timestamp): string {
    ZeroPad(t.year, 4) + "-" + ZeroPad(t.month, 2) + "-" + ZeroPad(t.day, 2) + " "
    + ZeroPad(t.hour, 2) + ":" + ZeroPad(t.minute, 2) + " Webcam "
  }

  lemma DefaultPatternTimeExpands(t: Timestamp)
    ensures Strftime(" %H:%M Webcam {}", t) == " " + ZeroPad(t.hour, 2) + ":" + ZeroPad(t.minute, 2) + " Webcam " + TOKEN
  {
    DefaultPatternTimeSplit();
    StrftimeTimePrefix(" %H:%M Webcam {}", "%H:%M Webcam {}", " Webcam {}", t);
    assert Strftime(" Webcam {}", t) == " Webcam " + TOKEN;
  }

  /** Expansion of a pattern that starts with ` %H:%M`. */
  lemma StrftimeTimePrefix(p: string, r1: string, r2: string, t: Timestamp)
    requires p == [' '] + r1 && r1 == ['%', 'H', ':', '%', 'M'] + r2
    ensures Strftime(p, t) == " " + ZeroPad(t.hour, 2) + ":" + ZeroPad(t.minute, 2) + Strftime(r2, t)
  {
    StrftimePair('H', ':', 'M', r2, t);
    StrftimeLiteral(' ', r1, t);
  }

  lemma DefaultPatternSplit()
    ensures DEFAULT_LABEL_PATTERN == ['%', 'Y', '-', '%', 'm'] + "-%d %H:%M Webcam {}"
    ensures "-%d %H:%M Webcam {}" == ['-'] + "%d %H:%M Webcam {}"
    ensures "%d %H:%M Webcam {}" == ['%', 'd'] + " %H:%M Webcam {}"
  {
  }

  lemma DefaultPatternTimeSplit()
    ensures " %H:%M Webcam {}" == [' '] + "%H:%M Webcam {}"
    ensures "%H:%M Webcam {}" == ['%', 'H', ':', '%', 'M'] + " Webcam {}"
    ensures " Webcam {}" == " Webcam " + TOKEN
  {
  }

  /** Expansion of a pattern that starts with `%Y-%m-%d`. */
  lemma StrftimeDatePrefix(p: string, r1: string, r2: string, r3: string, t: Timestamp)
    requires p == ['%', 'Y', '-', '%', 'm'] + r1 && r1 == ['-'] + r2 && r2 == ['%', 'd'] + r3
    ensures Strftime(p, t) == ZeroPad(t.year, 4) + "-" + ZeroPad(t.month, 2) + "-" + ZeroPad(t.day, 2) + Strftime(r3, t)
  {
    StrftimeDirective('d', r3, t);
    StrftimeLiteral('-', r2, t);
    StrftimePair('Y', '-', 'm', r1, t);
  }

  lemma DefaultPatternExpands(t: Timestamp)
    ensures Strftime(DEFAULT_LABEL_PATTERN, t) == DefaultStamp(t) + TOKEN
  {
    DefaultPatternSplit();
    StrftimeDatePrefix(DEFAULT_LABEL_PATTERN, "-%d %H:%M Webcam {}", "%d %H:%M Webcam {}", " %H:%M Webcam {}", t);
    DefaultPatternTimeExpands(t);
    Regroup(ZeroPad(t.year, 4), ZeroPad(t.month, 2), ZeroPad(t.day, 2), ZeroPad(t.hour, 2), ZeroPad(t.minute, 2),
            " Webcam ", TOKEN);
  }

  lemma Regroup(y: string, m: string, d: string, hh: string, mm: string, word: string, token: string)
    ensures y + "-" + m + "-" + d + (" " + hh + ":" + mm + word + token)
            == (y + "-" + m + "-" + d + " " + hh + ":" + mm + word) + token
  {
  }

  lemma DefaultStampNoBraces(t: Timestamp)
    ensures NoBraces(DefaultStamp(t))
  {
    var y, m, d := ZeroPad(t.year, 4), ZeroPad(t.month, 2), ZeroPad(t.day, 2);
    var hh, mm := ZeroPad(t.hour, 2), ZeroPad(t.minute, 2);
    DigitsNoBraces(y);
    DigitsNoBraces(m);
    DigitsNoBraces(d);
    DigitsNoBraces(hh);
    DigitsNoBraces(mm);
    NoBracesConcat(y, "-");
    NoBracesConcat(y + "-", m);
    NoBracesConcat(y + "-" + m, "-");
    NoBracesConcat(y + "-" + m + "-", d);
    NoBracesConcat(y + "-" + m + "-" + d, " ");
    NoBracesConcat(y + "-" + m + "-" + d + " ", hh);
    NoBracesConcat(y + "-" + m + "-" + d + " " + hh, ":");
    NoBracesConcat(y + "-" + m + "-" + d + " " + hh + ":", mm);
    NoBracesConcat(y + "-" + m + "-" + d + " " + hh + ":" + mm, " Webcam ");
  }

  /** With the default pattern the label is the capture's date, hour and
      minute, the word `Webcam` and the title, whatever the title holds. */
  lemma DefaultLabel(t: Timestamp, title: string)
    ensures Label(DEFAULT_LABEL_PATTERN, t, title) == DefaultStamp(t) + title
  {
    DefaultPatternExpands(t);
    DefaultStampNoBraces(t);
    NoBracesNoToken(DefaultStamp(t));
    ReplaceTokenFirst(DefaultStamp(t), "", title);
    assert DefaultStamp(t) + TOKEN + "" == DefaultStamp(t) + TOKEN;
    assert DefaultStamp(t) + title + "" == DefaultStamp(t) + title;
  }

  lemma NoBracesConcat(a: string, b: string)
    requires NoBraces(a) && NoBraces(b)
    ensures NoBraces(a + b)
  {
  }

  lemma DigitsNoBraces(s: string)
    requires AllDigits(s)
    ensures NoBraces(s)
  {
  }
}
