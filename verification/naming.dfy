/** Output file naming: `get_new_filename` and the remux target computed in
    `stop`. The wall-clock time is an input. */
module Naming {
  import opened Results

  datatype DateTime = DateTime(year: int, month: int, day: int, hour: int, minute: int)
  {
    /** A calendar minute that `datetime.now()` can return, with a four-digit year. */
    predicate Valid() {
      && 1000 <= year <= 9999
      && 1 <= month <= 12
      && 1 <= day <= DaysInMonth(year, month)
      && 0 <= hour < 24
      && 0 <= minute < 60
    }
  }

  type Timestamp = dt: DateTime | dt.Valid() witness DateTime(2000, 1, 1, 0, 0)

  predicate IsLeapYear(y: int) {
    y % 4 == 0 && (y % 100 != 0 || y % 400 == 0)
  }

  function DaysInMonth(y: int, m: int): int
    requires 1 <= m <= 12
  {
    if m == 2 then (if IsLeapYear(y) then 29 else 28)
    else if m == 4 || m == 6 || m == 9 || m == 11 then 30
    else 31
  }

  // ---------------------------------------------------------------------------
  // Decimal digits

  predicate IsDigit(c: char) {
    '0' <= c <= '9'
  }

  function DigitValue(c: char): int {
    c as int - '0' as int
  }

  function Digit(d: int): (c: char)
    requires 0 <= d < 10
    ensures IsDigit(c) && DigitValue(c) == d
  {
    ('0' as int + d) as char
  }

  /** The value of the two decimal digits at `s[i]`, `s[i+1]`. */
  function Value2(s: string, i: int): int
    requires 0 <= i && i + 2 <= |s|
  {
    10 * DigitValue(s[i]) + DigitValue(s[i + 1])
  }

  /** The value of the four decimal digits starting at `s[i]`. */
  function Value4(s: string, i: int): int
    requires 0 <= i && i + 4 <= |s|
  {
    100 * Value2(s, i) + Value2(s, i + 2)
  }

  /** `%02d`-style zero padding, as strftime does for `%d`, `%m`, `%H`, `%M`. */
  function Pad2(n: int): (s: string)
    requires 0 <= n < 100
    ensures |s| == 2 && IsDigit(s[0]) && IsDigit(s[1])
    ensures Value2(s, 0) == n
  {
    [Digit(n / 10), Digit(n % 10)]
  }

  /** Four zero-padded digits, as strftime does for `%Y`. */
  function Pad4(n: int): (s: string)
    requires 0 <= n < 10000
    ensures |s| == 4 && forall i :: 0 <= i < 4 ==> IsDigit(s[i])
    ensures Value4(s, 0) == n
  {
    var s := Pad2(n / 100) + Pad2(n % 100);
    assert Value2(s, 0) == n / 100 && Value2(s, 2) == n % 100;
    s
  }

  /** Two digit characters with equal two-digit values are the same characters. */
  lemma Value2Injective(s: string, i: int, t: string, j: int)
    requires 0 <= i && i + 2 <= |s| && 0 <= j && j + 2 <= |t|
    requires IsDigit(s[i]) && IsDigit(s[i + 1]) && IsDigit(t[j]) && IsDigit(t[j + 1])
    requires Value2(s, i) == Value2(t, j)
    ensures s[i] == t[j] && s[i + 1] == t[j + 1]
  {
  }

  // ---------------------------------------------------------------------------
  // The `%d-%m-%Y_%H-%M` timestamp

  const StampLength := 16

  /** The layout `DD-MM-YYYY_HH-MM`: separators at 2, 5, 10 and 13, digits elsewhere. */
  predicate WellFormedStamp(s: string) {
    && |s| == StampLength
    && s[2] == '-' && s[5] == '-' && s[10] == '_' && s[13] == '-'
    && forall i :: 0 <= i < StampLength && i != 2 && i != 5 && i != 10 && i != 13 ==> IsDigit(s[i])
  }

  /** `dt.strftime("%d-%m-%Y_%H-%M")`. */
  function FormatStamp(dt: Timestamp): (s: string)
    ensures WellFormedStamp(s)
    ensures Value2(s, 0) == dt.day && Value2(s, 3) == dt.month && Value4(s, 6) == dt.year
    ensures Value2(s, 11) == dt.hour && Value2(s, 14) == dt.minute
  {
    var d, mo, y, h, mi := Pad2(dt.day), Pad2(dt.month), Pad4(dt.year), Pad2(dt.hour), Pad2(dt.minute);
    var s := d + "-" + mo + "-" + y + "_" + h + "-" + mi;
    assert s[0..2] == d && s[3..5] == mo && s[6..10] == y && s[11..13] == h && s[14..16] == mi;
    assert forall k :: 0 <= k < 4 ==> s[6 + k] == y[k];
    s
  }

  /** Reads a timestamp back: the inverse of `FormatStamp`, failing on any
      string that is not a well-formed stamp of a valid minute. */
  function ParseStamp(s: string): Option<Timestamp>
  {
    if !WellFormedStamp(s) then None
    else
      var dt := DateTime(Value4(s, 6), Value2(s, 3), Value2(s, 0), Value2(s, 11), Value2(s, 14));
      if dt.Valid() then Some(dt) else None
  }

  /** Formatting then parsing gives back the same minute. */
  lemma FormatThenParse(dt: Timestamp)
    ensures ParseStamp(FormatStamp(dt)) == Some(dt)
  {
  }

  /** Parsing then formatting gives back the same string: every stamp that
      parses is the formatted form of exactly one minute. */
  lemma {:induction false} ParseThenFormat(s: string)
    requires ParseStamp(s).Some?
    ensures FormatStamp(ParseStamp(s).value) == s
  {
    var t := FormatStamp(ParseStamp(s).value);
    forall k | k in [0, 3, 6, 8, 11, 14]
      ensures t[k] == s[k] && t[k + 1] == s[k + 1]
    {
      if k == 6 || k == 8 {
        // Value4(t, 6) == Value4(s, 6) with all four values two-digit.
        assert Value2(t, 6) == Value2(s, 6) && Value2(t, 8) == Value2(s, 8) by {
          assert 0 <= Value2(t, 8) < 100 && 0 <= Value2(s, 8) < 100;
        }
      }
      Value2Injective(t, k, s, k);
    }
    assert forall k :: 0 <= k < StampLength ==> t[k] == s[k] by {
      forall k | 0 <= k < StampLength
        ensures t[k] == s[k]
      {
        if k in {2, 5, 10, 13} {
        } else if k in {0, 1} {
          assert 0 in [0, 3, 6, 8, 11, 14];
        } else if k in {3, 4} {
          assert 3 in [0, 3, 6, 8, 11, 14];
        } else if k in {6, 7} {
          assert 6 in [0, 3, 6, 8, 11, 14];
        } else if k in {8, 9} {
          assert 8 in [0, 3, 6, 8, 11, 14];
        } else if k in {11, 12} {
          assert 11 in [0, 3, 6, 8, 11, 14];
        } else {
          assert 14 in [0, 3, 6, 8, 11, 14];
        }
      }
    }
  }

  /** Different minutes give different stamps. */
  lemma StampInjective(a: Timestamp, b: Timestamp)
    requires FormatStamp(a) == FormatStamp(b)
    ensures a == b
  {
  }

  // ---------------------------------------------------------------------------
  // Paths

  const TmpExt := ".tmp"
  const Mp4Ext := ".mp4"

  predicate EndsWith(s: string, suffix: string) {
    |suffix| <= |s| && s[|s| - |suffix|..] == suffix
  }

  /** `os.path.join(folder, name)` on POSIX: an absolute `name` discards the
      folder; otherwise a `/` is inserted unless the folder is empty or
      already ends with one. */
  function Join(folder: string, name: string): (p: string)
    ensures EndsWith(p, name)
    ensures |name| > 0 && name[0] == '/' ==> p == name
    ensures (|name| == 0 || name[0] != '/') && folder != [] ==> |folder| <= |p| && p[..|folder|] == folder
  {
    if |name| > 0 && name[0] == '/' then name
    else if folder == [] || folder[|folder| - 1] == '/' then folder + name
    else folder + "/" + name
  }

  /** The file name without the folder: `<channel>_<DD-MM-YYYY_HH-MM>.tmp`. */
  function BaseName(channel: string, now: Timestamp): string {
    channel + "_" + FormatStamp(now) + TmpExt
  }

  /** `get_new_filename`: the capture file for a session started at `now`. */
  function NewFilename(folder: string, channel: string, now: Timestamp): (p: string)
    ensures EndsWith(p, BaseName(channel, now))
    ensures EndsWith(p, TmpExt)
    ensures |p| >= StampLength + 4
  {
    var name := BaseName(channel, now);
    assert name[|name| - 4..] == TmpExt;
    Join(folder, name)
  }

  /** The stamp sitting in front of the four-character extension. */
  function StampOf(path: string): string
    requires |path| >= StampLength + 4
  {
    path[|path| - StampLength - 4..|path| - 4]
  }

  /** The session start minute can be read back from the file name. */
  lemma FilenameRecordsStart(folder: string, channel: string, now: Timestamp)
    ensures ParseStamp(StampOf(NewFilename(folder, channel, now))) == Some(now)
  {
  }

  /** Sessions of one channel started in different minutes never share a file. */
  lemma FilenamesOfDistinctMinutesDiffer(folder: string, channel: string, a: Timestamp, b: Timestamp)
    requires a != b
    ensures NewFilename(folder, channel, a) != NewFilename(folder, channel, b)
  {
    FilenameRecordsStart(folder, channel, a);
    FilenameRecordsStart(folder, channel, b);
  }

  // ---------------------------------------------------------------------------
  // The remux target: `filename.replace(".tmp", ".mp4")`

  /** `.tmp` occurs in `s` at index `i`. */
  predicate TmpAt(s: string, i: int) {
    0 <= i && i + 4 <= |s| && s[i] == '.' && s[i + 1] == 't' && s[i + 2] == 'm' && s[i + 3] == 'p'
  }

  predicate NoTmp(s: string) {
    forall i :: 0 <= i < |s| ==> !TmpAt(s, i)
  }

  /** Python's `str.replace(".tmp", ".mp4")`: scans left to right and replaces
      every non-overlapping occurrence, not only a trailing extension. */
  function ReplaceTmp(s: string): (r: string)
    ensures |r| == |s|
  {
    if |s| < 4 then s
    else if TmpAt(s, 0) then Mp4Ext + ReplaceTmp(s[4..])
    else [s[0]] + ReplaceTmp(s[1..])
  }

  /** The ffmpeg output path derived from the capture path. */
  function RemuxTarget(filename: string): string {
    ReplaceTmp(filename)
  }

  /** Occurrences in `s[1..]` are the occurrences in `s` shifted by one. */
  lemma NoTmpTail(s: string)
    requires |s| > 0 && NoTmp(s)
    ensures NoTmp(s[1..])
  {
    forall i ensures !TmpAt(s[1..], i) {
      assert TmpAt(s[1..], i) ==> TmpAt(s, i + 1);
    }
  }

  /** A string without `.tmp` is left alone. */
  lemma {:induction false} ReplaceWithoutTmp(s: string)
    requires NoTmp(s)
    ensures ReplaceTmp(s) == s
  {
    if |s| >= 4 {
      assert !TmpAt(s, 0);
      NoTmpTail(s);
      ReplaceWithoutTmp(s[1..]);
    }
  }

  /** No `.tmp` starts at the front of `p + ".tmp" + q` when `p` is a
      non-empty `.tmp`-free string: an occurrence cannot run from `p` into
      the `.tmp`, because the only `.` of `.tmp` is its first character. */
  lemma NoTmpAtFront(p: string, q: string)
    requires NoTmp(p) && |p| > 0
    ensures !TmpAt(p + TmpExt + q, 0)
  {
    var s := p + TmpExt + q;
    if |p| >= 4 {
      assert s[0] == p[0] && s[1] == p[1] && s[2] == p[2] && s[3] == p[3];
      assert !TmpAt(p, 0);
    } else {
      assert s[|p|] == '.';
    }
  }

  /** The first `.tmp` after a `.tmp`-free prefix is replaced and the scan
      continues behind it. */
  lemma {:induction false} ReplaceFirstOccurrence(p: string, q: string)
    requires NoTmp(p)
    ensures ReplaceTmp(p + TmpExt + q) == p + Mp4Ext + ReplaceTmp(q)
    decreases |p|
  {
    var s := p + TmpExt + q;
    if p == [] {
      assert s == TmpExt + q;
      assert TmpAt(s, 0) && s[4..] == q;
      assert ReplaceTmp(s) == Mp4Ext + ReplaceTmp(q);
    } else {
      NoTmpAtFront(p, q);
      assert ReplaceTmp(s) == [s[0]] + ReplaceTmp(s[1..]);
      NoTmpTail(p);
      assert s[1..] == p[1..] + TmpExt + q;
      ReplaceFirstOccurrence(p[1..], q);
      assert [p[0]] + p[1..] == p;
    }
  }

  /** When `.tmp` occurs only as the extension, the target differs from the
      capture name exactly in its last four characters. */
  lemma SuffixOnlyTarget(p: string)
    requires NoTmp(p)
    ensures RemuxTarget(p + TmpExt) == p + Mp4Ext
  {
    ReplaceFirstOccurrence(p, []);
    assert p + TmpExt + [] == p + TmpExt;
  }

  /** Joining two `.tmp`-free strings creates no `.tmp` when the seam cannot
      be crossed: the left part does not end in `.`, `t` or `m`, or the right
      part does not start with `t`, `m` or `p`. */
  lemma NoTmpConcat(a: string, b: string)
    requires NoTmp(a) && NoTmp(b)
    requires (|a| > 0 && a[|a| - 1] !in {'.', 't', 'm'}) || (|b| > 0 && b[0] !in {'t', 'm', 'p'})
    ensures NoTmp(a + b)
  {
    var s := a + b;
    forall i ensures !TmpAt(s, i) {
      if 0 <= i && i + 4 <= |a| {
        assert !TmpAt(a, i);
      } else if |a| <= i {
        assert !TmpAt(b, i - |a|);
        assert TmpAt(s, i) ==> TmpAt(b, i - |a|);
      }
    }
  }

  /** A string without `.` holds no `.tmp`. */
  lemma NoDotNoTmp(s: string)
    requires forall i :: 0 <= i < |s| ==> s[i] != '.'
    ensures NoTmp(s)
  {
  }

  /** The name without its extension, `<channel>_<stamp>`, holds no `.tmp`
      when the channel holds none: the stamp has no `.` and the `_` in front
      of it cannot continue a `.tmp`. */
  lemma {:induction false} StemHasNoTmp(channel: string, now: Timestamp)
    requires NoTmp(channel)
    ensures NoTmp(channel + "_" + FormatStamp(now))
  {
    var stamp := FormatStamp(now);
    var tail := "_" + stamp;
    assert forall i :: 0 <= i < |tail| ==> tail[i] != '.' by {
      forall i | 0 <= i < |tail| ensures tail[i] != '.' {
        if i > 0 {
          assert tail[i] == stamp[i - 1];
        }
      }
    }
    NoDotNoTmp(tail);
    NoTmpConcat(channel, tail);
    assert channel + tail == channel + "_" + stamp;
  }

  /** For a folder and channel without `.tmp`, the remux target is the capture
      name with `.tmp` turned into `.mp4`: nothing else of the path changes. */
  lemma {:induction false} RemuxTargetOfNewFilename(folder: string, channel: string, now: Timestamp)
    requires NoTmp(folder) && NoTmp(channel)
    ensures var p := NewFilename(folder, channel, now);
            RemuxTarget(p) == p[..|p| - 4] + Mp4Ext
  {
    var stem := channel + "_" + FormatStamp(now);
    StemHasNoTmp(channel, now);
    var name := stem + TmpExt;
    assert name == BaseName(channel, now);
    var p := NewFilename(folder, channel, now);
    var stemPath: string;
    if name[0] == '/' || folder == [] {
      stemPath := stem;
    } else if folder[|folder| - 1] == '/' {
      stemPath := folder + stem;
      NoTmpConcat(folder, stem);
    } else {
      NoTmpConcat(folder, "/");
      stemPath := folder + "/" + stem;
      NoTmpConcat(folder + "/", stem);
    }
    assert p == stemPath + TmpExt;
    SuffixOnlyTarget(stemPath);
    assert p[..|p| - 4] == stemPath;
  }

  /** Two occurrences, each after a `.tmp`-free stretch, are both rewritten. */
  lemma ReplaceBothOccurrences(base: string, rest: string)
    requires NoTmp(base) && NoTmp(rest)
    ensures ReplaceTmp(base + TmpExt + (rest + TmpExt)) == base + Mp4Ext + (rest + Mp4Ext)
  {
    ReplaceFirstOccurrence(base, rest + TmpExt);
    SuffixOnlyTarget(rest);
  }

  /** The capture path for a folder that does not end in `/` and a channel
      that is not absolute: folder, `/`, base name. */
  lemma NewFilenameInFolder(folder: string, channel: string, now: Timestamp)
    requires folder != [] && folder[|folder| - 1] != '/'
    requires channel == [] || channel[0] != '/'
    ensures NewFilename(folder, channel, now) == folder + "/" + (channel + "_" + FormatStamp(now)) + TmpExt
  {
  }

  /** Every `.tmp` is rewritten, not only the extension: a capture folder
      named `<base>.tmp` makes ffmpeg write into `<base>.mp4`, a different
      folder from the one holding the capture. */
  lemma {:induction false} FolderExtensionIsRewritten(base: string, channel: string, now: Timestamp)
    requires NoTmp(base) && NoTmp(channel) && (channel == [] || channel[0] != '/')
    ensures RemuxTarget(NewFilename(base + TmpExt, channel, now))
            == base + Mp4Ext + "/" + (channel + "_" + FormatStamp(now)) + Mp4Ext
  {
    var stem := channel + "_" + FormatStamp(now);
    var rest := "/" + stem;
    assert NoTmp(rest) by {
      StemHasNoTmp(channel, now);
      NoTmpConcat("/", stem);
    }
    var folder := base + TmpExt;
    var p := NewFilename(folder, channel, now);
    assert p == base + TmpExt + (rest + TmpExt) by {
      assert folder[|folder| - 1] == 'p';
      NewFilenameInFolder(folder, channel, now);
    }
    assert RemuxTarget(p) == base + Mp4Ext + (rest + Mp4Ext) by {
      ReplaceBothOccurrences(base, rest);
    }
  }
}
