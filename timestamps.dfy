/** Clock readings and the two `DateTimeFormatter` patterns the harness uses:
    "yyyy-MM-dd_HH-mm-ss" in artifact file names and "yyyy-MM-dd HH:mm:ss" in
    the report's "Report Generated" entry. The clock itself is an input. */
module Timestamps {
  import opened Wrappers
  import opened JavaText

  /** A `LocalDateTime` reading, to the second. */
  datatype DateTime = DateTime(year: int, month: int, day: int, hour: int, minute: int, second: int)

  /** The readings whose year fits the four-digit field of the patterns. */
  predicate Valid(t: DateTime) {
    && 1 <= t.year <= 9999 && 1 <= t.month <= 12 && 1 <= t.day <= 31
    && 0 <= t.hour <= 23 && 0 <= t.minute <= 59 && 0 <= t.second <= 59
  }

  /** The tens digit and the ones digit of a two-digit field. */
  function Tens(n: nat): char
    requires n <= 99
  {
    DigitChar(n / 10)
  }

  function Ones(n: nat): char
    requires n <= 99
  {
    DigitChar(n % 10)
  }

  /** The fields of a reading, zero-padded ("yyyy", "MM", "dd", "HH", "mm",
      "ss"), joined by '-' inside the date, `between` between date and time,
      and `timeSep` inside the time. */
  function Render(t: DateTime, between: char, timeSep: char): (r: string)
    requires Valid(t)
    ensures |r| == 19
  {
    var hi, lo := t.year / 100, t.year % 100;
    [Tens(hi), Ones(hi), Tens(lo), Ones(lo), '-', Tens(t.month), Ones(t.month), '-',
     Tens(t.day), Ones(t.day), between, Tens(t.hour), Ones(t.hour), timeSep,
     Tens(t.minute), Ones(t.minute), timeSep, Tens(t.second), Ones(t.second)]
  }

  /** "yyyy-MM-dd_HH-mm-ss", the pattern of screenshot and report file names. */
  function FileStamp(t: DateTime): (r: string)
    requires Valid(t)
    ensures |r| == 19 && DigitPositions(r)
    ensures r[4] == '-' && r[7] == '-' && r[10] == '_' && r[13] == '-' && r[16] == '-'
  {
    Render(t, '_', '-')
  }

  /** "yyyy-MM-dd HH:mm:ss", the pattern of the report's generation time. */
  function DisplayStamp(t: DateTime): (r: string)
    requires Valid(t)
    ensures |r| == 19 && DigitPositions(r)
    ensures r[4] == '-' && r[7] == '-' && r[10] == ' ' && r[13] == ':' && r[16] == ':'
  {
    Render(t, ' ', ':')
  }

  /** The positions of a 19-character stamp that hold digits. */
  predicate DigitPositions(s: string)
    requires |s| == 19
  {
    forall i :: 0 <= i < 19 && i != 4 && i != 7 && i != 10 && i != 13 && i != 16 ==> IsDigit(s[i])
  }

  /** The two-digit number at positions `i` and `i + 1`. */
  function Read2(s: string, i: nat): nat
    requires i + 2 <= |s| && IsDigit(s[i]) && IsDigit(s[i + 1])
  {
    10 * DigitValue(s[i]) + DigitValue(s[i + 1])
  }

  /** Reads back a stamp whose date and time are joined by `between` and
      whose time fields are separated by `timeSep`. */
  function ParseStamp(s: string, between: char, timeSep: char): Option<DateTime> {
    if |s| == 19 && s[4] == '-' && s[7] == '-' && s[10] == between && s[13] == timeSep && s[16] == timeSep
       && DigitPositions(s)
    then Some(DateTime(100 * Read2(s, 0) + Read2(s, 2), Read2(s, 5), Read2(s, 8),
                       Read2(s, 11), Read2(s, 14), Read2(s, 17)))
    else None
  }

  /** Reads back a "yyyy-MM-dd_HH-mm-ss" stamp. */
  function ParseFileStamp(s: string): Option<DateTime> {
    ParseStamp(s, '_', '-')
  }

  /** Reads back a "yyyy-MM-dd HH:mm:ss" stamp. */
  function ParseDisplayStamp(s: string): Option<DateTime> {
    ParseStamp(s, ' ', ':')
  }

  /** Either rendering loses nothing: reading it back gives the reading. */
  lemma RenderRoundTrip(t: DateTime, between: char, timeSep: char)
    requires Valid(t) && !IsDigit(between) && !IsDigit(timeSep)
    ensures ParseStamp(Render(t, between, timeSep), between, timeSep) == Some(t)
  {
    var s := Render(t, between, timeSep);
    assert DigitPositions(s);
  }

  /** The file-name stamp loses nothing: reading it back gives the reading. */
  lemma FileStampRoundTrip(t: DateTime)
    requires Valid(t)
    ensures ParseFileStamp(FileStamp(t)) == Some(t)
  {
    RenderRoundTrip(t, '_', '-');
  }

  /** The report's generation stamp loses nothing either. */
  lemma DisplayStampRoundTrip(t: DateTime)
    requires Valid(t)
    ensures ParseDisplayStamp(DisplayStamp(t)) == Some(t)
  {
    RenderRoundTrip(t, ' ', ':');
  }

  /** The two patterns show the same digits and differ only in the three
      separators at positions 10, 13 and 16. */
  lemma DisplayStampOfFileStamp(t: DateTime)
    requires Valid(t)
    ensures var f, d := FileStamp(t), DisplayStamp(t);
      forall i :: 0 <= i < 19 && i != 10 && i != 13 && i != 16 ==> d[i] == f[i]
  {
  }

  /** Two readings that differ (to the second) give different file-name stamps. */
  lemma FileStampInjective(t: DateTime, u: DateTime)
    requires Valid(t) && Valid(u) && FileStamp(t) == FileStamp(u)
    ensures t == u
  {
    FileStampRoundTrip(t);
    FileStampRoundTrip(u);
  }
}
