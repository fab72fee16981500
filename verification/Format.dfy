/**
 How an entry becomes a line of text: truncation of the message, the timestamp, the line
 (Logger.cpp, EnqueueLog, FormatTimestamp, WriteLog), and their inverses.
 */
module Format {
  import opened LogTypes
  import opened Text

  function LevelName(level: LogLevel): string {
    match level
    case Info => "Info"
    case Error => "Error"
    case Warning => "Warning"
  }

  function ParseLevel(name: string): Option<LogLevel> {
    if name == "Info" then Some(Info)
    else if name == "Error" then Some(Error)
    else if name == "Warning" then Some(Warning)
    else None
  }

  /** What vsnprintf reports: an encoding error, or the text the arguments format to, however long. */
  datatype FormatResult = FormatError | Formatted(text: string)

  /** The message an entry stores: vsnprintf wrote into `buffer`, and assign copies `len` or 4095 characters. */
  function Stored(text: string): (r: Message)
    ensures |text| <= 4095 ==> r == text
    ensures |text| > 4095 ==> r == text[..4095]
  {
    var buffer := Clip(text, MAX_LOG_BUFFER_SIZE);
    buffer[..if |text| < MAX_LOG_BUFFER_SIZE then |text| else MAX_LOG_BUFFER_SIZE - 1]
  }

  // ----- timestamps -----

  /** "%04d-%02d-%02d %02d:%02d:%02d" */
  function TimestampText(t: SystemTime): string {
    Print([Padded(t.year, 4), "-", Padded(t.month, 2), "-", Padded(t.day, 2), " ",
           Padded(t.hour, 2), ":", Padded(t.minute, 2), ":", Padded(t.second, 2)])
  }

  /** The same text, one piece after another. */
  function TimestampPieces(t: SystemTime): string {
    Padded(t.year, 4) + ("-" + Padded(t.month, 2) + "-" + Padded(t.day, 2) + " " +
    Padded(t.hour, 2) + ":" + Padded(t.minute, 2) + ":" + Padded(t.second, 2))
  }

  lemma PrintFirst(a: string, rest: seq<string>)
    ensures Print([a] + rest) == a + Print(rest)
  {
    assert ([a] + rest)[1..] == rest;
  }

  lemma PrintSix(a: string, b: string, c: string, d: string, e: string, f: string)
    ensures Print([a, b, c, d, e, f]) == a + b + c + d + e + f
  {
    PrintAppend([], a);
    assert [] + [a] == [a] && Print([a]) == a;
    PrintAppend([a], b);
    PrintAppend([a, b], c);
    PrintAppend([a, b, c], d);
    PrintAppend([a, b, c, d], e);
    PrintAppend([a, b, c, d, e], f);
    assert [a] + [b] == [a, b] && [a, b] + [c] == [a, b, c] && [a, b, c] + [d] == [a, b, c, d];
    assert [a, b, c, d] + [e] == [a, b, c, d, e] && [a, b, c, d, e] + [f] == [a, b, c, d, e, f];
  }

  lemma PrintEleven(a: string, b: string, c: string, d: string, e: string, f: string,
                    g: string, h: string, i: string, j: string, k: string)
    ensures Print([a, b, c, d, e, f, g, h, i, j, k]) == a + (b + c + d + e + f + g + h + i + j + k)
  {
    PrintFirst(a, [b, c, d, e, f, g, h, i, j, k]);
    assert [a] + [b, c, d, e, f, g, h, i, j, k] == [a, b, c, d, e, f, g, h, i, j, k];
    PrintSix(b, c, d, e, f, g);
    PrintAppend([b, c, d, e, f, g], h);
    PrintAppend([b, c, d, e, f, g, h], i);
    PrintAppend([b, c, d, e, f, g, h, i], j);
    PrintAppend([b, c, d, e, f, g, h, i, j], k);
    assert [b, c, d, e, f, g] + [h] == [b, c, d, e, f, g, h];
    assert [b, c, d, e, f, g, h] + [i] == [b, c, d, e, f, g, h, i];
    assert [b, c, d, e, f, g, h, i] + [j] == [b, c, d, e, f, g, h, i, j];
    assert [b, c, d, e, f, g, h, i, j] + [k] == [b, c, d, e, f, g, h, i, j, k];
  }

  lemma TimestampIsPieces(t: SystemTime)
    ensures TimestampText(t) == TimestampPieces(t)
  {
    PrintEleven(Padded(t.year, 4), "-", Padded(t.month, 2), "-", Padded(t.day, 2), " ",
                Padded(t.hour, 2), ":", Padded(t.minute, 2), ":", Padded(t.second, 2));
  }

  /** The buffer for a timestamp holds 32 characters. */
  function FormatTimestamp(t: SystemTime): string {
    Clip(TimestampText(t), 32)
  }

  function ParseWord(s: string): Option<Word> {
    if s != "" && AllDigits(s) && Value(s) < 0x1_0000 then Some(Value(s)) else None
  }

  /** Reads a timestamp back: the last fifteen characters have a fixed layout, the rest is the year. */
  function ParseTimestamp(s: string): Option<SystemTime> {
    var n := |s| - 15;
    if n < 1 || s[n] != '-' || s[n + 3] != '-' || s[n + 6] != ' ' || s[n + 9] != ':' || s[n + 12] != ':' then None
    else
      match (ParseWord(s[..n]), ParseWord(s[n + 1..n + 3]), ParseWord(s[n + 4..n + 6]),
             ParseWord(s[n + 7..n + 9]), ParseWord(s[n + 10..n + 12]), ParseWord(s[n + 13..]))
      case (Some(y), Some(m), Some(d), Some(h), Some(i), Some(c)) => Some(SystemTime(y, m, d, h, i, c))
      case _ => None
  }

  lemma WordLength(w: Word, width: nat)
    requires width == 2 || width == 4
    ensures width <= |Padded(w, width)| <= 5
    ensures width == 2 && w < 100 ==> |Padded(w, width)| == 2
    ensures width == 4 && w < 10000 ==> |Padded(w, width)| == 4
  {
    PaddedLength(w, width);
    DigitsLength(w, 5);
    assert Pow10(5) == 10 * Pow10(4) && Pow10(3) == 10 * Pow10(2) && Pow10(4) == 10 * Pow10(3);
  }

  predicate TwoDigitFields(t: SystemTime) {
    t.month < 100 && t.day < 100 && t.hour < 100 && t.minute < 100 && t.second < 100
  }

  /** A date after the year 9999 takes one more character. */
  lemma TimestampLength(t: SystemTime)
    ensures FormatTimestamp(t) == if |TimestampText(t)| <= 31 then TimestampText(t) else TimestampText(t)[..31]
    ensures |TimestampText(t)| <= 35 && |FormatTimestamp(t)| <= 31
    ensures TwoDigitFields(t) ==> |TimestampText(t)| == |Padded(t.year, 4)| + 15 <= 20
    ensures TwoDigitFields(t) && t.year < 10000 ==> |FormatTimestamp(t)| == 19
  {
    TimestampIsPieces(t);
    WordLength(t.year, 4);
    WordLength(t.month, 2);
    WordLength(t.day, 2);
    WordLength(t.hour, 2);
    WordLength(t.minute, 2);
    WordLength(t.second, 2);
  }

  lemma ParseWordPadded(w: Word, width: nat)
    requires width > 0
    ensures ParseWord(Padded(w, width)) == Some(w)
  {
    ValuePadded(w, width);
    PaddedLength(w, width);
  }

  predicate PiecesIn(s: string, y: string, m: string, d: string, h: string, i: string, c: string) {
    var n := |s| - 15;
    && n >= 1 && s[n] == '-' && s[n + 3] == '-' && s[n + 6] == ' ' && s[n + 9] == ':' && s[n + 12] == ':'
    && s[..n] == y && s[n + 1..n + 3] == m && s[n + 4..n + 6] == d
    && s[n + 7..n + 9] == h && s[n + 10..n + 12] == i && s[n + 13..] == c
  }

  lemma PiecesAt(y: string, m: string, d: string, h: string, i: string, c: string)
    requires y != "" && |m| == 2 && |d| == 2 && |h| == 2 && |i| == 2 && |c| == 2
    ensures PiecesIn(y + ("-" + m + "-" + d + " " + h + ":" + i + ":" + c), y, m, d, h, i, c)
  {
  }

  /** No two times with two-digit fields print alike: the timestamp reads back. */
  lemma TimestampRoundTrip(t: SystemTime)
    requires TwoDigitFields(t)
    ensures ParseTimestamp(FormatTimestamp(t)) == Some(t)
  {
    TimestampLength(t);
    TimestampIsPieces(t);
    WordLength(t.month, 2);
    WordLength(t.day, 2);
    WordLength(t.hour, 2);
    WordLength(t.minute, 2);
    WordLength(t.second, 2);
    PaddedLength(t.year, 4);
    PiecesAt(Padded(t.year, 4), Padded(t.month, 2), Padded(t.day, 2),
             Padded(t.hour, 2), Padded(t.minute, 2), Padded(t.second, 2));
    ParseWordPadded(t.year, 4);
    ParseWordPadded(t.month, 2);
    ParseWordPadded(t.day, 2);
    ParseWordPadded(t.hour, 2);
    ParseWordPadded(t.minute, 2);
    ParseWordPadded(t.second, 2);
  }

  /** Chronological order on the six fields. */
  predicate Earlier(t: SystemTime, u: SystemTime) {
    t.year < u.year || (t.year == u.year && (
    t.month < u.month || (t.month == u.month && (
    t.day < u.day || (t.day == u.day && (
    t.hour < u.hour || (t.hour == u.hour && (
    t.minute < u.minute || (t.minute == u.minute &&
    t.second < u.second)))))))))
  }

  lemma {:induction false} LexLessIrreflexive(s: string)
    ensures !LexLess(s, s)
  {
    if s != "" {
      LexLessIrreflexive(s[1..]);
    }
  }

  /** One field and its separator: order of the whole is order of the field, then of the rest. */
  lemma FieldOrder(v: Word, w: Word, width: nat, sep: string, r: string, r': string)
    requires width > 0 && v < Pow10(width) && w < Pow10(width)
    ensures LexLess(Padded(v, width) + (sep + r), Padded(w, width) + (sep + r')) <==> v < w || (v == w && LexLess(r, r'))
  {
    PaddedLength(v, width);
    PaddedLength(w, width);
    ValuePadded(v, width);
    ValuePadded(w, width);
    LexLessDigits(Padded(v, width), Padded(w, width));
    LexLessConcat(Padded(v, width), sep + r, Padded(w, width), sep + r');
    LexLessConcat(sep, r, sep, r');
    LexLessIrreflexive(sep);
  }

  function AfterHour(t: SystemTime): string { Padded(t.minute, 2) + (":" + (Padded(t.second, 2) + ("" + ""))) }
  function AfterDay(t: SystemTime): string { Padded(t.hour, 2) + (":" + AfterHour(t)) }
  function AfterYear(t: SystemTime): string { Padded(t.month, 2) + ("-" + (Padded(t.day, 2) + (" " + AfterDay(t)))) }

  lemma Regroup(y: string, m: string, d: string, h: string, i: string, c: string)
    ensures y + ("-" + m + "-" + d + " " + h + ":" + i + ":" + c) ==
            y + ("-" + (m + ("-" + (d + (" " + (h + (":" + (i + (":" + (c + ("" + "")))))))))))
  {
    var low := i + (":" + (c + ("" + "")));
    assert low == i + ":" + c;
    var mid := d + (" " + (h + (":" + low)));
    assert mid == d + " " + h + ":" + i + ":" + c;
    assert "-" + (m + ("-" + mid)) == "-" + m + "-" + d + " " + h + ":" + i + ":" + c;
  }

  lemma TimestampFields(t: SystemTime)
    ensures TimestampText(t) == Padded(t.year, 4) + ("-" + AfterYear(t))
  {
    TimestampIsPieces(t);
    Regroup(Padded(t.year, 4), Padded(t.month, 2), Padded(t.day, 2),
            Padded(t.hour, 2), Padded(t.minute, 2), Padded(t.second, 2));
  }

  /** For years up to 9999 sorting the printed timestamps sorts the times. */
  lemma TimestampOrder(t: SystemTime, u: SystemTime)
    requires TwoDigitFields(t) && TwoDigitFields(u) && t.year < 10000 && u.year < 10000
    ensures LexLess(FormatTimestamp(t), FormatTimestamp(u)) <==> Earlier(t, u)
  {
    TimestampLength(t);
    TimestampLength(u);
    TimestampFields(t);
    TimestampFields(u);
    assert Pow10(2) == 100 && Pow10(4) == 10000 by {
      assert Pow10(4) == 10 * Pow10(3) && Pow10(3) == 10 * Pow10(2) && Pow10(2) == 10 * Pow10(1);
    }
    FieldOrder(t.year, u.year, 4, "-", AfterYear(t), AfterYear(u));
    FieldOrder(t.month, u.month, 2, "-", Padded(t.day, 2) + (" " + AfterDay(t)), Padded(u.day, 2) + (" " + AfterDay(u)));
    FieldOrder(t.day, u.day, 2, " ", AfterDay(t), AfterDay(u));
    FieldOrder(t.hour, u.hour, 2, ":", AfterHour(t), AfterHour(u));
    FieldOrder(t.minute, u.minute, 2, ":", Padded(t.second, 2) + ("" + ""), Padded(u.second, 2) + ("" + ""));
    FieldOrder(t.second, u.second, 2, "", "", "");
  }

  // ----- lines -----

  /** "%s|[%s] %s\n" of the timestamp, the level name and the message up to its first NUL. */
  function FormatLine(e: LogEntry): string {
    Print([FormatTimestamp(e.time), "|[", LevelName(e.level), "] ", CString(e.message), "\n"])
  }

  lemma LinePieces(e: LogEntry)
    ensures FormatLine(e) == FormatTimestamp(e.time) + "|[" + LevelName(e.level) + "] " + CString(e.message) + "\n"
  {
    PrintSix(FormatTimestamp(e.time), "|[", LevelName(e.level), "] ", CString(e.message), "\n");
  }

  const OUTPUT_BUFFER_SIZE := MAX_LOG_BUFFER_SIZE + 64

  /** Whatever is logged, snprintf reports a positive length and stores the whole line. */
  lemma LineFits(e: LogEntry)
    ensures 6 <= |FormatLine(e)| <= 4138 < OUTPUT_BUFFER_SIZE
    ensures Clip(FormatLine(e), OUTPUT_BUFFER_SIZE) == FormatLine(e)
  {
    TimestampLength(e.time);
    LinePieces(e);
  }
}
