/** Reading a log file back: the inverse of writing one line after another. */
module LineParser {
  import opened LogTypes
  import opened Text
  import opened Format
  import FileName

  /** The text that writing the entries of `h` one after another produces. */
  function Lines(h: seq<LogEntry>): string {
    if h == [] then "" else Lines(h[..|h| - 1]) + FormatLine(h[|h| - 1])
  }

  /** An entry whose line can be told apart in a file: no newline, no NUL, and a time that prints in full. */
  predicate Readable(e: LogEntry) {
    e.time.Valid() && '\n' !in e.message && '\0' !in e.message
  }

  predicate AllReadable(h: seq<LogEntry>) {
    forall k | 0 <= k < |h| :: Readable(h[k])
  }

  function ReadEntry(time: string, level: string, message: string): Option<LogEntry> {
    match (ParseTimestamp(time), ParseLevel(level))
    case (Some(t), Some(l)) => if |message| < MAX_LOG_BUFFER_SIZE then Some(LogEntry(l, message, t)) else None
    case _ => None
  }

  /** One line without its newline: timestamp, '|', level in brackets, message. */
  function ParseLine(line: string): Option<LogEntry> {
    var bar := IndexOf(line, '|');
    var close := IndexOf(line, ']');
    if bar + 2 > close || close + 2 > |line| || line[bar + 1] != '[' || line[close + 1] != ' ' then None
    else ReadEntry(line[..bar], line[bar + 2..close], line[close + 2..])
  }

  /** The entries of a whole file; the last line must be complete. */
  function ParseFile(text: string): Option<seq<LogEntry>> {
    var end := IndexOf(text, '\n');
    if text == "" then Some([])
    else if end == |text| then None
    else
      match (ParseLine(text[..end]), ParseFile(text[end + 1..]))
      case (Some(e), Some(rest)) => Some([e] + rest)
      case _ => None
  }

  lemma TimestampCharacters(t: SystemTime)
    ensures forall c | c in FormatTimestamp(t) :: c != '|' && c != ']' && c != '\n'
  {
    ValuePadded(t.year, 4);
    ValuePadded(t.month, 2);
    ValuePadded(t.day, 2);
    ValuePadded(t.hour, 2);
    ValuePadded(t.minute, 2);
    ValuePadded(t.second, 2);
    TimestampIsPieces(t);
    var s := TimestampPieces(t);
    assert forall c | c in s :: IsDigit(c) || c == '-' || c == ' ' || c == ':';
    assert forall c | c in FormatTimestamp(t) :: c in s;
  }

  /** The first bar and the first closing bracket find the parts again, whatever the parts are. */
  lemma LineParts(time: string, level: string, message: string)
    requires '|' !in time && ']' !in time && ']' !in level
    ensures ParseLine(time + "|[" + level + "] " + message) == ReadEntry(time, level, message)
  {
    var line := time + "|[" + level + "] " + message;
    assert line == time + ['|'] + ("[" + level + "] " + message);
    IndexOfConcat(time, '|', "[" + level + "] " + message);
    var front := time + "|[" + level;
    assert line == front + [']'] + (" " + message);
    assert ']' !in front;
    IndexOfConcat(front, ']', " " + message);
    assert line[..|time|] == time && line[|time| + 2..|front|] == level && line[|front| + 2..] == message;
  }

  /** A line of a file: no newline before its end. */
  predicate IsLine(line: string) {
    line != "" && line[|line| - 1] == '\n' && '\n' !in line[..|line| - 1]
  }

  lemma EndLine(body: string)
    requires '\n' !in body
    ensures IsLine(body + "\n") && (body + "\n")[..|body|] == body
  {
    assert (body + "\n")[..|body|] == body;
  }

  lemma LineOfParts(time: string, e: LogEntry)
    requires ParseTimestamp(time) == Some(e.time) && forall c | c in time :: c != '|' && c != ']' && c != '\n'
    requires '\n' !in e.message
    ensures IsLine(time + "|[" + LevelName(e.level) + "] " + e.message + "\n")
    ensures ParseLine((time + "|[" + LevelName(e.level) + "] " + e.message + "\n")[..|time| + |LevelName(e.level)| + |e.message| + 4]) == Some(e)
  {
    FileName.ParseLevelName(e.level);
    LineParts(time, LevelName(e.level), e.message);
    EndLine(time + "|[" + LevelName(e.level) + "] " + e.message);
  }

  /** A line is its entry: messages may even contain bars and brackets. */
  lemma LineRoundTrip(e: LogEntry)
    requires Readable(e)
    ensures IsLine(FormatLine(e))
    ensures ParseLine(FormatLine(e)[..|FormatLine(e)| - 1]) == Some(e)
  {
    TimestampRoundTrip(e.time);
    TimestampCharacters(e.time);
    CStringWithoutNul(e.message);
    LinePieces(e);
    LineOfParts(FormatTimestamp(e.time), e);
  }

  lemma {:induction false} LinesFromTheFront(h: seq<LogEntry>)
    requires h != []
    ensures Lines(h) == FormatLine(h[0]) + Lines(h[1..])
  {
    var n := |h| - 1;
    if n == 0 {
      assert h[..0] == h[1..] == [];
    } else {
      LinesFromTheFront(h[..n]);
      assert h[..n][1..] == h[1..][..n - 1];
      ConcatAssociative(FormatLine(h[0]), Lines(h[1..][..n - 1]), FormatLine(h[n]));
    }
  }

  lemma FirstNewline(line: string, rest: string)
    requires IsLine(line)
    ensures IndexOf(line + rest, '\n') == |line| - 1
    ensures (line + rest)[..|line| - 1] == line[..|line| - 1] && (line + rest)[|line|..] == rest
  {
    assert line + rest == line[..|line| - 1] + ['\n'] + rest;
    IndexOfConcat(line[..|line| - 1], '\n', rest);
  }

  lemma FirstLine(text: string, line: string, rest: string, e: LogEntry, h: seq<LogEntry>)
    requires IsLine(line) && ParseLine(line[..|line| - 1]) == Some(e) && ParseFile(rest) == Some(h)
    requires text == line + rest
    ensures ParseFile(text) == Some([e] + h)
  {
    FirstNewline(line, rest);
    var end := IndexOf(text, '\n');
    var first := text[..end];
    assert first == line[..|line| - 1];
    assert text[end + 1..] == rest;
    assert ParseLine(first) == Some(e);
  }

  lemma FirstEntry(h: seq<LogEntry>)
    requires h != [] && Readable(h[0]) && ParseFile(Lines(h[1..])) == Some(h[1..])
    ensures ParseFile(Lines(h)) == Some([h[0]] + h[1..])
  {
    LinesFromTheFront(h);
    LineRoundTrip(h[0]);
    FirstLine(Lines(h), FormatLine(h[0]), Lines(h[1..]), h[0], h[1..]);
  }

  /** Parsing what a sequence of readable entries prints gives back exactly that sequence. */
  lemma {:induction false} FileRoundTrip(h: seq<LogEntry>)
    requires AllReadable(h)
    ensures ParseFile(Lines(h)) == Some(h)
  {
    if h != [] {
      FileRoundTrip(h[1..]);
      FirstEntry(h);
      assert h == [h[0]] + h[1..];
    }
  }
}
