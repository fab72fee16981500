/**
 The name of a log file (Logger.cpp, GetLogFileName): the stem of the process path is cut out of a
 character buffer in place and put between the level and the date.
 */
module FileName {
  import opened LogTypes
  import opened Text
  import opened Format

  const MAX_PATH := 260

  // ----- the stem of a path -----

  /** `path` is directory, stem and extension, split at the last backslash and the last dot after it. */
  predicate IsSplit(path: string, dir: string, stem: string, ext: string) {
    && path == dir + stem + ext
    && (dir == "" || dir[|dir| - 1] == '\\')
    && '\\' !in stem && '\\' !in ext
    && (if ext == "" then '.' !in stem else ext[0] == '.' && '.' !in ext[1..])
  }

  function NameStart(path: string): (i: nat)
    ensures i <= |path|
  {
    LastIndexOf(path, '\\') + 1
  }

  function StemEnd(path: string): (i: nat)
    ensures NameStart(path) <= i <= |path|
  {
    var dot := LastIndexOf(path[NameStart(path)..], '.');
    if dot == -1 then |path| else NameStart(path) + dot
  }

  function Stem(path: string): string {
    path[NameStart(path)..StemEnd(path)]
  }

  lemma ScansSplit(path: string)
    ensures IsSplit(path, path[..NameStart(path)], Stem(path), path[StemEnd(path)..])
  {
    var i, j := NameStart(path), StemEnd(path);
    assert path[i..][..j - i] == path[i..j] && path[i..][j - i..] == path[j..];
    assert path == path[..i] + path[i..j] + path[j..];
  }

  lemma DirectoryEnds(dir: string, name: string)
    requires (dir == "" || dir[|dir| - 1] == '\\') && '\\' !in name
    ensures LastIndexOf(dir + name, '\\') == |dir| - 1
  {
    if dir != "" {
      var d := |dir| - 1;
      assert dir + name == dir[..d] + ['\\'] + name;
      LastIndexOfConcat(dir[..d], '\\', name);
    } else {
      assert dir + name == name;
      LastIndexOfAbsent(name, '\\');
    }
  }

  lemma NameEnds(stem: string, ext: string)
    requires if ext == "" then '.' !in stem else ext[0] == '.' && '.' !in ext[1..]
    ensures LastIndexOf(stem + ext, '.') == if ext == "" then -1 else |stem|
  {
    if ext != "" {
      assert stem + ext == stem + ['.'] + ext[1..];
      LastIndexOfConcat(stem, '.', ext[1..]);
    } else {
      assert stem + ext == stem;
      LastIndexOfAbsent(stem, '.');
    }
  }

  lemma SplitPoints(path: string, dir: string, stem: string, ext: string)
    requires IsSplit(path, dir, stem, ext)
    ensures NameStart(path) == |dir| && StemEnd(path) == |dir| + |stem|
  {
    var name := stem + ext;
    assert path == dir + name;
    DirectoryEnds(dir, name);
    assert path[|dir|..] == name;
    NameEnds(stem, ext);
  }

  /** The two scans split every path, and there is only one such split. */
  lemma StemIsTheSplit(path: string, dir: string, stem: string, ext: string)
    ensures IsSplit(path, dir, stem, ext)
       <==> dir == path[..NameStart(path)] && stem == Stem(path) && ext == path[StemEnd(path)..]
  {
    ScansSplit(path);
    if IsSplit(path, dir, stem, ext) {
      SplitPoints(path, dir, stem, ext);
    }
  }

  // ----- the name -----

  /** "%04d%02d%02d" */
  function DateText(t: SystemTime): string {
    Print([Padded(t.year, 4), Padded(t.month, 2), Padded(t.day, 2)])
  }

  /** "%s_%s_%04d%02d%02d.log" printed into a buffer of 512 characters. */
  function LogFileName(level: LogLevel, stem: string, t: SystemTime): string {
    Clip(Print([LevelName(level), "_", stem, "_", DateText(t), ".log"]), 512)
  }

  lemma DatePieces(y: string, m: string, d: string)
    ensures Print([y, m, d]) == y + m + d
  {
    PrintAppend([], y);
    assert [] + [y] == [y] && Print([y]) == y;
    PrintAppend([y], m);
    PrintAppend([y, m], d);
    assert [y] + [m] == [y, m] && [y, m] + [d] == [y, m, d];
  }

  /** No stem of a path below MAX_PATH, and no 16-bit date, makes the name too long for its buffer. */
  lemma FileNameFits(level: LogLevel, stem: string, t: SystemTime)
    requires |stem| < MAX_PATH
    ensures LogFileName(level, stem, t) ==
            LevelName(level) + "_" + stem + "_" + (Padded(t.year, 4) + Padded(t.month, 2) + Padded(t.day, 2)) + ".log"
  {
    DatePieces(Padded(t.year, 4), Padded(t.month, 2), Padded(t.day, 2));
    PrintSix(LevelName(level), "_", stem, "_", DateText(t), ".log");
    WordLength(t.year, 4);
    WordLength(t.month, 2);
    WordLength(t.day, 2);
  }

  lemma ParseLevelName(level: LogLevel)
    ensures ParseLevel(LevelName(level)) == Some(level)
    ensures forall c | c in LevelName(level) :: c != '_' && c != ']' && c != '\n'
  {
  }

  datatype NameKey = NameKey(level: LogLevel, stem: string, year: Word, month: Word, day: Word)

  function ReadKey(level: string, stem: string, y: string, m: string, d: string): Option<NameKey> {
    match (ParseLevel(level), ParseWord(y), ParseWord(m), ParseWord(d))
    case (Some(l), Some(year), Some(month), Some(day)) => Some(NameKey(l, stem, year, month, day))
    case _ => None
  }

  /** Level, stem and date of a file name, found by its first and its last underscore. */
  function ParseFileName(name: string): Option<NameKey> {
    var i := IndexOf(name, '_');
    var j := LastIndexOf(name, '_');
    var n := |name| - 4;
    if i >= j || n < j + 6 then None
    else ReadKey(name[..i], name[i + 1..j], name[j + 1..n - 4], name[n - 4..n - 2], name[n - 2..n])
  }

  lemma NoUnderscoreInNumber(w: Word, width: nat)
    ensures '_' !in Padded(w, width)
  {
    ValuePadded(w, width);
  }

  predicate HasParts(name: string, level: string, stem: string, y: string, m: string, d: string) {
    var i, j, n := |level|, |level| + 1 + |stem|, |name| - 4;
    && IndexOf(name, '_') == i && LastIndexOf(name, '_') == j && n == j + 1 + |y| + 4
    && name[..i] == level && name[i + 1..j] == stem
    && name[j + 1..n - 4] == y && name[n - 4..n - 2] == m && name[n - 2..n] == d
  }

  lemma Underscores(level: string, stem: string, back: string)
    requires '_' !in level && '_' !in back
    ensures var name := level + "_" + stem + "_" + back;
            var i, j := |level|, |level| + 1 + |stem|;
            && IndexOf(name, '_') == i && LastIndexOf(name, '_') == j
            && name[..i] == level && name[i + 1..j] == stem && name[j + 1..] == back
  {
    var name := level + "_" + stem + "_" + back;
    assert name == level + ['_'] + (stem + "_" + back);
    IndexOfConcat(level, '_', stem + "_" + back);
    assert name == (level + "_" + stem) + ['_'] + back;
    LastIndexOfConcat(level + "_" + stem, '_', back);
  }

  lemma DateParts(name: string, j: nat, y: string, m: string, d: string)
    requires j < |name| && name[j + 1..] == y + m + d + ".log" && |m| == 2 && |d| == 2
    ensures var n := |name| - 4;
            n == j + 1 + |y| + 4 && name[j + 1..n - 4] == y && name[n - 4..n - 2] == m && name[n - 2..n] == d
  {
    var back := name[j + 1..];
    assert back[..|y|] == y && back[|y|..|y| + 2] == m && back[|y| + 2..|y| + 4] == d;
  }

  /** The two underscores find the parts again, whatever the parts are. */
  lemma NameParts(name: string, level: string, stem: string, y: string, m: string, d: string)
    requires '_' !in level && '_' !in y && '_' !in m && '_' !in d && |m| == 2 && |d| == 2
    requires name == level + "_" + stem + "_" + (y + m + d) + ".log"
    ensures HasParts(name, level, stem, y, m, d)
  {
    var back := y + m + d + ".log";
    assert name == level + "_" + stem + "_" + back;
    Underscores(level, stem, back);
    DateParts(name, |level| + 1 + |stem|, y, m, d);
  }

  lemma ReadParts(name: string, level: string, stem: string, y: string, m: string, d: string)
    requires HasParts(name, level, stem, y, m, d) && y != ""
    ensures ParseFileName(name) == ReadKey(level, stem, y, m, d)
  {
  }

  /** The name determines level, stem and date. */
  lemma FileNameRoundTrip(level: LogLevel, stem: string, t: SystemTime)
    requires |stem| < MAX_PATH && t.month < 100 && t.day < 100
    ensures ParseFileName(LogFileName(level, stem, t)) == Some(NameKey(level, stem, t.year, t.month, t.day))
  {
    var y, m, d := Padded(t.year, 4), Padded(t.month, 2), Padded(t.day, 2);
    WordLength(t.year, 4);
    WordLength(t.month, 2);
    WordLength(t.day, 2);
    NoUnderscoreInNumber(t.year, 4);
    NoUnderscoreInNumber(t.month, 2);
    NoUnderscoreInNumber(t.day, 2);
    ParseLevelName(level);
    ParseWordPadded(t.year, 4);
    ParseWordPadded(t.month, 2);
    ParseWordPadded(t.day, 2);
    FileNameFits(level, stem, t);
    NameParts(LogFileName(level, stem, t), LevelName(level), stem, y, m, d);
    ReadParts(LogFileName(level, stem, t), LevelName(level), stem, y, m, d);
  }

  /** Two levels, two processes or two dates never share a log file. */
  lemma FileNameInjective(level: LogLevel, stem: string, t: SystemTime, level': LogLevel, stem': string, t': SystemTime)
    requires |stem| < MAX_PATH && t.ValidDate() && |stem'| < MAX_PATH && t'.ValidDate()
    ensures LogFileName(level, stem, t) == LogFileName(level', stem', t')
       <==> level == level' && stem == stem' && t.SameDate(t')
  {
    FileNameRoundTrip(level, stem, t);
    FileNameRoundTrip(level', stem', t');
  }

  // ----- the scan in place -----

  lemma StemFromTail(full: string, start: nat)
    requires start == NameStart(full)
    ensures var dot := LastIndexOf(full[start..], '.');
            Stem(full) == if dot == -1 then full[start..] else full[start..][..dot]
  {
  }

  lemma CStringEnds(s: string)
    requires '\0' in s
    ensures |CString(s)| < |s| && s[|CString(s)|] == '\0'
  {
    assert s == s[..|s|];
  }

  lemma {:induction false} CStringSuffix(s: string, i: nat)
    requires i <= |CString(s)|
    ensures CString(s[i..]) == CString(s)[i..]
  {
    if i > 0 {
      CStringSuffix(s[1..], i - 1);
      assert s[1..][i - 1..] == s[i..];
      assert CString(s)[i..] == CString(s[1..])[i - 1..];
    } else {
      assert s[0..] == s;
    }
  }

  lemma CStringCut(s: string, i: nat)
    requires i < |CString(s)|
    ensures CString(s[i := '\0']) == CString(s)[..i]
  {
    assert '\0' !in s[..i] by {
      assert s[..i] == CString(s)[..i];
    }
    assert s[i := '\0'] == s[..i] + ['\0'] + s[i + 1..];
    IndexOfConcat(s[..i], '\0', s[i + 1..]);
  }

  /**
   The part of GetLogFileName that works on the path buffer: find the last backslash, then the last dot
   after it, and cut the string there by storing a NUL. The stem is the C string that starts at `start`.
   */
  method CutStem(path: array<char>) returns (start: nat)
    requires '\0' in path[..]
    modifies path
    ensures start <= path.Length
    ensures CString(path[start..]) == Stem(CString(old(path[..])))
    ensures start == NameStart(CString(old(path[..])))
    ensures forall i | 0 <= i < path.Length && i != StemEnd(CString(old(path[..]))) :: path[i] == old(path[i])
  {
    ghost var full := CString(path[..]);
    CStringEnds(path[..]);
    var backslash := LastIndexOf(CString(path[..]), '\\');
    start := if backslash != -1 then backslash + 1 else 0;
    ghost var tail := path[start..];
    CStringSuffix(path[..], start);
    assert path[..][start..] == tail;
    var dot := LastIndexOf(CString(path[start..]), '.');
    if dot != -1 {
      path[start + dot] := '\0';
      assert path[start..] == tail[dot := '\0'];
      CStringCut(tail, dot);
    }
    StemFromTail(full, start);
  }
}
