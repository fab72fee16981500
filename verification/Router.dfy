/**
 Where a line goes (Logger.cpp, WriteLog and OpenLogFile): three cached current days, three open files,
 the file system and the console.
 */
module Router {
  import opened LogTypes
  import opened Format
  import opened Runs
  import FileName

  function Index(level: LogLevel): (i: nat)
    ensures i < 3
  {
    match level
    case Info => 0
    case Error => 1
    case Warning => 2
  }

  /** `stem` is the process stem in every file name; a slot holds the name of the file it has open. */
  datatype OutputState = OutputState(
    stem: string,
    days: seq<Word>,
    slots: seq<Option<string>>,
    files: map<string, string>,
    console: string)

  type Output = o: OutputState | |o.days| == 3 && |o.slots| == 3
    witness OutputState("", [0, 0, 0], [None, None, None], map[], "")

  function Content(files: map<string, string>, name: string): string {
    if name in files then files[name] else ""
  }

  /** The state a constructor leaves: no day seen and no file open, whatever is on disk and on the console. */
  predicate FreshOutput(o: Output) {
    && |o.stem| < FileName.MAX_PATH
    && o.days == [0, 0, 0] && o.slots == [None, None, None]
  }

  /** Closes the level's file and opens the one for `t` to append; a failed open leaves the slot closed. */
  function OpenLogFile(o: Output, level: LogLevel, t: SystemTime, opens: bool): Output {
    var i := Index(level);
    var name := FileName.LogFileName(level, o.stem, t);
    o.(days := o.days[i := t.day],
       slots := o.slots[i := if opens then Some(name) else None],
       files := if opens then o.files[name := Content(o.files, name)] else o.files)
  }

  /** `opens` says whether an open succeeds, should the entry cause one. */
  function WriteLog(o: Output, e: LogEntry, opens: bool): Output {
    var i := Index(e.level);
    var ready := if o.days[i] != e.time.day then OpenLogFile(o, e.level, e.time, opens) else o;
    var line := FormatLine(e);
    ready.(
      files := match ready.slots[i]
               case Some(name) => ready.files[name := Content(ready.files, name) + line]
               case None => ready.files,
      console := ready.console + line)
  }

  /** A history of written entries, each with the outcome of the open it may have caused. */
  function WriteAll(o: Output, h: seq<LogEntry>, opens: seq<bool>): Output
    requires |h| == |opens|
  {
    FoldOf(WriteLog, o, h, opens)
  }
}
