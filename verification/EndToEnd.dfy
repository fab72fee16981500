/** The layers together: what is on disk and on the console is a function of what was pushed. */
module EndToEnd {
  import opened LogTypes
  import opened LineParser
  import opened FileName
  import opened Router
  import opened Runs
  import opened RouterSpec
  import opened DailyFiles
  import opened Protocol
  import opened Safety
  import opened Shutdown

  /** The output a logger that was constructed with `start` has produced, one WriteLog after another. */
  ghost predicate Produced(start: Output, s: State, o: Output) {
    && |s.log.opens| == |s.log.written|
    && exists outs :: StatesOf(WriteLog, start, s.log.written, s.log.opens, outs) && outs[|s.log.written|] == o
  }

  /** So the output is a function of the entries written and of which opens failed. */
  lemma ProducedIsFunction(start: Output, s: State, o: Output)
    requires Produced(start, s, o)
    ensures o == WriteAll(start, s.log.written, s.log.opens)
  {
    var h, opens := s.log.written, s.log.opens;
    var outs :| StatesOf(WriteLog, start, h, opens, outs) && outs[|h|] == o;
    StatesAt(WriteLog, start, h, opens, outs, |h|);
    assert h[..|h|] == h && opens[..|h|] == opens;
  }

  lemma ProducedMore(start: Output, s: State, o: Output, t: State, e: LogEntry, opens: bool)
    requires Produced(start, s, o)
    requires t.log.written == s.log.written + [e] && t.log.opens == s.log.opens + [opens]
    ensures Produced(start, t, WriteLog(o, e, opens))
  {
    var outs :| StatesOf(WriteLog, start, s.log.written, s.log.opens, outs) && outs[|s.log.written|] == o;
    StatesThen(WriteLog, start, s.log.written, s.log.opens, outs, e, opens);
    assert (outs + [WriteLog(o, e, opens)])[|t.log.written|] == WriteLog(o, e, opens);
  }

  /** Only the consumer's WriteOne step produces output, one WriteLog at a time. */
  lemma ProducedStep(start: Output, s: State, o: Output, a: Action)
    requires Produced(start, s, o) && Enabled(s, a)
    ensures a.WriteOne? ==> Produced(start, Step(s, a), WriteLog(o, s.readBuffer[s.consumer.next], a.opens))
    ensures !a.WriteOne? ==> Produced(start, Step(s, a), o)
  {
    if a.WriteOne? {
      ProducedMore(start, s, o, Step(s, a), s.readBuffer[s.consumer.next], a.opens);
    } else {
      assert Step(s, a).log.written == s.log.written && Step(s, a).log.opens == s.log.opens;
    }
  }

  /** At any moment, for every interleaving, every history of times and every pattern of failing opens. */
  lemma OutputOfHistory(start: Output, s: State, o: Output)
    requires FreshOutput(start) && Reachable(s) && Produced(start, s, o)
    ensures s.log.written <= s.log.pushed
    ensures RoutedFrom(start, o, s.log.written, s.log.opens)
  {
    ExactlyOnceInOrder(s);
    ProducedIsFunction(start, s, o);
    Routed(start, s.log.written, s.log.opens);
  }

  /**
   Stop, end to end, for every interleaving, every history of times and every pattern of failing opens: when it
   returns, the entries pushed before the final test of the write buffer have been routed, among them everything
   pushed before Stop cleared the flag; the rest waits in the write buffer.
   */
  lemma StopRouted(start: Output, s: State, acts: seq<Action>, t: State, o: Output)
    requires FreshOutput(start) && Reachable(s) && s.handle && Enabled(s, StopFlag)
    requires StartFlag !in acts && StopFlag !in acts && Exec(Step(s, StopFlag), acts) == Some(t)
    requires t.controller == Idle && Produced(start, t, o)
    ensures t.log.finalMark <= |t.log.pushed| && |t.log.opens| == t.log.finalMark
    ensures s.log.pushed <= t.log.pushed[..t.log.finalMark]
    ensures RoutedFrom(start, o, t.log.pushed[..t.log.finalMark], t.log.opens)
    ensures t.writeBuffer == t.log.pushed[t.log.finalMark..]
  {
    StopInProgressRun(s, acts, t);
    StopDrains(s, acts, t);
    BetweenSessions(t);
    OutputOfHistory(start, t, o);
  }

  /** `h` has arrived: on the console, and in the files of its levels and dates. */
  ghost predicate Arrived(start: Output, o: Output, h: seq<LogEntry>) {
    && o.console == start.console + Lines(h)
    && forall level, date: SystemTime | date.ValidDate() ::
         Grew(start.files, o.files, LogFileName(level, start.stem, date), Lines(Select(h, level, date)))
  }

  /** When no level jumps to another date with the same day and no open fails, they are in the files of their dates. */
  lemma StoppedOutput(start: Output, s: State, acts: seq<Action>, t: State, o: Output)
    requires FreshOutput(start) && Reachable(s) && s.handle && Enabled(s, StopFlag)
    requires StartFlag !in acts && StopFlag !in acts && Exec(Step(s, StopFlag), acts) == Some(t)
    requires t.controller == Idle && Produced(start, t, o)
    requires ValidDates(t.log.written) && DateStable(t.log.written) && HeadsOpen(t.log.written, t.log.opens)
    ensures s.log.pushed <= t.log.written && t.log.written + t.writeBuffer == t.log.pushed
    ensures Arrived(start, o, t.log.written)
  {
    StopDrains(s, acts, t);
    ProducedIsFunction(start, t, o);
    Routed(start, t.log.written, t.log.opens);
    forall level, date: SystemTime | date.ValidDate()
      ensures Grew(start.files, o.files, LogFileName(level, start.stem, date),
                   Lines(Select(t.log.written, level, date)))
    {
      FilesByDate(start, t.log.written, t.log.opens, level, date);
    }
  }

  lemma {:induction false} SelectReadable(h: seq<LogEntry>, level: LogLevel, date: SystemTime)
    requires AllReadable(h)
    ensures AllReadable(Select(h, level, date))
  {
    if h != [] {
      SelectReadable(h[..|h| - 1], level, date);
    }
  }

  lemma NoLinesNoEntries(h: seq<LogEntry>)
    requires AllReadable(h) && Lines(h) == ""
    ensures h == []
  {
    FileRoundTrip(h);
  }

  /** Nothing is lost on the way: from an empty console and a disk without the file the entries can be read back. */
  lemma ReadBack(start: Output, o: Output, h: seq<LogEntry>, level: LogLevel, date: SystemTime)
    requires Arrived(start, o, h) && AllReadable(h) && date.ValidDate()
    ensures start.console == "" ==> ParseFile(o.console) == Some(h)
    ensures var name := LogFileName(level, start.stem, date);
            var entries := Select(h, level, date);
            name !in start.files ==>
              if name in o.files then ParseFile(o.files[name]) == Some(entries) else entries == []
  {
    FileRoundTrip(h);
    assert "" + Lines(h) == Lines(h);
    var entries := Select(h, level, date);
    SelectReadable(h, level, date);
    FileRoundTrip(entries);
    if Lines(entries) == "" {
      NoLinesNoEntries(entries);
    }
    assert Grew(start.files, o.files, LogFileName(level, start.stem, date), Lines(entries));
  }
}
