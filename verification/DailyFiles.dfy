/** One file per level and date: what the rotation promises, and exactly when it keeps the promise. */
module DailyFiles {
  import opened LogTypes
  import opened Format
  import opened LineParser
  import opened Router
  import opened RouterSpec
  import opened FileName

  predicate ValidDates(h: seq<LogEntry>) {
    forall k | 0 <= k < |h| :: h[k].time.ValidDate()
  }

  /** Every open succeeds, and there is one at the first entry of each run only. */
  predicate HeadsOpen(h: seq<LogEntry>, opens: seq<bool>)
    requires |h| == |opens|
  {
    forall k | 0 <= k < |h| && Head(h, k) == k :: opens[k]
  }

  /** Neighbours of one level that fall on the same day of the month fall on the same date. */
  predicate DateStable(h: seq<LogEntry>) {
    forall k | 0 <= k < |h| ::
      var p := Before(h, k);
      p >= 0 && h[p].time.day == h[k].time.day ==> h[p].time.SameDate(h[k].time)
  }

  /** Every entry goes to the file of its own level and date. */
  predicate Filed(stem: string, h: seq<LogEntry>, opens: seq<bool>)
    requires |h| == |opens|
  {
    forall k | 0 <= k < |h| ::
      Destination(stem, h, opens, k) == Some(LogFileName(h[k].level, stem, h[k].time))
  }

  lemma {:induction false} HeadHasDate(h: seq<LogEntry>, k: nat)
    requires k < |h| && DateStable(h)
    ensures h[Head(h, k)].level == h[k].level && h[Head(h, k)].time.SameDate(h[k].time)
  {
    var p := Before(h, k);
    if p >= 0 && h[p].time.day == h[k].time.day {
      HeadHasDate(h, p);
    }
  }

  lemma DestinationWhenOpen(stem: string, h: seq<LogEntry>, opens: seq<bool>, k: nat)
    requires k < |h| == |opens| && ValidDates(h) && opens[Head(h, k)]
    ensures Destination(stem, h, opens, k) == Some(LogFileName(h[k].level, stem, h[Head(h, k)].time))
  {
  }

  lemma FiledWhenStable(stem: string, h: seq<LogEntry>, opens: seq<bool>, k: nat)
    requires k < |h| == |opens| && ValidDates(h) && |stem| < MAX_PATH
    requires DateStable(h) && HeadsOpen(h, opens)
    ensures Destination(stem, h, opens, k) == Some(LogFileName(h[k].level, stem, h[k].time))
  {
    HeadHasDate(h, k);
    HeadOfHead(h, k);
    DestinationWhenOpen(stem, h, opens, k);
    FileNameInjective(h[k].level, stem, h[Head(h, k)].time, h[k].level, stem, h[k].time);
  }

  lemma SameFile(stem: string, h: seq<LogEntry>, opens: seq<bool>, p: nat, k: nat)
    requires |h| == |opens| && ValidDates(h) && |stem| < MAX_PATH && Filed(stem, h, opens)
    requires k < |h| && p == Before(h, k) && h[p].time.day == h[k].time.day
    ensures h[p].time.SameDate(h[k].time)
  {
    DestinationStep(stem, h, opens, k);
    FileNameInjective(h[p].level, stem, h[p].time, h[k].level, stem, h[k].time);
  }

  /**
   Rotation compares only the day of the month and stores the day also when the open fails, so it files every entry
   correctly exactly when no level jumps from one date to another with the same day and no open fails.
   */
  lemma FiledExactly(stem: string, h: seq<LogEntry>, opens: seq<bool>)
    requires |h| == |opens| && ValidDates(h) && |stem| < MAX_PATH
    ensures Filed(stem, h, opens) <==> DateStable(h) && HeadsOpen(h, opens)
  {
    if DateStable(h) && HeadsOpen(h, opens) {
      forall k | 0 <= k < |h|
        ensures Destination(stem, h, opens, k) == Some(LogFileName(h[k].level, stem, h[k].time))
      {
        FiledWhenStable(stem, h, opens, k);
      }
    }
    if Filed(stem, h, opens) {
      forall k | 0 <= k < |h| && Before(h, k) >= 0 && h[Before(h, k)].time.day == h[k].time.day
        ensures h[Before(h, k)].time.SameDate(h[k].time)
      {
        SameFile(stem, h, opens, Before(h, k), k);
      }
      forall k | 0 <= k < |h| && Head(h, k) == k ensures opens[k] {
        assert Destination(stem, h, opens, k).Some?;
      }
    }
  }

  /** The fifteenth of January, then the fifteenth of February with nothing between: no rotation. */
  lemma MonthLaterIsMisfiled(stem: string)
    requires |stem| < MAX_PATH
    ensures var january := LogEntry(Info, "", SystemTime(2024, 1, 15, 0, 0, 0));
            var february := LogEntry(Info, "", SystemTime(2024, 2, 15, 0, 0, 0));
            var h, opens := [january, february], [true, true];
            && ValidDates(h)
            && Destination(stem, h, opens, 1) == Some(LogFileName(Info, stem, january.time))
            && !Filed(stem, h, opens)
  {
    var january := LogEntry(Info, "", SystemTime(2024, 1, 15, 0, 0, 0));
    var february := LogEntry(Info, "", SystemTime(2024, 2, 15, 0, 0, 0));
    var h, opens := [january, february], [true, true];
    assert Before(h, 1) == 0 by {
      assert h[..1] == [january];
    }
    assert Head(h, 0) == 0;
    DestinationWhenOpen(stem, h, opens, 1);
    FileNameInjective(Info, stem, january.time, Info, stem, february.time);
  }

  /** An open fails; the day is stored all the same, so the next entry of the day is not filed either. */
  lemma FailedOpenLosesTheDay(stem: string, time: SystemTime, later: SystemTime)
    requires time.ValidDate() && later.SameDate(time)
    ensures var h, opens := [LogEntry(Error, "", time), LogEntry(Error, "", later)], [false, true];
            Destination(stem, h, opens, 0) == None && Destination(stem, h, opens, 1) == None
  {
    var h, opens := [LogEntry(Error, "", time), LogEntry(Error, "", later)], [false, true];
    assert Before(h, 1) == 0 by {
      assert h[..1] == [h[0]];
    }
    assert Head(h, 0) == 0;
  }

  /** The entries of one level and date, in order. */
  function Select(h: seq<LogEntry>, level: LogLevel, date: SystemTime): (r: seq<LogEntry>)
    ensures forall e | e in r :: e in h && e.level == level && e.time.SameDate(date)
  {
    if h == [] then []
    else
      var e := h[|h| - 1];
      Select(h[..|h| - 1], level, date) + if e.level == level && e.time.SameDate(date) then [e] else []
  }

  lemma LinesAppend(h: seq<LogEntry>, e: LogEntry)
    ensures Lines(h + [e]) == Lines(h) + FormatLine(e)
  {
    assert (h + [e])[..|h|] == h;
  }

  lemma FiledPrefix(stem: string, h: seq<LogEntry>, opens: seq<bool>, n: nat)
    requires n <= |h| == |opens| && Filed(stem, h, opens)
    ensures Filed(stem, h[..n], opens[..n])
  {
    forall k | 0 <= k < n ensures Destination(stem, h[..n], opens[..n], k) == Destination(stem, h, opens, k) {
      DestinationOfPrefix(stem, h, opens, n, k);
    }
  }

  lemma LinesOfDateStep(stem: string, h: seq<LogEntry>, opens: seq<bool>, level: LogLevel, date: SystemTime, name: string)
    requires h != [] && |h| == |opens|
    requires var n := |h| - 1;
             && LinesTo(stem, h[..n], opens[..n], name) == Lines(Select(h[..n], level, date))
             && (Destination(stem, h, opens, n) == Some(name) <==> h[n].level == level && h[n].time.SameDate(date))
    ensures LinesTo(stem, h, opens, name) == Lines(Select(h, level, date))
  {
    var n := |h| - 1;
    var before := Select(h[..n], level, date);
    LinesAppend(before, h[n]);
    if Destination(stem, h, opens, n) == Some(name) {
      assert Select(h, level, date) == before + [h[n]];
    } else {
      assert Select(h, level, date) == before;
    }
  }

  /** When entries are filed correctly, the lines of a file are those of its level and date. */
  lemma {:induction false} LinesOfDate(stem: string, h: seq<LogEntry>, opens: seq<bool>, level: LogLevel, date: SystemTime)
    requires |h| == |opens| && ValidDates(h) && date.ValidDate() && |stem| < MAX_PATH
    requires Filed(stem, h, opens)
    ensures LinesTo(stem, h, opens, LogFileName(level, stem, date)) == Lines(Select(h, level, date))
  {
    if h != [] {
      var n := |h| - 1;
      FiledPrefix(stem, h, opens, n);
      LinesOfDate(stem, h[..n], opens[..n], level, date);
      FileNameInjective(h[n].level, stem, h[n].time, level, stem, date);
      LinesOfDateStep(stem, h, opens, level, date, LogFileName(level, stem, date));
    }
  }

  /**
   The files after a date-stable history with successful opens, even when dates go back and a file is opened
   again: each file of a level and date has its old content and then exactly the lines of that level and date.
   */
  lemma FilesByDate(start: Output, h: seq<LogEntry>, opens: seq<bool>, level: LogLevel, date: SystemTime)
    requires FreshOutput(start) && |h| == |opens| && ValidDates(h) && DateStable(h) && HeadsOpen(h, opens)
    requires date.ValidDate()
    ensures var name := LogFileName(level, start.stem, date);
            Grew(start.files, WriteAll(start, h, opens).files, name, Lines(Select(h, level, date)))
  {
    Routed(start, h, opens);
    FiledExactly(start.stem, h, opens);
    LinesOfDate(start.stem, h, opens, level, date);
  }
}
