/**
 What the cached days amount to. Within one level the entries fall into maximal runs of equal day of the
 month; a whole run goes to the file named by its first entry.
 */
module RouterSpec {
  import opened LogTypes
  import opened Format
  import opened LineParser
  import opened Router
  import FileName

  /** The last entry of a level in a history, or -1. */
  function LastOf(h: seq<LogEntry>, level: LogLevel): (j: int)
    ensures -1 <= j < |h|
    ensures j >= 0 ==> h[j].level == level
    ensures forall m | j < m < |h| :: h[m].level != level
  {
    if h == [] then -1
    else if h[|h| - 1].level == level then |h| - 1
    else LastOf(h[..|h| - 1], level)
  }

  /** The entry of the same level just before entry k, or -1. */
  function Before(h: seq<LogEntry>, k: nat): int
    requires k < |h|
  {
    LastOf(h[..k], h[k].level)
  }

  /** The first entry of the run that entry k belongs to. */
  function Head(h: seq<LogEntry>, k: nat): (j: nat)
    requires k < |h|
    ensures j <= k
  {
    var p := Before(h, k);
    if p >= 0 && h[p].time.day == h[k].time.day then Head(h, p) else k
  }

  /** Entries j to k of one level all fall on one day of the month, and the run starts at j. */
  predicate IsRunHead(h: seq<LogEntry>, j: nat, k: nat)
    requires k < |h|
  {
    && j <= k && h[j].level == h[k].level
    && (forall m | j <= m <= k && h[m].level == h[k].level :: h[m].time.day == h[k].time.day)
    && (forall m | 0 <= m < j && h[m].level == h[k].level &&
          (forall i | m < i < j :: h[i].level != h[k].level) :: h[m].time.day != h[j].time.day)
  }

  lemma {:induction false} HeadIsRunHead(h: seq<LogEntry>, k: nat)
    requires k < |h|
    ensures IsRunHead(h, Head(h, k), k)
  {
    var p := Before(h, k);
    if p >= 0 && h[p].time.day == h[k].time.day {
      HeadIsRunHead(h, p);
    }
  }

  /** The head of a run is that of every entry of the run. */
  lemma RunHeadOfBefore(h: seq<LogEntry>, j: nat, k: nat)
    requires j < k < |h| && IsRunHead(h, j, k)
    ensures var p := Before(h, k); j <= p && h[p].time.day == h[k].time.day && IsRunHead(h, j, p)
  {
    var p := Before(h, k);
    assert p >= j && h[p].level == h[k].level;
    forall m | j <= m <= p && h[m].level == h[p].level ensures h[m].time.day == h[p].time.day {
      assert h[m].level == h[k].level;
    }
    forall m | 0 <= m < j && h[m].level == h[p].level && forall i | m < i < j :: h[i].level != h[p].level
      ensures h[m].time.day != h[j].time.day
    {
      assert h[m].level == h[k].level;
    }
  }

  lemma RunHeadAlone(h: seq<LogEntry>, k: nat)
    requires k < |h| && IsRunHead(h, k, k)
    ensures Head(h, k) == k
  {
    var p := Before(h, k);
    if p >= 0 {
      assert h[p].level == h[k].level && forall i | p < i < k :: h[i].level != h[k].level by {
        forall i | p < i < k ensures h[i].level != h[k].level {
          assert h[..k][i] == h[i];
        }
      }
    }
  }

  lemma {:induction false} RunHeadIsHead(h: seq<LogEntry>, j: nat, k: nat)
    requires k < |h| && IsRunHead(h, j, k)
    ensures j == Head(h, k)
  {
    if j < k {
      RunHeadOfBefore(h, j, k);
      RunHeadIsHead(h, j, Before(h, k));
    } else {
      RunHeadAlone(h, k);
    }
  }

  /** The caching rule and the declarative rule pick the same entry. */
  lemma {:induction false} HeadExact(h: seq<LogEntry>, j: nat, k: nat)
    requires k < |h|
    ensures IsRunHead(h, j, k) <==> j == Head(h, k)
  {
    HeadIsRunHead(h, k);
    if IsRunHead(h, j, k) {
      RunHeadIsHead(h, j, k);
    }
  }

  /** A run causes one open, at its first entry; only a first run on day 0, the initial value, does not. */
  predicate Opened(h: seq<LogEntry>, opens: seq<bool>, j: nat)
    requires j < |h| == |opens|
  {
    opens[j] && (h[j].time.day != 0 || Before(h, j) >= 0)
  }

  /** The file entry k is written to. */
  function Destination(stem: string, h: seq<LogEntry>, opens: seq<bool>, k: nat): Option<string>
    requires k < |h| == |opens|
  {
    var j := Head(h, k);
    if Opened(h, opens, j) then Some(FileName.LogFileName(h[k].level, stem, h[j].time)) else None
  }

  /** The lines of the entries whose destination is `name`, in order. */
  function LinesTo(stem: string, h: seq<LogEntry>, opens: seq<bool>, name: string): string
    requires |h| == |opens|
  {
    if h == [] then ""
    else
      var n := |h| - 1;
      LinesTo(stem, h[..n], opens[..n], name) +
      if Destination(stem, h, opens, n) == Some(name) then FormatLine(h[n]) else ""
  }

  // ----- a prefix of a history determines what happened during it -----

  lemma {:induction false} HeadOfPrefix(h: seq<LogEntry>, n: nat, k: nat)
    requires k < n <= |h|
    ensures Before(h[..n], k) == Before(h, k)
    ensures Head(h[..n], k) == Head(h, k)
  {
    assert h[..n][..k] == h[..k];
    var p := Before(h, k);
    if p >= 0 && h[p].time.day == h[k].time.day {
      HeadOfPrefix(h, n, p);
    }
  }

  lemma DestinationOfPrefix(stem: string, h: seq<LogEntry>, opens: seq<bool>, n: nat, k: nat)
    requires k < n <= |h| == |opens|
    ensures Destination(stem, h[..n], opens[..n], k) == Destination(stem, h, opens, k)
  {
    HeadOfPrefix(h, n, k);
    HeadOfPrefix(h, n, Head(h, k));
  }

  // ----- the cached state equals the declarative rule -----

  /** The current day and open file of a level, read off the history. */
  predicate Cached(o: Output, h: seq<LogEntry>, opens: seq<bool>, level: LogLevel)
    requires |h| == |opens|
  {
    var k := LastOf(h, level);
    if k < 0 then o.days[Index(level)] == 0 && o.slots[Index(level)] == None
    else o.days[Index(level)] == h[k].time.day && o.slots[Index(level)] == Destination(o.stem, h, opens, k)
  }

  /** A file has grown by `added`; one that was not there before has nothing else in it. */
  predicate Grew(before: map<string, string>, after: map<string, string>, name: string, added: string) {
    if name in before then name in after && after[name] == before[name] + added
    else if name in after then after[name] == added
    else added == ""
  }

  ghost predicate RoutedFrom(start: Output, o: Output, h: seq<LogEntry>, opens: seq<bool>)
    requires |h| == |opens|
  {
    && o.stem == start.stem
    && o.console == start.console + Lines(h)
    && (forall level :: Cached(o, h, opens, level))
    && (forall name :: Grew(start.files, o.files, name, LinesTo(o.stem, h, opens, name)))
  }

  /** The destination of a new entry, from the one before it on its level. */
  lemma DestinationStep(stem: string, h: seq<LogEntry>, opens: seq<bool>, k: nat)
    requires k < |h| == |opens|
    ensures var p := Before(h, k);
            Destination(stem, h, opens, k) ==
            if p >= 0 && h[p].time.day == h[k].time.day then Destination(stem, h, opens, p)
            else if Opened(h, opens, k) then Some(FileName.LogFileName(h[k].level, stem, h[k].time))
            else None
  {
  }

  /** What one WriteLog does to the current day and the slot of a level. */
  lemma SlotStep(o: Output, e: LogEntry, opens: bool, level: LogLevel)
    ensures var o' := WriteLog(o, e, opens);
            var i := Index(level);
            if level == e.level && o.days[i] != e.time.day then
              o'.days[i] == e.time.day &&
              o'.slots[i] == if opens then Some(FileName.LogFileName(level, o.stem, e.time)) else None
            else
              o'.days[i] == o.days[i] && o'.slots[i] == o.slots[i]
  {
  }

  /** One WriteLog keeps day, slot and destination in step. */
  lemma CachedStep(o: Output, h: seq<LogEntry>, opens: seq<bool>, level: LogLevel)
    requires h != [] && |h| == |opens|
    requires var n := |h| - 1; Cached(o, h[..n], opens[..n], level)
    ensures var n := |h| - 1;
            var o' := WriteLog(o, h[n], opens[n]);
            && o'.stem == o.stem
            && Cached(o', h, opens, level)
            && (level == h[n].level ==> o'.slots[Index(level)] == Destination(o.stem, h, opens, n))
  {
    var n := |h| - 1;
    SlotStep(o, h[n], opens[n], level);
    var p := LastOf(h[..n], level);
    if p >= 0 {
      DestinationOfPrefix(o.stem, h, opens, n, p);
    }
    if level == h[n].level {
      DestinationStep(o.stem, h, opens, n);
    }
  }

  lemma FileStep(o: Output, e: LogEntry, opens: bool, name: string)
    ensures var o' := WriteLog(o, e, opens);
            Grew(o.files, o'.files, name, if o'.slots[Index(e.level)] == Some(name) then FormatLine(e) else "")
  {
  }

  lemma GrewTwice(a: map<string, string>, b: map<string, string>, c: map<string, string>,
                  name: string, first: string, more: string)
    requires Grew(a, b, name, first) && Grew(b, c, name, more)
    ensures Grew(a, c, name, first + more)
  {
    if name in a {
      ConcatAssociative(a[name], first, more);
    }
  }

  lemma ConsoleStep(o: Output, e: LogEntry, opens: bool)
    ensures WriteLog(o, e, opens).console == o.console + FormatLine(e)
  {
  }

  lemma RoutedFile(start: Output, o: Output, h: seq<LogEntry>, opens: seq<bool>, name: string)
    requires h != [] && |h| == |opens|
    requires RoutedFrom(start, o, h[..|h| - 1], opens[..|h| - 1])
    ensures Grew(start.files, WriteLog(o, h[|h| - 1], opens[|h| - 1]).files, name, LinesTo(o.stem, h, opens, name))
  {
    var n := |h| - 1;
    CachedStep(o, h, opens, h[n].level);
    FileStep(o, h[n], opens[n], name);
    var added := if Destination(o.stem, h, opens, n) == Some(name) then FormatLine(h[n]) else "";
    GrewTwice(start.files, o.files, WriteLog(o, h[n], opens[n]).files, name,
              LinesTo(o.stem, h[..n], opens[..n], name), added);
  }

  lemma RoutedStep(start: Output, o: Output, h: seq<LogEntry>, opens: seq<bool>)
    requires h != [] && |h| == |opens|
    requires RoutedFrom(start, o, h[..|h| - 1], opens[..|h| - 1])
    ensures RoutedFrom(start, WriteLog(o, h[|h| - 1], opens[|h| - 1]), h, opens)
  {
    var n := |h| - 1;
    forall level ensures Cached(WriteLog(o, h[n], opens[n]), h, opens, level) {
      CachedStep(o, h, opens, level);
    }
    forall name ensures Grew(start.files, WriteLog(o, h[n], opens[n]).files, name, LinesTo(o.stem, h, opens, name)) {
      RoutedFile(start, o, h, opens, name);
    }
    ConsoleStep(o, h[n], opens[n]);
    ConcatAssociative(start.console, Lines(h[..n]), FormatLine(h[n]));
    CachedStep(o, h, opens, h[n].level);
  }

  /**
   After any history, whatever the order of the times and whichever opens fail: the console has every line,
   every file has exactly the lines destined for it, and the cached days and slots follow the rule.
   */
  lemma {:induction false} Routed(start: Output, h: seq<LogEntry>, opens: seq<bool>)
    requires FreshOutput(start) && |h| == |opens|
    ensures RoutedFrom(start, WriteAll(start, h, opens), h, opens)
  {
    if h == [] {
      assert forall name :: LinesTo(start.stem, h, opens, name) == "";
    } else {
      var n := |h| - 1;
      Routed(start, h[..n], opens[..n]);
      RoutedStep(start, WriteAll(start, h[..n], opens[..n]), h, opens);
    }
  }

  // ----- which files exist -----

  /** The files a history opens: one for each run whose open succeeds. */
  function Created(stem: string, h: seq<LogEntry>, opens: seq<bool>): set<string>
    requires |h| == |opens|
  {
    if h == [] then {}
    else
      var n := |h| - 1;
      Created(stem, h[..n], opens[..n]) +
      if Head(h, n) == n && Opened(h, opens, n) then {FileName.LogFileName(h[n].level, stem, h[n].time)} else {}
  }

  lemma {:induction false} HeadOfHead(h: seq<LogEntry>, k: nat)
    requires k < |h|
    ensures Head(h, Head(h, k)) == Head(h, k) && h[Head(h, k)].level == h[k].level
  {
    var p := Before(h, k);
    if p >= 0 && h[p].time.day == h[k].time.day {
      HeadOfHead(h, p);
    }
  }

  lemma {:induction false} RunCreated(stem: string, h: seq<LogEntry>, opens: seq<bool>, j: nat)
    requires j < |h| == |opens| && Head(h, j) == j && Opened(h, opens, j)
    ensures FileName.LogFileName(h[j].level, stem, h[j].time) in Created(stem, h, opens)
  {
    var n := |h| - 1;
    if j < n {
      HeadOfPrefix(h, n, j);
      assert h[..n][j] == h[j] && Opened(h[..n], opens[..n], j);
      RunCreated(stem, h[..n], opens[..n], j);
    }
  }

  lemma DestinationCreated(stem: string, h: seq<LogEntry>, opens: seq<bool>, k: nat)
    requires k < |h| == |opens|
    ensures Destination(stem, h, opens, k).Some? ==> Destination(stem, h, opens, k).value in Created(stem, h, opens)
  {
    HeadOfHead(h, k);
    if Opened(h, opens, Head(h, k)) {
      RunCreated(stem, h, opens, Head(h, k));
    }
  }

  lemma KeysStep(o: Output, e: LogEntry, opens: bool)
    ensures var o' := WriteLog(o, e, opens);
            o'.files.Keys == o.files.Keys + match o'.slots[Index(e.level)] case Some(name) => {name} case None => {}
  {
  }

  /** A history creates one file more than its prefix only for the destination of its last entry. */
  lemma CreatedStep(stem: string, h: seq<LogEntry>, opens: seq<bool>)
    requires h != [] && |h| == |opens|
    ensures var n := |h| - 1;
            Created(stem, h, opens) == Created(stem, h[..n], opens[..n]) +
              match Destination(stem, h, opens, n) case Some(name) => {name} case None => {}
  {
    var n := |h| - 1;
    DestinationStep(stem, h, opens, n);
    var p := Before(h, n);
    if p >= 0 && h[p].time.day == h[n].time.day {
      DestinationOfPrefix(stem, h, opens, n, p);
      DestinationCreated(stem, h[..n], opens[..n], p);
      assert Head(h, n) <= p;
    } else {
      assert Head(h, n) == n;
    }
  }

  /** Writing creates no other file, and a failed open creates none. */
  lemma {:induction false} FilesCreated(start: Output, h: seq<LogEntry>, opens: seq<bool>)
    requires FreshOutput(start) && |h| == |opens|
    ensures WriteAll(start, h, opens).files.Keys == start.files.Keys + Created(start.stem, h, opens)
  {
    if h != [] {
      var n := |h| - 1;
      var o := WriteAll(start, h[..n], opens[..n]);
      FilesCreated(start, h[..n], opens[..n]);
      Routed(start, h[..n], opens[..n]);
      KeysStep(o, h[n], opens[n]);
      assert Cached(o, h[..n], opens[..n], h[n].level);
      CachedStep(o, h, opens, h[n].level);
      CreatedStep(start.stem, h, opens);
    }
  }
}
