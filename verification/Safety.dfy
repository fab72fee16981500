/** What holds in every reachable state, for any number of producers and across any number of sessions. */
module Safety {
  import opened LogTypes
  import opened Runs
  import opened Protocol
  import opened Invariant

  /** A thread is inside one of the two critical sections. */
  datatype Inside = AsProducer(caller: Caller) | AsConsumer

  predicate InCriticalSection(s: State, who: Inside) {
    match who
    case AsProducer(p) => HoldsLock(Phase(s, p))
    case AsConsumer => s.consumer.InLock? || s.consumer.AtUnlock?
  }

  lemma MutualExclusion(s: State, who: Inside, other: Inside)
    requires Reachable(s) && InCriticalSection(s, who) && InCriticalSection(s, other)
    ensures who == other
  {
    InvReachable(s);
  }

  /** Nobody pushes without the consumer getting to know. */
  lemma NoLostWakeup(s: State)
    requires Reachable(s) && s.writeBuffer != []
    ensures s.event || (exists p :: Pending(Phase(s, p))) || s.consumer == AtLock(false) || s.consumer == InLock(false)
  {
    InvReachable(s);
  }

  /** Every entry is written once, and in the order of the pushes. */
  lemma ExactlyOnceInOrder(s: State)
    requires Reachable(s)
    ensures s.log.written + Unread(s) + s.writeBuffer == s.log.pushed
    ensures s.consumer.InLock? ==> s.readBuffer == []
  {
    InvReachable(s);
  }

  /** Every push is one call's. */
  lemma PusherOfEach(s: State)
    requires Reachable(s)
    ensures |s.log.pushers| == |s.log.pushed|
  {
    InvReachable(s);
  }

  /** The consumer sleeps only when there is nothing to write and nobody is about to wake it. */
  lemma BlockedMeansWritten(s: State)
    requires Reachable(s) && s.consumer == AtWait && !Enabled(s, Wait)
    requires forall p :: !Pending(Phase(s, p))
    ensures s.log.written == s.log.pushed
  {
    InvReachable(s);
    assert s.writeBuffer == [];
    assert s.log.written + [] + [] == s.log.written;
  }

  /** A consumer that waits after the flag was cleared has been, or is just being, woken. */
  lemma StopWakesConsumer(s: State)
    requires Reachable(s) && !s.running && s.consumer == AtWait
    ensures s.event || s.controller == StopFlagged
  {
    InvReachable(s);
  }

  /**
   The loop never spins: along every run waits return at most once for each push and each Stop, and the write buffer
   is tested at most once more for each session.
   */
  lemma NoBusyWaiting(acts: seq<Action>, s: State)
    requires Exec(Init(), acts) == Some(s)
    ensures Times(IsWait, acts) + Count(s.event) <= Times(IsPush, acts) + Times(IsStopSignal, acts)
    ensures Times(IsSwap, acts) <= Times(IsPush, acts) + Times(IsStopSignal, acts) + Times(IsCreation, acts)
  {
    AccountsHold(acts, s);
  }

  /** With no call between its push and its SetEvent, callers have signalled exactly as often as they pushed. */
  lemma EverySignalCounts(acts: seq<Action>, s: State)
    requires Exec(Init(), acts) == Some(s) && forall p :: !Pending(Phase(s, p))
    ensures Times(IsSignal, acts) == Times(IsPush, acts) == |s.log.pushed|
  {
    AccountsHold(acts, s);
    assert forall p :: p in PendingSet(s) ==> Pending(Phase(s, p));
    assert PendingSet(s) == {};
  }

  /**
   At rest the base-class flag says whether there is a thread; the loop's flag can differ only after a failed
   CreateThread.
   */
  lemma FlagsAtRest(s: State)
    requires Reachable(s) && s.controller == Idle
    ensures s.baseRunning <==> s.handle
    ensures s.baseRunning ==> s.running
  {
    InvReachable(s);
  }

  /** History is never rewritten. */
  lemma {:induction false} HistoryGrows(s: State, acts: seq<Action>, t: State)
    requires Exec(s, acts) == Some(t)
    ensures s.log.pushed <= t.log.pushed && s.log.written <= t.log.written
  {
    if acts != [] {
      var n := |acts| - 1;
      var u := Exec(s, acts[..n]).value;
      HistoryGrows(s, acts[..n], u);
    }
  }

  lemma PrefixesCompare(a: seq<LogEntry>, b: seq<LogEntry>, c: seq<LogEntry>)
    requires a <= c && b <= c
    ensures if |b| <= |a| then b <= a else a <= b
  {
  }

  /** What was pushed by a certain moment is written before anything pushed later, whichever session writes it. */
  lemma EarlierFirst(s: State, acts: seq<Action>, t: State)
    requires Reachable(s) && Exec(s, acts) == Some(t)
    ensures if |t.log.written| <= |s.log.pushed| then t.log.written <= s.log.pushed else s.log.pushed <= t.log.written
  {
    ReachableThen(s, acts, t);
    ExactlyOnceInOrder(t);
    HistoryGrows(s, acts, t);
    assert t.log.written <= t.log.written + Unread(t) + t.writeBuffer;
    PrefixesCompare(s.log.pushed, t.log.written, t.log.pushed);
  }
}
