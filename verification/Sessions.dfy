/** Entries logged while no consumer thread runs: they survive, wake the next session and come first. */
module Sessions {
  import opened Protocol
  import opened Invariant
  import opened Shutdown

  /** No call of EnqueueLog is between taking the lock and its SetEvent. */
  ghost predicate Quiet(s: State) {
    forall p :: !HoldsLock(Phase(s, p)) && !Pending(Phase(s, p))
  }

  /** What a past session left, or what was logged before the first Start, keeps the event signalled. */
  lemma StrandedKeepsSignal(s: State)
    requires Reachable(s) && s.consumer == NoThread && Quiet(s)
    ensures s.writeBuffer != [] ==> s.event
    ensures |s.writeBuffer| == |s.log.pushed| - s.log.finalMark
  {
    InvReachable(s);
  }

  predicate Drained(s: State) {
    s.writeBuffer == [] && Unread(s) == []
  }

  /** Position within one round of the loop, counted from the writing of the previous batch. */
  function RoundRank(c: Consumer): nat {
    match c
    case AtUnlock(_, _) => 6
    case Writing(_, _) => 5
    case AtTest => 4
    case AtWait => 3
    case AtLock(_) => 2
    case InLock(_) => 1
    case _ => 0
  }

  predicate InLoop(s: State) {
    s.running && s.consumer != NoThread && !IsFinal(s.consumer)
  }

  /** Closer to having written everything: one batch less, or further on in the round. */
  predicate CloserToDrained(t: State, s: State) {
    || (s.writeBuffer != [] && t.writeBuffer == [])
    || (t.writeBuffer == s.writeBuffer &&
         (RoundRank(t.consumer) < RoundRank(s.consumer) ||
          (RoundRank(t.consumer) == RoundRank(s.consumer) && 0 <= Remaining(t) < Remaining(s))))
  }

  lemma ConsumerCanGo(s: State)
    requires Inv(s) && InLoop(s) && Quiet(s) && !Drained(s)
    ensures Enabled(s, NextConsumerAction(s))
  {
  }

  lemma LoopGoesOn(s: State, a: Action)
    requires InLoop(s) && Quiet(s) && Enabled(s, a) && IsConsumerAction(a)
    ensures InLoop(Step(s, a)) && Quiet(Step(s, a))
  {
    forall p ensures Phase(Step(s, a), p) == Phase(s, p) {}
  }

  lemma DrainStep(s: State)
    requires QueueInv(s) && InLoop(s) && !Drained(s) && Enabled(s, NextConsumerAction(s))
    ensures CloserToDrained(Step(s, NextConsumerAction(s)), s)
  {
    var t := Step(s, NextConsumerAction(s));
    if s.consumer.InLock? {
      assert s.readBuffer == [] && t.writeBuffer == [];
    } else {
      assert t.writeBuffer == s.writeBuffer;
    }
  }

  /** Consumer steps alone write everything that was pushed. */
  ghost predicate Drains(s: State, acts: seq<Action>) {
    && (forall a | a in acts :: IsConsumerAction(a))
    && Exec(s, acts).Some?
    && Exec(s, acts).value.log.written == s.log.pushed
  }

  lemma DrainsFirst(s: State, a: Action, more: seq<Action>)
    requires Enabled(s, a) && IsConsumerAction(a) && Drains(Step(s, a), more)
    ensures Drains(s, [a] + more)
  {
    ExecFirst(s, a, more);
    assert Step(s, a).log.pushed == s.log.pushed + [];
  }

  lemma {:induction false} LoopDrains(s: State)
    requires Reachable(s) && InLoop(s) && Quiet(s)
    ensures exists acts :: Drains(s, acts)
    decreases |s.writeBuffer|, RoundRank(s.consumer), Remaining(s)
  {
    InvReachable(s);
    if Drained(s) {
      assert s.log.written + [] + [] == s.log.written;
      assert Drains(s, []);
    } else {
      ConsumerCanGo(s);
      DrainStep(s);
      var a := NextConsumerAction(s);
      var t := Step(s, a);
      LoopGoesOn(s, a);
      ReachableStep(s, a);
      LoopDrains(t);
      var more :| Drains(t, more);
      DrainsFirst(s, a, more);
    }
  }

  /**
   After a Start that creates a thread, the consumer alone, without a single new log call, can write
   everything logged before: nothing needs to wake it but the signal that was left.
   */
  lemma NextSessionDrains(s: State)
    requires Reachable(s) && Enabled(s, StartFlag) && Quiet(s)
    ensures exists acts :: Drains(Step(Step(s, StartFlag), BeginThread(true)), acts)
  {
    var flagged := Step(s, StartFlag);
    var t := Step(flagged, BeginThread(true));
    ReachableStep(s, StartFlag);
    ReachableStep(flagged, BeginThread(true));
    assert forall p :: Phase(t, p) == Phase(s, p);
    LoopDrains(t);
  }
}
