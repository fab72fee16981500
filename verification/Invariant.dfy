/** What every step of the protocol keeps, for any number of producers and any sequence of sessions. */
module Invariant {
  import opened LogTypes
  import opened Runs
  import opened Protocol

  // ----- the parts of the invariant -----

  predicate HoldsLock(phase: Producer) {
    phase.Locked? || phase == Pushed
  }

  /** Between its push and its SetEvent. */
  predicate Pending(phase: Producer) {
    phase == Pushed || phase == Unlocked
  }

  /** The lock is held by exactly the thread inside a critical section. */
  ghost predicate LockInv(s: State) {
    && (forall p :: HoldsLock(Phase(s, p)) <==> s.lock == ByProducer(p))
    && ((s.consumer.InLock? || s.consumer.AtUnlock?) <==> s.lock == ByConsumer)
  }

  /** The loop has ended. */
  predicate IsFinal(c: Consumer) {
    match c
    case AtLock(final) => final
    case InLock(final) => final
    case AtUnlock(final, _) => final
    case Writing(final, _) => final
    case Finished => true
    case _ => false
  }

  /** The last test of the write buffer in this session has been made. */
  predicate PastFinalSwap(c: Consumer) {
    IsFinal(c) && !c.AtLock? && !c.InLock?
  }

  predicate Stopping(c: Controller) {
    c == StopFlagged || c == StopSignalled || c == StopWaiting
  }

  predicate ControlInv(s: State) {
    && (s.consumer != NoThread ==> s.handle || s.controller == StartBegun)
    && (s.handle && s.consumer == NoThread ==> s.controller == StopJoined)
    && (s.controller == StopJoined ==> s.consumer == NoThread)
    && (s.controller == StartFlagged || s.controller == StartBegun ==> !s.handle && s.running)
    && (s.controller == StartBegun ==> s.consumer != NoThread)
    && (s.controller == StartStored ==> s.handle && s.running)
    && (Stopping(s.controller) || s.controller == StopJoined ==> !s.running)
    && (s.consumer != NoThread && s.controller == Idle ==> s.running)
    && (IsFinal(s.consumer) ==> !s.running)
    && (s.baseRunning <==> s.handle && s.controller != StartStored && s.controller != StopWaiting &&
                           s.controller != StopJoined)
  }

  /** Somebody will look at a non-empty write buffer. */
  ghost predicate WakeInv(s: State) {
    s.writeBuffer != [] ==>
      || s.event
      || (exists p :: Pending(Phase(s, p)))
      || s.consumer == AtLock(false) || s.consumer == InLock(false)
  }

  predicate StopWakeInv(s: State) {
    s.consumer == AtWait && !s.running ==> s.event || s.controller == StopFlagged
  }

  /** The entries of the current batch that are still to be written. */
  function Unread(s: State): seq<LogEntry> {
    match s.consumer
    case AtUnlock(_, true) => s.readBuffer
    case Writing(_, next) => if next <= |s.readBuffer| then s.readBuffer[next..] else []
    case _ => []
  }

  predicate QueueInv(s: State) {
    && s.log.written + Unread(s) + s.writeBuffer == s.log.pushed
    && (s.readBuffer != [] <==> s.consumer.Writing? || (s.consumer.AtUnlock? && s.consumer.swapped))
    && (s.consumer.Writing? ==> s.consumer.next <= |s.readBuffer|)
  }

  predicate MarkInv(s: State) {
    && |s.log.pushers| == |s.log.pushed|
    && s.log.stopMark <= |s.log.pushed| && s.log.finalMark <= |s.log.pushed|
    && (PastFinalSwap(s.consumer) ==> s.log.stopMark <= s.log.finalMark)
    && (PastFinalSwap(s.consumer) || s.consumer == NoThread ==> s.writeBuffer == s.log.pushed[s.log.finalMark..])
  }

  ghost predicate Inv(s: State) {
    LockInv(s) && ControlInv(s) && WakeInv(s) && StopWakeInv(s) && QueueInv(s) && MarkInv(s)
  }

  // ----- every step keeps every part -----

  lemma LockStep(s: State, a: Action)
    requires LockInv(s) && ControlInv(s) && Enabled(s, a)
    ensures LockInv(Step(s, a))
  {
    if a.Push? || a.Release? {
      assert HoldsLock(Phase(s, a.caller));
    }
    var t := Step(s, a);
    forall p ensures HoldsLock(Phase(t, p)) <==> t.lock == ByProducer(p) {
      assert HoldsLock(Phase(s, p)) <==> s.lock == ByProducer(p);
    }
  }

  lemma ControlStep(s: State, a: Action)
    requires ControlInv(s) && Enabled(s, a)
    ensures ControlInv(Step(s, a))
  {
  }

  lemma WakeStep(s: State, a: Action)
    requires LockInv(s) && ControlInv(s) && QueueInv(s) && WakeInv(s) && Enabled(s, a)
    ensures WakeInv(Step(s, a))
  {
    var t := Step(s, a);
    if t.writeBuffer != [] && !t.event && t.consumer != AtLock(false) && t.consumer != InLock(false) {
      if a.Push? {
        assert Pending(Phase(t, a.caller));
      } else {
        assert s.writeBuffer != [] && !s.event && s.consumer != AtLock(false) && s.consumer != InLock(false);
        var p :| Pending(Phase(s, p));
        assert Pending(Phase(t, p));
      }
    }
  }

  lemma StopWakeStep(s: State, a: Action)
    requires ControlInv(s) && StopWakeInv(s) && Enabled(s, a)
    ensures StopWakeInv(Step(s, a))
  {
  }

  lemma UnreadWrite(s: State, opens: bool)
    requires QueueInv(s) && Enabled(s, WriteOne(opens))
    ensures Unread(s) == [s.readBuffer[s.consumer.next]] + Unread(Step(s, WriteOne(opens)))
  {
  }

  lemma UnreadStep(s: State, a: Action)
    requires ControlInv(s) && QueueInv(s) && Enabled(s, a) && !a.WriteOne?
    ensures var t := Step(s, a);
            if a.Swap? then Unread(s) == [] && Unread(t) + t.writeBuffer == s.writeBuffer else Unread(t) == Unread(s)
  {
    match a
    case Swap => assert s.readBuffer == [];
    case Clear => assert s.readBuffer[s.consumer.next..] == [];
    case _ =>
  }

  lemma ReadBufferStep(s: State, a: Action)
    requires ControlInv(s) && QueueInv(s) && Enabled(s, a)
    ensures var t := Step(s, a);
            && (t.readBuffer != [] <==> t.consumer.Writing? || (t.consumer.AtUnlock? && t.consumer.swapped))
            && (t.consumer.Writing? ==> t.consumer.next <= |t.readBuffer|)
  {
  }

  lemma QueueStep(s: State, a: Action)
    requires ControlInv(s) && QueueInv(s) && Enabled(s, a)
    ensures QueueInv(Step(s, a))
  {
    var t := Step(s, a);
    ReadBufferStep(s, a);
    if a.WriteOne? {
      UnreadWrite(s, a.opens);
      ConcatAssociative(s.log.written, [s.readBuffer[s.consumer.next]], Unread(t));
    } else {
      UnreadStep(s, a);
      if a.Push? {
        ConcatAssociative(s.log.written + Unread(s), s.writeBuffer, [Phase(s, a.caller).entry]);
      } else if a.Swap? {
        ConcatAssociative(s.log.written, Unread(t), t.writeBuffer);
        assert s.log.written + [] == s.log.written;
      }
    }
  }

  lemma MarkStep(s: State, a: Action)
    requires LockInv(s) && ControlInv(s) && QueueInv(s) && MarkInv(s) && Enabled(s, a)
    ensures MarkInv(Step(s, a))
  {
  }

  lemma InvStep(s: State, a: Action)
    requires Inv(s) && Enabled(s, a)
    ensures Inv(Step(s, a))
  {
    LockStep(s, a);
    ControlStep(s, a);
    WakeStep(s, a);
    StopWakeStep(s, a);
    QueueStep(s, a);
    MarkStep(s, a);
  }

  lemma {:induction false} InvRun(s: State, acts: seq<Action>, t: State)
    requires Inv(s) && Exec(s, acts) == Some(t)
    ensures Inv(t)
  {
    if acts != [] {
      var n := |acts| - 1;
      var u := Exec(s, acts[..n]).value;
      InvRun(s, acts[..n], u);
      InvStep(u, acts[n]);
    }
  }

  lemma InvReachable(s: State)
    requires Reachable(s)
    ensures Inv(s)
  {
    var acts :| Exec(Init(), acts) == Some(s);
    assert Inv(Init());
    InvRun(Init(), acts, s);
  }

  // ----- the accounts of a whole run -----

  function Count(b: bool): nat {
    if b then 1 else 0
  }

  /** The tests of the write buffer that the consumer still owes: one it is about to make, and that after the loop. */
  function TestsDue(c: Consumer): nat {
    Count(c.AtLock? || c.InLock?) + Count(c != NoThread && !IsFinal(c))
  }

  lemma TestsStep(s: State, a: Action)
    requires ControlInv(s) && Enabled(s, a)
    ensures Count(IsSwap(a)) + TestsDue(Step(s, a).consumer) ==
            Count(IsWait(a)) + Count(IsCreation(a)) + TestsDue(s.consumer)
  {
  }

  /** Signals against waits that returned, and tests of the write buffer against waits and sessions. */
  predicate CountInv(acts: seq<Action>, s: State) {
    && Times(IsWait, acts) + Count(s.event) <= Times(IsSignal, acts) + Times(IsStopSignal, acts)
    && Times(IsSwap, acts) + TestsDue(s.consumer) == Times(IsWait, acts) + Times(IsCreation, acts)
  }

  lemma CountStep(acts: seq<Action>, s: State, a: Action)
    requires ControlInv(s) && CountInv(acts, s) && Enabled(s, a)
    ensures CountInv(acts + [a], Step(s, a))
  {
    TimesThen(IsWait, acts, a);
    TimesThen(IsSignal, acts, a);
    TimesThen(IsStopSignal, acts, a);
    TimesThen(IsSwap, acts, a);
    TimesThen(IsCreation, acts, a);
    TestsStep(s, a);
  }

  function PendingSet(s: State): set<Caller> {
    set p | p in s.producers && Pending(s.producers[p])
  }

  /** Pushes against signals of callers. */
  predicate SignalInv(acts: seq<Action>, s: State) {
    && Times(IsPush, acts) == |s.log.pushed|
    && Times(IsPush, acts) == Times(IsSignal, acts) + |PendingSet(s)|
  }

  /** Which calls are between push and SetEvent after a step. */
  lemma PendingStep(s: State, a: Action, p: Caller)
    requires Enabled(s, a)
    ensures Pending(Phase(Step(s, a), p)) <==>
            (if a == Push(p) then true else if a == Signal(p) then false else Pending(Phase(s, p)))
  {
  }

  lemma PendingSetStep(s: State, a: Action)
    requires Enabled(s, a)
    ensures PendingSet(Step(s, a)) ==
            match a
            case Push(p) => PendingSet(s) + {p}
            case Signal(p) => PendingSet(s) - {p}
            case _ => PendingSet(s)
  {
    forall p ensures p in PendingSet(Step(s, a)) <==> a == Push(p) || (a != Signal(p) && p in PendingSet(s)) {
      PendingStep(s, a, p);
    }
  }

  lemma SignalStep(acts: seq<Action>, s: State, a: Action)
    requires SignalInv(acts, s) && Enabled(s, a)
    ensures SignalInv(acts + [a], Step(s, a))
  {
    TimesThen(IsPush, acts, a);
    TimesThen(IsSignal, acts, a);
    PendingSetStep(s, a);
    assert a.Push? ==> a.caller !in PendingSet(s);
    assert a.Signal? ==> a.caller in PendingSet(s);
  }

  lemma {:induction false} AccountsHold(acts: seq<Action>, s: State)
    requires Exec(Init(), acts) == Some(s)
    ensures CountInv(acts, s) && SignalInv(acts, s)
  {
    if acts != [] {
      var n := |acts| - 1;
      ExecLast(Init(), acts, s);
      var t := Exec(Init(), acts[..n]).value;
      assert acts[..n] + [acts[n]] == acts;
      AccountsHold(acts[..n], t);
      InvReachable(t);
      CountStep(acts[..n], t, acts[n]);
      SignalStep(acts[..n], t, acts[n]);
    }
  }
}
