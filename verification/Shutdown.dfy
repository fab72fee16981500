/** What Stop guarantees: it wakes the consumer, loses nothing, and comes to an end. */
module Shutdown {
  import opened LogTypes
  import opened Runs
  import opened Protocol
  import opened Invariant

  // ----- the consumer runs down -----

  /** How far the consumer is from its end once the flag is cleared. */
  function Rank(c: Consumer): nat {
    match c
    case AtWait => 11
    case AtLock(false) => 10
    case InLock(false) => 9
    case AtUnlock(false, _) => 8
    case Writing(false, _) => 7
    case AtTest => 6
    case AtLock(true) => 5
    case InLock(true) => 4
    case AtUnlock(true, _) => 3
    case Writing(true, _) => 2
    case Finished => 1
    case NoThread => 0
  }

  /** Entries left in the current batch. */
  function Remaining(s: State): int {
    if s.consumer.Writing? then |s.readBuffer| - s.consumer.next else 0
  }

  /** How often the buffers can still be swapped. */
  function SwapsLeft(c: Consumer): nat {
    if Rank(c) >= 9 then 2 else if Rank(c) >= 4 then 1 else 0
  }

  predicate Smaller(s: State, t: State) {
    Rank(s.consumer) < Rank(t.consumer) || (Rank(s.consumer) == Rank(t.consumer) && 0 <= Remaining(s) < Remaining(t))
  }

  lemma RunDownStep(s: State, a: Action)
    requires ControlInv(s) && !s.running && s.consumer != NoThread && Enabled(s, a)
    ensures !Step(s, a).running
    ensures IsConsumerAction(a) ==> Smaller(Step(s, a), s)
    ensures !IsConsumerAction(a) && a != Join ==>
              Step(s, a).consumer == s.consumer && Step(s, a).readBuffer == s.readBuffer
  {
  }

  /** Once the flag is cleared every consumer step brings the end closer, and no other thread moves it away. */
  lemma ConsumerRunsDown(s: State, a: Action)
    requires Reachable(s) && !s.running && s.consumer != NoThread && Enabled(s, a)
    ensures !Step(s, a).running
    ensures IsConsumerAction(a) ==> Smaller(Step(s, a), s)
    ensures !IsConsumerAction(a) && a != Join ==>
              Step(s, a).consumer == s.consumer && Step(s, a).readBuffer == s.readBuffer
  {
    InvReachable(s);
    RunDownStep(s, a);
  }

  lemma RankStep(s: State, a: Action)
    requires ControlInv(s) && !s.running && a != StartFlag && Enabled(s, a)
    ensures !Step(s, a).running
    ensures Rank(Step(s, a).consumer) + Count(IsConsumerAction(a)) <= Rank(s.consumer) + Count(a.WriteOne?)
  {
  }

  lemma SwapsStep(s: State, a: Action)
    requires ControlInv(s) && !s.running && a != StartFlag && Enabled(s, a)
    ensures SwapsLeft(Step(s, a).consumer) + Count(a.Swap?) <= SwapsLeft(s.consumer)
  {
  }

  lemma {:induction false} RunDown(s: State, acts: seq<Action>, t: State)
    requires ControlInv(s) && !s.running && StartFlag !in acts && Exec(s, acts) == Some(t)
    ensures ControlInv(t) && !t.running
    ensures Times(IsConsumerAction, acts) + Rank(t.consumer) <= Rank(s.consumer) + (|t.log.written| - |s.log.written|)
    ensures Times(IsSwap, acts) + SwapsLeft(t.consumer) <= SwapsLeft(s.consumer)
  {
    if acts != [] {
      var n := |acts| - 1;
      ExecLast(s, acts, t);
      var u := Exec(s, acts[..n]).value;
      assert acts[n] in acts;
      RunDown(s, acts[..n], u);
      ControlStep(u, acts[n]);
      RankStep(u, acts[n]);
      SwapsStep(u, acts[n]);
    }
  }

  /**
   However the threads interleave and however many producers keep logging: from the moment the flag is cleared
   the consumer takes at most eleven steps besides the entries it writes, and swaps the buffers at most twice.
   */
  lemma ShutdownBound(s: State, acts: seq<Action>, t: State)
    requires Reachable(s) && !s.running && StartFlag !in acts && Exec(s, acts) == Some(t)
    ensures !t.running
    ensures Times(IsConsumerAction, acts) + Rank(t.consumer) <= Rank(s.consumer) + (|t.log.written| - |s.log.written|)
    ensures Times(IsConsumerAction, acts) <= 11 + (|t.log.written| - |s.log.written|)
    ensures Times(IsSwap, acts) + SwapsLeft(t.consumer) <= SwapsLeft(s.consumer)
    ensures Times(IsSwap, acts) <= 2
  {
    InvReachable(s);
    RunDown(s, acts, t);
  }

  predicate StopRunning(s: State) {
    Stopping(s.controller) || s.controller == StopJoined
  }

  // ----- Stop drains -----

  /** A Stop that began in `s` is in progress or just over. */
  ghost predicate StopInProgress(s: State, t: State) {
    && t.log.stopMark == |s.log.pushed| && s.log.pushed <= t.log.pushed && !t.running
    && (StopRunning(t) || t.controller == Idle)
    && (t.controller == Idle ==> !t.handle)
    && (s.handle && t.consumer == NoThread ==> t.log.stopMark <= t.log.finalMark)
    && (!s.handle ==> t.consumer == NoThread && !t.handle && t.log.written == s.log.written)
  }

  lemma StopInProgressStep(s: State, t: State, a: Action)
    requires Inv(t) && StopInProgress(s, t) && Enabled(t, a) && a != StartFlag && a != StopFlag
    ensures StopInProgress(s, Step(t, a))
  {
  }

  lemma {:induction false} StopInProgressRun(s: State, acts: seq<Action>, t: State)
    requires Reachable(s) && Enabled(s, StopFlag)
    requires StartFlag !in acts && StopFlag !in acts && Exec(Step(s, StopFlag), acts) == Some(t)
    ensures Reachable(t) && StopInProgress(s, t)
  {
    InvReachable(s);
    var first := Step(s, StopFlag);
    ReachableStep(s, StopFlag);
    ReachableThen(first, acts, t);
    if acts != [] {
      var n := |acts| - 1;
      var u := Exec(first, acts[..n]).value;
      assert acts[n] in acts;
      StopInProgressRun(s, acts[..n], u);
      InvReachable(u);
      StopInProgressStep(s, u, acts[n]);
    }
  }

  lemma SameSuffix(a: seq<LogEntry>, b: seq<LogEntry>, c: seq<LogEntry>)
    requires a + c == b + c
    ensures a == b
  {
    assert |a| == |b|;
    assert a == (a + c)[..|a|] && b == (b + c)[..|b|];
  }

  lemma WrittenIsPrefix(s: State)
    requires QueueInv(s) && MarkInv(s) && s.consumer == NoThread
    ensures s.log.written == s.log.pushed[..s.log.finalMark]
    ensures s.writeBuffer == s.log.pushed[s.log.finalMark..]
  {
    var pushed, n := s.log.pushed, s.log.finalMark;
    assert s.log.written + [] + s.writeBuffer == s.log.written + s.writeBuffer;
    assert pushed == pushed[..n] + pushed[n..];
    SameSuffix(s.log.written, pushed[..n], s.writeBuffer);
  }

  /** Between sessions: exactly the entries pushed after the last final test of the write buffer are unwritten. */
  lemma BetweenSessions(s: State)
    requires Reachable(s) && s.consumer == NoThread
    ensures s.log.finalMark <= |s.log.pushed|
    ensures s.log.written == s.log.pushed[..s.log.finalMark]
    ensures s.writeBuffer == s.log.pushed[s.log.finalMark..]
  {
    InvReachable(s);
    WrittenIsPrefix(s);
  }

  lemma StopOver(s: State, t: State)
    requires Reachable(t) && StopInProgress(s, t) && t.controller == Idle
    ensures t.consumer == NoThread && !t.handle
    ensures if s.handle then s.log.pushed <= t.log.written else t.log.written == s.log.written
    ensures t.log.written + t.writeBuffer == t.log.pushed
    ensures |t.log.written| == t.log.finalMark
  {
    InvReachable(t);
    BetweenSessions(t);
  }

  /**
   When Stop returns, whatever the interleaving, the consumer is gone; if there was one, every entry pushed before
   Stop cleared the flag has been written, and if there was none, nothing has. What is left was pushed after the
   final test and is the write buffer.
   */
  lemma StopDrains(s: State, acts: seq<Action>, t: State)
    requires Reachable(s) && Enabled(s, StopFlag)
    requires StartFlag !in acts && StopFlag !in acts && Exec(Step(s, StopFlag), acts) == Some(t)
    requires t.controller == Idle
    ensures t.consumer == NoThread && !t.handle
    ensures if s.handle then s.log.pushed <= t.log.written else t.log.written == s.log.written
    ensures t.log.written + t.writeBuffer == t.log.pushed
    ensures |t.log.written| == t.log.finalMark
  {
    StopInProgressRun(s, acts, t);
    StopOver(s, t);
  }
}
