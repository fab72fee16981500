/** When Stop writes everything: exactly when no call of EnqueueLog is still to take the lock. */
module StopExact {
  import opened LogTypes
  import opened Format
  import opened Runs
  import opened Protocol
  import opened Invariant
  import opened Shutdown
  import opened StopReturns

  /** The run of a Stop called in `s`, from the clearing of the flag to its return in `t`. */
  ghost predicate StopRun(s: State, acts: seq<Action>, t: State)
    requires Enabled(s, StopFlag)
  {
    && acts != [] && acts[|acts| - 1] == CloseHandle
    && StartFlag !in acts && StopFlag !in acts
    && Exec(Step(s, StopFlag), acts) == Some(t)
  }

  predicate NoNewCall(acts: seq<Action>) {
    forall a | a in acts :: !a.Prepare?
  }

  /** Every call that has formatted its message has taken the lock. */
  ghost predicate NonePrepared(s: State) {
    forall p :: !Phase(s, p).Prepared?
  }

  // ----- nobody is about to take the lock: everything is written -----

  /** A caller in the critical section leaves it before the final test; nobody pushes after it. */
  ghost predicate PushesOver(s: State) {
    && NonePrepared(s)
    && (PastFinalSwap(s.consumer) || s.consumer == NoThread ==>
          (forall p :: !Phase(s, p).Locked?) && s.log.finalMark == |s.log.pushed|)
  }

  lemma PushesOverStep(s: State, a: Action)
    requires LockInv(s) && ControlInv(s) && PushesOver(s) && Enabled(s, a) && !a.Prepare?
    ensures PushesOver(Step(s, a))
  {
    var t := Step(s, a);
    forall p
      ensures !Phase(t, p).Prepared?
      ensures PastFinalSwap(t.consumer) || t.consumer == NoThread ==> !Phase(t, p).Locked?
    {
      assert !Phase(s, p).Prepared? && (HoldsLock(Phase(s, p)) <==> s.lock == ByProducer(p));
    }
  }

  lemma {:induction false} PushesOverRun(s: State, acts: seq<Action>, t: State)
    requires Reachable(s) && PushesOver(s) && NoNewCall(acts) && Exec(s, acts) == Some(t)
    ensures PushesOver(t)
  {
    if acts != [] {
      var n := |acts| - 1;
      ExecLast(s, acts, t);
      var u := Exec(s, acts[..n]).value;
      assert acts[n] in acts;
      PushesOverRun(s, acts[..n], u);
      ReachableThen(s, acts[..n], u);
      InvReachable(u);
      PushesOverStep(u, acts[n]);
    }
  }

  lemma PushesOverAtStop(s: State)
    requires Reachable(s) && s.handle && Enabled(s, StopFlag) && NonePrepared(s)
    ensures Reachable(Step(s, StopFlag)) && PushesOver(Step(s, StopFlag))
  {
    InvReachable(s);
    ReachableStep(s, StopFlag);
    assert forall p :: Phase(Step(s, StopFlag), p) == Phase(s, p);
  }

  lemma AllWritten(s: State, acts: seq<Action>, t: State)
    requires Reachable(s) && s.handle && Enabled(s, StopFlag) && NonePrepared(s)
    requires StopRun(s, acts, t) && NoNewCall(acts)
    ensures t.writeBuffer == []
  {
    PushesOverAtStop(s);
    PushesOverRun(Step(s, StopFlag), acts, t);
    ExecLast(Step(s, StopFlag), acts, t);
    StopDrains(s, acts, t);
    assert |t.log.written + t.writeBuffer| == |t.log.pushed|;
  }

  // ----- somebody is: the entry can be left behind -----

  /** Stop returns with the entry of `p`, pushed on the way, still in the write buffer. */
  ghost predicate Strands(s: State, p: Caller, acts: seq<Action>, t: State)
    requires Phase(s, p).Prepared?
  {
    && acts != [] && acts[|acts| - 1] == CloseHandle && Push(p) in acts
    && StartFlag !in acts && StopFlag !in acts && NoNewCall(acts)
    && Exec(s, acts) == Some(t)
    && t.writeBuffer != [] && t.writeBuffer[|t.writeBuffer| - 1] == Phase(s, p).entry
  }

  lemma LateCall(s: State, p: Caller)
    requires s.controller == StopJoined && s.lock == Free && Phase(s, p).Prepared?
    ensures exists t :: Strands(s, p, [Acquire(p), Push(p), CloseHandle], t)
  {
    var locked := Step(s, Acquire(p));
    var pushed := Step(locked, Push(p));
    ExecFirst(pushed, CloseHandle, []);
    ExecFirst(locked, Push(p), [CloseHandle]);
    ExecFirst(s, Acquire(p), [Push(p), CloseHandle]);
    assert [Push(p)] + [CloseHandle] == [Push(p), CloseHandle];
    assert [Acquire(p)] + [Push(p), CloseHandle] == [Acquire(p), Push(p), CloseHandle];
    assert Strands(s, p, [Acquire(p), Push(p), CloseHandle], Step(pushed, CloseHandle));
  }

  lemma StillUndisturbed(joins: seq<Action>, late: seq<Action>)
    requires NobodyEnters(joins) && NoNewCall(late) && StartFlag !in late && StopFlag !in late
    ensures NoNewCall(joins + late) && StartFlag !in joins + late && StopFlag !in joins + late
  {
    forall a | a in joins + late ensures !a.Prepare? && a != StartFlag && a != StopFlag {
      assert a in joins || a in late;
    }
  }

  lemma JoinsThenStrands(s: State, p: Caller, joins: seq<Action>, u: State, late: seq<Action>, t: State)
    requires Joins(s, joins, u) && Phase(s, p).Prepared? && Phase(u, p).Prepared? && Strands(u, p, late, t)
    ensures Strands(s, p, joins + late, t)
  {
    ExecConcat(s, joins, u, late);
    StillUndisturbed(joins, late);
  }

  /** At any point of a Stop, a call that is about to take the lock can come too late. */
  lemma StopCanBeLate(s: State, p: Caller) returns (acts: seq<Action>, t: State)
    requires Reachable(s) && StopRunning(s) && Phase(s, p).Prepared?
    ensures Strands(s, p, acts, t)
  {
    var joins, u := StopCanJoin(s);
    LateCall(u, p);
    var late := [Acquire(p), Push(p), CloseHandle];
    t :| Strands(u, p, late, t);
    JoinsThenStrands(s, p, joins, u, late, t);
    acts := joins + late;
  }

  /**
   Stop called while a thread runs leaves nothing behind, whatever the interleaving, if and only if at the call no
   other thread is between the formatting of its message and the lock, and none begins to log before the return.
   */
  lemma StopWritesAllExactly(s: State)
    requires Reachable(s) && s.handle && Enabled(s, StopFlag)
    ensures (forall acts, t | StopRun(s, acts, t) && NoNewCall(acts) :: t.writeBuffer == []) <==>
            (forall p :: !Phase(s, p).Prepared?)
  {
    if NonePrepared(s) {
      forall acts, t | StopRun(s, acts, t) && NoNewCall(acts) ensures t.writeBuffer == [] {
        AllWritten(s, acts, t);
      }
    } else {
      var p :| Phase(s, p).Prepared?;
      ReachableStep(s, StopFlag);
      var acts, t := StopCanBeLate(Step(s, StopFlag), p);
      assert StopRun(s, acts, t);
    }
  }

  // ----- a call that begins during Stop -----

  lemma {:induction false} Above(callers: set<Caller>) returns (p: Caller)
    ensures forall q | q in callers :: q < p
  {
    if callers == {} {
      p := 0;
    } else {
      var last :| last in callers;
      p := Above(callers - {last});
      p := if p <= last then last + 1 else p;
      assert forall q | q in callers :: q == last || q in callers - {last};
    }
  }

  lemma {:induction false} NoneNew(acts: seq<Action>)
    requires NoNewCall(acts)
    ensures Times(IsNewCall, acts) == 0
  {
    if acts != [] {
      var n := |acts| - 1;
      assert acts[n] in acts;
      NoneNew(acts[..n]);
    }
  }

  lemma OneNewCall(s: State, call: Action, acts: seq<Action>)
    requires Enabled(s, call) && IsNewCall(call) && NoNewCall(acts)
    ensures Exec(s, [call] + acts) == Exec(Step(s, call), acts) && Times(IsNewCall, [call] + acts) == 1
  {
    ExecFirst(s, call, acts);
    NoneNew(acts);
    TimesConcat(IsNewCall, [call], acts);
    assert Times(IsNewCall, [call]) == 1;
  }

  lemma CallDuringStop(s: State, call: Action)
    requires Reachable(s) && Enabled(s, StopFlag) && call.Prepare? && call.result.Formatted?
    requires call.caller !in s.producers
    ensures Enabled(Step(s, StopFlag), call) && Reachable(Step(Step(s, StopFlag), call))
    ensures var u := Step(Step(s, StopFlag), call);
            StopRunning(u) && Phase(u, call.caller) == Prepared(LogEntry(call.level, Stored(call.result.text), call.time))
  {
    ReachableStep(s, StopFlag);
    ReachableStep(Step(s, StopFlag), call);
  }

  /** If calls may begin during Stop, no Stop at all is sure to leave nothing behind. */
  lemma NewCallCanBeLate(s: State, level: LogLevel, text: string, time: SystemTime)
    requires Reachable(s) && Enabled(s, StopFlag)
    ensures exists acts, t :: StopRun(s, acts, t) && Times(IsNewCall, acts) == 1 && t.writeBuffer != [] &&
                              t.writeBuffer[|t.writeBuffer| - 1] == LogEntry(level, Stored(text), time)
  {
    var p := Above(s.producers.Keys);
    var call := Prepare(p, level, Formatted(text), time);
    var stopped := Step(s, StopFlag);
    CallDuringStop(s, call);
    var acts, t := StopCanBeLate(Step(stopped, call), p);
    OneNewCall(stopped, call, acts);
    assert StopRun(s, [call] + acts, t);
  }

  // ----- the shortest example -----

  /** The first session has just begun. */
  function JustStarted(producers: map<Caller, Producer>): State {
    State(Free, [], [], false, true, true, true, producers, AtTest, Idle, EMPTY_HISTORY)
  }

  lemma StartRun() returns (acts: seq<Action>)
    ensures Exec(Init(), acts) == Some(JustStarted(map[]))
  {
    var flagged := Step(Init(), StartFlag);
    var begun := Step(flagged, BeginThread(true));
    ExecFirst(Step(begun, StoreHandle), StartReturn, []);
    ExecFirst(begun, StoreHandle, [StartReturn]);
    ExecFirst(flagged, BeginThread(true), [StoreHandle] + [StartReturn]);
    acts := [StartFlag] + ([BeginThread(true)] + ([StoreHandle] + [StartReturn]));
    ExecFirst(Init(), StartFlag, acts[1..]);
  }

  lemma CallAtStart(level: LogLevel, text: string, time: SystemTime)
    ensures Reachable(JustStarted(map[0 := Prepared(LogEntry(level, Stored(text), time))]))
  {
    var acts := StartRun();
    var call := Prepare(0, level, Formatted(text), time);
    ExecFirst(JustStarted(map[]), call, []);
    ExecConcat(Init(), acts, JustStarted(map[]), [call]);
  }

  /** Stop is called just after a call has formatted its message, and returns with the entry in the write buffer. */
  lemma StopCanStrand(level: LogLevel, text: string, time: SystemTime)
    ensures var e := LogEntry(level, Stored(text), time);
            var s := JustStarted(map[0 := Prepared(e)]);
            && Reachable(s) && s.handle && Enabled(s, StopFlag)
            && exists acts, t :: StopRun(s, acts, t) && NoNewCall(acts) && Push(0) in acts &&
                                 t.writeBuffer != [] && t.writeBuffer[|t.writeBuffer| - 1] == e
  {
    var s := JustStarted(map[0 := Prepared(LogEntry(level, Stored(text), time))]);
    CallAtStart(level, text, time);
    ReachableStep(s, StopFlag);
    var acts, t := StopCanBeLate(Step(s, StopFlag), 0);
    assert StopRun(s, acts, t);
  }
}
