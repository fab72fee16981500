/** Stop comes to an end: every run of it is bounded by the work there is, and none gets stuck. */
module StopReturns {
  import opened LogTypes
  import opened Format
  import opened Runs
  import opened Protocol
  import opened Invariant
  import opened Safety
  import opened Shutdown

  // ----- the work that is left -----

  /** How many steps a call of EnqueueLog has still to take. */
  function StepsLeft(phase: Producer): nat {
    match phase
    case Outside => 0
    case Unlocked => 1
    case Pushed => 2
    case Locked(_) => 3
    case Prepared(_) => 4
  }

  /** The calls that have at least k steps to take. */
  function Calls(s: State, k: nat): set<Caller> {
    set p | p in s.producers && StepsLeft(s.producers[p]) >= k
  }

  /** The steps of the calls, and one WriteLog for each entry they have still to push. */
  function CallWork(s: State): nat {
    |Calls(s, 1)| + |Calls(s, 2)| + 2 * |Calls(s, 3)| + |Calls(s, 4)|
  }

  function ControllerWork(c: Controller): nat {
    match c
    case StopFlagged => 4
    case StopSignalled => 3
    case StopWaiting => 2
    case StopJoined => 1
    case _ => 0
  }

  function Work(s: State): int {
    Rank(s.consumer) + ControllerWork(s.controller) + CallWork(s) + |s.log.pushed| - |s.log.written|
  }

  /** The number of a call's step, counted from its end. */
  function StepOfCall(a: Action): nat {
    match a
    case Signal(_) => 1
    case Release(_) => 2
    case Push(_) => 3
    case Acquire(_) => 4
    case _ => 0
  }

  predicate BeginsCall(a: Action) {
    a.Prepare? && a.result.Formatted?
  }

  lemma PhaseStep(s: State, a: Action, p: Caller)
    requires Enabled(s, a)
    ensures var before, after := StepsLeft(Phase(s, p)), StepsLeft(Phase(Step(s, a), p));
            if BeginsCall(a) && a.caller == p then before == 0 && after == 4
            else if StepOfCall(a) > 0 && a.caller == p then before == StepOfCall(a) && after == before - 1
            else after == before
  {
  }

  lemma CallsMember(s: State, k: nat, p: Caller)
    requires 1 <= k
    ensures p in Calls(s, k) <==> StepsLeft(Phase(s, p)) >= k
  {
  }

  lemma SizeOfChange(before: set<Caller>, after: set<Caller>, p: Caller, enters: bool, leaves: bool)
    requires !(enters && leaves) && (enters ==> p !in before) && (leaves ==> p in before)
    requires forall q :: q in after <==> (q in before && !(leaves && p == q)) || (enters && p == q)
    ensures |after| + Count(leaves) == |before| + Count(enters)
  {
    assert after == if enters then before + {p} else if leaves then before - {p} else before;
  }

  /** A new call enters all the sets, and leaves one with each of its steps. */
  lemma CallsStep(s: State, a: Action, k: nat)
    requires Enabled(s, a) && 1 <= k <= 4
    ensures |Calls(Step(s, a), k)| + Count(StepOfCall(a) == k) == |Calls(s, k)| + Count(BeginsCall(a))
  {
    var before, after := Calls(s, k), Calls(Step(s, a), k);
    forall p
      ensures p in after <==>
              (p in before && !(StepOfCall(a) == k && a.caller == p)) || (BeginsCall(a) && a.caller == p)
      ensures p in before && BeginsCall(a) ==> a.caller != p
      ensures StepOfCall(a) == k && a.caller == p ==> p in before
    {
      PhaseStep(s, a, p);
      CallsMember(s, k, p);
      CallsMember(Step(s, a), k, p);
    }
    SizeOfChange(before, after, if BeginsCall(a) || StepOfCall(a) == k then a.caller else 0,
                 BeginsCall(a), StepOfCall(a) == k);
  }

  /** Every step uses up work; only the begin of a call brings some. */
  lemma WorkStep(s: State, a: Action)
    requires ControlInv(s) && !s.running && Enabled(s, a) && a != StartFlag && a != StopFlag
    ensures Work(Step(s, a)) + 1 <= Work(s) + if a.Prepare? then 6 else 0
  {
    CallsStep(s, a, 1);
    CallsStep(s, a, 2);
    CallsStep(s, a, 3);
    CallsStep(s, a, 4);
    RankStep(s, a);
  }

  lemma {:induction false} WorkRun(s: State, acts: seq<Action>, t: State)
    requires ControlInv(s) && !s.running && Exec(s, acts) == Some(t) && StartFlag !in acts && StopFlag !in acts
    ensures ControlInv(t) && !t.running
    ensures |acts| + Work(t) <= Work(s) + 6 * Times(IsNewCall, acts)
  {
    if acts != [] {
      var n := |acts| - 1;
      ExecLast(s, acts, t);
      var u := Exec(s, acts[..n]).value;
      assert acts[n] in acts;
      WorkRun(s, acts[..n], u);
      ControlStep(u, acts[n]);
      RankStep(u, acts[n]);
      WorkStep(u, acts[n]);
    }
  }

  lemma SubsetSize(a: set<Caller>, b: set<Caller>)
    requires a <= b
    ensures |a| <= |b|
  {
    assert b == a + (b - a);
  }

  lemma CallWorkBound(s: State)
    ensures CallWork(s) <= 5 * |Calls(s, 1)|
  {
    SubsetSize(Calls(s, 2), Calls(s, 1));
    SubsetSize(Calls(s, 3), Calls(s, 1));
    SubsetSize(Calls(s, 4), Calls(s, 1));
  }

  lemma WorkLeft(s: State)
    requires Reachable(s)
    ensures Work(s) >= 0
  {
    ExactlyOnceInOrder(s);
  }

  lemma StopBegins(s: State)
    requires Reachable(s) && Enabled(s, StopFlag)
    ensures Reachable(Step(s, StopFlag)) && ControlInv(Step(s, StopFlag))
    ensures Work(Step(s, StopFlag)) <= 15 + 5 * |Calls(s, 1)| + |s.log.pushed| - |s.log.written|
  {
    ReachableStep(s, StopFlag);
    InvReachable(Step(s, StopFlag));
    CallWorkBound(s);
    assert forall k :: Calls(Step(s, StopFlag), k) == Calls(s, k);
  }

  // ----- Stop never waits in vain -----

  /** A step that brings a Stop closer to its end: of the holder of the lock, of Stop itself, or of the consumer. */
  function NextAction(s: State): Action {
    match s.lock
    case ByProducer(p) => if Phase(s, p).Locked? then Push(p) else Release(p)
    case _ =>
      match s.controller
      case StopFlagged => StopSignal
      case StopSignalled => StopBase
      case StopJoined => CloseHandle
      case _ => if s.consumer == NoThread || s.consumer == Finished then Join else NextConsumerAction(s)
  }

  lemma StopNeverStuck(s: State)
    requires Reachable(s) && StopRunning(s)
    ensures Enabled(s, NextAction(s))
  {
    InvReachable(s);
    if s.lock.ByProducer? {
      assert HoldsLock(Phase(s, s.lock.caller));
    }
  }

  /** Only new calls, a Start or another Stop could still happen. */
  ghost predicate AtRest(s: State) {
    forall a | Enabled(s, a) :: a.Prepare? || a == StartFlag || a == StopFlag
  }

  lemma NotAtRest(s: State)
    requires Reachable(s) && StopRunning(s)
    ensures !AtRest(s)
  {
    StopNeverStuck(s);
    assert Enabled(s, NextAction(s));
  }

  lemma StopBounded(s: State, acts: seq<Action>, t: State)
    requires Reachable(s) && Enabled(s, StopFlag)
    requires StartFlag !in acts && StopFlag !in acts && Exec(Step(s, StopFlag), acts) == Some(t)
    ensures |acts| <= 15 + 5 * |Calls(s, 1)| + (|s.log.pushed| - |s.log.written|) + 6 * Times(IsNewCall, acts)
  {
    StopBegins(s);
    WorkRun(Step(s, StopFlag), acts, t);
    StopInProgressRun(s, acts, t);
    WorkLeft(t);
  }

  /**
   Stop returns under every scheduler: the steps of all threads from its call on are bounded by the work there was
   at the call and the number of new calls, and as long as it has not returned some thread can take a step.
   */
  lemma StopReturns(s: State, acts: seq<Action>, t: State)
    requires Reachable(s) && Enabled(s, StopFlag)
    requires StartFlag !in acts && StopFlag !in acts && Exec(Step(s, StopFlag), acts) == Some(t)
    ensures |acts| <= 15 + 5 * |Calls(s, 1)| + (|s.log.pushed| - |s.log.written|) + 6 * Times(IsNewCall, acts)
    ensures AtRest(t) ==> t.controller == Idle && !t.handle && t.consumer == NoThread
  {
    StopBounded(s, acts, t);
    StopInProgressRun(s, acts, t);
    if AtRest(t) {
      if StopRunning(t) {
        NotAtRest(t);
      }
      StopOver(s, t);
    }
  }

  // ----- the bound needs the number of new calls -----

  /** A run that is nothing but calls of EnqueueLog by `p`. */
  ghost predicate OnlyCalls(s: State, p: Caller, acts: seq<Action>, t: State) {
    && Exec(s, acts) == Some(t) && Phase(t, p) == Outside && t.lock == Free
    && t.controller == s.controller && t.consumer == s.consumer
    && Times(IsNewCall, acts) * 5 == |acts|
  }

  lemma TwoSteps(s: State, a: Action, b: Action)
    requires Enabled(s, a) && Enabled(Step(s, a), b)
    ensures Exec(s, [a, b]) == Some(Step(Step(s, a), b))
  {
    ExecFirst(Step(s, a), b, []);
    ExecFirst(s, a, [b]);
    assert [a] + [b] == [a, b];
  }

  lemma CallEnters(s: State, p: Caller, level: LogLevel, text: string, time: SystemTime) returns (t: State)
    requires Phase(s, p) == Outside && s.lock == Free
    ensures Exec(s, [Prepare(p, level, Formatted(text), time), Acquire(p)]) == Some(t)
    ensures Phase(t, p).Locked? && t.controller == s.controller && t.consumer == s.consumer
  {
    var call := Prepare(p, level, Formatted(text), time);
    TwoSteps(s, call, Acquire(p));
    t := Step(Step(s, call), Acquire(p));
  }

  lemma CallLeaves(s: State, p: Caller) returns (t: State)
    requires Phase(s, p).Locked?
    ensures Exec(s, [Push(p), Release(p)] + [Signal(p)]) == Some(t)
    ensures Phase(t, p) == Outside && t.lock == Free && t.controller == s.controller && t.consumer == s.consumer
  {
    TwoSteps(s, Push(p), Release(p));
    var unlocked := Step(Step(s, Push(p)), Release(p));
    ExecFirst(unlocked, Signal(p), []);
    ExecConcat(s, [Push(p), Release(p)], unlocked, [Signal(p)]);
    t := Step(unlocked, Signal(p));
  }

  lemma CountOneCall(acts: seq<Action>)
    requires |acts| == 5 && acts[0].Prepare? && forall k | 1 <= k < 5 :: !acts[k].Prepare?
    ensures Times(IsNewCall, acts) == 1
  {
    assert acts[..4][..3] == acts[..3] && acts[..3][..2] == acts[..2] && acts[..2][..1] == acts[..1] && acts[..1][..0] == [];
    assert Times(IsNewCall, acts[..1]) == 1 && Times(IsNewCall, acts[..2]) == 1 && Times(IsNewCall, acts[..3]) == 1;
  }

  lemma OneCall(s: State, p: Caller, level: LogLevel, text: string, time: SystemTime)
    returns (acts: seq<Action>, t: State)
    requires Phase(s, p) == Outside && s.lock == Free
    ensures OnlyCalls(s, p, acts, t) && |acts| == 5
  {
    var enter, leave := [Prepare(p, level, Formatted(text), time), Acquire(p)], [Push(p), Release(p)] + [Signal(p)];
    var locked := CallEnters(s, p, level, text, time);
    t := CallLeaves(locked, p);
    ExecConcat(s, enter, locked, leave);
    acts := enter + leave;
    CountOneCall(acts);
  }

  /** The lock is not fair: new calls can hold up a Stop, and the consumer with it, for as long as they keep coming. */
  lemma {:induction false} CallsCanHoldUp(s: State, p: Caller, level: LogLevel, text: string, time: SystemTime, n: nat)
    returns (acts: seq<Action>, t: State)
    requires Phase(s, p) == Outside && s.lock == Free
    ensures OnlyCalls(s, p, acts, t) && |acts| == 5 * n
  {
    if n == 0 {
      acts, t := [], s;
    } else {
      var before, u := CallsCanHoldUp(s, p, level, text, time, n - 1);
      var call;
      call, t := OneCall(u, p, level, text, time);
      ExecConcat(s, before, u, call);
      TimesConcat(IsNewCall, before, call);
      acts := before + call;
    }
  }

  // ----- without a new call -----

  /** Neither a new call nor one that waits for the lock has to do anything. */
  predicate NobodyEnters(acts: seq<Action>) {
    forall a | a in acts :: IsConsumerAction(a) || a.Push? || a.Release? || (IsStopAction(a) && a != StopFlag)
  }

  /** Stop has joined the consumer, the lock is free, and who was about to take it still is. */
  ghost predicate Joins(s: State, acts: seq<Action>, t: State) {
    && NobodyEnters(acts)
    && Exec(s, acts) == Some(t) && t.controller == StopJoined && t.lock == Free
    && forall p | Phase(s, p).Prepared? :: Phase(t, p) == Phase(s, p)
  }

  lemma NextActionStep(s: State)
    requires Reachable(s) && StopRunning(s) && !(s.controller == StopJoined && s.lock == Free)
    ensures var a := NextAction(s);
            && Enabled(s, a) && NobodyEnters([a])
            && StopRunning(Step(s, a))
  {
    StopNeverStuck(s);
    InvReachable(s);
  }

  lemma PreparedStays(s: State, a: Action)
    requires Enabled(s, a) && NobodyEnters([a])
    ensures forall p | Phase(s, p).Prepared? :: Phase(Step(s, a), p) == Phase(s, p)
  {
    assert a in [a];
  }

  lemma NextActionWork(s: State, a: Action)
    requires Reachable(s) && StopRunning(s) && Enabled(s, a) && NobodyEnters([a])
    ensures Reachable(Step(s, a)) && 0 <= Work(Step(s, a)) < Work(s)
  {
    InvReachable(s);
    assert a in [a];
    WorkStep(s, a);
    ReachableStep(s, a);
    WorkLeft(Step(s, a));
  }

  lemma {:induction false} StopCanJoin(s: State) returns (acts: seq<Action>, t: State)
    requires Reachable(s) && StopRunning(s)
    ensures Joins(s, acts, t) && Reachable(t)
    decreases Work(s)
  {
    if s.controller == StopJoined && s.lock == Free {
      acts, t := [], s;
    } else {
      var a := NextAction(s);
      NextActionStep(s);
      NextActionWork(s, a);
      PreparedStays(s, a);
      var more;
      more, t := StopCanJoin(Step(s, a));
      ExecFirst(s, a, more);
      acts := [a] + more;
    }
  }

  /** From every state a Stop can be in, the consumer, Stop and the holder of the lock can bring it to its end. */
  lemma StopCanComplete(s: State)
    requires Reachable(s) && StopRunning(s)
    ensures exists acts :: NobodyEnters(acts) && Exec(s, acts).Some? &&
                           Exec(s, acts).value.controller == Idle && !Exec(s, acts).value.handle
  {
    var acts, t := StopCanJoin(s);
    ExecFirst(t, CloseHandle, []);
    ExecConcat(s, acts, t, [CloseHandle]);
    assert NobodyEnters(acts + [CloseHandle]);
  }
}
