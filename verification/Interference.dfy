/** What the steps of other threads leave alone. */
module Interference {
  import opened LogTypes
  import opened Protocol
  import opened Invariant
  import opened Shutdown

  predicate IsControllerAction(a: Action) {
    IsStartAction(a) || IsStopAction(a)
  }

  predicate IsCallOf(a: Action, p: Caller) {
    match a
    case Prepare(q, _, _, _) => q == p
    case Acquire(q) => q == p
    case Push(q) => q == p
    case Release(q) => q == p
    case Signal(q) => q == p
    case _ => false
  }

  // ----- threads and their steps -----

  /** What other threads try to do, one list of steps for each moment at which they can run. */
  type Turns = seq<seq<Action>>

  datatype Thread = TheConsumer | TheController | TheCall(caller: Caller)

  predicate IsStepOf(who: Thread, a: Action) {
    match who
    case TheConsumer => IsConsumerAction(a)
    case TheController => IsControllerAction(a)
    case TheCall(p) => IsCallOf(a, p)
  }

  /** The steps of one thread in a list of steps, in order. */
  function StepsOf(who: Thread, acts: seq<Action>): seq<Action> {
    if acts == [] then []
    else
      var n := |acts| - 1;
      StepsOf(who, acts[..n]) + if IsStepOf(who, acts[n]) then [acts[n]] else []
  }

  /** Those of all other threads. */
  function StepsBeside(who: Thread, acts: seq<Action>): seq<Action> {
    if acts == [] then []
    else
      var n := |acts| - 1;
      StepsBeside(who, acts[..n]) + if IsStepOf(who, acts[n]) then [] else [acts[n]]
  }

  lemma StepsThen(who: Thread, acts: seq<Action>, a: Action)
    ensures StepsOf(who, acts + [a]) == StepsOf(who, acts) + if IsStepOf(who, a) then [a] else []
    ensures StepsBeside(who, acts + [a]) == StepsBeside(who, acts) + if IsStepOf(who, a) then [] else [a]
  {
    assert (acts + [a])[..|acts|] == acts;
  }

  lemma {:induction false} StepsOfConcat(who: Thread, acts: seq<Action>, more: seq<Action>)
    ensures StepsOf(who, acts + more) == StepsOf(who, acts) + StepsOf(who, more)
  {
    if more == [] {
      assert acts + more == acts;
    } else {
      var n := |more| - 1;
      StepsOfConcat(who, acts, more[..n]);
      assert (acts + more)[..|acts + more| - 1] == acts + more[..n];
    }
  }

  lemma {:induction false} StepsBesideConcat(who: Thread, acts: seq<Action>, more: seq<Action>)
    ensures StepsBeside(who, acts + more) == StepsBeside(who, acts) + StepsBeside(who, more)
  {
    if more == [] {
      assert acts + more == acts;
    } else {
      var n := |more| - 1;
      StepsBesideConcat(who, acts, more[..n]);
      assert (acts + more)[..|acts + more| - 1] == acts + more[..n];
    }
  }

  lemma {:induction false} AllBeside(who: Thread, acts: seq<Action>)
    requires forall a | a in acts :: !IsStepOf(who, a)
    ensures StepsOf(who, acts) == [] && StepsBeside(who, acts) == acts
  {
    if acts != [] {
      var n := |acts| - 1;
      assert acts[n] in acts && acts == acts[..n] + [acts[n]];
      forall a | a in acts[..n] ensures !IsStepOf(who, a) {
        assert a in acts;
      }
      AllBeside(who, acts[..n]);
    }
  }

  predicate NoneOf(who: Thread, others: Turns) {
    forall acts | acts in others :: forall a | a in acts :: !IsStepOf(who, a)
  }

  function Flatten(lists: Turns): seq<Action> {
    if lists == [] then [] else Flatten(lists[..|lists| - 1]) + lists[|lists| - 1]
  }

  lemma {:induction false} FlattenConcat(lists: Turns, more: Turns)
    ensures Flatten(lists + more) == Flatten(lists) + Flatten(more)
  {
    if more == [] {
      assert lists + more == lists;
    } else {
      var n := |more| - 1;
      FlattenConcat(lists, more[..n]);
      assert (lists + more)[..|lists + more| - 1] == lists + more[..n];
    }
  }

  /** A run tried from `s` leads to `t`; in it `who` tries the steps `own`, the others those of `lists`. */
  ghost predicate IsRun(who: Thread, s: State, run: seq<Action>, own: seq<Action>, lists: Turns, t: State) {
    t == TakeAll(s, run) && StepsOf(who, run) == own && StepsBeside(who, run) == Flatten(lists)
  }

  lemma RunsConcat(who: Thread, s: State, run: seq<Action>, own: seq<Action>, lists: Turns, t: State,
                   run': seq<Action>, own': seq<Action>, lists': Turns, u: State)
    requires IsRun(who, s, run, own, lists, t) && IsRun(who, t, run', own', lists', u)
    ensures IsRun(who, s, run + run', own + own', lists + lists', u)
  {
    TakeAllConcat(s, run, run');
    StepsOfConcat(who, run, run');
    StepsBesideConcat(who, run, run');
    FlattenConcat(lists, lists');
  }

  /**
   From `s` to `t` the thread `who` has tried exactly the steps `own`, and the other threads exactly those of
   `others` that are not left in `rest`.
   */
  ghost predicate Tried(who: Thread, s: State, own: seq<Action>, others: Turns, rest: Turns, t: State) {
    exists run, lists :: others == lists + rest && IsRun(who, s, run, own, lists, t)
  }

  lemma TriedOwn(who: Thread, s: State, a: Action, others: Turns)
    requires Enabled(s, a) && IsStepOf(who, a)
    ensures Tried(who, s, [a], others, others, Step(s, a))
  {
    TakeAllThen(s, [], a);
    StepsThen(who, [], a);
    assert [] + [a] == [a] && others == [] + others;
    assert IsRun(who, s, [a], [a], [], Step(s, a));
  }

  lemma TriedNothing(who: Thread, s: State, others: Turns)
    ensures Tried(who, s, [], others, others, s)
  {
    assert others == [] + others;
    assert IsRun(who, s, [], [], [], s);
  }

  lemma TriedOthers(who: Thread, s: State, others: Turns)
    requires NoneOf(who, others) && others != []
    ensures Tried(who, s, [], others, others[1..], TakeAll(s, others[0]))
  {
    assert others[0] in others && others == [others[0]] + others[1..];
    AllBeside(who, others[0]);
    assert Flatten([others[0]]) == Flatten([]) + others[0];
    assert IsRun(who, s, others[0], [], [others[0]], TakeAll(s, others[0]));
  }

  lemma TriedRun(who: Thread, s: State, run: seq<Action>, own: seq<Action>, lists: Turns,
                 others: Turns, rest: Turns, t: State)
    requires others == lists + rest && IsRun(who, s, run, own, lists, t)
    ensures Tried(who, s, own, others, rest, t)
  {
  }

  lemma TriedConcat(who: Thread, s: State, own: seq<Action>, others: Turns, rest: Turns,
                    t: State, own': seq<Action>, rest': Turns, u: State)
    requires Tried(who, s, own, others, rest, t) && Tried(who, t, own', rest, rest', u)
    ensures Tried(who, s, own + own', others, rest', u)
  {
    var run, lists :| others == lists + rest && IsRun(who, s, run, own, lists, t);
    var run', lists' :| rest == lists' + rest' && IsRun(who, t, run', own', lists', u);
    RunsConcat(who, s, run, own, lists, t, run', own', lists', u);
    assert others == (lists + lists') + rest';
    TriedRun(who, s, run + run', own + own', lists + lists', others, rest', u);
  }

  lemma TriedThen(who: Thread, s: State, own: seq<Action>, others: Turns, rest: Turns, t: State,
                  own': seq<Action>, rest': Turns, u: State, both: seq<Action>)
    requires Tried(who, s, own, others, rest, t) && Tried(who, t, own', rest, rest', u) && both == own + own'
    ensures Tried(who, s, both, others, rest', u)
  {
    TriedConcat(who, s, own, others, rest, t, own', rest', u);
  }

  /** Only others have tried something. */
  lemma TriedIdle(who: Thread, s: State, own: seq<Action>, others: Turns, rest: Turns, t: State,
                  rest': Turns, u: State)
    requires Tried(who, s, own, others, rest, t) && Tried(who, t, [], rest, rest', u)
    ensures Tried(who, s, own, others, rest', u)
  {
    TriedThen(who, s, own, others, rest, t, [], rest', u, own);
  }

  lemma {:induction false} NoneOwn(who: Thread, run: seq<Action>)
    requires StepsOf(who, run) == []
    ensures StepsBeside(who, run) == run
  {
    if run != [] {
      NoneOwn(who, run[..|run| - 1]);
    }
  }

  /** A thread that has stood still all the time: the state is what the others have made of it. */
  lemma OnlyOthersTried(who: Thread, s: State, others: Turns, t: State)
    requires Tried(who, s, [], others, [], t)
    ensures t == TakeAll(s, Flatten(others))
  {
    var run, lists :| others == lists + [] && IsRun(who, s, run, [], lists, t);
    assert lists == others;
    NoneOwn(who, run);
  }

  /** One more own step. */
  lemma TriedAndOwn(who: Thread, s: State, own: seq<Action>, others: Turns, rest: Turns, t: State,
                    a: Action, both: seq<Action>)
    requires Tried(who, s, own, others, rest, t) && Enabled(t, a) && IsStepOf(who, a) && both == own + [a]
    ensures Tried(who, s, both, others, rest, Step(t, a))
  {
    TriedOwn(who, t, a, rest);
    TriedThen(who, s, own, others, rest, t, [a], rest, Step(t, a), both);
  }

  /** The consumer's own steps depend on how the opens turn out, so that there were some is all that is said of them. */
  ghost predicate ConsumerTried(s: State, others: Turns, rest: Turns, t: State) {
    exists own :: Tried(TheConsumer, s, own, others, rest, t)
  }

  lemma ConsumerTriedNothing(s: State, others: Turns)
    ensures ConsumerTried(s, others, others, s)
  {
    TriedNothing(TheConsumer, s, others);
  }

  lemma ConsumerTriedThen(s: State, others: Turns, rest: Turns, t: State,
                          rest': Turns, u: State)
    requires ConsumerTried(s, others, rest, t) && ConsumerTried(t, rest, rest', u)
    ensures ConsumerTried(s, others, rest', u)
  {
    var own :| Tried(TheConsumer, s, own, others, rest, t);
    var own' :| Tried(TheConsumer, t, own', rest, rest', u);
    TriedThen(TheConsumer, s, own, others, rest, t, own', rest', u, own + own');
  }

  lemma ConsumerOwn(s: State, a: Action, others: Turns)
    requires Enabled(s, a) && IsConsumerAction(a)
    ensures ConsumerTried(s, others, others, Step(s, a))
  {
    TriedOwn(TheConsumer, s, a, others);
  }

  lemma ConsumerOwnThen(s: State, others: Turns, rest: Turns, t: State, a: Action)
    requires ConsumerTried(s, others, rest, t) && Enabled(t, a) && IsConsumerAction(a)
    ensures ConsumerTried(s, others, rest, Step(t, a))
  {
    ConsumerOwn(t, a, rest);
    ConsumerTriedThen(s, others, rest, t, rest, Step(t, a));
  }

  // ----- what the steps of other threads leave alone -----

  lemma StepKeepsConsumer(s: State, a: Action)
    requires Inv(s) && Enabled(s, a) && !IsConsumerAction(a)
    requires s.consumer != NoThread && s.consumer != Finished
    ensures var t := Step(s, a);
            && t.consumer == s.consumer && t.readBuffer == s.readBuffer && t.log.written == s.log.written
            && s.log.pushed <= t.log.pushed
  {
  }

  /** A live consumer thread is moved by nobody else. */
  lemma {:induction false} OthersKeepConsumer(s: State, acts: seq<Action>, t: State)
    requires Reachable(s) && Exec(s, acts) == Some(t) && forall a | a in acts :: !IsConsumerAction(a)
    requires s.consumer != NoThread && s.consumer != Finished
    ensures t.consumer == s.consumer && t.readBuffer == s.readBuffer && t.log.written == s.log.written
    ensures s.log.pushed <= t.log.pushed
  {
    if acts != [] {
      var n := |acts| - 1;
      ExecLast(s, acts, t);
      var u := Exec(s, acts[..n]).value;
      OthersKeepConsumer(s, acts[..n], u);
      ReachableThen(s, acts[..n], u);
      InvReachable(u);
      assert acts[n] in acts;
      StepKeepsConsumer(u, acts[n]);
    }
  }

  lemma StepKeepsController(s: State, a: Action)
    requires Enabled(s, a) && !IsControllerAction(a)
    ensures var t := Step(s, a);
            && t.controller == s.controller && t.handle == s.handle
            && t.running == s.running && t.baseRunning == s.baseRunning
            && (t.consumer == NoThread <==> s.consumer == NoThread)
  {
  }

  /** So are Start and Stop; only they change the flags and the handle, begin the thread and join it. */
  lemma {:induction false} OthersKeepController(s: State, acts: seq<Action>, t: State)
    requires Exec(s, acts) == Some(t) && forall a | a in acts :: !IsControllerAction(a)
    ensures t.controller == s.controller && t.handle == s.handle
    ensures t.running == s.running && t.baseRunning == s.baseRunning
    ensures t.consumer == NoThread <==> s.consumer == NoThread
  {
    if acts != [] {
      var n := |acts| - 1;
      ExecLast(s, acts, t);
      var u := Exec(s, acts[..n]).value;
      OthersKeepController(s, acts[..n], u);
      assert acts[n] in acts;
      StepKeepsController(u, acts[n]);
    }
  }

  lemma StepWithoutThread(s: State, a: Action)
    requires s.consumer == NoThread && Enabled(s, a) && !IsControllerAction(a)
    ensures var t := Step(s, a);
            t.log.written == s.log.written && s.writeBuffer <= t.writeBuffer && (s.event ==> t.event)
  {
  }

  /** While no thread runs, entries only come in, and a signal stays. */
  lemma {:induction false} OthersWithoutThread(s: State, acts: seq<Action>, t: State)
    requires Exec(s, acts) == Some(t) && forall a | a in acts :: !IsControllerAction(a)
    requires s.consumer == NoThread
    ensures t.consumer == NoThread
    ensures t.log.written == s.log.written && s.writeBuffer <= t.writeBuffer && (s.event ==> t.event)
  {
    if acts != [] {
      var n := |acts| - 1;
      ExecLast(s, acts, t);
      var u := Exec(s, acts[..n]).value;
      OthersWithoutThread(s, acts[..n], u);
      assert acts[n] in acts;
      StepKeepsController(u, acts[n]);
      StepWithoutThread(u, acts[n]);
    }
  }

  lemma StepKeepsCall(s: State, a: Action, p: Caller)
    requires Enabled(s, a) && !IsCallOf(a, p)
    ensures Phase(Step(s, a), p) == Phase(s, p)
  {
  }

  /** What was pushed between two moments, none of it by `p`. */
  predicate NonePushedBy(p: Caller, before: History, after: History) {
    && before.pushed <= after.pushed && before.pushers <= after.pushers
    && p !in after.pushers[|before.pushers|..]
  }

  lemma NonePushedAt(p: Caller, before: History, after: History, j: nat)
    requires NonePushedBy(p, before, after) && |before.pushers| <= j < |after.pushers|
    ensures after.pushers[j] != p
  {
    assert after.pushers[|before.pushers|..][j - |before.pushers|] == after.pushers[j];
  }

  /** One entry was pushed by `p`, and it is `e`. */
  ghost predicate PushedOnceBy(p: Caller, e: LogEntry, before: History, after: History) {
    && before.pushed <= after.pushed && before.pushers <= after.pushers
    && |after.pushers| == |after.pushed|
    && exists k | |before.pushers| <= k < |after.pushers| ::
         && after.pushers[k] == p && after.pushed[k] == e
         && forall j | |before.pushers| <= j < |after.pushers| && j != k :: after.pushers[j] != p
  }

  lemma PushIsOnce(p: Caller, e: LogEntry, before: History, after: History)
    requires |before.pushers| == |before.pushed|
    requires after.pushed == before.pushed + [e] && after.pushers == before.pushers + [p]
    ensures PushedOnceBy(p, e, before, after)
  {
    assert after.pushers[|before.pushers|] == p;
  }

  /** The moments may be further apart, as long as `p` pushes nothing outside. */
  lemma OnceInWider(p: Caller, e: LogEntry, a: History, b: History, c: History, d: History)
    requires NonePushedBy(p, a, b) && PushedOnceBy(p, e, b, c) && NonePushedBy(p, c, d)
    requires |d.pushers| == |d.pushed|
    ensures PushedOnceBy(p, e, a, d)
  {
    var k :| |b.pushers| <= k < |c.pushers| && c.pushers[k] == p && c.pushed[k] == e &&
             forall j | |b.pushers| <= j < |c.pushers| && j != k :: c.pushers[j] != p;
    assert d.pushers[k] == c.pushers[k] && d.pushed[k] == c.pushed[k];
    forall j | |a.pushers| <= j < |d.pushers| && j != k ensures d.pushers[j] != p {
      if j < |b.pushers| {
        NonePushedAt(p, a, b, j);
      } else if j >= |c.pushers| {
        NonePushedAt(p, c, d, j);
      }
    }
  }

  lemma NoneInWider(p: Caller, a: History, b: History, c: History)
    requires NonePushedBy(p, a, b) && NonePushedBy(p, b, c)
    ensures NonePushedBy(p, a, c)
  {
    assert c.pushers[|a.pushers|..] == b.pushers[|a.pushers|..] + c.pushers[|b.pushers|..];
  }

  lemma NonePushedStep(s: State, u: State, a: Action, p: Caller)
    requires Enabled(u, a) && !IsCallOf(a, p) && NonePushedBy(p, s.log, u.log)
    ensures NonePushedBy(p, s.log, Step(u, a).log)
  {
    var n, more := |s.log.pushers|, if a.Push? then [a.caller] else [];
    assert (u.log.pushers + more)[n..] == u.log.pushers[n..] + more;
  }

  /** Nobody else takes a step of a call of EnqueueLog. */
  lemma {:induction false} OthersKeepCall(s: State, acts: seq<Action>, t: State, p: Caller)
    requires Exec(s, acts) == Some(t) && forall a | a in acts :: !IsCallOf(a, p)
    ensures Phase(t, p) == Phase(s, p) && NonePushedBy(p, s.log, t.log)
  {
    if acts != [] {
      var n := |acts| - 1;
      ExecLast(s, acts, t);
      var u := Exec(s, acts[..n]).value;
      OthersKeepCall(s, acts[..n], u, p);
      assert acts[n] in acts;
      StepKeepsCall(u, acts[n], p);
      NonePushedStep(s, u, acts[n], p);
    }
  }

  /** A Stop in progress stays in progress or comes to its end. */
  lemma {:induction false} OthersKeepStop(s: State, u: State, acts: seq<Action>, t: State)
    requires Reachable(u) && StopInProgress(s, u) && Exec(u, acts) == Some(t)
    requires StartFlag !in acts && StopFlag !in acts
    ensures StopInProgress(s, t)
  {
    if acts != [] {
      var n := |acts| - 1;
      ExecLast(u, acts, t);
      var v := Exec(u, acts[..n]).value;
      OthersKeepStop(s, u, acts[..n], v);
      ReachableThen(u, acts[..n], v);
      InvReachable(v);
      assert acts[n] in acts;
      StopInProgressStep(s, v, acts[n]);
    }
  }
}
