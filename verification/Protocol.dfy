/**
 The queue and wake-up protocol of the logger as interleaved atomic steps: any number of producers in
 EnqueueLog, one consumer thread in FuncImplRun and ProcessQueue, one controller in Start and Stop.
 Every access to shared state (lock, write buffer, event, flags) is a step of its own.
 */
module Protocol {
  import opened LogTypes
  import opened Format
  import opened Runs

  /** A call of EnqueueLog in progress is known by a number. */
  type Caller = nat

  datatype Producer =
    | Outside                       // not in EnqueueLog
    | Prepared(entry: LogEntry)     // formatted and stamped, about to take the lock
    | Locked(entry: LogEntry)       // in the critical section, before push_back
    | Pushed                        // in the critical section, after push_back
    | Unlocked                      // lock released, before SetEvent

  datatype Consumer =
    | NoThread
    | AtTest                                  // at the test of the loop
    | AtWait                                  // in WaitForSingleObject on the event
    | AtLock(final: bool)                     // entering ProcessQueue; final: after the loop
    | InLock(final: bool)                     // has the lock, before the test for emptiness
    | AtUnlock(final: bool, swapped: bool)    // about to leave the critical section
    | Writing(final: bool, next: nat)         // in the loop over the read buffer
    | Finished                                // FuncImplRun has returned

  datatype Controller =
    | Idle
    | StartFlagged                  // Start has set the flag, before the thread is begun
    | StartBegun                    // the thread may run, before its handle is stored
    | StartStored                   // before CreateThread sets the base flag
    | StopFlagged                   // Stop has cleared the flag, before SetEvent
    | StopSignalled                 // before DestroyThread clears the base flag
    | StopWaiting                   // in WaitForSingleObject on the thread
    | StopJoined                    // before the handle is closed

  datatype Holder = Free | ByProducer(caller: Caller) | ByConsumer

  /** What happened so far; no step reads it. */
  datatype History = History(
    pushed: seq<LogEntry>,          // push_back calls, in lock order
    pushers: seq<Caller>,           // the calls that made them
    written: seq<LogEntry>,         // WriteLog calls
    opens: seq<bool>,               // outcome of the open each WriteLog may have needed
    stopMark: nat,                  // number of pushes when Stop last cleared the flag
    finalMark: nat)                 // number of pushes at the last final test of the write buffer

  datatype State = State(
    lock: Holder,
    writeBuffer: seq<LogEntry>,
    readBuffer: seq<LogEntry>,
    event: bool,                    // auto-reset, initially not signalled
    running: bool,                  // the flag the loop reads
    baseRunning: bool,              // the flag of the same name in the base class
    handle: bool,                   // the thread handle is not NULL
    producers: map<Caller, Producer>,
    consumer: Consumer,
    controller: Controller,
    log: History)

  datatype Action =
    // EnqueueLog
    | Prepare(caller: Caller, level: LogLevel, result: FormatResult, time: SystemTime)
    | Acquire(caller: Caller)
    | Push(caller: Caller)
    | Release(caller: Caller)
    | Signal(caller: Caller)
    // Start and CreateThread
    | StartFlag
    | BeginThread(created: bool)
    | StoreHandle
    | StartReturn
    // Stop and DestroyThread
    | StopFlag
    | StopSignal
    | StopBase
    | Join
    | CloseHandle
    // FuncImplRun and ProcessQueue
    | Test
    | Wait
    | ConsumerAcquire
    | Swap
    | ConsumerRelease
    | WriteOne(opens: bool)
    | Clear

  function Phase(s: State, p: Caller): Producer {
    if p in s.producers then s.producers[p] else Outside
  }

  const EMPTY_HISTORY := History([], [], [], [], 0, 0)

  /** After the constructor. */
  function Init(): State {
    State(Free, [], [], false, false, false, false, map[], NoThread, Idle, EMPTY_HISTORY)
  }

  predicate IsConsumerAction(a: Action) {
    a.Test? || a.Wait? || a.ConsumerAcquire? || a.Swap? || a.ConsumerRelease? || a.WriteOne? || a.Clear?
  }

  predicate IsStopAction(a: Action) {
    a.StopFlag? || a.StopSignal? || a.StopBase? || a.Join? || a.CloseHandle?
  }

  predicate IsStartAction(a: Action) {
    a.StartFlag? || a.BeginThread? || a.StoreHandle? || a.StartReturn?
  }

  // the kinds of steps that are counted along a run
  predicate IsNewCall(a: Action) { a.Prepare? }
  predicate IsPush(a: Action) { a.Push? }
  predicate IsSignal(a: Action) { a.Signal? }
  predicate IsCreation(a: Action) { a == BeginThread(true) }
  predicate IsStopSignal(a: Action) { a.StopSignal? }
  predicate IsWait(a: Action) { a.Wait? }
  predicate IsSwap(a: Action) { a.Swap? }

  /** The next step of a consumer thread that has not finished. */
  function NextConsumerAction(s: State): Action {
    match s.consumer
    case AtTest => Test
    case AtWait => Wait
    case AtLock(_) => ConsumerAcquire
    case InLock(_) => Swap
    case AtUnlock(_, _) => ConsumerRelease
    case Writing(_, next) => if next < |s.readBuffer| then WriteOne(true) else Clear
    case _ => Test
  }

  /**
   When a thread can take a step. Start demands that there is no thread (the assertion in CreateThread);
   a wait on the NULL handle fails at once, so Stop without a thread does not block.
   */
  predicate Enabled(s: State, a: Action) {
    match a
    case Prepare(p, _, _, _) => Phase(s, p) == Outside
    case Acquire(p) => Phase(s, p).Prepared? && s.lock == Free
    case Push(p) => Phase(s, p).Locked?
    case Release(p) => Phase(s, p) == Pushed
    case Signal(p) => Phase(s, p) == Unlocked
    case StartFlag => s.controller == Idle && !s.handle
    case BeginThread(_) => s.controller == StartFlagged
    case StoreHandle => s.controller == StartBegun
    case StartReturn => s.controller == StartStored
    case StopFlag => s.controller == Idle
    case StopSignal => s.controller == StopFlagged
    case StopBase => s.controller == StopSignalled
    case Join => s.controller == StopWaiting && (s.handle ==> s.consumer == Finished)
    case CloseHandle => s.controller == StopJoined
    case Test => s.consumer == AtTest
    case Wait => s.consumer == AtWait && s.event
    case ConsumerAcquire => s.consumer.AtLock? && s.lock == Free
    case Swap => s.consumer.InLock?
    case ConsumerRelease => s.consumer.AtUnlock?
    case WriteOne(_) => s.consumer.Writing? && s.consumer.next < |s.readBuffer|
    case Clear => s.consumer.Writing? && s.consumer.next == |s.readBuffer|
  }

  function AfterProcessQueue(final: bool): Consumer {
    if final then Finished else AtTest
  }

  /** Only a push adds to what was pushed, only the writing step to what was written. */
  function Step(s: State, a: Action): (t: State)
    requires Enabled(s, a)
    ensures t.log.pushed == s.log.pushed + if a.Push? then [Phase(s, a.caller).entry] else []
    ensures t.log.pushers == s.log.pushers + if a.Push? then [a.caller] else []
    ensures t.log.written == s.log.written + if a.WriteOne? then [s.readBuffer[s.consumer.next]] else []
    ensures t.log.opens == s.log.opens + if a.WriteOne? then [a.opens] else []
  {
    match a
    case Prepare(p, level, result, time) =>
      (match result
       case FormatError => s
       case Formatted(text) =>
         s.(producers := s.producers[p := Prepared(LogEntry(level, Stored(text), time))]))
    case Acquire(p) =>
      s.(lock := ByProducer(p), producers := s.producers[p := Locked(Phase(s, p).entry)])
    case Push(p) =>
      var e := Phase(s, p).entry;
      s.(writeBuffer := s.writeBuffer + [e], producers := s.producers[p := Pushed],
         log := s.log.(pushed := s.log.pushed + [e], pushers := s.log.pushers + [p]))
    case Release(p) => s.(lock := Free, producers := s.producers[p := Unlocked])
    case Signal(p) => s.(event := true, producers := s.producers[p := Outside])
    case StartFlag => s.(running := true, controller := StartFlagged)
    case BeginThread(created) =>
      if created then s.(consumer := AtTest, controller := StartBegun) else s.(controller := Idle)
    case StoreHandle => s.(handle := true, controller := StartStored)
    case StartReturn => s.(baseRunning := true, controller := Idle)
    case StopFlag =>
      s.(running := false, controller := StopFlagged, log := s.log.(stopMark := |s.log.pushed|))
    case StopSignal => s.(event := true, controller := StopSignalled)
    case StopBase => s.(baseRunning := false, controller := StopWaiting)
    case Join => s.(consumer := NoThread, controller := StopJoined)
    case CloseHandle => s.(handle := false, controller := Idle)
    case Test => s.(consumer := if s.running then AtWait else AtLock(true))
    case Wait => s.(event := false, consumer := AtLock(false))
    case ConsumerAcquire => s.(lock := ByConsumer, consumer := InLock(s.consumer.final))
    case Swap =>
      var final := s.consumer.final;
      var swapped := s.writeBuffer != [];
      s.(writeBuffer := if swapped then s.readBuffer else s.writeBuffer,
         readBuffer := if swapped then s.writeBuffer else s.readBuffer,
         consumer := AtUnlock(final, swapped),
         log := if final then s.log.(finalMark := |s.log.pushed|) else s.log)
    case ConsumerRelease =>
      var AtUnlock(final, swapped) := s.consumer;
      s.(lock := Free, consumer := if swapped then Writing(final, 0) else AfterProcessQueue(final))
    case WriteOne(opens) =>
      var e := s.readBuffer[s.consumer.next];
      s.(consumer := s.consumer.(next := s.consumer.next + 1),
         log := s.log.(written := s.log.written + [e], opens := s.log.opens + [opens]))
    case Clear => s.(readBuffer := [], consumer := AfterProcessQueue(s.consumer.final))
  }

  // ----- runs -----

  function Next(s: State, a: Action): Option<State> {
    if Enabled(s, a) then Some(Step(s, a)) else None
  }

  /** The state a schedule leads to, if every step of it can be taken. */
  function Exec(s: State, acts: seq<Action>): Option<State> {
    RunOf(Next, s, acts)
  }

  /** Some schedule leads from a constructed logger to `s`. */
  ghost predicate Reachable(s: State) {
    exists acts :: Exec(Init(), acts) == Some(s)
  }

  lemma ExecConcat(s: State, acts: seq<Action>, t: State, more: seq<Action>)
    requires Exec(s, acts) == Some(t)
    ensures Exec(s, acts + more) == Exec(t, more)
  {
    RunConcat(Next, s, acts, t, more);
  }

  lemma ExecFirst(s: State, a: Action, more: seq<Action>)
    requires Enabled(s, a)
    ensures Exec(s, [a]) == Some(Step(s, a))
    ensures Exec(s, [a] + more) == Exec(Step(s, a), more)
  {
    RunFirst(Next, s, a, Step(s, a), more);
  }

  /** The last step of a run. */
  lemma ExecLast(s: State, acts: seq<Action>, t: State)
    requires acts != [] && Exec(s, acts) == Some(t)
    ensures var n := |acts| - 1;
            && Exec(s, acts[..n]).Some?
            && Enabled(Exec(s, acts[..n]).value, acts[n])
            && t == Step(Exec(s, acts[..n]).value, acts[n])
  {
  }

  lemma ReachableThen(s: State, acts: seq<Action>, t: State)
    requires Reachable(s) && Exec(s, acts) == Some(t)
    ensures Reachable(t)
  {
    var before :| Exec(Init(), before) == Some(s);
    ExecConcat(Init(), before, s, acts);
  }

  lemma ReachableStep(s: State, a: Action)
    requires Reachable(s) && Enabled(s, a)
    ensures Reachable(Step(s, a))
  {
    ExecFirst(s, a, []);
    ReachableThen(s, [a], Step(s, a));
  }

  // ----- what threads try to do -----

  /** A step is taken if it can be, and passed over otherwise. */
  function TakeOne(s: State, a: Action): State {
    if Enabled(s, a) then Step(s, a) else s
  }

  function TakeAll(s: State, acts: seq<Action>): State {
    if acts == [] then s
    else TakeOne(TakeAll(s, acts[..|acts| - 1]), acts[|acts| - 1])
  }

  lemma TakeAllThen(s: State, acts: seq<Action>, a: Action)
    ensures TakeAll(s, acts + [a]) == TakeOne(TakeAll(s, acts), a)
  {
    assert (acts + [a])[..|acts|] == acts;
  }

  lemma {:induction false} TakeAllConcat(s: State, acts: seq<Action>, more: seq<Action>)
    ensures TakeAll(s, acts + more) == TakeAll(TakeAll(s, acts), more)
  {
    if more == [] {
      assert acts + more == acts;
    } else {
      var n := |more| - 1;
      TakeAllConcat(s, acts, more[..n]);
      assert (acts + more)[..|acts + more| - 1] == acts + more[..n];
    }
  }
}
