/**
 The logger object (Logger.h, Logger.cpp, Thread.cpp). Its atomic actions update the fields step by step and
 are proved to be the steps of the protocol; its operations are built from them and may be interleaved with
 anything the other threads do.
 */
module LoggerObject {
  import opened LogTypes
  import opened Text
  import opened Format
  import opened FileName
  import opened LineParser
  import Router
  import RouterSpec
  import opened Runs
  import opened Protocol
  import opened Invariant
  import opened Safety
  import opened Shutdown
  import opened EndToEnd
  import opened Interference

  lemma StepKeeps(start: Router.Output, s: State, o: Router.Output, a: Action)
    requires Reachable(s) && Produced(start, s, o) && Enabled(s, a)
    ensures Reachable(Step(s, a))
    ensures a.WriteOne? ==> Produced(start, Step(s, a), Router.WriteLog(o, s.readBuffer[s.consumer.next], a.opens))
    ensures !a.WriteOne? ==> Produced(start, Step(s, a), o)
  {
    ReachableStep(s, a);
    ProducedStep(start, s, o, a);
  }

  lemma PaddedWithNul(buffer: string, s: string)
    requires '\0' !in s && |s| < |buffer| && buffer[..|s|] == s && buffer[|s|] == '\0'
    ensures CString(buffer) == s && '\0' in buffer
  {
    assert buffer == s + ['\0'] + buffer[|s| + 1..];
    IndexOfConcat(s, '\0', buffer[|s| + 1..]);
  }

  lemma TakeOneMore(before: seq<LogEntry>, batch: seq<LogEntry>, i: nat)
    requires i < |batch|
    ensures before + batch[..i] + [batch[i]] == before + batch[..i + 1]
  {
    assert batch[..i + 1] == batch[..i] + [batch[i]];
  }

  lemma NothingUnread(s: State)
    requires Reachable(s) && (s.consumer == AtTest || s.consumer == Finished)
    ensures s.log.written + s.writeBuffer == s.log.pushed
  {
    InvReachable(s);
    assert s.log.written + [] == s.log.written;
  }

  lemma BeforeSwap(s: State)
    requires Reachable(s) && s.consumer.InLock?
    ensures s.log.written + s.writeBuffer == s.log.pushed
  {
    InvReachable(s);
    assert s.log.written + [] == s.log.written;
  }

  lemma StartedThread(s: State)
    requires Reachable(s)
    ensures s.running ==> !IsFinal(s.consumer)
  {
    InvReachable(s);
  }

  lemma IdleWithoutHandle(s: State)
    requires Reachable(s) && s.controller == Idle && !s.handle
    ensures s.consumer == NoThread
  {
    InvReachable(s);
  }

  lemma StopBegins(s: State)
    requires Reachable(s) && Enabled(s, Action.StopFlag)
    ensures StopInProgress(s, Step(s, Action.StopFlag))
  {
    StopInProgressRun(s, [], Step(s, Action.StopFlag));
  }

  lemma StopKeeps(s: State, u: State, a: Action)
    requires Reachable(u) && StopInProgress(s, u) && Enabled(u, a) && a != Action.StartFlag && a != Action.StopFlag
    ensures StopInProgress(s, Step(u, a))
  {
    InvReachable(u);
    StopInProgressStep(s, u, a);
  }

  lemma FinishedDrained(s: State)
    requires Reachable(s) && s.consumer == Finished
    ensures s.log.stopMark <= |s.log.written|
  {
    InvReachable(s);
    NothingUnread(s);
  }

  class Logger {
    // CThread
    var handle: bool
    var baseRunning: bool
    // the queue
    var lock: Holder
    var writeBuffer: seq<LogEntry>
    var readBuffer: seq<LogEntry>
    var queueEvent: bool
    var running: bool
    // one cell per level: the name of the open file, and the day it was opened for
    const logFiles: array<Option<string>>
    const currentDay: array<Word>
    // the outside world: the path of the process, the disk and the console
    const processPath: string
    var files: map<string, string>
    var console: string
    // where the threads are
    var producers: map<Caller, Producer>
    var consumer: Consumer
    var controller: Controller
    // for specifications
    ghost var log: History
    ghost const start: Router.Output

    ghost function View(): State
      reads `lock, `writeBuffer, `readBuffer, `queueEvent, `running, `baseRunning, `handle
      reads `producers, `consumer, `controller, `log
    {
      State(lock, writeBuffer, readBuffer, queueEvent, running, baseRunning, handle, producers, consumer, controller,
            log)
    }

    ghost predicate Shape()
    {
      && logFiles.Length == 3 && currentDay.Length == 3
      && |processPath| < MAX_PATH && '\0' !in processPath
    }

    ghost function Out(): Router.Output
      requires Shape()
      reads `files, `console, logFiles, currentDay
    {
      Router.OutputState(Stem(processPath), currentDay[..], logFiles[..], files, console)
    }

    /** The threads are in a reachable state, and the output is what the entries written so far produce. */
    ghost predicate Valid()
      reads this, logFiles, currentDay
    {
      && Shape()
      && Router.FreshOutput(start) && start.stem == Stem(processPath)
      && Reachable(View())
      && Produced(start, View(), Out())
    }

    /** Exactly the step `a` was taken. */
    twostate predicate Took(a: Action)
      requires Shape()
      reads this, logFiles, currentDay
    {
      && Valid()
      && old(Enabled(View(), a)) && View() == old(Step(View(), a))
      && (a.WriteOne? || Out() == old(Out()))
    }

    constructor (path: string, disk: map<string, string>, screen: string)
      requires |path| < 260 && '\0' !in path
      ensures Valid() && View() == Init() && fresh(logFiles) && fresh(currentDay)
      ensures !running && !baseRunning && !handle && !queueEvent && lock == Free
      ensures writeBuffer == readBuffer == log.pushed == log.written == []
      ensures processPath == path && files == disk && console == screen
      ensures start == Out()
    {
      handle, baseRunning := false, false;
      lock, writeBuffer, readBuffer, queueEvent, running := Free, [], [], false, false;
      logFiles := new Option<string>[3](_ => None);
      currentDay := new Word[3](_ => 0);
      processPath, files, console := path, disk, screen;
      producers, consumer, controller := map[], NoThread, Idle;
      log := EMPTY_HISTORY;
      start := Router.OutputState(Stem(path), [0, 0, 0], [None, None, None], disk, screen);
      new;
      assert currentDay[..] == [0, 0, 0] && logFiles[..] == [None, None, None];
      assert Exec(Init(), []) == Some(View());
      assert StatesOf(Router.WriteLog, start, [], [], [start]);
    }

    /** At any moment the console and the files are what the entries written so far amount to. */
    lemma OutputIsRouted()
      requires Valid()
      ensures log.written <= log.pushed && |log.written| == |log.opens|
      ensures console == start.console + Lines(log.written)
      ensures forall name | name in files ::
                files[name] == (if name in start.files then start.files[name] else "") +
                               RouterSpec.LinesTo(start.stem, log.written, log.opens, name)
      ensures RouterSpec.RoutedFrom(start, Out(), log.written, log.opens)
    {
      OutputOfHistory(start, View(), Out());
      forall name | name in files
        ensures files[name] == (if name in start.files then start.files[name] else "") +
                               RouterSpec.LinesTo(start.stem, log.written, log.opens, name)
      {
        assert RouterSpec.Grew(start.files, files, name, RouterSpec.LinesTo(start.stem, log.written, log.opens, name));
      }
    }

    // ----- output: only the consumer thread gets here -----

    /** The path is fetched into a zeroed buffer, and its stem is cut out there. */
    method ProcessStem() returns (stem: string)
      requires Shape()
      ensures stem == Stem(processPath)
    {
      var path := new char[MAX_PATH](i => if 0 <= i < |processPath| then processPath[i] else '\0');
      PaddedWithNul(path[..], processPath);
      var from := CutStem(path);
      stem := CString(path[from..]);
    }

    method GetLogFileName(level: LogLevel, t: SystemTime) returns (name: string)
      requires Shape()
      ensures name == LogFileName(level, Stem(processPath), t)
    {
      var stem := ProcessStem();
      name := Clip(Print([LevelName(level), "_", stem, "_", DateText(t), ".log"]), 512);
    }

    method OpenLogFile(level: LogLevel, t: SystemTime, opens: bool)
      requires Shape()
      modifies this`files, logFiles, currentDay
      ensures Out() == Router.OpenLogFile(old(Out()), level, t, opens)
    {
      var i := Router.Index(level);
      if logFiles[i].Some? {
        logFiles[i] := None;
      }
      var name := GetLogFileName(level, t);
      if opens {
        files := files[name := if name in files then files[name] else ""];
        logFiles[i] := Some(name);
      }
      currentDay[i] := t.day;
    }

    /** The line is printed into a buffer; what is written is `outputLen` characters of that buffer. */
    method WriteLog(e: LogEntry, opens: bool)
      requires Shape()
      modifies this`files, this`console, logFiles, currentDay
      ensures Out() == Router.WriteLog(old(Out()), e, opens)
    {
      var i := Router.Index(e.level);
      if currentDay[i] != e.time.day {
        OpenLogFile(e.level, e.time, opens);
      }
      ghost var ready := Out();
      assert ready == if old(currentDay[i]) != e.time.day then Router.OpenLogFile(old(Out()), e.level, e.time, opens)
                      else old(Out());
      var outputBuffer := Clip(FormatLine(e), OUTPUT_BUFFER_SIZE);
      var outputLen := |FormatLine(e)|;
      LineFits(e);
      assert outputBuffer[..outputLen] == FormatLine(e);
      if outputLen > 0 {
        if logFiles[i].Some? {
          var name := logFiles[i].value;
          files := files[name := (if name in files then files[name] else "") + outputBuffer[..outputLen]];
        }
        console := console + outputBuffer[..outputLen];
      }
    }

    // ----- EnqueueLog, step by step -----

    /** Formats the message and stamps the entry; an encoding error ends the call. */
    method Prepare(p: Caller, level: LogLevel, result: FormatResult, time: SystemTime)
      requires Valid() && Enabled(View(), Action.Prepare(p, level, result, time))
      modifies `producers
      ensures Took(Action.Prepare(p, level, result, time))
    {
      ghost var s := View();
      StepKeeps(start, s, Out(), Action.Prepare(p, level, result, time));
      if result.Formatted? {
        var len := |result.text|;
        var buffer := Clip(result.text, MAX_LOG_BUFFER_SIZE);
        var message := buffer[..if len < MAX_LOG_BUFFER_SIZE then len else MAX_LOG_BUFFER_SIZE - 1];
        producers := producers[p := Prepared(LogEntry(level, message, time))];
      }
      assert View() == Step(s, Action.Prepare(p, level, result, time));
    }

    method Acquire(p: Caller)
      requires Valid() && Enabled(View(), Action.Acquire(p))
      modifies `lock, `producers
      ensures Took(Action.Acquire(p))
    {
      ghost var s := View();
      StepKeeps(start, s, Out(), Action.Acquire(p));
      lock := ByProducer(p);
      producers := producers[p := Locked(producers[p].entry)];
      assert View() == Step(s, Action.Acquire(p));
    }

    method Push(p: Caller)
      requires Valid() && Enabled(View(), Action.Push(p))
      modifies `writeBuffer, `producers, `log
      ensures Took(Action.Push(p))
    {
      ghost var s := View();
      StepKeeps(start, s, Out(), Action.Push(p));
      var e := producers[p].entry;
      writeBuffer := writeBuffer + [e];
      producers := producers[p := Pushed];
      log := log.(pushed := log.pushed + [e], pushers := log.pushers + [p]);
      assert View() == Step(s, Action.Push(p));
    }

    method Release(p: Caller)
      requires Valid() && Enabled(View(), Action.Release(p))
      modifies `lock, `producers
      ensures Took(Action.Release(p))
    {
      ghost var s := View();
      StepKeeps(start, s, Out(), Action.Release(p));
      lock := Free;
      producers := producers[p := Unlocked];
      assert View() == Step(s, Action.Release(p));
    }

    method Signal(p: Caller)
      requires Valid() && Enabled(View(), Action.Signal(p))
      modifies `queueEvent, `producers
      ensures Took(Action.Signal(p))
    {
      ghost var s := View();
      StepKeeps(start, s, Out(), Action.Signal(p));
      queueEvent := true;
      producers := producers[p := Outside];
      assert View() == Step(s, Action.Signal(p));
    }

    // ----- Start, Stop and DestroyThread, step by step -----

    method StartFlag()
      requires Valid() && Enabled(View(), Action.StartFlag)
      modifies `running, `controller
      ensures Took(Action.StartFlag)
    {
      ghost var s := View();
      StepKeeps(start, s, Out(), Action.StartFlag);
      running := true;
      controller := StartFlagged;
      assert View() == Step(s, Action.StartFlag);
    }

    /** The new thread begins at the test of the loop; without a thread CreateThread returns at once. */
    method BeginThread(created: bool)
      requires Valid() && Enabled(View(), Action.BeginThread(created))
      modifies `consumer, `controller
      ensures Took(Action.BeginThread(created))
    {
      ghost var s := View();
      StepKeeps(start, s, Out(), Action.BeginThread(created));
      if created {
        consumer := AtTest;
        controller := StartBegun;
      } else {
        controller := Idle;
      }
      assert View() == Step(s, Action.BeginThread(created));
    }

    method StoreHandle()
      requires Valid() && Enabled(View(), Action.StoreHandle)
      modifies `handle, `controller
      ensures Took(Action.StoreHandle)
    {
      ghost var s := View();
      StepKeeps(start, s, Out(), Action.StoreHandle);
      handle := true;
      controller := StartStored;
      assert View() == Step(s, Action.StoreHandle);
    }

    method StartReturn()
      requires Valid() && Enabled(View(), Action.StartReturn)
      modifies `baseRunning, `controller
      ensures Took(Action.StartReturn)
    {
      ghost var s := View();
      StepKeeps(start, s, Out(), Action.StartReturn);
      baseRunning := true;
      controller := Idle;
      assert View() == Step(s, Action.StartReturn);
    }

    method StopFlag()
      requires Valid() && Enabled(View(), Action.StopFlag)
      modifies `running, `controller, `log
      ensures Took(Action.StopFlag)
    {
      ghost var s := View();
      StepKeeps(start, s, Out(), Action.StopFlag);
      running := false;
      controller := StopFlagged;
      log := log.(stopMark := |log.pushed|);
      assert View() == Step(s, Action.StopFlag);
    }

    method StopSignal()
      requires Valid() && Enabled(View(), Action.StopSignal)
      modifies `queueEvent, `controller
      ensures Took(Action.StopSignal)
    {
      ghost var s := View();
      StepKeeps(start, s, Out(), Action.StopSignal);
      queueEvent := true;
      controller := StopSignalled;
      assert View() == Step(s, Action.StopSignal);
    }

    method StopBase()
      requires Valid() && Enabled(View(), Action.StopBase)
      modifies `baseRunning, `controller
      ensures Took(Action.StopBase)
    {
      ghost var s := View();
      StepKeeps(start, s, Out(), Action.StopBase);
      baseRunning := false;
      controller := StopWaiting;
      assert View() == Step(s, Action.StopBase);
    }

    /** The wait on the thread returns; on a NULL handle it returns in any case. */
    method Join()
      requires Valid() && Enabled(View(), Action.Join)
      modifies `consumer, `controller
      ensures Took(Action.Join)
    {
      ghost var s := View();
      StepKeeps(start, s, Out(), Action.Join);
      consumer := NoThread;
      controller := StopJoined;
      assert View() == Step(s, Action.Join);
    }

    method CloseHandle()
      requires Valid() && Enabled(View(), Action.CloseHandle)
      modifies `handle, `controller
      ensures Took(Action.CloseHandle)
    {
      ghost var s := View();
      StepKeeps(start, s, Out(), Action.CloseHandle);
      handle := false;
      controller := Idle;
      assert View() == Step(s, Action.CloseHandle);
    }

    // ----- FuncImplRun and ProcessQueue, step by step -----

    /** Tests the flag; a cleared flag leads to the call of ProcessQueue after the loop. */
    method Test() returns (again: bool)
      requires Valid() && Enabled(View(), Action.Test)
      modifies `consumer
      ensures Took(Action.Test) && again == old(running)
    {
      ghost var s := View();
      StepKeeps(start, s, Out(), Action.Test);
      again := running;
      if again {
        consumer := AtWait;
      } else {
        consumer := AtLock(true);
      }
      assert View() == Step(s, Action.Test);
    }

    /** A wait that returns resets the event. */
    method Wait()
      requires Valid() && Enabled(View(), Action.Wait)
      modifies `queueEvent, `consumer
      ensures Took(Action.Wait)
    {
      ghost var s := View();
      StepKeeps(start, s, Out(), Action.Wait);
      queueEvent := false;
      consumer := AtLock(false);
      assert View() == Step(s, Action.Wait);
    }

    method ConsumerAcquire()
      requires Valid() && Enabled(View(), Action.ConsumerAcquire)
      modifies `lock, `consumer
      ensures Took(Action.ConsumerAcquire)
    {
      ghost var s := View();
      StepKeeps(start, s, Out(), Action.ConsumerAcquire);
      lock := ByConsumer;
      consumer := InLock(consumer.final);
      assert View() == Step(s, Action.ConsumerAcquire);
    }

    /** The critical section of ProcessQueue. */
    method SwapBuffers() returns (swapped: bool)
      requires Enabled(View(), Action.Swap)
      modifies `writeBuffer, `readBuffer, `consumer, `log
      ensures View() == Step(old(View()), Action.Swap) && swapped == (old(writeBuffer) != [])
    {
      if consumer.final {
        log := log.(finalMark := |log.pushed|);
      }
      swapped := writeBuffer != [];
      if swapped {
        readBuffer, writeBuffer := writeBuffer, readBuffer;
      }
      consumer := AtUnlock(consumer.final, swapped);
    }

    method Swap() returns (swapped: bool)
      requires Valid() && Enabled(View(), Action.Swap)
      modifies `writeBuffer, `readBuffer, `consumer, `log
      ensures Took(Action.Swap) && swapped == (old(writeBuffer) != [])
    {
      StepKeeps(start, View(), Out(), Action.Swap);
      swapped := SwapBuffers();
    }

    /** On the way out: on to the batch that was taken, or back at once. */
    method LeaveSection()
      requires Enabled(View(), Action.ConsumerRelease)
      modifies `lock, `consumer
      ensures View() == Step(old(View()), Action.ConsumerRelease)
    {
      lock := Free;
      var AtUnlock(final, swapped) := consumer;
      consumer := if swapped then Writing(final, 0) else AfterProcessQueue(final);
    }

    method ConsumerRelease()
      requires Valid() && Enabled(View(), Action.ConsumerRelease)
      modifies `lock, `consumer
      ensures Took(Action.ConsumerRelease)
    {
      StepKeeps(start, View(), Out(), Action.ConsumerRelease);
      LeaveSection();
    }

    method Advance(opens: bool)
      requires Enabled(View(), Action.WriteOne(opens))
      modifies `consumer, `log
      ensures View() == Step(old(View()), Action.WriteOne(opens))
    {
      log := log.(written := log.written + [readBuffer[consumer.next]], opens := log.opens + [opens]);
      consumer := Writing(consumer.final, consumer.next + 1);
    }

    /** The body of the loop: writes the next entry and goes on to the one after it. */
    method WriteEntry(opens: bool)
      requires Shape() && Enabled(View(), Action.WriteOne(opens))
      modifies `consumer, `log, `files, `console, logFiles, currentDay
      ensures View() == Step(old(View()), Action.WriteOne(opens))
      ensures Out() == Router.WriteLog(old(Out()), old(readBuffer[consumer.next]), opens)
    {
      ghost var s := View();
      WriteLog(readBuffer[consumer.next], opens);
      assert View() == s;
      Advance(opens);
    }

    /** One turn of the loop over the read buffer. */
    method WriteOne(opens: bool)
      requires Valid() && Enabled(View(), Action.WriteOne(opens))
      modifies `consumer, `log, `files, `console, logFiles, currentDay
      ensures Took(Action.WriteOne(opens))
      ensures Out() == Router.WriteLog(old(Out()), old(readBuffer[consumer.next]), opens)
    {
      ghost var s, o := View(), Out();
      WriteEntry(opens);
      assert View() == Step(s, Action.WriteOne(opens));
      StepKeeps(start, s, o, Action.WriteOne(opens));
    }

    method Clear()
      requires Valid() && Enabled(View(), Action.Clear)
      modifies `readBuffer, `consumer
      ensures Took(Action.Clear)
    {
      ghost var s := View();
      StepKeeps(start, s, Out(), Action.Clear);
      readBuffer := [];
      consumer := AfterProcessQueue(consumer.final);
      assert View() == Step(s, Action.Clear);
    }

    // ----- interference -----

    function ControlState(): State
      reads this
    {
      State(lock, writeBuffer, readBuffer, queueEvent, running, baseRunning, handle, producers, consumer, controller,
            EMPTY_HISTORY)
    }

    lemma ControlDecides(a: Action)
      ensures Enabled(ControlState(), a) <==> Enabled(View(), a)
    {
    }

    /** Lets a call of EnqueueLog take one step. */
    method TakeCall(a: Action)
      requires Valid() && Enabled(View(), a) && !IsConsumerAction(a) && !IsControllerAction(a)
      modifies this, logFiles, currentDay
      ensures Took(a)
    {
      match a {
        case Prepare(p, level, result, time) => Prepare(p, level, result, time);
        case Acquire(p) => Acquire(p);
        case Push(p) => Push(p);
        case Release(p) => Release(p);
        case Signal(p) => Signal(p);
      }
    }

    method TakeController(a: Action)
      requires Valid() && Enabled(View(), a) && IsControllerAction(a)
      modifies this, logFiles, currentDay
      ensures Took(a)
    {
      match a {
        case StartFlag => StartFlag();
        case BeginThread(created) => BeginThread(created);
        case StoreHandle => StoreHandle();
        case StartReturn => StartReturn();
        case StopFlag => StopFlag();
        case StopSignal => StopSignal();
        case StopBase => StopBase();
        case Join => Join();
        case CloseHandle => CloseHandle();
      }
    }

    method TakeConsumer(a: Action)
      requires Valid() && Enabled(View(), a) && IsConsumerAction(a)
      modifies this, logFiles, currentDay
      ensures Took(a)
    {
      match a {
        case Test => var _ := Test();
        case Wait => Wait();
        case ConsumerAcquire => ConsumerAcquire();
        case Swap => var _ := Swap();
        case ConsumerRelease => ConsumerRelease();
        case WriteOne(opens) => WriteOne(opens);
        case Clear => Clear();
      }
    }

    /** Takes one step, if it can be taken. */
    method Take(a: Action) returns (taken: bool)
      requires Valid()
      modifies this, logFiles, currentDay
      ensures Valid() && taken == old(Enabled(View(), a))
      ensures View() == TakeOne(old(View()), a)
    {
      ControlDecides(a);
      taken := Enabled(ControlState(), a);
      if taken {
        if IsConsumerAction(a) {
          TakeConsumer(a);
        } else if IsControllerAction(a) {
          TakeController(a);
        } else {
          TakeCall(a);
        }
      }
    }

    /** Other threads run: exactly those of the steps that can be taken are taken, in order. */
    method Interfere(acts: seq<Action>) returns (ghost done: seq<Action>)
      requires Valid()
      modifies this, logFiles, currentDay
      ensures Valid() && View() == TakeAll(old(View()), acts)
      ensures Exec(old(View()), done) == Some(View()) && forall a | a in done :: a in acts
    {
      done := [];
      for i := 0 to |acts|
        invariant Valid() && View() == TakeAll(old(View()), acts[..i])
        invariant Exec(old(View()), done) == Some(View())
        invariant forall a | a in done :: a in acts
      {
        assert acts[..i + 1] == acts[..i] + [acts[i]];
        TakeAllThen(old(View()), acts[..i], acts[i]);
        ghost var t := View();
        var taken := Take(acts[i]);
        if taken {
          ExecFirst(t, acts[i], []);
          ExecConcat(old(View()), done, t, [acts[i]]);
          done := done + [acts[i]];
        }
      }
      assert acts[..|acts|] == acts;
    }

    // ----- the operations, interleaved with other threads -----
    // `others` is what other threads try to do at the successive moments at which this thread is overtaken:
    // while it waits, and between its own steps; `rest` is what is left of it. A thread that is blocked when
    // nothing is left stays blocked.

    /** Other threads run, if they want to, while `who` stands still. */
    method Overtaken(who: Thread, others: Turns) returns (rest: Turns, ghost done: seq<Action>)
      requires Valid() && NoneOf(who, others)
      modifies this, logFiles, currentDay
      ensures Valid() && NoneOf(who, rest) && Tried(who, old(View()), [], others, rest, View())
      ensures if others == [] then rest == [] && View() == old(View()) else |rest| < |others|
      ensures Exec(old(View()), done) == Some(View()) && forall a | a in done :: !IsStepOf(who, a)
    {
      rest, done := others, [];
      if others == [] {
        TriedNothing(who, View(), []);
      } else {
        rest := others[1..];
        TriedOthers(who, View(), others);
        assert forall acts | acts in rest :: acts in others;
        done := Interfere(others[0]);
        assert others[0] in others;
      }
    }

    // ----- FuncImplRun and ProcessQueue -----

    /** Of `others`, which is for other threads than the consumer, exactly the lists before `rest` have been tried. */
    twostate predicate Left(others: Turns, rest: Turns)
      reads this
    {
      && NoneOf(TheConsumer, rest) && |rest| <= |others|
      && ConsumerTried(old(View()), others, rest, View())
    }

    /** Other threads run, if they want to, while the consumer thread stands still. */
    method ConsumerOvertaken(others: Turns) returns (rest: Turns)
      requires Valid() && consumer != NoThread && consumer != Finished && NoneOf(TheConsumer, others)
      modifies this, logFiles, currentDay
      ensures Valid() && Left(others, rest) && (others != [] ==> |rest| < |others|)
      ensures |rest| == |others| ==> queueEvent == old(queueEvent)
      ensures consumer == old(consumer) && readBuffer == old(readBuffer)
      ensures log.written == old(log.written) && old(log.pushed) <= log.pushed
    {
      ghost var s, done := View(), [];
      rest, done := Overtaken(TheConsumer, others);
      assert forall a | a in done :: !IsStepOf(TheConsumer, a);
      OthersKeepConsumer(s, done, View());
    }

    /** Blocks on the lock; blocked for good if it is still held after everything the other threads had to do. */
    method AwaitLock(others: Turns) returns (blocked: bool, rest: Turns)
      requires Valid() && consumer.AtLock? && NoneOf(TheConsumer, others)
      modifies this, logFiles, currentDay
      ensures Valid() && Left(others, rest)
      ensures |rest| == |others| ==> queueEvent == old(queueEvent)
      ensures consumer == old(consumer) && log.written == old(log.written) && old(log.pushed) <= log.pushed
      ensures blocked <==> lock != Free
      ensures blocked ==> rest == []
    {
      rest := ConsumerOvertaken(others);
      while lock != Free && rest != []
        invariant Valid() && Left(others, rest)
        invariant |rest| == |others| ==> queueEvent == old(queueEvent)
        invariant consumer == old(consumer) && log.written == old(log.written) && old(log.pushed) <= log.pushed
        decreases |rest|
      {
        ghost var before, t := rest, View();
        rest := ConsumerOvertaken(rest);
        ConsumerTriedThen(old(View()), others, before, t, rest, View());
      }
      blocked := lock != Free;
    }

    /** Enters the critical section of ProcessQueue. */
    method EnterSection(others: Turns) returns (rest: Turns)
      requires Valid() && consumer.AtLock? && lock == Free && NoneOf(TheConsumer, others)
      modifies this, logFiles, currentDay
      ensures Valid() && Left(others, rest) && consumer == InLock(old(consumer.final))
      ensures |rest| == |others| ==> queueEvent == old(queueEvent)
      ensures log.written == old(log.written) && old(log.pushed) <= log.pushed
    {
      ConsumerOwn(View(), Action.ConsumerAcquire, others);
      ConsumerAcquire();
      ghost var t := View();
      rest := ConsumerOvertaken(others);
      ConsumerTriedThen(old(View()), others, others, t, rest, View());
    }

    /** Takes the whole write buffer, or finds it empty. */
    method TakeBuffer(others: Turns) returns (result: bool, rest: Turns)
      requires Valid() && consumer.AtLock? && lock == Free && NoneOf(TheConsumer, others)
      modifies this, logFiles, currentDay
      ensures Valid() && Left(others, rest) && consumer == AtUnlock(old(consumer.final), result)
      ensures |rest| == |others| ==> queueEvent == old(queueEvent)
      ensures log.written == old(log.written) && old(log.pushed) <= log.pushed
      ensures if result then readBuffer != [] && old(log.pushed) <= log.written + readBuffer
              else old(log.pushed) <= log.written
    {
      rest := EnterSection(others);
      BeforeSwap(View());
      ConsumerOwnThen(old(View()), others, rest, View(), Action.Swap);
      result := Swap();
    }

    /** The critical section; other threads run inside it too, but none of them gets the lock. */
    method TakeBatch(others: Turns) returns (result: bool, rest: Turns)
      requires Valid() && consumer.AtLock? && lock == Free && NoneOf(TheConsumer, others)
      modifies this, logFiles, currentDay
      ensures Valid() && Left(others, rest)
      ensures |rest| == |others| ==> queueEvent == old(queueEvent)
      ensures log.written == old(log.written) && old(log.pushed) <= log.pushed
      ensures result ==> consumer == Writing(old(consumer.final), 0) && readBuffer != []
      ensures result ==> old(log.pushed) <= log.written + readBuffer
      ensures !result ==> consumer == AfterProcessQueue(old(consumer.final)) && old(log.pushed) <= log.written
    {
      result, rest := TakeBuffer(others);
      ghost var before, t := rest, View();
      rest := ConsumerOvertaken(rest);
      ConsumerTriedThen(old(View()), others, before, t, rest, View());
      ConsumerOwnThen(old(View()), others, rest, View(), Action.ConsumerRelease);
      ConsumerRelease();
    }

    /** The entries before `i` of a batch have been written behind `written`. */
    ghost predicate WrittenUpTo(i: nat, batch: seq<LogEntry>, written: seq<LogEntry>)
      reads this
    {
      && consumer.Writing? && consumer.next == i <= |batch| && readBuffer == batch
      && log.written == written + batch[..i]
    }

    /** One turn of the loop over the read buffer. */
    method WriteNext(i: nat, others: Turns, ghost written: seq<LogEntry>) returns (rest: Turns)
      requires Valid() && WrittenUpTo(i, readBuffer, written) && i < |readBuffer| && NoneOf(TheConsumer, others)
      modifies this, logFiles, currentDay
      ensures Valid() && Left(others, rest)
      ensures |rest| == |others| ==> queueEvent == old(queueEvent)
      ensures WrittenUpTo(i + 1, old(readBuffer), written) && consumer.final == old(consumer.final)
      ensures old(log.pushed) <= log.pushed
    {
      rest := ConsumerOvertaken(others);
      var opens: bool := *;
      assert Step(View(), Action.WriteOne(opens)).consumer == Writing(consumer.final, i + 1);
      ConsumerOwnThen(old(View()), others, rest, View(), Action.WriteOne(opens));
      TakeOneMore(written, readBuffer, i);
      WriteOne(opens);
    }

    /** Clears the batch when all of it is written. */
    method EndBatch(others: Turns) returns (rest: Turns)
      requires Valid() && consumer.Writing? && consumer.next == |readBuffer| && NoneOf(TheConsumer, others)
      modifies this, logFiles, currentDay
      ensures Valid() && Left(others, rest)
      ensures |rest| == |others| ==> queueEvent == old(queueEvent)
      ensures consumer == AfterProcessQueue(old(consumer.final)) && readBuffer == []
      ensures log.written == old(log.written) && old(log.pushed) <= log.pushed
    {
      rest := ConsumerOvertaken(others);
      ConsumerOwnThen(old(View()), others, rest, View(), Action.Clear);
      Clear();
    }

    /** Writes the read buffer entry by entry. */
    method WriteEntries(others: Turns) returns (rest: Turns)
      requires Valid() && consumer.Writing? && consumer.next == 0 && NoneOf(TheConsumer, others)
      modifies this, logFiles, currentDay
      ensures Valid() && Left(others, rest)
      ensures |rest| == |others| ==> queueEvent == old(queueEvent)
      ensures consumer == Writing(old(consumer.final), |readBuffer|) && readBuffer == old(readBuffer)
      ensures log.written == old(log.written) + readBuffer && old(log.pushed) <= log.pushed
    {
      ghost var s, batch, written := View(), readBuffer, log.written;
      rest := others;
      ConsumerTriedNothing(s, others);
      for i := 0 to |readBuffer|
        invariant Valid() && Left(others, rest)
        invariant |rest| == |others| ==> queueEvent == old(queueEvent)
        invariant WrittenUpTo(i, batch, written) && consumer.final == old(consumer.final)
        invariant old(log.pushed) <= log.pushed
      {
        ghost var before, t := rest, View();
        rest := WriteNext(i, rest, written);
        ConsumerTriedThen(s, others, before, t, rest, View());
      }
      assert batch[..|batch|] == batch;
    }

    /** Writes the batch and clears it. */
    method WriteBatch(others: Turns) returns (rest: Turns)
      requires Valid() && consumer.Writing? && consumer.next == 0 && NoneOf(TheConsumer, others)
      modifies this, logFiles, currentDay
      ensures Valid() && Left(others, rest)
      ensures |rest| == |others| ==> queueEvent == old(queueEvent)
      ensures consumer == AfterProcessQueue(old(consumer.final)) && readBuffer == []
      ensures log.written == old(log.written) + old(readBuffer) && old(log.pushed) <= log.pushed
    {
      rest := WriteEntries(others);
      ghost var before, t := rest, View();
      rest := EndBatch(rest);
      ConsumerTriedThen(old(View()), others, before, t, rest, View());
    }

    /**
     Writes everything that is in the write buffer when the lock is obtained, and reports whether there was
     anything.
     */
    method ProcessQueue(others: Turns) returns (result: bool, blocked: bool, rest: Turns)
      requires Valid() && consumer.AtLock? && NoneOf(TheConsumer, others)
      modifies this, logFiles, currentDay
      ensures Valid() && Left(others, rest)
      ensures |rest| == |others| ==> queueEvent == old(queueEvent)
      ensures old(log.pushed) <= log.pushed
      ensures blocked ==> rest == [] && consumer == old(consumer) && lock != Free && log.written == old(log.written)
      ensures !blocked ==> consumer == AfterProcessQueue(old(consumer.final))
      ensures !blocked ==> old(log.pushed) <= log.written && log.written + writeBuffer == log.pushed
      ensures !blocked ==> (result <==> log.written != old(log.written))
    {
      result := false;
      blocked, rest := AwaitLock(others);
      if blocked {
        return;
      }
      ghost var before, t := rest, View();
      result, rest := TakeBatch(rest);
      ConsumerTriedThen(old(View()), others, before, t, rest, View());
      if result {
        before, t := rest, View();
        rest := WriteBatch(rest);
        ConsumerTriedThen(old(View()), others, before, t, rest, View());
      }
      NothingUnread(View());
    }

    /**
     Waits until the event is signalled and resets it; blocked for good if it is not signalled after everything the
     other threads had to do.
     */
    method AwaitEvent(others: Turns) returns (blocked: bool, rest: Turns)
      requires Valid() && consumer == AtWait && NoneOf(TheConsumer, others)
      modifies this, logFiles, currentDay
      ensures Valid() && Left(others, rest) && old(log.pushed) <= log.pushed && !queueEvent
      ensures blocked ==> consumer == AtWait && rest == []
      ensures !blocked ==> consumer == AtLock(false) && 2 * |rest| < 2 * |others| + Count(old(queueEvent))
    {
      rest := ConsumerOvertaken(others);
      while !queueEvent && rest != []
        invariant Valid() && Left(others, rest) && consumer == AtWait && old(log.pushed) <= log.pushed
        invariant 2 * |rest| + Count(queueEvent) <= 2 * |others| + Count(old(queueEvent))
        decreases |rest|
      {
        ghost var before, t := rest, View();
        rest := ConsumerOvertaken(rest);
        ConsumerTriedThen(old(View()), others, before, t, rest, View());
      }
      blocked := !queueEvent;
      if !blocked {
        ConsumerOwnThen(old(View()), others, rest, View(), Action.Wait);
        Wait();
      }
    }

    /** The next test of the flag, at the end of a round. */
    method NextTest(others: Turns) returns (again: bool, rest: Turns)
      requires Valid() && consumer == AtTest && NoneOf(TheConsumer, others)
      modifies this, logFiles, currentDay
      ensures Valid() && Left(others, rest) && old(log.pushed) <= log.pushed
      ensures |rest| == |others| ==> queueEvent == old(queueEvent)
      ensures consumer == if again then AtWait else AtLock(true)
    {
      rest := ConsumerOvertaken(others);
      assert Step(View(), Action.Test).consumer == if running then AtWait else AtLock(true);
      ConsumerOwnThen(old(View()), others, rest, View(), Action.Test);
      again := Test();
    }

    /** One round of the loop: the wait, the call of ProcessQueue and the next test of the flag. */
    method Round(others: Turns) returns (blocked: bool, again: bool, rest: Turns)
      requires Valid() && consumer == AtWait && NoneOf(TheConsumer, others)
      modifies this, logFiles, currentDay
      ensures Valid() && Left(others, rest) && old(log.pushed) <= log.pushed
      ensures !blocked ==> consumer == if again then AtWait else AtLock(true)
      ensures !blocked ==> 2 * |rest| + Count(queueEvent) < 2 * |others| + Count(old(queueEvent))
      ensures blocked ==> rest == []
      ensures blocked ==> (consumer == AtWait && !queueEvent) || (consumer.AtLock? && lock != Free)
    {
      again := true;
      blocked, rest := AwaitEvent(others);
      if !blocked {
        ghost var before, t := rest, View();
        var result;
        result, blocked, rest := ProcessQueue(rest);
        ConsumerTriedThen(old(View()), others, before, t, rest, View());
        if !blocked {
          before, t := rest, View();
          again, rest := NextTest(rest);
          ConsumerTriedThen(old(View()), others, before, t, rest, View());
        }
      }
    }

    /**
     The consumer thread: waits for the event and processes the queue while the flag is set, then processes it
     once more. It returns only after everything pushed before the last call of ProcessQueue has been written, and
     does not return only if, after everything the other threads had to do, it still waits for a signal or the lock.
     */
    method FuncImplRun(others: Turns) returns (returned: bool, rest: Turns)
      requires Valid() && consumer == AtTest && NoneOf(TheConsumer, others)
      modifies this, logFiles, currentDay
      ensures Valid() && Left(others, rest) && old(log.pushed) <= log.pushed
      ensures returned ==> consumer == Finished && log.written + writeBuffer == log.pushed
      ensures returned ==> old(log.pushed) <= log.written && log.stopMark <= |log.written|
      ensures !returned ==> rest == []
      ensures !returned ==> (consumer == AtWait && !queueEvent) || (consumer.AtLock? && lock != Free)
    {
      var again, blocked := true, false;
      returned := false;
      again, rest := NextTest(others);
      while again && !blocked
        invariant Valid() && Left(others, rest) && old(log.pushed) <= log.pushed
        invariant !blocked ==> consumer == if again then AtWait else AtLock(true)
        invariant blocked ==> rest == []
        invariant blocked ==> (consumer == AtWait && !queueEvent) || (consumer.AtLock? && lock != Free)
        decreases !blocked, 2 * |rest| + Count(queueEvent)
      {
        ghost var before, t := rest, View();
        blocked, again, rest := Round(rest);
        ConsumerTriedThen(old(View()), others, before, t, rest, View());
      }
      if blocked {
        return;
      }
      ghost var before, t := rest, View();
      var result;
      result, blocked, rest := ProcessQueue(rest);
      ConsumerTriedThen(old(View()), others, before, t, rest, View());
      returned := !blocked;
      if returned {
        FinishedDrained(View());
      }
    }

    // ----- Start and Stop -----

    /** Start or Stop has tried exactly the steps `own`, and the other threads exactly the lists before `rest`. */
    twostate predicate Went(own: seq<Action>, others: Turns, rest: Turns)
      reads this
    {
      NoneOf(TheController, rest) && Tried(TheController, old(View()), own, others, rest, View())
    }

    /** Other threads run, if they want to, while Start or Stop stands still. */
    method ControllerOvertaken(others: Turns) returns (rest: Turns, ghost done: seq<Action>)
      requires Valid() && NoneOf(TheController, others)
      modifies this, logFiles, currentDay
      ensures Valid() && Went([], others, rest) && (others != [] ==> |rest| < |others|)
      ensures Exec(old(View()), done) == Some(View()) && forall a | a in done :: !IsControllerAction(a)
      ensures controller == old(controller) && handle == old(handle)
      ensures running == old(running) && baseRunning == old(baseRunning)
      ensures consumer == NoThread <==> old(consumer) == NoThread
      ensures old(log.pushed) <= log.pushed && old(log.written) <= log.written
    {
      rest, done := Overtaken(TheController, others);
      assert forall a | a in done :: !IsStepOf(TheController, a);
      OthersKeepController(old(View()), done, View());
      HistoryGrows(old(View()), done, View());
    }

    /** While no thread runs, the write buffer only grows, and a signal stays. */
    twostate predicate OnlyLogged()
      reads this
    {
      && consumer == NoThread && log.written == old(log.written)
      && old(writeBuffer) <= writeBuffer && (old(queueEvent) ==> queueEvent)
    }

    static function CreationSteps(created: bool): seq<Action> {
      if created then [Action.BeginThread(true), Action.StoreHandle, Action.StartReturn]
      else [Action.BeginThread(false)]
    }

    /** The thread may already run while CreateThread stores its handle. */
    method AfterBegin(others: Turns) returns (rest: Turns)
      requires Valid() && controller == StartBegun && consumer != NoThread && NoneOf(TheController, others)
      modifies this, logFiles, currentDay
      ensures Valid() && controller == StartStored && running == old(running) && handle && consumer != NoThread
      ensures old(log.pushed) <= log.pushed && old(log.written) <= log.written
      ensures Went([Action.StoreHandle], others, rest)
    {
      ghost var done;
      rest, done := ControllerOvertaken(others);
      TriedAndOwn(TheController, old(View()), [], others, rest, View(), Action.StoreHandle, [Action.StoreHandle]);
      StoreHandle();
    }

    /** And while it sets the base flag. */
    method AfterStore(others: Turns) returns (rest: Turns)
      requires Valid() && controller == StartStored && handle && consumer != NoThread && NoneOf(TheController, others)
      modifies this, logFiles, currentDay
      ensures Valid() && controller == Idle && running == old(running) && handle && baseRunning && consumer != NoThread
      ensures old(log.pushed) <= log.pushed && old(log.written) <= log.written
      ensures Went([Action.StartReturn], others, rest)
    {
      ghost var done;
      rest, done := ControllerOvertaken(others);
      TriedAndOwn(TheController, old(View()), [], others, rest, View(), Action.StartReturn, [Action.StartReturn]);
      StartReturn();
    }

    method FinishCreation(others: Turns) returns (rest: Turns)
      requires Valid() && controller == StartBegun && consumer != NoThread && NoneOf(TheController, others)
      modifies this, logFiles, currentDay
      ensures Valid() && controller == Idle && running == old(running) && handle && baseRunning && consumer != NoThread
      ensures old(log.pushed) <= log.pushed && old(log.written) <= log.written
      ensures Went([Action.StoreHandle, Action.StartReturn], others, rest)
    {
      rest := AfterBegin(others);
      ghost var before, t := rest, View();
      rest := AfterStore(rest);
      TriedThen(TheController, old(View()), [Action.StoreHandle], others, before, t, [Action.StartReturn], rest, View(),
                [Action.StoreHandle, Action.StartReturn]);
    }

    /** Creates the thread, or fails to; only a created thread gets a handle and the base flag. */
    method CreateThread(created: bool, others: Turns) returns (result: bool, rest: Turns)
      requires Valid() && controller == StartFlagged && consumer == NoThread && NoneOf(TheController, others)
      modifies this, logFiles, currentDay
      ensures Valid() && controller == Idle && running == old(running) && result == created
      ensures old(log.pushed) <= log.pushed && old(log.written) <= log.written
      ensures created ==> handle && baseRunning && consumer != NoThread
      ensures !created ==> handle == old(handle) && baseRunning == old(baseRunning) && OnlyLogged()
      ensures Went(CreationSteps(created), others, rest)
    {
      ghost var s := View();
      TriedOwn(TheController, s, Action.BeginThread(created), others);
      BeginThread(created);
      rest := others;
      if created {
        ghost var t := View();
        rest := FinishCreation(others);
        TriedThen(TheController, s, [Action.BeginThread(true)], others, others, t,
                  [Action.StoreHandle, Action.StartReturn], rest, View(), CreationSteps(true));
      }
      return created, rest;
    }

    /** The part of Start after the flag is set. */
    method CreateLater(created: bool, others: Turns, ghost s: State) returns (rest: Turns)
      requires Valid() && controller == StartFlagged && consumer == NoThread && NoneOf(TheController, others)
      requires Tried(TheController, s, [Action.StartFlag], others, others, View())
      modifies this, logFiles, currentDay
      ensures Valid() && controller == Idle && running == old(running)
      ensures old(log.pushed) <= log.pushed && old(log.written) <= log.written
      ensures created ==> handle && baseRunning && consumer != NoThread
      ensures !created ==> handle == old(handle) && baseRunning == old(baseRunning) && OnlyLogged()
      ensures NoneOf(TheController, rest)
      ensures Tried(TheController, s, [Action.StartFlag] + CreationSteps(created), others, rest, View())
    {
      ghost var first, done := View(), [];
      rest, done := ControllerOvertaken(others);
      OthersWithoutThread(first, done, View());
      TriedIdle(TheController, s, [Action.StartFlag], others, others, first, rest, View());
      ghost var before, t := rest, View();
      var result;
      result, rest := CreateThread(created, rest);
      TriedThen(TheController, s, [Action.StartFlag], others, before, t, CreationSteps(created), rest, View(),
                [Action.StartFlag] + CreationSteps(created));
    }

    /**
     Whatever the other threads do meanwhile: Start leaves the flag set and a thread that has not ended, or, when no
     thread could be created, every entry and signal of before in place.
     */
    method Start(created: bool, others: Turns) returns (rest: Turns)
      requires Valid() && controller == Idle && !handle && NoneOf(TheController, others)
      modifies this, logFiles, currentDay
      ensures Valid() && controller == Idle && running && handle == baseRunning == created
      ensures old(log.pushed) <= log.pushed && old(log.written) <= log.written
      ensures created ==> consumer != NoThread && !IsFinal(consumer)
      ensures !created ==> OnlyLogged()
      ensures Went([Action.StartFlag] + CreationSteps(created), others, rest)
    {
      IdleWithoutHandle(View());
      ghost var s := View();
      TriedOwn(TheController, s, Action.StartFlag, others);
      StartFlag();
      rest := CreateLater(created, others, s);
      FlagsAtRest(View());
      StartedThread(View());
    }

    /** Other threads run, if they want to, during a Stop that began in `s`. */
    method StopOvertaken(others: Turns, ghost s: State) returns (rest: Turns)
      requires Valid() && StopInProgress(s, View()) && NoneOf(TheController, others)
      modifies this, logFiles, currentDay
      ensures Valid() && Went([], others, rest) && (others != [] ==> |rest| < |others|)
      ensures controller == old(controller) && handle == old(handle)
      ensures StopInProgress(s, View())
    {
      ghost var u := View();
      ghost var done;
      rest, done := ControllerOvertaken(others);
      OthersKeepStop(s, u, done, View());
    }

    /** Waits for the thread; held up for good if it has not finished after everything the other threads had to do. */
    method AwaitThread(others: Turns, ghost s: State) returns (finished: bool, rest: Turns)
      requires Valid() && controller == StopWaiting && StopInProgress(s, View()) && NoneOf(TheController, others)
      modifies this, logFiles, currentDay
      ensures Valid() && StopInProgress(s, View()) && Went([], others, rest) && controller == StopWaiting
      ensures if finished then handle ==> consumer == Finished else handle && consumer != Finished && rest == []
    {
      rest := StopOvertaken(others, s);
      while handle && consumer != Finished && rest != []
        invariant Valid() && controller == StopWaiting && StopInProgress(s, View()) && Went([], others, rest)
        decreases |rest|
      {
        ghost var before, t := rest, View();
        rest := StopOvertaken(rest, s);
        TriedIdle(TheController, old(View()), [], others, before, t, rest, View());
      }
      finished := !(handle && consumer != Finished);
    }

    /** Clears the base flag and waits for the thread. */
    method BaseAndWait(others: Turns, ghost s: State) returns (finished: bool, rest: Turns)
      requires Valid() && controller == StopSignalled && StopInProgress(s, View()) && NoneOf(TheController, others)
      modifies this, logFiles, currentDay
      ensures Valid() && StopInProgress(s, View()) && Went([Action.StopBase], others, rest) && controller == StopWaiting
      ensures if finished then handle ==> consumer == Finished else handle && consumer != Finished && rest == []
    {
      StopKeeps(s, View(), Action.StopBase);
      TriedOwn(TheController, View(), Action.StopBase, others);
      StopBase();
      ghost var t := View();
      finished, rest := AwaitThread(others, s);
      TriedIdle(TheController, old(View()), [Action.StopBase], others, others, t, rest, View());
    }

    /** Joins a thread that has finished, or passes over the NULL handle. */
    method JoinThread(others: Turns, ghost s: State) returns (rest: Turns)
      requires Valid() && controller == StopWaiting && StopInProgress(s, View()) && NoneOf(TheController, others)
      requires handle ==> consumer == Finished
      modifies this, logFiles, currentDay
      ensures Valid() && StopInProgress(s, View()) && controller == StopJoined && Went([Action.Join], others, rest)
    {
      StopKeeps(s, View(), Action.Join);
      TriedOwn(TheController, View(), Action.Join, others);
      Join();
      ghost var t := View();
      rest := StopOvertaken(others, s);
      TriedIdle(TheController, old(View()), [Action.Join], others, others, t, rest, View());
    }

    method JoinAndClose(others: Turns, ghost s: State) returns (rest: Turns)
      requires Valid() && controller == StopWaiting && StopInProgress(s, View()) && NoneOf(TheController, others)
      requires handle ==> consumer == Finished
      modifies this, logFiles, currentDay
      ensures Valid() && StopInProgress(s, View()) && controller == Idle
      ensures Went([Action.Join, Action.CloseHandle], others, rest)
    {
      rest := JoinThread(others, s);
      StopKeeps(s, View(), Action.CloseHandle);
      TriedAndOwn(TheController, old(View()), [Action.Join], others, rest, View(), Action.CloseHandle,
                  [Action.Join, Action.CloseHandle]);
      CloseHandle();
    }

    static function DestroySteps(returned: bool): seq<Action> {
      if returned then [Action.StopBase, Action.Join, Action.CloseHandle] else [Action.StopBase]
    }

    /**
     Clears the base flag, waits for the thread if there is one, and closes the handle; does not return only if the
     thread has not finished after everything the other threads had to do.
     */
    method DestroyThread(others: Turns, ghost s: State) returns (returned: bool, rest: Turns)
      requires Valid() && controller == StopSignalled && StopInProgress(s, View()) && NoneOf(TheController, others)
      modifies this, logFiles, currentDay
      ensures Valid() && StopInProgress(s, View())
      ensures returned ==> controller == Idle
      ensures !returned ==> controller == StopWaiting && handle && consumer != Finished && rest == []
      ensures Went(DestroySteps(returned), others, rest)
    {
      returned, rest := BaseAndWait(others, s);
      if returned {
        ghost var before, u := rest, View();
        rest := JoinAndClose(rest, s);
        TriedThen(TheController, old(View()), [Action.StopBase], others, before, u,
                  [Action.Join, Action.CloseHandle], rest, View(), DestroySteps(true));
      }
    }

    /** Stop begins: the flag is cleared. */
    method ClearFlag(others: Turns) returns (rest: Turns)
      requires Valid() && controller == Idle && NoneOf(TheController, others)
      modifies this, logFiles, currentDay
      ensures Valid() && controller == StopFlagged && StopInProgress(old(View()), View())
      ensures Went([Action.StopFlag], others, rest)
    {
      ghost var s := View();
      StopBegins(s);
      TriedOwn(TheController, s, Action.StopFlag, others);
      StopFlag();
      ghost var t := View();
      rest := StopOvertaken(others, s);
      TriedIdle(TheController, s, [Action.StopFlag], others, others, t, rest, View());
    }

    /** Only then the event is signalled. */
    method ClearAndSignal(others: Turns) returns (rest: Turns)
      requires Valid() && controller == Idle && NoneOf(TheController, others)
      modifies this, logFiles, currentDay
      ensures Valid() && controller == StopSignalled && StopInProgress(old(View()), View())
      ensures Went([Action.StopFlag, Action.StopSignal], others, rest)
    {
      rest := ClearFlag(others);
      StopKeeps(old(View()), View(), Action.StopSignal);
      TriedAndOwn(TheController, old(View()), [Action.StopFlag], others, rest, View(), Action.StopSignal,
                  [Action.StopFlag, Action.StopSignal]);
      StopSignal();
    }

    /**
     Whatever the other threads do meanwhile: when Stop returns there is no consumer thread any more, and if there
     was one, everything that had been pushed when Stop was called has been written. Stop does not return only if it
     has signalled the event and the consumer has not finished after everything the other threads had to do.
     */
    method Stop(others: Turns) returns (returned: bool, rest: Turns)
      requires Valid() && controller == Idle && NoneOf(TheController, others)
      modifies this, logFiles, currentDay
      ensures Valid()
      ensures returned ==> controller == Idle && consumer == NoThread && !handle && !running
      ensures returned ==> log.written + writeBuffer == log.pushed
      ensures returned ==> if old(handle) then old(log.pushed) <= log.written else log.written == old(log.written)
      ensures !returned ==> controller == StopWaiting && handle && consumer != Finished && rest == []
      ensures Went([Action.StopFlag, Action.StopSignal] + DestroySteps(returned), others, rest)
    {
      ghost var s := View();
      rest := ClearAndSignal(others);
      ghost var before, t := rest, View();
      rest := StopOvertaken(rest, s);
      TriedIdle(TheController, s, [Action.StopFlag, Action.StopSignal], others, before, t, rest, View());
      before, t := rest, View();
      returned, rest := DestroyThread(rest, s);
      TriedThen(TheController, s, [Action.StopFlag, Action.StopSignal], others, before, t, DestroySteps(returned), rest,
                View(), [Action.StopFlag, Action.StopSignal] + DestroySteps(returned));
      if returned {
        StopOver(s, View());
      }
    }

    // ----- EnqueueLog -----

    /** The call `p` has tried exactly the steps `own`, and the other threads exactly the lists before `rest`. */
    twostate predicate Called(p: Caller, own: seq<Action>, others: Turns, rest: Turns)
      reads this
    {
      NoneOf(TheCall(p), rest) && Tried(TheCall(p), old(View()), own, others, rest, View())
    }

    /** Other threads run, if they want to, while this call of EnqueueLog stands still. */
    method CallOvertaken(p: Caller, others: Turns) returns (rest: Turns)
      requires Valid() && NoneOf(TheCall(p), others)
      modifies this, logFiles, currentDay
      ensures Valid() && Called(p, [], others, rest) && (others != [] ==> |rest| < |others|)
      ensures Phase(View(), p) == old(Phase(View(), p)) && NonePushedBy(p, old(log), log)
    {
      ghost var s, done := View(), [];
      rest, done := Overtaken(TheCall(p), others);
      assert forall a | a in done :: !IsStepOf(TheCall(p), a);
      OthersKeepCall(s, done, View(), p);
    }

    /** Enters the critical section and pushes the entry behind everything pushed before. */
    method EnterAndPush(p: Caller, others: Turns) returns (rest: Turns)
      requires Valid() && Phase(View(), p).Prepared? && lock == Free && NoneOf(TheCall(p), others)
      modifies this, logFiles, currentDay
      ensures Valid() && Called(p, [Action.Acquire(p), Action.Push(p)], others, rest)
      ensures Phase(View(), p) == Pushed
      ensures PushedOnceBy(p, old(Phase(View(), p).entry), old(log), log)
    {
      ghost var s, e := View(), Phase(View(), p).entry;
      TriedOwn(TheCall(p), s, Action.Acquire(p), others);
      Acquire(p);
      ghost var t := View();
      rest := CallOvertaken(p, others);
      TriedIdle(TheCall(p), s, [Action.Acquire(p)], others, others, t, rest, View());
      ghost var before := log;
      PusherOfEach(View());
      TriedAndOwn(TheCall(p), s, [Action.Acquire(p)], others, rest, View(), Action.Push(p),
                  [Action.Acquire(p), Action.Push(p)]);
      Push(p);
      PushIsOnce(p, e, before, log);
      PusherOfEach(View());
      OnceInWider(p, e, old(log), before, log, log);
    }

    /** Leaves the critical section and signals the event. */
    method LeaveAndSignal(p: Caller, others: Turns) returns (rest: Turns)
      requires Valid() && Phase(View(), p) == Pushed && NoneOf(TheCall(p), others)
      modifies this, logFiles, currentDay
      ensures Valid() && Called(p, [Action.Release(p), Action.Signal(p)], others, rest)
      ensures Phase(View(), p) == Outside && queueEvent && NonePushedBy(p, old(log), log)
    {
      ghost var s := View();
      rest := CallOvertaken(p, others);
      TriedAndOwn(TheCall(p), s, [], others, rest, View(), Action.Release(p), [Action.Release(p)]);
      Release(p);
      ghost var between, before, t := log, rest, View();
      rest := CallOvertaken(p, rest);
      TriedIdle(TheCall(p), s, [Action.Release(p)], others, before, t, rest, View());
      TriedAndOwn(TheCall(p), s, [Action.Release(p)], others, rest, View(), Action.Signal(p),
                  [Action.Release(p), Action.Signal(p)]);
      Signal(p);
      NoneInWider(p, old(log), between, log);
    }

    /** Blocks on the lock; blocked for good if it is still held after everything the other threads had to do. */
    method CallAwaitLock(p: Caller, others: Turns) returns (rest: Turns)
      requires Valid() && NoneOf(TheCall(p), others)
      modifies this, logFiles, currentDay
      ensures Valid() && Called(p, [], others, rest)
      ensures Phase(View(), p) == old(Phase(View(), p)) && NonePushedBy(p, old(log), log)
      ensures lock != Free ==> rest == []
    {
      rest := CallOvertaken(p, others);
      while lock != Free && rest != []
        invariant Valid() && Called(p, [], others, rest)
        invariant Phase(View(), p) == old(Phase(View(), p)) && NonePushedBy(p, old(log), log)
        decreases |rest|
      {
        ghost var between, before, t := log, rest, View();
        rest := CallOvertaken(p, rest);
        TriedIdle(TheCall(p), old(View()), [], others, before, t, rest, View());
        NoneInWider(p, old(log), between, log);
      }
    }

    /** What a call that has formatted its message still does: all of it, or nothing while it waits for the lock. */
    static function AppendSteps(p: Caller, done: bool): seq<Action> {
      if done then [Action.Acquire(p), Action.Push(p), Action.Release(p), Action.Signal(p)] else []
    }

    /** What a call does once the lock is free: the critical section, then the signal. */
    method Append(p: Caller, others: Turns) returns (rest: Turns)
      requires Valid() && Phase(View(), p).Prepared? && lock == Free && NoneOf(TheCall(p), others)
      modifies this, logFiles, currentDay
      ensures Valid() && Phase(View(), p) == Outside && queueEvent
      ensures Called(p, AppendSteps(p, true), others, rest)
      ensures PushedOnceBy(p, old(Phase(View(), p).entry), old(log), log)
    {
      ghost var s, e := View(), Phase(View(), p).entry;
      rest := EnterAndPush(p, others);
      ghost var after, before, t := log, rest, View();
      rest := LeaveAndSignal(p, rest);
      TriedThen(TheCall(p), s, [Action.Acquire(p), Action.Push(p)], others, before, t,
                [Action.Release(p), Action.Signal(p)], rest, View(), AppendSteps(p, true));
      PusherOfEach(View());
      OnceInWider(p, e, old(log), old(log), after, log);
    }

    /** Waits for the lock and appends the entry. */
    method AppendWhenFree(p: Caller, others: Turns) returns (returned: bool, rest: Turns)
      requires Valid() && Phase(View(), p).Prepared? && NoneOf(TheCall(p), others)
      modifies this, logFiles, currentDay
      ensures Valid() && Called(p, AppendSteps(p, returned), others, rest)
      ensures returned ==> Phase(View(), p) == Outside && queueEvent
      ensures returned ==> PushedOnceBy(p, old(Phase(View(), p).entry), old(log), log)
      ensures !returned ==> lock != Free && Phase(View(), p) == old(Phase(View(), p))
      ensures !returned ==> NonePushedBy(p, old(log), log) && rest == []
      ensures !returned ==> View() == TakeAll(old(View()), Flatten(others))
    {
      ghost var s, e := View(), Phase(View(), p).entry;
      rest := CallAwaitLock(p, others);
      returned := lock == Free;
      if returned {
        ghost var between, before, t := log, rest, View();
        rest := Append(p, rest);
        TriedThen(TheCall(p), s, [], others, before, t, AppendSteps(p, true), rest, View(), AppendSteps(p, true));
        OnceInWider(p, e, old(log), between, log, log);
      } else {
        OnlyOthersTried(TheCall(p), s, others, View());
      }
    }

    /**
     A call that returns has pushed exactly one entry, its message cut to what the buffer holds, behind everything
     pushed before the call, and has signalled the event. An encoding error adds nothing. A call does not return
     only if the lock is held after everything the other threads had to do.
     */
    method EnqueueLog(p: Caller, level: LogLevel, result: FormatResult, time: SystemTime, others: Turns)
      returns (returned: bool, rest: Turns)
      requires Valid() && Phase(View(), p) == Outside && NoneOf(TheCall(p), others)
      modifies this, logFiles, currentDay
      ensures Valid()
      ensures returned ==> Phase(View(), p) == Outside
      ensures result.FormatError? ==> returned && View() == old(View()) && rest == others
      ensures returned && result.Formatted? ==>
                queueEvent && PushedOnceBy(p, LogEntry(level, Stored(result.text), time), old(log), log)
      ensures result.Formatted? ==>
                Called(p, [Action.Prepare(p, level, result, time)] + AppendSteps(p, returned), others, rest)
      ensures !returned ==> lock != Free && Phase(View(), p) == Prepared(LogEntry(level, Stored(result.text), time))
      ensures !returned ==> NonePushedBy(p, old(log), log) && rest == []
      ensures !returned ==>
                View() == TakeAll(TakeOne(old(View()), Action.Prepare(p, level, result, time)), Flatten(others))
    {
      ghost var s, call := View(), Action.Prepare(p, level, result, time);
      TriedOwn(TheCall(p), s, call, others);
      Prepare(p, level, result, time);
      if result.FormatError? {
        return true, others;
      }
      ghost var t := View();
      returned, rest := AppendWhenFree(p, others);
      TriedThen(TheCall(p), s, [call], others, others, t, AppendSteps(p, returned), rest, View(),
                [call] + AppendSteps(p, returned));
    }
  }
}
