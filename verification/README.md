# A verified model of the logger

The server logs through one object. Any number of threads call `Info`, `Error` or `Warning`; each call formats
its message, stamps it with the local time and pushes it onto a buffer. One consumer thread swaps that buffer with
its own, writes the batch line by line to a file of the entry's level and to the console, and sleeps on an
auto-reset event when there is nothing to do. `Start` creates the thread; `Stop` clears a flag, signals the event
and joins.

The project states and proves what this amounts to, in three layers and their composition.

- **Protocol** (`Protocol.dfy`, `Invariant.dfy`, `Safety.dfy`, `Fifo.dfy`, `Shutdown.dfy`, `StopReturns.dfy`,
  `StopExact.dfy`, `Sessions.dfy`). A state machine whose steps are the single accesses to the lock, the write buffer, the event and the flags, for an
  unbounded number of callers, one consumer and one controller, over any number of sessions. A run is any list of
  steps each of which can be taken. The fields of `History` record what happened; no step reads them.
- **Router** (`Router.dfy`, `RouterSpec.dfy`, `DailyFiles.dfy`). The cached current days and open files, against a
  declarative rule over the whole history of written entries; times need not be in order, and every open may fail.
- **Text** (`Text.dfy`, `Format.dfy`, `LineParser.dfy`, `FileName.dfy`). Truncation, timestamps, lines, file names and
  the cut of the process path in place, each with its inverse.
- **Together** (`EndToEnd.dfy`, `Interference.dfy`, `Logger.dfy`). `EndToEnd` says what is on disk and on the console
  after `Stop`. `Logger` is the object itself: its atomic methods update the fields as the source does and are proved
  to be the steps of the protocol, and `EnqueueLog`, `ProcessQueue`, `FuncImplRun`, `Start`, `Stop` and
  `DestroyThread` are built from them, overtaken by arbitrary steps of the other threads. What the other threads try
  to do is given from outside; an operation that does not return has let all of it happen and is still blocked. The
  invariant of the object
  says that its threads are in a reachable state, so every theorem about reachable states is one about the object.
- `LogTypes.dfy` and `Runs.dfy` hold the shared types and the notion of a run.

In one point the code and its documentation disagree, and the model follows the code: `command.md` asks for a new
file when the date moves on, but the code compares only the day of the month (`Logger.cpp:157`), and it stores the
day also when the open fails (`Logger.cpp:191-193`). `DailyFiles.FiledExactly` gives the exact condition under which
every entry is filed under its own date; `DailyFiles.MonthLaterIsMisfiled` and `DailyFiles.FailedOpenLosesTheDay` are
inputs on which one is not.

Two more results draw a line the documentation does not draw.

- What `Stop` writes. Everything pushed before it was called is written (`Shutdown.StopDrains`). Whether it leaves
  nothing behind at all depends on the calls that are then on their way: with no new call it does so in every
  interleaving exactly when no call is between the formatting of its message and the lock
  (`StopExact.StopWritesAllExactly`); `StopExact.StopCanStrand` is an example where it does not, and
  `StopExact.NewCallCanBeLate` shows that a single new call can always be too late. `Shutdown.BetweenSessions` says
  which entries stay behind and `Sessions.NextSessionDrains` that they are not lost.
- When `Stop` returns. Under every scheduler, after a number of steps bounded by the work there was and the number of
  new calls (`StopReturns.StopReturns`). The lock is not fair, so new calls can hold it up for as long as they keep
  coming (`StopReturns.CallsCanHoldUp`).

`command.md` also asks for one entry at a time to be taken from the queue, while the code swaps whole buffers;
`Fifo.RunRefines` shows that no caller and no reader of the output can tell.

Assumptions: `CLock` gives mutual exclusion in a release build (`Lock.cpp:20-51`, used without recursion; the
assertion at `Lock.cpp:24` reads the owner before the lock is acquired, so a debug build stops there whenever the lock
is contended), flags are read and written
atomically, one thread calls `Start` and `Stop`, and the wait on a NULL thread handle returns at once. What the
caller's format string and arguments print to, however long, is a parameter, and so is the local time.

## Model

| member | source | states |
|---|---|---|
| Safety.MutualExclusion | myiocpserver/Logger.cpp:112-142 | in every reachable state at most one thread, caller or consumer, is inside a critical section |
| Safety.NoLostWakeup | myiocpserver/Logger.cpp:112-143 | a non-empty write buffer means that the event is signalled, a caller is between push and SetEvent, or the consumer has passed the wait and not yet swapped |
| Safety.BlockedMeansWritten | myiocpserver/Logger.cpp:122-151 | a consumer that sleeps while nobody is about to signal has written every entry ever pushed |
| Safety.ExactlyOnceInOrder | myiocpserver/Logger.cpp:112-151 | written entries, rest of the batch and write buffer together are the history of pushes; the read buffer is empty at every swap |
| Safety.StopWakesConsumer | myiocpserver/Logger.cpp:65-70 | a consumer waiting after the flag was cleared is signalled, or Stop is just before its SetEvent |
| Safety.NoBusyWaiting | myiocpserver/Logger.cpp:117-137 | in every run waits return at most once for each push and each Stop, and the write buffer is tested at most once more for each created thread |
| Safety.EverySignalCounts | myiocpserver/Logger.cpp:112-118 | in every run that ends with no caller between push and SetEvent, callers have signalled exactly as often as they pushed |
| Safety.FlagsAtRest | myiocpserver/Thread.cpp:16-25 | between operations the base-class flag says whether there is a thread, and implies the flag the loop reads |
| Safety.HistoryGrows | myiocpserver/Logger.cpp:114-147 | along every run the pushed and the written entries only get longer |
| Safety.EarlierFirst | myiocpserver/Logger.cpp:120-151 | whatever was pushed by some moment is written before anything pushed later, over any number of sessions |
| Invariant.WakeStep | myiocpserver/Logger.cpp:112-143 | every step of every thread keeps the wake-up part of the invariant |
| Invariant.QueueStep | myiocpserver/Logger.cpp:112-151 | every step keeps the conservation of entries across the two buffers |
| Invariant.MarkStep | myiocpserver/Logger.cpp:65-70 | every step keeps what the final test of the write buffer has seen: at least everything pushed before Stop |
| Invariant.LockStep | myiocpserver/Logger.cpp:112-142 | every step keeps: the lock belongs to exactly the thread inside one of the two critical sections, also on the early return |
| Invariant.ControlStep | myiocpserver/Thread.cpp:13-25 | every step keeps the relation between flags, handle, thread and the progress of Start and Stop |
| Invariant.StopWakeStep | myiocpserver/Logger.cpp:65-70 | no step lets the consumer wait unsignalled once Stop has signalled |
| Invariant.CountStep | myiocpserver/Logger.cpp:117-137 | every step keeps the account of a run: returned waits against signals, tests of the write buffer against waits and created threads |
| Invariant.SignalStep | myiocpserver/Logger.cpp:112-118 | every step keeps the account of a run: pushes = signals of callers + callers between push and SetEvent |
| Invariant.InvReachable | myiocpserver/Logger.cpp:59-151 | the whole invariant holds in every reachable state, for any number of callers and sessions |
| Fifo.PushRefines | myiocpserver/Logger.cpp:114 | push_back under the lock is one Put of a plain queue |
| Fifo.WriteRefines | myiocpserver/Logger.cpp:144-147 | one turn of the writing loop is one Take of the queue, and the queue is not empty |
| Fifo.OthersRefine | myiocpserver/Logger.cpp:120-151 | every other step, the swap and the clear included, leaves the queue as it is |
| Fifo.RunRefines | myiocpserver/Logger.cpp:112-151 | every run of the double-buffered protocol is a run of one first-in first-out queue |
| Shutdown.ConsumerRunsDown | myiocpserver/Logger.cpp:120-151 | once the flag is cleared each consumer step lowers a lexicographic measure and no other thread changes it |
| Shutdown.ShutdownBound | myiocpserver/Logger.cpp:120-151 | along every run after the flag is cleared the consumer takes at most eleven steps besides the entries it writes, and tests the buffer at most twice |
| StopReturns.StopNeverStuck | myiocpserver/Logger.cpp:65-70 | in every reachable state of a Stop the holder of the lock, Stop itself or the consumer can take a step |
| StopReturns.WorkStep | myiocpserver/Logger.cpp:65-151 | once the flag is cleared every step of every thread, except the begin of a new call, uses up a unit of the work that is left |
| StopReturns.StopReturns | myiocpserver/Logger.cpp:65-70 | under every scheduler: the steps of all threads from the call of Stop on are bounded by the work there was and the new calls, and when nobody but a new call, Start or Stop can take a step, this Stop has returned |
| StopReturns.CallsCanHoldUp | myiocpserver/Logger.cpp:112-118 | any number of calls can follow one another while Stop and the consumer take no step, so the bound cannot do without the number of new calls |
| StopReturns.StopCanComplete | myiocpserver/Logger.cpp:65-70 | from every state of a Stop the consumer, Stop and the holder of the lock alone can bring it to its end |
| Shutdown.BetweenSessions | myiocpserver/Logger.cpp:120-151 | without a thread, written and unwritten entries are the pushes before and after the last final test |
| Shutdown.StopDrains | myiocpserver/Logger.cpp:65-70 | when Stop returns the thread is gone and everything pushed before the flag was cleared is written; the rest is the write buffer |
| StopExact.StopWritesAllExactly | myiocpserver/Logger.cpp:65-142 | Stop, called while a thread runs, has written everything at its return in every interleaving without a new call, if and only if at the call nobody is between the formatting of a message and the lock |
| StopExact.StopCanStrand | myiocpserver/Logger.cpp:112-142 | an example: Stop is called with one call just before the lock, and there is a run of this Stop that returns with the entry, pushed on the way, in the write buffer |
| StopExact.NewCallCanBeLate | myiocpserver/Logger.cpp:65-118 | whatever the state at the call of Stop, a single new call can leave its entry in the write buffer when Stop returns |
| Sessions.StrandedKeepsSignal | myiocpserver/Logger.cpp:112-117 | entries without a session keep the event signalled once their callers have signalled |
| Sessions.LoopDrains | myiocpserver/Logger.cpp:122-151 | from every point of the running loop the consumer alone can write everything pushed so far |
| Sessions.NextSessionDrains | myiocpserver/Logger.cpp:59-63 | after the next Start the consumer can write everything left over without any new log call |
| RouterSpec.HeadExact | myiocpserver/Logger.cpp:157-160 | the entry found by comparing with the previous day of the level is the first entry of the maximal run of equal day, and no other entry is |
| RouterSpec.CachedStep | myiocpserver/Logger.cpp:153-194 | one WriteLog keeps the cached day and the open file of every level equal to what the history determines |
| RouterSpec.Routed | myiocpserver/Logger.cpp:153-194 | after any history, times in any order and any opens failing, each file has its old content, or none if it is new, and then the lines destined for it, the console every line, and the cached state follows the rule |
| RouterSpec.FilesCreated | myiocpserver/Logger.cpp:181-194 | the files that exist are the old ones and those of the runs whose open succeeded |
| DailyFiles.FiledExactly | myiocpserver/Logger.cpp:157-193 | with valid dates: every entry is in the file of its level and date if and only if no level jumps to another date with the same day and every run of equal day begins with a successful open |
| DailyFiles.MonthLaterIsMisfiled | myiocpserver/Logger.cpp:157 | 15 January followed by 15 February: the second entry goes to the January file |
| DailyFiles.FailedOpenLosesTheDay | myiocpserver/Logger.cpp:157-193 | after a failed open the next entry of the level and day reaches no file either, though an open would succeed |
| DailyFiles.LinesOfDate | myiocpserver/Logger.cpp:153-194 | the lines destined for a file are those of the entries of its level and date, in order |
| DailyFiles.FilesByDate | myiocpserver/Logger.cpp:153-194 | under that condition each file of a level and date grows by exactly the lines of that level and date in order, a new one from nothing, also when dates go back and a file is opened again |
| Format.Stored | myiocpserver/Logger.cpp:98-108 | a text of up to 4095 characters is stored whole, of a longer one the first 4095 characters |
| Format.TimestampLength | myiocpserver/Logger.cpp:196-202 | for any 16-bit fields the stored timestamp is the printed one cut to 31 characters; nothing is cut for two-digit fields, and it is 19 long up to the year 9999 |
| Format.TimestampRoundTrip | myiocpserver/Logger.cpp:196-202 | the printed timestamp reads back as the time |
| Format.TimestampOrder | myiocpserver/Logger.cpp:196-202 | up to the year 9999 lexicographic order of timestamps is chronological order |
| Format.LineFits | myiocpserver/Logger.cpp:162-178 | for every entry snprintf reports a positive length of at most 4138, below the buffer size, so no line is cut or overread |
| LineParser.LineRoundTrip | myiocpserver/Logger.cpp:14-20 | a line is one line and reads back as time, level and message, whatever bars and brackets the message holds |
| LineParser.FileRoundTrip | myiocpserver/Logger.cpp:162-177 | parsing the concatenated lines of any readable entries gives back exactly those entries |
| FileName.StemIsTheSplit | myiocpserver/Logger.cpp:210-223 | directory, stem and extension found by the two scans are the one split of the path at its last backslash and the last dot after it |
| FileName.CutStem | myiocpserver/Logger.cpp:208-223 | the scans and the stored NUL leave the stem as a C string in the buffer and change at most that one cell |
| FileName.FileNameFits | myiocpserver/Logger.cpp:225-228 | for every stem of a path below MAX_PATH and any 16-bit date the name fits its buffer uncut |
| FileName.FileNameRoundTrip | myiocpserver/Logger.cpp:204-229 | first and last underscore of a name give back level, stem and date |
| FileName.FileNameInjective | myiocpserver/Logger.cpp:204-229 | for valid dates two names are equal exactly when level, stem and date are |
| EndToEnd.ProducedStep | myiocpserver/Logger.cpp:144-147 | only the consumer's writing step produces output, one WriteLog at a time; no other step of any thread does |
| EndToEnd.OutputOfHistory | myiocpserver/Logger.cpp:120-194 | at any moment, for every interleaving, the output is the routing of a prefix of the pushes |
| EndToEnd.StopRouted | myiocpserver/Logger.cpp:65-194 | when Stop returns, for all times and all patterns of failing opens, console and files are the routing of the pushes before the final test, which include everything pushed before Stop cleared the flag; the other pushes are the write buffer |
| EndToEnd.StoppedOutput | myiocpserver/Logger.cpp:65-70 | if moreover the dates are valid, no level jumps to another date with the same day and every run begins with a successful open, these entries are on the console and in the files of their levels and dates, in order |
| EndToEnd.ReadBack | myiocpserver/Logger.cpp:162-177 | from an empty console the arrived entries can be read back, and from a file that was not there before those of its level and date; without such a file there are none |
| Interference.OthersKeepConsumer | myiocpserver/Logger.cpp:120-151 | no run of other threads moves a live consumer, its batch or what it has written |
| Interference.OthersKeepController | myiocpserver/Logger.cpp:59-70 | no run of other threads moves Start or Stop, changes the flags or the handle, or begins or joins the thread |
| Interference.OthersWithoutThread | myiocpserver/Logger.cpp:112-118 | while no thread runs other threads only add to the write buffer and never reset the event |
| Interference.OthersKeepCall | myiocpserver/Logger.cpp:96-118 | no run of other threads moves a call of EnqueueLog or pushes in its name |
| Interference.OthersKeepStop | myiocpserver/Logger.cpp:65-70 | no run of other threads undoes what a Stop has achieved |
| LoggerObject.Logger.constructor | myiocpserver/Logger.cpp:26-40 | the object starts in the initial state with no day seen and no file open |
| LoggerObject.Logger.OutputIsRouted | myiocpserver/Logger.cpp:153-194 | for the object: the console is what it was and the lines written, each file what it was, or nothing, and the lines destined for it, and the cached state follows the rule |
| LoggerObject.Logger.ProcessStem | myiocpserver/Logger.cpp:208-223 | the path fetched into the buffer and cut there yields its stem |
| LoggerObject.Logger.GetLogFileName | myiocpserver/Logger.cpp:204-229 | the name of level, process stem and date |
| LoggerObject.Logger.OpenLogFile | myiocpserver/Logger.cpp:181-194 | closes, opens to append and stores the day, also when the open fails |
| LoggerObject.Logger.WriteLog | myiocpserver/Logger.cpp:153-179 | rotates if the day differs and appends the whole line to the open file and the console |
| LoggerObject.Logger.Prepare | myiocpserver/Logger.cpp:98-110 | is the formatting step of the protocol; an encoding error leaves everything as it was |
| LoggerObject.Logger.Acquire | myiocpserver/Logger.cpp:112 | a caller enters the critical section when nobody is in one; keeps the threads reachable and the output as it is |
| LoggerObject.Logger.Push | myiocpserver/Logger.cpp:114 | is the push step of the protocol |
| LoggerObject.Logger.Release | myiocpserver/Logger.cpp:115 | a caller leaves the critical section, before the signal; keeps the threads reachable and the output as it is |
| LoggerObject.Logger.Signal | myiocpserver/Logger.cpp:117 | is the signalling step, taken after the lock is released |
| LoggerObject.Logger.EnqueueLog | myiocpserver/Logger.cpp:96-118 | a call that returns has taken its five steps in order, whatever other threads did, and pushed exactly one entry, its message cut to the buffer, behind everything pushed before; it does not return only if the lock is held after everything the others had to do; an encoding error changes nothing |
| LoggerObject.Logger.StartFlag | myiocpserver/Logger.cpp:61 | sets the flag before there is a thread; keeps the threads reachable and the output as it is |
| LoggerObject.Logger.BeginThread | myiocpserver/Thread.h:26-38 | the consumer begins at the loop test before its handle is stored, or, if creation fails, Start returns with the flag set and no thread |
| LoggerObject.Logger.StoreHandle | myiocpserver/Thread.h:27 | the handle is stored when the thread may already run; keeps the threads reachable and the output as it is |
| LoggerObject.Logger.CreateThread | myiocpserver/Thread.h:20-42 | takes its steps in order and returns whether there is a thread; only then handle and base flag are set, and otherwise the entries, the signal and the flags of before are in place, whatever other threads did |
| LoggerObject.Logger.StartReturn | myiocpserver/Thread.h:40 | sets the base flag only after the thread may already run; keeps the threads reachable and the output as it is |
| LoggerObject.Logger.StopFlag | myiocpserver/Logger.cpp:67 | clears the flag before the signal; keeps the threads reachable and the output as it is |
| LoggerObject.Logger.StopSignal | myiocpserver/Logger.cpp:68 | signals whether or not the event is already set; keeps the threads reachable and the output as it is |
| LoggerObject.Logger.StopBase | myiocpserver/Thread.cpp:20 | clears the base flag before the join; keeps the threads reachable and the output as it is |
| LoggerObject.Logger.Join | myiocpserver/Thread.cpp:22 | needs a finished consumer or a NULL handle; keeps the threads reachable and the output as it is |
| LoggerObject.Logger.CloseHandle | myiocpserver/Thread.cpp:23-24 | ends the Stop without a handle; keeps the threads reachable and the output as it is |
| LoggerObject.Logger.Test | myiocpserver/Logger.cpp:122 | decides between another wait and the final drain by the loop's own flag; keeps the threads reachable and the output as it is |
| LoggerObject.Logger.Wait | myiocpserver/Logger.cpp:124 | is the wait step: it needs the event and resets it |
| LoggerObject.Logger.ConsumerAcquire | myiocpserver/Logger.cpp:135 | the consumer's acquisition of the lock, in the loop and after it; keeps the threads reachable and the output as it is |
| LoggerObject.Logger.Swap | myiocpserver/Logger.cpp:135-142 | the critical section as a step; reports whether there was anything; keeps the threads reachable and the output as it is |
| LoggerObject.Logger.SwapBuffers | myiocpserver/Logger.cpp:135-142 | is the test-and-swap step of the critical section |
| LoggerObject.Logger.ConsumerRelease | myiocpserver/Logger.cpp:135-142 | releases the lock on both ways out, the early return included; keeps the threads reachable and the output as it is |
| LoggerObject.Logger.WriteOne | myiocpserver/Logger.cpp:144-147 | is the writing step and outputs exactly the entry's line |
| LoggerObject.Logger.Clear | myiocpserver/Logger.cpp:149 | empties the batch only when all of it is written; keeps the threads reachable and the output as it is |
| LoggerObject.Logger.WriteBatch | myiocpserver/Logger.cpp:144-149 | writes exactly the read buffer, in order, and clears it, while other threads run |
| LoggerObject.Logger.TakeBatch | myiocpserver/Logger.cpp:135-142 | the critical section, overtaken inside by other threads: everything pushed before is written or in the batch that was taken |
| LoggerObject.Logger.AwaitLock | myiocpserver/Logger.cpp:135 | gets the free lock, or is blocked by one that is held after everything the others had to do |
| LoggerObject.Logger.ProcessQueue | myiocpserver/Logger.cpp:133-151 | unless blocked on the lock, everything pushed before the call is written, and the result says whether there was anything |
| LoggerObject.Logger.AwaitEvent | myiocpserver/Logger.cpp:124 | returns with the event reset, or is blocked by one that is not signalled after everything the others had to do |
| LoggerObject.Logger.FuncImplRun | myiocpserver/Logger.cpp:120-131 | returns only with everything pushed before Stop and before its last ProcessQueue written; does not return only if, after everything the others had to do, the event is not signalled or the lock is held |
| LoggerObject.Logger.Start | myiocpserver/Logger.cpp:59-63 | overtaken by any other threads: leaves the flag set and a thread that has not ended, or, if none could be created, all entries and signals of before |
| LoggerObject.Logger.Stop | myiocpserver/Logger.cpp:65-70 | takes its steps in order; when it returns there is no thread, and if there was one, everything pushed at the call is written; it does not return only if it has signalled and the consumer has not finished after everything the others had to do |
| LoggerObject.Logger.DestroyThread | myiocpserver/Thread.cpp:13-25 | waits for the thread if there is one, joins it and closes the handle; does not return only if the thread has not finished after everything the others had to do |

## Left out

- Destructor: after `Stop` the handle is NULL, so the debug assertion of the base destructor does not hold there; closing the event and the files is not modelled.
- Debug assertions: those of `CThread::CreateThread` become the condition under which Start is called; the owner of a `CLock` only feeds its assertions and its recursion counter never leaves zero, so neither is part of the model.
- Calling Start while a consumer thread exists, or Start and Stop from several threads.
- The level name "Unknown" for an index past the table, which no caller can pass.
- Real file and console I/O: writes after a successful open always succeed, and flushing is not modelled.
- printf conversions of the caller's format string, `va_list`, and running out of memory in push_back.
- Day of week and milliseconds of a SYSTEMTIME, which the logger does not use.
- A module path of MAX_PATH or more characters, which the operating system cuts.
- The singleton, the I/O completion server, object pools, crash dumps and call stacks.
