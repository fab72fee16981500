/** The two buffers behave like one queue: the protocol refines a plain first-in first-out queue. */
module Fifo {
  import opened LogTypes
  import opened Protocol
  import opened Invariant

  datatype Queue = Queue(waiting: seq<LogEntry>, accepted: seq<LogEntry>, delivered: seq<LogEntry>)

  datatype Op = Put(entry: LogEntry) | Take

  predicate CanApply(q: Queue, op: Op) {
    op.Take? ==> q.waiting != []
  }

  function Apply(q: Queue, op: Op): Queue
    requires CanApply(q, op)
  {
    match op
    case Put(e) => Queue(q.waiting + [e], q.accepted + [e], q.delivered)
    case Take => Queue(q.waiting[1..], q.accepted, q.delivered + [q.waiting[0]])
  }

  /** The queue after a list of operations, if none of them takes from an empty queue. */
  function ApplyAll(q: Queue, ops: seq<Op>): Option<Queue> {
    if ops == [] then Some(q)
    else
      var n := |ops| - 1;
      match ApplyAll(q, ops[..n])
      case None => None
      case Some(r) => if CanApply(r, ops[n]) then Some(Apply(r, ops[n])) else None
  }

  /** The queue a state stands for. */
  function Abstract(s: State): Queue {
    Queue(Unread(s) + s.writeBuffer, s.log.pushed, s.log.written)
  }

  /** Only a push and a write are visible. */
  function Visible(s: State, a: Action): seq<Op>
    requires Enabled(s, a)
  {
    match a
    case Push(p) => [Put(Phase(s, p).entry)]
    case WriteOne(_) => [Take]
    case _ => []
  }

  function VisibleAll(s: State, acts: seq<Action>): seq<Op>
    requires Exec(s, acts).Some?
  {
    if acts == [] then []
    else
      var n := |acts| - 1;
      VisibleAll(s, acts[..n]) + Visible(Exec(s, acts[..n]).value, acts[n])
  }

  lemma PushRefines(s: State, p: Caller)
    requires Inv(s) && Enabled(s, Push(p))
    ensures Abstract(Step(s, Push(p))) == Apply(Abstract(s), Put(Phase(s, p).entry))
  {
  }

  lemma WriteRefines(s: State, opens: bool)
    requires Inv(s) && Enabled(s, WriteOne(opens))
    ensures CanApply(Abstract(s), Take) && Abstract(Step(s, WriteOne(opens))) == Apply(Abstract(s), Take)
  {
    UnreadWrite(s, opens);
    ConcatAssociative([s.readBuffer[s.consumer.next]], Unread(Step(s, WriteOne(opens))), s.writeBuffer);
  }

  /** All other steps, the swap of the buffers among them, leave the queue as it is. */
  lemma OthersRefine(s: State, a: Action)
    requires Inv(s) && Enabled(s, a) && !a.Push? && !a.WriteOne?
    ensures Abstract(Step(s, a)) == Abstract(s)
  {
    UnreadStep(s, a);
    if a.Swap? {
      assert Unread(s) + s.writeBuffer == s.writeBuffer;
    }
  }

  lemma ApplyAllThen(ops: seq<Op>, q: Queue, op: Op)
    requires ApplyAll(Queue([], [], []), ops) == Some(q) && CanApply(q, op)
    ensures ApplyAll(Queue([], [], []), ops + [op]) == Some(Apply(q, op))
  {
    assert (ops + [op])[..|ops|] == ops;
  }

  /** Every run of the logger is a run of the queue. */
  lemma {:induction false} RunRefines(acts: seq<Action>, s: State)
    requires Exec(Init(), acts) == Some(s)
    ensures ApplyAll(Queue([], [], []), VisibleAll(Init(), acts)) == Some(Abstract(s))
  {
    if acts == [] {
      assert Abstract(s) == Queue([], [], []);
    } else {
      var n := |acts| - 1;
      var t := Exec(Init(), acts[..n]).value;
      var a := acts[n];
      RunRefines(acts[..n], t);
      InvReachable(t);
      var ops := VisibleAll(Init(), acts[..n]);
      assert VisibleAll(Init(), acts) == ops + Visible(t, a);
      match a {
        case Push(p) =>
          PushRefines(t, p);
          ApplyAllThen(ops, Abstract(t), Put(Phase(t, p).entry));
        case WriteOne(b) =>
          WriteRefines(t, b);
          ApplyAllThen(ops, Abstract(t), Take);
        case _ =>
          OthersRefine(t, a);
          assert ops + [] == ops;
      }
    }
  }
}
