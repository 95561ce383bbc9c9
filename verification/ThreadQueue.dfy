/** Thread control blocks and the intrusive queues of a9/uthread.c: a queue is a head and a
    tail pointer, and its elements are linked by the one `next` field that every thread
    control block has. */
module ThreadQueue {

  /** TS_NASCENT to TS_DEAD. */
  datatype ThreadState = Nascent | Running | Runable | Blocked | Dying | Dead

  /** The joiner field: 0, -1 or a thread. */
  datatype Joiner = Nobody | Detached | By(t: Tcb)

  /** Where a thread goes on when it is resumed, which stands for its saved stack: in its client
      code, in uthread_join of another thread, or in the loop of uthread_monitor_enter. */
  datatype Cont = ToClient | InJoin(target: Tcb) | InEnter(m: Monitor)

  /** The base thread, the thread of pthread_base, and those of uthread_create. */
  datatype Kind = Base | Idle | Created

  /** What start_proc has returned. */
  datatype Outcome = NotExited | Exited(v: int)

  class Tcb {
    var next: Tcb?
    var state: ThreadState
    var returnVal: int
    var joinLock: bool
    var joiner: Joiner
    var cont: Cont
    var joined: int               // what its last uthread_join has returned

    ghost const kind: Kind
    ghost var inside: set<Monitor>  // monitors that its client code has entered and not exited
    ghost var claimed: bool         // a join or a detach has been called on this handle
    ghost var starts: nat           // calls of start_proc
    ghost var outcome: Outcome
    ghost var frees: nat            // calls of uthread_free

    /** uthread_alloc, as uthread_new_thread calls it. */
    constructor (ghost kind: Kind)
      ensures next == null && state == Nascent && returnVal == 0 && !joinLock && joiner == Nobody
      ensures cont == ToClient && joined == 0 && this.kind == kind
      ensures inside == {} && !claimed && starts == 0 && outcome == NotExited && frees == 0
    {
      next, state, returnVal, joinLock, joiner := null, Nascent, 0, false, Nobody;
      cont, joined := ToClient, 0;
      this.kind := kind;
      inside, claimed, starts, outcome, frees := {}, false, 0, NotExited, 0;
    }
  }

  /** The elements of a well-formed queue are linked in order, and none occurs twice. */
  ghost predicate Linked(q: seq<Tcb>)
    reads q`next
  {
    && (forall i, j | 0 <= i < j < |q| :: q[i] != q[j])
    && (forall i | 0 <= i < |q| - 1 :: q[i].next == q[i + 1])
    && (q != [] ==> q[|q| - 1].next == null)
  }

  class Queue {
    var head: Tcb?
    var tail: Tcb?
    ghost var contents: seq<Tcb>

    ghost predicate Valid()
      reads this, contents`next
    {
      && Linked(contents)
      && (contents == [] ==> head == null && tail == null)
      && (contents != [] ==> head == contents[0] && tail == contents[|contents| - 1])
    }

    /** initqueue */
    constructor ()
      ensures Valid() && contents == []
    {
      head, tail, contents := null, null, [];
    }

    method Enqueue(thread: Tcb)
      requires Valid() && thread !in contents
      modifies this, thread`next, contents`next
      ensures Valid() && contents == old(contents) + [thread]
      ensures forall t | t in old(contents) && t != old(tail) :: t.next == old(t.next)
    {
      thread.next := null;
      if tail != null {
        tail.next := thread;
      }
      tail := thread;
      if head == null {
        head := tail;
      }
      contents := contents + [thread];
    }

    /** The `next` field of the thread that leaves is not cleared. */
    method Dequeue() returns (thread: Tcb?)
      requires Valid()
      modifies this
      ensures Valid()
      ensures old(contents) == [] ==> thread == null && contents == []
      ensures old(contents) != [] ==> thread == old(contents)[0] && contents == old(contents)[1..]
    {
      if head != null {
        thread := head;
        head := head.next;
        if head == null {
          tail := null;
        }
        contents := contents[1..];
      } else {
        thread := null;
      }
    }
  }

  class Monitor {
    var holder: Tcb?
    var spin: bool
    var waiters: seq<Tcb>

    /** uthread_monitor_create */
    constructor ()
      ensures holder == null && !spin && waiters == []
    {
      holder, spin, waiters := null, false, [];
    }
  }

  // ---------------------------------------------------------------- several queues

  /** A call on one of several queues. */
  datatype QueueCall = Put(q: nat, t: Tcb) | Take(q: nat)

  /** The queues as sequences of their elements. */
  type Queued = seq<seq<Tcb>>

  ghost predicate Distinct(c: Queued) {
    forall p, q, t | 0 <= p < |c| && 0 <= q < |c| && t in c[p] && t in c[q] :: p == q
  }

  /** The caller owns the thread that it puts on a queue: it is on none. */
  predicate LegalCall(c: Queued, call: QueueCall) {
    && call.q < |c|
    && (call.Put? ==> forall p | 0 <= p < |c| :: call.t !in c[p])
  }

  function AfterCall(c: Queued, call: QueueCall): (r: Queued)
    requires call.q < |c|
    ensures |r| == |c|
  {
    match call
    case Put(q, t) => c[q := c[q] + [t]]
    case Take(q) => if c[q] == [] then c else c[q := c[q][1..]]
  }

  function Result(c: Queued, call: QueueCall): Tcb?
    requires call.q < |c|
  {
    if call.Take? && c[call.q] != [] then c[call.q][0] else null
  }

  ghost predicate LegalCalls(c: Queued, calls: seq<QueueCall>)
    decreases |calls|
  {
    calls == [] || (LegalCall(c, calls[0]) && LegalCalls(AfterCall(c, calls[0]), calls[1..]))
  }

  ghost function AfterCalls(c: Queued, calls: seq<QueueCall>): (r: Queued)
    requires LegalCalls(c, calls)
    ensures |r| == |c|
    decreases |calls|
  {
    if calls == [] then c else AfterCalls(AfterCall(c, calls[0]), calls[1..])
  }

  /** What a call puts on queue q, and what it takes off it. */
  function PutBy(call: QueueCall, q: nat): seq<Tcb> {
    if call.Put? && call.q == q then [call.t] else []
  }

  function TakenBy(c: Queued, call: QueueCall, q: nat): seq<Tcb>
    requires call.q < |c|
  {
    if call.q == q && Result(c, call) != null then [Result(c, call)] else []
  }

  function PutOnto(calls: seq<QueueCall>, q: nat): seq<Tcb> {
    if calls == [] then [] else PutBy(calls[0], q) + PutOnto(calls[1..], q)
  }

  ghost function TakenOff(c: Queued, calls: seq<QueueCall>, q: nat): seq<Tcb>
    requires LegalCalls(c, calls)
    decreases |calls|
  {
    if calls == [] then [] else TakenBy(c, calls[0], q) + TakenOff(AfterCall(c, calls[0]), calls[1..], q)
  }

  lemma FifoStep(c: Queued, call: QueueCall, q: nat)
    requires LegalCall(c, call) && q < |c|
    ensures TakenBy(c, call, q) + AfterCall(c, call)[q] == c[q] + PutBy(call, q)
  {
  }

  lemma Reassociate(taken: seq<Tcb>, c': seq<Tcb>, c: seq<Tcb>, put: seq<Tcb>, rest: seq<Tcb>)
    requires taken + c' == c + put
    ensures taken + (c' + rest) == c + (put + rest)
  {
    assert taken + (c' + rest) == (taken + c') + rest;
  }

  /** Each queue is first in, first out on its own, whatever happens on the others in between:
      what was on it and what is put on it comes off in that order, or is still there. */
  lemma {:induction false} Fifo(c: Queued, calls: seq<QueueCall>, q: nat)
    requires LegalCalls(c, calls) && q < |c|
    ensures TakenOff(c, calls, q) + AfterCalls(c, calls)[q] == c[q] + PutOnto(calls, q)
    decreases |calls|
  {
    if calls == [] {
    } else {
      var c' := AfterCall(c, calls[0]);
      var taken, put := TakenBy(c, calls[0], q), PutBy(calls[0], q);
      Fifo(c', calls[1..], q);
      FifoStep(c, calls[0], q);
      Reassociate(taken, c'[q], c[q], put, PutOnto(calls[1..], q));
      assert TakenOff(c, calls, q) + AfterCalls(c, calls)[q]
          == taken + (TakenOff(c', calls[1..], q) + AfterCalls(c', calls[1..])[q]);
    }
  }

  /** Queues that share no thread never come to share one. */
  lemma {:induction false} StayDistinct(c: Queued, calls: seq<QueueCall>)
    requires LegalCalls(c, calls) && Distinct(c)
    ensures Distinct(AfterCalls(c, calls))
    decreases |calls|
  {
    if calls == [] {
    } else {
      var c' := AfterCall(c, calls[0]);
      forall p, q, t | 0 <= p < |c'| && 0 <= q < |c'| && t in c'[p] && t in c'[q] ensures p == q {
        assert t in c[p] || (calls[0] == Put(p, t));
        assert t in c[q] || (calls[0] == Put(q, t));
      }
      StayDistinct(c', calls[1..]);
    }
  }

  ghost function Contents(queues: seq<Queue>): (c: Queued)
    reads queues
  {
    seq(|queues|, i requires 0 <= i < |queues| reads queues => queues[i].contents)
  }

  ghost function Queuing(queues: seq<Queue>): set<Tcb>
    reads queues
  {
    set i, t | 0 <= i < |queues| && t in queues[i].contents :: t
  }

  /** Separate well-formed queues: the sets of their elements are disjoint. */
  ghost predicate Separate(queues: seq<Queue>)
    reads queues, Queuing(queues)
  {
    && (forall i, j | 0 <= i < j < |queues| :: queues[i] != queues[j])
    && (forall i | 0 <= i < |queues| ::
          (forall t | t in queues[i].contents :: t in Queuing(queues)) && queues[i].Valid())
    && Distinct(Contents(queues))
  }

  /** An enqueue works on its own queue as on a sequence and leaves the others as they are,
      although all of them are linked through the same field. */
  method PutOn(queues: seq<Queue>, k: nat, t: Tcb)
    requires Separate(queues) && LegalCall(Contents(queues), Put(k, t))
    modifies queues, Queuing(queues)`next, t`next
    ensures Separate(queues)
    ensures Contents(queues) == AfterCall(old(Contents(queues)), Put(k, t))
  {
    ghost var c := Contents(queues);
    assert forall i | 0 <= i < |queues| :: c[i] == queues[i].contents;
    assert forall x | x in queues[k].contents :: x in Queuing(queues);
    queues[k].Enqueue(t);
    forall i | 0 <= i < |queues| && i != k ensures queues[i].Valid() {
      forall x: Tcb | x in c[i] ensures x.next == old(x.next) {
        assert x !in c[k] && x != t;
      }
    }
    assert Contents(queues) == AfterCall(c, Put(k, t));
  }

  /** So does a dequeue, whose `next` field keeps pointing into the queue it left. */
  method TakeFrom(queues: seq<Queue>, k: nat) returns (r: Tcb?)
    requires Separate(queues) && k < |queues|
    modifies queues
    ensures Separate(queues)
    ensures Contents(queues) == AfterCall(old(Contents(queues)), Take(k))
    ensures r == Result(old(Contents(queues)), Take(k))
  {
    ghost var c := Contents(queues);
    assert forall i | 0 <= i < |queues| :: c[i] == queues[i].contents;
    r := queues[k].Dequeue();
    assert Contents(queues) == AfterCall(c, Take(k));
  }
}
