/** The completion queue of a7/async.c: a ring of 1000 slots whose head is moved by doAsync and
    whose tail is moved by the interrupt service routine. */
module CompletionRing {
  const SLOTS := 1000

  /** comp, compHead and compTail */
  datatype Ring<T> = Ring(slots: seq<T>, head: nat, tail: nat)

  predicate IsRing<T>(r: Ring<T>) {
    |r.slots| == SLOTS && r.head < SLOTS && r.tail < SLOTS
  }

  function Next(i: nat): (n: nat)
    requires i < SLOTS
  {
    (i + 1) % SLOTS
  }

  /** doAsync; the slot is written whether or not it holds an entry that is still outstanding. */
  function Submit<T>(r: Ring<T>, x: T): Ring<T>
    requires IsRing(r)
  {
    r.(head := Next(r.head), slots := r.slots[Next(r.head) := x])
  }

  /** What interruptServiceRoutine takes out of the ring */
  function Interrupt<T>(r: Ring<T>): Ring<T>
    requires IsRing(r)
  {
    if r.head == r.tail then r else r.(tail := Next(r.tail))
  }

  // ---------------------------------------------------------------- the ring as a sequence

  function Count<T>(r: Ring<T>): (n: nat)
    requires IsRing(r)
    ensures n < SLOTS
  {
    if r.tail <= r.head then r.head - r.tail else r.head + SLOTS - r.tail
  }

  function SlotOf(tail: nat, i: nat): (k: nat)
    requires tail < SLOTS && i < SLOTS
    ensures k < SLOTS
  {
    if tail + 1 + i < SLOTS then tail + 1 + i else tail + 1 + i - SLOTS
  }

  /** The entries whose interrupt has not come yet, oldest first */
  function Outstanding<T>(r: Ring<T>): (q: seq<T>)
    requires IsRing(r)
    ensures |q| == Count(r)
  {
    seq(Count(r), i requires 0 <= i < Count(r) => r.slots[SlotOf(r.tail, i)])
  }

  lemma NextIs(i: nat)
    requires i < SLOTS
    ensures Next(i) == if i + 1 < SLOTS then i + 1 else 0
  {
  }

  /** An entry goes to the end of the queue, unless 999 entries are outstanding: then the ring
      looks empty and all of them are lost with the new one. */
  lemma SubmitAppends<T>(r: Ring<T>, x: T)
    requires IsRing(r)
    ensures IsRing(Submit(r, x))
    ensures Outstanding(Submit(r, x)) == if Count(r) < SLOTS - 1 then Outstanding(r) + [x] else []
  {
    NextIs(r.head);
    var r' := Submit(r, x);
    if Count(r) < SLOTS - 1 {
      assert Count(r') == Count(r) + 1;
      forall i | 0 <= i < Count(r') ensures Outstanding(r')[i] == (Outstanding(r) + [x])[i] {
        assert i < Count(r) <==> SlotOf(r.tail, i) != Next(r.head);
      }
    }
  }

  /** An interrupt takes the oldest entry, if there is one. */
  lemma InterruptTakesFirst<T>(r: Ring<T>)
    requires IsRing(r)
    ensures IsRing(Interrupt(r))
    ensures Outstanding(r) == [] ==> Interrupt(r) == r
    ensures Outstanding(r) != [] ==>
              Outstanding(r)[0] == r.slots[Interrupt(r).tail] && Outstanding(Interrupt(r)) == Outstanding(r)[1..]
  {
    NextIs(r.tail);
    var r' := Interrupt(r);
    if Outstanding(r) != [] {
      assert Count(r') == Count(r) - 1;
      forall i | 0 <= i < Count(r') ensures Outstanding(r')[i] == Outstanding(r)[1..][i] {
        assert SlotOf(r'.tail, i) == SlotOf(r.tail, i + 1);
      }
    }
  }

  // ---------------------------------------------------------------- runs

  datatype Event<T> = Async(x: T) | Alarm

  function After<T>(r: Ring<T>, e: Event<T>): Ring<T>
    requires IsRing(r)
  {
    match e
    case Async(x) => Submit(r, x)
    case Alarm => Interrupt(r)
  }

  /** run[i + 1] is the ring after the i-th event. */
  ghost predicate IsRun<T>(events: seq<Event<T>>, run: seq<Ring<T>>) {
    && |run| == |events| + 1 && IsRing(run[0])
    && forall i {:trigger events[i]} | 0 <= i < |events| :: IsRing(run[i]) && run[i + 1] == After(run[i], events[i])
  }

  function SubmittedBy<T>(e: Event<T>): seq<T> {
    match e
    case Async(x) => [x]
    case Alarm => []
  }

  function HandledBy<T>(r: Ring<T>, e: Event<T>): seq<T>
    requires IsRing(r)
  {
    if e.Alarm? && r.head != r.tail then [r.slots[Next(r.tail)]] else []
  }

  /** What has been submitted by the first n events */
  function Submitted<T>(events: seq<Event<T>>, n: nat): seq<T>
    requires n <= |events|
  {
    if n == 0 then [] else Submitted(events, n - 1) + SubmittedBy(events[n - 1])
  }

  /** What has been handled by the first n events */
  ghost function Handled<T>(events: seq<Event<T>>, run: seq<Ring<T>>, n: nat): seq<T>
    requires IsRun(events, run) && n <= |events|
  {
    if n == 0 then []
    else
      assert events[n - 1] == events[n - 1];
      Handled(events, run, n - 1) + HandledBy(run[n - 1], events[n - 1])
  }

  predicate Overflows<T>(r: Ring<T>, e: Event<T>)
    requires IsRing(r)
  {
    e.Async? && Count(r) == SLOTS - 1
  }

  lemma OneEvent<T>(r: Ring<T>, e: Event<T>)
    requires IsRing(r)
    ensures IsRing(After(r, e))
    ensures !Overflows(r, e) ==> HandledBy(r, e) + Outstanding(After(r, e)) == Outstanding(r) + SubmittedBy(e)
    ensures Overflows(r, e) ==> HandledBy(r, e) == [] && Outstanding(After(r, e)) == []
  {
    match e
    case Async(x) => SubmitAppends(r, x);
    case Alarm =>
      InterruptTakesFirst(r);
      if r.head != r.tail {
        assert Outstanding(r) == [Outstanding(r)[0]] + Outstanding(r)[1..];
      }
  }

  ghost predicate NoOverflow<T>(events: seq<Event<T>>, run: seq<Ring<T>>, n: nat)
    requires IsRun(events, run) && n <= |events|
  {
    n == 0
    || (NoOverflow(events, run, n - 1) && IsRing(run[n - 1]) && !Overflows(run[n - 1], events[n - 1]))
  }

  lemma Regroup<T>(handled: seq<T>, q: seq<T>, h: seq<T>, q': seq<T>, q0: seq<T>, submitted: seq<T>, s: seq<T>)
    requires handled + q == q0 + submitted && h + q' == q + s
    ensures (handled + h) + q' == q0 + (submitted + s)
  {
    assert (handled + h) + q' == handled + (h + q');
    assert handled + (q + s) == (handled + q) + s;
  }

  /** An overflow loses entries for good. */
  lemma {:induction false} FifoOrLost<T>(events: seq<Event<T>>, run: seq<Ring<T>>, n: nat)
    requires IsRun(events, run) && n <= |events|
    ensures IsRing(run[n])
    ensures NoOverflow(events, run, n) ==>
              Handled(events, run, n) + Outstanding(run[n]) == Outstanding(run[0]) + Submitted(events, n)
    ensures !NoOverflow(events, run, n) ==>
              |Handled(events, run, n)| + |Outstanding(run[n])| < |Outstanding(run[0])| + |Submitted(events, n)|
  {
    if n == 0 {
    } else {
      var r, e := run[n - 1], events[n - 1];
      FifoOrLost(events, run, n - 1);
      assert run[n - 1 + 1] == After(r, e);
      OneEvent(r, e);
      if NoOverflow(events, run, n) {
        Regroup(Handled(events, run, n - 1), Outstanding(r), HandledBy(r, e), Outstanding(run[n]),
                Outstanding(run[0]), Submitted(events, n - 1), SubmittedBy(e));
      } else if Overflows(r, e) {
        assert NoOverflow(events, run, n - 1) ==>
            |Handled(events, run, n - 1) + Outstanding(r)| == |Outstanding(run[0]) + Submitted(events, n - 1)|;
      } else {
        assert |HandledBy(r, e) + Outstanding(After(r, e))| == |Outstanding(r) + SubmittedBy(e)|;
      }
    }
  }

  /** Without interrupts the ring takes entries until 999 are outstanding. */
  lemma {:induction false} FillsUp<T>(events: seq<Event<T>>, run: seq<Ring<T>>, n: nat)
    requires IsRun(events, run) && n <= |events| && Count(run[0]) + n < SLOTS
    requires forall i | 0 <= i < n :: events[i].Async?
    ensures IsRing(run[n]) && Count(run[n]) == Count(run[0]) + n
    ensures Handled(events, run, n) == [] && |Submitted(events, n)| == n
  {
    if n == 0 {
    } else {
      FillsUp(events, run, n - 1);
      assert run[n - 1 + 1] == After(run[n - 1], events[n - 1]);
      OneEvent(run[n - 1], events[n - 1]);
      SubmitAppends(run[n - 1], events[n - 1].x);
    }
  }

  /** A burst of submissions that brings the number outstanding to 1000, such as 1000 of them
      from an empty ring, loses every one and all that was outstanding before: nothing has been
      handled and nothing is left. */
  lemma BurstIsLost<T>(events: seq<Event<T>>, run: seq<Ring<T>>)
    requires IsRun(events, run) && events != [] && Count(run[0]) + |events| == SLOTS
    requires forall i | 0 <= i < |events| :: events[i].Async?
    ensures Handled(events, run, |events|) == [] && |Submitted(events, |events|)| == |events|
    ensures IsRing(run[|events|]) && Outstanding(run[|events|]) == []
  {
    var n := |events|;
    FillsUp(events, run, n - 1);
    assert run[n - 1 + 1] == After(run[n - 1], events[n - 1]);
    OneEvent(run[n - 1], events[n - 1]);
  }

  /** From every ring, every sequence of events can happen. */
  lemma {:induction false} RunFrom<T>(r: Ring<T>, events: seq<Event<T>>) returns (run: seq<Ring<T>>)
    requires IsRing(r)
    ensures IsRun(events, run) && run[0] == r
    decreases |events|
  {
    if events == [] {
      run := [r];
    } else {
      var n := |events| - 1;
      var earlier := RunFrom(r, events[..n]);
      assert IsRing(earlier[n]) by {
        if n > 0 {
          assert events[..n][n - 1] == events[n - 1];
          OneEvent(earlier[n - 1], events[n - 1]);
        }
      }
      run := earlier + [After(earlier[n], events[n])];
      forall i | 0 <= i < |events| ensures IsRing(run[i]) && run[i + 1] == After(run[i], events[i]) {
        assert i < n ==> events[..n][i] == events[i];
      }
    }
  }

  /** Every entry is handled once and in order of submission if and only if no entry is
      submitted while 999 are outstanding, however often the ring has wrapped around. */
  lemma FifoExactlyWithoutOverflow<T>(events: seq<Event<T>>, run: seq<Ring<T>>, n: nat)
    requires IsRun(events, run) && n <= |events|
    ensures IsRing(run[n])
    ensures Handled(events, run, n) + Outstanding(run[n]) == Outstanding(run[0]) + Submitted(events, n)
       <==> NoOverflow(events, run, n)
  {
    FifoOrLost(events, run, n);
    if !NoOverflow(events, run, n) {
      assert |Handled(events, run, n) + Outstanding(run[n])| < |Outstanding(run[0]) + Submitted(events, n)|;
    }
  }
}
