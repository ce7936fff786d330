/**
 Completions: a 32-bit token counter and a queue of exclusive waiters.  A wait is a chain of critical sections under
 x->wait.lock with schedule_timeout between them, so a run is a sequence of sections of any number of threads.
 */
module Completion {

  const WORD := 0x1_0000_0000
  const UINT_MAX := 0xffff_ffff
  const MAX_SCHEDULE_TIMEOUT := 0x7fff_ffff
  const ERESTARTSYS := 512

  /** A wait queue entry of a thread inside do_wait_for_common; awake is what try_to_wake_up would find. */
  datatype Waiter = Waiter(tid: nat, awake: bool, exclusive: bool, timeout: int, interruptible: bool)

  datatype State = State(done: nat, queue: seq<Waiter>)

  /** One critical section. */
  datatype Event =
    | Complete
    | CompleteAll
    | TryWait
    | Enter(tid: nat, timeout: int, interruptible: bool, pending: bool)
    | Resume(i: nat, left: int, pending: bool)
    | Rouse(i: nat)                         // a timer or a signal wakes the waiter, without the lock

  /** What a section lets its thread return: the value and the tokens taken from done. */
  datatype Outcome = Going | Returned(value: int, tokens: nat)

  predicate LongRange(x: int) {
    -0x8000_0000 <= x < 0x8000_0000
  }

  /** What schedule_timeout may return for a given timeout. */
  predicate Slept(timeout: int, left: int) {
    if timeout == MAX_SCHEDULE_TIMEOUT then left == timeout
    else if timeout < 0 then left == 0
    else 0 <= left <= timeout
  }

  // ---------------------------------------------------------------- __wake_up_common

  /** Wakes entries in order until nr exclusive ones were woken; nr <= 0 never stops it. */
  function WakeUp(q: seq<Waiter>, nr: int): seq<Waiter> {
    if q == [] then []
    else
      var counts := !q[0].awake && q[0].exclusive;
      [q[0].(awake := true)]
      + (if counts && nr == 1 then q[1..] else WakeUp(q[1..], if counts then nr - 1 else nr))
  }

  /** One turn of the loop of __wake_up_common. */
  lemma WakeOne(q: seq<Waiter>, i: nat, nr: int)
    requires i < |q|
    ensures var q' := q[i := q[i].(awake := true)];
            var counts := !q[i].awake && q[i].exclusive;
            q[..i] + WakeUp(q[i..], nr)
            == if counts && nr == 1 then q'
               else q'[..i + 1] + WakeUp(q'[i + 1..], if counts then nr - 1 else nr)
  {
    var q' := q[i := q[i].(awake := true)];
    var counts := !q[i].awake && q[i].exclusive;
    var rest := if counts && nr == 1 then q[i..][1..] else WakeUp(q[i..][1..], if counts then nr - 1 else nr);
    assert WakeUp(q[i..], nr) == [q'[i]] + rest;
    hide WakeUp;
    assert q[i..][1..] == q'[i + 1..];
    assert q'[..i + 1] == q[..i] + [q'[i]];
    assert q[..i] + ([q'[i]] + rest) == q'[..i + 1] + rest;
    assert q' == q'[..i + 1] + q'[i + 1..];
  }

  function AwakeCount(q: seq<Waiter>): nat {
    if q == [] then 0 else (if q[0].awake then 1 else 0) + AwakeCount(q[1..])
  }

  predicate Exclusive(q: seq<Waiter>) {
    forall i :: 0 <= i < |q| ==> q[i].exclusive
  }

  function Min(a: int, b: int): int { if a < b then a else b }

  /** q with every entry before k awake. */
  predicate WokenBefore(q: seq<Waiter>, q': seq<Waiter>, k: nat) {
    && |q'| == |q| && k <= |q|
    && (forall i :: 0 <= i < k ==> q'[i] == q[i].(awake := true))
    && (forall i :: k <= i < |q| ==> q'[i] == q[i])
  }

  /** Waiters are woken strictly in queue order, nr of those that slept or all of them. */
  lemma {:induction false} WakeUpInOrder(q: seq<Waiter>, nr: int) returns (k: nat)
    requires Exclusive(q)
    ensures WokenBefore(q, WakeUp(q, nr), k)
    ensures AwakeCount(WakeUp(q, nr))
            == if nr <= 0 then |q| else Min(AwakeCount(q) + nr, |q|)
    ensures q != [] ==> k > 0
    ensures 0 < k < |q| ==> !q[k - 1].awake
  {
    if q == [] {
      k := 0;
    } else if !q[0].awake && nr == 1 {
      k := 1;
      assert WakeUp(q, nr) == [q[0].(awake := true)] + q[1..];
      FirstWoken(q, q[1..], 0);
      AwakeAtMost(q[1..]);
    } else {
      var rest := if q[0].awake then nr else nr - 1;
      var j := WakeUpInOrder(q[1..], rest);
      k := j + 1;
      assert WakeUp(q, nr) == [q[0].(awake := true)] + WakeUp(q[1..], rest);
      FirstWoken(q, WakeUp(q[1..], rest), j);
      AwakeAtMost(q[1..]);
      hide WakeUp, WokenBefore;
    }
  }

  lemma FirstWoken(q: seq<Waiter>, woken: seq<Waiter>, j: nat)
    requires q != [] && WokenBefore(q[1..], woken, j)
    ensures var all := [q[0].(awake := true)] + woken;
            WokenBefore(q, all, j + 1) && AwakeCount(all) == 1 + AwakeCount(woken)
  {
    var all := [q[0].(awake := true)] + woken;
    assert all[1..] == woken;
    assert forall i :: 0 < i < |q| ==> q[i] == q[1..][i - 1] && all[i] == woken[i - 1];
  }

  lemma {:induction false} AwakeAtMost(q: seq<Waiter>)
    ensures AwakeCount(q) <= |q|
  {
    if q != [] { AwakeAtMost(q[1..]); }
  }

  /** As many awake as there are entries: all are. */
  lemma {:induction false} AllAwake(q: seq<Waiter>)
    requires AwakeCount(q) == |q|
    ensures forall i :: 0 <= i < |q| ==> q[i].awake
  {
    if q != [] {
      AwakeAtMost(q[1..]);
      AllAwake(q[1..]);
      assert forall i :: 0 < i < |q| ==> q[i] == q[1..][i - 1];
    }
  }

  lemma {:induction false} AwakeSplit(a: seq<Waiter>, b: seq<Waiter>)
    ensures AwakeCount(a + b) == AwakeCount(a) + AwakeCount(b)
  {
    if a == [] {
      assert a + b == b;
    } else {
      AwakeSplit(a[1..], b);
      assert (a + b)[1..] == a[1..] + b;
    }
  }

  function Without(q: seq<Waiter>, i: nat): seq<Waiter>
    requires i < |q|
  {
    q[..i] + q[i + 1..]
  }

  lemma AwakeAround(q: seq<Waiter>, i: nat, w: Waiter)
    requires i < |q|
    ensures AwakeCount(q) == AwakeCount(Without(q, i)) + (if q[i].awake then 1 else 0)
    ensures AwakeCount(q[i := w]) == AwakeCount(Without(q, i)) + (if w.awake then 1 else 0)
  {
    AwakeMiddle(q[..i], q[i], q[i + 1..]);
    AwakeMiddle(q[..i], w, q[i + 1..]);
    AwakeSplit(q[..i], q[i + 1..]);
    assert q == q[..i] + [q[i]] + q[i + 1..];
    assert q[i := w] == q[..i] + [w] + q[i + 1..];
  }

  lemma AwakeMiddle(a: seq<Waiter>, w: Waiter, b: seq<Waiter>)
    ensures AwakeCount(a + [w] + b) == AwakeCount(a) + (if w.awake then 1 else 0) + AwakeCount(b)
  {
    AwakeSplit(a + [w], b);
    AwakeSplit(a, [w]);
  }

  // ---------------------------------------------------------------- the sections

  predicate Can(s: State, e: Event) {
    match e
    case Enter(_, timeout, _, _) => LongRange(timeout)
    case Resume(i, left, _) => i < |s.queue| && s.queue[i].awake && Slept(s.queue[i].timeout, left)
    case Rouse(i) => i < |s.queue|
    case _ => true
  }

  /** x->done-- and return timeout ?: 1. */
  function Consume(s: State, timeout: int): (State, Outcome)
    requires s.done > 0
  {
    (s.(done := s.done - 1), Returned(if timeout != 0 then timeout else 1, 1))
  }

  function DoEnter(s: State, tid: nat, timeout: int, interruptible: bool, pending: bool): (State, Outcome) {
    if s.done != 0 then Consume(s, timeout)
    else if interruptible && pending then (s, Returned(-ERESTARTSYS, 0))
    else (s.(queue := s.queue + [Waiter(tid, false, true, timeout, interruptible)]), Going)
  }

  function DoResume(s: State, i: nat, left: int, pending: bool): (State, Outcome)
    requires i < |s.queue|
  {
    var w := s.queue[i];
    var gone := s.(queue := Without(s.queue, i));
    if s.done == 0 && left != 0 then
      if w.interruptible && pending then (gone, Returned(-ERESTARTSYS, 0))
      else (s.(queue := s.queue[i := w.(awake := false, timeout := left)]), Going)
    else if s.done == 0 then (gone, Returned(left, 0))
    else Consume(gone, left)
  }

  function DoTryWait(s: State): (State, Outcome) {
    if s.done == 0 then (s, Returned(0, 0)) else (s.(done := s.done - 1), Returned(1, 1))
  }

  function Step(s: State, e: Event): (State, Outcome)
    requires Can(s, e)
  {
    match e
    case Complete => (State((s.done + 1) % WORD, WakeUp(s.queue, 1)), Going)
    case CompleteAll => (State((s.done + UINT_MAX / 2) % WORD, WakeUp(s.queue, 0)), Going)
    case TryWait => DoTryWait(s)
    case Enter(tid, timeout, interruptible, pending) => DoEnter(s, tid, timeout, interruptible, pending)
    case Resume(i, left, pending) => DoResume(s, i, left, pending)
    case Rouse(i) => (s.(queue := s.queue[i := s.queue[i].(awake := true)]), Going)
  }

  // ---------------------------------------------------------------- the invariant

  predicate Inv(s: State) {
    && s.done < WORD
    && Exclusive(s.queue)
    && AwakeCount(s.queue) >= Min(s.done, |s.queue|)
    && (forall i :: 0 <= i < |s.queue| ==> LongRange(s.queue[i].timeout))
  }

  lemma WakeUpKeeps(s: State, done: nat, nr: int)
    requires Inv(s) && done < WORD && 0 <= nr <= 1 && (nr == 1 ==> done <= s.done + 1)
    ensures Inv(State(done, WakeUp(s.queue, nr)))
  {
    var k := WakeUpInOrder(s.queue, nr);
    var q := WakeUp(s.queue, nr);
    forall i | 0 <= i < |q| ensures q[i].exclusive && LongRange(q[i].timeout) {
      assert q[i].(awake := true) == s.queue[i].(awake := true);
    }
  }

  lemma EnterKeeps(s: State, tid: nat, timeout: int, interruptible: bool, pending: bool)
    requires Inv(s) && LongRange(timeout)
    ensures Inv(DoEnter(s, tid, timeout, interruptible, pending).0)
  {
    AwakeSplit(s.queue, [Waiter(tid, false, true, timeout, interruptible)]);
  }

  lemma ResumeKeeps(s: State, i: nat, left: int, pending: bool)
    requires Inv(s) && Can(s, Resume(i, left, pending))
    ensures Inv(DoResume(s, i, left, pending).0)
  {
    AwakeAround(s.queue, i, s.queue[i].(awake := false, timeout := left));
    assert forall j :: 0 <= j < |Without(s.queue, i)| ==>
        Without(s.queue, i)[j] == s.queue[if j < i then j else j + 1];
  }

  lemma StepKeeps(s: State, e: Event)
    requires Inv(s) && Can(s, e)
    ensures Inv(Step(s, e).0)
  {
    match e
    case Complete => WakeUpKeeps(s, (s.done + 1) % WORD, 1);
    case CompleteAll => WakeUpKeeps(s, (s.done + UINT_MAX / 2) % WORD, 0);
    case TryWait =>
    case Enter(tid, timeout, interruptible, pending) => EnterKeeps(s, tid, timeout, interruptible, pending);
    case Resume(i, left, pending) => ResumeKeeps(s, i, left, pending);
    case Rouse(i) => AwakeAround(s.queue, i, s.queue[i].(awake := true));
  }

  // ---------------------------------------------------------------- runs

  predicate Runs(s: State, run: seq<Event>)
    decreases |run|
  {
    run == [] || (Can(s, run[0]) && Runs(Step(s, run[0]).0, run[1..]))
  }

  function After(s: State, run: seq<Event>): State
    requires Runs(s, run)
    decreases |run|
  {
    if run == [] then s else After(Step(s, run[0]).0, run[1..])
  }

  function Posts(e: Event): nat {
    match e
    case Complete => 1
    case CompleteAll => UINT_MAX / 2
    case _ => 0
  }

  function Takes(o: Outcome): nat {
    if o.Returned? then o.tokens else 0
  }

  function Posted(run: seq<Event>): nat {
    if run == [] then 0
    else Posts(run[0]) + Posted(run[1..])
  }

  /** The tokens that the waits and tries of the run have taken. */
  function Taken(s: State, run: seq<Event>): nat
    requires Runs(s, run)
    decreases |run|
  {
    if run == [] then 0
    else
      Takes(Step(s, run[0]).1) + Taken(Step(s, run[0]).0, run[1..])
  }

  /** done is what was posted less what was taken, modulo the width of the counter; no waiter is stranded. */
  lemma {:induction false} RunConserves(s: State, run: seq<Event>)
    requires Inv(s) && Runs(s, run)
    ensures Inv(After(s, run))
    ensures After(s, run).done == (s.done + Posted(run) - Taken(s, run)) % WORD
    decreases |run|
  {
    if run != [] {
      var r := Step(s, run[0]);
      StepKeeps(s, run[0]);
      RunConserves(r.0, run[1..]);
      StepConserves(s, run[0]);
      hide Step, Inv, Takes, Posts;
      Wrapped(s.done + Posts(run[0]) - Takes(r.1), Posted(run[1..]) - Taken(r.0, run[1..]));
    }
  }

  lemma Wrapped(a: int, b: int)
    ensures (a % WORD + b) % WORD == (a + b) % WORD
  {
  }

  lemma StepConserves(s: State, e: Event)
    requires Inv(s) && Can(s, e)
    ensures Step(s, e).0.done == (s.done + Posts(e) - Takes(Step(s, e).1)) % WORD
  {
  }

  /** Until 2^32 tokens have been posted the counter is exact, so no more are taken than were posted. */
  lemma {:induction false} ExactWithoutWrap(s: State, run: seq<Event>)
    requires Inv(s) && Runs(s, run) && s.done + Posted(run) < WORD
    ensures After(s, run).done == s.done + Posted(run) - Taken(s, run)
    decreases |run|
  {
    if run != [] {
      StepKeeps(s, run[0]);
      StepExact(s, run[0]);
      ExactWithoutWrap(Step(s, run[0]).0, run[1..]);
    }
  }

  lemma StepExact(s: State, e: Event)
    requires Inv(s) && Can(s, e) && s.done + Posts(e) < WORD
    ensures Step(s, e).0.done == s.done + Posts(e) - Takes(Step(s, e).1)
  {
  }

  // ---------------------------------------------------------------- what the waiters are promised

  /** While a token is free some queued waiter is awake, and the next section of that waiter takes a token. */
  lemma NoneStranded(s: State) returns (i: nat)
    requires Inv(s) && s.done > 0 && s.queue != []
    ensures i < |s.queue| && s.queue[i].awake
    ensures forall left, pending :: Can(s, Resume(i, left, pending)) ==>
              && Step(s, Resume(i, left, pending)).1.Returned?
              && Step(s, Resume(i, left, pending)).1.tokens == 1
              && Step(s, Resume(i, left, pending)).1.value > 0
  {
    i := SomeAwake(s.queue);
    forall left, pending | Can(s, Resume(i, left, pending))
      ensures Step(s, Resume(i, left, pending)).1.Returned? && Step(s, Resume(i, left, pending)).1.tokens == 1
              && Step(s, Resume(i, left, pending)).1.value > 0
    {
      assert left >= 0;
    }
  }

  lemma {:induction false} SomeAwake(q: seq<Waiter>) returns (i: nat)
    requires AwakeCount(q) > 0
    ensures i < |q| && q[i].awake
  {
    if q[0].awake {
      i := 0;
    } else {
      var j := SomeAwake(q[1..]);
      i := j + 1;
    }
  }

  /** The section in which done_ is nonzero on entry and the caller passed a negative timeout. */
  predicate NegativeOnEntry(s: State, e: Event) {
    e.Enter? && s.done > 0 && e.timeout < 0
  }

  /** A section that returns reports success exactly when it took its one token, unless the timeout was negative and a
      token was free on entry; a section that does not return takes nothing. */
  lemma SuccessIffConsumed(s: State, e: Event)
    requires Inv(s) && Can(s, e)
    ensures var o := Step(s, e).1;
            && (o.Going? ==> e.Complete? || e.CompleteAll? || Step(s, e).0.done == s.done)
            && (o.Returned? ==> o.tokens <= 1 && Step(s, e).0.done == s.done - o.tokens)
            && (o.Returned? ==> ((o.value > 0 <==> o.tokens == 1) <==> !NegativeOnEntry(s, e)))
  {
    if e.Resume? {
      assert LongRange(s.queue[e.i].timeout);
    }
  }

  /** A token is lost to the caller: wait_for_completion_timeout with a timeout above LONG_MAX reports an error and
      still decrements done. */
  lemma NegativeTimeoutLosesToken() returns (s: State, e: Event)
    ensures Inv(s) && Can(s, e) && e.Enter?
    ensures Step(s, e).1 == Returned(-1, 1) && Step(s, e).0.done == s.done - 1
  {
    s := State(1, []);
    e := Enter(0, -1, false, false);
  }

  /** A wait is ended by a signal only while no token is free, and without taking one. */
  lemma SignalTakesNothing(s: State, e: Event)
    requires Inv(s) && Can(s, e) && !NegativeOnEntry(s, e)
    requires Step(s, e).1.Returned? && Step(s, e).1.value == -ERESTARTSYS
    ensures (e.Enter? || e.Resume?) && e.pending && s.done == 0 && Step(s, e).0.done == 0 && Step(s, e).1.tokens == 0
    ensures e.Resume? ==> s.queue[e.i].interruptible && Step(s, e).0.queue == Without(s.queue, e.i)
  {
  }

  /** wait_for_completion: without timeout and signals a wait returns only with a token. */
  lemma UntimedWaitReturnsOnlyWithToken(s: State, e: Event)
    requires Inv(s) && Can(s, e) && Step(s, e).1.Returned?
    requires (e.Enter? && e.timeout == MAX_SCHEDULE_TIMEOUT && !e.interruptible)
             || (e.Resume? && s.queue[e.i].timeout == MAX_SCHEDULE_TIMEOUT && !s.queue[e.i].interruptible)
    ensures s.done > 0 && Step(s, e).1 == Returned(MAX_SCHEDULE_TIMEOUT, 1)
  {
  }

  /** Whether a section of a wait returns, and with what: a token always ends it, then a signal if time is left and the
      wait can be interrupted, then the end of the time.  Otherwise the thread sleeps in the queue, asleep, exclusive and
      with the time it has left: behind all others at first, and in its place from then on. */
  lemma WaitEndsIff(s: State, e: Event)
    requires Inv(s) && Can(s, e) && (e.Enter? || e.Resume?)
    ensures var (s', o) := Step(s, e);
            var interruptible := if e.Enter? then e.interruptible else s.queue[e.i].interruptible;
            var left := if e.Enter? then e.timeout else e.left;
            var signalled := s.done == 0 && interruptible && e.pending && (e.Enter? || left != 0);
            var timedOut := s.done == 0 && e.Resume? && left == 0;
            && (o.Returned? <==> s.done > 0 || signalled || timedOut)
            && (s.done > 0 ==> s'.done == s.done - 1 && o == Returned(if left == 0 then 1 else left, 1))
            && (s.done == 0 ==> s'.done == 0)
            && (signalled ==> o == Returned(-512, 0))
            && (timedOut ==> o == Returned(0, 0))
            && (o.Returned? ==> s'.queue == if e.Enter? then s.queue else s.queue[..e.i] + s.queue[e.i + 1..])
            && (o.Going? && e.Enter? ==> s'.queue == s.queue + [Waiter(e.tid, false, true, left, interruptible)])
            && (o.Going? && e.Resume? ==>
                  s'.queue == s.queue[e.i := Waiter(s.queue[e.i].tid, false, true, left, interruptible)])
  {
  }

  // ---------------------------------------------------------------- struct completion

  class Waits {
    var done: nat
    var queue: seq<Waiter>

    constructor ()
      ensures Value() == State(0, []) && Inv(Value())
    {
      done, queue := 0, [];
    }

    function Value(): State
      reads this
    {
      State(done, queue)
    }

    method WakeUpCommon(nrExclusive: int)
      modifies this`queue
      ensures queue == WakeUp(old(queue), nrExclusive)
    {
      ghost var goal := WakeUp(queue, nrExclusive);
      var nr := nrExclusive;
      var i := 0;
      while i < |queue|
        invariant 0 <= i <= |queue|
        invariant queue[..i] + WakeUp(queue[i..], nr) == goal
      {
        var w := queue[i];
        var woken := !w.awake;
        WakeOne(queue, i, nr);
        queue := queue[i := w.(awake := true)];
        if woken && w.exclusive {
          nr := nr - 1;
          if nr == 0 {
            return;
          }
        }
        i := i + 1;
      }
      assert queue[..i] == queue;
    }

    method Complete()
      requires Inv(Value())
      modifies this
      ensures Value() == Step(old(Value()), Event.Complete).0 && Inv(Value())
      ensures done == (old(done) + 1) % 0x1_0000_0000
      ensures AwakeCount(queue) == Min(AwakeCount(old(queue)) + 1, |old(queue)|)
      ensures exists k :: WokenBefore(old(queue), queue, k)
    {
      StepKeeps(Value(), Event.Complete);
      ghost var k := WakeUpInOrder(queue, 1);
      assert WokenBefore(queue, WakeUp(queue, 1), k);
      done := (done + 1) % WORD;
      WakeUpCommon(1);
    }

    method CompleteAll()
      requires Inv(Value())
      modifies this
      ensures Value() == Step(old(Value()), Event.CompleteAll).0 && Inv(Value())
      ensures done == (old(done) + 0x7fff_ffff) % 0x1_0000_0000 && WokenBefore(old(queue), queue, |queue|)
    {
      StepKeeps(Value(), Event.CompleteAll);
      ghost var k := WakeUpInOrder(queue, 0);
      AllAwake(WakeUp(queue, 0));
      done := (done + UINT_MAX / 2) % WORD;
      WakeUpCommon(0);
    }

    method TryWait() returns (ok: bool)
      requires Inv(Value())
      modifies this`done
      ensures (Value(), Returned(if ok then 1 else 0, if ok then 1 else 0)) == Step(old(Value()), Event.TryWait)
      ensures Inv(Value()) && (ok <==> old(done) > 0) && done == if ok then old(done) - 1 else 0
    {
      ok := done != 0;
      if ok { done := done - 1; }
    }

    /** do_wait_for_common up to the first schedule_timeout, or to its end. */
    method WaitEnter(tid: nat, timeout: int, interruptible: bool, pending: bool) returns (outcome: Outcome)
      requires Inv(Value()) && LongRange(timeout)
      modifies this
      ensures (Value(), outcome) == Step(old(Value()), Enter(tid, timeout, interruptible, pending)) && Inv(Value())
    {
      StepKeeps(Value(), Enter(tid, timeout, interruptible, pending));
      if done == 0 {
        queue := queue + [Waiter(tid, false, true, timeout, interruptible)];
        if interruptible && pending {
          queue := queue[..|queue| - 1];
          return Returned(-ERESTARTSYS, 0);
        }
        return Going;
      }
      done := done - 1;
      outcome := Returned(if timeout != 0 then timeout else 1, 1);
    }

    /** do_wait_for_common from the return of schedule_timeout to the next one, or to its end. */
    method WaitResume(i: nat, left: int, pending: bool) returns (outcome: Outcome)
      requires Inv(Value()) && Can(Value(), Resume(i, left, pending))
      modifies this
      ensures (Value(), outcome) == Step(old(Value()), Resume(i, left, pending)) && Inv(Value())
    {
      StepKeeps(Value(), Resume(i, left, pending));
      var timeout := left;
      if done == 0 && timeout != 0 {
        if queue[i].interruptible && pending {
          timeout := -ERESTARTSYS;
        } else {
          queue := queue[i := queue[i].(awake := false, timeout := timeout)];
          return Going;
        }
      }
      queue := queue[..i] + queue[i + 1..];
      if done == 0 {
        return Returned(timeout, 0);
      }
      done := done - 1;
      outcome := Returned(if timeout != 0 then timeout else 1, 1);
    }
  }
}
