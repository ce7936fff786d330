/**
 The order of the scheduler's spinlocks.  A thread is a program of lock operations and of uses of what the locks protect;
 a program is a tree because a trylock branches.  Any number of threads on any number of runqueues cannot deadlock,
 including the paths that acquire out of order by trylock or drop a lock to take it again, and no two threads are ever
 about to use what the same lock protects.
 */
module LockOrder {

  /** p->pi_lock of a task, or the lock of a runqueue, which is named by its address. */
  datatype Lock = Pi(task: nat) | RunQueue(addr: nat)

  datatype Code =
    | Done
    | Acquire(lock: Lock, next: Code)
    | Release(lock: Lock, next: Code)
    | Try(lock: Lock, got: Code, missed: Code)
    | Use(locks: set<Lock>, next: Code)     // reads or writes what all of these locks protect

  /** pi_lock before runqueue locks, runqueue locks by address. */
  function Rank(l: Lock): nat {
    match l
    case Pi(_) => 0
    case RunQueue(addr) => 1 + addr
  }

  // ---------------------------------------------------------------- the locking functions

  /** task_rq_lock; `seen` are the runqueues task_rq returned, of which only the last was still right under its lock. */
  function TaskRqLock(p: nat, seen: seq<nat>, next: Code): Code
    requires seen != []
  {
    if |seen| == 1 then Acquire(Pi(p), Acquire(RunQueue(seen[0]), next))
    else
      Acquire(Pi(p), Acquire(RunQueue(seen[0]),
        Release(RunQueue(seen[0]), Release(Pi(p), TaskRqLock(p, seen[1..], next)))))
  }

  /** __task_rq_lock, with pi_lock held. */
  function TaskRqLockHeld(seen: seq<nat>, next: Code): Code
    requires seen != []
  {
    if |seen| == 1 then Acquire(RunQueue(seen[0]), next)
    else Acquire(RunQueue(seen[0]), Release(RunQueue(seen[0]), TaskRqLockHeld(seen[1..], next)))
  }

  function TaskRqUnlock(p: nat, rq: nat, next: Code): Code {
    Release(RunQueue(rq), Release(Pi(p), next))
  }

  function DoubleRqLock(rq1: nat, rq2: nat, next: Code): Code {
    if rq1 == rq2 then Acquire(RunQueue(rq1), next)
    else if rq1 < rq2 then Acquire(RunQueue(rq1), Acquire(RunQueue(rq2), next))
    else Acquire(RunQueue(rq2), Acquire(RunQueue(rq1), next))
  }

  function DoubleRqUnlock(rq1: nat, rq2: nat, next: Code): Code {
    Release(RunQueue(rq1), if rq1 != rq2 then Release(RunQueue(rq2), next) else next)
  }

  /** _double_lock_balance without and with CONFIG_PREEMPT; this_rq is locked. */
  function DoubleLockBalance(thisRq: nat, busiest: nat, fair: bool, next: Code): Code {
    if fair then Release(RunQueue(thisRq), DoubleRqLock(thisRq, busiest, next))
    else
      Try(RunQueue(busiest), next,
        if busiest < thisRq then
          Release(RunQueue(thisRq), Acquire(RunQueue(busiest), Acquire(RunQueue(thisRq), next)))
        else
          Acquire(RunQueue(busiest), next))
  }

  /** try_to_wake_up_local, with the runqueue locked. */
  function TryToWakeUpLocal(rq: nat, p: nat, next: Code): Code {
    var body := Use({Pi(p), RunQueue(rq)}, Release(Pi(p), next));
    Try(Pi(p), body, Release(RunQueue(rq), Acquire(Pi(p), Acquire(RunQueue(rq), body))))
  }

  function MigrateTask(p: nat, src: nat, dest: nat, next: Code): Code {
    Acquire(Pi(p), DoubleRqLock(src, dest,
      Use({Pi(p), RunQueue(src), RunQueue(dest)}, DoubleRqUnlock(src, dest, Release(Pi(p), next)))))
  }

  /** try_to_wake_up: perhaps ttwu_remote under the task's runqueue, perhaps ttwu_queue under the target's. */
  function TryToWakeUp(p: nat, remote: seq<nat>, queue: seq<nat>, next: Code): Code {
    Acquire(Pi(p), Use({Pi(p)}, RemoteThen(p, remote, QueueThen(p, queue, Release(Pi(p), next)))))
  }

  function RemoteThen(p: nat, remote: seq<nat>, next: Code): Code {
    if remote == [] then next
    else
      var rq := RunQueue(remote[|remote| - 1]);
      TaskRqLockHeld(remote, Use({Pi(p), rq}, Release(rq, next)))
  }

  function QueueThen(p: nat, queue: seq<nat>, next: Code): Code {
    if queue == [] then next
    else Acquire(RunQueue(queue[0]), Use({Pi(p), RunQueue(queue[0])}, Release(RunQueue(queue[0]), next)))
  }

  /** What a thread does next. */
  datatype Call =
    | ChangeTask(p: nat, seen: seq<nat>)                   // task_rq_lock ... task_rq_unlock
    | WakeUp(p: nat, remote: seq<nat>, queue: seq<nat>)    // try_to_wake_up
    | Schedule(rq: nat, worker: seq<nat>)                  // __schedule, waking workers with try_to_wake_up_local
    | BalanceFrom(rq: nat, busiest: nat, fair: bool)       // lock, double_lock_balance ... double_unlock_balance, unlock
    | Pull(rq1: nat, rq2: nat)                             // double_rq_lock ... double_rq_unlock
    | Migrate(p: nat, src: nat, dest: nat)                 // __migrate_task

  function Wakes(rq: nat, workers: seq<nat>, next: Code): Code {
    if workers == [] then next else TryToWakeUpLocal(rq, workers[0], Wakes(rq, workers[1..], next))
  }

  predicate WellFormed(c: Call) {
    (c.ChangeTask? ==> c.seen != []) && (c.BalanceFrom? ==> c.rq != c.busiest)
  }

  function CallCode(c: Call, next: Code): Code
    requires WellFormed(c)
  {
    match c
    case ChangeTask(p, seen) =>
      var rq := seen[|seen| - 1];
      TaskRqLock(p, seen, Use({Pi(p), RunQueue(rq)}, TaskRqUnlock(p, rq, next)))
    case WakeUp(p, remote, queue) => TryToWakeUp(p, remote, queue, next)
    case Schedule(rq, workers) =>
      Acquire(RunQueue(rq), Wakes(rq, workers, Use({RunQueue(rq)}, Release(RunQueue(rq), next))))
    case BalanceFrom(rq, busiest, fair) =>
      Acquire(RunQueue(rq),
        DoubleLockBalance(rq, busiest, fair,
          Use({RunQueue(rq), RunQueue(busiest)}, Release(RunQueue(busiest), Release(RunQueue(rq), next)))))
    case Pull(rq1, rq2) => DoubleRqLock(rq1, rq2, Use({RunQueue(rq1), RunQueue(rq2)}, DoubleRqUnlock(rq1, rq2, next)))
    case Migrate(p, src, dest) => MigrateTask(p, src, dest, next)
  }

  function Program(calls: seq<Call>): Code
    requires forall c :: c in calls ==> WellFormed(c)
  {
    if calls == [] then Done else CallCode(calls[0], Program(calls[1..]))
  }

  // ---------------------------------------------------------------- the discipline

  /** Run with `held` locks, the program waits only for locks ranked above all it holds, uses only what they protect, and
      ends with none. */
  ghost predicate Ordered(code: Code, held: set<Lock>) {
    match code
    case Done => held == {}
    case Acquire(l, next) => (forall h :: h in held ==> Rank(h) < Rank(l)) && Ordered(next, held + {l})
    case Release(l, next) => l in held && Ordered(next, held - {l})
    case Try(l, got, missed) => l !in held && Ordered(got, held + {l}) && Ordered(missed, held)
    case Use(locks, next) => locks <= held && Ordered(next, held)
  }

  /** Whatever its trylocks answer, the program uses what these locks protect. */
  predicate Uses(code: Code, locks: set<Lock>) {
    match code
    case Done => false
    case Acquire(_, next) => Uses(next, locks)
    case Release(_, next) => Uses(next, locks)
    case Try(_, got, missed) => Uses(got, locks) && Uses(missed, locks)
    case Use(used, next) => used == locks || Uses(next, locks)
  }

  lemma Acquires(l: Lock, next: Code, held: set<Lock>, after: set<Lock>)
    requires after == held + {l} && (forall h :: h in held ==> Rank(h) < Rank(l)) && Ordered(next, after)
    ensures Ordered(Acquire(l, next), held)
  {
  }

  lemma Releases(l: Lock, next: Code, held: set<Lock>, after: set<Lock>)
    requires l in held && after == held - {l} && Ordered(next, after)
    ensures Ordered(Release(l, next), held)
  {
  }

  lemma {:induction false} TaskRqLockOrdered(p: nat, seen: seq<nat>, next: Code)
    requires seen != [] && Ordered(next, {})
    ensures Ordered(CallCode(ChangeTask(p, seen), next), {})
  {
    var l, rq := Pi(p), RunQueue(seen[0]);
    if |seen| == 1 {
      Releases(l, next, {l}, {});
      Releases(rq, Release(l, next), {l, rq}, {l});
      Acquires(rq, Use({l, rq}, Release(rq, Release(l, next))), {l}, {l, rq});
      Acquires(l, Acquire(rq, Use({l, rq}, Release(rq, Release(l, next)))), {}, {l});
      return;
    }
    TaskRqLockOrdered(p, seen[1..], next);
    var rest := CallCode(ChangeTask(p, seen[1..]), next);
    Releases(l, rest, {l}, {});
    Releases(rq, Release(l, rest), {l, rq}, {l});
    Acquires(rq, Release(rq, Release(l, rest)), {l}, {l, rq});
    Acquires(l, Acquire(rq, Release(rq, Release(l, rest))), {}, {l});
  }

  lemma {:induction false} HeldOrdered(p: nat, seen: seq<nat>, next: Code)
    requires seen != [] && Ordered(next, {Pi(p)})
    ensures Ordered(RemoteThen(p, seen, next), {Pi(p)})
  {
    var l, rq := Pi(p), RunQueue(seen[0]);
    if |seen| == 1 {
      Releases(rq, next, {l, rq}, {l});
      Acquires(rq, Use({l, rq}, Release(rq, next)), {l}, {l, rq});
      return;
    }
    HeldOrdered(p, seen[1..], next);
    var rest := RemoteThen(p, seen[1..], next);
    Releases(rq, rest, {l, rq}, {l});
    Acquires(rq, Release(rq, rest), {l}, {l, rq});
  }

  lemma WakeUpOrdered(p: nat, remote: seq<nat>, queue: seq<nat>, next: Code)
    requires Ordered(next, {})
    ensures Ordered(TryToWakeUp(p, remote, queue, next), {})
  {
    var l := Pi(p);
    Releases(l, next, {l}, {});
    var last := Release(l, next);
    if queue != [] {
      var rq := RunQueue(queue[0]);
      Releases(rq, last, {l, rq}, {l});
      Acquires(rq, Use({l, rq}, Release(rq, last)), {l}, {l, rq});
    }
    if remote != [] { HeldOrdered(p, remote, QueueThen(p, queue, last)); }
    Acquires(l, Use({l}, RemoteThen(p, remote, QueueThen(p, queue, last))), {}, {l});
  }

  lemma LocalOrdered(rq: nat, p: nat, next: Code)
    requires Ordered(next, {RunQueue(rq)})
    ensures Ordered(TryToWakeUpLocal(rq, p, next), {RunQueue(rq)})
  {
    var r, l := RunQueue(rq), Pi(p);
    var body := Use({l, r}, Release(l, next));
    Releases(l, next, {l, r}, {r});
    Acquires(r, body, {l}, {l, r});
    Acquires(l, Acquire(r, body), {}, {l});
    Releases(r, Acquire(l, Acquire(r, body)), {r}, {});
    assert {r} + {l} == {l, r};
  }

  lemma {:induction false} WakesOrdered(rq: nat, workers: seq<nat>, next: Code)
    requires Ordered(next, {RunQueue(rq)})
    ensures Ordered(Wakes(rq, workers, next), {RunQueue(rq)})
  {
    if workers != [] {
      WakesOrdered(rq, workers[1..], next);
      LocalOrdered(rq, workers[0], Wakes(rq, workers[1..], next));
    }
  }

  /** Taking two runqueues by address, with at most a pi_lock held. */
  lemma DoubleLocked(rq1: nat, rq2: nat, next: Code, held: set<Lock>)
    requires forall h :: h in held ==> h.Pi?
    requires Ordered(next, held + {RunQueue(rq1), RunQueue(rq2)})
    ensures Ordered(DoubleRqLock(rq1, rq2, next), held)
  {
    var a, b := RunQueue(if rq1 < rq2 then rq1 else rq2), RunQueue(if rq1 < rq2 then rq2 else rq1);
    if rq1 == rq2 {
      Acquires(a, next, held, held + {a, b});
    } else {
      Acquires(b, next, held + {a}, held + {RunQueue(rq1), RunQueue(rq2)});
      Acquires(a, Acquire(b, next), held, held + {a});
    }
  }

  lemma DoubleUnlocked(rq1: nat, rq2: nat, next: Code, held: set<Lock>)
    requires forall h :: h in held ==> h.Pi?
    requires Ordered(next, held)
    ensures Ordered(DoubleRqUnlock(rq1, rq2, next), held + {RunQueue(rq1), RunQueue(rq2)})
  {
    var a, b := RunQueue(rq1), RunQueue(rq2);
    if rq1 == rq2 {
      Releases(a, next, held + {a, b}, held);
    } else {
      Releases(b, next, held + {b}, held);
      Releases(a, Release(b, next), held + {a, b}, held + {b});
    }
  }

  lemma BalanceOrdered(rq: nat, busiest: nat, fair: bool, next: Code)
    requires rq != busiest && Ordered(next, {})
    ensures Ordered(CallCode(BalanceFrom(rq, busiest, fair), next), {})
  {
    var r, b := RunQueue(rq), RunQueue(busiest);
    var last := Use({r, b}, Release(b, Release(r, next)));
    Releases(r, next, {r}, {});
    Releases(b, Release(r, next), {r, b}, {r});
    assert Ordered(last, {r, b});
    if fair {
      assert {} + {RunQueue(rq), RunQueue(busiest)} == {r, b};
      DoubleLocked(rq, busiest, last, {});
      Releases(r, DoubleRqLock(rq, busiest, last), {r}, {});
    } else if busiest < rq {
      Acquires(r, last, {b}, {r, b});
      Acquires(b, Acquire(r, last), {}, {b});
      Releases(r, Acquire(b, Acquire(r, last)), {r}, {});
    } else {
      Acquires(b, last, {r}, {r, b});
    }
    assert {r} + {b} == {r, b};
    Acquires(r, DoubleLockBalance(rq, busiest, fair, last), {}, {r});
  }

  lemma CallOrdered(c: Call, next: Code)
    requires WellFormed(c) && Ordered(next, {})
    ensures Ordered(CallCode(c, next), {})
  {
    match c
    case ChangeTask(p, seen) => TaskRqLockOrdered(p, seen, next);
    case WakeUp(p, remote, queue) => WakeUpOrdered(p, remote, queue, next);
    case Schedule(rq, workers) =>
      Releases(RunQueue(rq), next, {RunQueue(rq)}, {});
      var last := Use({RunQueue(rq)}, Release(RunQueue(rq), next));
      WakesOrdered(rq, workers, last);
      Acquires(RunQueue(rq), Wakes(rq, workers, last), {}, {RunQueue(rq)});
    case BalanceFrom(rq, busiest, fair) => BalanceOrdered(rq, busiest, fair, next);
    case Pull(rq1, rq2) =>
      DoubleUnlocked(rq1, rq2, next, {});
      DoubleLocked(rq1, rq2, Use({RunQueue(rq1), RunQueue(rq2)}, DoubleRqUnlock(rq1, rq2, next)), {});
    case Migrate(p, src, dest) =>
      Releases(Pi(p), next, {Pi(p)}, {});
      DoubleUnlocked(src, dest, Release(Pi(p), next), {Pi(p)});
      var body := Use({Pi(p), RunQueue(src), RunQueue(dest)}, DoubleRqUnlock(src, dest, Release(Pi(p), next)));
      DoubleLocked(src, dest, body, {Pi(p)});
      Acquires(Pi(p), DoubleRqLock(src, dest, body), {}, {Pi(p)});
  }

  /** Every thread that only calls these functions follows the order. */
  lemma {:induction false} ProgramOrdered(calls: seq<Call>)
    requires forall c :: c in calls ==> WellFormed(c)
    ensures Ordered(Program(calls), {})
  {
    if calls != [] {
      ProgramOrdered(calls[1..]);
      CallOrdered(calls[0], Program(calls[1..]));
    }
  }

  // ---------------------------------------------------------------- threads

  datatype Thread = Thread(code: Code, held: set<Lock>)

  datatype State = State(threads: seq<Thread>, owner: map<Lock, nat>)

  predicate Blocked(s: State, i: nat)
    requires i < |s.threads|
  {
    s.threads[i].code.Acquire? && s.threads[i].code.lock in s.owner
  }

  predicate CanStep(s: State, i: nat) {
    i < |s.threads| && !s.threads[i].code.Done? && !Blocked(s, i)
  }

  function Step(s: State, i: nat): State
    requires CanStep(s, i)
  {
    var t := s.threads[i];
    match t.code
    case Acquire(l, next) => State(s.threads[i := Thread(next, t.held + {l})], s.owner[l := i])
    case Release(l, next) => State(s.threads[i := Thread(next, t.held - {l})], s.owner - {l})
    case Try(l, got, missed) =>
      if l in s.owner then State(s.threads[i := Thread(missed, t.held)], s.owner)
      else State(s.threads[i := Thread(got, t.held + {l})], s.owner[l := i])
    case Use(_, next) => State(s.threads[i := Thread(next, t.held)], s.owner)
  }

  ghost predicate Inv(s: State) {
    && (forall i :: 0 <= i < |s.threads| ==> Ordered(s.threads[i].code, s.threads[i].held))
    && (forall i, l :: 0 <= i < |s.threads| && l in s.threads[i].held ==> l in s.owner && s.owner[l] == i)
    && (forall l :: l in s.owner ==> s.owner[l] < |s.threads| && l in s.threads[s.owner[l]].held)
  }

  function Start(programs: seq<seq<Call>>): State
    requires forall i, c :: 0 <= i < |programs| && c in programs[i] ==> WellFormed(c)
  {
    State(seq(|programs|, i requires 0 <= i < |programs| => Thread(Program(programs[i]), {})), map[])
  }

  predicate Runs(s: State, run: seq<nat>)
    decreases |run|
  {
    run == [] || (CanStep(s, run[0]) && Runs(Step(s, run[0]), run[1..]))
  }

  function After(s: State, run: seq<nat>): State
    requires Runs(s, run)
    decreases |run|
  {
    if run == [] then s else After(Step(s, run[0]), run[1..])
  }

  lemma StartOk(programs: seq<seq<Call>>)
    requires forall i, c :: 0 <= i < |programs| && c in programs[i] ==> WellFormed(c)
    ensures Inv(Start(programs))
  {
    forall i | 0 <= i < |programs| ensures Ordered(Program(programs[i]), {}) {
      ProgramOrdered(programs[i]);
    }
  }

  /** A thread has taken a lock nobody owned. */
  lemma TookOk(s: State, i: nat, l: Lock, next: Code)
    requires Inv(s) && i < |s.threads| && l !in s.owner && Ordered(next, s.threads[i].held + {l})
    ensures Inv(State(s.threads[i := Thread(next, s.threads[i].held + {l})], s.owner[l := i]))
  {
    hide Ordered;
  }

  lemma DroppedOk(s: State, i: nat, l: Lock, next: Code)
    requires Inv(s) && i < |s.threads| && l in s.threads[i].held && Ordered(next, s.threads[i].held - {l})
    ensures Inv(State(s.threads[i := Thread(next, s.threads[i].held - {l})], s.owner - {l}))
  {
    hide Ordered;
    var t' := Thread(next, s.threads[i].held - {l});
    var s' := State(s.threads[i := t'], s.owner - {l});
    forall j | 0 <= j < |s'.threads| ensures Ordered(s'.threads[j].code, s'.threads[j].held) {
      assert j == i || s'.threads[j] == s.threads[j];
    }
    forall j, k | 0 <= j < |s'.threads| && k in s'.threads[j].held ensures k in s'.owner && s'.owner[k] == j {
      assert s'.threads[j] == if j == i then t' else s.threads[j];
      assert k in s.threads[j].held && s.owner[k] == j;
      assert s.owner[l] == i;
      assert k != l;
    }
    forall k | k in s'.owner ensures s'.owner[k] < |s'.threads| && k in s'.threads[s'.owner[k]].held {
      var j := s.owner[k];
      assert s'.owner[k] == j && k in s.threads[j].held;
      assert s'.threads[j] == if j == i then t' else s.threads[j];
    }
  }

  lemma StepOk(s: State, i: nat)
    requires Inv(s) && CanStep(s, i)
    ensures Inv(Step(s, i))
  {
    var t := s.threads[i];
    OrderedNext(t.code, t.held);
    hide Ordered;
    match t.code
    case Acquire(l, next) => TookOk(s, i, l, next);
    case Release(l, next) => DroppedOk(s, i, l, next);
    case Try(l, got, missed) => if l in s.owner { MissedOk(s, i, missed); } else { TookOk(s, i, l, got); }
    case Use(_, next) => MissedOk(s, i, next);
  }

  /** What the order promises of the first operation. */
  lemma OrderedNext(code: Code, held: set<Lock>)
    ensures Ordered(code, held) ==>
              match code
              case Done => held == {}
              case Acquire(l, next) => Ordered(next, held + {l})
              case Release(l, next) => l in held && Ordered(next, held - {l})
              case Try(l, got, missed) => Ordered(got, held + {l}) && Ordered(missed, held)
              case Use(locks, next) => Ordered(next, held)
  {
  }

  /** A failed trylock, like a use, changes nothing but the program. */
  lemma MissedOk(s: State, i: nat, missed: Code)
    requires Inv(s) && i < |s.threads| && Ordered(missed, s.threads[i].held)
    ensures Inv(State(s.threads[i := Thread(missed, s.threads[i].held)], s.owner))
  {
    hide Ordered;
  }

  lemma {:induction false} RunOk(s: State, run: seq<nat>)
    requires Inv(s) && Runs(s, run)
    ensures Inv(After(s, run))
    decreases |run|
  {
    if run != [] {
      StepOk(s, run[0]);
      RunOk(Step(s, run[0]), run[1..]);
    }
  }

  // ---------------------------------------------------------------- mutual exclusion

  /** Each call uses what it is there for, whatever its trylocks answer: the task under its pi_lock and the runqueues it
      changes, and with the last runqueue that was tried if the task moved. */
  lemma CallUses(c: Call, next: Code)
    requires WellFormed(c)
    ensures var code := CallCode(c, next);
            match c
            case ChangeTask(p, seen) => Uses(code, {Pi(p), RunQueue(seen[|seen| - 1])})
            case WakeUp(p, remote, queue) =>
              && Uses(code, {Pi(p)})
              && (remote != [] ==> Uses(code, {Pi(p), RunQueue(remote[|remote| - 1])}))
              && (queue != [] ==> Uses(code, {Pi(p), RunQueue(queue[0])}))
            case Schedule(rq, workers) =>
              Uses(code, {RunQueue(rq)}) && forall w :: w in workers ==> Uses(code, {Pi(w), RunQueue(rq)})
            case BalanceFrom(rq, busiest, _) => Uses(code, {RunQueue(rq), RunQueue(busiest)})
            case Pull(rq1, rq2) => Uses(code, {RunQueue(rq1), RunQueue(rq2)})
            case Migrate(p, src, dest) => Uses(code, {Pi(p), RunQueue(src), RunQueue(dest)})
  {
    match c
    case ChangeTask(p, seen) =>
      var rq := seen[|seen| - 1];
      TaskRqLockUses(p, seen, Use({Pi(p), RunQueue(rq)}, TaskRqUnlock(p, rq, next)), {Pi(p), RunQueue(rq)});
    case WakeUp(p, remote, queue) =>
      var last := QueueThen(p, queue, Release(Pi(p), next));
      if queue != [] { QueueUses(p, queue[0], Release(Pi(p), next)); }
      if remote != [] {
        var rq := RunQueue(remote[|remote| - 1]);
        HeldUses(remote, Use({Pi(p), rq}, Release(rq, last)), {Pi(p), rq});
        if queue != [] { HeldUses(remote, Use({Pi(p), rq}, Release(rq, last)), {Pi(p), RunQueue(queue[0])}); }
      }
    case Schedule(rq, workers) =>
      WakesUse(rq, workers, Use({RunQueue(rq)}, Release(RunQueue(rq), next)), {RunQueue(rq)});
    case BalanceFrom(rq, busiest, fair) =>
      BalanceUses(rq, busiest, fair, Use({RunQueue(rq), RunQueue(busiest)}, Release(RunQueue(busiest), Release(RunQueue(rq), next))));
    case Pull(rq1, rq2) =>
      DoubleUses(rq1, rq2, Use({RunQueue(rq1), RunQueue(rq2)}, DoubleRqUnlock(rq1, rq2, next)), {RunQueue(rq1), RunQueue(rq2)});
    case Migrate(p, src, dest) =>
      var used := {Pi(p), RunQueue(src), RunQueue(dest)};
      DoubleUses(src, dest, Use(used, DoubleRqUnlock(src, dest, Release(Pi(p), next))), used);
  }

  lemma QueueUses(p: nat, rq: nat, next: Code)
    ensures Uses(QueueThen(p, [rq], next), {Pi(p), RunQueue(rq)})
  {
    assert Uses(Use({Pi(p), RunQueue(rq)}, Release(RunQueue(rq), next)), {Pi(p), RunQueue(rq)});
  }

  lemma DoubleUses(rq1: nat, rq2: nat, next: Code, locks: set<Lock>)
    requires Uses(next, locks)
    ensures Uses(DoubleRqLock(rq1, rq2, next), locks)
  {
    assert Uses(Acquire(RunQueue(rq1), next), locks) && Uses(Acquire(RunQueue(rq2), next), locks);
  }

  lemma BalanceUses(rq: nat, busiest: nat, fair: bool, next: Code)
    requires Uses(next, {RunQueue(rq), RunQueue(busiest)})
    ensures Uses(DoubleLockBalance(rq, busiest, fair, next), {RunQueue(rq), RunQueue(busiest)})
  {
    var used := {RunQueue(rq), RunQueue(busiest)};
    DoubleUses(rq, busiest, next, used);
    assert Uses(Acquire(RunQueue(rq), next), used) && Uses(Acquire(RunQueue(busiest), next), used);
    assert Uses(Acquire(RunQueue(busiest), Acquire(RunQueue(rq), next)), used);
    assert Uses(Release(RunQueue(rq), Acquire(RunQueue(busiest), Acquire(RunQueue(rq), next))), used);
  }

  lemma {:induction false} TaskRqLockUses(p: nat, seen: seq<nat>, next: Code, locks: set<Lock>)
    requires seen != [] && Uses(next, locks)
    ensures Uses(TaskRqLock(p, seen, next), locks)
  {
    var l, rq := Pi(p), RunQueue(seen[0]);
    if |seen| == 1 {
      assert Uses(Acquire(rq, next), locks);
    } else {
      TaskRqLockUses(p, seen[1..], next, locks);
      var rest := TaskRqLock(p, seen[1..], next);
      assert Uses(Release(l, rest), locks);
      assert Uses(Release(rq, Release(l, rest)), locks);
      assert Uses(Acquire(rq, Release(rq, Release(l, rest))), locks);
    }
  }

  lemma {:induction false} HeldUses(seen: seq<nat>, next: Code, locks: set<Lock>)
    requires seen != [] && Uses(next, locks)
    ensures Uses(TaskRqLockHeld(seen, next), locks)
  {
    if |seen| > 1 {
      HeldUses(seen[1..], next, locks);
      assert Uses(Release(RunQueue(seen[0]), TaskRqLockHeld(seen[1..], next)), locks);
    }
  }

  lemma {:induction false} WakesUse(rq: nat, workers: seq<nat>, next: Code, locks: set<Lock>)
    requires Uses(next, locks)
    ensures forall w :: w in workers ==> Uses(Wakes(rq, workers, next), {Pi(w), RunQueue(rq)})
    ensures Uses(Wakes(rq, workers, next), locks)
  {
    if workers != [] {
      var rest := Wakes(rq, workers[1..], next);
      WakesUse(rq, workers[1..], next, locks);
      LocalUses(rq, workers[0], rest, locks);
      forall w | w in workers ensures Uses(Wakes(rq, workers, next), {Pi(w), RunQueue(rq)}) {
        if w in workers[1..] { LocalUses(rq, workers[0], rest, {Pi(w), RunQueue(rq)}); }
      }
    }
  }

  lemma LocalUses(rq: nat, w: nat, next: Code, locks: set<Lock>)
    requires Uses(next, locks)
    ensures Uses(TryToWakeUpLocal(rq, w, next), locks) && Uses(TryToWakeUpLocal(rq, w, next), {Pi(w), RunQueue(rq)})
  {
    var own := {Pi(w), RunQueue(rq)};
    var body := Use(own, Release(Pi(w), next));
    assert Uses(Release(Pi(w), next), locks);
    assert Uses(body, own) && Uses(body, locks);
    assert Uses(Acquire(RunQueue(rq), body), own) && Uses(Acquire(RunQueue(rq), body), locks);
    var again := Acquire(Pi(w), Acquire(RunQueue(rq), body));
    assert Uses(again, own) && Uses(again, locks);
    assert Uses(Release(RunQueue(rq), again), own) && Uses(Release(RunQueue(rq), again), locks);
  }

  /** Whatever the threads have done so far, two of them are never about to use what the same lock protects. */
  lemma MutualExclusion(programs: seq<seq<Call>>, run: seq<nat>, i: nat, j: nat)
    requires forall i, c :: 0 <= i < |programs| && c in programs[i] ==> WellFormed(c)
    requires Runs(Start(programs), run) && i < |After(Start(programs), run).threads| && j < |After(Start(programs), run).threads|
    requires i != j && After(Start(programs), run).threads[i].code.Use? && After(Start(programs), run).threads[j].code.Use?
    ensures After(Start(programs), run).threads[i].code.locks !! After(Start(programs), run).threads[j].code.locks
  {
    StartOk(programs);
    RunOk(Start(programs), run);
    var s := After(Start(programs), run);
    assert Ordered(s.threads[i].code, s.threads[i].held) && Ordered(s.threads[j].code, s.threads[j].held);
    forall l | l in s.threads[i].code.locks ensures l !in s.threads[j].code.locks {
      assert l in s.threads[i].held && s.owner[l] == i;
    }
  }

  // ---------------------------------------------------------------- deadlock freedom

  /** The owned locks a thread waiting for rank r could still lead to. */
  function Beyond(s: State, r: nat): set<Lock> {
    set l | l in s.owner && Rank(l) >= r
  }

  function WaitRank(s: State, i: nat): nat
    requires i < |s.threads|
  {
    if s.threads[i].code.Acquire? then Rank(s.threads[i].code.lock) else 0
  }

  /** A blocked thread waits for a lock ranked above all it holds, and the holder is not finished. */
  lemma BlockedBelowHolder(s: State, i: nat)
    requires Inv(s) && i < |s.threads| && Blocked(s, i)
    ensures var l := s.threads[i].code.lock;
            && (forall h :: h in s.threads[i].held ==> Rank(h) < Rank(l))
            && s.owner[l] < |s.threads| && l in s.threads[s.owner[l]].held && !s.threads[s.owner[l]].code.Done?
            && (Blocked(s, s.owner[l]) ==> Rank(l) < WaitRank(s, s.owner[l]))
  {
    var j := s.owner[s.threads[i].code.lock];
    assert Ordered(s.threads[i].code, s.threads[i].held) && Ordered(s.threads[j].code, s.threads[j].held);
  }

  /** Following the holders from any unfinished thread leads to one that can run. */
  lemma {:induction false} SomeHolderRuns(s: State, i: nat) returns (j: nat)
    requires Inv(s) && i < |s.threads| && !s.threads[i].code.Done?
    ensures CanStep(s, j)
    decreases if Blocked(s, i) then 1 + |Beyond(s, WaitRank(s, i))| else 0
  {
    if Blocked(s, i) {
      BlockedBelowHolder(s, i);
      var l := s.threads[i].code.lock;
      var k := s.owner[l];
      if Blocked(s, k) {
        Shrinks(Beyond(s, WaitRank(s, k)), Beyond(s, WaitRank(s, i)), l);
      }
      j := SomeHolderRuns(s, k);
    } else {
      j := i;
    }
  }

  lemma Shrinks(a: set<Lock>, b: set<Lock>, l: Lock)
    requires a <= b && l in b && l !in a
    ensures |a| < |b|
  {
    Subset(a, b - {l});
  }

  lemma {:induction false} Subset(a: set<Lock>, b: set<Lock>)
    requires a <= b
    ensures |a| <= |b|
  {
    if x :| x in a {
      Subset(a - {x}, b - {x});
    }
  }

  predicate Finished(s: State) {
    forall i :: 0 <= i < |s.threads| ==> s.threads[i].code.Done?
  }

  /** Whatever the threads have done so far, either all are finished or one of them can go on. */
  lemma DeadlockFree(programs: seq<seq<Call>>, run: seq<nat>)
    requires forall i, c :: 0 <= i < |programs| && c in programs[i] ==> WellFormed(c)
    requires Runs(Start(programs), run)
    ensures Finished(After(Start(programs), run)) || exists j :: CanStep(After(Start(programs), run), j)
  {
    var s := After(Start(programs), run);
    StartOk(programs);
    RunOk(Start(programs), run);
    if i :| 0 <= i < |s.threads| && !s.threads[i].code.Done? {
      var j := SomeHolderRuns(s, i);
    }
  }

  function Size(code: Code): nat {
    match code
    case Done => 0
    case Acquire(_, next) => 1 + Size(next)
    case Release(_, next) => 1 + Size(next)
    case Try(_, got, missed) => 1 + Size(got) + Size(missed)
    case Use(_, next) => 1 + Size(next)
  }

  function Work(threads: seq<Thread>): nat {
    if threads == [] then 0 else Work(threads[..|threads| - 1]) + Size(threads[|threads| - 1].code)
  }

  lemma {:induction false} WorkShrinks(threads: seq<Thread>, i: nat, t: Thread)
    requires i < |threads| && Size(t.code) < Size(threads[i].code)
    ensures Work(threads[i := t]) < Work(threads)
  {
    var n := |threads| - 1;
    if i < n {
      WorkShrinks(threads[..n], i, t);
      assert threads[i := t][..n] == threads[..n][i := t];
    } else {
      assert threads[i := t][..n] == threads[..n];
    }
  }

  lemma NoneHeld(s: State, l: Lock)
    requires Inv(s) && Finished(s)
    ensures l !in s.owner
  {
    forall i | 0 <= i < |s.threads| ensures s.threads[i].held == {} {
      assert Ordered(s.threads[i].code, s.threads[i].held);
    }
  }

  /** Every run is finite, and when no thread can go on all are finished and no lock is held. */
  lemma {:induction false} RunsToCompletion(s: State, run: seq<nat>)
    requires Inv(s) && Runs(s, run)
    ensures |run| + Work(After(s, run).threads) <= Work(s.threads)
    ensures (forall j :: !CanStep(After(s, run), j)) ==> Finished(After(s, run)) && After(s, run).owner == map[]
    decreases |run|
  {
    if run != [] {
      var s' := Step(s, run[0]);
      StepOk(s, run[0]);
      WorkShrinks(s.threads, run[0], s'.threads[run[0]]);
      assert s'.threads == s.threads[run[0] := s'.threads[run[0]]];
      RunsToCompletion(s', run[1..]);
    } else if forall j :: !CanStep(s, j) {
      forall i | 0 <= i < |s.threads| ensures s.threads[i].code.Done? {
        if !s.threads[i].code.Done? { var j := SomeHolderRuns(s, i); }
      }
      forall l ensures l !in s.owner {
        NoneHeld(s, l);
      }
      assert s.owner == map[];
    }
  }
}
