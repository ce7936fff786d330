/**
 The wakeup protocol cannot get stuck.  From every reachable state a CPU can leave whatever it is doing with interrupts
 disabled: __schedule, the IPI handler, or a try_to_wake_up that spins on another CPU which in turn waits for a pi_lock.
 */
module WakeProgress {
  import opened WakeProtocol
  import opened WakeInvariant
  import opened WakeSafety

  // A wakeup can be named that has to stay where it is while the others move on; Null names none.

  predicate Owes(s: State, k: Link) {
    k.To? ==> k.tid < |s.tasks| && WakeOwed(s.tasks[k.tid].pi)
  }

  /** A run in which the named wakeup is never marked and never ends. */
  predicate Owing(s: State, run: seq<Action>, k: Link)
    decreases |run|
  {
    Owes(s, k) && (run == [] || (Enabled(s, run[0]) && Owing(Apply(s, run[0]), run[1..], k)))
  }

  lemma {:induction false} OwingRuns(s: State, run: seq<Action>, k: Link)
    requires Owing(s, run, k)
    ensures Runs(s, run) && Owes(After(s, run), k)
    decreases |run|
  {
    if run != [] { OwingRuns(Apply(s, run[0]), run[1..], k); }
  }

  ghost predicate LeadsBy(s: State, run: seq<Action>, s': State, k: Link) {
    Owing(s, run, k) && Runs(s, run) && After(s, run) == s'
  }

  /** Some run leads from s to s'. */
  ghost predicate Leads(s: State, s': State, k: Link) {
    exists run: seq<Action> :: LeadsBy(s, run, s', k)
  }

  lemma {:induction false} Joined(s: State, run: seq<Action>, more: seq<Action>, k: Link)
    requires Owing(s, run, k) && Runs(s, run) && Owing(After(s, run), more, k) && Runs(After(s, run), more)
    ensures Owing(s, run + more, k) && Runs(s, run + more) && After(s, run + more) == After(After(s, run), more)
    decreases |run|
  {
    hide Enabled, Apply, Owes;
    if run == [] {
      assert run + more == more;
    } else {
      assert (run + more)[1..] == run[1..] + more;
      Joined(Apply(s, run[0]), run[1..], more, k);
    }
  }

  lemma Then(s: State, t: State, u: State, k: Link)
    requires Leads(s, t, k) && Leads(t, u, k)
    ensures Leads(s, u, k)
  {
    var run: seq<Action> :| LeadsBy(s, run, t, k);
    var more: seq<Action> :| LeadsBy(t, more, u, k);
    Joined(s, run, more, k);
    assert LeadsBy(s, run + more, u, k);
  }

  lemma Here(s: State, k: Link)
    requires Owes(s, k)
    ensures Leads(s, s, k)
  {
    assert LeadsBy(s, [], s, k);
  }

  lemma One(s: State, a: Action, k: Link)
    requires Inv(s) && Enabled(s, a) && Owes(s, k) && Owes(Apply(s, a), k)
    ensures Inv(Apply(s, a)) && Leads(s, Apply(s, a), k)
  {
    StepOk(s, a);
    hide Inv, Owes, Apply, Enabled;
    var s' := Apply(s, a);
    assert [a][1..] == [] && Owing(s', [], k) && Runs(s', []) && After(s', []) == s';
    assert LeadsBy(s, [a], Apply(s, a), k);
  }

  // ---------------------------------------------------------------- what one CPU does on its own

  predicate SameButOnCpu(t: Task, t': Task) {
    t' == t.(onCpu := t'.onCpu)
  }

  predicate LocalTask(t: Task, t': Task, c: Cpu) {
    && t'.pi == t.pi && t'.waker == t.waker && t'.cpu == t.cpu
    && (t.cpu != c ==> t' == t)
    && (!t.state.Waking? ==> SameButOnCpu(t, t'))
  }

  /** Only CPU c and the tasks on it notice, no wakeup goes on and no task that is not on a wake list changes its state. */
  predicate Local(s: State, s': State, c: Cpu) {
    && |s'.tasks| == |s.tasks| && |s'.rqs| == |s.rqs| && c < |s.rqs|
    && (forall d: Cpu :: d < |s.rqs| && d != c ==> s'.rqs[d] == s.rqs[d])
    && s'.rqs[c].waking == s.rqs[c].waking
    && (forall q: Tid :: q < |s.tasks| ==> LocalTask(s.tasks[q], s'.tasks[q], c))
  }

  lemma LocalTwice(s: State, t: State, u: State, c: Cpu)
    requires Local(s, t, c) && Local(t, u, c)
    ensures Local(s, u, c)
  {
    forall q: Tid | q < |s.tasks| ensures LocalTask(s.tasks[q], u.tasks[q], c) {
      assert LocalTask(s.tasks[q], t.tasks[q], c) && LocalTask(t.tasks[q], u.tasks[q], c);
    }
  }

  ghost predicate Went(s: State, s': State, c: Cpu, k: Link) {
    Inv(s') && Leads(s, s', k) && Local(s, s', c) && Owes(s', k)
  }

  lemma WentTwice(s: State, t: State, u: State, c: Cpu, k: Link)
    requires Went(s, t, c, k) && Went(t, u, c, k)
    ensures Went(s, u, c, k)
  {
    hide Local, Inv, Owes, Leads;
    LocalTwice(s, t, u, c);
    Then(s, t, u, k);
  }

  lemma Go(s: State, a: Action, c: Cpu, k: Link)
    requires Inv(s) && Enabled(s, a) && Owes(s, k) && Local(s, Apply(s, a), c)
    ensures Went(s, Apply(s, a), c, k)
  {
    hide Inv, Enabled, Apply;
    One(s, a, k);
  }

  lemma Unlocks(s: State, c: Cpu, k: Link) returns (s': State)
    requires Inv(s) && Owes(s, k) && c < |s.rqs| && s.rqs[c].pc.Unlocking?
    ensures Went(s, s', c, k) && IrqsOn(s', c) && s'.rqs[c].lock.Nobody? && s'.rqs[c].curr == s.rqs[c].curr
  {
    s' := DoSchedUnlock(s, c);
    assert RunOk(s, c);
    Go(s, Scheduling(SchedUnlock(c)), c, k);
  }

  lemma Finishes(s: State, c: Cpu, k: Link) returns (s': State)
    requires Inv(s) && Owes(s, k) && c < |s.rqs| && s.rqs[c].pc.Switched?
    ensures Went(s, s', c, k) && IrqsOn(s', c) && s'.rqs[c].lock.Nobody? && s'.rqs[c].curr == s.rqs[c].curr
    ensures s.rqs[c].pc.prev < |s'.tasks| && !s'.tasks[s.rqs[c].pc.prev].onCpu
  {
    assert RunOk(s, c);
    var p := s.rqs[c].pc.prev;
    var t := DoSchedFinish(s, c);
    Go(s, Scheduling(SchedFinish(c)), c, k);
    s' := Unlocks(t, c, k);
    WentTwice(s, t, s', c, k);
    assert RunOk(s', c) && TaskOk(s', p);
  }

  /** __schedule from the decision on, switching to the given task. */
  lemma Picks(s: State, c: Cpu, next: Tid, k: Link) returns (s': State)
    requires Inv(s) && Owes(s, k) && CanSchedPick(s, c, next)
    ensures Went(s, s', c, k) && IrqsOn(s', c) && s'.rqs[c].lock.Nobody? && s'.rqs[c].curr == next
    ensures next != s.rqs[c].curr ==> s.rqs[c].curr < |s'.tasks| && !s'.tasks[s.rqs[c].curr].onCpu
  {
    assert RunOk(s, c) && TaskOk(s, next);
    var t := DoSchedPick(s, c, next);
    Go(s, Scheduling(SchedPick(c, next)), c, k);
    if next == s.rqs[c].curr {
      s' := Unlocks(t, c, k);
    } else {
      s' := Finishes(t, c, k);
    }
    WentTwice(s, t, s', c, k);
  }

  /** Some task can always be picked. */
  lemma SomeNext(s: State, c: Cpu) returns (next: Tid)
    requires Inv(s) && c < |s.rqs| && s.rqs[c].pc.Decided?
    ensures CanSchedPick(s, c, next)
  {
    assert RunOk(s, c);
    if s.rqs[c].queue == {} {
      next := c;
    } else {
      next :| next in s.rqs[c].queue;
    }
  }

  lemma Drains(s: State, c: Cpu, k: Link) returns (s': State)
    requires Inv(s) && Owes(s, k) && c < |s.rqs| && s.rqs[c].handler.Draining?
    ensures Went(s, s', c, k) && IrqsOn(s', c) && s'.rqs[c].lock.Nobody? && s'.rqs[c].curr == s.rqs[c].curr
    decreases |s.rqs[c].drained|
  {
    if s.rqs[c].drained == [] {
      DrainLast(s, c);
      assert RunOk(s, c);
      s' := DoIpiUnlock(s, c);
      Go(s, Interrupts(IpiUnlock(c)), c, k);
    } else {
      var t := Activates(s, c, k);
      s' := Drains(t, c, k);
      hide Inv, Leads, Owes, Local;
      WentTwice(s, t, s', c, k);
    }
  }

  lemma Activates(s: State, c: Cpu, k: Link) returns (t: State)
    requires Inv(s) && Owes(s, k) && c < |s.rqs| && s.rqs[c].handler.Draining? && s.rqs[c].drained != []
    ensures Went(s, t, c, k) && t.rqs[c].handler.Draining? && |t.rqs[c].drained| < |s.rqs[c].drained|
    ensures t.rqs[c].curr == s.rqs[c].curr
  {
    DrainOne(s, c);
    assert ListOk(s, c);
    assert Listed(s, s.rqs[c].drained[0], c);
    t := DoIpiActivate(s, c);
    DrainLocal(s, c);
    hide Inv, ListOk, Local;
    Go(s, Interrupts(IpiActivate(c)), c, k);
  }

  lemma DrainLocal(s: State, c: Cpu)
    requires CanIpiActivate(s, c) && Listed(s, s.rqs[c].handler.list.tid, c)
    ensures Local(s, DoIpiActivate(s, c), c)
  {
  }

  /** Whoever holds a runqueue lock can drop it; if nobody does nothing happens. */
  lemma FreesLock(s: State, c: Cpu, k: Link) returns (s': State)
    requires Inv(s) && Owes(s, k) && c < |s.rqs|
    ensures Went(s, s', c, k) && s'.rqs[c].lock.Nobody?
    ensures s.rqs[c].lock.Nobody? ==> s' == s
    ensures !s.rqs[c].lock.Nobody? ==> IrqsOn(s', c)
    ensures !s.rqs[c].lock.BySchedule? ==> s'.rqs[c].pc == s.rqs[c].pc && s'.rqs[c].curr == s.rqs[c].curr
  {
    assert RunOk(s, c);
    if s.rqs[c].lock.Nobody? {
      s' := s;
      Here(s, k);
    } else if s.rqs[c].lock.ByIpi? {
      s' := Drains(s, c, k);
    } else if s.rqs[c].pc.Unlocking? {
      s' := Unlocks(s, c, k);
    } else if s.rqs[c].pc.Switched? {
      s' := Finishes(s, c, k);
    } else if s.rqs[c].pc.Decided? {
      var next := SomeNext(s, c);
      s' := Picks(s, c, next, k);
    } else {
      var t := Preempts(s, c, k);
      var next := SomeNext(t, c);
      s' := Picks(t, c, next, k);
      WentTwice(s, t, s', c, k);
    }
  }

  /** A decision that takes nobody off the queue. */
  lemma Preempts(s: State, c: Cpu, k: Link) returns (t: State)
    requires Inv(s) && Owes(s, k) && c < |s.rqs| && s.rqs[c].pc.Locked?
    ensures Went(s, t, c, k) && t == s.SetRq(c, s.rqs[c].(pc := Decided))
  {
    assert RunOk(s, c);
    t := DoSchedDecide(s, c, true, false);
    Go(s, Scheduling(SchedDecide(c, true, false)), c, k);
  }

  // ---------------------------------------------------------------- a wakeup that has marked its task

  predicate CalmRq(r: Rq, r': Rq) {
    r'.pc == r.pc && r'.lock == r.lock && r'.handler == r.handler && r'.curr == r.curr
    && (r'.waking == r.waking || r'.waking.Null?)
  }

  /** No task but q changes, and no CPU notices more than a longer queue, its wake list or the end of the wakeup. */
  predicate OnlyWake(s: State, s': State, q: Tid) {
    && |s'.tasks| == |s.tasks| && |s'.rqs| == |s.rqs|
    && (forall t: Tid :: t < |s.tasks| && t != q ==> s'.tasks[t] == s.tasks[t])
    && (forall d: Cpu :: d < |s.rqs| ==> CalmRq(s.rqs[d], s'.rqs[d]))
  }

  ghost predicate Woke(s: State, s': State, q: Tid, k: Link) {
    Inv(s') && Leads(s, s', k) && OnlyWake(s, s', q) && Owes(s', k)
  }

  lemma WokeTwice(s: State, t: State, u: State, q: Tid, k: Link)
    requires Woke(s, t, q, k) && Woke(t, u, q, k)
    ensures Woke(s, u, q, k)
  {
    hide Inv, Owes, Leads;
    Then(s, t, u, k);
  }

  lemma Wake(s: State, a: Action, q: Tid, k: Link)
    requires Inv(s) && Enabled(s, a) && Owes(s, k) && k != To(q) && OnlyWake(s, Apply(s, a), q)
    ensures Woke(s, Apply(s, a), q, k)
  {
    hide Inv, Enabled, Apply;
    One(s, a, k);
  }

  /** What a wakeup that is under way tells about its task and its CPU. */
  lemma WakerIs(s: State, q: Tid)
    requires Inv(s) && q < |s.tasks| && Held(s.tasks[q].pi)
    ensures var t := s.tasks[q];
            && t.waker < |s.rqs| && s.rqs[t.waker].waking == To(q)
            && s.rqs[t.waker].pc.Out? && s.rqs[t.waker].handler.Quiet? && s.rqs[t.waker].lock.Nobody?
            && t.cpu < |s.rqs| && t.allowed != {} && (forall c :: c in t.allowed ==> c < |s.rqs|)
            && (t.pi.Placed? || t.pi.Pushing? || t.pi.Linked? ==> t.pi.dest == t.cpu)
            && (t.pi.Kick? ==> t.pi.dest < |s.rqs|) && (t.pi.Remote? ==> t.pi.rq < |s.rqs|)
  {
    assert TaskOk(s, q) && RunOk(s, s.tasks[q].waker);
  }

  lemma Releases(s: State, q: Tid, k: Link) returns (s': State)
    requires Inv(s) && Owes(s, k) && k != To(q) && q < |s.tasks| && s.tasks[q].pi.Finished?
    ensures Woke(s, s', q, k) && s'.tasks[q].pi.PiFree?
  {
    WakerIs(s, q);
    s' := DoTtwuUnlock(s, q);
    Wake(s, Wakes(TtwuUnlock(q)), q, k);
  }

  lemma Kicks(s: State, q: Tid, k: Link) returns (s': State)
    requires Inv(s) && Owes(s, k) && k != To(q) && q < |s.tasks| && (s.tasks[q].pi.Kick? || s.tasks[q].pi.Finished?)
    ensures Woke(s, s', q, k) && s'.tasks[q].pi.PiFree?
  {
    if s.tasks[q].pi.Finished? {
      s' := Releases(s, q, k);
    } else {
      WakerIs(s, q);
      var t := DoQueueSendIpi(s, q);
      Wake(s, Queues(QueueSendIpi(q)), q, k);
      s' := Releases(t, q, k);
      WokeTwice(s, t, s', q, k);
    }
  }

  /** The cmpxchg succeeds if nobody has been faster. */
  lemma Swaps(s: State, q: Tid, k: Link) returns (s': State)
    requires Inv(s) && Owes(s, k) && k != To(q) && q < |s.tasks| && s.tasks[q].pi.Linked?
    requires s.tasks[q].pi.dest < |s.rqs| && s.tasks[q].pi.seen == s.rqs[s.tasks[q].pi.dest].wakeList
    ensures Woke(s, s', q, k) && s'.tasks[q].pi.PiFree?
  {
    var t := DoQueueCmpxchg(s, q);
    Wake(s, Queues(QueueCmpxchg(q)), q, k);
    s' := Kicks(t, q, k);
    WokeTwice(s, t, s', q, k);
  }

  lemma Links(s: State, q: Tid, k: Link) returns (t: State)
    requires Inv(s) && Owes(s, k) && k != To(q) && q < |s.tasks| && s.tasks[q].pi.Pushing?
    ensures Woke(s, t, q, k) && t.tasks[q].pi == Linked(s.tasks[q].pi.dest, s.tasks[q].pi.next) && t.rqs == s.rqs
  {
    t := DoQueueStoreEntry(s, q);
    Wake(s, Queues(QueueStoreEntry(q)), q, k);
  }

  /** A failed cmpxchg is repeated with the head it found. */
  lemma Pushes(s: State, q: Tid, k: Link) returns (s': State)
    requires Inv(s) && Owes(s, k) && k != To(q) && q < |s.tasks| && (s.tasks[q].pi.Pushing? || s.tasks[q].pi.Linked?)
    ensures Woke(s, s', q, k) && s'.tasks[q].pi.PiFree?
  {
    WakerIs(s, q);
    if s.tasks[q].pi.Pushing? {
      var t := Links(s, q, k);
      if t.tasks[q].pi.seen == t.rqs[t.tasks[q].pi.dest].wakeList {
        s' := Swaps(t, q, k);
      } else {
        s' := SwapsAgain(t, q, k);
      }
      WokeTwice(s, t, s', q, k);
    } else if s.tasks[q].pi.seen == s.rqs[s.tasks[q].pi.dest].wakeList {
      s' := Swaps(s, q, k);
    } else {
      s' := SwapsAgain(s, q, k);
    }
  }

  lemma SwapsAgain(s: State, q: Tid, k: Link) returns (s': State)
    requires Inv(s) && Owes(s, k) && k != To(q) && q < |s.tasks| && s.tasks[q].pi.Linked?
    requires s.tasks[q].pi.dest < |s.rqs| && s.tasks[q].pi.seen != s.rqs[s.tasks[q].pi.dest].wakeList
    ensures Woke(s, s', q, k) && s'.tasks[q].pi.PiFree?
  {
    var t := DoQueueCmpxchg(s, q);
    Wake(s, Queues(QueueCmpxchg(q)), q, k);
    var u := Links(t, q, k);
    WokeTwice(s, t, u, q, k);
    s' := Swaps(u, q, k);
    WokeTwice(s, u, s', q, k);
  }

  /** Neither the local nor the remote queueing waits for a lock that anybody else holds. */
  lemma Queued(s: State, q: Tid, k: Link) returns (s': State)
    requires Inv(s) && Owes(s, k) && k != To(q) && q < |s.tasks| && s.tasks[q].pi.Placed?
    ensures Woke(s, s', q, k) && s'.tasks[q].pi.PiFree?
  {
    WakerIs(s, q);
    var t: State;
    if s.tasks[q].pi.dest == s.tasks[q].waker {
      t := DoQueueLocal(s, q);
      Wake(s, Queues(QueueLocal(q)), q, k);
      s' := Releases(t, q, k);
    } else {
      t := DoQueueReadHead(s, q);
      Wake(s, Queues(QueueReadHead(q)), q, k);
      s' := Pushes(t, q, k);
    }
    WokeTwice(s, t, s', q, k);
  }

  /** Once the task is marked nothing can hold the wakeup up. */
  lemma Carries(s: State, q: Tid, k: Link) returns (s': State)
    requires Inv(s) && Owes(s, k) && k != To(q) && q < |s.tasks| && Held(s.tasks[q].pi) && !WakeOwed(s.tasks[q].pi)
    ensures Woke(s, s', q, k) && s'.tasks[q].pi.PiFree?
  {
    if s.tasks[q].pi.Marked? {
      WakerIs(s, q);
      var dest :| dest in s.tasks[q].allowed;
      var t := DoTtwuPlace(s, q, dest);
      Wake(s, Wakes(TtwuPlace(q, dest)), q, k);
      s' := Queued(t, q, k);
      WokeTwice(s, t, s', q, k);
    } else if s.tasks[q].pi.Placed? {
      s' := Queued(s, q, k);
    } else if s.tasks[q].pi.Pushing? || s.tasks[q].pi.Linked? {
      s' := Pushes(s, q, k);
    } else {
      s' := Kicks(s, q, k);
    }
  }

  // ---------------------------------------------------------------- a wakeup that has not marked its task

  /** __schedule is not between taking and dropping the runqueue lock. */
  predicate Waits(pc: SchedPc) {
    pc.Out? || pc.WaitPi? || pc.HavePi? || pc.Balancing?
  }

  /** What a CPU that holds no runqueue lock for __schedule sees of steps made elsewhere. */
  predicate Undisturbed(r: Rq, r': Rq) {
    && (Waits(r.pc) ==> r'.pc == r.pc && r'.curr == r.curr)
    && (r.handler.Quiet? ==> r'.handler.Quiet?)
    && (r'.waking == r.waking || r'.waking.Null?)
    && (r'.pc.WaitPi? ==> r'.pc == r.pc)
  }

  predicate CalmTask(t: Task, t': Task) {
    t'.pi == t.pi && t'.waker == t.waker && t'.cpu == t.cpu && (!t.state.Waking? ==> SameButOnCpu(t, t'))
  }

  /** The wakeup of q goes on while other CPUs drop runqueue locks. */
  predicate Calm(s: State, s': State, q: Tid) {
    && |s'.tasks| == |s.tasks| && |s'.rqs| == |s.rqs|
    && (forall t: Tid :: t < |s.tasks| && t != q ==> CalmTask(s.tasks[t], s'.tasks[t]))
    && (forall d: Cpu :: d < |s.rqs| ==> Undisturbed(s.rqs[d], s'.rqs[d]))
  }

  lemma CalmTwice(s: State, t: State, u: State, q: Tid)
    requires Calm(s, t, q) && Calm(t, u, q)
    ensures Calm(s, u, q)
  {
    forall x: Tid | x < |s.tasks| && x != q ensures CalmTask(s.tasks[x], u.tasks[x]) {
      assert CalmTask(s.tasks[x], t.tasks[x]) && CalmTask(t.tasks[x], u.tasks[x]);
    }
    forall d: Cpu | d < |s.rqs| ensures Undisturbed(s.rqs[d], u.rqs[d]) {
      assert Undisturbed(s.rqs[d], t.rqs[d]) && Undisturbed(t.rqs[d], u.rqs[d]);
    }
  }

  ghost predicate Moves(s: State, s': State, q: Tid, k: Link) {
    Inv(s') && Leads(s, s', k) && Calm(s, s', q) && Owes(s', k)
  }

  lemma MovesTwice(s: State, t: State, u: State, q: Tid, k: Link)
    requires Moves(s, t, q, k) && Moves(t, u, q, k)
    ensures Moves(s, u, q, k)
  {
    hide Inv, Owes, Leads, Calm;
    CalmTwice(s, t, u, q);
    Then(s, t, u, k);
  }

  lemma WokeMoves(s: State, s': State, q: Tid, k: Link)
    requires Woke(s, s', q, k)
    ensures Moves(s, s', q, k)
  {
    hide Inv, Owes, Leads;
    forall d: Cpu | d < |s.rqs| ensures Undisturbed(s.rqs[d], s'.rqs[d]) { assert CalmRq(s.rqs[d], s'.rqs[d]); }
  }

  /** Waiting for a runqueue lock ends. */
  lemma GetsLock(s: State, c: Cpu, q: Tid, k: Link) returns (s': State)
    requires Inv(s) && Owes(s, k) && c < |s.rqs| && q < |s.tasks|
    ensures Moves(s, s', q, k) && s'.rqs[c].lock.Nobody?
    ensures CalmTask(s.tasks[q], s'.tasks[q])
  {
    s' := FreesLock(s, c, k);
    assert RunOk(s, c) && RunOk(s', c);
    hide Inv, Owes, Leads;
    forall t: Tid | t < |s.tasks| ensures CalmTask(s.tasks[t], s'.tasks[t]) {
      assert LocalTask(s.tasks[t], s'.tasks[t], c);
    }
    assert Undisturbed(s.rqs[c], s'.rqs[c]);
  }

  /** The task is still where its runqueue was read, or it is followed. */
  lemma Remotes(s: State, q: Tid, k: Link) returns (s': State)
    requires Inv(s) && Owes(s, k) && k != To(q) && q < |s.tasks| && s.tasks[q].pi == Remote(s.tasks[q].cpu)
    ensures Moves(s, s', q, k) && (s'.tasks[q].pi.Finished? || s'.tasks[q].pi.Spin?)
    ensures s'.tasks[q].cpu == s.tasks[q].cpu
  {
    WakerIs(s, q);
    var t := GetsLock(s, s.tasks[q].cpu, q, k);
    assert CanTtwuRemote(t, q);
    s' := DoTtwuRemote(t, q);
    Wake(t, Wakes(TtwuRemote(q)), q, k);
    WokeMoves(t, s', q, k);
    MovesTwice(s, t, s', q, k);
  }

  lemma ReadsRq(s: State, q: Tid, k: Link) returns (s': State)
    requires Inv(s) && Owes(s, k) && k != To(q) && q < |s.tasks| && s.tasks[q].pi.SawOnRq?
    ensures Moves(s, s', q, k) && (s'.tasks[q].pi.Finished? || s'.tasks[q].pi.Spin?)
    ensures s'.tasks[q].cpu == s.tasks[q].cpu
  {
    var t := DoTtwuReadRq(s, q);
    Wake(s, Wakes(TtwuReadRq(q)), q, k);
    WokeMoves(s, t, q, k);
    s' := Remotes(t, q, k);
    MovesTwice(s, t, s', q, k);
  }

  lemma LateRemotes(s: State, q: Tid, k: Link) returns (s': State)
    requires Inv(s) && Owes(s, k) && k != To(q) && q < |s.tasks| && s.tasks[q].pi.Remote?
    ensures Moves(s, s', q, k) && (s'.tasks[q].pi.Finished? || s'.tasks[q].pi.Spin?)
    ensures s'.tasks[q].cpu == s.tasks[q].cpu
  {
    if s.tasks[q].pi.rq == s.tasks[q].cpu {
      s' := Remotes(s, q, k);
    } else {
      WakerIs(s, q);
      var t := GetsLock(s, s.tasks[q].pi.rq, q, k);
      assert CanTtwuRemote(t, q);
      var u := DoTtwuRemote(t, q);
      Wake(t, Wakes(TtwuRemote(q)), q, k);
      WokeMoves(t, u, q, k);
      MovesTwice(s, t, u, q, k);
      s' := ReadsRq(u, q, k);
      MovesTwice(s, u, s', q, k);
    }
  }

  /** From the state test to the busy wait, or to the end if the task was still queued. */
  lemma ToSpin(s: State, q: Tid, k: Link) returns (s': State)
    requires Inv(s) && Owes(s, k) && k != To(q) && q < |s.tasks| && WakeOwed(s.tasks[q].pi)
    ensures Moves(s, s', q, k) && (s'.tasks[q].pi.Finished? || s'.tasks[q].pi.Spin?)
    ensures s'.tasks[q].cpu == s.tasks[q].cpu
  {
    if s.tasks[q].pi.Spin? {
      s' := s;
      Here(s, k);
    } else if s.tasks[q].pi.SawOnRq? {
      s' := ReadsRq(s, q, k);
    } else if s.tasks[q].pi.Remote? {
      s' := LateRemotes(s, q, k);
    } else {
      var t := DoTtwuReadOnRq(s, q);
      Wake(s, Wakes(TtwuReadOnRq(q)), q, k);
      WokeMoves(s, t, q, k);
      if t.tasks[q].pi.Spin? {
        s' := t;
      } else {
        s' := ReadsRq(t, q, k);
        MovesTwice(s, t, s', q, k);
      }
    }
  }

  lemma Ends(s: State, q: Tid, k: Link) returns (s': State)
    requires Inv(s) && Owes(s, k) && k != To(q) && q < |s.tasks| && Held(s.tasks[q].pi)
    requires !WakeOwed(s.tasks[q].pi) || (s.tasks[q].pi.Spin? && !s.tasks[q].onCpu)
    ensures Moves(s, s', q, k) && s'.tasks[q].pi.PiFree?
  {
    if s.tasks[q].pi.Spin? {
      var t := DoTtwuMark(s, q);
      Wake(s, Wakes(TtwuMark(q)), q, k);
      s' := Carries(t, q, k);
      WokeTwice(s, t, s', q, k);
    } else {
      s' := Carries(s, q, k);
    }
    WokeMoves(s, s', q, k);
  }

  /** The wakeup that try_to_wake_up_local waits for cannot itself be spinning: its task does not run. */
  lemma EndsForWorker(s: State, e: Cpu, k: Link) returns (s': State)
    requires Inv(s) && Owes(s, k) && e < |s.rqs| && s.rqs[e].pc.WaitPi? && k != To(s.rqs[e].pc.worker)
    requires s.rqs[e].pc.worker < |s.tasks| && Held(s.tasks[s.rqs[e].pc.worker].pi)
    ensures var w := s.rqs[e].pc.worker; Moves(s, s', w, k) && s'.tasks[w].pi.PiFree?
  {
    var w := s.rqs[e].pc.worker;
    var t := s;
    if WakeOwed(s.tasks[w].pi) {
      t := ToSpin(s, w, k);
    } else {
      Here(s, k);
    }
    assert Undisturbed(s.rqs[e], t.rqs[e]);
    assert RunOk(t, e) && TaskOk(t, w);
    s' := Ends(t, w, k);
    MovesTwice(s, t, s', w, k);
  }

  // ---------------------------------------------------------------- leaving the sections without interrupts

  predicate OuterRq(r: Rq, r': Rq) {
    && (r.pc.Out? ==> r'.pc.Out?)
    && (r.handler.Quiet? ==> r'.handler.Quiet?)
    && (r'.waking == r.waking || r'.waking.Null?)
    && (r'.pc.WaitPi? ==> r'.pc == r.pc)
  }

  /** No CPU enters a section or starts to wait for a pi_lock, and the named task keeps its place. */
  predicate Outer(s: State, s': State, k: Link) {
    && |s'.tasks| == |s.tasks| && |s'.rqs| == |s.rqs|
    && (k.To? ==> k.tid < |s.tasks| && SameButOnCpu(s.tasks[k.tid], s'.tasks[k.tid]))
    && (forall d: Cpu :: d < |s.rqs| ==> OuterRq(s.rqs[d], s'.rqs[d]))
  }

  ghost predicate Progress(s: State, s': State, k: Link) {
    Inv(s') && Leads(s, s', k) && Outer(s, s', k) && Owes(s', k)
  }

  lemma ProgressTwice(s: State, t: State, u: State, k: Link)
    requires Progress(s, t, k) && Progress(t, u, k)
    ensures Progress(s, u, k)
  {
    hide Inv, Owes, Leads;
    Then(s, t, u, k);
    forall d: Cpu | d < |s.rqs| ensures OuterRq(s.rqs[d], u.rqs[d]) {
      assert OuterRq(s.rqs[d], t.rqs[d]) && OuterRq(t.rqs[d], u.rqs[d]);
    }
  }

  /** The task of a wakeup that has not marked it is not marked. */
  lemma OwedNotWaking(s: State, k: Link)
    requires Inv(s) && Owes(s, k)
    ensures k.To? ==> !s.tasks[k.tid].state.Waking?
  {
    if k.To? { assert TaskOk(s, k.tid); }
  }

  lemma MovesOuter(s: State, s': State, q: Tid, k: Link)
    requires Inv(s) && Owes(s, k) && Moves(s, s', q, k) && k != To(q)
    ensures Progress(s, s', k)
  {
    OwedNotWaking(s, k);
    hide Inv, Leads;
    if k.To? { assert CalmTask(s.tasks[k.tid], s'.tasks[k.tid]); }
    forall d: Cpu | d < |s.rqs| ensures OuterRq(s.rqs[d], s'.rqs[d]) { assert Undisturbed(s.rqs[d], s'.rqs[d]); }
  }

  lemma WentOuter(s: State, s': State, c: Cpu, k: Link)
    requires Inv(s) && Owes(s, k) && Went(s, s', c, k) && OuterRq(s.rqs[c], s'.rqs[c])
    ensures Progress(s, s', k)
  {
    OwedNotWaking(s, k);
    hide Inv, Leads;
    if k.To? { assert LocalTask(s.tasks[k.tid], s'.tasks[k.tid], c); }
  }

  /** No CPU waits in try_to_wake_up_local for the named wakeup. */
  predicate NotAwaited(s: State, k: Link) {
    k.To? ==> forall d: Cpu :: d < |s.rqs| ==> s.rqs[d].pc != WaitPi(k.tid)
  }

  lemma StillNotAwaited(s: State, s': State, k: Link)
    requires Outer(s, s', k) && NotAwaited(s, k)
    ensures NotAwaited(s', k)
  {
    forall d: Cpu | d < |s'.rqs| ensures k.To? ==> s'.rqs[d].pc != WaitPi(k.tid) {
      assert OuterRq(s.rqs[d], s'.rqs[d]);
    }
  }

  /** A state from which CPU c has reached the decision of __schedule with the same current task. */
  ghost predicate Decides(s: State, s': State, c: Cpu, k: Link) {
    && Progress(s, s', k) && c < |s.rqs| && s'.rqs[c].pc.Decided? && s'.rqs[c].curr == s.rqs[c].curr
    && s.rqs[c].curr < |s.tasks| && SameButOnCpu(s.tasks[s.rqs[c].curr], s'.tasks[s.rqs[c].curr])
  }

  lemma Relocks(s: State, c: Cpu, k: Link) returns (s': State)
    requires Inv(s) && Owes(s, k) && c < |s.rqs| && s.rqs[c].pc.HavePi?
    ensures Decides(s, s', c, k)
  {
    assert RunOk(s, c);
    assert CanWakeWorkerRelock(s, c);
    s' := DoWakeWorkerRelock(s, c);
    RelockOuter(s, c, k);
    assert Apply(s, Scheduling(WakeWorkerRelock(c))) == s';
    hide Inv, DoWakeWorkerRelock, Outer;
    One(s, Scheduling(WakeWorkerRelock(c)), k);
  }

  lemma RelockOuter(s: State, c: Cpu, k: Link)
    requires CanWakeWorkerRelock(s, c) && RunOk(s, c) && Owes(s, k)
    ensures var s' := DoWakeWorkerRelock(s, c);
            && Outer(s, s', k) && Owes(s', k) && s'.rqs[c].pc.Decided? && s'.rqs[c].curr == s.rqs[c].curr
            && SameButOnCpu(s.tasks[s.rqs[c].curr], s'.tasks[s.rqs[c].curr])
  {
    var w := s.rqs[c].pc.worker;
    var s1 := s.SetRq(c, s.rqs[c].(lock := BySchedule, pc := Decided)).SetTask(w, s.tasks[w].(pi := PiFree));
    var s' := DoWakeWorkerRelock(s, c);
    WakeLocalOnly(s1, c, w);
    hide WakeLocal;
    forall d: Cpu | d < |s.rqs| ensures OuterRq(s.rqs[d], s'.rqs[d]) {
      if d != c { assert s'.rqs[d] == s.rqs[d]; }
    }
  }

  /** Waking a worker locally is nobody else's business. */
  lemma WakeLocalOnly(s: State, c: Cpu, w: Tid)
    requires w < |s.tasks| && c < |s.rqs|
    ensures var s' := WakeLocal(s, c, w);
            && |s'.tasks| == |s.tasks| && |s'.rqs| == |s.rqs|
            && (forall t: Tid :: t < |s.tasks| && t != w ==> s'.tasks[t] == s.tasks[t])
            && (forall d: Cpu :: d < |s.rqs| && d != c ==> s'.rqs[d] == s.rqs[d])
            && CalmRq(s.rqs[c], s'.rqs[c])
  {
  }

  lemma TakesPi(s: State, c: Cpu, k: Link) returns (s': State)
    requires Inv(s) && Owes(s, k) && CanWakeWorkerPi(s, c)
    ensures Decides(s, s', c, k)
  {
    assert RunOk(s, c);
    var t := DoWakeWorkerPi(s, c);
    One(s, Scheduling(WakeWorkerPi(c)), k);
    assert Outer(s, t, k) by {
      forall d: Cpu | d < |s.rqs| ensures OuterRq(s.rqs[d], t.rqs[d]) {
        if d != c { assert t.rqs[d] == s.rqs[d]; }
      }
    }
    s' := Relocks(t, c, k);
    hide Inv, Leads, Owes;
    ProgressTwice(s, t, s', k);
  }

  lemma WaitsForPi(s: State, c: Cpu, k: Link) returns (s': State)
    requires Inv(s) && Owes(s, k) && c < |s.rqs| && s.rqs[c].pc.WaitPi? && NotAwaited(s, k)
    ensures Decides(s, s', c, k)
  {
    var w, q := s.rqs[c].pc.worker, s.rqs[c].curr;
    assert RunOk(s, c) && TaskOk(s, w) && TaskOk(s, q);
    if s.tasks[w].pi.PiFree? {
      s' := TakesPi(s, c, k);
    } else {
      NotLocal(s, c);
      var t := EndsForWorker(s, c, k);
      assert Undisturbed(s.rqs[c], t.rqs[c]) && CalmTask(s.tasks[q], t.tasks[q]);
      MovesOuter(s, t, w, k);
      s' := TakesPi(t, c, k);
      hide Inv, Leads, Owes;
      ProgressTwice(s, t, s', k);
    }
  }

  /** Nobody else wakes the worker locally. */
  lemma NotLocal(s: State, c: Cpu)
    requires Inv(s) && c < |s.rqs| && s.rqs[c].pc.WaitPi?
    ensures s.rqs[c].pc.worker < |s.tasks| && !s.tasks[s.rqs[c].pc.worker].pi.LocalWake?
  {
    var w := s.rqs[c].pc.worker;
    assert RunOk(s, c) && TaskOk(s, w);
    assert s.tasks[w].pi.LocalWake? ==> RunOk(s, s.tasks[w].pi.rq);
  }

  /** From anywhere between taking the lock and the decision, waits for other locks included. */
  lemma ToDecision(s: State, c: Cpu, k: Link) returns (s': State)
    requires Inv(s) && Owes(s, k) && c < |s.rqs| && NotAwaited(s, k)
    requires !s.rqs[c].pc.Out? && !s.rqs[c].pc.Switched? && !s.rqs[c].pc.Unlocking?
    ensures Decides(s, s', c, k)
  {
    assert RunOk(s, c);
    match s.rqs[c].pc
    case Locked =>
      s' := Preempts(s, c, k);
      WentOuter(s, s', c, k);
    case WaitPi(w) => s' := WaitsForPi(s, c, k);
    case HavePi(w) => s' := Relocks(s, c, k);
    case Balancing =>
      s' := DoSchedRetake(s, c);
      Go(s, Scheduling(SchedRetake(c)), c, k);
      WentOuter(s, s', c, k);
    case Decided =>
      s' := s;
      Here(s, k);
  }

  /** A CPU that is inside __schedule and on its way off q gets there. */
  lemma SwitchesAway(s: State, q: Tid, k: Link) returns (s': State)
    requires Inv(s) && Owes(s, k) && NotAwaited(s, k) && q < |s.tasks| && s.tasks[q].pi.Spin?
    ensures Progress(s, s', k) && SameButOnCpu(s.tasks[q], s'.tasks[q]) && !s'.tasks[q].onCpu
  {
    assert TaskOk(s, q);
    var c := s.tasks[q].cpu;
    assert RunOk(s, c);
    if !s.tasks[q].onCpu {
      s' := s;
      Here(s, k);
    } else if s.rqs[c].pc.Switched? {
      s' := Finishes(s, c, k);
      assert LocalTask(s.tasks[q], s'.tasks[q], c);
      WentOuter(s, s', c, k);
    } else {
      var t := ToDecision(s, c, k);
      var next := SomeNext(t, c);
      assert RunOk(t, c) && next != q;
      s' := Picks(t, c, next, k);
      assert LocalTask(t.tasks[q], s'.tasks[q], c);
      assert TaskOk(t, q);
      WentOuter(t, s', c, k);
      hide Inv, Leads, Owes;
      ProgressTwice(s, t, s', k);
    }
  }

  /** Every try_to_wake_up can run to its end. */
  lemma EndsWake(s: State, q: Tid, k: Link) returns (s': State)
    requires Inv(s) && Owes(s, k) && NotAwaited(s, k) && k != To(q) && q < |s.tasks| && Held(s.tasks[q].pi)
    ensures Progress(s, s', k) && s'.tasks[q].pi.PiFree?
  {
    if WakeOwed(s.tasks[q].pi) {
      var t := ToSpin(s, q, k);
      MovesOuter(s, t, q, k);
      StillNotAwaited(s, t, k);
      var u := t;
      if t.tasks[q].pi.Spin? {
        u := SwitchesAway(t, q, k);
        ProgressTwice(s, t, u, k);
      }
      s' := Ends(u, q, k);
      MovesOuter(u, s', q, k);
      ProgressTwice(s, u, s', k);
    } else {
      s' := Ends(s, q, k);
      MovesOuter(s, s', q, k);
    }
  }

  lemma HandlesList(s: State, c: Cpu, k: Link) returns (s': State)
    requires Inv(s) && Owes(s, k) && c < |s.rqs| && s.rqs[c].handler.Have?
    ensures Went(s, s', c, k) && IrqsOn(s', c)
  {
    assert RunOk(s, c);
    var t := DoIpiLock(s, c);
    Go(s, Interrupts(IpiLock(c)), c, k);
    s' := Drains(t, c, k);
    hide Inv, Leads, Owes, Local;
    WentTwice(s, t, s', c, k);
  }

  lemma HandlesAll(s: State, c: Cpu, k: Link) returns (s': State)
    requires Inv(s) && Owes(s, k) && c < |s.rqs| && s.rqs[c].handler.Entered?
    ensures Went(s, s', c, k) && IrqsOn(s', c)
  {
    assert RunOk(s, c);
    s' := DoIpiXchg(s, c);
    Go(s, Interrupts(IpiXchg(c)), c, k);
    if !s'.rqs[c].handler.Quiet? {
      var t := s';
      s' := HandlesList(t, c, k);
      hide Inv, Leads, Owes, Local;
      WentTwice(s, t, s', c, k);
    }
  }

  /** The IPI handler runs to its end. */
  lemma Handles(s: State, c: Cpu, k: Link) returns (s': State)
    requires Inv(s) && Owes(s, k) && c < |s.rqs| && !s.rqs[c].handler.Quiet?
    ensures Progress(s, s', k) && IrqsOn(s', c)
  {
    if s.rqs[c].handler.Draining? {
      s' := Drains(s, c, k);
    } else if s.rqs[c].handler.Have? {
      s' := HandlesList(s, c, k);
    } else {
      s' := HandlesAll(s, c, k);
    }
    assert RunOk(s, c);
    WentOuter(s, s', c, k);
  }

  /** Whatever CPU c is doing with interrupts disabled, except for the named wakeup, it can come to the end of it. */
  lemma Settles(s: State, c: Cpu, k: Link) returns (s': State)
    requires Inv(s) && Owes(s, k) && NotAwaited(s, k) && c < |s.rqs| && (k.To? ==> s.tasks[k.tid].waker != c)
    ensures Progress(s, s', k) && IrqsOn(s', c)
  {
    assert RunOk(s, c);
    if !s.rqs[c].handler.Quiet? {
      s' := Handles(s, c, k);
    } else if s.rqs[c].waking.To? {
      var q := s.rqs[c].waking.tid;
      s' := EndsWake(s, q, k);
      assert RunOk(s', c) && OuterRq(s.rqs[c], s'.rqs[c]);
    } else if s.rqs[c].pc.Out? {
      s' := s;
      Here(s, k);
    } else if s.rqs[c].pc.Switched? || s.rqs[c].pc.Unlocking? {
      s' := FreesLock(s, c, k);
      WentOuter(s, s', c, k);
    } else {
      var t := ToDecision(s, c, k);
      assert RunOk(t, c);
      s' := FreesLock(t, c, k);
      WentOuter(t, s', c, k);
      ProgressTwice(s, t, s', k);
    }
  }

  // ---------------------------------------------------------------- no reachable state is stuck

  /** Whatever a CPU does with interrupts disabled in a reachable state, some run gets it out of there. */
  lemma CpuCanSettle(s: State, c: Cpu)
    requires Reachable(s) && c < |s.rqs|
    ensures exists run: seq<Action> :: Runs(s, run) && IrqsOn(After(s, run), c)
  {
    ReachableOk(s);
    var s' := Settles(s, c, Null);
    var run: seq<Action> :| LeadsBy(s, run, s', Null);
    assert IrqsOn(After(s, run), c);
  }

  /** Every try_to_wake_up that holds a pi_lock in a reachable state can finish and drop it. */
  lemma WakeCanFinish(s: State, p: Tid)
    requires Reachable(s) && p < |s.tasks| && Held(s.tasks[p].pi)
    ensures exists run: seq<Action> :: Runs(s, run) && PiFreeAfter(s, run, p)
  {
    ReachableOk(s);
    var s' := EndsWake(s, p, Null);
    var run: seq<Action> :| LeadsBy(s, run, s', Null);
    assert PiFreeAfter(s, run, p);
  }

  predicate PiFreeAfter(s: State, run: seq<Action>, p: Tid)
    requires Runs(s, run)
  {
    p < |After(s, run).tasks| && After(s, run).tasks[p].pi.PiFree?
  }

  /** The busy wait for on_cpu, under pi_lock and with interrupts disabled, can always end without the spinning CPU taking
      a step: not even a CPU that itself waits for a pi_lock in try_to_wake_up_local closes a circle. */
  lemma SpinCanEnd(s: State, p: Tid)
    requires Reachable(s) && p < |s.tasks| && s.tasks[p].pi.Spin?
    ensures exists run: seq<Action> :: Owing(s, run, To(p)) && Runs(s, run) && SpinOverAfter(s, run, p)
  {
    ReachableOk(s);
    assert TaskOk(s, p);
    var s' := s;
    if s.tasks[p].onCpu {
      forall d: Cpu | d < |s.rqs| ensures s.rqs[d].pc != WaitPi(p) { assert RunOk(s, d); }
      s' := SwitchesAway(s, p, To(p));
    } else {
      Here(s, To(p));
    }
    var run: seq<Action> :| LeadsBy(s, run, s', To(p));
    assert SpinOverAfter(s, run, p);
  }

  predicate SpinOverAfter(s: State, run: seq<Action>, p: Tid)
    requires Runs(s, run)
  {
    CanTtwuMark(After(s, run), p)
  }
}
