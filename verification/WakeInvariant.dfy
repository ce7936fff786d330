/** The invariant of the wakeup protocol: where a task can be, what each lock protects, and what a waker owes. */
module WakeInvariant {
  import opened WakeProtocol

  /** Between TASK_WAKING and the end of ttwu_queue the holder of pi_lock carries the task. */
  predicate Carried(pi: PiOp) {
    pi.Marked? || pi.Placed? || pi.Pushing? || pi.Linked?
  }

  /** The state test passed and the task has not been marked: the waker is bound to wake it. */
  predicate WakeOwed(pi: PiOp) {
    pi.Matched? || pi.SawOnRq? || pi.Remote? || pi.Spin?
  }

  /** A CPU is inside try_to_wake_up of the task. */
  predicate Held(pi: PiOp) {
    !pi.PiFree? && !pi.LocalWake?
  }

  predicate OnList(s: State, p: Tid, c: Cpu)
    requires c < |s.rqs|
  {
    p in s.rqs[c].pending || p in s.rqs[c].drained
  }

  /** Where the entry of list[i] has to point. */
  function NextLink(list: seq<Tid>, i: nat): Link {
    if i + 1 < |list| then To(list[i + 1]) else Null
  }

  /** `head` leads through the wake_entry pointers over exactly `list`. */
  predicate Chain(tasks: seq<Task>, head: Link, list: seq<Tid>) {
    && (forall i :: 0 <= i < |list| ==> list[i] < |tasks|)
    && head == (if list == [] then Null else To(list[0]))
    && (forall i :: 0 <= i < |list| ==> tasks[list[i]].wakeEntry == NextLink(list, i))
  }

  /** The list the IPI handler still has to activate. */
  function Taken(h: Handler): Link {
    match h
    case Have(list) => list
    case Draining(list) => list
    case _ => Null
  }

  predicate Distinct(list: seq<Tid>) {
    forall i, j :: 0 <= i < j < |list| ==> list[i] != list[j]
  }

  /** A task on a wake list of CPU c: nobody may touch its state, CPU or wake_entry until it is activated. */
  predicate Listed(s: State, p: Tid, c: Cpu) {
    && p < |s.tasks|
    && !s.Idle(p) && s.tasks[p].born
    && s.tasks[p].state.Waking?
    && s.tasks[p].cpu == c
    && !Carried(s.tasks[p].pi)
  }

  ghost predicate KickPending(s: State, c: Cpu) {
    exists p: Tid :: p < |s.tasks| && s.tasks[p].pi == Kick(c)
  }

  ghost predicate TaskOk(s: State, p: Tid)
    requires p < |s.tasks|
  {
    var t := s.tasks[p];
    && t.cpu < |s.rqs|
    && t.allowed != {} && (forall c :: c in t.allowed ==> c < |s.rqs|)
    && (Held(t.pi) ==> t.waker < |s.rqs| && s.rqs[t.waker].waking == To(p))
    && (s.Idle(p) ==> t.state.Running? && !t.onRq && t.pi.PiFree? && t.born && t.cpu == p && t.sleeper.Awake?)
    && (!t.born ==> t.state.Running? && !t.onRq && !t.onCpu && t.pi.PiFree? && t.sleeper.Awake?)
    && (t.onRq ==> p in s.rqs[t.cpu].queue)
    && (t.onCpu ==> s.rqs[t.cpu].curr == p || s.rqs[t.cpu].pc == Switched(p))
    && (t.born && !s.Idle(p) && !t.onRq ==> !t.state.Running?)
    && (t.state.Waking? ==> !t.onRq && !t.onCpu && (Carried(t.pi) <==> !OnList(s, p, t.cpu)))
    && (Carried(t.pi) ==> t.state.Waking?)
    && (WakeOwed(t.pi) ==> !t.state.Waking?)
    && (t.pi.Spin? ==> !t.onRq)
    && (t.pi.Placed? || t.pi.Pushing? || t.pi.Linked? ==> t.pi.dest == t.cpu)
    && (t.pi.Linked? ==> t.wakeEntry == t.pi.seen)
    && (t.pi.Kick? ==> t.pi.dest < |s.rqs|)
    && (t.pi.Remote? ==> t.pi.rq < |s.rqs|)
    && (t.pi.LocalWake? ==> t.pi.rq < |s.rqs| && s.rqs[t.pi.rq].pc == HavePi(p))
    && t.pushes == t.pops + (if OnList(s, p, t.cpu) then 1 else 0)
    && (!t.sleeper.Awake? ==> Normal(t.state) || t.state.Running? || t.state.Waking?)
    && (t.sleeper.MustSleep? && t.condition && Normal(t.state) ==> t.wakers > 0 || WakeOwed(t.pi))
  }

  predicate LockOk(r: Rq) {
    && (r.lock.BySchedule? <==> r.pc.Locked? || r.pc.Decided? || r.pc.Switched? || r.pc.Unlocking?)
    && (r.lock.ByIpi? <==> r.handler.Draining?)
  }

  /** A CPU that handles an IPI or holds a pi_lock has interrupts disabled and is outside __schedule. */
  predicate IrqsOk(s: State, c: Cpu)
    requires c < |s.rqs|
  {
    var r := s.rqs[c];
    && (!r.handler.Quiet? ==> r.pc.Out? && r.waking.Null?)
    && (r.waking.To? ==> r.pc.Out? && r.waking.tid < |s.tasks| && Held(s.tasks[r.waking.tid].pi)
                         && s.tasks[r.waking.tid].waker == c)
  }

  predicate WorkerOk(s: State, c: Cpu, w: Tid)
    requires c < |s.rqs|
  {
    && w < |s.tasks| && w != s.rqs[c].curr && !s.Idle(w) && s.tasks[w].born
    && s.tasks[w].cpu == c && s.tasks[w].bound && s.tasks[w].allowed == {c}
    && (s.rqs[c].pc.HavePi? ==> s.tasks[w].pi == LocalWake(c))
  }

  predicate RunOk(s: State, c: Cpu)
    requires c < |s.rqs|
  {
    var r := s.rqs[c];
    && LockOk(r) && IrqsOk(s, c)
    && r.curr < |s.tasks|
    && s.tasks[r.curr].cpu == c && s.tasks[r.curr].onCpu && s.tasks[r.curr].born
    && (!s.tasks[r.curr].onRq && !s.Idle(r.curr) ==> r.pc.Decided? || r.pc.WaitPi? || r.pc.HavePi? || r.pc.Balancing?)
    && (r.pc.Switched? ==> r.pc.prev < |s.tasks| && r.pc.prev != r.curr && s.tasks[r.pc.prev].cpu == c
                           && s.tasks[r.pc.prev].onCpu && s.tasks[r.pc.prev].born)
    && (r.pc.WaitPi? || r.pc.HavePi? ==> WorkerOk(s, c, r.pc.worker))
    && (forall p :: p in r.queue ==> p < |s.tasks| && !s.Idle(p) && s.tasks[p].born && s.tasks[p].onRq && s.tasks[p].cpu == c)
    && r.nrRunning == |r.queue|
  }

  ghost predicate ListOk(s: State, c: Cpu)
    requires c < |s.rqs|
  {
    var r := s.rqs[c];
    && Chain(s.tasks, r.wakeList, r.pending)
    && Chain(s.tasks, Taken(r.handler), r.drained)
    && (forall i :: 0 <= i < |r.pending| ==> Listed(s, r.pending[i], c))
    && (forall i :: 0 <= i < |r.drained| ==> Listed(s, r.drained[i], c))
    && Distinct(r.pending + r.drained)
    && (r.pending != [] ==> r.ipi || r.handler.Entered? || KickPending(s, c))
  }

  ghost predicate Inv(s: State) {
    && 0 < |s.rqs| <= |s.tasks|
    && (forall p: Tid :: p < |s.tasks| ==> TaskOk(s, p))
    && (forall c: Cpu :: c < |s.rqs| ==> RunOk(s, c))
    && (forall c: Cpu :: c < |s.rqs| ==> ListOk(s, c))
  }

  lemma InitOk(s: State)
    requires Init(s)
    ensures Inv(s)
  {
    forall p: Tid | p < |s.tasks| ensures TaskOk(s, p) {
      assert InitTask(s, p);
      if s.Idle(p) { assert s.rqs[s.tasks[p].cpu].curr == p; }
    }
    forall c: Cpu | c < |s.rqs| ensures RunOk(s, c) && ListOk(s, c) {
      assert InitTask(s, c);
    }
  }

  // ---------------------------------------------------------------- what a step on task p and CPU c leaves alone

  ghost predicate Differs(s: State, s': State, p: Tid, c: Cpu) {
    && p < |s.tasks| && c < |s.rqs| && |s'.tasks| == |s.tasks| && |s'.rqs| == |s.rqs|
    && (forall q: Tid :: q < |s.tasks| && q != p ==> s'.tasks[q] == s.tasks[q])
    && (forall d: Cpu :: d < |s.rqs| && d != c ==> s'.rqs[d] == s.rqs[d])
  }

  predicate SameLists(r: Rq, r': Rq) {
    r'.wakeList == r.wakeList && r'.pending == r.pending && r'.drained == r.drained
    && Taken(r'.handler) == Taken(r.handler)
  }

  /** An IPI that was on its way still is. */
  predicate StillComing(r: Rq, r': Rq) {
    r'.ipi || r'.handler.Entered? || (!r.ipi && !r.handler.Entered?)
  }

  lemma Unlisted(s: State, p: Tid)
    requires Inv(s) && p < |s.tasks|
    requires !s.tasks[p].state.Waking? || Carried(s.tasks[p].pi)
    ensures forall d: Cpu :: d < |s.rqs| ==> !OnList(s, p, d)
  {
    forall d: Cpu | d < |s.rqs| ensures !OnList(s, p, d) {
      assert ListOk(s, d);
    }
  }

  /** What the list invariants read of a task. */
  predicate SameForLists(t: Task, t': Task) {
    t'.state == t.state && t'.cpu == t.cpu && t'.wakeEntry == t.wakeEntry && t'.born == t.born
    && (Carried(t'.pi) ==> Carried(t.pi))
  }

  lemma ListsKept(s: State, s': State, p: Tid, c: Cpu)
    requires Inv(s) && Differs(s, s', p, c)
    requires (forall d: Cpu :: d < |s.rqs| ==> !OnList(s, p, d)) || SameForLists(s.tasks[p], s'.tasks[p])
    requires SameLists(s.rqs[c], s'.rqs[c]) && StillComing(s.rqs[c], s'.rqs[c])
    requires s.tasks[p].pi.Kick? ==> s'.tasks[p].pi == s.tasks[p].pi
    ensures forall d: Cpu :: d < |s'.rqs| ==> ListOk(s', d)
  {
    forall d: Cpu | d < |s'.rqs| ensures ListOk(s', d) {
      ListKept(s, s', p, d);
    }
  }

  lemma ChainKept(tasks: seq<Task>, tasks': seq<Task>, head: Link, list: seq<Tid>)
    requires Chain(tasks, head, list) && |tasks'| == |tasks|
    requires forall i :: 0 <= i < |list| ==> tasks'[list[i]].wakeEntry == tasks[list[i]].wakeEntry
    ensures Chain(tasks', head, list)
  {
  }

  lemma ListKept(s: State, s': State, p: Tid, d: Cpu)
    requires Inv(s) && d < |s.rqs| && p < |s.tasks| && |s'.tasks| == |s.tasks| && |s'.rqs| == |s.rqs|
    requires forall q: Tid :: q < |s.tasks| && q != p ==> s'.tasks[q] == s.tasks[q]
    requires SameLists(s.rqs[d], s'.rqs[d]) && StillComing(s.rqs[d], s'.rqs[d])
    requires !OnList(s, p, d) || SameForLists(s.tasks[p], s'.tasks[p])
    requires s.tasks[p].pi == Kick(d) ==> s'.tasks[p].pi == s.tasks[p].pi || s'.rqs[d].ipi
    ensures ListOk(s', d)
  {
    var r, r' := s.rqs[d], s'.rqs[d];
    assert ListOk(s, d);
    forall i | 0 <= i < |r.pending|
      ensures Listed(s', r.pending[i], d)
      ensures s'.tasks[r.pending[i]].wakeEntry == s.tasks[r.pending[i]].wakeEntry
    {
      assert Listed(s, r.pending[i], d);
      assert r.pending[i] != p || OnList(s, p, d);
    }
    forall i | 0 <= i < |r.drained|
      ensures Listed(s', r.drained[i], d)
      ensures s'.tasks[r.drained[i]].wakeEntry == s.tasks[r.drained[i]].wakeEntry
    {
      assert Listed(s, r.drained[i], d);
      assert r.drained[i] != p || OnList(s, p, d);
    }
    ChainKept(s.tasks, s'.tasks, r.wakeList, r.pending);
    ChainKept(s.tasks, s'.tasks, Taken(r.handler), r.drained);
    if KickPending(s, d) && !s'.rqs[d].ipi {
      var q: Tid :| q < |s.tasks| && s.tasks[q].pi == Kick(d);
      assert s'.tasks[q].pi == Kick(d);
    }
  }

  lemma ListedOnce(s: State, p: Tid, c: Cpu)
    requires Inv(s) && c < |s.rqs| && OnList(s, p, c)
    ensures Listed(s, p, c)
    ensures forall d: Cpu :: d < |s.rqs| && d != c ==> !OnList(s, p, d)
  {
    assert ListOk(s, c);
    forall d: Cpu | d < |s.rqs| && d != c ensures !OnList(s, p, d) {
      assert ListOk(s, d);
    }
  }

  /** The changes of CPU c's runqueue that no task but p can notice. */
  ghost predicate NoticedBy(s: State, s': State, p: Tid, c: Cpu)
    requires Differs(s, s', p, c)
  {
    var r, r' := s.rqs[c], s'.rqs[c];
    && (forall q :: q in r.queue && q != p ==> q in r'.queue)
    && (r.curr == p || r'.curr == r.curr || r'.pc == Switched(r.curr))
    && (r.pc.Switched? && r.pc.prev != p ==> r'.pc == r.pc)
    && (r.pc.HavePi? && r.pc.worker != p ==> r'.pc == r.pc)
    && (r.waking.To? && r.waking.tid != p ==> r'.waking == r.waking)
    && (forall q :: q != p ==> OnList(s', q, c) == OnList(s, q, c))
  }

  lemma TasksKept(s: State, s': State, p: Tid, c: Cpu)
    requires Inv(s) && Differs(s, s', p, c) && NoticedBy(s, s', p, c)
    ensures forall q: Tid :: q < |s.tasks| && q != p ==> TaskOk(s', q)
  {
    forall q: Tid | q < |s.tasks| && q != p ensures TaskOk(s', q) {
      assert TaskOk(s, q);
      assert OnList(s', q, s.tasks[q].cpu) == OnList(s, q, s.tasks[q].cpu);
    }
  }

  /** What the runqueue invariants read of a task. */
  predicate SameForRun(t: Task, t': Task) {
    t'.cpu == t.cpu && t'.onCpu == t.onCpu && t'.onRq == t.onRq && t'.born == t.born && t'.allowed == t.allowed
    && t'.bound == t.bound && (t.pi.LocalWake? ==> t'.pi == t.pi)
  }

  /** Whoever is inside try_to_wake_up stays there. */
  predicate WakerKept(t: Task, t': Task) {
    Held(t.pi) ==> Held(t'.pi) && t'.waker == t.waker
  }

  lemma RunElsewhere(s: State, s': State, p: Tid, c: Cpu)
    requires Inv(s) && Differs(s, s', p, c)
    requires SameForRun(s.tasks[p], s'.tasks[p]) || (s.tasks[p].cpu == c && s.tasks[p].born)
             || (!s.tasks[p].onRq && !s.tasks[p].onCpu && !s.tasks[p].born)
    requires WakerKept(s.tasks[p], s'.tasks[p]) || s.tasks[p].waker == c
    ensures forall d: Cpu :: d < |s.rqs| && d != c ==> RunOk(s', d)
  {
    forall d: Cpu | d < |s.rqs| && d != c ensures RunOk(s', d) {
      assert RunOk(s, d);
    }
  }

  /** A step on p and c keeps the invariant if it does for p, for c and for the lists. */
  lemma Assemble(s: State, s': State, p: Tid, c: Cpu)
    requires Inv(s) && Differs(s, s', p, c) && NoticedBy(s, s', p, c)
    requires SameForRun(s.tasks[p], s'.tasks[p]) || (s.tasks[p].cpu == c && s.tasks[p].born)
             || (!s.tasks[p].onRq && !s.tasks[p].onCpu && !s.tasks[p].born)
    requires WakerKept(s.tasks[p], s'.tasks[p]) || s.tasks[p].waker == c
    requires TaskOk(s', p) && RunOk(s', c)
    requires forall d: Cpu :: d < |s'.rqs| ==> ListOk(s', d)
    ensures Inv(s')
  {
    TasksKept(s, s', p, c);
    RunElsewhere(s, s', p, c);
  }

  /** A step on p alone that no list and no runqueue invariant can notice. */
  lemma AssembleTask(s: State, s': State, p: Tid)
    requires Inv(s) && p < |s.tasks| && s'.rqs == s.rqs && |s'.tasks| == |s.tasks|
    requires forall q: Tid :: q < |s.tasks| && q != p ==> s'.tasks[q] == s.tasks[q]
    requires SameForRun(s.tasks[p], s'.tasks[p]) && WakerKept(s.tasks[p], s'.tasks[p])
    requires (forall d: Cpu :: d < |s.rqs| ==> !OnList(s, p, d)) || SameForLists(s.tasks[p], s'.tasks[p])
    requires s.tasks[p].pi.Kick? ==> s'.tasks[p].pi == s.tasks[p].pi
    requires TaskOk(s', p)
    ensures Inv(s')
  {
    var c := s.tasks[p].cpu;
    assert TaskOk(s, p) && RunOk(s, c);
    hide TaskOk, RunOk, ListOk, KickPending;
    ListsKept(s, s', p, c);
    RunSame(s, s', p, c);
    Assemble(s, s', p, c);
  }

  lemma RunSame(s: State, s': State, p: Tid, c: Cpu)
    requires Differs(s, s', p, c) && s'.rqs == s.rqs && RunOk(s, c)
    requires SameForRun(s.tasks[p], s'.tasks[p]) && WakerKept(s.tasks[p], s'.tasks[p])
    ensures RunOk(s', c)
  {
  }

  /** A change of lists and IPI flags is nothing to the scheduler. */
  lemma RunKept(s: State, s': State, p: Tid, c: Cpu)
    requires Differs(s, s', p, c) && RunOk(s, c) && SameForRun(s.tasks[p], s'.tasks[p])
    requires WakerKept(s.tasks[p], s'.tasks[p])
    requires var r, r' := s.rqs[c], s'.rqs[c];
             r'.curr == r.curr && r'.queue == r.queue && r'.lock == r.lock && r'.pc == r.pc && r'.nrRunning == r.nrRunning
             && (r'.handler.Draining? <==> r.handler.Draining?)
             && (r'.handler.Quiet? || !r.handler.Quiet?) && r'.waking == r.waking
    ensures RunOk(s', c)
  {
  }

  /** Activating a task of CPU c that is not queued. */
  lemma ActivateRunOk(s: State, s': State, p: Tid, c: Cpu)
    requires Differs(s, s', p, c) && RunOk(s, c)
    requires !s.tasks[p].onRq && s.tasks[p].cpu == c && !s.Idle(p) && s.tasks[p].born
    requires SameForRun(s.tasks[p].(onRq := true), s'.tasks[p]) && WakerKept(s.tasks[p], s'.tasks[p])
    requires var r, r' := s.rqs[c], s'.rqs[c];
             && r'.curr == r.curr && r'.pc == r.pc && r'.lock == r.lock
             && (r'.handler.Draining? <==> r.handler.Draining?)
             && (r'.handler.Quiet? || !r.handler.Quiet?) && r'.waking == r.waking
             && r'.queue == r.queue + {p} && r'.nrRunning == r.nrRunning + 1
    ensures RunOk(s', c)
  {
    assert p !in s.rqs[c].queue;
  }

  // ---------------------------------------------------------------- __schedule and try_to_wake_up_local

  lemma SchedLockOk(s: State, c: Cpu)
    requires Inv(s) && CanSchedLock(s, c)
    ensures Inv(DoSchedLock(s, c))
  {
    var s' := DoSchedLock(s, c);
    assert TaskOk(s, 0) && RunOk(s, c);
    ListsKept(s, s', 0, c);
    assert TaskOk(s', 0);
    assert RunOk(s', c);
    Assemble(s, s', 0, c);
  }

  lemma DecidedTaskOk(s: State, c: Cpu, preempt: bool, signal: bool)
    requires CanSchedDecide(s, c, preempt, signal) && RunOk(s, c) && TaskOk(s, s.rqs[c].curr)
    ensures TaskOk(DoSchedDecide(s, c, preempt, signal), s.rqs[c].curr)
  {
  }

  lemma DecidedRunOk(s: State, c: Cpu, preempt: bool, signal: bool)
    requires CanSchedDecide(s, c, preempt, signal) && RunOk(s, c) && TaskOk(s, s.rqs[c].curr)
    ensures RunOk(DoSchedDecide(s, c, preempt, signal), c)
  {
  }

  lemma SchedDecideOk(s: State, c: Cpu, preempt: bool, signal: bool)
    requires Inv(s) && CanSchedDecide(s, c, preempt, signal)
    ensures Inv(DoSchedDecide(s, c, preempt, signal))
  {
    var s' := DoSchedDecide(s, c, preempt, signal);
    var p := s.rqs[c].curr;
    assert RunOk(s, c);
    assert TaskOk(s, p);
    Unlisted(s, p);
    ListsKept(s, s', p, c);
    assert TaskOk(s', p) by { DecidedTaskOk(s, c, preempt, signal); }
    assert RunOk(s', c) by { DecidedRunOk(s, c, preempt, signal); }
    Assemble(s, s', p, c);
  }

  lemma WokenTaskOk(s: State, c: Cpu, w: Tid)
    requires Bound(s, w, c) && TaskOk(s, w) && s.tasks[w].pi.PiFree?
    ensures TaskOk(WakeLocal(s, c, w), w)
  {
  }

  lemma WokenRunOk(s: State, c: Cpu, w: Tid)
    requires Bound(s, w, c) && RunOk(s, c) && TaskOk(s, w)
    ensures RunOk(WakeLocal(s, c, w), c)
  {
    if Normal(s.tasks[w].state) && !s.tasks[w].onRq {
      ActivateRunOk(s, WakeLocal(s, c, w), w, c);
    }
  }

  lemma WakeWorkerOk(s: State, c: Cpu, w: Tid)
    requires Inv(s) && CanWakeWorker(s, c, w)
    ensures Inv(DoWakeWorker(s, c, w))
  {
    var s' := DoWakeWorker(s, c, w);
    assert TaskOk(s, w) && RunOk(s, c);
    if Normal(s.tasks[w].state) {
      Unlisted(s, w);
      ListsKept(s, s', w, c);
      WokenTaskOk(s, c, w);
      WokenRunOk(s, c, w);
      Assemble(s, s', w, c);
    }
  }

  lemma WakeWorkerDropOk(s: State, c: Cpu, w: Tid)
    requires Inv(s) && CanWakeWorkerDrop(s, c, w)
    ensures Inv(DoWakeWorkerDrop(s, c, w))
  {
    var s' := DoWakeWorkerDrop(s, c, w);
    assert TaskOk(s, 0) && RunOk(s, c);
    ListsKept(s, s', 0, c);
    assert TaskOk(s', 0);
    assert RunOk(s', c);
    Assemble(s, s', 0, c);
  }

  lemma WakeWorkerPiOk(s: State, c: Cpu)
    requires Inv(s) && CanWakeWorkerPi(s, c)
    ensures Inv(DoWakeWorkerPi(s, c))
  {
    var s' := DoWakeWorkerPi(s, c);
    assert RunOk(s, c);
    assert TaskOk(s, s.rqs[c].pc.worker) && RunOk(s, c);
    ListsKept(s, s', s.rqs[c].pc.worker, c);
    assert TaskOk(s', s.rqs[c].pc.worker);
    assert RunOk(s', c);
    Assemble(s, s', s.rqs[c].pc.worker, c);
  }

  /** Taking the runqueue lock again and dropping pi_lock, before the worker is woken. */
  lemma RelockedOk(s: State, c: Cpu, s1: State)
    requires CanWakeWorkerRelock(s, c) && RunOk(s, c) && TaskOk(s, s.rqs[c].pc.worker)
    requires s1 == s.SetRq(c, s.rqs[c].(lock := BySchedule, pc := Decided))
                    .SetTask(s.rqs[c].pc.worker, s.tasks[s.rqs[c].pc.worker].(pi := PiFree))
    ensures TaskOk(s1, s.rqs[c].pc.worker) && RunOk(s1, c)
    ensures CanWakeWorker(s1, c, s.rqs[c].pc.worker)
  {
  }

  lemma WakeWorkerRelockOk(s: State, c: Cpu)
    requires Inv(s) && CanWakeWorkerRelock(s, c)
    ensures Inv(DoWakeWorkerRelock(s, c))
  {
    var w := s.rqs[c].pc.worker;
    assert RunOk(s, c);
    assert TaskOk(s, w);
    var s1 := s.SetRq(c, s.rqs[c].(lock := BySchedule, pc := Decided)).SetTask(w, s.tasks[w].(pi := PiFree));
    ListsKept(s, s1, w, c);
    RelockedOk(s, c, s1);
    Assemble(s, s1, w, c);
    WakeWorkerOk(s1, c, w);
  }

  lemma SchedDropOk(s: State, c: Cpu)
    requires Inv(s) && CanSchedDrop(s, c)
    ensures Inv(DoSchedDrop(s, c))
  {
    var s' := DoSchedDrop(s, c);
    assert TaskOk(s, 0) && RunOk(s, c);
    ListsKept(s, s', 0, c);
    assert TaskOk(s', 0);
    assert RunOk(s', c);
    Assemble(s, s', 0, c);
  }

  lemma SchedRetakeOk(s: State, c: Cpu)
    requires Inv(s) && CanSchedRetake(s, c)
    ensures Inv(DoSchedRetake(s, c))
  {
    var s' := DoSchedRetake(s, c);
    assert TaskOk(s, 0) && RunOk(s, c);
    ListsKept(s, s', 0, c);
    assert TaskOk(s', 0);
    assert RunOk(s', c);
    Assemble(s, s', 0, c);
  }

  lemma SchedPickOk(s: State, c: Cpu, next: Tid)
    requires Inv(s) && CanSchedPick(s, c, next)
    ensures Inv(DoSchedPick(s, c, next))
  {
    var s' := DoSchedPick(s, c, next);
    assert TaskOk(s, next) && RunOk(s, c);
    PickedOk(s, c, next);
    hide TaskOk, RunOk, ListOk, KickPending;
    ListsKept(s, s', next, c);
    Assemble(s, s', next, c);
  }

  lemma PickedOk(s: State, c: Cpu, next: Tid)
    requires CanSchedPick(s, c, next) && TaskOk(s, next) && RunOk(s, c)
    ensures TaskOk(DoSchedPick(s, c, next), next) && RunOk(DoSchedPick(s, c, next), c)
    ensures s.tasks[next].cpu == c && s.tasks[next].born
  {
  }

  lemma SchedFinishOk(s: State, c: Cpu)
    requires Inv(s) && CanSchedFinish(s, c)
    ensures Inv(DoSchedFinish(s, c))
  {
    var s' := DoSchedFinish(s, c);
    assert RunOk(s, c);
    assert TaskOk(s, s.rqs[c].pc.prev);
    SwitchedOk(s, c);
    hide TaskOk, RunOk, ListOk, KickPending;
    ListsKept(s, s', s.rqs[c].pc.prev, c);
    Assemble(s, s', s.rqs[c].pc.prev, c);
  }

  lemma SwitchedOk(s: State, c: Cpu)
    requires CanSchedFinish(s, c) && TaskOk(s, s.rqs[c].pc.prev) && RunOk(s, c)
    ensures TaskOk(DoSchedFinish(s, c), s.rqs[c].pc.prev) && RunOk(DoSchedFinish(s, c), c)
    ensures s.tasks[s.rqs[c].pc.prev].cpu == c && s.tasks[s.rqs[c].pc.prev].born
  {
  }

  lemma SchedUnlockOk(s: State, c: Cpu)
    requires Inv(s) && CanSchedUnlock(s, c)
    ensures Inv(DoSchedUnlock(s, c))
  {
    var s' := DoSchedUnlock(s, c);
    assert TaskOk(s, 0) && RunOk(s, c);
    ListsKept(s, s', 0, c);
    assert TaskOk(s', 0);
    assert RunOk(s', c);
    Assemble(s, s', 0, c);
  }

  // ---------------------------------------------------------------- the running task

  lemma SetStateOk(s: State, c: Cpu, st: TaskState)
    requires Inv(s) && CanSetState(s, c, st)
    ensures Inv(DoSetState(s, c, st))
  {
    var s' := DoSetState(s, c, st);
    assert RunOk(s, c);
    assert TaskOk(s, s.rqs[c].curr);
    Unlisted(s, s.rqs[c].curr);
    AssembleTask(s, s', s.rqs[c].curr);
  }

  lemma PrepareOk(s: State, c: Cpu, st: TaskState)
    requires Inv(s) && CanPrepare(s, c, st)
    ensures Inv(DoPrepare(s, c, st))
  {
    var s' := DoPrepare(s, c, st);
    assert RunOk(s, c);
    assert TaskOk(s, s.rqs[c].curr);
    Unlisted(s, s.rqs[c].curr);
    AssembleTask(s, s', s.rqs[c].curr);
  }

  lemma TestConditionOk(s: State, c: Cpu)
    requires Inv(s) && CanTestCondition(s, c)
    ensures Inv(DoTestCondition(s, c))
  {
    var s' := DoTestCondition(s, c);
    assert RunOk(s, c);
    assert TaskOk(s, s.rqs[c].curr);
    Unlisted(s, s.rqs[c].curr);
    AssembleTask(s, s', s.rqs[c].curr);
  }

  lemma FinishWaitOk(s: State, c: Cpu, consume: bool)
    requires Inv(s) && CanFinishWait(s, c, consume)
    ensures Inv(DoFinishWait(s, c, consume))
  {
    var s' := DoFinishWait(s, c, consume);
    assert RunOk(s, c);
    assert TaskOk(s, s.rqs[c].curr);
    Unlisted(s, s.rqs[c].curr);
    AssembleTask(s, s', s.rqs[c].curr);
  }

  lemma WaitAgainOk(s: State, c: Cpu)
    requires Inv(s) && CanWaitAgain(s, c)
    ensures Inv(DoWaitAgain(s, c))
  {
    var s' := DoWaitAgain(s, c);
    assert RunOk(s, c);
    assert TaskOk(s, s.rqs[c].curr);
    Unlisted(s, s.rqs[c].curr);
    AssembleTask(s, s', s.rqs[c].curr);
  }

  // ---------------------------------------------------------------- try_to_wake_up

  lemma SignalOk(s: State, p: Tid)
    requires Inv(s) && CanSignal(s, p)
    ensures Inv(DoSignal(s, p))
  {
    var s' := DoSignal(s, p);
    assert TaskOk(s, p);
    AssembleTask(s, s', p);
  }

  lemma TtwuEnterOk(s: State, p: Tid, mask: set<TaskState>, signaller: bool, on: Cpu)
    requires Inv(s) && CanTtwuEnter(s, p, mask, signaller, on)
    ensures Inv(DoTtwuEnter(s, p, mask, signaller, on))
  {
    var s' := DoTtwuEnter(s, p, mask, signaller, on);
    assert TaskOk(s, p) && RunOk(s, on);
    if s.tasks[p].state in mask {
      EnteredOk(s, p, mask, signaller, on);
      hide TaskOk, RunOk, ListOk, KickPending;
      ListsKept(s, s', p, on);
      Assemble(s, s', p, on);
    } else {
      AssembleTask(s, s', p);
    }
  }

  lemma EnteredOk(s: State, p: Tid, mask: set<TaskState>, signaller: bool, on: Cpu)
    requires CanTtwuEnter(s, p, mask, signaller, on) && s.tasks[p].state in mask && TaskOk(s, p) && RunOk(s, on)
    ensures TaskOk(DoTtwuEnter(s, p, mask, signaller, on), p) && RunOk(DoTtwuEnter(s, p, mask, signaller, on), on)
  {
  }

  lemma TtwuReadOnRqOk(s: State, p: Tid)
    requires Inv(s) && CanTtwuReadOnRq(s, p)
    ensures Inv(DoTtwuReadOnRq(s, p))
  {
    var s' := DoTtwuReadOnRq(s, p);
    assert TaskOk(s, p);
    AssembleTask(s, s', p);
  }

  lemma TtwuReadRqOk(s: State, p: Tid)
    requires Inv(s) && CanTtwuReadRq(s, p)
    ensures Inv(DoTtwuReadRq(s, p))
  {
    var s' := DoTtwuReadRq(s, p);
    assert TaskOk(s, p);
    AssembleTask(s, s', p);
  }

  lemma TtwuRemoteOk(s: State, p: Tid)
    requires Inv(s) && CanTtwuRemote(s, p)
    ensures Inv(DoTtwuRemote(s, p))
  {
    var s' := DoTtwuRemote(s, p);
    assert TaskOk(s, p);
    Unlisted(s, p);
    AssembleTask(s, s', p);
  }

  lemma TtwuMarkOk(s: State, p: Tid)
    requires Inv(s) && CanTtwuMark(s, p)
    ensures Inv(DoTtwuMark(s, p))
  {
    var s' := DoTtwuMark(s, p);
    assert TaskOk(s, p);
    Unlisted(s, p);
    AssembleTask(s, s', p);
  }

  lemma TtwuPlaceOk(s: State, p: Tid, dest: Cpu)
    requires Inv(s) && CanTtwuPlace(s, p, dest)
    ensures Inv(DoTtwuPlace(s, p, dest))
  {
    var s' := DoTtwuPlace(s, p, dest);
    var c := s.tasks[p].cpu;
    assert TaskOk(s, p) && RunOk(s, c);
    Unlisted(s, p);
    assert !OnList(s, p, dest) && !OnList(s', p, dest);
    PlacedOk(s, p, dest);
    hide TaskOk, RunOk, ListOk, KickPending;
    ListsKept(s, s', p, c);
    Assemble(s, s', p, c);
  }

  lemma PlacedOk(s: State, p: Tid, dest: Cpu)
    requires CanTtwuPlace(s, p, dest) && TaskOk(s, p) && RunOk(s, s.tasks[p].cpu)
    requires dest < |s.rqs| && !OnList(s, p, s.tasks[p].cpu) && !OnList(s, p, dest)
    ensures TaskOk(DoTtwuPlace(s, p, dest), p) && RunOk(DoTtwuPlace(s, p, dest), s.tasks[p].cpu)
    ensures s.tasks[p].born
  {
  }

  lemma TtwuUnlockOk(s: State, p: Tid)
    requires Inv(s) && CanTtwuUnlock(s, p)
    ensures Inv(DoTtwuUnlock(s, p))
  {
    var s' := DoTtwuUnlock(s, p);
    var c := s.tasks[p].waker;
    assert TaskOk(s, p) && RunOk(s, c);
    ListsKept(s, s', p, c);
    UnlockedOk(s, p);
    Assemble(s, s', p, c);
  }

  lemma UnlockedOk(s: State, p: Tid)
    requires CanTtwuUnlock(s, p) && TaskOk(s, p) && RunOk(s, s.tasks[p].waker)
    ensures TaskOk(DoTtwuUnlock(s, p), p) && RunOk(DoTtwuUnlock(s, p), s.tasks[p].waker)
  {
  }

  // ---------------------------------------------------------------- ttwu_queue

  lemma QueuedTaskOk(s: State, p: Tid)
    requires CanQueueLocal(s, p) && TaskOk(s, p)
    ensures TaskOk(DoQueueLocal(s, p), p)
  {
  }

  lemma QueueLocalOk(s: State, p: Tid)
    requires Inv(s) && CanQueueLocal(s, p)
    ensures Inv(DoQueueLocal(s, p))
  {
    var s' := DoQueueLocal(s, p);
    assert TaskOk(s, p);
    var c := s.tasks[p].cpu;
    assert RunOk(s, c);
    Unlisted(s, p);
    ListsKept(s, s', p, c);
    QueuedTaskOk(s, p);
    ActivateRunOk(s, s', p, c);
    Assemble(s, s', p, c);
  }

  lemma QueueReadHeadOk(s: State, p: Tid)
    requires Inv(s) && CanQueueReadHead(s, p)
    ensures Inv(DoQueueReadHead(s, p))
  {
    var s' := DoQueueReadHead(s, p);
    assert TaskOk(s, p);
    Unlisted(s, p);
    AssembleTask(s, s', p);
  }

  lemma QueueStoreEntryOk(s: State, p: Tid)
    requires Inv(s) && CanQueueStoreEntry(s, p)
    ensures Inv(DoQueueStoreEntry(s, p))
  {
    var s' := DoQueueStoreEntry(s, p);
    assert TaskOk(s, p);
    Unlisted(s, p);
    AssembleTask(s, s', p);
  }

  lemma PushChain(tasks: seq<Task>, head: Link, list: seq<Tid>, p: Tid)
    requires Chain(tasks, head, list) && p < |tasks| && tasks[p].wakeEntry == head
    ensures Chain(tasks, To(p), [p] + list)
  {
    var longer := [p] + list;
    assert forall i :: 0 < i < |longer| ==> longer[i] == list[i - 1];
    forall i | 0 <= i < |longer|
      ensures tasks[longer[i]].wakeEntry == NextLink(longer, i)
    {
      if i == 0 {
        assert NextLink(longer, 0) == head;
      } else {
        assert NextLink(longer, i) == NextLink(list, i - 1);
      }
    }
  }

  lemma PushDistinct(a: seq<Tid>, b: seq<Tid>, p: Tid)
    requires Distinct(a + b) && p !in a && p !in b
    ensures Distinct(([p] + a) + b)
  {
    var longer := ([p] + a) + b;
    assert forall i :: 0 < i < |longer| ==> longer[i] == (a + b)[i - 1];
  }

  /** A successful cmpxchg pushes p on the abstract stack. */
  lemma PushOk(s: State, s': State, p: Tid, c: Cpu)
    requires Inv(s) && Differs(s, s', p, c) && TaskOk(s, p) && ListOk(s, c)
    requires s.tasks[p].pi == Linked(c, s.rqs[c].wakeList) && !OnList(s, p, c)
    requires s'.rqs[c] == s.rqs[c].(wakeList := To(p), pending := [p] + s.rqs[c].pending)
    requires s'.tasks[p] == s.tasks[p].(pi := s'.tasks[p].pi, pushes := s'.tasks[p].pushes)
    requires s'.tasks[p].pi == if s.rqs[c].wakeList.Null? then Kick(c) else Finished
    ensures ListOk(s', c)
  {
    var r, r' := s.rqs[c], s'.rqs[c];
    forall q | q in r.pending || q in r.drained ensures q != p && Listed(s', q, c) {
      ListedOnce(s, q, c);
    }
    ChainKept(s.tasks, s'.tasks, r.wakeList, r.pending);
    ChainKept(s.tasks, s'.tasks, Taken(r.handler), r.drained);
    PushChain(s'.tasks, r.wakeList, r.pending, p);
    PushDistinct(r.pending, r.drained, p);
    if r.wakeList.Null? {
      assert s'.tasks[p].pi == Kick(c);
    } else if KickPending(s, c) {
      var q: Tid :| q < |s.tasks| && s.tasks[q].pi == Kick(c);
      assert s'.tasks[q].pi == Kick(c);
    }
  }

  lemma Pushed(s: State, s': State, p: Tid, c: Cpu)
    requires Differs(s, s', p, c) && TaskOk(s, p) && s.tasks[p].pi == Linked(c, s.rqs[c].wakeList) && !OnList(s, p, c)
    requires s'.rqs[c] == s.rqs[c].(wakeList := To(p), pending := [p] + s.rqs[c].pending)
    requires s'.tasks[p] == s.tasks[p].(pi := s'.tasks[p].pi, pushes := s.tasks[p].pushes + 1)
    requires s'.tasks[p].pi == if s.rqs[c].wakeList.Null? then Kick(c) else Finished
    ensures TaskOk(s', p)
  {
    assert OnList(s', p, c);
  }

  /** A failed cmpxchg goes back to the head that it found. */
  lemma RetriedOk(s: State, s': State, p: Tid)
    requires p < |s.tasks| && TaskOk(s, p) && s.tasks[p].pi.Linked? && s'.rqs == s.rqs && |s'.tasks| == |s.tasks|
    requires s'.tasks[p].pi.Pushing? && s'.tasks[p].pi.dest == s.tasks[p].pi.dest
    requires s'.tasks[p] == s.tasks[p].(pi := s'.tasks[p].pi)
    ensures TaskOk(s', p)
  {
  }

  lemma CmpxchgFails(s: State, p: Tid)
    requires Inv(s) && CanQueueCmpxchg(s, p) && s.rqs[s.tasks[p].pi.dest].wakeList != s.tasks[p].pi.seen
    ensures Inv(DoQueueCmpxchg(s, p))
  {
    var s' := DoQueueCmpxchg(s, p);
    assert TaskOk(s, p);
    hide TaskOk, RunOk, ListOk;
    Unlisted(s, p);
    RetriedOk(s, s', p);
    AssembleTask(s, s', p);
  }

  lemma CmpxchgSucceeds(s: State, p: Tid)
    requires Inv(s) && CanQueueCmpxchg(s, p) && s.rqs[s.tasks[p].pi.dest].wakeList == s.tasks[p].pi.seen
    ensures Inv(DoQueueCmpxchg(s, p))
  {
    var s' := DoQueueCmpxchg(s, p);
    var c := s.tasks[p].pi.dest;
    assert TaskOk(s, p) && RunOk(s, c) && ListOk(s, c);
    hide TaskOk, RunOk, ListOk, KickPending, Chain, Distinct;
    Unlisted(s, p);
    PushOk(s, s', p, c);
    forall d: Cpu | d < |s.rqs| && d != c ensures ListOk(s', d) { ListKept(s, s', p, d); }
    RunKept(s, s', p, c);
    Pushed(s, s', p, c);
    Assemble(s, s', p, c);
  }

  lemma QueueCmpxchgOk(s: State, p: Tid)
    requires Inv(s) && CanQueueCmpxchg(s, p)
    ensures Inv(DoQueueCmpxchg(s, p))
  {
    if s.rqs[s.tasks[p].pi.dest].wakeList == s.tasks[p].pi.seen {
      CmpxchgSucceeds(s, p);
    } else {
      CmpxchgFails(s, p);
    }
  }

  lemma SentTaskOk(s: State, p: Tid)
    requires CanQueueSendIpi(s, p) && TaskOk(s, p)
    ensures TaskOk(DoQueueSendIpi(s, p), p)
  {
  }

  lemma QueueSendIpiOk(s: State, p: Tid)
    requires Inv(s) && CanQueueSendIpi(s, p)
    ensures Inv(DoQueueSendIpi(s, p))
  {
    var s' := DoQueueSendIpi(s, p);
    assert TaskOk(s, p);
    var c := s.tasks[p].pi.dest;
    assert RunOk(s, c);
    forall d: Cpu | d < |s.rqs| ensures ListOk(s', d) { ListKept(s, s', p, d); }
    SentTaskOk(s, p);
    RunKept(s, s', p, c);
    Assemble(s, s', p, c);
  }

  // ---------------------------------------------------------------- scheduler_ipi

  lemma IpiEnterOk(s: State, c: Cpu)
    requires Inv(s) && CanIpiEnter(s, c)
    ensures Inv(DoIpiEnter(s, c))
  {
    var s' := DoIpiEnter(s, c);
    assert TaskOk(s, 0) && RunOk(s, c);
    forall d: Cpu | d < |s.rqs| ensures ListOk(s', d) { ListKept(s, s', 0, d); }
    assert TaskOk(s', 0);
    assert RunOk(s', c);
    Assemble(s, s', 0, c);
  }

  lemma XchgOk(s: State, c: Cpu)
    requires Inv(s) && CanIpiXchg(s, c)
    ensures ListOk(DoIpiXchg(s, c), c)
    ensures forall q :: OnList(DoIpiXchg(s, c), q, c) == OnList(s, q, c)
  {
    assert ListOk(s, c);
    assert s.rqs[c].pending + [] == [] + s.rqs[c].pending;
  }

  lemma TaskUnmoved(s: State, s': State, p: Tid, c: Cpu)
    requires Differs(s, s', p, c) && TaskOk(s, p) && s'.tasks[p] == s.tasks[p] && OnList(s', p, c) == OnList(s, p, c)
    requires var r, r' := s.rqs[c], s'.rqs[c]; r'.curr == r.curr && r'.queue == r.queue && r'.pc == r.pc && r'.waking == r.waking
    ensures TaskOk(s', p)
  {
  }

  lemma IpiXchgOk(s: State, c: Cpu)
    requires Inv(s) && CanIpiXchg(s, c)
    ensures Inv(DoIpiXchg(s, c))
  {
    var s' := DoIpiXchg(s, c);
    assert TaskOk(s, 0) && RunOk(s, c);
    forall d: Cpu | d < |s.rqs| && d != c ensures ListOk(s', d) { ListKept(s, s', 0, d); }
    XchgOk(s, c);
    RunKept(s, s', 0, c);
    TaskUnmoved(s, s', 0, c);
    Assemble(s, s', 0, c);
  }

  lemma IpiLockOk(s: State, c: Cpu)
    requires Inv(s) && CanIpiLock(s, c)
    ensures Inv(DoIpiLock(s, c))
  {
    var s' := DoIpiLock(s, c);
    assert TaskOk(s, 0) && RunOk(s, c);
    forall d: Cpu | d < |s.rqs| ensures ListOk(s', d) { ListKept(s, s', 0, d); }
    assert TaskOk(s', 0);
    assert RunOk(s', c);
    Assemble(s, s', 0, c);
  }

  lemma ActivatedOk(s: State, s': State, p: Tid, c: Cpu)
    requires Differs(s, s', p, c) && TaskOk(s, p) && Listed(s, p, c) && OnList(s, p, c) && !OnList(s', p, c)
    requires s'.tasks[p] == s.tasks[p].(onRq := true, state := Running, pops := s.tasks[p].pops + 1)
    requires p in s'.rqs[c].queue && s'.rqs[c].pc == s.rqs[c].pc && s'.rqs[c].waking == s.rqs[c].waking
    ensures TaskOk(s', p)
  {
  }

  lemma PopChain(tasks: seq<Task>, p: Tid, list: seq<Tid>)
    requires list != [] && Chain(tasks, To(p), list)
    ensures list[0] == p && Chain(tasks, tasks[p].wakeEntry, list[1..])
  {
    assert tasks[list[0]].wakeEntry == NextLink(list, 0);
    forall i | 0 <= i < |list[1..]|
      ensures tasks[list[1..][i]].wakeEntry == NextLink(list[1..], i)
    {
      assert list[1..][i] == list[i + 1] && NextLink(list[1..], i) == NextLink(list, i + 1);
    }
  }

  lemma PopDistinct(a: seq<Tid>, b: seq<Tid>)
    requires b != [] && Distinct(a + b)
    ensures b[0] !in a && b[0] !in b[1..] && Distinct(a + b[1..])
  {
    var all, rest := a + b, a + b[1..];
    assert all[|a|] == b[0];
    assert forall i :: 0 <= i < |a| ==> all[i] == a[i];
    assert forall i :: 0 <= i < |b| - 1 ==> all[|a| + 1 + i] == b[1..][i];
    assert forall i :: 0 <= i < |rest| ==> rest[i] == all[if i < |a| then i else i + 1];
  }

  /** Activating the first drained task pops it from the abstract list. */
  lemma PopOk(s: State, s': State, p: Tid, c: Cpu)
    requires Inv(s) && Differs(s, s', p, c) && ListOk(s, c)
    requires s.rqs[c].handler == Draining(To(p)) && s'.rqs[c].handler == Draining(s.tasks[p].wakeEntry)
    requires s.rqs[c].drained != [] ==> s'.rqs[c].drained == s.rqs[c].drained[1..]
    requires s'.rqs[c].wakeList == s.rqs[c].wakeList && s'.rqs[c].pending == s.rqs[c].pending
    requires s'.rqs[c].ipi == s.rqs[c].ipi && s'.tasks[p].pi == s.tasks[p].pi
    ensures ListOk(s', c) && OnList(s, p, c) && !OnList(s', p, c)
    ensures forall q :: q != p ==> OnList(s', q, c) == OnList(s, q, c)
  {
    hide Chain, Distinct, Listed, KickPending;
    var r, r' := s.rqs[c], s'.rqs[c];
    PopFirst(s, p, c);
    forall q | q in r'.pending || q in r'.drained ensures q != p && Listed(s', q, c) {
      assert OnList(s, q, c);
      StillListed(s, s', p, c, q);
    }
    EntriesKept(s, s', p, c);
    KickKept(s, s', p, c);
  }

  lemma PopFirst(s: State, p: Tid, c: Cpu)
    requires c < |s.rqs| && ListOk(s, c) && s.rqs[c].handler == Draining(To(p))
    ensures var r := s.rqs[c];
            && p < |s.tasks| && r.drained != [] && r.drained == [p] + r.drained[1..]
            && p !in r.pending && p !in r.drained[1..] && Distinct(r.pending + r.drained[1..])
            && Chain(s.tasks, r.wakeList, r.pending) && Chain(s.tasks, s.tasks[p].wakeEntry, r.drained[1..])
  {
    PopChain(s.tasks, p, s.rqs[c].drained);
    PopDistinct(s.rqs[c].pending, s.rqs[c].drained);
  }

  lemma EntriesKept(s: State, s': State, p: Tid, c: Cpu)
    requires Differs(s, s', p, c) && p !in s.rqs[c].pending && s.rqs[c].drained != [] && p !in s.rqs[c].drained[1..]
    requires Chain(s.tasks, s.rqs[c].wakeList, s.rqs[c].pending)
    requires Chain(s.tasks, s.tasks[p].wakeEntry, s.rqs[c].drained[1..])
    ensures Chain(s'.tasks, s.rqs[c].wakeList, s.rqs[c].pending)
    ensures Chain(s'.tasks, s.tasks[p].wakeEntry, s.rqs[c].drained[1..])
  {
    ChainKept(s.tasks, s'.tasks, s.rqs[c].wakeList, s.rqs[c].pending);
    ChainKept(s.tasks, s'.tasks, s.tasks[p].wakeEntry, s.rqs[c].drained[1..]);
  }

  lemma StillListed(s: State, s': State, p: Tid, c: Cpu, q: Tid)
    requires Inv(s) && Differs(s, s', p, c) && OnList(s, q, c) && q != p
    ensures Listed(s', q, c)
  {
    ListedOnce(s, q, c);
  }

  lemma KickKept(s: State, s': State, p: Tid, c: Cpu)
    requires Differs(s, s', p, c) && s'.tasks[p].pi == s.tasks[p].pi
    ensures KickPending(s, c) ==> KickPending(s', c)
  {
    if KickPending(s, c) {
      var q: Tid :| q < |s.tasks| && s.tasks[q].pi == Kick(c);
      assert s'.tasks[q].pi == Kick(c);
    }
  }

  lemma ActivatedLists(s: State, c: Cpu)
    requires Inv(s) && CanIpiActivate(s, c)
    ensures var s', p := DoIpiActivate(s, c), s.rqs[c].handler.list.tid;
            && (forall d: Cpu :: d < |s.rqs| ==> ListOk(s', d))
            && (forall q :: q != p ==> OnList(s', q, c) == OnList(s, q, c))
            && Listed(s, p, c) && OnList(s, p, c) && !OnList(s', p, c)
  {
    var s' := DoIpiActivate(s, c);
    var p := s.rqs[c].handler.list.tid;
    assert ListOk(s, c);
    PopOk(s, s', p, c);
    ListedOnce(s, p, c);
    forall d: Cpu | d < |s.rqs| && d != c ensures ListOk(s', d) { ListKept(s, s', p, d); }
  }

  lemma IpiActivateOk(s: State, c: Cpu)
    requires Inv(s) && CanIpiActivate(s, c)
    ensures Inv(DoIpiActivate(s, c))
  {
    var s' := DoIpiActivate(s, c);
    var p := s.rqs[c].handler.list.tid;
    ActivatedLists(s, c);
    assert RunOk(s, c) && TaskOk(s, p);
    hide ListOk, KickPending, Chain;
    ActivatedOk(s, s', p, c);
    ActivateRunOk(s, s', p, c);
    Assemble(s, s', p, c);
  }

  lemma IpiUnlockOk(s: State, c: Cpu)
    requires Inv(s) && CanIpiUnlock(s, c)
    ensures Inv(DoIpiUnlock(s, c))
  {
    var s' := DoIpiUnlock(s, c);
    assert TaskOk(s, 0) && RunOk(s, c);
    forall d: Cpu | d < |s.rqs| ensures ListOk(s', d) { ListKept(s, s', 0, d); }
    assert TaskOk(s', 0);
    assert RunOk(s', c);
    Assemble(s, s', 0, c);
  }

  // ---------------------------------------------------------------- fork and migration

  lemma NewTaskOk(s: State, p: Tid, dest: Cpu)
    requires CanWakeNew(s, p, dest) && TaskOk(s, p) && !OnList(s, p, s.tasks[p].cpu) && !OnList(s, p, dest)
    ensures TaskOk(DoWakeNew(s, p, dest), p)
  {
  }

  lemma NewTask(s: State, p: Tid, dest: Cpu, s1: State)
    requires CanWakeNew(s, p, dest) && TaskOk(s, p) && RunOk(s, dest)
    requires s1 == s.SetTask(p, s.tasks[p].(cpu := dest, born := true))
    ensures RunOk(s1, dest)
  {
    assert p !in s.rqs[dest].queue;
  }

  lemma NewRunOk(s: State, p: Tid, dest: Cpu)
    requires CanWakeNew(s, p, dest) && TaskOk(s, p) && RunOk(s, dest)
    ensures RunOk(DoWakeNew(s, p, dest), dest)
  {
    var s' := DoWakeNew(s, p, dest);
    assert p !in s.rqs[dest].queue && p != s.rqs[dest].curr;
    NewTask(s, p, dest, s.SetTask(p, s.tasks[p].(cpu := dest, born := true)));
    ActivateRunOk(s.SetTask(p, s.tasks[p].(cpu := dest, born := true)), s', p, dest);
  }

  lemma WakeNewOk(s: State, p: Tid, dest: Cpu)
    requires Inv(s) && CanWakeNew(s, p, dest)
    ensures Inv(DoWakeNew(s, p, dest))
  {
    var s' := DoWakeNew(s, p, dest);
    assert TaskOk(s, p) && RunOk(s, dest);
    Unlisted(s, p);
    assert !OnList(s, p, s.tasks[p].cpu) && !OnList(s, p, dest);
    ListsKept(s, s', p, dest);
    NewTaskOk(s, p, dest);
    NewRunOk(s, p, dest);
    Assemble(s, s', p, dest);
  }

  lemma MoveTaskOk(s: State, p: Tid, dest: Cpu, q: Tid)
    requires Inv(s) && CanBalance(s, p, dest) && q < |s.tasks|
    ensures TaskOk(Move(s, p, dest), q)
  {
    assert TaskOk(s, q) && TaskOk(s, p);
    Unlisted(s, p);
    assert !OnList(s, p, dest);
  }

  ghost predicate SameSchedule(r: Rq, r': Rq) {
    r'.curr == r.curr && r'.pc == r.pc && r'.lock == r.lock && r'.handler == r.handler && r'.waking == r.waking
  }

  lemma MovedInOk(s: State, s': State, p: Tid, d: Cpu)
    requires CanBalance(s, p, d) && d < |s.rqs| == |s'.rqs| && TaskOk(s, p) && RunOk(s, d)
    requires s'.tasks == s.tasks[p := s.tasks[p].(cpu := d)] && SameSchedule(s.rqs[d], s'.rqs[d])
    requires s'.rqs[d].queue == s.rqs[d].queue + {p}
    requires s'.rqs[d].nrRunning == s.rqs[d].nrRunning + Weight(p !in s.rqs[d].queue)
    ensures RunOk(s', d)
  {
    if p in s.rqs[d].queue { assert s'.rqs[d].queue == s.rqs[d].queue; }
  }

  lemma MovedOutOk(s: State, s': State, p: Tid, dest: Cpu, d: Cpu)
    requires CanBalance(s, p, dest) && d < |s.rqs| == |s'.rqs| && d != dest && TaskOk(s, p) && RunOk(s, d)
    requires s'.tasks == s.tasks[p := s.tasks[p].(cpu := dest)] && SameSchedule(s.rqs[d], s'.rqs[d])
    requires s'.rqs[d].queue == s.rqs[d].queue - {p}
    requires s'.rqs[d].nrRunning == s.rqs[d].nrRunning - Weight(p in s.rqs[d].queue)
    ensures RunOk(s', d)
  {
    if p !in s.rqs[d].queue { assert s'.rqs[d].queue == s.rqs[d].queue; }
  }

  lemma MovedRunOk(s: State, p: Tid, dest: Cpu, d: Cpu)
    requires CanBalance(s, p, dest) && d < |s.rqs| && TaskOk(s, p) && RunOk(s, d)
    requires p in s.rqs[d].queue ==> d == s.tasks[p].cpu
    ensures RunOk(Move(s, p, dest), d)
  {
    hide RunOk;
    if d == dest { MovedInOk(s, Move(s, p, dest), p, d); } else { MovedOutOk(s, Move(s, p, dest), p, dest, d); }
  }

  lemma BalanceOk(s: State, p: Tid, dest: Cpu)
    requires Inv(s) && CanBalance(s, p, dest)
    ensures Inv(DoBalance(s, p, dest))
  {
    var s' := DoBalance(s, p, dest);
    assert TaskOk(s, p);
    Unlisted(s, p);
    forall q: Tid | q < |s'.tasks| ensures TaskOk(s', q) { MoveTaskOk(s, p, dest, q); }
    hide TaskOk, ListOk, KickPending;
    forall d: Cpu | d < |s'.rqs| ensures ListOk(s', d) { ListKept(s, s', p, d); }
    forall d: Cpu | d < |s'.rqs| ensures RunOk(s', d) {
      assert RunOk(s, d);
      MovedRunOk(s, p, dest, d);
    }
  }

  lemma MigrateOk(s: State, p: Tid, src: Cpu, dest: Cpu)
    requires Inv(s) && CanMigrate(s, p, src, dest)
    ensures Inv(DoMigrate(s, p, src, dest))
  {
    var s' := DoMigrate(s, p, src, dest);
    assert TaskOk(s, p);
    if s' != s {
      assert RunOk(s, src);
      assert !s.tasks[p].onCpu;
      BalanceOk(s, p, dest);
      assert s' == DoBalance(s, p, dest);
    }
  }

  /** The CPUs that wait for a bound worker are not touched: its affinity cannot change under them. */
  lemma AffinityRunOk(s: State, p: Tid, mask: set<Cpu>, d: Cpu)
    requires Inv(s) && CanSetAffinity(s, p, mask) && d < |s.rqs|
    ensures RunOk(DoSetAffinity(s, p, mask), d)
  {
    assert RunOk(s, d) && TaskOk(s, p);
  }

  lemma SetAffinityOk(s: State, p: Tid, mask: set<Cpu>)
    requires Inv(s) && CanSetAffinity(s, p, mask)
    ensures Inv(DoSetAffinity(s, p, mask))
  {
    var s' := DoSetAffinity(s, p, mask);
    var c := s.tasks[p].cpu;
    assert TaskOk(s, p);
    ListsKept(s, s', p, c);
    AffinityTaskOk(s, p, mask);
    forall d: Cpu | d < |s.rqs| ensures RunOk(s', d) { AffinityRunOk(s, p, mask, d); }
    TasksKept(s, s', p, c);
  }

  lemma AffinityTaskOk(s: State, p: Tid, mask: set<Cpu>)
    requires CanSetAffinity(s, p, mask) && TaskOk(s, p)
    ensures TaskOk(DoSetAffinity(s, p, mask), p)
  {
  }

  // ---------------------------------------------------------------- every step

  lemma ScheduleStepOk(s: State, a: ScheduleAction)
    requires Inv(s) && ScheduleEnabled(s, a)
    ensures Inv(ScheduleStep(s, a))
  {
    match a
    case SchedLock(c) => SchedLockOk(s, c);
    case SchedDecide(c, preempt, signal) => SchedDecideOk(s, c, preempt, signal);
    case WakeWorker(c, w) => WakeWorkerOk(s, c, w);
    case WakeWorkerDrop(c, w) => WakeWorkerDropOk(s, c, w);
    case WakeWorkerPi(c) => WakeWorkerPiOk(s, c);
    case WakeWorkerRelock(c) => WakeWorkerRelockOk(s, c);
    case SchedDrop(c) => SchedDropOk(s, c);
    case SchedRetake(c) => SchedRetakeOk(s, c);
    case SchedPick(c, next) => SchedPickOk(s, c, next);
    case SchedFinish(c) => SchedFinishOk(s, c);
    case SchedUnlock(c) => SchedUnlockOk(s, c);
  }

  lemma TaskStepOk(s: State, a: TaskAction)
    requires Inv(s) && TaskEnabled(s, a)
    ensures Inv(TaskStep(s, a))
  {
    match a
    case SetState(c, st) => SetStateOk(s, c, st);
    case Prepare(c, st) => PrepareOk(s, c, st);
    case TestCondition(c) => TestConditionOk(s, c);
    case FinishWait(c, consume) => FinishWaitOk(s, c, consume);
    case WaitAgain(c) => WaitAgainOk(s, c);
  }

  lemma WakeStepOk(s: State, a: WakeAction)
    requires Inv(s) && WakeEnabled(s, a)
    ensures Inv(WakeStep(s, a))
  {
    match a
    case Signal(p) => SignalOk(s, p);
    case TtwuEnter(p, mask, signaller, on) => TtwuEnterOk(s, p, mask, signaller, on);
    case TtwuReadOnRq(p) => TtwuReadOnRqOk(s, p);
    case TtwuReadRq(p) => TtwuReadRqOk(s, p);
    case TtwuRemote(p) => TtwuRemoteOk(s, p);
    case TtwuMark(p) => TtwuMarkOk(s, p);
    case TtwuPlace(p, dest) => TtwuPlaceOk(s, p, dest);
    case TtwuUnlock(p) => TtwuUnlockOk(s, p);
  }

  lemma QueueStepOk(s: State, a: QueueAction)
    requires Inv(s) && QueueEnabled(s, a)
    ensures Inv(QueueStep(s, a))
  {
    match a
    case QueueLocal(p) => QueueLocalOk(s, p);
    case QueueReadHead(p) => QueueReadHeadOk(s, p);
    case QueueStoreEntry(p) => QueueStoreEntryOk(s, p);
    case QueueCmpxchg(p) => QueueCmpxchgOk(s, p);
    case QueueSendIpi(p) => QueueSendIpiOk(s, p);
  }

  lemma IpiStepOk(s: State, a: IpiAction)
    requires Inv(s) && IpiEnabled(s, a)
    ensures Inv(IpiStep(s, a))
  {
    match a
    case IpiEnter(c) => IpiEnterOk(s, c);
    case IpiXchg(c) => IpiXchgOk(s, c);
    case IpiLock(c) => IpiLockOk(s, c);
    case IpiActivate(c) => IpiActivateOk(s, c);
    case IpiUnlock(c) => IpiUnlockOk(s, c);
  }

  lemma PlaceStepOk(s: State, a: PlaceAction)
    requires Inv(s) && PlaceEnabled(s, a)
    ensures Inv(PlaceStep(s, a))
  {
    match a
    case WakeNew(p, dest) => WakeNewOk(s, p, dest);
    case Migrate(p, src, dest) => MigrateOk(s, p, src, dest);
    case Balance(p, dest) => BalanceOk(s, p, dest);
    case SetAffinity(p, mask) => SetAffinityOk(s, p, mask);
  }

  lemma StepOk(s: State, a: Action)
    requires Inv(s) && Enabled(s, a)
    ensures Inv(Apply(s, a))
  {
    match a
    case Scheduling(x) => ScheduleStepOk(s, x);
    case Executes(x) => TaskStepOk(s, x);
    case Wakes(x) => WakeStepOk(s, x);
    case Queues(x) => QueueStepOk(s, x);
    case Interrupts(x) => IpiStepOk(s, x);
    case Places(x) => PlaceStepOk(s, x);
  }
}
