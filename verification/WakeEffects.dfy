/** What the steps of the wakeup protocol do, in the fields of tasks and runqueues: each wakes, moves or stops exactly the
    task it is meant for. */
module WakeEffects {
  import opened WakeProtocol
  import opened WakeInvariant
  import opened WakeSafety

  /** No task but p and no runqueue but that of c changed. */
  ghost predicate OthersKept(s: State, s': State, p: Tid, c: Cpu) {
    && |s'.tasks| == |s.tasks| && |s'.rqs| == |s.rqs|
    && (forall q: Tid :: q < |s.tasks| && q != p ==> s'.tasks[q] == s.tasks[q])
    && (forall d: Cpu :: d < |s.rqs| && d != c ==> s'.rqs[d] == s.rqs[d])
  }

  // ---------------------------------------------------------------- try_to_wake_up_local

  /** From s to s' worker w was woken on CPU c: if it slept it is put on the runqueue, if it was still queued it is made
      running again, and in any other state it is left alone. */
  ghost predicate Woken(s: State, s': State, c: Cpu, w: Tid)
    requires w < |s.tasks| && c < |s.rqs|
  {
    var t, r := s.tasks[w], s.rqs[c];
    && OthersKept(s, s', w, c)
    && if t.state.Interruptible? || t.state.Uninterruptible? then
         && s'.tasks[w] == t.(state := TaskState.Running, onRq := true)
         && s'.rqs[c] == r.(queue := r.queue + {w}, nrRunning := r.nrRunning + (if w in r.queue then 0 else 1),
                            nrUninterruptible := if w !in r.queue && t.state.Uninterruptible?
                                                 then r.nrUninterruptible - 1 else r.nrUninterruptible)
       else s'.tasks[w] == t && s'.rqs[c] == r
  }

  lemma LocalWakes(s: State, c: Cpu, w: Tid)
    requires w < |s.tasks| && c < |s.rqs| && (s.tasks[w].onRq <==> w in s.rqs[c].queue)
    ensures Woken(s, WakeLocal(s, c, w), c, w)
  {
    assert w in s.rqs[c].queue ==> s.rqs[c].queue + {w} == s.rqs[c].queue;
  }

  lemma WorkerWoken(s: State, c: Cpu, w: Tid)
    requires Reachable(s) && CanWakeWorker(s, c, w)
    ensures Woken(s, Apply(s, Scheduling(WakeWorker(c, w))), c, w)
  {
    ReachableOk(s);
    assert TaskOk(s, w) && RunOk(s, c);
    LocalWakes(s, c, w);
  }

  /** The same when pi_lock was contended: the worker is woken from the state in which it is found after both locks were
      taken again, and pi_lock is free afterwards. */
  lemma WorkerWokenAfterRelock(s: State, c: Cpu)
    requires Reachable(s) && CanWakeWorkerRelock(s, c)
    ensures var w := s.rqs[c].pc.worker;
            Woken(State(s.tasks[w := s.tasks[w].(pi := PiFree)], s.rqs[c := s.rqs[c].(lock := BySchedule, pc := Decided)]),
                  Apply(s, Scheduling(WakeWorkerRelock(c))), c, w)
  {
    ReachableOk(s);
    var w := s.rqs[c].pc.worker;
    assert RunOk(s, c);
    assert TaskOk(s, w);
    LocalWakes(s.SetRq(c, s.rqs[c].(lock := BySchedule, pc := Decided)).SetTask(w, s.tasks[w].(pi := PiFree)), c, w);
    hide WakeLocal, Woken, Inv;
  }

  // ---------------------------------------------------------------- __schedule

  /** The previous task leaves its runqueue if and only if it is not running, was not preempted and has no pending signal;
      with a pending signal it is made running again. */
  lemma SleepsIff(s: State, c: Cpu, preempt: bool, signal: bool)
    requires Reachable(s) && CanSchedDecide(s, c, preempt, signal) && !s.Idle(s.rqs[c].curr)
    ensures var s', p := Apply(s, Scheduling(SchedDecide(c, preempt, signal))), s.rqs[c].curr;
            var t, t', r, r' := s.tasks[p], s'.tasks[p], s.rqs[c], s'.rqs[c];
            var sleeps := !t.state.Running? && !preempt && !signal;
            && OthersKept(s, s', p, c) && p in r.queue && t.onRq
            && t' == t.(onRq := !sleeps, state := if signal && !preempt then TaskState.Running else t.state)
            && r' == r.(pc := Decided, queue := if sleeps then r.queue - {p} else r.queue,
                        nrRunning := if sleeps then r.nrRunning - 1 else r.nrRunning,
                        nrUninterruptible := if sleeps && t.state.Uninterruptible? then r.nrUninterruptible + 1
                                             else r.nrUninterruptible)
  {
    ReachableOk(s);
    assert RunOk(s, c) && TaskOk(s, s.rqs[c].curr);
  }

  /** The CPU switches to the task it picked: that task and no other is current afterwards and on_cpu, and the one before it
      is on_cpu until the switch is finished. */
  lemma SwitchesTo(s: State, c: Cpu, next: Tid)
    requires Reachable(s) && CanSchedPick(s, c, next)
    ensures var s', prev := Apply(s, Scheduling(SchedPick(c, next))), s.rqs[c].curr;
            && OthersKept(s, s', next, c) && s'.rqs[c].curr == next
            && s'.tasks[next] == s.tasks[next].(onCpu := true) && s'.tasks[prev].onCpu
            && s'.rqs[c].pc == (if next == prev then Unlocking else Switched(prev))
  {
    ReachableOk(s);
    assert RunOk(s, c);
  }

  // ---------------------------------------------------------------- the wait pattern

  /** A sleeper sets its state before it tests the condition, must sleep exactly if it found the condition false, and is in
      TASK_RUNNING once its wait is over; it changes no other task and no runqueue. */
  lemma WaitPattern(s: State, a: TaskAction)
    requires TaskEnabled(s, a)
    ensures var s', p := Apply(s, Executes(a)), s.rqs[a.c].curr;
            var t, t' := s.tasks[p], s'.tasks[p];
            && s'.rqs == s.rqs && OthersKept(s, s', p, a.c)
            && (a.SetState? || a.Prepare? ==> t'.state == a.st)
            && (a.Prepare? <==> t'.sleeper.Prepared?)
            && (a.TestCondition? ==> (t'.sleeper.MustSleep? <==> !t.condition) && (t'.sleeper.SawCondition? <==> t.condition)
                                     && t'.state == t.state && t'.condition == t.condition)
            && (a.FinishWait? ==> t'.state.Running? && t'.sleeper.Awake?)
            && (a.WaitAgain? ==> t'.sleeper.Awake? && t'.state == t.state)
  {
  }

  // ---------------------------------------------------------------- try_to_wake_up

  /** try_to_wake_up has done its work on the task: what is left is to send an IPI and to drop pi_lock. */
  predicate Over(op: PiOp) {
    op.Finished? || op.Kick?
  }

  /** The task can run: it is on the runqueue of its CPU in TASK_RUNNING, or on the wake list of its CPU. */
  predicate Delivered(s: State, p: Tid) {
    && p < |s.tasks| && s.tasks[p].cpu < |s.rqs|
    && (|| (s.tasks[p].state.Running? && s.tasks[p].onRq && p in s.rqs[s.tasks[p].cpu].queue)
        || p in s.rqs[s.tasks[p].cpu].pending)
  }

  /** The step with which a wakeup that matched is over delivers the task, whichever way it took and whatever the other
      CPUs did in between; until then it can only be over by such a step. */
  lemma WakeupDelivers(s: State, a: Action, p: Tid)
    requires Reachable(s) && Enabled(s, a) && p < |s.tasks| && Held(s.tasks[p].pi) && !Over(s.tasks[p].pi)
    requires p < |Apply(s, a).tasks| && (Over(Apply(s, a).tasks[p].pi) || Apply(s, a).tasks[p].pi.PiFree?)
    ensures Over(Apply(s, a).tasks[p].pi) && Delivered(Apply(s, a), p)
    ensures (a.Wakes? && a.wakes == TtwuRemote(p)) || (a.Queues? && (a.queues == QueueLocal(p) || a.queues == QueueCmpxchg(p)))
  {
    ReachableOk(s);
    assert TaskOk(s, p);
    match a
    case Scheduling(x) => ScheduleKeepsPi(s, x, p);
    case Wakes(x) => RemoteDelivers(s, x, p);
    case Queues(x) => QueueDelivers(s, x, p);
    case Executes(x) => TaskKeepsPi(s, x, p);
    case Interrupts(x) => InterruptKeepsPi(s, x, p);
    case Places(x) => PlaceKeepsPi(s, x, p);
  }

  lemma TaskKeepsPi(s: State, a: TaskAction, p: Tid)
    requires TaskEnabled(s, a) && p < |s.tasks|
    ensures p < |TaskStep(s, a).tasks| && TaskStep(s, a).tasks[p].pi == s.tasks[p].pi
  {
  }

  lemma InterruptKeepsPi(s: State, a: IpiAction, p: Tid)
    requires IpiEnabled(s, a) && p < |s.tasks|
    ensures p < |IpiStep(s, a).tasks| && IpiStep(s, a).tasks[p].pi == s.tasks[p].pi
  {
  }

  lemma PlaceKeepsPi(s: State, a: PlaceAction, p: Tid)
    requires PlaceEnabled(s, a) && p < |s.tasks|
    ensures p < |PlaceStep(s, a).tasks| && PlaceStep(s, a).tasks[p].pi == s.tasks[p].pi
  {
  }

  lemma ScheduleKeepsPi(s: State, a: ScheduleAction, p: Tid)
    requires Inv(s) && ScheduleEnabled(s, a) && p < |s.tasks| && Held(s.tasks[p].pi)
    ensures p < |ScheduleStep(s, a).tasks| && ScheduleStep(s, a).tasks[p].pi == s.tasks[p].pi
  {
    assert RunOk(s, a.c) && TaskOk(s, p);
    hide Inv, TaskOk, RunOk;
    match a
    case WakeWorker(c, w) => LocalKeepsPi(s, c, w, p);
    case WakeWorkerPi(c) => assert s.rqs[c].pc.worker != p;
    case WakeWorkerRelock(c) => RelockKeepsPi(s, c, p);
    case _ => hide WakeLocal;
  }

  lemma LocalKeepsPi(s: State, c: Cpu, w: Tid, p: Tid)
    requires w < |s.tasks| && c < |s.rqs| && p < |s.tasks|
    ensures |WakeLocal(s, c, w).tasks| == |s.tasks| && WakeLocal(s, c, w).tasks[p].pi == s.tasks[p].pi
  {
  }

  lemma RelockKeepsPi(s: State, c: Cpu, p: Tid)
    requires CanWakeWorkerRelock(s, c) && RunOk(s, c) && p < |s.tasks| && Held(s.tasks[p].pi)
    ensures p < |DoWakeWorkerRelock(s, c).tasks| && DoWakeWorkerRelock(s, c).tasks[p].pi == s.tasks[p].pi
  {
    var w := s.rqs[c].pc.worker;
    assert w != p;
    LocalKeepsPi(s.SetRq(c, s.rqs[c].(lock := BySchedule, pc := Decided)).SetTask(w, s.tasks[w].(pi := PiFree)), c, w, p);
    hide WakeLocal;
  }

  lemma RemoteDelivers(s: State, a: WakeAction, p: Tid)
    requires Inv(s) && WakeEnabled(s, a) && p < |s.tasks| && Held(s.tasks[p].pi) && !Over(s.tasks[p].pi)
    requires p < |WakeStep(s, a).tasks| && (Over(WakeStep(s, a).tasks[p].pi) || WakeStep(s, a).tasks[p].pi.PiFree?)
    ensures a == TtwuRemote(p) && Over(WakeStep(s, a).tasks[p].pi) && Delivered(WakeStep(s, a), p)
  {
    assert TaskOk(s, p);
    hide Inv;
    if a.p != p {
      OtherWakeup(s, a, p);
    } else if a.TtwuRemote? {
      RemoteEnds(s, p);
      hide TaskOk, Delivered;
    } else {
      hide TaskOk, Delivered;
    }
  }

  lemma RemoteEnds(s: State, p: Tid)
    requires CanTtwuRemote(s, p) && TaskOk(s, p)
    ensures p < |DoTtwuRemote(s, p).tasks| && !DoTtwuRemote(s, p).tasks[p].pi.PiFree?
    ensures Over(DoTtwuRemote(s, p).tasks[p].pi) ==> Delivered(DoTtwuRemote(s, p), p)
  {
  }

  lemma OtherWakeup(s: State, a: WakeAction, p: Tid)
    requires WakeEnabled(s, a) && a.p != p && p < |s.tasks|
    ensures p < |WakeStep(s, a).tasks| && WakeStep(s, a).tasks[p] == s.tasks[p]
  {
  }

  lemma QueueDelivers(s: State, a: QueueAction, p: Tid)
    requires Inv(s) && QueueEnabled(s, a) && p < |s.tasks| && Held(s.tasks[p].pi) && !Over(s.tasks[p].pi)
    requires p < |QueueStep(s, a).tasks| && (Over(QueueStep(s, a).tasks[p].pi) || QueueStep(s, a).tasks[p].pi.PiFree?)
    ensures (a == QueueLocal(p) || a == QueueCmpxchg(p)) && Over(QueueStep(s, a).tasks[p].pi) && Delivered(QueueStep(s, a), p)
  {
    assert TaskOk(s, p);
  }

  /** The test of the state mask decides: a wakeup takes the task exactly if its state is in the mask. */
  lemma MatchedIff(s: State, p: Tid, mask: set<TaskState>, signaller: bool, on: Cpu)
    requires CanTtwuEnter(s, p, mask, signaller, on)
    ensures var s', t := Apply(s, Wakes(TtwuEnter(p, mask, signaller, on))), s.tasks[p];
            && OthersKept(s, s', p, on)
            && s'.tasks[p].wakers == (if signaller then t.wakers - 1 else t.wakers)
            && if t.state in mask then
                 s'.tasks[p] == t.(pi := Matched, waker := on, wakers := s'.tasks[p].wakers)
                 && s'.rqs[on] == s.rqs[on].(waking := To(p))
               else s'.tasks[p] == t.(wakers := s'.tasks[p].wakers) && s'.rqs[on] == s.rqs[on]
  {
  }

  /** The woken task goes to the CPU that was selected for it, which its mask allows, and to no runqueue yet. */
  lemma PlacedThere(s: State, p: Tid, dest: Cpu)
    requires CanTtwuPlace(s, p, dest)
    ensures var s' := Apply(s, Wakes(TtwuPlace(p, dest)));
            && s'.rqs == s.rqs && OthersKept(s, s', p, dest) && dest in s.tasks[p].allowed
            && s'.tasks[p] == s.tasks[p].(pi := Placed(dest), cpu := dest)
  {
  }

  // ---------------------------------------------------------------- scheduler_ipi

  /** The handler consumes the IPI, takes the whole list at once and leaves it empty, and only ends the interrupt when there
      is nothing to activate or everything was. */
  lemma HandlerTakes(s: State, a: IpiAction)
    requires IpiEnabled(s, a) && a.c < |s.rqs| && !a.IpiActivate?
    ensures var s', r := Apply(s, Interrupts(a)), s.rqs[a.c];
            && s'.tasks == s.tasks && |s'.rqs| == |s.rqs|
            && (forall d: Cpu :: d < |s.rqs| && d != a.c ==> s'.rqs[d] == s.rqs[d])
            && (var r' := s'.rqs[a.c];
                && r'.queue == r.queue && r'.curr == r.curr && r'.nrRunning == r.nrRunning
                && (a.IpiEnter? ==> r.ipi && !r'.ipi && r'.handler == Entered && r'.wakeList == r.wakeList)
                && (a.IpiXchg? ==> r'.wakeList == Null
                                   && r'.handler == if r.wakeList == Null then Quiet else Have(r.wakeList))
                && (a.IpiLock? ==> r'.lock.ByIpi? && r'.handler == Draining(r.handler.list))
                && (a.IpiUnlock? ==> r.handler == Draining(Null) && r'.lock.Nobody? && r'.handler == Quiet && r'.ipi == r.ipi))
  {
  }

  // ---------------------------------------------------------------- fork and migration

  /** A new task is queued in TASK_RUNNING on the CPU that was chosen for it. */
  lemma NewTaskQueued(s: State, p: Tid, dest: Cpu)
    requires Reachable(s) && CanWakeNew(s, p, dest)
    ensures var s', r := Apply(s, Places(WakeNew(p, dest))), s.rqs[dest];
            && OthersKept(s, s', p, dest) && p !in r.queue
            && s'.tasks[p] == s.tasks[p].(born := true, cpu := dest, onRq := true, state := TaskState.Running)
            && s'.rqs[dest] == r.(queue := r.queue + {p}, nrRunning := r.nrRunning + 1)
  {
    ReachableOk(s);
    assert TaskOk(s, p) && RunOk(s, dest);
  }

  /** p has moved between two runqueues, or stayed if they are the same, and its part of nr_uninterruptible with it. */
  ghost predicate Moves(s: State, s': State, p: Tid, dest: Cpu)
    requires p < |s.tasks| && s.tasks[p].cpu < |s.rqs| && dest < |s.rqs|
  {
    var src := s.tasks[p].cpu;
    var w := if s.tasks[p].state.Uninterruptible? then 1 else 0;
    && |s'.tasks| == |s.tasks| && |s'.rqs| == |s.rqs|
    && (forall q: Tid :: q < |s.tasks| && q != p ==> s'.tasks[q] == s.tasks[q])
    && s'.tasks[p] == s.tasks[p].(cpu := dest)
    && (forall d: Cpu :: d < |s.rqs| && d != src && d != dest ==> s'.rqs[d] == s.rqs[d])
    && (src == dest ==> s'.rqs == s.rqs)
    && (src != dest ==>
          && p !in s.rqs[dest].queue
          && s'.rqs[src] == s.rqs[src].(queue := s.rqs[src].queue - {p}, nrRunning := s.rqs[src].nrRunning - 1,
                                        nrUninterruptible := s.rqs[src].nrUninterruptible + w)
          && s'.rqs[dest] == s.rqs[dest].(queue := s.rqs[dest].queue + {p}, nrRunning := s.rqs[dest].nrRunning + 1,
                                          nrUninterruptible := s.rqs[dest].nrUninterruptible - w))
  }

  lemma MovedElsewhere(s: State, p: Tid, dest: Cpu)
    requires p < |s.tasks| && dest < |s.rqs| && s.tasks[p].cpu < |s.rqs| && s.tasks[p].cpu != dest && p !in s.rqs[dest].queue
    ensures Moves(s, Move(s, p, dest), p, dest)
  {
  }

  lemma MovedNowhere(s: State, p: Tid)
    requires p < |s.tasks| && s.tasks[p].cpu < |s.rqs| && p in s.rqs[s.tasks[p].cpu].queue
    ensures Moves(s, Move(s, p, s.tasks[p].cpu), p, s.tasks[p].cpu)
  {
    var c := s.tasks[p].cpu;
    assert Move(s, p, c).rqs[c].queue == s.rqs[c].queue;
    assert Move(s, p, c).rqs == s.rqs;
  }

  lemma MovedBetween(s: State, p: Tid, dest: Cpu)
    requires Inv(s) && p < |s.tasks| && dest < |s.rqs| && s.tasks[p].onRq && s.tasks[p].cpu < |s.rqs|
    ensures Moves(s, Move(s, p, dest), p, dest)
  {
    assert TaskOk(s, p) && RunOk(s, dest);
    assert p in s.rqs[s.tasks[p].cpu].queue && (s.tasks[p].cpu != dest ==> p !in s.rqs[dest].queue);
    hide Inv, TaskOk, RunOk, Moves, Move;
    if s.tasks[p].cpu == dest { MovedNowhere(s, p); } else { MovedElsewhere(s, p, dest); }
  }

  /** Load balancing moves the task it was asked to. */
  lemma BalanceMoves(s: State, p: Tid, dest: Cpu)
    requires Reachable(s) && CanBalance(s, p, dest)
    ensures s.tasks[p].cpu < |s.rqs| && Moves(s, Apply(s, Places(Balance(p, dest))), p, dest)
  {
    ReachableOk(s);
    MovedBetween(s, p, dest);
  }

  /** __migrate_task moves the task exactly if it is still on the source and queued, and may run on the destination. */
  lemma MigratesIff(s: State, p: Tid, src: Cpu, dest: Cpu)
    requires Reachable(s) && CanMigrate(s, p, src, dest)
    ensures var s' := Apply(s, Places(Migrate(p, src, dest)));
            if s.tasks[p].cpu == src && s.tasks[p].onRq && dest in s.tasks[p].allowed then Moves(s, s', p, dest) else s' == s
  {
    ReachableOk(s);
    if s.tasks[p].cpu == src && s.tasks[p].onRq { MovedBetween(s, p, dest); }
  }

  // ---------------------------------------------------------------- when the steps can be taken

  /** try_to_wake_up_local can always begin on a worker of this CPU, and the trylock on pi_lock decides how. */
  lemma TrylockDecides(s: State, c: Cpu, w: Tid)
    requires Reachable(s) && c < |s.rqs| && w < |s.tasks| && s.rqs[c].pc.Decided? && w != s.rqs[c].curr
    requires !s.Idle(w) && s.tasks[w].born && s.tasks[w].cpu == c && s.tasks[w].bound && s.tasks[w].allowed == {c}
    ensures Enabled(s, Scheduling(WakeWorker(c, w))) <==> s.tasks[w].pi.PiFree?
    ensures Enabled(s, Scheduling(WakeWorkerDrop(c, w))) <==> !s.tasks[w].pi.PiFree?
    ensures !s.tasks[w].pi.PiFree? ==>
              var s' := Apply(s, Scheduling(WakeWorkerDrop(c, w)));
              s'.tasks == s.tasks && s'.rqs[c].lock.Nobody? && s'.rqs[c].pc == WaitPi(w)
  {
  }

  /** A task that is queued outside its mask and not current can be moved inside by __migrate_task as soon as both
      runqueues and its pi_lock are free. */
  lemma MigrationBringsBack(s: State, p: Tid, dest: Cpu)
    requires Reachable(s) && p < |s.tasks| && !Inside(s, p) && s.tasks[p].onRq && s.tasks[p].pi.PiFree?
    requires dest < |s.rqs| && dest in s.tasks[p].allowed && s.rqs[dest].lock.Nobody?
    requires var r := if s.tasks[p].cpu < |s.rqs| then s.rqs[s.tasks[p].cpu] else s.rqs[dest];
             r.lock.Nobody? && r.pc.Out? && r.curr != p
    ensures Enabled(s, Places(Migrate(p, s.tasks[p].cpu, dest)))
    ensures var s' := Apply(s, Places(Migrate(p, s.tasks[p].cpu, dest)));
            Inside(s', p) && s'.tasks[p].cpu == dest && s'.tasks[p].onRq && p in s'.rqs[dest].queue
  {
    ReachableOk(s);
    assert TaskOk(s, p);
    MovedBetween(s, p, dest);
  }

  /** set_cpus_allowed_ptr is refused only for a bound task that is not the caller; otherwise the mask, and nothing else, is
      the new one. */
  lemma AffinityChanges(s: State, p: Tid, mask: set<Cpu>)
    requires Reachable(s) && p < |s.tasks| && !s.Idle(p) && s.tasks[p].pi.PiFree?
    requires mask != {} && (forall c :: c in mask ==> c < |s.rqs|)
    requires s.tasks[p].cpu < |s.rqs| && s.rqs[s.tasks[p].cpu].lock.Nobody?
    ensures !s.tasks[p].bound ==> Enabled(s, Places(SetAffinity(p, mask)))
    ensures s.tasks[p].bound && s.rqs[s.tasks[p].cpu].curr != p ==> !Enabled(s, Places(SetAffinity(p, mask)))
    ensures Enabled(s, Places(SetAffinity(p, mask))) ==>
              Apply(s, Places(SetAffinity(p, mask))) == State(s.tasks[p := s.tasks[p].(allowed := mask)], s.rqs)
  {
  }

  /** The runqueue lock can be dropped between the decision and the pick, and taken again as soon as nobody holds it. */
  lemma BalancingOpens(s: State, c: Cpu)
    requires Reachable(s) && c < |s.rqs|
    ensures Enabled(s, Scheduling(SchedDrop(c))) <==> s.rqs[c].pc.Decided?
    ensures Enabled(s, Scheduling(SchedRetake(c))) <==> s.rqs[c].pc.Balancing? && s.rqs[c].lock.Nobody?
    ensures s.rqs[c].pc.Decided? ==>
              Apply(s, Scheduling(SchedDrop(c))) == State(s.tasks, s.rqs[c := s.rqs[c].(lock := Nobody, pc := Balancing)])
    ensures s.rqs[c].pc.Balancing? && s.rqs[c].lock.Nobody? ==>
              Apply(s, Scheduling(SchedRetake(c))) == State(s.tasks, s.rqs[c := s.rqs[c].(lock := BySchedule, pc := Decided)])
  {
  }
}
