/**
 try_to_wake_up tests the state mask once, before it reads on_rq.  The state it overwrites with TASK_WAKING is the one
 it tested unless the task can still run in between; then it can go on to another sleep, even to TASK_DEAD, and is woken
 from there.
 */
module WakeStaleMatch {
  import opened WakeProtocol
  import opened WakeInvariant
  import opened WakeSafety
  import opened WakeProgress

  /** However the others interleave with this wakeup, if it marks the task it marks it out of state st. */
  ghost predicate AlwaysMarksFrom(s: State, p: Tid, st: TaskState) {
    forall run: seq<Action> :: Owing(s, run, To(p)) ==> MarksFrom(s, run, p, st)
  }

  predicate MarksFrom(s: State, run: seq<Action>, p: Tid, st: TaskState)
    requires Owing(s, run, To(p))
  {
    OwingRuns(s, run, To(p));
    CanTtwuMark(After(s, run), p) ==> After(s, run).tasks[p].state == st
  }

  /** The task is queued on a CPU, or can be pulled to one, that is neither the waker's, which runs with interrupts
      disabled, nor one that waits for this very wakeup to wake the task locally. */
  predicate CanStillRun(s: State, p: Tid) {
    p < |s.tasks|
    && (var t := s.tasks[p];
        && t.onRq && t.cpu < |s.rqs|
        && if t.cpu != t.waker then s.rqs[t.cpu].pc != WaitPi(p)
           else !t.onCpu && exists d :: d in t.allowed && d != t.cpu)
  }

  // ---------------------------------------------------------------- a task that cannot run keeps its state

  predicate Pinned(s: State, p: Tid, st: TaskState) {
    p < |s.tasks| && WakeOwed(s.tasks[p].pi) && s.tasks[p].state == st && !CanStillRun(s, p)
  }

  /** What the invariant tells about a task that cannot run. */
  lemma PinnedWhere(s: State, p: Tid, st: TaskState)
    requires Inv(s) && Pinned(s, p, st)
    ensures var t := s.tasks[p];
            && t.cpu < |s.rqs| && t.born && !s.Idle(p)
            && (t.onRq ==> s.rqs[t.cpu].pc == WaitPi(p) || (s.rqs[t.cpu].waking == To(p) && s.rqs[t.cpu].pc.Out?))
            && (t.onRq && s.rqs[t.cpu].pc == WaitPi(p) ==> t.allowed == {t.cpu})
  {
    assert TaskOk(s, p) && RunOk(s, s.tasks[p].cpu);
  }

  lemma PinnedInSchedule(s: State, a: ScheduleAction, p: Tid, st: TaskState)
    requires Inv(s) && Pinned(s, p, st) && ScheduleEnabled(s, a)
    ensures Pinned(ScheduleStep(s, a), p, st)
  {
    PinnedWhere(s, p, st);
    assert RunOk(s, a.c) && TaskOk(s, p);
    hide Inv;
    PinnedThroughSchedule(s, a, p, st);
  }

  lemma PinnedThroughSchedule(s: State, a: ScheduleAction, p: Tid, st: TaskState)
    requires Pinned(s, p, st) && ScheduleEnabled(s, a) && RunOk(s, a.c) && TaskOk(s, p)
    requires var t := s.tasks[p];
             t.cpu < |s.rqs| && (t.onRq ==> s.rqs[t.cpu].pc == WaitPi(p) || (s.rqs[t.cpu].waking == To(p) && s.rqs[t.cpu].pc.Out?))
    ensures Pinned(ScheduleStep(s, a), p, st)
  {
    if a.WakeWorker? || a.WakeWorkerRelock? {
      PinnedThroughWorker(s, a, p, st);
    } else {
      hide WakeLocal;
    }
  }

  lemma PinnedThroughWorker(s: State, a: ScheduleAction, p: Tid, st: TaskState)
    requires Pinned(s, p, st) && ScheduleEnabled(s, a) && RunOk(s, a.c) && (a.WakeWorker? || a.WakeWorkerRelock?)
    ensures Pinned(ScheduleStep(s, a), p, st)
  {
    if a.WakeWorker? {
      PinnedByLocal(s, a.c, a.w, p, st);
    } else {
      var w := s.rqs[a.c].pc.worker;
      var s1 := s.SetRq(a.c, s.rqs[a.c].(lock := BySchedule, pc := Decided)).SetTask(w, s.tasks[w].(pi := PiFree));
      assert Pinned(s1, p, st);
      PinnedByLocal(s1, a.c, w, p, st);
    }
  }

  lemma PinnedByLocal(s: State, c: Cpu, w: Tid, p: Tid, st: TaskState)
    requires Pinned(s, p, st) && w < |s.tasks| && c < |s.rqs| && w != p
    ensures Pinned(WakeLocal(s, c, w), p, st)
  {
  }

  lemma PinnedInTask(s: State, a: TaskAction, p: Tid, st: TaskState)
    requires Inv(s) && Pinned(s, p, st) && TaskEnabled(s, a)
    ensures Pinned(TaskStep(s, a), p, st)
  {
    PinnedWhere(s, p, st);
    assert RunOk(s, a.c);
    hide Inv;
  }

  lemma PinnedInWake(s: State, a: WakeAction, p: Tid, st: TaskState)
    requires Inv(s) && Pinned(s, p, st) && WakeEnabled(s, a)
    ensures Owes(WakeStep(s, a), To(p)) ==> Pinned(WakeStep(s, a), p, st)
  {
    if a.p == p {
      PinnedByItself(s, a, p, st);
    } else {
      hide Inv;
    }
  }

  lemma StaysPinned(s: State, p: Tid, st: TaskState, t: Task)
    requires Pinned(s, p, st) && WakeOwed(t.pi) && t.state == st
    requires var u := s.tasks[p];
             t.onRq == u.onRq && t.onCpu == u.onCpu && t.cpu == u.cpu && t.waker == u.waker && t.allowed == u.allowed
    ensures Pinned(s.SetTask(p, t), p, st)
  {
  }

  lemma PinnedByItself(s: State, a: WakeAction, p: Tid, st: TaskState)
    requires Inv(s) && Pinned(s, p, st) && WakeEnabled(s, a) && a.p == p
    ensures Owes(WakeStep(s, a), To(p)) ==> Pinned(WakeStep(s, a), p, st)
  {
    hide Inv, CanStillRun;
    match a
    case Signal(_) => StaysPinned(s, p, st, DoSignal(s, p).tasks[p]);
    case TtwuReadOnRq(_) => StaysPinned(s, p, st, DoTtwuReadOnRq(s, p).tasks[p]);
    case TtwuReadRq(_) => StaysPinned(s, p, st, DoTtwuReadRq(s, p).tasks[p]);
    case TtwuRemote(_) => PinnedByRemote(s, p, st);
    case _ =>
  }

  lemma PinnedByRemote(s: State, p: Tid, st: TaskState)
    requires Pinned(s, p, st) && CanTtwuRemote(s, p)
    ensures Owes(DoTtwuRemote(s, p), To(p)) ==> Pinned(DoTtwuRemote(s, p), p, st)
  {
    hide CanStillRun;
    if Owes(DoTtwuRemote(s, p), To(p)) {
      StaysPinned(s, p, st, DoTtwuRemote(s, p).tasks[p]);
    }
  }

  lemma PinnedInQueue(s: State, a: QueueAction, p: Tid, st: TaskState)
    requires Inv(s) && Pinned(s, p, st) && QueueEnabled(s, a)
    ensures Pinned(QueueStep(s, a), p, st)
  {
    assert TaskOk(s, a.p);
    hide Inv;
  }

  lemma PinnedInIpi(s: State, a: IpiAction, p: Tid, st: TaskState)
    requires Inv(s) && Pinned(s, p, st) && IpiEnabled(s, a)
    ensures Pinned(IpiStep(s, a), p, st)
  {
    assert ListOk(s, a.c) && TaskOk(s, p);
    if a.IpiActivate? { assert Listed(s, s.rqs[a.c].drained[0], a.c); }
    hide Inv;
  }

  lemma PinnedInPlace(s: State, a: PlaceAction, p: Tid, st: TaskState)
    requires Inv(s) && Pinned(s, p, st) && PlaceEnabled(s, a)
    ensures Pinned(PlaceStep(s, a), p, st)
  {
    PinnedWhere(s, p, st);
    assert TaskOk(s, a.p) && TaskOk(s, p);
    hide Inv;
  }

  /** Every step that leaves the wakeup where it is, or takes it further but not to its end, keeps the tested state. */
  lemma TestedStateHeld(s: State, a: Action, p: Tid, st: TaskState)
    requires Inv(s) && Pinned(s, p, st) && Enabled(s, a) && Owes(Apply(s, a), To(p))
    ensures Pinned(Apply(s, a), p, st)
  {
    match a
    case Scheduling(x) => PinnedInSchedule(s, x, p, st);
    case Executes(x) => PinnedInTask(s, x, p, st);
    case Wakes(x) => PinnedInWake(s, x, p, st);
    case Queues(x) => PinnedInQueue(s, x, p, st);
    case Interrupts(x) => PinnedInIpi(s, x, p, st);
    case Places(x) => PinnedInPlace(s, x, p, st);
  }

  /** In every continuation of the wakeup. */
  lemma {:induction false} PinnedRun(s: State, run: seq<Action>, p: Tid, st: TaskState)
    requires Inv(s) && Pinned(s, p, st) && Owing(s, run, To(p))
    ensures Runs(s, run) && Pinned(After(s, run), p, st)
    decreases |run|
  {
    if run != [] {
      StepOk(s, run[0]);
      TestedStateHeld(s, run[0], p, st);
      hide Inv, Pinned, Enabled, Apply, Owes;
      PinnedRun(Apply(s, run[0]), run[1..], p, st);
    }
  }

  // ---------------------------------------------------------------- a task that can still run can leave its state

  /** p is matched and queued on a CPU that owes its waker nothing. */
  ghost predicate Runnable(s: State, p: Tid) {
    && Inv(s) && p < |s.tasks| && s.tasks[p].pi.Matched? && s.tasks[p].onRq && s.tasks[p].cpu != s.tasks[p].waker
    && NotAwaited(s, To(p))
  }

  lemma OnlyAwaitedAtHome(s: State, p: Tid)
    requires Inv(s) && p < |s.tasks| && s.tasks[p].cpu < |s.rqs| && s.rqs[s.tasks[p].cpu].pc != WaitPi(p)
    ensures NotAwaited(s, To(p))
  {
    forall d: Cpu | d < |s.rqs| ensures s.rqs[d].pc != WaitPi(p) { assert RunOk(s, d); }
  }

  /** A task on the waker's own CPU is pulled to another one. */
  lemma Pulled(s: State, p: Tid, d: Cpu) returns (s': State)
    requires Inv(s) && p < |s.tasks| && s.tasks[p].pi.Matched? && s.tasks[p].onRq && !s.tasks[p].onCpu
    requires s.tasks[p].cpu == s.tasks[p].waker && d in s.tasks[p].allowed && d != s.tasks[p].cpu
    ensures Runnable(s', p) && Leads(s, s', To(p))
  {
    WakerIs(s, p);
    var t := FreesLock(s, d, To(p));
    assert LocalTask(s.tasks[p], t.tasks[p], d);
    s' := DoBalance(t, p, d);
    One(t, Places(Balance(p, d)), To(p));
    Then(s, t, s', To(p));
    assert s'.rqs[d].pc == t.rqs[d].pc;
    assert RunOk(t, d);
    OnlyAwaitedAtHome(s', p);
  }

  /** p's CPU comes to run it. */
  lemma Scheduled(s: State, p: Tid) returns (s': State)
    requires Runnable(s, p)
    ensures Runnable(s', p) && Leads(s, s', To(p)) && IrqsOn(s', s'.tasks[p].cpu)
    ensures s'.rqs[s'.tasks[p].cpu].curr == p && s'.tasks[p].state == s.tasks[p].state
  {
    assert TaskOk(s, p);
    var c, k := s.tasks[p].cpu, To(p);
    var t := Settles(s, c, k);
    StillNotAwaited(s, t, k);
    assert TaskOk(t, p) && RunOk(t, c);
    if t.rqs[c].curr == p {
      s' := t;
    } else {
      var u := DoSchedLock(t, c);
      Go(t, Scheduling(SchedLock(c)), c, k);
      var v := Preempts(u, c, k);
      assert RunOk(v, c);
      s' := Picks(v, c, p, k);
      assert LocalTask(v.tasks[p], s'.tasks[p], c);
      WentTwice(t, u, v, c, k);
      WentTwice(t, v, s', c, k);
      Then(s, t, s', k);
      OnlyAwaitedAtHome(s', p);
    }
  }

  /** p runs, and whether it is in a wait loop or not it can leave it. */
  ghost predicate Running(s: State, p: Tid) {
    && Inv(s) && p < |s.tasks| && s.tasks[p].pi.Matched? && s.tasks[p].cpu < |s.rqs|
    && Executing(s, s.tasks[p].cpu) && s.rqs[s.tasks[p].cpu].curr == p
  }

  lemma Acts(s: State, a: TaskAction, p: Tid) returns (s': State)
    requires Running(s, p) && TaskEnabled(s, a) && a.c == s.tasks[p].cpu
    ensures s' == TaskStep(s, a) && Running(s', p) && Leads(s, s', To(p))
  {
    s' := TaskStep(s, a);
    One(s, Executes(a), To(p));
  }

  lemma Leaves(s: State, p: Tid) returns (s': State)
    requires Running(s, p)
    ensures Running(s', p) && Leads(s, s', To(p)) && s'.tasks[p].sleeper.Awake?
  {
    var c := s.tasks[p].cpu;
    if s.tasks[p].sleeper.Awake? {
      s' := s;
      Here(s, To(p));
    } else if s.tasks[p].sleeper.Prepared? {
      var t := Acts(s, TestCondition(c), p);
      s' := LeavesLoop(t, p);
      Then(s, t, s', To(p));
    } else {
      s' := LeavesLoop(s, p);
    }
  }

  lemma LeavesLoop(s: State, p: Tid) returns (s': State)
    requires Running(s, p) && (s.tasks[p].sleeper.SawCondition? || s.tasks[p].sleeper.MustSleep?)
    ensures Running(s', p) && Leads(s, s', To(p)) && s'.tasks[p].sleeper.Awake?
  {
    var c := s.tasks[p].cpu;
    if s.tasks[p].sleeper.SawCondition? {
      s' := Acts(s, FinishWait(c, false), p);
    } else {
      s' := Acts(s, WaitAgain(c), p);
    }
  }

  /** p goes to sleep in state st; before its CPU has switched away the waker reads on_rq. */
  lemma Sleeps(s: State, p: Tid, st: TaskState) returns (s': State)
    requires Running(s, p) && s.tasks[p].sleeper.Awake? && (st.Interruptible? || st.Dead?)
    ensures Leads(s, s', To(p)) && CanTtwuMark(s', p) && s'.tasks[p].state == st
  {
    var c, k := s.tasks[p].cpu, To(p);
    var t := Acts(s, SetState(c, st), p);
    var u := Dequeued(t, p);
    Then(s, t, u, k);
    var next := SomeNext(u, c);
    assert RunOk(u, c) && TaskOk(u, p);
    s' := Picks(u, c, next, k);
    assert LocalTask(u.tasks[p], s'.tasks[p], c);
    Then(s, u, s', k);
  }

  lemma Dequeued(s: State, p: Tid) returns (s': State)
    requires Running(s, p) && s.tasks[p].sleeper.Awake? && (s.tasks[p].state.Interruptible? || s.tasks[p].state.Dead?)
    ensures Inv(s') && Leads(s, s', To(p)) && p < |s'.tasks| && s'.tasks[p].cpu == s.tasks[p].cpu
    ensures s'.tasks[p].pi.Spin? && !s'.tasks[p].onRq && s'.tasks[p].state == s.tasks[p].state
    ensures s.tasks[p].cpu < |s'.rqs| && s'.rqs[s.tasks[p].cpu].pc.Decided? && s'.rqs[s.tasks[p].cpu].curr == p
  {
    var c, k := s.tasks[p].cpu, To(p);
    assert RunOk(s, c);
    var t := DoSchedLock(s, c);
    One(s, Scheduling(SchedLock(c)), k);
    var u := DoSchedDecide(t, c, false, false);
    One(t, Scheduling(SchedDecide(c, false, false)), k);
    s' := DoTtwuReadOnRq(u, p);
    One(u, Wakes(TtwuReadOnRq(p)), k);
    Then(s, t, u, k);
    Then(s, u, s', k);
  }

  /** The continuation in which p goes from the tested state to another sleep and is marked there. */
  lemma Escapes(s: State, p: Tid, st: TaskState) returns (s': State)
    requires Inv(s) && CanStillRun(s, p) && s.tasks[p].pi.Matched? && (st.Interruptible? || st.Dead?)
    ensures Leads(s, s', To(p)) && CanTtwuMark(s', p) && s'.tasks[p].state == st
  {
    var t := s;
    if s.tasks[p].cpu == s.tasks[p].waker {
      var d :| d in s.tasks[p].allowed && d != s.tasks[p].cpu;
      t := Pulled(s, p, d);
    } else {
      OnlyAwaitedAtHome(s, p);
      Here(s, To(p));
    }
    var u := Scheduled(t, p);
    assert RunOk(u, u.tasks[p].cpu) && TaskOk(u, p);
    var v := Leaves(u, p);
    s' := Sleeps(v, p, st);
    Then(s, t, u, To(p));
    Then(s, u, v, To(p));
    Then(s, v, s', To(p));
  }

  // ---------------------------------------------------------------- the exact condition

  /** A wakeup that has just tested the state is sure to mark the task out of that state exactly if the task cannot run
      before the mark. */
  lemma MarksTestedStateIff(s: State, p: Tid)
    requires Reachable(s) && p < |s.tasks| && s.tasks[p].pi.Matched?
    ensures AlwaysMarksFrom(s, p, s.tasks[p].state) <==> !CanStillRun(s, p)
  {
    ReachableOk(s);
    var st := s.tasks[p].state;
    if CanStillRun(s, p) {
      var s' := Escapes(s, p, if st.Dead? then Interruptible else Dead);
      var run: seq<Action> :| LeadsBy(s, run, s', To(p));
      assert !MarksFrom(s, run, p, st);
    } else {
      forall run: seq<Action> | Owing(s, run, To(p)) ensures MarksFrom(s, run, p, st) {
        PinnedRun(s, run, p, st);
      }
    }
  }

  /** The same in terms of the state at the test: a task that sleeps off its runqueue is always woken from the sleep that
      was tested; a queued one can be woken even from TASK_DEAD, which is in no mask. */
  lemma TestedStateMarked(s: State, p: Tid, mask: set<TaskState>, signaller: bool, on: Cpu)
    requires Reachable(s) && CanTtwuEnter(s, p, mask, signaller, on) && s.tasks[p].state in mask
    ensures var s' := DoTtwuEnter(s, p, mask, signaller, on);
            && Wakeable(s.tasks[p].state)
            && (AlwaysMarksFrom(s', p, s.tasks[p].state) <==> !CanStillRun(s', p))
            && (!s.tasks[p].onRq ==> AlwaysMarksFrom(s', p, s.tasks[p].state))
            && (CanStillRun(s', p) ==> CanMarkDead(s', p))
  {
    Extend(s, Wakes(TtwuEnter(p, mask, signaller, on)));
    var s' := DoTtwuEnter(s, p, mask, signaller, on);
    MarksTestedStateIff(s', p);
    if CanStillRun(s', p) {
      ReachableOk(s');
      var s'' := Escapes(s', p, Dead);
      var run: seq<Action> :| LeadsBy(s', run, s'', To(p));
      assert DeadAfter(s', run, p);
    }
  }

  ghost predicate CanMarkDead(s: State, p: Tid) {
    exists run: seq<Action> :: Owing(s, run, To(p)) && DeadAfter(s, run, p)
  }

  predicate DeadAfter(s: State, run: seq<Action>, p: Tid)
    requires Owing(s, run, To(p))
  {
    OwingRuns(s, run, To(p));
    CanTtwuMark(After(s, run), p) && After(s, run).tasks[p].state.Dead?
  }

  // ---------------------------------------------------------------- a system in which it happens

  lemma {:induction false} AppendRun(s: State, run: seq<Action>, a: Action)
    requires Runs(s, run) && Enabled(After(s, run), a)
    ensures Runs(s, run + [a]) && After(s, run + [a]) == Apply(After(s, run), a)
    decreases |run|
  {
    hide Enabled, Apply;
    if run == [] {
      assert ([] + [a])[1..] == [];
    } else {
      assert (run + [a])[1..] == run[1..] + [a];
      AppendRun(Apply(s, run[0]), run[1..], a);
    }
  }

  lemma Extend(s: State, a: Action)
    requires Reachable(s) && Enabled(s, a)
    ensures Reachable(Apply(s, a))
  {
    var s0: State, run: seq<Action> :| ReachedBy(s0, run, s);
    AppendRun(s0, run, a);
    assert ReachedBy(s0, run + [a], Apply(s, a));
  }

  lemma Next(s: State, a: Action) returns (s': State)
    requires Reachable(s) && Enabled(s, a)
    ensures s' == Apply(s, a) && Reachable(s')
  {
    Extend(s, a);
    s' := Apply(s, a);
  }

  function Fresh(cpu: Cpu, idle: bool): Task {
    Task(TaskState.Running, false, idle, cpu, Null, false, {cpu}, false, idle, PiFree, 0, false, 0, Awake, 0, 0)
  }

  function IdleRq(curr: Tid): Rq {
    Rq(curr, {}, Nobody, Out, Null, false, Quiet, Null, 0, 0, [], [])
  }

  /** Two CPUs and one task. */
  lemma Booted() returns (s: State)
    ensures Reachable(s) && s == State([Fresh(0, true), Fresh(1, true), Fresh(0, false)], [IdleRq(0), IdleRq(1)])
  {
    s := State([Fresh(0, true), Fresh(1, true), Fresh(0, false)], [IdleRq(0), IdleRq(1)]);
    assert InitTask(s, 0) && InitTask(s, 1) && InitTask(s, 2);
    assert ReachedBy(s, [], s);
  }

  /** Task 2 is forked and CPU 0 is about to pick it. */
  lemma Forked() returns (s: State)
    ensures Reachable(s)
    ensures s == State([Fresh(0, true), Fresh(1, true), Fresh(0, false).(born := true, onRq := true)],
                       [IdleRq(0).(queue := {2}, lock := BySchedule, pc := Decided, nrRunning := 1), IdleRq(1)])
  {
    s := Booted();
    assert CanWakeNew(s, 2, 0);
    s := Next(s, Places(WakeNew(2, 0)));
    assert s.rqs[0] == IdleRq(0).(queue := {2}, nrRunning := 1);
    s := Next(s, Scheduling(SchedLock(0)));
    s := Next(s, Scheduling(SchedDecide(0, false, false)));
  }

  /** Task 2 runs on CPU 0. */
  lemma Started() returns (s: State)
    ensures Reachable(s)
    ensures s == State([Fresh(0, true).(onCpu := false), Fresh(1, true), Fresh(0, false).(born := true, onRq := true, onCpu := true)],
                       [IdleRq(2).(queue := {2}, nrRunning := 1), IdleRq(1)])
  {
    s := Forked();
    s := Next(s, Scheduling(SchedPick(0, 2)));
    s := Next(s, Scheduling(SchedFinish(0)));
    s := Next(s, Scheduling(SchedUnlock(0)));
  }

  /** It has just been found in TASK_INTERRUPTIBLE by a waker on CPU 1. */
  lemma FoundAsleep() returns (s: State)
    ensures Reachable(s) && CanStillRun(s, 2) && s.tasks[2].pi.Matched? && s.tasks[2].state.Interruptible?
  {
    s := Started();
    s := Next(s, Executes(SetState(0, Interruptible)));
    s := Next(s, Wakes(TtwuEnter(2, {Interruptible}, false, 1)));
  }

  lemma DeadTaskWoken() returns (s: State, p: Tid)
    ensures Reachable(s) && p < |s.tasks| && s.tasks[p].pi.Matched? && s.tasks[p].state.Interruptible? && CanMarkDead(s, p)
  {
    s := FoundAsleep();
    p := 2;
    ReachableOk(s);
    var s' := Escapes(s, p, Dead);
    var run: seq<Action> :| LeadsBy(s, run, s', To(p));
    assert DeadAfter(s, run, p);
  }
}
