/** What the wakeup protocol guarantees in every reachable state. */
module WakeSafety {
  import opened WakeProtocol
  import opened WakeInvariant

  /** s is reached from a freshly booted system by some interleaving of steps. */
  ghost predicate Reachable(s: State) {
    exists s0: State, run: seq<Action> :: ReachedBy(s0, run, s)
  }

  ghost predicate ReachedBy(s0: State, run: seq<Action>, s: State) {
    Init(s0) && Runs(s0, run) && After(s0, run) == s
  }

  lemma ReachableOk(s: State)
    requires Reachable(s)
    ensures Inv(s) && Balanced(s)
  {
    var s0: State, run: seq<Action> :| ReachedBy(s0, run, s);
    InitOk(s0);
    InitBalanced(s0);
    RunKeeps(s0, run);
  }

  lemma {:induction false} RunKeeps(s: State, run: seq<Action>)
    requires Inv(s) && Balanced(s) && Runs(s, run)
    ensures Inv(After(s, run)) && Balanced(After(s, run))
    decreases |run|
  {
    if run != [] {
      StepOk(s, run[0]);
      StepBalanced(s, run[0]);
      RunKeeps(Apply(s, run[0]), run[1..]);
    }
  }

  // ---------------------------------------------------------------- conservation of nr_uninterruptible

  /** p sleeps uninterruptibly, or was woken from such a sleep and is not re-activated yet. */
  predicate Contributing(t: Task) {
    if t.state.Waking? then t.contributes else t.born && !t.onRq && t.state.Uninterruptible?
  }

  function Contributors(tasks: seq<Task>): nat {
    if tasks == [] then 0
    else Contributors(tasks[..|tasks| - 1]) + (if Contributing(tasks[|tasks| - 1]) then 1 else 0)
  }

  function SumUninterruptible(rqs: seq<Rq>): int {
    if rqs == [] then 0 else SumUninterruptible(rqs[..|rqs| - 1]) + rqs[|rqs| - 1].nrUninterruptible
  }

  predicate Balanced(s: State) {
    SumUninterruptible(s.rqs) == Contributors(s.tasks)
  }

  lemma {:induction false} ContributorsUpdate(tasks: seq<Task>, p: Tid, t: Task)
    requires p < |tasks|
    ensures Contributors(tasks[p := t])
            == Contributors(tasks) - Weight(Contributing(tasks[p])) + Weight(Contributing(t))
  {
    var n := |tasks| - 1;
    if p < n {
      ContributorsUpdate(tasks[..n], p, t);
      assert tasks[p := t][..n] == tasks[..n][p := t];
    } else {
      assert tasks[p := t][..n] == tasks[..n];
    }
  }

  lemma {:induction false} SumUpdate(rqs: seq<Rq>, c: Cpu, r: Rq)
    requires c < |rqs|
    ensures SumUninterruptible(rqs[c := r]) == SumUninterruptible(rqs) - rqs[c].nrUninterruptible + r.nrUninterruptible
  {
    var n := |rqs| - 1;
    if c < n {
      SumUpdate(rqs[..n], c, r);
      assert rqs[c := r][..n] == rqs[..n][c := r];
    } else {
      assert rqs[c := r][..n] == rqs[..n];
    }
  }

  /** The books balance after a step if they do between p and c. */
  lemma Settle(s: State, s': State, p: Tid, c: Cpu)
    requires Balanced(s) && Differs(s, s', p, c)
    requires s'.rqs[c].nrUninterruptible - s.rqs[c].nrUninterruptible
             == Weight(Contributing(s'.tasks[p])) - Weight(Contributing(s.tasks[p]))
    ensures Balanced(s')
  {
    assert s'.tasks == s.tasks[p := s'.tasks[p]];
    assert s'.rqs == s.rqs[c := s'.rqs[c]];
    ContributorsUpdate(s.tasks, p, s'.tasks[p]);
    SumUpdate(s.rqs, c, s'.rqs[c]);
  }

  lemma MoveSums(s: State, p: Tid, dest: Cpu, src: Cpu)
    requires p < |s.tasks| && src == s.tasks[p].cpu < |s.rqs| && dest < |s.rqs|
    ensures SumUninterruptible(Move(s, p, dest).rqs) == SumUninterruptible(s.rqs)
    ensures Move(s, p, dest).tasks == s.tasks[p := s.tasks[p].(cpu := dest)]
  {
    var w := Weight(s.tasks[p].state.Uninterruptible?);
    var r1 := s.rqs[src].(queue := s.rqs[src].queue - {p}, nrRunning := s.rqs[src].nrRunning - 1,
                          nrUninterruptible := s.rqs[src].nrUninterruptible + w);
    SumUpdate(s.rqs, src, r1);
    SumUpdate(s.rqs[src := r1], dest, Move(s, p, dest).rqs[dest]);
  }

  lemma MoveBalanced(s: State, p: Tid, dest: Cpu)
    requires Inv(s) && Balanced(s) && CanBalance(s, p, dest)
    ensures Balanced(Move(s, p, dest))
  {
    assert TaskOk(s, p);
    MoveSums(s, p, dest, s.tasks[p].cpu);
    ContributorsUpdate(s.tasks, p, s.tasks[p].(cpu := dest));
  }

  lemma InitBalanced(s: State)
    requires Init(s)
    ensures Balanced(s)
  {
    NoContributors(s, |s.tasks|);
    NoSum(s, |s.rqs|);
    assert s.tasks[..|s.tasks|] == s.tasks && s.rqs[..|s.rqs|] == s.rqs;
  }

  lemma {:induction false} NoContributors(s: State, n: nat)
    requires Init(s) && n <= |s.tasks|
    ensures Contributors(s.tasks[..n]) == 0
  {
    if n > 0 {
      NoContributors(s, n - 1);
      assert s.tasks[..n][..n - 1] == s.tasks[..n - 1];
      assert InitTask(s, n - 1);
    }
  }

  lemma {:induction false} NoSum(s: State, n: nat)
    requires Init(s) && n <= |s.rqs|
    ensures SumUninterruptible(s.rqs[..n]) == 0
  {
    if n > 0 {
      NoSum(s, n - 1);
      assert s.rqs[..n][..n - 1] == s.rqs[..n - 1];
    }
  }

  lemma StepBalanced(s: State, a: Action)
    requires Inv(s) && Balanced(s) && Enabled(s, a)
    ensures Balanced(Apply(s, a))
  {
    match a
    case Scheduling(x) => ScheduleBalanced(s, x);
    case Executes(x) => TaskBalanced(s, x);
    case Wakes(x) => WakeBalanced(s, x);
    case Queues(x) => QueueBalanced(s, x);
    case Interrupts(x) => IpiBalanced(s, x);
    case Places(x) => PlaceBalanced(s, x);
  }

  lemma DecideBalanced(s: State, c: Cpu, preempt: bool, signal: bool)
    requires Inv(s) && Balanced(s) && CanSchedDecide(s, c, preempt, signal)
    ensures Balanced(DoSchedDecide(s, c, preempt, signal))
  {
    assert RunOk(s, c) && TaskOk(s, s.rqs[c].curr);
    Settle(s, DoSchedDecide(s, c, preempt, signal), s.rqs[c].curr, c);
  }

  lemma WorkerBalanced(s: State, c: Cpu, w: Tid)
    requires Balanced(s) && w < |s.tasks| && c < |s.rqs| && s.tasks[w].born
    ensures Balanced(WakeLocal(s, c, w))
  {
    Settle(s, WakeLocal(s, c, w), w, c);
  }

  lemma RelockBalanced(s: State, c: Cpu)
    requires Inv(s) && Balanced(s) && CanWakeWorkerRelock(s, c)
    ensures Balanced(DoWakeWorkerRelock(s, c))
  {
    assert RunOk(s, c);
    var w := s.rqs[c].pc.worker;
    var s1 := s.SetRq(c, s.rqs[c].(lock := BySchedule, pc := Decided)).SetTask(w, s.tasks[w].(pi := PiFree));
    Settle(s, s1, w, c);
    WorkerBalanced(s1, c, w);
  }

  lemma ScheduleBalanced(s: State, a: ScheduleAction)
    requires Inv(s) && Balanced(s) && ScheduleEnabled(s, a)
    ensures Balanced(ScheduleStep(s, a))
  {
    match a
    case SchedLock(c) => Settle(s, DoSchedLock(s, c), 0, c);
    case SchedDecide(c, preempt, signal) => DecideBalanced(s, c, preempt, signal);
    case WakeWorker(c, w) => WorkerBalanced(s, c, w);
    case WakeWorkerDrop(c, w) => Settle(s, DoWakeWorkerDrop(s, c, w), 0, c);
    case WakeWorkerPi(c) => Settle(s, DoWakeWorkerPi(s, c), s.rqs[c].pc.worker, c);
    case WakeWorkerRelock(c) => RelockBalanced(s, c);
    case SchedDrop(c) => Settle(s, DoSchedDrop(s, c), 0, c);
    case SchedRetake(c) => Settle(s, DoSchedRetake(s, c), 0, c);
    case SchedPick(c, next) => Settle(s, DoSchedPick(s, c, next), next, c);
    case SchedFinish(c) => Settle(s, DoSchedFinish(s, c), s.rqs[c].pc.prev, c);
    case SchedUnlock(c) => Settle(s, DoSchedUnlock(s, c), 0, c);
  }

  lemma TaskBalanced(s: State, a: TaskAction)
    requires Inv(s) && Balanced(s) && TaskEnabled(s, a)
    ensures Balanced(TaskStep(s, a))
  {
    assert RunOk(s, a.c);
    var p := s.rqs[a.c].curr;
    assert TaskOk(s, p);
    Settle(s, TaskStep(s, a), p, a.c);
  }

  /** Nor can a change of p alone upset them that leaves its contribution. */
  lemma SettleTask(s: State, p: Tid, t: Task)
    requires Balanced(s) && p < |s.tasks| && Contributing(t) == Contributing(s.tasks[p])
    ensures Balanced(s.SetTask(p, t))
  {
    ContributorsUpdate(s.tasks, p, t);
  }

  lemma UnlockBalanced(s: State, p: Tid)
    requires Balanced(s) && CanTtwuUnlock(s, p)
    ensures Balanced(DoTtwuUnlock(s, p))
  {
    Settle(s, DoTtwuUnlock(s, p), p, s.tasks[p].waker);
  }

  lemma EnterBalanced(s: State, p: Tid, mask: set<TaskState>, signaller: bool, on: Cpu)
    requires Balanced(s) && CanTtwuEnter(s, p, mask, signaller, on)
    ensures Balanced(DoTtwuEnter(s, p, mask, signaller, on))
  {
    Settle(s, DoTtwuEnter(s, p, mask, signaller, on), p, on);
  }

  lemma MarkBalanced(s: State, p: Tid)
    requires Inv(s) && Balanced(s) && CanTtwuMark(s, p)
    ensures Balanced(DoTtwuMark(s, p))
  {
    assert TaskOk(s, p);
    SettleTask(s, p, DoTtwuMark(s, p).tasks[p]);
  }

  lemma RemoteBalanced(s: State, p: Tid)
    requires Inv(s) && Balanced(s) && CanTtwuRemote(s, p)
    ensures Balanced(DoTtwuRemote(s, p))
  {
    assert TaskOk(s, p);
    SettleTask(s, p, DoTtwuRemote(s, p).tasks[p]);
  }

  lemma WakeBalanced(s: State, a: WakeAction)
    requires Inv(s) && Balanced(s) && WakeEnabled(s, a)
    ensures Balanced(WakeStep(s, a))
  {
    hide Inv, Balanced;
    match a
    case Signal(p) => SettleTask(s, p, DoSignal(s, p).tasks[p]);
    case TtwuEnter(p, mask, signaller, on) => EnterBalanced(s, p, mask, signaller, on);
    case TtwuReadOnRq(p) => SettleTask(s, p, DoTtwuReadOnRq(s, p).tasks[p]);
    case TtwuReadRq(p) => SettleTask(s, p, DoTtwuReadRq(s, p).tasks[p]);
    case TtwuRemote(p) => RemoteBalanced(s, p);
    case TtwuMark(p) => MarkBalanced(s, p);
    case TtwuPlace(p, dest) => SettleTask(s, p, DoTtwuPlace(s, p, dest).tasks[p]);
    case TtwuUnlock(p) => UnlockBalanced(s, p);
  }

  lemma QueueBalanced(s: State, a: QueueAction)
    requires Inv(s) && Balanced(s) && QueueEnabled(s, a)
    ensures Balanced(QueueStep(s, a))
  {
    assert TaskOk(s, a.p);
    Settle(s, QueueStep(s, a), a.p, s.tasks[a.p].pi.dest);
  }

  lemma IpiBalanced(s: State, a: IpiAction)
    requires Inv(s) && Balanced(s) && IpiEnabled(s, a)
    ensures Balanced(IpiStep(s, a))
  {
    if a.IpiActivate? {
      var p := s.rqs[a.c].handler.list.tid;
      assert ListOk(s, a.c);
      assert s.rqs[a.c].drained[0] == p && Listed(s, p, a.c);
      Settle(s, IpiStep(s, a), p, a.c);
    } else {
      Settle(s, IpiStep(s, a), 0, a.c);
    }
  }

  lemma PlaceBalanced(s: State, a: PlaceAction)
    requires Inv(s) && Balanced(s) && PlaceEnabled(s, a)
    ensures Balanced(PlaceStep(s, a))
  {
    assert TaskOk(s, a.p);
    match a
    case WakeNew(p, dest) => Settle(s, DoWakeNew(s, p, dest), p, dest);
    case SetAffinity(p, mask) => Settle(s, DoSetAffinity(s, p, mask), p, 0);
    case Balance(p, dest) => MoveBalanced(s, p, dest);
    case Migrate(p, src, dest) =>
      if DoMigrate(s, p, src, dest) != s {
        assert RunOk(s, src);
        MoveBalanced(s, p, dest);
      }
  }

  // ---------------------------------------------------------------- safety

  /** CPU c executes p, or is still switching away from it. */
  predicate RunningOn(s: State, p: Tid, c: Cpu) {
    c < |s.rqs| && (s.rqs[c].curr == p || s.rqs[c].pc == Switched(p))
  }

  predicate QueuedOn(s: State, p: Tid, c: Cpu) {
    c < |s.rqs| && p in s.rqs[c].queue
  }

  predicate WaitsOn(s: State, p: Tid, c: Cpu) {
    c < |s.rqs| && OnList(s, p, c)
  }

  /** Wherever a task is found, its cpu field and its flags say so. */
  lemma WhereIs(s: State, p: Tid, c: Cpu)
    requires Inv(s)
    ensures QueuedOn(s, p, c) || WaitsOn(s, p, c) || RunningOn(s, p, c)
            ==> p < |s.tasks| && s.tasks[p].cpu == c && s.tasks[p].born
    ensures QueuedOn(s, p, c) ==> s.tasks[p].onRq
    ensures RunningOn(s, p, c) ==> s.tasks[p].onCpu
    ensures WaitsOn(s, p, c) ==> s.tasks[p].state.Waking?
  {
    if c < |s.rqs| {
      assert RunOk(s, c);
      if WaitsOn(s, p, c) { ListedOnce(s, p, c); }
    }
  }

  /** A task is in at most one place and runs on at most one CPU. */
  lemma SinglePlace(s: State, p: Tid, c: Cpu, d: Cpu)
    requires Reachable(s)
    ensures QueuedOn(s, p, c) && QueuedOn(s, p, d) ==> c == d
    ensures WaitsOn(s, p, c) && WaitsOn(s, p, d) ==> c == d
    ensures RunningOn(s, p, c) && RunningOn(s, p, d) ==> c == d
    ensures !(QueuedOn(s, p, c) && WaitsOn(s, p, d)) && !(RunningOn(s, p, c) && WaitsOn(s, p, d))
    ensures QueuedOn(s, p, c) && RunningOn(s, p, d) ==> c == d
  {
    ReachableOk(s);
    WhereIs(s, p, c);
    WhereIs(s, p, d);
    if p < |s.tasks| { assert TaskOk(s, p); }
    hide Inv, TaskOk, RunOk, ListOk, OnList;
  }

  /** on_rq and on_cpu say exactly where the task is, so the lockless readers can rely on them. */
  lemma FlagsAreAccurate(s: State, p: Tid)
    requires Reachable(s) && p < |s.tasks|
    ensures s.tasks[p].onRq <==> QueuedOn(s, p, s.tasks[p].cpu)
    ensures s.tasks[p].onCpu <==> RunningOn(s, p, s.tasks[p].cpu)
    ensures forall c: Cpu :: c < |s.rqs| ==> s.rqs[c].nrRunning == |s.rqs[c].queue|
  {
    ReachableOk(s);
    assert TaskOk(s, p) && RunOk(s, s.tasks[p].cpu);
    forall c: Cpu | c < |s.rqs| ensures s.rqs[c].nrRunning == |s.rqs[c].queue| { assert RunOk(s, c); }
  }

  /** on_cpu is cleared before the switching CPU drops its lock: an unlocked CPU has one on_cpu task, its current. */
  lemma SwitchedBeforeUnlock(s: State, p: Tid, c: Cpu)
    requires Reachable(s) && p < |s.tasks| && c < |s.rqs|
    requires !s.rqs[c].lock.BySchedule? && s.tasks[p].onCpu && s.tasks[p].cpu == c
    ensures p == s.rqs[c].curr
  {
    ReachableOk(s);
    assert TaskOk(s, p) && RunOk(s, c);
  }

  /** The busy wait in try_to_wake_up only waits for a CPU that is inside __schedule with p as its previous task. */
  lemma SpinWaitsForSwitch(s: State, p: Tid)
    requires Reachable(s) && p < |s.tasks| && s.tasks[p].pi.Spin? && s.tasks[p].onCpu
    ensures s.tasks[p].cpu < |s.rqs|
    ensures var r := s.rqs[s.tasks[p].cpu];
            r.pc == Switched(p) || (r.curr == p && (r.pc.Decided? || r.pc.WaitPi? || r.pc.HavePi? || r.pc.Balancing?))
  {
    ReachableOk(s);
    assert TaskOk(s, p) && RunOk(s, s.tasks[p].cpu);
  }

  /** The sum of the per-CPU counters is exact although single counters can be negative. */
  lemma UninterruptibleConserved(s: State)
    requires Reachable(s)
    ensures SumUninterruptible(s.rqs) == Contributors(s.tasks)
  {
    ReachableOk(s);
  }

  // ---------------------------------------------------------------- affinity

  /** p is on a CPU it may run on. */
  predicate Inside(s: State, p: Tid) {
    p < |s.tasks| && s.tasks[p].cpu in s.tasks[p].allowed
  }

  /** The step takes p's CPU out of its mask. */
  predicate ShutsOut(s: State, a: Action, p: Tid) {
    p < |s.tasks| && a.Places? && a.places.SetAffinity? && a.places.p == p && s.tasks[p].cpu !in a.places.mask
  }

  predicate LetsIn(s: State, a: Action, p: Tid) {
    p < |s.tasks| && a.Places? && a.places.SetAffinity? && a.places.p == p && s.tasks[p].cpu in a.places.mask
  }

  /** Another CPU is one the mask allows, and both do not change at once. */
  predicate PlacedInside(s: State, s': State, p: Tid)
    requires p < |s.tasks|
  {
    && |s'.tasks| == |s.tasks|
    && (s'.tasks[p].cpu != s.tasks[p].cpu ==> s'.tasks[p].cpu in s.tasks[p].allowed)
    && s'.tasks[p].allowed == s.tasks[p].allowed
  }

  lemma WorkerPlaced(s: State, c: Cpu, w: Tid, p: Tid)
    requires w < |s.tasks| && c < |s.rqs| && p < |s.tasks|
    ensures PlacedInside(s, WakeLocal(s, c, w), p)
  {
  }

  lemma PlacedInSchedule(s: State, a: ScheduleAction, p: Tid)
    requires ScheduleEnabled(s, a) && p < |s.tasks|
    ensures PlacedInside(s, ScheduleStep(s, a), p)
  {
    if a.WakeWorker? {
      WorkerPlaced(s, a.c, a.w, p);
    } else if a.WakeWorkerRelock? {
      var w := s.rqs[a.c].pc.worker;
      WorkerPlaced(s.SetRq(a.c, s.rqs[a.c].(lock := BySchedule, pc := Decided)).SetTask(w, s.tasks[w].(pi := PiFree)),
                   a.c, w, p);
    }
    hide WakeLocal;
  }

  lemma PlacedInTask(s: State, a: TaskAction, p: Tid)
    requires TaskEnabled(s, a) && p < |s.tasks|
    ensures PlacedInside(s, TaskStep(s, a), p)
  {
  }

  lemma PlacedInWake(s: State, a: WakeAction, p: Tid)
    requires WakeEnabled(s, a) && p < |s.tasks|
    ensures PlacedInside(s, WakeStep(s, a), p)
  {
    match a
    case Signal(q) => assert PlacedInside(s, DoSignal(s, q), p);
    case TtwuEnter(q, mask, signaller, on) => assert PlacedInside(s, DoTtwuEnter(s, q, mask, signaller, on), p);
    case TtwuReadOnRq(q) => assert PlacedInside(s, DoTtwuReadOnRq(s, q), p);
    case TtwuReadRq(q) => assert PlacedInside(s, DoTtwuReadRq(s, q), p);
    case TtwuRemote(q) => assert PlacedInside(s, DoTtwuRemote(s, q), p);
    case TtwuMark(q) => assert PlacedInside(s, DoTtwuMark(s, q), p);
    case TtwuPlace(q, dest) => assert PlacedInside(s, DoTtwuPlace(s, q, dest), p);
    case TtwuUnlock(q) => assert PlacedInside(s, DoTtwuUnlock(s, q), p);
  }

  lemma PlacedInQueue(s: State, a: QueueAction, p: Tid)
    requires QueueEnabled(s, a) && p < |s.tasks|
    ensures PlacedInside(s, QueueStep(s, a), p)
  {
  }

  lemma PlacedInIpi(s: State, a: IpiAction, p: Tid)
    requires IpiEnabled(s, a) && p < |s.tasks|
    ensures PlacedInside(s, IpiStep(s, a), p)
  {
  }

  lemma PlacedInPlace(s: State, a: PlaceAction, p: Tid)
    requires PlaceEnabled(s, a) && p < |s.tasks|
    ensures PlacedInside(s, PlaceStep(s, a), p)
            || (a.SetAffinity? && a.p == p && PlaceStep(s, a) == s.SetTask(p, s.tasks[p].(allowed := a.mask)))
  {
  }

  /** Every step that puts a task on another CPU, wakeup, fork, migration and balancing alike, picks one its mask allows
      at that step; only set_cpus_allowed_ptr changes the mask. */
  lemma PlacedWhereAllowed(s: State, a: Action, p: Tid)
    requires Enabled(s, a) && p < |s.tasks|
    ensures PlacedInside(s, Apply(s, a), p)
            || (a.Places? && a.places.SetAffinity? && a.places.p == p
                && Apply(s, a) == s.SetTask(p, s.tasks[p].(allowed := a.places.mask)))
  {
    match a
    case Scheduling(x) => PlacedInSchedule(s, x, p);
    case Executes(x) => PlacedInTask(s, x, p);
    case Wakes(x) => PlacedInWake(s, x, p);
    case Queues(x) => PlacedInQueue(s, x, p);
    case Interrupts(x) => PlacedInIpi(s, x, p);
    case Places(x) => PlacedInPlace(s, x, p);
  }

  /** A task leaves its mask exactly by a change of the mask that shuts its CPU out, wherever it is at that time, and
      returns exactly by a move or by another change of the mask. */
  lemma OutsideIff(s: State, a: Action, p: Tid)
    requires Enabled(s, a) && p < |s.tasks|
    ensures |Apply(s, a).tasks| == |s.tasks|
    ensures Inside(s, p) ==> (!Inside(Apply(s, a), p) <==> ShutsOut(s, a, p))
    ensures !Inside(s, p) ==>
              (Inside(Apply(s, a), p) <==> LetsIn(s, a, p) || Apply(s, a).tasks[p].cpu != s.tasks[p].cpu)
  {
    PlacedWhereAllowed(s, a, p);
    if LetsIn(s, a, p) || ShutsOut(s, a, p) {
      assert Apply(s, a) == DoSetAffinity(s, p, a.places.mask);
    }
    hide Apply, Enabled;
  }

  /** The change takes effect wherever the task is: it stays queued or running where it was, outside its mask, and the
      stopper is asked to move it exactly if it is queued. */
  lemma ShutOutInPlace(s: State, p: Tid, mask: set<Cpu>, c: Cpu)
    requires Reachable(s) && CanSetAffinity(s, p, mask) && s.tasks[p].cpu !in mask
    ensures var s' := DoSetAffinity(s, p, mask);
            && !Inside(s', p)
            && (QueuedOn(s', p, c) <==> QueuedOn(s, p, c)) && (RunningOn(s', p, c) <==> RunningOn(s, p, c))
            && (WaitsOn(s', p, c) <==> WaitsOn(s, p, c))
    ensures AsksForMove(s.tasks[p], mask) <==> QueuedOn(s, p, s.tasks[p].cpu)
  {
    FlagsAreAccurate(s, p);
  }

  predicate NeverShutOut(s: State, run: seq<Action>, p: Tid)
    requires Runs(s, run)
    decreases |run|
  {
    run == [] || (!ShutsOut(s, run[0], p) && NeverShutOut(Apply(s, run[0]), run[1..], p))
  }

  /** Until its CPU is shut out a task is only ever where its mask allows. */
  lemma {:induction false} InsideRun(s: State, run: seq<Action>, p: Tid)
    requires Runs(s, run) && Inside(s, p) && NeverShutOut(s, run, p)
    ensures Inside(After(s, run), p)
    decreases |run|
  {
    if run != [] {
      OutsideIff(s, run[0], p);
      InsideRun(Apply(s, run[0]), run[1..], p);
    }
  }

  /** A task shut out while it waits on a wake list is not queued, so nobody is asked to move it, and every further step
      leaves it listed there, changes the mask again or activates it on the forbidden CPU. */
  lemma ListedShutOut(s: State, a: Action, p: Tid, c: Cpu)
    requires Reachable(s) && Enabled(s, a) && WaitsOn(s, p, c) && p < |s.tasks|
    ensures forall mask :: !AsksForMove(s.tasks[p], mask)
    ensures !Inside(s, p) && !LetsIn(s, a, p) ==>
              && !Inside(Apply(s, a), p)
              && (WaitsOn(Apply(s, a), p, c) || (a == Interrupts(IpiActivate(c)) && QueuedOn(Apply(s, a), p, c)))
  {
    ReachableOk(s);
    WhereIs(s, p, c);
    assert TaskOk(s, p);
    EntryStable(s, a, p, c);
    OutsideIff(s, a, p);
    StayedWhere(s, a, p, c);
  }

  lemma StayedWhere(s: State, a: Action, p: Tid, c: Cpu)
    requires Reachable(s) && Enabled(s, a) && p < |s.tasks| && WaitsOn(s, p, c)
    ensures p < |Apply(s, a).tasks| && Apply(s, a).tasks[p].cpu == s.tasks[p].cpu
  {
    ReachableOk(s);
    StepOk(s, a);
    EntryStable(s, a, p, c);
    WhereIs(s, p, c);
    WhereIs(Apply(s, a), p, c);
  }

  // ---------------------------------------------------------------- no lost wakeup

  /** A waker of p is between setting the condition and the end of try_to_wake_up. */
  predicate WakerInFlight(s: State, p: Tid)
    requires p < |s.tasks|
  {
    s.tasks[p].wakers > 0 || WakeOwed(s.tasks[p].pi) || Carried(s.tasks[p].pi)
  }

  /** Once no waker is in flight, a task whose condition is set is on a runqueue or on a wake list. */
  lemma NoLostWakeup(s: State, p: Tid)
    requires Reachable(s) && p < |s.tasks| && s.tasks[p].condition && s.tasks[p].sleeper.MustSleep?
    ensures WakerInFlight(s, p) || QueuedOn(s, p, s.tasks[p].cpu) || WaitsOn(s, p, s.tasks[p].cpu)
  {
    ReachableOk(s);
    assert TaskOk(s, p);
  }

  /** A non-empty wake list always has an IPI pending, being handled, or about to be sent. */
  lemma WakeListIsServed(s: State, c: Cpu)
    requires Reachable(s) && c < |s.rqs| && !s.rqs[c].wakeList.Null?
    ensures s.rqs[c].ipi || s.rqs[c].handler.Entered? || KickPending(s, c)
  {
    ReachableOk(s);
    assert ListOk(s, c);
  }

  // ---------------------------------------------------------------- the lock-free stack

  /** The pointers spell out exactly the abstract list, and a task is on a list as often as it was pushed but not popped. */
  lemma WakeListIsStack(s: State, c: Cpu, p: Tid)
    requires Reachable(s) && c < |s.rqs| && p < |s.tasks|
    ensures Chain(s.tasks, s.rqs[c].wakeList, s.rqs[c].pending)
    ensures Chain(s.tasks, Taken(s.rqs[c].handler), s.rqs[c].drained)
    ensures Distinct(s.rqs[c].pending + s.rqs[c].drained)
    ensures s.tasks[p].pushes == s.tasks[p].pops + Weight(WaitsOn(s, p, s.tasks[p].cpu))
    ensures WaitsOn(s, p, c) ==> c == s.tasks[p].cpu && s.tasks[p].state.Waking?
  {
    ReachableOk(s);
    assert ListOk(s, c) && TaskOk(s, p);
  }

  ghost predicate StaysListed(s: State, s': State, p: Tid, c: Cpu)
    requires p < |s.tasks|
  {
    && |s'.tasks| == |s.tasks| && WaitsOn(s', p, c)
    && s'.tasks[p].wakeEntry == s.tasks[p].wakeEntry && s'.tasks[p].state.Waking? && s'.tasks[p].pops == s.tasks[p].pops
  }

  ghost predicate IsActivated(s: State, s': State, p: Tid, c: Cpu)
    requires p < |s.tasks|
  {
    && |s'.tasks| == |s.tasks| && !WaitsOn(s', p, c) && QueuedOn(s', p, c)
    && s'.tasks[p].wakeEntry == s.tasks[p].wakeEntry && s'.tasks[p].pops == s.tasks[p].pops + 1
  }

  /** While p is listed its wake_entry is never rewritten, and it leaves the list only by being activated, once. */
  lemma EntryStable(s: State, a: Action, p: Tid, c: Cpu)
    requires Reachable(s) && Enabled(s, a) && p < |s.tasks| && WaitsOn(s, p, c)
    ensures StaysListed(s, Apply(s, a), p, c)
            || (a == Interrupts(IpiActivate(c)) && IsActivated(s, Apply(s, a), p, c))
  {
    ReachableOk(s);
    ListedOnce(s, p, c);
    hide Inv, Listed, StaysListed, IsActivated, WaitsOn, ScheduleStep, TaskStep, WakeStep, QueueStep, IpiStep, PlaceStep,
         ScheduleEnabled, TaskEnabled, WakeEnabled, QueueEnabled, IpiEnabled, PlaceEnabled;
    match a
    case Scheduling(x) => ListedInSchedule(s, x, p, c);
    case Executes(x) => ListedInTask(s, x, p, c);
    case Wakes(x) => ListedInWake(s, x, p, c);
    case Queues(x) => ListedInQueue(s, x, p, c);
    case Interrupts(x) => ListedInIpi(s, x, p, c);
    case Places(x) => ListedInPlace(s, x, p, c);
  }

  lemma ListedInTask(s: State, a: TaskAction, p: Tid, c: Cpu)
    requires Inv(s) && TaskEnabled(s, a) && WaitsOn(s, p, c) && Listed(s, p, c)
    ensures StaysListed(s, TaskStep(s, a), p, c)
  {
    assert RunOk(s, a.c) && TaskOk(s, p);
    assert s.rqs[a.c].curr != p;
  }

  lemma ListedInWake(s: State, a: WakeAction, p: Tid, c: Cpu)
    requires Inv(s) && WakeEnabled(s, a) && WaitsOn(s, p, c) && Listed(s, p, c)
    ensures StaysListed(s, WakeStep(s, a), p, c)
  {
    assert TaskOk(s, a.p);
  }

  lemma ListedInPlace(s: State, a: PlaceAction, p: Tid, c: Cpu)
    requires Inv(s) && PlaceEnabled(s, a) && WaitsOn(s, p, c) && Listed(s, p, c)
    ensures StaysListed(s, PlaceStep(s, a), p, c)
  {
    assert TaskOk(s, a.p);
  }

  /** p's record is left alone apart from flags, and the lists of every CPU stay as they are. */
  predicate Untouched(s: State, s': State, p: Tid) {
    && |s'.tasks| == |s.tasks| && |s'.rqs| == |s.rqs| && p < |s.tasks|
    && s'.tasks[p] == s.tasks[p]
    && forall d: Cpu :: d < |s.rqs| ==> s'.rqs[d].pending == s.rqs[d].pending && s'.rqs[d].drained == s.rqs[d].drained
  }

  lemma UntouchedByWorker(s: State, c: Cpu, w: Tid, p: Tid)
    requires w < |s.tasks| && c < |s.rqs| && p < |s.tasks| && s.tasks[p].state.Waking?
    ensures Untouched(s, WakeLocal(s, c, w), p)
  {
  }

  lemma ListedThroughSchedule(s: State, a: ScheduleAction, p: Tid, c: Cpu)
    requires ScheduleEnabled(s, a) && WaitsOn(s, p, c) && Listed(s, p, c) && RunOk(s, a.c) && TaskOk(s, p)
    ensures StaysListed(s, ScheduleStep(s, a), p, c)
  {
    if a.WakeWorker? {
      UntouchedByWorker(s, a.c, a.w, p);
    } else if a.WakeWorkerRelock? {
      ListedThroughRelock(s, a.c, p, c);
    } else if a.SchedDecide? {
      assert s.rqs[a.c].curr != p;
    }
  }

  lemma ListedThroughRelock(s: State, a: Cpu, p: Tid, c: Cpu)
    requires CanWakeWorkerRelock(s, a) && WaitsOn(s, p, c) && Listed(s, p, c) && RunOk(s, a)
    ensures StaysListed(s, DoWakeWorkerRelock(s, a), p, c)
  {
    var w := s.rqs[a].pc.worker;
    var s1 := s.SetRq(a, s.rqs[a].(lock := BySchedule, pc := Decided)).SetTask(w, s.tasks[w].(pi := PiFree));
    UntouchedByWorker(s1, a, w, p);
  }

  lemma ListedInSchedule(s: State, a: ScheduleAction, p: Tid, c: Cpu)
    requires Inv(s) && ScheduleEnabled(s, a) && WaitsOn(s, p, c) && Listed(s, p, c)
    ensures StaysListed(s, ScheduleStep(s, a), p, c)
  {
    assert RunOk(s, a.c) && TaskOk(s, p);
    ListedThroughSchedule(s, a, p, c);
  }

  lemma ListedInQueue(s: State, a: QueueAction, p: Tid, c: Cpu)
    requires Inv(s) && QueueEnabled(s, a) && WaitsOn(s, p, c) && Listed(s, p, c)
    ensures StaysListed(s, QueueStep(s, a), p, c)
  {
    assert TaskOk(s, a.p);
  }

  lemma PopListed(s: State, c: Cpu, p: Tid)
    requires CanIpiActivate(s, c) && ListOk(s, c) && WaitsOn(s, p, c) && Listed(s, p, c)
    ensures StaysListed(s, DoIpiActivate(s, c), p, c) || IsActivated(s, DoIpiActivate(s, c), p, c)
  {
    var r, q := s.rqs[c], s.rqs[c].handler.list.tid;
    PopChain(s.tasks, q, r.drained);
    PopDistinct(r.pending, r.drained);
    hide ListOk, Chain, Distinct;
    var s' := DoIpiActivate(s, c);
    assert s'.rqs[c].pending == r.pending && s'.rqs[c].drained == r.drained[1..];
    if p != q {
      assert r.drained == [q] + r.drained[1..];
      assert WaitsOn(s', p, c);
    }
  }

  lemma ListedInIpi(s: State, a: IpiAction, p: Tid, c: Cpu)
    requires Inv(s) && IpiEnabled(s, a) && WaitsOn(s, p, c) && Listed(s, p, c)
    ensures StaysListed(s, IpiStep(s, a), p, c) || (a == IpiActivate(c) && IsActivated(s, IpiStep(s, a), p, c))
  {
    assert ListOk(s, a.c);
    if a.IpiActivate? {
      if a.c == c {
        PopListed(s, c, p);
      } else {
        assert s.rqs[a.c].drained[0] == s.rqs[a.c].handler.list.tid && Listed(s, s.rqs[a.c].drained[0], a.c);
        hide Inv, ListOk;
      }
    } else {
      hide Inv, ListOk;
    }
  }

  // ---------------------------------------------------------------- draining

  /** The steps of sched_ttwu_do_pending over a list of n tasks. */
  function DrainRun(c: Cpu, n: nat): seq<Action> {
    if n == 0 then [Interrupts(IpiUnlock(c))] else [Interrupts(IpiActivate(c))] + DrainRun(c, n - 1)
  }

  lemma DrainOne(s: State, c: Cpu)
    requires Inv(s) && c < |s.rqs| && s.rqs[c].handler.Draining? && s.rqs[c].drained != []
    ensures CanIpiActivate(s, c) && Inv(DoIpiActivate(s, c))
    ensures var r, r' := s.rqs[c], DoIpiActivate(s, c).rqs[c];
            r'.handler.Draining? && r'.drained == r.drained[1..] && r'.queue == r.queue + {r.drained[0]}
  {
    assert ListOk(s, c);
    assert Listed(s, s.rqs[c].drained[0], c);
    IpiActivateOk(s, c);
  }

  lemma DrainLast(s: State, c: Cpu)
    requires Inv(s) && c < |s.rqs| && s.rqs[c].handler.Draining? && s.rqs[c].drained == []
    ensures Runs(s, DrainRun(c, 0))
    ensures After(s, DrainRun(c, 0)) == DoIpiUnlock(s, c)
  {
    assert ListOk(s, c);
    assert DrainRun(c, 0)[1..] == [];
  }

  lemma DrainFirst(s: State, c: Cpu, n: nat)
    requires CanIpiActivate(s, c) && Runs(DoIpiActivate(s, c), DrainRun(c, n))
    ensures Runs(s, DrainRun(c, n + 1))
    ensures After(s, DrainRun(c, n + 1)) == After(DoIpiActivate(s, c), DrainRun(c, n))
  {
    hide DoIpiActivate;
    assert DrainRun(c, n + 1)[1..] == DrainRun(c, n);
  }

  function Members(list: seq<Tid>): set<Tid> {
    set p | p in list
  }

  lemma MembersOf(list: seq<Tid>)
    requires list != []
    ensures Members(list) == {list[0]} + Members(list[1..])
  {
    assert list == [list[0]] + list[1..];
  }

  /** Once the handler has the lock nothing can stop it: the loop follows the pointers to the end of what xchg took,
      activates every task of it on this CPU and unlocks. */
  lemma {:induction false} DrainCompletes(s: State, c: Cpu)
    requires Inv(s) && c < |s.rqs| && s.rqs[c].handler.Draining?
    ensures var run := DrainRun(c, |s.rqs[c].drained|);
            && Runs(s, run)
            && c < |After(s, run).rqs| && After(s, run).rqs[c].drained == []
            && After(s, run).rqs[c].lock.Nobody?
            && After(s, run).rqs[c].queue == s.rqs[c].queue + Members(s.rqs[c].drained)
    decreases |s.rqs[c].drained|
  {
    hide Inv, Apply, Enabled;
    var list := s.rqs[c].drained;
    if list == [] {
      DrainLast(s, c);
    } else {
      DrainOne(s, c);
      hide DoIpiActivate;
      DrainCompletes(DoIpiActivate(s, c), c);
      DrainFirst(s, c, |list| - 1);
      MembersOf(list);
    }
  }
}
