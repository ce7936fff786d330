/**
 The wakeup, context-switch and migration protocol of the scheduler as a state machine over atomic steps, for any
 number of CPUs and tasks.

 One step is one lockless access (on_rq, on_cpu, the cmpxchg and xchg on a wake list) or one critical section under a
 runqueue lock whose effects no lockless reader can tell apart.  __schedule, whose critical section is observed from
 outside through on_rq and on_cpu, is several steps with the lock held between them.  At most one CPU holds a task's
 pi_lock, so its progress through try_to_wake_up is kept in the task it locks.  It holds it with interrupts disabled, so
 until it drops the lock it neither schedules nor takes an IPI.
 */
module WakeProtocol {

  type Cpu = nat
  type Tid = nat

  /** A wake_entry or wake_list pointer. */
  datatype Link = Null | To(tid: Tid)

  datatype TaskState = Running | Interruptible | Uninterruptible | Stopped | Dead | Waking

  /** What the thread that holds p->pi_lock is about to do. */
  datatype PiOp =
    | PiFree
    | Matched                               // the state test of try_to_wake_up passed
    | SawOnRq                               // p->on_rq was read as 1: about to read task_rq(p)
    | Remote(rq: Cpu)                       // about to lock the runqueue that was read
    | Spin                                  // busy-waiting for p->on_cpu to clear
    | Marked                                // p->state = TASK_WAKING is done
    | Placed(dest: Cpu)                     // set_task_cpu is done, ttwu_queue is next
    | Pushing(dest: Cpu, next: Link)        // the wake list head was read
    | Linked(dest: Cpu, seen: Link)         // p->wake_entry is written, cmpxchg is next
    | Kick(dest: Cpu)                       // cmpxchg found an empty list: the IPI is still to be sent
    | Finished                              // only raw_spin_unlock_irqrestore of pi_lock is left
    | LocalWake(rq: Cpu)                    // try_to_wake_up_local has pi_lock and waits for the runqueue lock

  /** A task that sleeps on a condition: set the state, test, schedule, and again. */
  datatype Sleeper = Awake | Prepared | SawCondition | MustSleep

  datatype Task = Task(
    state: TaskState,
    onRq: bool,
    onCpu: bool,
    cpu: Cpu,
    wakeEntry: Link,
    contributes: bool,                      // sched_contributes_to_load
    allowed: set<Cpu>,
    bound: bool,                            // PF_THREAD_BOUND
    born: bool,                             // wake_up_new_task is done
    pi: PiOp,
    waker: Cpu,                              // the CPU that is inside try_to_wake_up of this task, if there is one
    condition: bool,                        // what this task sleeps for
    wakers: nat,                            // wakers that have set the condition and not yet taken pi_lock
    sleeper: Sleeper,
    pushes: nat,                            // history: completed pushes on a wake list
    pops: nat)                              // history: activations from a wake list

  datatype Owner = Nobody | BySchedule | ByIpi

  /** Progress of __schedule on one CPU. */
  datatype SchedPc =
    | Out
    | Locked
    | Decided
    | WaitPi(worker: Tid)                   // try_to_wake_up_local dropped the runqueue lock
    | HavePi(worker: Tid)
    | Balancing                             // pre_schedule or idle_balance dropped the runqueue lock
    | Switched(prev: Tid)                   // rq->curr and next->on_cpu are written
    | Unlocking

  /** Progress of scheduler_ipi on one CPU. */
  datatype Handler = Quiet | Entered | Have(list: Link) | Draining(list: Link)

  datatype Rq = Rq(
    curr: Tid,
    queue: set<Tid>,
    lock: Owner,
    pc: SchedPc,
    wakeList: Link,
    ipi: bool,
    handler: Handler,
    waking: Link,                           // the task whose pi_lock this CPU holds in try_to_wake_up
    nrRunning: int,
    nrUninterruptible: int,
    pending: seq<Tid>,                      // history: contents of the wake list, newest first
    drained: seq<Tid>)                      // history: what the handler took and has not activated

  /** Task c is the idle task of CPU c for every CPU. */
  datatype State = State(tasks: seq<Task>, rqs: seq<Rq>) {
    predicate Idle(p: Tid) { p < |rqs| }

    function SetTask(p: Tid, t: Task): State
      requires p < |tasks|
    {
      this.(tasks := tasks[p := t])
    }

    function SetRq(c: Cpu, r: Rq): State
      requires c < |rqs|
    {
      this.(rqs := rqs[c := r])
    }
  }

  predicate Normal(st: TaskState) {
    st.Interruptible? || st.Uninterruptible?
  }

  /** The states try_to_wake_up can be asked to wake: TASK_DEAD and TASK_WAKING are in no mask, TASK_RUNNING is 0. */
  predicate Wakeable(st: TaskState) {
    Normal(st) || st.Stopped?
  }

  /** __schedule and try_to_wake_up_local. */
  datatype ScheduleAction =
    | SchedLock(c: Cpu)
    | SchedDecide(c: Cpu, preempt: bool, signal: bool)
    | WakeWorker(c: Cpu, w: Tid)
    | WakeWorkerDrop(c: Cpu, w: Tid)
    | WakeWorkerPi(c: Cpu)
    | WakeWorkerRelock(c: Cpu)
    | SchedDrop(c: Cpu)
    | SchedRetake(c: Cpu)
    | SchedPick(c: Cpu, next: Tid)
    | SchedFinish(c: Cpu)
    | SchedUnlock(c: Cpu)

  /** The task a CPU runs. */
  datatype TaskAction =
    | SetState(c: Cpu, st: TaskState)
    | Prepare(c: Cpu, st: TaskState)
    | TestCondition(c: Cpu)
    | FinishWait(c: Cpu, consume: bool)
    | WaitAgain(c: Cpu)

  /** try_to_wake_up. */
  datatype WakeAction =
    | Signal(p: Tid)
    | TtwuEnter(p: Tid, mask: set<TaskState>, signaller: bool, on: Cpu)
    | TtwuReadOnRq(p: Tid)
    | TtwuReadRq(p: Tid)
    | TtwuRemote(p: Tid)
    | TtwuMark(p: Tid)
    | TtwuPlace(p: Tid, dest: Cpu)
    | TtwuUnlock(p: Tid)

  /** ttwu_queue. */
  datatype QueueAction =
    | QueueLocal(p: Tid)
    | QueueReadHead(p: Tid)
    | QueueStoreEntry(p: Tid)
    | QueueCmpxchg(p: Tid)
    | QueueSendIpi(p: Tid)

  /** scheduler_ipi. */
  datatype IpiAction =
    | IpiEnter(c: Cpu)
    | IpiXchg(c: Cpu)
    | IpiLock(c: Cpu)
    | IpiActivate(c: Cpu)
    | IpiUnlock(c: Cpu)

  /** wake_up_new_task, __migrate_task, load balancing and set_cpus_allowed_ptr. */
  datatype PlaceAction =
    | WakeNew(p: Tid, dest: Cpu)
    | Migrate(p: Tid, src: Cpu, dest: Cpu)
    | Balance(p: Tid, dest: Cpu)
    | SetAffinity(p: Tid, mask: set<Cpu>)

  datatype Action =
    | Scheduling(scheduling: ScheduleAction)
    | Executes(executes: TaskAction)
    | Wakes(wakes: WakeAction)
    | Queues(queues: QueueAction)
    | Interrupts(interrupts: IpiAction)
    | Places(places: PlaceAction)

  function Weight(b: bool): int { if b then 1 else 0 }

  /** activate_task, on_rq = 1 and ttwu_do_wakeup; `counted` says whether nr_uninterruptible drops. */
  function Activate(s: State, p: Tid, c: Cpu, counted: bool): State
    requires p < |s.tasks| && c < |s.rqs|
  {
    var r := s.rqs[c];
    s.SetTask(p, s.tasks[p].(onRq := true, state := Running))
     .SetRq(c, r.(queue := r.queue + {p}, nrRunning := r.nrRunning + 1,
                  nrUninterruptible := r.nrUninterruptible - Weight(counted)))
  }

  /** deactivate_task, set_task_cpu and activate_task under both runqueue locks. */
  function Move(s: State, p: Tid, dest: Cpu): State
    requires p < |s.tasks| && s.tasks[p].cpu < |s.rqs| && dest < |s.rqs|
  {
    var src := s.tasks[p].cpu;
    var w := Weight(s.tasks[p].state.Uninterruptible?);
    var rs := s.rqs[src];
    var s1 := s.SetRq(src, rs.(queue := rs.queue - {p}, nrRunning := rs.nrRunning - 1,
                               nrUninterruptible := rs.nrUninterruptible + w));
    var rd := s1.rqs[dest];
    s1.SetRq(dest, rd.(queue := rd.queue + {p}, nrRunning := rd.nrRunning + 1,
                       nrUninterruptible := rd.nrUninterruptible - w))
      .SetTask(p, s.tasks[p].(cpu := dest))
  }

  /** The body of try_to_wake_up_local once both locks are held. */
  function WakeLocal(s: State, c: Cpu, w: Tid): State
    requires w < |s.tasks| && c < |s.rqs|
  {
    var t := s.tasks[w];
    if !Normal(t.state) then s
    else if !t.onRq then Activate(s, w, c, t.state.Uninterruptible?)
    else s.SetTask(w, t.(state := Running))
  }

  /** c is in none of the sections that run with interrupts disabled. */
  predicate IrqsOn(s: State, c: Cpu) {
    c < |s.rqs| && s.rqs[c].pc.Out? && s.rqs[c].handler.Quiet? && s.rqs[c].waking.Null?
  }

  /** c runs a task of its own. */
  predicate Executing(s: State, c: Cpu) {
    IrqsOn(s, c) && s.rqs[c].curr < |s.tasks| && !s.Idle(s.rqs[c].curr)
  }

  predicate Bound(s: State, w: Tid, c: Cpu) {
    c < |s.rqs| && w < |s.tasks| && s.tasks[w].cpu == c && s.tasks[w].bound && s.tasks[w].allowed == {c}
    && s.rqs[c].curr != w && !s.Idle(w) && s.tasks[w].born
  }

  predicate HoldsPi(s: State, p: Tid) {
    p < |s.tasks| && !s.tasks[p].pi.PiFree?
  }

  predicate Free(s: State, c: Cpu) {
    c < |s.rqs| && s.rqs[c].lock.Nobody?
  }

  // ---------------------------------------------------------------- __schedule and try_to_wake_up_local

  predicate CanSchedLock(s: State, c: Cpu) {
    Free(s, c) && IrqsOn(s, c)
  }

  function DoSchedLock(s: State, c: Cpu): State
    requires CanSchedLock(s, c)
  {
    s.SetRq(c, s.rqs[c].(lock := BySchedule, pc := Locked))
  }

  predicate CanSchedDecide(s: State, c: Cpu, preempt: bool, signal: bool) {
    c < |s.rqs| && s.rqs[c].pc.Locked? && s.rqs[c].curr < |s.tasks|
    && (var t := s.tasks[s.rqs[c].curr];
        && (signal ==> Normal(t.state))
        && (preempt || t.sleeper.Awake? || t.sleeper.MustSleep?))
  }

  function DoSchedDecide(s: State, c: Cpu, preempt: bool, signal: bool): State
    requires CanSchedDecide(s, c, preempt, signal)
  {
    var r := s.rqs[c];
    var t := s.tasks[r.curr];
    if t.state.Running? || preempt then
      s.SetRq(c, r.(pc := Decided))
    else if signal then
      s.SetTask(r.curr, t.(state := Running)).SetRq(c, r.(pc := Decided))
    else
      s.SetTask(r.curr, t.(onRq := false))
       .SetRq(c, r.(pc := Decided, queue := r.queue - {r.curr}, nrRunning := r.nrRunning - 1,
                    nrUninterruptible := r.nrUninterruptible + Weight(t.state.Uninterruptible?)))
  }

  predicate CanWakeWorker(s: State, c: Cpu, w: Tid) {
    Bound(s, w, c) && s.rqs[c].pc.Decided? && s.tasks[w].pi.PiFree?
  }

  function DoWakeWorker(s: State, c: Cpu, w: Tid): State
    requires CanWakeWorker(s, c, w)
  {
    WakeLocal(s, c, w)
  }

  predicate CanWakeWorkerDrop(s: State, c: Cpu, w: Tid) {
    Bound(s, w, c) && s.rqs[c].pc.Decided? && !s.tasks[w].pi.PiFree?
  }

  function DoWakeWorkerDrop(s: State, c: Cpu, w: Tid): State
    requires CanWakeWorkerDrop(s, c, w)
  {
    s.SetRq(c, s.rqs[c].(lock := Nobody, pc := WaitPi(w)))
  }

  predicate CanWakeWorkerPi(s: State, c: Cpu) {
    c < |s.rqs| && s.rqs[c].pc.WaitPi? && s.rqs[c].pc.worker < |s.tasks| && s.tasks[s.rqs[c].pc.worker].pi.PiFree?
  }

  function DoWakeWorkerPi(s: State, c: Cpu): State
    requires CanWakeWorkerPi(s, c)
  {
    var w := s.rqs[c].pc.worker;
    s.SetTask(w, s.tasks[w].(pi := LocalWake(c))).SetRq(c, s.rqs[c].(pc := HavePi(w)))
  }

  predicate CanWakeWorkerRelock(s: State, c: Cpu) {
    Free(s, c) && s.rqs[c].pc.HavePi? && s.rqs[c].pc.worker < |s.tasks|
  }

  function DoWakeWorkerRelock(s: State, c: Cpu): State
    requires CanWakeWorkerRelock(s, c)
  {
    var w := s.rqs[c].pc.worker;
    var s1 := s.SetRq(c, s.rqs[c].(lock := BySchedule, pc := Decided)).SetTask(w, s.tasks[w].(pi := PiFree));
    WakeLocal(s1, c, w)
  }

  predicate CanSchedDrop(s: State, c: Cpu) {
    c < |s.rqs| && s.rqs[c].pc.Decided?
  }

  function DoSchedDrop(s: State, c: Cpu): State
    requires CanSchedDrop(s, c)
  {
    s.SetRq(c, s.rqs[c].(lock := Nobody, pc := Balancing))
  }

  predicate CanSchedRetake(s: State, c: Cpu) {
    Free(s, c) && s.rqs[c].pc.Balancing?
  }

  function DoSchedRetake(s: State, c: Cpu): State
    requires CanSchedRetake(s, c)
  {
    s.SetRq(c, s.rqs[c].(lock := BySchedule, pc := Decided))
  }

  predicate CanSchedPick(s: State, c: Cpu, next: Tid) {
    c < |s.rqs| && s.rqs[c].pc.Decided? && s.rqs[c].curr < |s.tasks| && next < |s.tasks|
    && (next in s.rqs[c].queue || (s.rqs[c].queue == {} && next == c))
  }

  function DoSchedPick(s: State, c: Cpu, next: Tid): State
    requires CanSchedPick(s, c, next)
  {
    var r := s.rqs[c];
    if next == r.curr then s.SetRq(c, r.(pc := Unlocking))
    else s.SetTask(next, s.tasks[next].(onCpu := true)).SetRq(c, r.(curr := next, pc := Switched(r.curr)))
  }

  predicate CanSchedFinish(s: State, c: Cpu) {
    c < |s.rqs| && s.rqs[c].pc.Switched? && s.rqs[c].pc.prev < |s.tasks|
  }

  function DoSchedFinish(s: State, c: Cpu): State
    requires CanSchedFinish(s, c)
  {
    var p := s.rqs[c].pc.prev;
    s.SetTask(p, s.tasks[p].(onCpu := false)).SetRq(c, s.rqs[c].(pc := Unlocking))
  }

  predicate CanSchedUnlock(s: State, c: Cpu) {
    c < |s.rqs| && s.rqs[c].pc.Unlocking?
  }

  function DoSchedUnlock(s: State, c: Cpu): State
    requires CanSchedUnlock(s, c)
  {
    s.SetRq(c, s.rqs[c].(lock := Nobody, pc := Out))
  }

  // ---------------------------------------------------------------- the task a CPU runs

  predicate CanSetState(s: State, c: Cpu, st: TaskState) {
    Executing(s, c) && !st.Waking? && s.tasks[s.rqs[c].curr].sleeper.Awake?
  }

  function DoSetState(s: State, c: Cpu, st: TaskState): State
    requires CanSetState(s, c, st)
  {
    var p := s.rqs[c].curr;
    s.SetTask(p, s.tasks[p].(state := st))
  }

  predicate CanPrepare(s: State, c: Cpu, st: TaskState) {
    Executing(s, c) && Normal(st) && s.tasks[s.rqs[c].curr].sleeper.Awake?
  }

  function DoPrepare(s: State, c: Cpu, st: TaskState): State
    requires CanPrepare(s, c, st)
  {
    var p := s.rqs[c].curr;
    s.SetTask(p, s.tasks[p].(state := st, sleeper := Prepared))
  }

  predicate CanTestCondition(s: State, c: Cpu) {
    Executing(s, c) && s.tasks[s.rqs[c].curr].sleeper.Prepared?
  }

  function DoTestCondition(s: State, c: Cpu): State
    requires CanTestCondition(s, c)
  {
    var p := s.rqs[c].curr;
    s.SetTask(p, s.tasks[p].(sleeper := if s.tasks[p].condition then SawCondition else MustSleep))
  }

  predicate CanFinishWait(s: State, c: Cpu, consume: bool) {
    Executing(s, c) && s.tasks[s.rqs[c].curr].sleeper.SawCondition?
  }

  function DoFinishWait(s: State, c: Cpu, consume: bool): State
    requires CanFinishWait(s, c, consume)
  {
    var p := s.rqs[c].curr;
    s.SetTask(p, s.tasks[p].(state := Running, sleeper := Awake, condition := s.tasks[p].condition && !consume))
  }

  predicate CanWaitAgain(s: State, c: Cpu) {
    Executing(s, c) && s.tasks[s.rqs[c].curr].sleeper.MustSleep?
  }

  function DoWaitAgain(s: State, c: Cpu): State
    requires CanWaitAgain(s, c)
  {
    var p := s.rqs[c].curr;
    s.SetTask(p, s.tasks[p].(sleeper := Awake))
  }

  // ---------------------------------------------------------------- try_to_wake_up

  predicate CanSignal(s: State, p: Tid) {
    p < |s.tasks| && !s.Idle(p) && s.tasks[p].born
  }

  function DoSignal(s: State, p: Tid): State
    requires CanSignal(s, p)
  {
    s.SetTask(p, s.tasks[p].(condition := true, wakers := s.tasks[p].wakers + 1))
  }

  predicate CanTtwuEnter(s: State, p: Tid, mask: set<TaskState>, signaller: bool, on: Cpu) {
    p < |s.tasks| && s.tasks[p].pi.PiFree? && IrqsOn(s, on) && (forall st :: st in mask ==> Wakeable(st))
    && (signaller ==> s.tasks[p].wakers > 0 && {Interruptible, Uninterruptible} <= mask)
  }

  function DoTtwuEnter(s: State, p: Tid, mask: set<TaskState>, signaller: bool, on: Cpu): State
    requires CanTtwuEnter(s, p, mask, signaller, on)
  {
    var t := s.tasks[p].(wakers := if signaller then s.tasks[p].wakers - 1 else s.tasks[p].wakers);
    if t.state in mask then
      s.SetTask(p, t.(pi := Matched, waker := on)).SetRq(on, s.rqs[on].(waking := To(p)))
    else
      s.SetTask(p, t)
  }

  predicate CanTtwuReadOnRq(s: State, p: Tid) {
    HoldsPi(s, p) && s.tasks[p].pi.Matched?
  }

  function DoTtwuReadOnRq(s: State, p: Tid): State
    requires CanTtwuReadOnRq(s, p)
  {
    s.SetTask(p, s.tasks[p].(pi := if s.tasks[p].onRq then SawOnRq else Spin))
  }

  predicate CanTtwuReadRq(s: State, p: Tid) {
    HoldsPi(s, p) && s.tasks[p].pi.SawOnRq?
  }

  function DoTtwuReadRq(s: State, p: Tid): State
    requires CanTtwuReadRq(s, p)
  {
    s.SetTask(p, s.tasks[p].(pi := Remote(s.tasks[p].cpu)))
  }

  predicate CanTtwuRemote(s: State, p: Tid) {
    HoldsPi(s, p) && s.tasks[p].pi.Remote? && Free(s, s.tasks[p].pi.rq)
  }

  function DoTtwuRemote(s: State, p: Tid): State
    requires CanTtwuRemote(s, p)
  {
    var t := s.tasks[p];
    if t.cpu != t.pi.rq then s.SetTask(p, t.(pi := SawOnRq))
    else if t.onRq then s.SetTask(p, t.(pi := Finished, state := Running))
    else s.SetTask(p, t.(pi := Spin))
  }

  predicate CanTtwuMark(s: State, p: Tid) {
    HoldsPi(s, p) && s.tasks[p].pi.Spin? && !s.tasks[p].onCpu
  }

  function DoTtwuMark(s: State, p: Tid): State
    requires CanTtwuMark(s, p)
  {
    var t := s.tasks[p];
    s.SetTask(p, t.(pi := Marked, contributes := t.state.Uninterruptible?, state := Waking))
  }

  predicate CanTtwuPlace(s: State, p: Tid, dest: Cpu) {
    HoldsPi(s, p) && s.tasks[p].pi.Marked? && dest in s.tasks[p].allowed
  }

  function DoTtwuPlace(s: State, p: Tid, dest: Cpu): State
    requires CanTtwuPlace(s, p, dest)
  {
    s.SetTask(p, s.tasks[p].(pi := Placed(dest), cpu := dest))
  }

  predicate CanTtwuUnlock(s: State, p: Tid) {
    HoldsPi(s, p) && s.tasks[p].pi.Finished? && s.tasks[p].waker < |s.rqs|
  }

  function DoTtwuUnlock(s: State, p: Tid): State
    requires CanTtwuUnlock(s, p)
  {
    var c := s.tasks[p].waker;
    s.SetTask(p, s.tasks[p].(pi := PiFree)).SetRq(c, s.rqs[c].(waking := Null))
  }

  // ---------------------------------------------------------------- ttwu_queue and ttwu_queue_remote

  predicate CanQueueLocal(s: State, p: Tid) {
    HoldsPi(s, p) && s.tasks[p].pi.Placed? && Free(s, s.tasks[p].pi.dest)
  }

  function DoQueueLocal(s: State, p: Tid): State
    requires CanQueueLocal(s, p)
  {
    var t := s.tasks[p];
    Activate(s.SetTask(p, t.(pi := Finished)), p, t.pi.dest, t.contributes)
  }

  predicate CanQueueReadHead(s: State, p: Tid) {
    HoldsPi(s, p) && s.tasks[p].pi.Placed? && s.tasks[p].pi.dest < |s.rqs| && s.tasks[p].pi.dest != s.tasks[p].waker
  }

  function DoQueueReadHead(s: State, p: Tid): State
    requires CanQueueReadHead(s, p)
  {
    var d := s.tasks[p].pi.dest;
    s.SetTask(p, s.tasks[p].(pi := Pushing(d, s.rqs[d].wakeList)))
  }

  predicate CanQueueStoreEntry(s: State, p: Tid) {
    HoldsPi(s, p) && s.tasks[p].pi.Pushing?
  }

  function DoQueueStoreEntry(s: State, p: Tid): State
    requires CanQueueStoreEntry(s, p)
  {
    var t := s.tasks[p];
    s.SetTask(p, t.(wakeEntry := t.pi.next, pi := Linked(t.pi.dest, t.pi.next)))
  }

  predicate CanQueueCmpxchg(s: State, p: Tid) {
    HoldsPi(s, p) && s.tasks[p].pi.Linked? && s.tasks[p].pi.dest < |s.rqs|
  }

  function DoQueueCmpxchg(s: State, p: Tid): State
    requires CanQueueCmpxchg(s, p)
  {
    var t := s.tasks[p];
    var d := t.pi.dest;
    var r := s.rqs[d];
    if r.wakeList == t.pi.seen then
      s.SetTask(p, t.(pi := if t.pi.seen.Null? then Kick(d) else Finished, pushes := t.pushes + 1))
       .SetRq(d, r.(wakeList := To(p), pending := [p] + r.pending))
    else
      s.SetTask(p, t.(pi := Pushing(d, r.wakeList)))
  }

  predicate CanQueueSendIpi(s: State, p: Tid) {
    HoldsPi(s, p) && s.tasks[p].pi.Kick? && s.tasks[p].pi.dest < |s.rqs|
  }

  function DoQueueSendIpi(s: State, p: Tid): State
    requires CanQueueSendIpi(s, p)
  {
    var d := s.tasks[p].pi.dest;
    s.SetTask(p, s.tasks[p].(pi := Finished)).SetRq(d, s.rqs[d].(ipi := true))
  }

  // ---------------------------------------------------------------- scheduler_ipi and sched_ttwu_do_pending

  predicate CanIpiEnter(s: State, c: Cpu) {
    IrqsOn(s, c) && s.rqs[c].ipi
  }

  function DoIpiEnter(s: State, c: Cpu): State
    requires CanIpiEnter(s, c)
  {
    s.SetRq(c, s.rqs[c].(ipi := false, handler := Entered))
  }

  predicate CanIpiXchg(s: State, c: Cpu) {
    c < |s.rqs| && s.rqs[c].handler.Entered?
  }

  function DoIpiXchg(s: State, c: Cpu): State
    requires CanIpiXchg(s, c)
  {
    var r := s.rqs[c];
    if r.wakeList.Null? then s.SetRq(c, r.(handler := Quiet))
    else s.SetRq(c, r.(handler := Have(r.wakeList), wakeList := Null, drained := r.pending, pending := []))
  }

  predicate CanIpiLock(s: State, c: Cpu) {
    Free(s, c) && s.rqs[c].handler.Have?
  }

  function DoIpiLock(s: State, c: Cpu): State
    requires CanIpiLock(s, c)
  {
    s.SetRq(c, s.rqs[c].(lock := ByIpi, handler := Draining(s.rqs[c].handler.list)))
  }

  predicate CanIpiActivate(s: State, c: Cpu) {
    c < |s.rqs| && s.rqs[c].handler.Draining? && s.rqs[c].handler.list.To? && s.rqs[c].handler.list.tid < |s.tasks|
  }

  function DoIpiActivate(s: State, c: Cpu): State
    requires CanIpiActivate(s, c)
  {
    var p := s.rqs[c].handler.list.tid;
    var t := s.tasks[p];
    var r := s.rqs[c].(handler := Draining(t.wakeEntry), drained := if s.rqs[c].drained == [] then [] else s.rqs[c].drained[1..]);
    Activate(s.SetRq(c, r).SetTask(p, t.(pops := t.pops + 1)), p, c, t.contributes)
  }

  predicate CanIpiUnlock(s: State, c: Cpu) {
    c < |s.rqs| && s.rqs[c].handler.Draining? && s.rqs[c].handler.list.Null?
  }

  function DoIpiUnlock(s: State, c: Cpu): State
    requires CanIpiUnlock(s, c)
  {
    s.SetRq(c, s.rqs[c].(lock := Nobody, handler := Quiet))
  }

  // ---------------------------------------------------------------- wake_up_new_task, __migrate_task and load balancing

  predicate CanWakeNew(s: State, p: Tid, dest: Cpu) {
    p < |s.tasks| && !s.tasks[p].born && s.tasks[p].pi.PiFree? && dest in s.tasks[p].allowed && Free(s, dest)
  }

  function DoWakeNew(s: State, p: Tid, dest: Cpu): State
    requires CanWakeNew(s, p, dest)
  {
    Activate(s.SetTask(p, s.tasks[p].(cpu := dest, born := true)), p, dest, false)
  }

  predicate CanMigrate(s: State, p: Tid, src: Cpu, dest: Cpu) {
    p < |s.tasks| && s.tasks[p].pi.PiFree? && Free(s, src) && Free(s, dest)
    && s.rqs[src].pc.Out? && s.rqs[src].curr != p
  }

  function DoMigrate(s: State, p: Tid, src: Cpu, dest: Cpu): State
    requires CanMigrate(s, p, src, dest)
  {
    if s.tasks[p].cpu == src && dest in s.tasks[p].allowed && s.tasks[p].onRq then Move(s, p, dest) else s
  }

  predicate CanBalance(s: State, p: Tid, dest: Cpu) {
    p < |s.tasks| && Free(s, s.tasks[p].cpu) && Free(s, dest) && s.tasks[p].onRq && !s.tasks[p].onCpu
    && dest in s.tasks[p].allowed
  }

  function DoBalance(s: State, p: Tid, dest: Cpu): State
    requires CanBalance(s, p, dest)
  {
    Move(s, p, dest)
  }

  /** set_cpus_allowed_ptr up to the point where it asks the stopper for help; the locks are only held inside the step. */
  predicate CanSetAffinity(s: State, p: Tid, mask: set<Cpu>) {
    p < |s.tasks| && !s.Idle(p) && s.tasks[p].pi.PiFree? && Free(s, s.tasks[p].cpu)
    && mask != {} && (forall c :: c in mask ==> c < |s.rqs|)
    && (s.tasks[p].bound ==> Executing(s, s.tasks[p].cpu) && s.rqs[s.tasks[p].cpu].curr == p)
  }

  function DoSetAffinity(s: State, p: Tid, mask: set<Cpu>): State
    requires CanSetAffinity(s, p, mask)
  {
    s.SetTask(p, s.tasks[p].(allowed := mask))
  }

  /** set_cpus_allowed_ptr asks the stopper to move the task. */
  predicate AsksForMove(t: Task, mask: set<Cpu>) {
    t.cpu !in mask && t.onRq
  }

  predicate ScheduleEnabled(s: State, a: ScheduleAction) {
    match a
    case SchedLock(c) => CanSchedLock(s, c)
    case SchedDecide(c, preempt, signal) => CanSchedDecide(s, c, preempt, signal)
    case WakeWorker(c, w) => CanWakeWorker(s, c, w)
    case WakeWorkerDrop(c, w) => CanWakeWorkerDrop(s, c, w)
    case WakeWorkerPi(c) => CanWakeWorkerPi(s, c)
    case WakeWorkerRelock(c) => CanWakeWorkerRelock(s, c)
    case SchedDrop(c) => CanSchedDrop(s, c)
    case SchedRetake(c) => CanSchedRetake(s, c)
    case SchedPick(c, next) => CanSchedPick(s, c, next)
    case SchedFinish(c) => CanSchedFinish(s, c)
    case SchedUnlock(c) => CanSchedUnlock(s, c)
  }

  function ScheduleStep(s: State, a: ScheduleAction): State
    requires ScheduleEnabled(s, a)
  {
    match a
    case SchedLock(c) => DoSchedLock(s, c)
    case SchedDecide(c, preempt, signal) => DoSchedDecide(s, c, preempt, signal)
    case WakeWorker(c, w) => DoWakeWorker(s, c, w)
    case WakeWorkerDrop(c, w) => DoWakeWorkerDrop(s, c, w)
    case WakeWorkerPi(c) => DoWakeWorkerPi(s, c)
    case WakeWorkerRelock(c) => DoWakeWorkerRelock(s, c)
    case SchedDrop(c) => DoSchedDrop(s, c)
    case SchedRetake(c) => DoSchedRetake(s, c)
    case SchedPick(c, next) => DoSchedPick(s, c, next)
    case SchedFinish(c) => DoSchedFinish(s, c)
    case SchedUnlock(c) => DoSchedUnlock(s, c)
  }

  predicate TaskEnabled(s: State, a: TaskAction) {
    match a
    case SetState(c, st) => CanSetState(s, c, st)
    case Prepare(c, st) => CanPrepare(s, c, st)
    case TestCondition(c) => CanTestCondition(s, c)
    case FinishWait(c, consume) => CanFinishWait(s, c, consume)
    case WaitAgain(c) => CanWaitAgain(s, c)
  }

  function TaskStep(s: State, a: TaskAction): State
    requires TaskEnabled(s, a)
  {
    match a
    case SetState(c, st) => DoSetState(s, c, st)
    case Prepare(c, st) => DoPrepare(s, c, st)
    case TestCondition(c) => DoTestCondition(s, c)
    case FinishWait(c, consume) => DoFinishWait(s, c, consume)
    case WaitAgain(c) => DoWaitAgain(s, c)
  }

  predicate WakeEnabled(s: State, a: WakeAction) {
    match a
    case Signal(p) => CanSignal(s, p)
    case TtwuEnter(p, mask, signaller, on) => CanTtwuEnter(s, p, mask, signaller, on)
    case TtwuReadOnRq(p) => CanTtwuReadOnRq(s, p)
    case TtwuReadRq(p) => CanTtwuReadRq(s, p)
    case TtwuRemote(p) => CanTtwuRemote(s, p)
    case TtwuMark(p) => CanTtwuMark(s, p)
    case TtwuPlace(p, dest) => CanTtwuPlace(s, p, dest)
    case TtwuUnlock(p) => CanTtwuUnlock(s, p)
  }

  function WakeStep(s: State, a: WakeAction): State
    requires WakeEnabled(s, a)
  {
    match a
    case Signal(p) => DoSignal(s, p)
    case TtwuEnter(p, mask, signaller, on) => DoTtwuEnter(s, p, mask, signaller, on)
    case TtwuReadOnRq(p) => DoTtwuReadOnRq(s, p)
    case TtwuReadRq(p) => DoTtwuReadRq(s, p)
    case TtwuRemote(p) => DoTtwuRemote(s, p)
    case TtwuMark(p) => DoTtwuMark(s, p)
    case TtwuPlace(p, dest) => DoTtwuPlace(s, p, dest)
    case TtwuUnlock(p) => DoTtwuUnlock(s, p)
  }

  predicate QueueEnabled(s: State, a: QueueAction) {
    match a
    case QueueLocal(p) => CanQueueLocal(s, p)
    case QueueReadHead(p) => CanQueueReadHead(s, p)
    case QueueStoreEntry(p) => CanQueueStoreEntry(s, p)
    case QueueCmpxchg(p) => CanQueueCmpxchg(s, p)
    case QueueSendIpi(p) => CanQueueSendIpi(s, p)
  }

  function QueueStep(s: State, a: QueueAction): State
    requires QueueEnabled(s, a)
  {
    match a
    case QueueLocal(p) => DoQueueLocal(s, p)
    case QueueReadHead(p) => DoQueueReadHead(s, p)
    case QueueStoreEntry(p) => DoQueueStoreEntry(s, p)
    case QueueCmpxchg(p) => DoQueueCmpxchg(s, p)
    case QueueSendIpi(p) => DoQueueSendIpi(s, p)
  }

  predicate IpiEnabled(s: State, a: IpiAction) {
    match a
    case IpiEnter(c) => CanIpiEnter(s, c)
    case IpiXchg(c) => CanIpiXchg(s, c)
    case IpiLock(c) => CanIpiLock(s, c)
    case IpiActivate(c) => CanIpiActivate(s, c)
    case IpiUnlock(c) => CanIpiUnlock(s, c)
  }

  function IpiStep(s: State, a: IpiAction): State
    requires IpiEnabled(s, a)
  {
    match a
    case IpiEnter(c) => DoIpiEnter(s, c)
    case IpiXchg(c) => DoIpiXchg(s, c)
    case IpiLock(c) => DoIpiLock(s, c)
    case IpiActivate(c) => DoIpiActivate(s, c)
    case IpiUnlock(c) => DoIpiUnlock(s, c)
  }

  predicate PlaceEnabled(s: State, a: PlaceAction) {
    match a
    case WakeNew(p, dest) => CanWakeNew(s, p, dest)
    case Migrate(p, src, dest) => CanMigrate(s, p, src, dest)
    case Balance(p, dest) => CanBalance(s, p, dest)
    case SetAffinity(p, mask) => CanSetAffinity(s, p, mask)
  }

  function PlaceStep(s: State, a: PlaceAction): State
    requires PlaceEnabled(s, a)
  {
    match a
    case WakeNew(p, dest) => DoWakeNew(s, p, dest)
    case Migrate(p, src, dest) => DoMigrate(s, p, src, dest)
    case Balance(p, dest) => DoBalance(s, p, dest)
    case SetAffinity(p, mask) => DoSetAffinity(s, p, mask)
  }

  predicate Enabled(s: State, a: Action) {
    match a
    case Scheduling(x) => ScheduleEnabled(s, x)
    case Executes(x) => TaskEnabled(s, x)
    case Wakes(x) => WakeEnabled(s, x)
    case Queues(x) => QueueEnabled(s, x)
    case Interrupts(x) => IpiEnabled(s, x)
    case Places(x) => PlaceEnabled(s, x)
  }

  /** The step a takes from s. */
  function Apply(s: State, a: Action): State
    requires Enabled(s, a)
  {
    match a
    case Scheduling(x) => ScheduleStep(s, x)
    case Executes(x) => TaskStep(s, x)
    case Wakes(x) => WakeStep(s, x)
    case Queues(x) => QueueStep(s, x)
    case Interrupts(x) => IpiStep(s, x)
    case Places(x) => PlaceStep(s, x)
  }

  /** Before the first fork: every CPU runs its idle task and no other task has been woken yet. */
  predicate Init(s: State) {
    && 0 < |s.rqs| <= |s.tasks|
    && (forall c: Cpu :: c < |s.rqs| ==>
          s.rqs[c] == Rq(c, {}, Nobody, Out, Null, false, Quiet, Null, 0, 0, [], []))
    && (forall p: Tid :: p < |s.tasks| ==> InitTask(s, p))
  }

  predicate InitTask(s: State, p: Tid)
    requires p < |s.tasks|
  {
    var t := s.tasks[p];
    && t.state.Running? && !t.onRq && t.pi.PiFree? && t.sleeper.Awake? && t.wakers == 0 && t.pushes == t.pops
    && t.onCpu == t.born == s.Idle(p)
    && t.cpu < |s.rqs|
    && t.allowed != {} && (forall c :: c in t.allowed ==> c < |s.rqs|)
    && (s.Idle(p) ==> t.cpu == p && t.allowed == {p})
  }

  /** Every action of the run is enabled where it is taken. */
  predicate Runs(s: State, run: seq<Action>)
    decreases |run|
  {
    run == [] || (Enabled(s, run[0]) && Runs(Apply(s, run[0]), run[1..]))
  }

  function After(s: State, run: seq<Action>): State
    requires Runs(s, run)
    decreases |run|
  {
    if run == [] then s else After(Apply(s, run[0]), run[1..])
  }
}
