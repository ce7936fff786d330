/**
 The lockless bookkeeping behind the load average: every CPU folds the change of its active count into a global counter,
 idle CPUs into a second one that is drained later, and any number of folds are under way at once.  All counters are
 32-bit longs, so the sums are compared modulo 2^32.
 */
module LoadAccounting {

  const WORD := 0x1_0000_0000

  /** The value a long gets from x. */
  function Long(x: int): (r: int)
    ensures -0x8000_0000 <= x < 0x8000_0000 ==> r == x
  {
    (x + 0x8000_0000) % WORD - 0x8000_0000
  }

  /** Equal up to wrap-around. */
  predicate Congruent(a: int, b: int) {
    (a - b) % WORD == 0
  }

  lemma LongIs(x: int, a: int, b: int)
    requires a - b == Long(x) - x
    ensures Congruent(a, b)
  {
  }

  lemma SameIs(a: int)
    ensures Congruent(a, a)
  {
  }

  /** Both sides change by amounts that are equal up to wrap-around. */
  lemma BothChange(a: int, b: int, a': int, b': int)
    requires Congruent(a, b) && Congruent(b' - b, a' - a)
    ensures Congruent(a', b')
  {
  }

  lemma SameLong(a: int, b: int)
    requires Congruent(a, b)
    ensures Long(a) == Long(b)
  {
  }

  datatype Rq = Rq(nrRunning: nat, nrUninterruptible: int, calcLoadActive: int)

  /** A fold under way, with the delta it carries in a local variable. */
  datatype Fold =
    | Ready
    | Folded(delta: int)                    // calc_load_fold_active is done, calc_load_tasks_idle not yet read
    | SawIdle(delta: int)                   // calc_load_tasks_idle was read as nonzero
    | Drained(delta: int)                   // about to be added to calc_load_tasks
    | GoingIdle(delta: int)                 // about to be added to calc_load_tasks_idle

  datatype State = State(rqs: seq<Rq>, folds: seq<Fold>, tasks: int, tasksIdle: int)

  datatype Action =
    | Schedule(c: nat, nrRunning: nat, nrUninterruptible: int)
    | FoldActive(i: nat, c: nat)            // calc_load_account_active
    | FoldNoHz(i: nat)                      // calc_global_nohz
    | ReadIdle(i: nat)
    | XchgIdle(i: nat)
    | AddTasks(i: nat)
    | FoldIdle(i: nat, c: nat)              // calc_load_account_idle
    | AddIdle(i: nat)
    | MigrateUninterruptible(c: nat, dest: nat)
    | RemoveLoad(c: nat)                    // calc_global_load_remove

  function ActiveNow(r: Rq): int {
    Long(r.nrRunning + r.nrUninterruptible)
  }

  predicate Can(s: State, a: Action) {
    match a
    case Schedule(c, _, _) => c < |s.rqs|
    case FoldActive(i, c) => c < |s.rqs| && i < |s.folds| && s.folds[i].Ready?
    case FoldNoHz(i) => i < |s.folds| && s.folds[i].Ready?
    case ReadIdle(i) => i < |s.folds| && s.folds[i].Folded?
    case XchgIdle(i) => i < |s.folds| && s.folds[i].SawIdle?
    case AddTasks(i) => i < |s.folds| && s.folds[i].Drained?
    case FoldIdle(i, c) => c < |s.rqs| && i < |s.folds| && s.folds[i].Ready?
    case AddIdle(i) => i < |s.folds| && s.folds[i].GoingIdle?
    case MigrateUninterruptible(c, dest) => c < |s.rqs| && dest < |s.rqs| && c != dest
    case RemoveLoad(c) => c < |s.rqs|
  }

  /** calc_load_fold_active: the runqueue remembers what it has reported. */
  function Reported(s: State, c: nat): seq<Rq>
    requires c < |s.rqs|
  {
    s.rqs[c := s.rqs[c].(calcLoadActive := ActiveNow(s.rqs[c]))]
  }

  function Delta(s: State, c: nat): int
    requires c < |s.rqs|
  {
    Long(ActiveNow(s.rqs[c]) - s.rqs[c].calcLoadActive)
  }

  function Moved(rqs: seq<Rq>, c: nat, dest: nat): seq<Rq>
    requires c < |rqs| && dest < |rqs|
  {
    var r1 := rqs[dest := rqs[dest].(nrUninterruptible := Long(rqs[dest].nrUninterruptible + rqs[c].nrUninterruptible))];
    r1[c := r1[c].(nrUninterruptible := 0)]
  }

  function Step(s: State, a: Action): State
    requires Can(s, a)
  {
    match a
    case Schedule(c, nr, un) => s.(rqs := s.rqs[c := s.rqs[c].(nrRunning := nr, nrUninterruptible := un)])
    case FoldActive(i, c) => s.(rqs := Reported(s, c), folds := s.folds[i := Folded(Delta(s, c))])
    case FoldNoHz(i) => s.(folds := s.folds[i := Folded(0)])
    case ReadIdle(i) =>
      s.(folds := s.folds[i := if s.tasksIdle != 0 then SawIdle(s.folds[i].delta) else Drained(s.folds[i].delta)])
    case XchgIdle(i) => s.(folds := s.folds[i := Drained(Long(s.folds[i].delta + s.tasksIdle))], tasksIdle := 0)
    case AddTasks(i) => s.(folds := s.folds[i := Ready], tasks := Long(s.tasks + s.folds[i].delta))
    case FoldIdle(i, c) => s.(rqs := Reported(s, c), folds := s.folds[i := GoingIdle(Delta(s, c))])
    case AddIdle(i) => s.(folds := s.folds[i := Ready], tasksIdle := Long(s.tasksIdle + s.folds[i].delta))
    case MigrateUninterruptible(c, dest) => s.(rqs := Moved(s.rqs, c, dest))
    case RemoveLoad(c) =>
      s.(rqs := s.rqs[c := s.rqs[c].(calcLoadActive := 0)], tasks := Long(s.tasks - s.rqs[c].calcLoadActive))
  }

  function SumReported(rqs: seq<Rq>): int {
    if rqs == [] then 0 else SumReported(rqs[1..]) + rqs[0].calcLoadActive
  }

  function SumUninterruptible(rqs: seq<Rq>): int {
    if rqs == [] then 0 else SumUninterruptible(rqs[1..]) + rqs[0].nrUninterruptible
  }

  /** The active tasks of all CPUs: running or uninterruptible, as the counters say, without any wrap-around. */
  function SumActive(rqs: seq<Rq>): int {
    if rqs == [] then 0 else SumActive(rqs[1..]) + rqs[0].nrRunning + rqs[0].nrUninterruptible
  }

  function Carried(f: Fold): int {
    if f.Ready? then 0 else f.delta
  }

  function InFlight(folds: seq<Fold>): int {
    if folds == [] then 0 else InFlight(folds[1..]) + Carried(folds[0])
  }

  lemma {:induction false} RqUpdate(rqs: seq<Rq>, c: nat, r: Rq)
    requires c < |rqs|
    ensures SumReported(rqs[c := r]) == SumReported(rqs) - rqs[c].calcLoadActive + r.calcLoadActive
    ensures SumUninterruptible(rqs[c := r]) == SumUninterruptible(rqs) - rqs[c].nrUninterruptible + r.nrUninterruptible
  {
    if c == 0 {
      assert rqs[c := r][1..] == rqs[1..];
    } else {
      RqUpdate(rqs[1..], c - 1, r);
      assert rqs[c := r][1..] == rqs[1..][c - 1 := r];
    }
  }

  lemma {:induction false} FoldUpdate(folds: seq<Fold>, i: nat, f: Fold)
    requires i < |folds|
    ensures InFlight(folds[i := f]) == InFlight(folds) - Carried(folds[i]) + Carried(f)
  {
    if i == 0 {
      assert folds[i := f][1..] == folds[1..];
    } else {
      FoldUpdate(folds[1..], i - 1, f);
      assert folds[i := f][1..] == folds[1..][i - 1 := f];
    }
  }

  /** What the CPUs have reported is in one of the two counters or on its way. */
  predicate Balanced(s: State) {
    Congruent(SumReported(s.rqs), Accounted(s))
  }

  function Accounted(s: State): int {
    s.tasks + s.tasksIdle + InFlight(s.folds)
  }

  lemma StepBalanced(s: State, a: Action)
    requires Balanced(s) && Can(s, a)
    ensures Balanced(Step(s, a))
  {
    StepChanges(s, a);
    hide Step, Long, Congruent;
    BothChange(SumReported(s.rqs), Accounted(s), SumReported(Step(s, a).rqs), Accounted(Step(s, a)));
  }

  /** One step changes both sides by the same amount, up to the wrap-around of the counter it writes. */
  lemma StepChanges(s: State, a: Action)
    requires Can(s, a)
    ensures Congruent(Accounted(Step(s, a)) - Accounted(s), SumReported(Step(s, a).rqs) - SumReported(s.rqs))
  {
    var s' := Step(s, a);
    var gained, reported := Accounted(s') - Accounted(s), SumReported(s'.rqs) - SumReported(s.rqs);
    hide Long, Congruent;
    match a
    case Schedule(c, _, _) => RqUpdate(s.rqs, c, s'.rqs[c]); SameIs(0);
    case FoldActive(i, c) => FoldChanges(s, i, s'.folds[i], c, s');
    case FoldIdle(i, c) => FoldChanges(s, i, s'.folds[i], c, s');
    case MigrateUninterruptible(c, dest) => MovedSums(s.rqs, c, dest); SameIs(0);
    case RemoveLoad(c) =>
      RqUpdate(s.rqs, c, s'.rqs[c]);
      LongIs(s.tasks - s.rqs[c].calcLoadActive, gained, reported);
    case _ =>
      CounterChanges(s, a);
  }

  lemma FoldChanges(s: State, i: nat, f: Fold, c: nat, s': State)
    requires i < |s.folds| && c < |s.rqs| && s.folds[i].Ready? && !f.Ready? && f.delta == Delta(s, c)
    requires s' == s.(rqs := Reported(s, c), folds := s.folds[i := f])
    ensures Congruent(Accounted(s') - Accounted(s), SumReported(s'.rqs) - SumReported(s.rqs))
  {
    hide Long, Congruent;
    RqUpdate(s.rqs, c, s'.rqs[c]);
    FoldUpdate(s.folds, i, f);
    LongIs(ActiveNow(s.rqs[c]) - s.rqs[c].calcLoadActive, Accounted(s') - Accounted(s),
           SumReported(s'.rqs) - SumReported(s.rqs));
  }

  /** A step that moves a delta between a fold and a counter. */
  lemma CounterChanges(s: State, a: Action)
    requires Can(s, a) && (a.FoldNoHz? || a.ReadIdle? || a.XchgIdle? || a.AddTasks? || a.AddIdle?)
    ensures Congruent(Accounted(Step(s, a)) - Accounted(s), SumReported(Step(s, a).rqs) - SumReported(s.rqs))
  {
    var s' := Step(s, a);
    hide Long, Congruent;
    FoldUpdate(s.folds, a.i, s'.folds[a.i]);
    var gained := Accounted(s') - Accounted(s);
    match a
    case XchgIdle(i) => LongIs(s.folds[i].delta + s.tasksIdle, gained, 0);
    case AddTasks(i) => LongIs(s.tasks + s.folds[i].delta, gained, 0);
    case AddIdle(i) => LongIs(s.tasksIdle + s.folds[i].delta, gained, 0);
    case _ => SameIs(0);
  }

  /** Emptying the counter of a dead CPU into another keeps both sums. */
  lemma MovedSums(rqs: seq<Rq>, c: nat, dest: nat)
    requires c < |rqs| && dest < |rqs| && c != dest
    ensures SumReported(Moved(rqs, c, dest)) == SumReported(rqs)
    ensures Congruent(SumUninterruptible(Moved(rqs, c, dest)), SumUninterruptible(rqs))
    ensures Moved(rqs, c, dest)[c].nrUninterruptible == 0
  {
    var r1 := rqs[dest := rqs[dest].(nrUninterruptible := Long(rqs[dest].nrUninterruptible + rqs[c].nrUninterruptible))];
    hide Long, Congruent;
    RqUpdate(rqs, dest, r1[dest]);
    RqUpdate(r1, c, r1[c].(nrUninterruptible := 0));
    LongIs(rqs[dest].nrUninterruptible + rqs[c].nrUninterruptible, SumUninterruptible(Moved(rqs, c, dest)),
           SumUninterruptible(rqs));
  }

  predicate Runs(s: State, run: seq<Action>)
    decreases |run|
  {
    run == [] || (Can(s, run[0]) && Runs(Step(s, run[0]), run[1..]))
  }

  function After(s: State, run: seq<Action>): State
    requires Runs(s, run)
    decreases |run|
  {
    if run == [] then s else After(Step(s, run[0]), run[1..])
  }

  predicate Boot(s: State) {
    && s.tasks == 0 && s.tasksIdle == 0
    && (forall c :: 0 <= c < |s.rqs| ==> s.rqs[c] == Rq(0, 0, 0))
    && (forall i :: 0 <= i < |s.folds| ==> s.folds[i].Ready?)
  }

  lemma {:induction false} NothingInFlight(folds: seq<Fold>)
    requires forall i :: 0 <= i < |folds| ==> folds[i].Ready?
    ensures InFlight(folds) == 0
  {
    if folds != [] { NothingInFlight(folds[1..]); }
  }

  lemma {:induction false} AllReported(rqs: seq<Rq>)
    requires forall c :: 0 <= c < |rqs| ==> UpToDate(rqs[c])
    ensures Congruent(SumReported(rqs), SumActive(rqs))
  {
    if rqs != [] {
      AllReported(rqs[1..]);
      assert UpToDate(rqs[0]);
      BothAdd(SumReported(rqs[1..]), SumActive(rqs[1..]), rqs[0].calcLoadActive, rqs[0].nrRunning + rqs[0].nrUninterruptible);
    }
  }

  lemma SameBoth(x: int, a: int, b: int)
    requires Congruent(x, a) && Congruent(x, b)
    ensures Congruent(a, b)
  {
  }

  lemma BothAdd(a: int, b: int, x: int, y: int)
    requires Congruent(a, b) && Congruent(x, y)
    ensures Congruent(a + x, b + y)
  {
  }

  lemma {:induction false} NothingReported(rqs: seq<Rq>)
    requires forall c :: 0 <= c < |rqs| ==> rqs[c] == Rq(0, 0, 0)
    ensures SumReported(rqs) == 0
  {
    if rqs != [] { NothingReported(rqs[1..]); }
  }

  /** In every reachable state, CPU removals included. */
  lemma {:induction false} RunBalanced(s: State, run: seq<Action>)
    requires Balanced(s) && Runs(s, run)
    ensures Balanced(After(s, run))
    decreases |run|
  {
    if run != [] {
      StepBalanced(s, run[0]);
      RunBalanced(Step(s, run[0]), run[1..]);
    }
  }

  /** What the CPU reported last is its number of running and uninterruptible tasks, up to wrap-around. */
  predicate UpToDate(r: Rq) {
    Congruent(r.calcLoadActive, r.nrRunning + r.nrUninterruptible)
  }

  /** A fold brings the CPU up to date and carries exactly what that adds to its report; the counts themselves and the
      other CPUs are untouched. */
  lemma FoldReports(s: State, a: Action)
    requires Can(s, a) && (a.FoldActive? || a.FoldIdle?)
    ensures var s' := Step(s, a);
            && |s'.rqs| == |s.rqs| && |s'.folds| == |s.folds|
            && UpToDate(s'.rqs[a.c])
            && s'.rqs[a.c].nrRunning == s.rqs[a.c].nrRunning && s'.rqs[a.c].nrUninterruptible == s.rqs[a.c].nrUninterruptible
            && Congruent(s'.folds[a.i].delta, s'.rqs[a.c].calcLoadActive - s.rqs[a.c].calcLoadActive)
            && (forall c :: 0 <= c < |s.rqs| && c != a.c ==> s'.rqs[c] == s.rqs[c])
            && (a.FoldActive? <==> s'.folds[a.i].Folded?) && (a.FoldIdle? <==> s'.folds[a.i].GoingIdle?)
  {
    var r := s.rqs[a.c];
    var active := r.nrRunning + r.nrUninterruptible;
    LongIs(active, Long(active), active);
    LongIs(Long(active) - r.calcLoadActive, Long(Long(active) - r.calcLoadActive), Long(active) - r.calcLoadActive);
  }

  /** Undisturbed, a fold of an active CPU ends with calc_load_tasks changed by what it reported and by all that idle CPUs
      left, and calc_load_tasks_idle empty. */
  lemma FoldDrains(s: State, i: nat, c: nat)
    requires Can(s, FoldActive(i, c))
    ensures var s1 := Step(s, FoldActive(i, c));
            Can(s1, ReadIdle(i))
            && (var s2 := Step(s1, ReadIdle(i));
                var s3 := if s.tasksIdle != 0 then (if Can(s2, XchgIdle(i)) then Step(s2, XchgIdle(i)) else s) else s2;
                && Can(s3, AddTasks(i))
                && (var s4 := Step(s3, AddTasks(i));
                    && s4.tasksIdle == 0 && s4.folds == s.folds && s4.rqs == s1.rqs
                    && Congruent(s4.tasks, s.tasks + s.tasksIdle + s1.rqs[c].calcLoadActive - s.rqs[c].calcLoadActive)))
  {
    FoldReports(s, FoldActive(i, c));
    var delta := Step(s, FoldActive(i, c)).folds[i].delta;
    var change := Step(s, FoldActive(i, c)).rqs[c].calcLoadActive - s.rqs[c].calcLoadActive;
    var drained := if s.tasksIdle != 0 then Long(delta + s.tasksIdle) else delta;
    LongIs(delta + s.tasksIdle, Long(delta + s.tasksIdle), delta + s.tasksIdle);
    LongIs(s.tasks + drained, Long(s.tasks + drained), s.tasks + drained);
    assert Congruent(drained, delta + s.tasksIdle) by { SameIs(delta); }
    Chained(Long(s.tasks + drained), s.tasks, drained, delta, s.tasksIdle, change);
  }

  lemma Chained(r: int, tasks: int, drained: int, delta: int, idle: int, change: int)
    requires Congruent(r, tasks + drained) && Congruent(drained, delta + idle) && Congruent(delta, change)
    ensures Congruent(r, tasks + idle + change)
  {
  }

  /** An idle CPU leaves what it reported in calc_load_tasks_idle. */
  lemma FoldLeavesIdle(s: State, i: nat, c: nat)
    requires Can(s, FoldIdle(i, c))
    ensures var s1 := Step(s, FoldIdle(i, c));
            Can(s1, AddIdle(i))
            && (var s2 := Step(s1, AddIdle(i));
                && s2.tasks == s.tasks && s2.folds == s.folds && s2.rqs == s1.rqs
                && Congruent(s2.tasksIdle, s.tasksIdle + s1.rqs[c].calcLoadActive - s.rqs[c].calcLoadActive))
  {
    FoldReports(s, FoldIdle(i, c));
    var delta := Step(s, FoldIdle(i, c)).folds[i].delta;
    LongIs(s.tasksIdle + delta, Long(s.tasksIdle + delta), s.tasksIdle + delta);
  }

  /** A dead CPU hands its uninterruptible tasks to another and takes back what it reported, so that the counters can add
      up without it. */
  lemma DeadCpuForgotten(s: State, c: nat, dest: nat)
    requires Can(s, MigrateUninterruptible(c, dest)) && s.rqs[c].nrRunning == 0
    ensures var s1 := Step(s, MigrateUninterruptible(c, dest));
            Can(s1, RemoveLoad(c))
            && (var s2 := Step(s1, RemoveLoad(c));
                && |s2.rqs| == |s.rqs| && s2.rqs[c] == Rq(0, 0, 0)
                && Congruent(s2.tasks, s.tasks - s.rqs[c].calcLoadActive)
                && Congruent(s2.rqs[dest].nrUninterruptible, s.rqs[dest].nrUninterruptible + s.rqs[c].nrUninterruptible)
                && s2.tasksIdle == s.tasksIdle && s2.folds == s.folds)
  {
    LongIs(s.tasks - s.rqs[c].calcLoadActive, Long(s.tasks - s.rqs[c].calcLoadActive), s.tasks - s.rqs[c].calcLoadActive);
    var sum := s.rqs[dest].nrUninterruptible + s.rqs[c].nrUninterruptible;
    LongIs(sum, Long(sum), sum);
  }

  /** Every CPU is up to date and no fold is under way. */
  predicate Settled(s: State) {
    && (forall c :: 0 <= c < |s.rqs| ==> UpToDate(s.rqs[c]))
    && (forall i :: 0 <= i < |s.folds| ==> s.folds[i].Ready?)
  }

  lemma BootBalanced(s: State)
    requires Boot(s)
    ensures Balanced(s)
  {
    NothingInFlight(s.folds);
    NothingReported(s.rqs);
  }

  /** Once the CPUs settle, the two counters add up to the active tasks of all CPUs, whatever happened before. */
  lemma SettledIsExact(s0: State, run: seq<Action>, s: State)
    requires Boot(s0) && Runs(s0, run) && s == After(s0, run) && Settled(s)
    ensures Long(s.tasks + s.tasksIdle) == Long(SumActive(s.rqs))
    ensures -0x8000_0000 <= SumActive(s.rqs) < 0x8000_0000 ==> Long(s.tasks + s.tasksIdle) == SumActive(s.rqs)
  {
    hide After, Runs, Boot, Long, Congruent;
    BootBalanced(s0);
    RunBalanced(s0, run);
    NothingInFlight(s.folds);
    AllReported(s.rqs);
    SameBoth(SumReported(s.rqs), SumActive(s.rqs), s.tasks + s.tasksIdle);
    SameLong(SumActive(s.rqs), s.tasks + s.tasksIdle);
  }
}
