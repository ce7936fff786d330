/**
 Admission of real-time bandwidth in the hierarchy of task groups.  Runtime and period are u64 nanoseconds, ratios are
 unsigned long (32 bits on ARM); shifts and sums wrap as they do there.
 */
module RtBandwidth {
  import opened TaskGroups

  const U64 := 0x1_0000_0000_0000_0000
  const ULONG := 0x1_0000_0000
  const RUNTIME_INF := U64 - 1
  const UNIT := 0x10_0000                 // the ratio 1.0
  const EINVAL := -22
  const EBUSY := -16

  function ToRatio(period: nat, runtime: nat): nat
    requires period > 0
  {
    if runtime == RUNTIME_INF then UNIT else Wrap(ShiftLeft20(runtime) / period)
  }

  /** runtime << 20 in 64 bits. */
  function ShiftLeft20(runtime: nat): (r: nat)
    ensures runtime < 0x1000_0000_0000 ==> r == runtime * UNIT
    ensures r <= runtime * UNIT
  {
    runtime * UNIT % U64
  }

  /** Addition of unsigned long values. */
  function Wrap(x: nat): (r: nat)
    ensures x < ULONG ==> r == x
  {
    x % ULONG
  }

  lemma WrapAdd(x: nat, y: nat)
    ensures Wrap(Wrap(x) + y) == Wrap(x + y)
  {
  }

  /** The two sysctl variables in microseconds; a negative runtime means no limit. */
  datatype Sysctl = Sysctl(period: nat, runtime: int) {
    function GlobalPeriod(): nat { period * 1000 % U64 }

    function GlobalRuntime(): nat { if runtime < 0 then RUNTIME_INF else runtime * 1000 % U64 }

    predicate Ok() {
      0 < period < 0x1_0000_0000 && runtime <= period
    }

    /** All that the check of a group demands of the settings; sched_rt_global_constraints demands Ok. */
    predicate HasPeriod() {
      GlobalPeriod() > 0
    }

    lemma OkHasPeriod()
      requires Ok()
      ensures HasPeriod()
    {
      assert GlobalPeriod() == period * 1000;
    }

    function GlobalRatio(): nat
      requires HasPeriod()
    {
      ToRatio(GlobalPeriod(), GlobalRuntime())
    }
  }

  /** rt_schedulable_data: the bandwidth to pretend group `tg` has. */
  datatype Request = Request(tg: Link, period: nat, runtime: nat)

  const NoRequest := Request(NoGroup, 0, 0)

  function Period(t: Tree, d: Request, g: Gid): nat
    requires g in t.groups
  {
    if d.tg == Group(g) then d.period else t.groups[g].period
  }

  function Runtime(t: Tree, d: Request, g: Gid): nat
    requires g in t.groups
  {
    if d.tg == Group(g) then d.runtime else t.groups[g].runtime
  }

  predicate PeriodsOk(t: Tree, d: Request) {
    forall g :: g in t.groups ==> Period(t, d, g) > 0
  }

  function Ratio(t: Tree, d: Request, g: Gid): nat
    requires g in t.groups && PeriodsOk(t, d)
  {
    ToRatio(Period(t, d, g), Runtime(t, d, g))
  }

  predicate AllIn(t: Tree, gs: seq<Gid>) {
    forall i :: 0 <= i < |gs| ==> gs[i] in t.groups
  }

  function SumRatios(t: Tree, d: Request, gs: seq<Gid>): nat
    requires AllIn(t, gs) && PeriodsOk(t, d)
  {
    if gs == [] then 0 else Ratio(t, d, gs[0]) + SumRatios(t, d, gs[1..])
  }

  predicate RuntimeFits(period: nat, runtime: nat) {
    runtime <= period || runtime == RUNTIME_INF
  }

  /** What the check demands of one group of a tree: runtime for its real-time tasks, and room for it and its children. */
  predicate Passes(t: Tree, d: Request, sysctl: Sysctl, rtTasks: set<Gid>, g: Gid)
    requires IsTree(t) && g in t.groups && PeriodsOk(t, d) && sysctl.HasPeriod()
  {
    assert NodeOk(t, g);
    var period, runtime := Period(t, d, g), Runtime(t, d, g);
    && (runtime <= period || runtime == RUNTIME_INF)
    && !Starves(t, d, sysctl, rtTasks, g)
    && ToRatio(period, runtime) <= ToRatio(sysctl.GlobalPeriod(), sysctl.GlobalRuntime())
    && SumRatios(t, d, Children(t, g)) % 0x1_0000_0000 <= ToRatio(period, runtime)
  }

  /** With real-time bandwidth enabled, a group that has real-time tasks would be left without runtime. */
  predicate Starves(t: Tree, d: Request, sysctl: Sysctl, rtTasks: set<Gid>, g: Gid)
    requires g in t.groups
  {
    sysctl.runtime >= 0 && Runtime(t, d, g) == 0 && g in rtTasks
  }

  /** The verdict on one group: what tg_schedulable returns. */
  function Verdict(t: Tree, d: Request, sysctl: Sysctl, rtTasks: set<Gid>, g: Gid): (ret: int)
    requires IsTree(t) && g in t.groups && PeriodsOk(t, d) && sysctl.HasPeriod()
    ensures ret == 0 <==> Passes(t, d, sysctl, rtTasks, g)
    ensures ret == EBUSY <==> RuntimeFits(Period(t, d, g), Runtime(t, d, g)) && Starves(t, d, sysctl, rtTasks, g)
    ensures ret == 0 || ret == EBUSY || ret == EINVAL
  {
    assert NodeOk(t, g);
    if !RuntimeFits(Period(t, d, g), Runtime(t, d, g)) then EINVAL
    else if sysctl.runtime >= 0 && Runtime(t, d, g) == 0 && g in rtTasks then EBUSY
    else if Ratio(t, d, g) > sysctl.GlobalRatio() then EINVAL
    else if Wrap(SumRatios(t, d, Children(t, g))) > Ratio(t, d, g) then EINVAL
    else 0
  }

  lemma {:induction false} SumPrefix(t: Tree, d: Request, gs: seq<Gid>, i: nat)
    requires AllIn(t, gs) && PeriodsOk(t, d) && i < |gs|
    ensures AllIn(t, gs[..i]) && AllIn(t, gs[..i + 1])
    ensures SumRatios(t, d, gs[..i + 1]) == SumRatios(t, d, gs[..i]) + Ratio(t, d, gs[i])
  {
    if i > 0 {
      SumPrefix(t, d, gs[1..], i - 1);
      assert gs[..i][1..] == gs[1..][..i - 1] && gs[..i + 1][1..] == gs[1..][..i];
    }
  }

  lemma AddChild(t: Tree, d: Request, gs: seq<Gid>, i: nat)
    requires AllIn(t, gs) && PeriodsOk(t, d) && i < |gs|
    ensures AllIn(t, gs[..i]) && AllIn(t, gs[..i + 1])
    ensures Wrap(Wrap(SumRatios(t, d, gs[..i])) + Ratio(t, d, gs[i])) == Wrap(SumRatios(t, d, gs[..i + 1]))
  {
    SumPrefix(t, d, gs, i);
    WrapAdd(SumRatios(t, d, gs[..i]), Ratio(t, d, gs[i]));
  }

  method TgSchedulable(t: Tree, d: Request, sysctl: Sysctl, rtTasks: set<Gid>, tg: Gid) returns (ret: int)
    requires IsTree(t) && tg in t.groups && PeriodsOk(t, d) && sysctl.HasPeriod()
    ensures ret == Verdict(t, d, sysctl, rtTasks, tg)
    ensures ret == 0 <==> Passes(t, d, sysctl, rtTasks, tg)
  {
    assert NodeOk(t, tg);
    var period := t.groups[tg].period;
    var runtime := t.groups[tg].runtime;
    if d.tg == Group(tg) {
      period := d.period;
      runtime := d.runtime;
    }
    if runtime > period && runtime != RUNTIME_INF {
      return EINVAL;
    }
    if sysctl.runtime >= 0 && runtime == 0 && tg in rtTasks {
      return EBUSY;
    }
    assert period == Period(t, d, tg);
    var total := ToRatio(period, runtime);
    if total > sysctl.GlobalRatio() {
      return EINVAL;
    }
    var sum := 0;
    var children := Children(t, tg);
    assert forall i :: 0 <= i < |children| ==> ChildOk(t, tg, children[i]);
    var i := 0;
    while i < |children|
      invariant 0 <= i <= |children| && AllIn(t, children) && AllIn(t, children[..i])
      invariant sum == Wrap(SumRatios(t, d, children[..i]))
    {
      var child := children[i];
      period := t.groups[child].period;
      runtime := t.groups[child].runtime;
      if d.tg == Group(child) {
        period := d.period;
        runtime := d.runtime;
      }
      assert ToRatio(period, runtime) == Ratio(t, d, child);
      AddChild(t, d, children, i);
      sum := Wrap(sum + ToRatio(period, runtime));
      i := i + 1;
    }
    assert children[..i] == children;
    if sum > total {
      return EINVAL;
    }
    return 0;
  }

  /** What the walk's visitor answers: tg_schedulable on the way down, tg_nop on the way up. */
  function Answer(t: Tree, d: Request, sysctl: Sysctl, rtTasks: set<Gid>, calls: seq<Visit>): int
    requires IsTree(t) && PeriodsOk(t, d) && sysctl.HasPeriod()
  {
    if calls != [] && calls[|calls| - 1].Down? && calls[|calls| - 1].g in t.groups then
      Verdict(t, d, sysctl, rtTasks, calls[|calls| - 1].g)
    else 0
  }

  /** __rt_schedulable: accepts exactly if every group of the tree passes, otherwise reports a failing group. */
  method RtSchedulable(t: Tree, d: Request, sysctl: Sysctl, rtTasks: set<Gid>) returns (ret: int)
    requires IsTree(t) && PeriodsOk(t, d) && sysctl.HasPeriod()
    ensures ret == 0 <==> forall g :: g in t.groups ==> Passes(t, d, sysctl, rtTasks, g)
    ensures ret != 0 ==> ret == EINVAL || ret == EBUSY
    ensures ret != 0 ==> exists g :: g in t.groups && ret == Verdict(t, d, sysctl, rtTasks, g)
    ensures ret == EBUSY ==> sysctl.runtime >= 0 && exists g :: g in t.groups && g in rtTasks && Runtime(t, d, g) == 0
  {
    var visit: Visitor := calls => Answer(t, d, sysctl, rtTasks, calls);
    var calls;
    ret, calls := WalkTgTree(t, visit);
    if ret == 0 {
      forall g | g in t.groups ensures Passes(t, d, sysctl, rtTasks, g) {
        WholeTreeOnce(t, g);
        assert Down(g) in Visits(t, t.root);
        var k :| 0 <= k < |calls| && calls[k] == Down(g);
        assert calls[..|calls|] == calls;
        assert visit(calls[..k + 1]) == 0;
      }
    } else {
      var g := calls[|calls| - 1].g;
      assert ret == Verdict(t, d, sysctl, rtTasks, g) && !Passes(t, d, sysctl, rtTasks, g);
    }
  }

  // ---------------------------------------------------------------- what an accepted tree satisfies

  predicate GroupAdmitted(t: Tree, sysctl: Sysctl, g: Gid)
    requires IsTree(t) && g in t.groups && PeriodsOk(t, NoRequest) && sysctl.HasPeriod()
  {
    assert NodeOk(t, g);
    && RuntimeFits(t.groups[g].period, t.groups[g].runtime)
    && Ratio(t, NoRequest, g) <= sysctl.GlobalRatio()
    && SumRatios(t, NoRequest, Children(t, g)) <= Ratio(t, NoRequest, g)
  }

  predicate Admitted(t: Tree, sysctl: Sysctl) {
    && IsTree(t) && PeriodsOk(t, NoRequest) && sysctl.Ok() && sysctl.HasPeriod()
    && forall g {:trigger GroupAdmitted(t, sysctl, g)} :: g in t.groups ==> GroupAdmitted(t, sysctl, g)
  }

  lemma RatioAtMostUnit(period: nat, runtime: nat)
    requires period > 0 && RuntimeFits(period, runtime)
    ensures ToRatio(period, runtime) <= UNIT
  {
    if runtime != RUNTIME_INF {
      DivAtMost(ShiftLeft20(runtime), period, UNIT);
    }
  }

  lemma DivAtMost(x: nat, d: nat, q: nat)
    requires d > 0 && x <= d * q
    ensures x / d <= q
  {
  }

  lemma GlobalAtMostUnit(sysctl: Sysctl)
    requires sysctl.Ok()
    ensures sysctl.HasPeriod() && sysctl.GlobalRatio() <= UNIT
  {
    sysctl.OkHasPeriod();
    RatioAtMostUnit(sysctl.GlobalPeriod(), sysctl.GlobalRuntime());
  }

  /** Pretending another bandwidth for one group changes a sum over distinct groups by at most its new ratio. */
  lemma {:induction false} SumWithRequest(t: Tree, d: Request, gs: seq<Gid>)
    requires AllIn(t, gs) && Distinct(gs) && PeriodsOk(t, NoRequest) && PeriodsOk(t, d)
    ensures d.tg.Group? && d.tg.gid in gs && d.tg.gid in t.groups ==>
              SumRatios(t, d, gs) <= SumRatios(t, NoRequest, gs) + Ratio(t, d, d.tg.gid)
    ensures !(d.tg.Group? && d.tg.gid in gs) ==> SumRatios(t, d, gs) == SumRatios(t, NoRequest, gs)
  {
    if gs != [] {
      SumWithRequest(t, d, gs[1..]);
      assert d.tg == Group(gs[0]) ==> d.tg.gid !in gs[1..];
    }
  }

  /** An accepted check means what it says: the 32-bit sums of the children did not wrap. */
  lemma NoWrap(t: Tree, d: Request, old_: Sysctl, sysctl: Sysctl, rtTasks: set<Gid>, g: Gid)
    requires Admitted(t, old_) && PeriodsOk(t, d) && sysctl.HasPeriod() && g in t.groups && AllIn(t, Children(t, g))
    requires d.tg.Group? ==> d.tg.gid in t.groups
    requires forall q :: q in t.groups ==> Passes(t, d, sysctl, rtTasks, q)
    ensures SumRatios(t, d, Children(t, g)) <= Ratio(t, d, g)
  {
    assert NodeOk(t, g) && GroupAdmitted(t, old_, g);
    var sum, ratio := SumRatios(t, d, Children(t, g)), Ratio(t, d, g);
    assert Passes(t, d, sysctl, rtTasks, g) && sum % 0x1_0000_0000 <= ratio;
    GlobalAtMostUnit(old_);
    SumWithRequest(t, d, Children(t, g));
    if d.tg.Group? {
      assert Passes(t, d, sysctl, rtTasks, d.tg.gid);
      RatioAtMostUnit(d.period, d.runtime);
    }
    hide Passes, SumRatios, Ratio, ToRatio, Admitted, GroupAdmitted, IsTree, NodeOk;
    assert sum < ULONG;
    SmallIs(sum);
  }

  lemma SmallIs(x: nat)
    requires x < ULONG
    ensures x % 0x1_0000_0000 == x
  {
  }

  function Commit(t: Tree, g: Gid, period: nat, runtime: nat): Tree
    requires g in t.groups
  {
    t.(groups := t.groups[g := t.groups[g].(period := period, runtime := runtime)])
  }

  lemma {:induction false} CommittedSum(t: Tree, g: Gid, period: nat, runtime: nat, gs: seq<Gid>)
    requires g in t.groups && AllIn(t, gs) && period > 0 && PeriodsOk(t, NoRequest)
    ensures PeriodsOk(Commit(t, g, period, runtime), NoRequest) && AllIn(Commit(t, g, period, runtime), gs)
    ensures SumRatios(Commit(t, g, period, runtime), NoRequest, gs)
            == SumRatios(t, Request(Group(g), period, runtime), gs)
  {
    if gs != [] { CommittedSum(t, g, period, runtime, gs[1..]); }
  }

  lemma CommitIsTree(t: Tree, g: Gid, period: nat, runtime: nat)
    requires IsTree(t) && g in t.groups
    ensures IsTree(Commit(t, g, period, runtime))
  {
    var t' := Commit(t, g, period, runtime);
    forall q | q in t'.groups ensures NodeOk(t', q) {
      assert NodeOk(t, q);
      assert forall i :: 0 <= i < |t.groups[q].children| ==> ChildOk(t, q, t.groups[q].children[i]);
    }
  }

  /** The hypothetical check of a request is the check of the tree it would leave. */
  lemma HypotheticalIsReal(t: Tree, sysctl: Sysctl, rtTasks: set<Gid>, g: Gid, period: nat, runtime: nat, q: Gid)
    requires IsTree(t) && PeriodsOk(t, NoRequest) && sysctl.HasPeriod() && g in t.groups && q in t.groups && period > 0
    ensures var t' := t.(groups := t.groups[g := t.groups[g].(period := period, runtime := runtime)]);
            && IsTree(t') && PeriodsOk(t', NoRequest)
            && (Passes(t, Request(Group(g), period, runtime), sysctl, rtTasks, q)
                <==> Passes(t', NoRequest, sysctl, rtTasks, q))
  {
    CommitIsTree(t, g, period, runtime);
    assert NodeOk(t, q);
    assert forall i :: 0 <= i < |Children(t, q)| ==> ChildOk(t, q, Children(t, q)[i]);
    CommittedSum(t, g, period, runtime, Children(t, q));
  }

  /** A request that is checked against one setting and committed under another leaves the tree admitted exactly if its
      ratio stays within the other. */
  lemma CommitAdmittedIff(t: Tree, sysctl: Sysctl, written: Sysctl, rtTasks: set<Gid>, g: Gid, period: nat, runtime: nat)
    requires Admitted(t, sysctl) && written.HasPeriod() && g in t.groups && period > 0
    requires var d := Request(Group(g), period, runtime);
             forall q :: q in t.groups ==> Passes(t, d, written, rtTasks, q)
    ensures Admitted(Commit(t, g, period, runtime), sysctl) <==> ToRatio(period, runtime) <= sysctl.GlobalRatio()
  {
    var t' := Commit(t, g, period, runtime);
    CommitIsTree(t, g, period, runtime);
    CommittedSum(t, g, period, runtime, []);
    if ToRatio(period, runtime) <= sysctl.GlobalRatio() {
      forall q | q in t'.groups ensures GroupAdmitted(t', sysctl, q) {
        CommittedGroup(t, sysctl, written, rtTasks, g, period, runtime, q);
      }
    } else {
      assert Ratio(t', NoRequest, g) == ToRatio(period, runtime);
      assert Admitted(t', sysctl) ==> GroupAdmitted(t', sysctl, g);
    }
  }

  lemma CommittedGroup(t: Tree, sysctl: Sysctl, written: Sysctl, rtTasks: set<Gid>, g: Gid, period: nat, runtime: nat, q: Gid)
    requires Admitted(t, sysctl) && written.HasPeriod() && g in t.groups && period > 0 && q in t.groups
    requires var d := Request(Group(g), period, runtime);
             forall x :: x in t.groups ==> Passes(t, d, written, rtTasks, x)
    requires ToRatio(period, runtime) <= sysctl.GlobalRatio()
    requires IsTree(Commit(t, g, period, runtime)) && PeriodsOk(Commit(t, g, period, runtime), NoRequest)
    ensures GroupAdmitted(Commit(t, g, period, runtime), sysctl, q)
  {
    var d := Request(Group(g), period, runtime);
    assert NodeOk(t, q) && Passes(t, d, written, rtTasks, q) && GroupAdmitted(t, sysctl, q);
    assert forall i :: 0 <= i < |Children(t, q)| ==> ChildOk(t, q, Children(t, q)[i]);
    NoWrap(t, d, sysctl, written, rtTasks, q);
    CommittedSum(t, g, period, runtime, Children(t, q));
    hide Admitted, IsTree, NodeOk, ToRatio, SumRatios;
  }

  /** Committing an accepted request keeps the whole tree admitted. */
  lemma CommitAdmitted(t: Tree, sysctl: Sysctl, rtTasks: set<Gid>, g: Gid, period: nat, runtime: nat)
    requires Admitted(t, sysctl) && g in t.groups && period > 0
    requires var d := Request(Group(g), period, runtime);
             forall q :: q in t.groups ==> Passes(t, d, sysctl, rtTasks, q)
    ensures Admitted(Commit(t, g, period, runtime), sysctl)
  {
    assert Passes(t, Request(Group(g), period, runtime), sysctl, rtTasks, g);
    CommitAdmittedIff(t, sysctl, sysctl, rtTasks, g, period, runtime);
  }

  lemma SysctlAdmitted(t: Tree, old_: Sysctl, sysctl: Sysctl, rtTasks: set<Gid>)
    requires Admitted(t, old_) && sysctl.Ok() && sysctl.HasPeriod()
    requires forall q :: q in t.groups ==> Passes(t, NoRequest, sysctl, rtTasks, q)
    ensures Admitted(t, sysctl)
  {
    forall q | q in t.groups ensures GroupAdmitted(t, sysctl, q) {
      assert NodeOk(t, q) && GroupAdmitted(t, old_, q) && Passes(t, NoRequest, sysctl, rtTasks, q);
    }
  }

}
