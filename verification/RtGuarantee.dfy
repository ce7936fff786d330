/** What admission means for the machine: no choice of independent groups can claim more than the global bandwidth. */
module RtGuarantee {
  import opened TaskGroups
  import opened RtBandwidth
  import opened RtAdmission

  ghost function RatioSum(t: Tree, s: set<Gid>): nat
    requires s <= t.groups.Keys && PeriodsOk(t, NoRequest)
  {
    if s == {} then 0
    else
      var x :| x in s;
      Ratio(t, NoRequest, x) + RatioSum(t, s - {x})
  }

  /** No group of s lies below another one. */
  ghost predicate Independent(t: Tree, s: set<Gid>)
    requires IsTree(t)
  {
    forall x, y :: x in s && y in s && x != y ==> !Below(t, x, y)
  }

  lemma {:induction false} RemoveOne(t: Tree, s: set<Gid>, x: Gid)
    requires s <= t.groups.Keys && PeriodsOk(t, NoRequest) && x in s
    ensures RatioSum(t, s) == Ratio(t, NoRequest, x) + RatioSum(t, s - {x})
  {
    var y :| y in s && RatioSum(t, s) == Ratio(t, NoRequest, y) + RatioSum(t, s - {y});
    if y != x {
      RemoveOne(t, s - {y}, x);
      RemoveOne(t, s - {x}, y);
      assert s - {y} - {x} == s - {x} - {y};
    }
  }

  lemma {:induction false} SplitSum(t: Tree, a: set<Gid>, b: set<Gid>)
    requires a + b <= t.groups.Keys && PeriodsOk(t, NoRequest) && a !! b
    ensures RatioSum(t, a + b) == RatioSum(t, a) + RatioSum(t, b)
    decreases a
  {
    if a == {} {
      assert a + b == b;
    } else {
      var x :| x in a;
      RemoveOne(t, a, x);
      RemoveOne(t, a + b, x);
      SplitSum(t, a - {x}, b);
      assert a + b - {x} == (a - {x}) + b;
    }
  }

  /** Independent groups below g share g's ratio. */
  lemma {:induction false} SubtreeBound(t: Tree, sysctl: Sysctl, g: Gid, s: set<Gid>)
    requires Admitted(t, sysctl) && g in t.groups && Independent(t, s)
    requires forall x :: x in s ==> Below(t, x, g)
    ensures s <= t.groups.Keys && RatioSum(t, s) <= Ratio(t, NoRequest, g)
    decreases t.height - t.depth[g], |Children(t, g)| + 1
  {
    assert NodeOk(t, g) && GroupAdmitted(t, sysctl, g);
    if g in s {
      assert s == {g};
      RemoveOne(t, s, g);
      assert s - {g} == {};
    } else {
      forall x | x in s ensures BelowFrom(t, g, 0, x) {
        var i := SomeBranch(t, x, g);
      }
      ChildrenBound(t, sysctl, g, 0, s);
      assert Children(t, g)[0..] == Children(t, g);
    }
  }

  lemma {:induction false} ChildrenBound(t: Tree, sysctl: Sysctl, g: Gid, i: nat, s: set<Gid>)
    requires Admitted(t, sysctl) && g in t.groups && i <= |Children(t, g)| && Independent(t, s)
    requires forall x :: x in s ==> x in t.groups && BelowFrom(t, g, i, x)
    ensures AllIn(t, Children(t, g)[i..]) && RatioSum(t, s) <= SumRatios(t, NoRequest, Children(t, g)[i..])
    decreases t.height - t.depth[g], |Children(t, g)| - i
  {
    var gs := Children(t, g);
    assert NodeOk(t, g);
    assert forall j :: 0 <= j < |gs| ==> ChildOk(t, g, gs[j]);
    if i == |gs| {
      assert s == {};
    } else {
      assert NodeOk(t, gs[i]);
      var here := set x | x in s && Below(t, x, gs[i]);
      var later := s - here;
      SubtreeBound(t, sysctl, gs[i], here);
      ChildrenBound(t, sysctl, g, i + 1, later);
      SplitSum(t, here, later);
      assert here + later == s;
      assert gs[i..][0] == gs[i] && gs[i..][1..] == gs[i + 1..];
    }
  }

  /** The ratios of pairwise independent groups sum to at most the global ratio, which is at most one. */
  lemma GlobalBound(t: Tree, sysctl: Sysctl, s: set<Gid>)
    requires Admitted(t, sysctl) && s <= t.groups.Keys && Independent(t, s)
    ensures RatioSum(t, s) <= sysctl.GlobalRatio() <= UNIT
  {
    forall x | x in s ensures Below(t, x, t.root) { AllBelowRoot(t, x); }
    SubtreeBound(t, sysctl, t.root, s);
    assert GroupAdmitted(t, sysctl, t.root);
    GlobalAtMostUnit(sysctl);
  }

  // ---------------------------------------------------------------- where the 64-bit shift is exact

  /** The ratio without wrap-around. */
  function ExactRatio(period: nat, runtime: nat): nat
    requires period > 0
  {
    if runtime == RUNTIME_INF then UNIT else runtime * UNIT / period
  }

  /** For an admitted bandwidth the computed ratio is the exact one if and only if the runtime is below 2^44 ns or
      unlimited. */
  lemma RatioExactIff(period: nat, runtime: nat)
    requires 0 < period < U64 && RuntimeFits(period, runtime)
    ensures ToRatio(period, runtime) == ExactRatio(period, runtime) <==> runtime < 0x1000_0000_0000 || runtime == RUNTIME_INF
  {
    if runtime == RUNTIME_INF { return; }
    var shifted := runtime * UNIT;
    var lost := shifted / U64;
    assert shifted <= period * UNIT;
    DivAtMost(shifted, period, UNIT);
    DivAtMost(ShiftLeft20(runtime), period, UNIT);
    if runtime >= 0x1000_0000_0000 {
      assert shifted >= U64 && lost >= 1;
      assert ShiftLeft20(runtime) + U64 <= shifted;
      QuotientDrops(ShiftLeft20(runtime), shifted, period);
    }
  }

  lemma QuotientDrops(x: nat, y: nat, d: nat)
    requires d > 0 && x + d <= y
    ensures x / d < y / d
  {
    var q := x / d;
    assert (q + 1) * d <= x + d <= y;
    DivAtLeast(y, d, q + 1);
  }

  lemma DivAtLeast(y: nat, d: nat, q: nat)
    requires d > 0 && q * d <= y
    ensures y / d >= q
  {
    var k := y / d + 1;
    assert y < k * d;
    CancelFactor(q, k, d);
  }

  lemma CancelFactor(a: nat, b: nat, d: nat)
    requires d > 0 && a * d < b * d
    ensures a < b
  {
  }

  // ---------------------------------------------------------------- the window in sched_rt_handler

  const BEFORE := Sysctl(1000000, 950000)
  const WRITTEN := Sysctl(1000000, 2000000)
  const ONLY_ROOT := Tree(map[0 := TaskGroup(NoGroup, [], 1000000000, 950000000)], 0, map[0 := 0], 1)

  lemma OnlyRootAdmitted()
    ensures Admitted(ONLY_ROOT, BEFORE)
  {
    assert NodeOk(ONLY_ROOT, 0);
    assert GroupAdmitted(ONLY_ROOT, BEFORE, 0);
  }

  /** sched_rt_handler stores the new settings before it checks them, under a mutex tg_set_bandwidth does not take.  A
      request that is accepted in between, against settings the handler then takes back, breaks the restored limit
      exactly if its own ratio exceeds it; settings that do not raise the limit open no window. */
  lemma RejectedWriteWindowIff(t: Tree, before: Sysctl, written: Sysctl, rtTasks: set<Gid>, g: Gid, period: nat, runtime: nat)
    requires Admitted(t, before) && written.HasPeriod() && g in t.groups && period > 0
    requires Schedulable(t, g, period, runtime, written, rtTasks)
    ensures Admitted(Commit(t, g, period, runtime), before) <==> ToRatio(period, runtime) <= before.GlobalRatio()
    ensures written.GlobalRatio() <= before.GlobalRatio() ==> Admitted(Commit(t, g, period, runtime), before)
  {
    assert Passes(t, Request(Group(g), period, runtime), written, rtTasks, g);
    CommitAdmittedIff(t, before, written, rtTasks, g, period, runtime);
  }

  lemma WholePeriodPasses(period: nat, runtime: nat)
    requires period == runtime == 1000000000
    ensures WRITTEN.HasPeriod() && IsTree(ONLY_ROOT) && PeriodsOk(ONLY_ROOT, NoRequest)
    ensures Schedulable(ONLY_ROOT, 0, period, runtime, WRITTEN, {})
  {
    OnlyRootAdmitted();
    assert ToRatio(period, runtime) == UNIT && WRITTEN.GlobalRatio() >= UNIT;
    assert Passes(ONLY_ROOT, Request(Group(0), period, runtime), WRITTEN, {}, 0);
  }

  /** Twice the period as runtime is rejected, but while it is stored the root group can take the whole period. */
  lemma RejectedWriteLeavesWindow(period: nat, runtime: nat)
    requires period == runtime == 1000000000
    ensures Admitted(ONLY_ROOT, BEFORE) && !WRITTEN.Ok() && WRITTEN.HasPeriod()
    ensures Schedulable(ONLY_ROOT, 0, period, runtime, WRITTEN, {})
    ensures !Admitted(Commit(ONLY_ROOT, 0, period, runtime), BEFORE)
  {
    OnlyRootAdmitted();
    WholePeriodPasses(period, runtime);
    assert ToRatio(period, runtime) == UNIT && BEFORE.GlobalRatio() < UNIT;
    hide Admitted, Schedulable, ToRatio;
    RejectedWriteWindowIff(ONLY_ROOT, BEFORE, WRITTEN, {}, 0, period, runtime);
  }
}
