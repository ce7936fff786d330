/** The operations on real-time bandwidth, and what every run of them keeps. */
module RtAdmission {
  import opened TaskGroups
  import opened RtBandwidth

  function Leaf(t: Tree, g: Gid, parent: Gid, period: nat): Tree
    requires parent in t.groups && t.depth.Keys == t.groups.Keys
  {
    var p := t.groups[parent];
    Tree(t.groups[parent := p.(children := [g] + p.children)][g := TaskGroup(Group(parent), [], period, 0)],
         t.root, t.depth[g := t.depth[parent] + 1], t.height + 1)
  }

  function Without(s: seq<Gid>, x: Gid): (r: seq<Gid>)
    requires x in s
    ensures forall y :: y in r ==> y in s
  {
    if s[0] == x then s[1..] else [s[0]] + Without(s[1..], x)
  }

  lemma {:induction false} WithoutDistinct(s: seq<Gid>, x: Gid)
    requires x in s && Distinct(s)
    ensures Distinct(Without(s, x))
    ensures forall y :: y in Without(s, x) <==> y in s && y != x
  {
    var head, tail := s[0], s[1..];
    assert s == [head] + tail;
    assert head !in tail by {
      if head in tail { var i :| 0 <= i < |tail| && tail[i] == s[i + 1] == head; }
    }
    if head != x {
      WithoutDistinct(tail, x);
      var rest := Without(tail, x);
      assert Without(s, x) == [head] + rest && head !in rest;
      assert forall i :: 0 < i <= |rest| ==> ([head] + rest)[i] == rest[i - 1];
    }
  }

  function Prune(t: Tree, g: Gid): Tree
    requires IsTree(t) && g in t.groups && g != t.root
  {
    assert NodeOk(t, g);
    var q := t.groups[g].parent.gid;
    var p := t.groups[q];
    t.(groups := t.groups[q := p.(children := Without(p.children, g))] - {g}, depth := t.depth - {g})
  }

  lemma LeafNodeOk(t: Tree, g: Gid, parent: Gid, period: nat, q: Gid)
    requires IsTree(t) && parent in t.groups && g !in t.groups && q in t.groups
    ensures NodeOk(Leaf(t, g, parent, period), q)
  {
    var t' := Leaf(t, g, parent, period);
    assert NodeOk(t, q);
    if q != t.root { assert NodeOk(t, t.groups[q].parent.gid); }
    forall i | 0 <= i < |t'.groups[q].children| ensures ChildOk(t', q, t'.groups[q].children[i]) {
      if q == parent {
        if i > 0 { assert ChildOk(t, q, t.groups[q].children[i - 1]); }
      } else {
        assert ChildOk(t, q, t.groups[q].children[i]);
      }
    }
    assert forall i :: 0 <= i < |t.groups[q].children| ==> ChildOk(t, q, t.groups[q].children[i]);
  }

  lemma {:induction false} SumKept(t: Tree, t': Tree, gs: seq<Gid>)
    requires AllIn(t, gs) && AllIn(t', gs) && PeriodsOk(t, NoRequest) && PeriodsOk(t', NoRequest)
    requires forall q :: q in gs ==>
               t'.groups[q].period == t.groups[q].period && t'.groups[q].runtime == t.groups[q].runtime
    ensures SumRatios(t', NoRequest, gs) == SumRatios(t, NoRequest, gs)
  {
    if gs != [] { SumKept(t, t', gs[1..]); }
  }

  lemma ZeroRatio(period: nat)
    requires period > 0
    ensures ToRatio(period, 0) == 0
  {
    DivAtMost(0, period, 0);
  }

  lemma CreateIsTree(t: Tree, g: Gid, parent: Gid, period: nat)
    requires IsTree(t) && parent in t.groups && g !in t.groups
    ensures IsTree(Leaf(t, g, parent, period))
  {
    var t' := Leaf(t, g, parent, period);
    forall q | q in t.groups ensures NodeOk(t', q) { LeafNodeOk(t, g, parent, period, q); }
    assert NodeOk(t, parent);
    assert NodeOk(t', g);
  }

  /** Every group of t is in t' with the same bandwidth. */
  predicate SameBandwidth(t: Tree, t': Tree) {
    forall x :: x in t.groups ==>
      (x in t'.groups && t'.groups[x].period == t.groups[x].period && t'.groups[x].runtime == t.groups[x].runtime)
  }

  lemma CreateGroupAdmitted(t: Tree, t': Tree, sysctl: Sysctl, g: Gid, parent: Gid, q: Gid)
    requires Admitted(t, sysctl) && IsTree(t') && PeriodsOk(t', NoRequest) && q in t.groups && q in t'.groups
    requires g in t'.groups && t'.groups[g].runtime == 0 && t'.groups[g].period > 0
    requires SameBandwidth(t, t')
    requires Children(t', q) == if q == parent then [g] + Children(t, q) else Children(t, q)
    ensures GroupAdmitted(t', sysctl, q)
  {
    assert NodeOk(t, q) && NodeOk(t', q) && GroupAdmitted(t, sysctl, q);
    assert forall i :: 0 <= i < |Children(t, q)| ==> ChildOk(t, q, Children(t, q)[i]);
    SumKept(t, t', Children(t, q));
    ZeroRatio(t'.groups[g].period);
    if q == parent {
      assert Children(t', q)[1..] == Children(t, q);
    }
  }

  lemma CreateAdmitted(t: Tree, sysctl: Sysctl, g: Gid, parent: Gid, period: nat)
    requires Admitted(t, sysctl) && parent in t.groups && g !in t.groups && period > 0
    ensures Admitted(Leaf(t, g, parent, period), sysctl)
  {
    var t' := Leaf(t, g, parent, period);
    CreateIsTree(t, g, parent, period);
    forall q | q in t'.groups ensures GroupAdmitted(t', sysctl, q) {
      assert NodeOk(t', q);
      if q == g {
        ZeroRatio(period);
      } else {
        CreateGroupAdmitted(t, t', sysctl, g, parent, q);
      }
    }
  }

  lemma {:induction false} SumWithout(t: Tree, gs: seq<Gid>, x: Gid)
    requires AllIn(t, gs) && PeriodsOk(t, NoRequest) && x in gs && Distinct(gs) && AllIn(t, Without(gs, x))
    ensures SumRatios(t, NoRequest, Without(gs, x)) <= SumRatios(t, NoRequest, gs)
  {
    if gs[0] != x {
      assert Without(gs, x)[1..] == Without(gs[1..], x);
      SumWithout(t, gs[1..], x);
    }
  }

  lemma PruneNodeOk(t: Tree, g: Gid, q: Gid)
    requires IsTree(t) && g in t.groups && g != t.root && t.groups[g].children == [] && q in t.groups && q != g
    ensures q in Prune(t, g).groups && NodeOk(Prune(t, g), q)
  {
    var t' := Prune(t, g);
    assert NodeOk(t, g) && NodeOk(t, q);
    assert forall i :: 0 <= i < |t.groups[q].children| ==> ChildOk(t, q, t.groups[q].children[i]);
    if q == t.groups[g].parent.gid { WithoutDistinct(t.groups[q].children, g); }
    forall i | 0 <= i < |t'.groups[q].children| ensures ChildOk(t', q, t'.groups[q].children[i]) {
      var c := t'.groups[q].children[i];
      assert c in t.groups[q].children;
      var j :| 0 <= j < |t.groups[q].children| && t.groups[q].children[j] == c;
      assert ChildOk(t, q, t.groups[q].children[j]);
    }
    if q != t.root {
      var r := t.groups[q].parent.gid;
      assert NodeOk(t, r) && r != g;
      if r == t.groups[g].parent.gid { WithoutDistinct(t.groups[r].children, g); }
    }
  }

  lemma PrunedChildren(t: Tree, g: Gid)
    requires IsTree(t) && g in t.groups && g != t.root
    ensures var t' := Prune(t, g);
            forall q :: q in t'.groups ==>
              && q in t.groups
              && (forall x :: x in t'.groups[q].children <==> x in t.groups[q].children && x != g)
  {
    assert NodeOk(t, g);
    forall q | q in t.groups && q != g
      ensures forall x :: x in Prune(t, g).groups[q].children <==> x in t.groups[q].children && x != g
    {
      assert NodeOk(t, q);
      if Group(q) == t.groups[g].parent {
        WithoutDistinct(t.groups[q].children, g);
      } else {
        forall i | 0 <= i < |t.groups[q].children| ensures t.groups[q].children[i] != g { assert ChildOk(t, q, t.groups[q].children[i]); }
      }
    }
  }

  lemma PruneIsTree(t: Tree, g: Gid)
    requires IsTree(t) && g in t.groups && g != t.root && t.groups[g].children == []
    ensures IsTree(Prune(t, g))
  {
    var t' := Prune(t, g);
    assert NodeOk(t, g) && NodeOk(t, t.groups[g].parent.gid) && NodeOk(t, t.root);
    forall q | q in t'.groups ensures NodeOk(t', q) { PruneNodeOk(t, g, q); }
  }

  lemma DestroyAdmitted(t: Tree, sysctl: Sysctl, g: Gid)
    requires Admitted(t, sysctl) && g in t.groups && g != t.root && t.groups[g].children == []
    ensures Admitted(Prune(t, g), sysctl)
  {
    var t' := Prune(t, g);
    PruneIsTree(t, g);
    forall q | q in t'.groups ensures GroupAdmitted(t', sysctl, q) {
      assert NodeOk(t', q) && NodeOk(t, q) && NodeOk(t, g) && GroupAdmitted(t, sysctl, q);
      PrunedSum(t, t', g, q);
    }
  }

  lemma PrunedSum(t: Tree, t': Tree, g: Gid, q: Gid)
    requires IsTree(t) && IsTree(t') && PeriodsOk(t, NoRequest) && PeriodsOk(t', NoRequest)
    requires q in t.groups && q in t'.groups && AllIn(t, Children(t, q)) && AllIn(t', Children(t', q))
    requires SameBandwidth(t', t)
    requires Children(t', q) == Children(t, q)
             || (g in Children(t, q) && Children(t', q) == Without(Children(t, q), g))
    ensures SumRatios(t', NoRequest, Children(t', q)) <= SumRatios(t, NoRequest, Children(t, q))
  {
    assert NodeOk(t, q) && NodeOk(t', q);
    SumKept(t, t', Children(t', q));
    if Children(t', q) != Children(t, q) {
      SumWithout(t, Children(t, q), g);
    }
  }

  /** The sanity check on the sysctl variables, made on nanoseconds. */
  lemma SanityCheck(s: Sysctl)
    requires 0 < s.period < 0x1_0000_0000 && s.runtime < 0x8000_0000
    ensures s.GlobalRuntime() > s.GlobalPeriod() && s.GlobalRuntime() != RUNTIME_INF <==> !s.Ok()
  {
  }

  lemma Nanoseconds(s: Sysctl)
    requires s.Ok()
    ensures s.GlobalPeriod() == s.period * 1000
    ensures s.GlobalRuntime() == if s.runtime < 0 then RUNTIME_INF else s.runtime * 1000
  {
  }

  /** Every group passes if g had the given bandwidth. */
  predicate Schedulable(t: Tree, g: Gid, period: nat, runtime: nat, sysctl: Sysctl, rtTasks: set<Gid>)
    requires IsTree(t) && PeriodsOk(t, NoRequest) && period > 0 && sysctl.HasPeriod()
  {
    forall q :: q in t.groups ==> Passes(t, Request(Group(g), period, runtime), sysctl, rtTasks, q)
  }

  const EPERM := -1

  /** The scheduler's real-time settings. */
  class RtSettings {
    var groups: map<Gid, TaskGroup>
    const root: Gid
    var depth: map<Gid, nat>               // depth and height only witness that the hierarchy is a tree
    var height: nat
    var rtTasks: set<Gid>                  // the groups for which tg_has_rt_tasks answers 1
    var sysctl: Sysctl
    var defPeriod: nat                     // def_rt_bandwidth, which new groups take their period from
    var defRuntime: nat

    function View(): Tree
      reads this
    {
      Tree(groups, root, depth, height)
    }

    ghost predicate Valid()
      reads this
    {
      Admitted(View(), sysctl) && defPeriod > 0 && rtTasks <= groups.Keys
    }

    /** While real-time bandwidth is enabled, every group with real-time tasks has runtime. */
    predicate Served()
      reads this
    {
      sysctl.runtime >= 0 ==> forall q :: q in rtTasks && q in groups ==> groups[q].runtime > 0
    }

    /** sched_init: the root group gets the global bandwidth. */
    constructor (g: Gid, settings: Sysctl)
      requires settings.Ok()
      ensures Valid() && Served() && sysctl == settings && root == g && rtTasks == {}
      ensures defPeriod == settings.period * 1000
      ensures defRuntime == if settings.runtime < 0 then RUNTIME_INF else settings.runtime * 1000
      ensures groups == map[g := TaskGroup(NoGroup, [], defPeriod, defRuntime)]
    {
      root := g;
      groups := map[g := TaskGroup(NoGroup, [], settings.GlobalPeriod(), settings.GlobalRuntime())];
      depth := map[g := 0];
      height := 1;
      rtTasks := {};
      sysctl := settings;
      defPeriod := settings.GlobalPeriod();
      defRuntime := settings.GlobalRuntime();
      new;
      assert NodeOk(View(), g);
    }

    /** sched_create_group: a new group starts without runtime. */
    method Create(g: Gid, parent: Gid)
      requires Valid() && parent in groups && g !in groups
      modifies this`groups, this`depth, this`height
      ensures Valid() && (old(Served()) ==> Served())
      ensures groups.Keys == old(groups.Keys) + {g} && groups[g] == TaskGroup(Group(parent), [], defPeriod, 0)
      ensures groups[parent] == old(groups[parent]).(children := [g] + old(groups[parent]).children)
      ensures forall q :: q in old(groups) && q != parent ==> groups[q] == old(groups)[q]
    {
      CreateAdmitted(View(), sysctl, g, parent, defPeriod);
      ghost var t := Leaf(View(), g, parent, defPeriod);
      var p := groups[parent];
      groups := groups[parent := p.(children := [g] + p.children)][g := TaskGroup(Group(parent), [], defPeriod, 0)];
      depth := depth[g := depth[parent] + 1];
      height := height + 1;
      assert View() == t;
    }

    /** sched_destroy_group, which the cgroup core only calls on a group without children and tasks. */
    method Destroy(g: Gid)
      requires Valid() && g in groups && g != root && groups[g].children == [] && g !in rtTasks
      modifies this`groups, this`depth
      ensures Valid() && (old(Served()) ==> Served())
      ensures groups.Keys == old(groups.Keys) - {g}
      ensures forall q :: q in groups ==>
                && groups[q] == old(groups)[q].(children := groups[q].children)
                && (forall x :: x in groups[q].children <==> x in old(groups)[q].children && x != g)
                && (Group(q) != old(groups)[g].parent ==> groups[q] == old(groups)[q])
    {
      DestroyAdmitted(View(), sysctl, g);
      PrunedChildren(View(), g);
      assert NodeOk(View(), g);
      var q := groups[g].parent.gid;
      var p := groups[q];
      groups := groups[q := p.(children := Without(p.children, g))] - {g};
      depth := depth - {g};
    }

    /** tg_set_bandwidth: the whole tree is checked with the requested values before they are stored. */
    method SetBandwidth(g: Gid, period: nat, runtime: nat) returns (err: int)
      requires Valid() && g in groups && period > 0
      modifies this`groups
      ensures Valid() && (old(Served()) ==> Served())
      ensures err == 0 <==> Schedulable(old(View()), g, period, runtime, sysctl, rtTasks)
      ensures err == 0 ==> Served()
      ensures groups == if err != 0 then old(groups)
                        else old(groups)[g := old(groups[g]).(period := period, runtime := runtime)]
      ensures err == 0 || err == EINVAL || err == EBUSY
      ensures err == EBUSY ==>
                && sysctl.runtime >= 0
                && exists q :: q in rtTasks && q in groups && (if q == g then runtime else groups[q].runtime) == 0
    {
      ghost var t := View();
      var d := Request(Group(g), period, runtime);
      err := Check(d, sysctl);
      if err != 0 {
        return;
      }
      CommitAdmitted(t, sysctl, rtTasks, g, period, runtime);
      groups := groups[g := groups[g].(period := period, runtime := runtime)];
      forall q | q in rtTasks && q in groups ensures sysctl.runtime >= 0 ==> groups[q].runtime > 0 {
        assert Passes(t, d, sysctl, rtTasks, q);
      }
    }

    /** __rt_schedulable on the current tree. */
    method Check(d: Request, limits: Sysctl) returns (ret: int)
      requires Valid() && PeriodsOk(View(), d) && limits.HasPeriod()
      ensures ret == 0 <==> forall q :: q in groups ==> Passes(View(), d, limits, rtTasks, q)
      ensures ret != 0 ==> ret == EINVAL || ret == EBUSY
      ensures ret == EBUSY ==> limits.runtime >= 0 && exists q :: q in groups && q in rtTasks && Runtime(View(), d, q) == 0
    {
      ret := RtSchedulable(View(), d, limits, rtTasks);
    }

    /** sched_group_set_rt_runtime */
    method SetRuntime(g: Gid, runtimeUs: int) returns (err: int)
      requires Valid() && g in groups
      modifies this`groups
      ensures Valid() && (old(Served()) ==> Served()) && (err == 0 ==> Served())
      ensures var runtime := if runtimeUs < 0 then RUNTIME_INF else runtimeUs * 1000 % U64;
              && (err == 0 <==> Schedulable(old(View()), g, old(groups[g].period), runtime, sysctl, rtTasks))
              && groups == if err != 0 then old(groups) else old(groups)[g := old(groups[g]).(runtime := runtime)]
      ensures err == 0 || err == EINVAL || err == EBUSY
    {
      assert Period(View(), NoRequest, g) > 0;
      var runtime := runtimeUs * 1000 % U64;
      if runtimeUs < 0 {
        runtime := RUNTIME_INF;
      }
      err := SetBandwidth(g, groups[g].period, runtime);
    }

    /** sched_group_set_rt_period. */
    method SetPeriod(g: Gid, periodUs: int) returns (err: int)
      requires Valid() && g in groups
      modifies this`groups
      ensures Valid() && (old(Served()) ==> Served()) && (err == 0 ==> Served())
      ensures var period := periodUs * 1000 % U64;
              && (period == 0 ==> err == EINVAL)
              && (period > 0 ==> (err == 0 <==> Schedulable(old(View()), g, period, old(groups[g].runtime), sysctl, rtTasks)))
              && groups == if err != 0 then old(groups) else old(groups)[g := old(groups[g]).(period := period)]
      ensures err == 0 || err == EINVAL || err == EBUSY
    {
      var period := periodUs * 1000 % U64;
      if period == 0 {
        return EINVAL;
      }
      err := SetBandwidth(g, period, groups[g].runtime);
    }

    /** sched_rt_handler: the new settings are stored, checked against the whole tree, and restored if it fails. */
    method WriteSysctl(settings: Sysctl) returns (ret: int)
      requires Valid() && settings.period < 0x1_0000_0000 && settings.runtime < 0x8000_0000
      modifies this`sysctl, this`defPeriod, this`defRuntime
      ensures Valid() && (old(Served()) ==> Served()) && (ret == 0 ==> Served())
      ensures ret == 0 ==>
                && sysctl == settings && defPeriod == settings.period * 1000
                && defRuntime == if settings.runtime < 0 then RUNTIME_INF else settings.runtime * 1000
      ensures ret != 0 ==> sysctl == old(sysctl) && defPeriod == old(defPeriod) && defRuntime == old(defRuntime)
      ensures ret == 0 <==> 0 < settings.period && settings.runtime <= settings.period && settings.HasPeriod()
                            && forall q :: q in groups ==> Passes(View(), NoRequest, settings, rtTasks, q)
      ensures ret == 0 || ret == EINVAL || ret == EBUSY
    {
      var before := sysctl;
      sysctl := settings;
      ret := GlobalConstraints(before);
      hide Passes, Admitted, Sysctl.GlobalPeriod, Sysctl.GlobalRuntime, Sysctl.HasPeriod;
      if ret != 0 {
        sysctl := before;
      } else {
        SysctlAdmitted(View(), before, settings, rtTasks);
        defRuntime := settings.GlobalRuntime();
        defPeriod := settings.GlobalPeriod();
      }
    }

    /** sched_rt_global_constraints on the stored settings. */
    method GlobalConstraints(ghost before: Sysctl) returns (ret: int)
      requires Admitted(View(), before) && sysctl.period < 0x1_0000_0000 && sysctl.runtime < 0x8000_0000
      ensures ret == 0 <==> 0 < sysctl.period && sysctl.runtime <= sysctl.period && sysctl.HasPeriod()
                            && forall q :: q in groups ==> Passes(View(), NoRequest, sysctl, rtTasks, q)
      ensures ret == 0 ==> sysctl.Ok() && Served() && sysctl.GlobalPeriod() == sysctl.period * 1000
      ensures ret == 0 ==> sysctl.GlobalRuntime() == if sysctl.runtime < 0 then RUNTIME_INF else sysctl.runtime * 1000
      ensures ret == 0 || ret == EINVAL || ret == EBUSY
    {
      if sysctl.period == 0 {
        return EINVAL;
      }
      SanityCheck(sysctl);
      if sysctl.GlobalRuntime() > sysctl.GlobalPeriod() && sysctl.GlobalRuntime() != RUNTIME_INF {
        return EINVAL;
      }
      sysctl.OkHasPeriod();
      Nanoseconds(sysctl);
      hide Sysctl.GlobalPeriod, Sysctl.GlobalRuntime, Sysctl.HasPeriod, IsTree;
      ret := RtSchedulable(View(), NoRequest, sysctl, rtTasks);
      if ret == 0 {
        forall q | q in rtTasks && q in groups ensures sysctl.runtime >= 0 ==> groups[q].runtime > 0 {
          assert Passes(View(), NoRequest, sysctl, rtTasks, q);
        }
      }
    }

    /** __sched_setscheduler to a real-time policy: only requests of users are refused in a group without runtime. */
    method MakeRealtime(g: Gid, user: bool) returns (err: int)
      requires Valid() && g in groups
      modifies this`rtTasks
      ensures Valid()
      ensures err == if user && sysctl.runtime >= 0 && groups[g].runtime == 0 then EPERM else 0
      ensures rtTasks == if err == 0 then old(rtTasks) + {g} else old(rtTasks)
      ensures old(Served()) ==> (Served() <==> user || sysctl.runtime < 0 || groups[g].runtime > 0)
    {
      if user && sysctl.runtime >= 0 && groups[g].runtime == 0 {
        return EPERM;
      }
      rtTasks := rtTasks + {g};
      err := 0;
    }

    /** cpu_cgroup_can_attach_task and the move of a real-time task into g. */
    method AttachRealtime(g: Gid) returns (err: int)
      requires Valid() && g in groups
      modifies this`rtTasks
      ensures Valid() && (old(Served()) ==> Served())
      ensures err == if groups[g].runtime == 0 then EINVAL else 0
      ensures rtTasks == if err == 0 then old(rtTasks) + {g} else old(rtTasks)
    {
      if groups[g].runtime == 0 {
        return EINVAL;
      }
      rtTasks := rtTasks + {g};
      err := 0;
    }

    /** The last real-time task of g leaves it or becomes an ordinary one. */
    method LeaveRealtime(g: Gid)
      requires Valid()
      modifies this`rtTasks
      ensures Valid() && rtTasks == old(rtTasks) - {g} && (old(Served()) ==> Served())
    {
      rtTasks := rtTasks - {g};
    }
  }
}
