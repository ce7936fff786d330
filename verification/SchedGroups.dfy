/**
 Scheduling domains: the chain of spans of every CPU and, per topology level, the circular lists of groups built by
 build_sched_groups.  A cpumask is a set of CPU numbers below n; the per-CPU sched_group storage of one level is a pair
 of arrays, so a group is named by the CPU whose storage it uses.
 */
module SchedGroups {

  type Cpu = nat
  type Mask = set<Cpu>

  datatype Option<T> = None | Some(value: T)

  /** One level as build_sched_groups sees it: the spans of the level, and those of the level below if there is one. */
  datatype Level = Level(n: nat, cpuMap: Mask, span: seq<Mask>, child: Option<seq<Mask>>)

  predicate Below(m: Mask, n: nat) {
    forall i :: i in m ==> i < n
  }

  /** s maps the CPUs of the map to the classes of an equivalence on the map. */
  predicate Classes(n: nat, cpuMap: Mask, s: seq<Mask>) {
    && |s| == n && Below(cpuMap, n)
    && (forall i :: i in cpuMap ==> i in s[i] && s[i] <= cpuMap)
    && (forall i, j :: i in cpuMap && j in s[i] ==> s[j] == s[i])
  }

  predicate LevelOk(lv: Level) {
    && Classes(lv.n, lv.cpuMap, lv.span)
    && (lv.child.Some? ==> Classes(lv.n, lv.cpuMap, lv.child.value)
                           && forall i :: i in lv.cpuMap ==> lv.child.value[i] <= lv.span[i])
  }

  // ---------------------------------------------------------------- the chain of spans

  /** The masks of all levels: at every level an equivalence on the n CPUs, each contained in the next. */
  predicate Topology(n: nat, masks: seq<seq<Mask>>) {
    && masks != []
    && (forall l :: 0 <= l < |masks| ==> Classes(n, All(n), masks[l]))
    && (forall k, l :: 0 <= k <= l < |masks| ==> Within(masks[k], masks[l]))
  }

  predicate Within(a: seq<Mask>, b: seq<Mask>) {
    |a| == |b| && forall i :: 0 <= i < |a| ==> a[i] <= b[i]
  }

  function All(n: nat): (m: Mask)
    ensures forall i: Cpu :: i in m <==> i < n
  {
    if n == 0 then {} else All(n - 1) + {n - 1}
  }

  function Spans(n: nat, cpuMap: Mask, masks: seq<Mask>): seq<Mask>
    requires |masks| == n
  {
    seq(n, i requires 0 <= i < n => cpuMap * masks[i])
  }

  /** The levels of cpu's chain: up to the first whose span is the whole map. */
  function Height(cpuMap: Mask, masks: seq<seq<Mask>>, cpu: Cpu): nat
    requires forall l :: 0 <= l < |masks| ==> cpu < |masks[l]|
  {
    if masks == [] then 0
    else if cpuMap * masks[0][cpu] == cpuMap then 1
    else 1 + Height(cpuMap, masks[1..], cpu)
  }

  method BuildChain(n: nat, cpuMap: Mask, masks: seq<seq<Mask>>, cpu: Cpu) returns (chain: seq<Mask>)
    requires Topology(n, masks) && Below(cpuMap, n) && cpu in cpuMap
    ensures |chain| == Height(cpuMap, masks, cpu) <= |masks|
    ensures forall l :: 0 <= l < |chain| ==> chain[l] == Spans(n, cpuMap, masks[l])[cpu]
  {
    chain := [];
    for tl := 0 to |masks|
      invariant |chain| == tl
      invariant Height(cpuMap, masks, cpu) == tl + Height(cpuMap, masks[tl..], cpu)
      invariant forall l :: 0 <= l < tl ==> chain[l] == Spans(n, cpuMap, masks[l])[cpu]
    {
      var span := cpuMap * masks[tl][cpu];
      chain := chain + [span];
      assert masks[tl..][1..] == masks[tl + 1..];
      if span == cpuMap {
        return;
      }
    }
  }

  /** Every level below the height of the chains satisfies what build_sched_groups relies on. */
  lemma ChainLevelOk(n: nat, cpuMap: Mask, masks: seq<seq<Mask>>, l: nat)
    requires Topology(n, masks) && Below(cpuMap, n) && l < |masks|
    ensures LevelOk(Level(n, cpuMap, Spans(n, cpuMap, masks[l]),
                          if l == 0 then None else Some(Spans(n, cpuMap, masks[l - 1]))))
  {
    RestrictClasses(n, cpuMap, masks[l]);
    if l > 0 {
      RestrictClasses(n, cpuMap, masks[l - 1]);
      assert Within(masks[l - 1], masks[l]);
    }
  }

  lemma RestrictClasses(n: nat, cpuMap: Mask, masks: seq<Mask>)
    requires Classes(n, All(n), masks) && Below(cpuMap, n)
    ensures Classes(n, cpuMap, Spans(n, cpuMap, masks))
  {
    forall i, j | i in cpuMap && j in Spans(n, cpuMap, masks)[i]
      ensures Spans(n, cpuMap, masks)[j] == Spans(n, cpuMap, masks)[i]
    {
      assert i in All(n) && j in masks[i];
    }
  }

  /** The chains of all CPUs of the map stop at the same level, so whoever has a child at a level has it for everyone. */
  lemma {:induction false} SameHeight(n: nat, cpuMap: Mask, masks: seq<seq<Mask>>, a: Cpu, b: Cpu)
    requires Below(cpuMap, n) && a in cpuMap && b in cpuMap
    requires forall l :: 0 <= l < |masks| ==> n == |masks[l]| && Classes(n, All(n), masks[l])
    ensures Height(cpuMap, masks, a) == Height(cpuMap, masks, b)
  {
    if masks != [] {
      FullSpan(n, cpuMap, masks[0], a, b);
      SameHeight(n, cpuMap, masks[1..], a, b);
    }
  }

  lemma FullSpan(n: nat, cpuMap: Mask, masks: seq<Mask>, a: Cpu, b: Cpu)
    requires Classes(n, All(n), masks) && Below(cpuMap, n) && a in cpuMap && b in cpuMap
    ensures cpuMap * masks[a] == cpuMap <==> cpuMap * masks[b] == cpuMap
  {
    assert a in All(n) && b in All(n);
    assert cpuMap * masks[a] == cpuMap ==> b in masks[a];
    assert cpuMap * masks[b] == cpuMap ==> a in masks[b];
  }

  /** The spans of a chain are nested and all contain the CPU. */
  lemma ChainNested(n: nat, cpuMap: Mask, masks: seq<seq<Mask>>, cpu: Cpu, k: nat, l: nat)
    requires Topology(n, masks) && Below(cpuMap, n) && cpu in cpuMap && k <= l < |masks|
    ensures cpu in Spans(n, cpuMap, masks[k])[cpu]
    ensures Spans(n, cpuMap, masks[k])[cpu] <= Spans(n, cpuMap, masks[l])[cpu] <= cpuMap
  {
    assert cpu in All(n) && Within(masks[k], masks[l]);
  }

  // ---------------------------------------------------------------- groups

  /** cpumask_first. */
  function First(m: Mask, k: nat, n: nat): (r: Cpu)
    requires k <= n && Below(m, n) && m != {}
    requires forall i :: i in m ==> k <= i
    ensures r in m && forall i :: i in m ==> r <= i
    decreases n - k
  {
    if k in m then k
    else
      assert k < n by { var i :| i in m; }
      First(m, k + 1, n)
  }

  /** get_group: the CPU whose storage holds the group of cpu. */
  function GetGroup(lv: Level, cpu: Cpu): Cpu
    requires LevelOk(lv) && cpu in lv.cpuMap
  {
    if lv.child.Some? then First(lv.child.value[cpu], 0, lv.n) else cpu
  }

  lemma GroupIsRep(lv: Level, cpu: Cpu)
    requires LevelOk(lv) && cpu in lv.cpuMap
    ensures var r := GetGroup(lv, cpu);
            r <= cpu && r in lv.cpuMap && r in lv.span[cpu] && lv.span[r] == lv.span[cpu] && GetGroup(lv, r) == r
  {
  }

  /** Two CPUs have the same group exactly if they share the span of the level below, or are the same CPU on the base level;
      the group is named by the first CPU of that span. */
  lemma SameGroupIff(lv: Level, i: Cpu, j: Cpu)
    requires LevelOk(lv) && i in lv.cpuMap && j in lv.cpuMap
    ensures GetGroup(lv, i) == GetGroup(lv, j) <==> if lv.child.Some? then j in lv.child.value[i] else i == j
    ensures lv.child.Some? && j in lv.child.value[i] ==> GetGroup(lv, i) <= j
  {
    if lv.child.Some? {
      var child := lv.child.value;
      assert GetGroup(lv, i) in child[i] && GetGroup(lv, j) in child[j];
      if GetGroup(lv, i) == GetGroup(lv, j) { assert child[GetGroup(lv, i)] == child[i] == child[j]; }
    }
  }

  /** The CPUs of a span that share the group r. */
  function Members(lv: Level, span: Mask, r: Cpu): Mask
    requires LevelOk(lv) && span <= lv.cpuMap
  {
    set j | j in span && GetGroup(lv, j) == r
  }

  /** The groups of a span in the order in which they are linked. */
  function Reps(lv: Level, span: Mask, k: nat): (list: seq<Cpu>)
    requires LevelOk(lv) && span <= lv.cpuMap
    ensures forall x :: x in list <==> x in span && x < k && GetGroup(lv, x) == x
    ensures forall i, j :: 0 <= i < j < |list| ==> list[i] < list[j]
  {
    if k == 0 then []
    else
      var list := Reps(lv, span, k - 1);
      assert forall i :: 0 <= i < |list| ==> list[i] in list;
      if k - 1 in span && GetGroup(lv, k - 1) == k - 1 then list + [k - 1] else list
  }

  function Succ(list: seq<Cpu>, k: nat): Cpu
    requires k < |list|
  {
    if k + 1 < |list| then list[k + 1] else list[0]
  }

  predicate Filled(lv: Level, span: Mask, list: seq<Cpu>, mask: seq<Mask>)
    requires LevelOk(lv) && span <= lv.cpuMap
  {
    forall k :: 0 <= k < |list| ==> list[k] < |mask| && mask[list[k]] == Members(lv, span, list[k])
  }

  predicate Cycle(list: seq<Cpu>, next: seq<Cpu>) {
    forall k :: 0 <= k < |list| ==> list[k] < |next| && next[list[k]] == Succ(list, k)
  }

  /** The groups of a span are complete. */
  predicate Linked(lv: Level, span: Mask, mask: seq<Mask>, next: seq<Cpu>)
    requires LevelOk(lv) && span <= lv.cpuMap
  {
    Filled(lv, span, Reps(lv, span, lv.n), mask) && Cycle(Reps(lv, span, lv.n), next)
  }

  /** All but the last link. */
  predicate OpenChain(list: seq<Cpu>, next: seq<Cpu>) {
    && (forall k :: 0 <= k < |list| ==> list[k] < |next|)
    && (forall k :: 0 <= k < |list| - 1 ==> next[list[k]] == Succ(list, k))
  }

  predicate KeptElsewhere<T(==)>(list: seq<Cpu>, before: seq<T>, after: seq<T>) {
    |after| == |before| && forall r :: 0 <= r < |before| && r !in list ==> after[r] == before[r]
  }

  /** The loop over j: collects the CPUs of the span that share `group`, in the mask of the group. */
  method FillGroup(lv: Level, span: Mask, group: Cpu, mask: array<Mask>) returns (members: Mask)
    requires LevelOk(lv) && span <= lv.cpuMap && group < mask.Length
    modifies mask
    ensures members == Members(lv, span, group)
    ensures mask[..] == old(mask[..])[group := members]
  {
    ghost var before := mask[..];
    members := {};
    mask[group] := {};
    for j := 0 to lv.n
      invariant members == set x | x in span && x < j && GetGroup(lv, x) == group
      invariant mask[..] == before[group := members]
    {
      if j in span && GetGroup(lv, j) == group {
        members := members + {j};
        mask[group] := mask[group] + {j};
      }
    }
  }

  /** A CPU of the span that is not its own group is nobody's. */
  lemma OnlyReps(lv: Level, cpu: Cpu, i: Cpu)
    requires LevelOk(lv) && cpu in lv.cpuMap
    ensures forall j :: j in lv.span[cpu] && GetGroup(lv, j) == i ==> i in lv.span[cpu] && GetGroup(lv, i) == i
  {
    forall j | j in lv.span[cpu] && GetGroup(lv, j) == i ensures i in lv.span[cpu] && GetGroup(lv, i) == i {
      GroupIsRep(lv, j);
    }
  }

  lemma LinkLast(list: seq<Cpu>, next: seq<Cpu>, last: Cpu, first: Cpu)
    requires list != [] && OpenChain(list, next) && last == list[|list| - 1] && first == list[0]
    requires forall a, b :: 0 <= a < b < |list| ==> list[a] < list[b]
    ensures Cycle(list, next[last := first])
  {
    var next' := next[last := first];
    forall k | 0 <= k < |list| ensures next'[list[k]] == Succ(list, k) {
      if k + 1 < |list| { assert next[list[k]] == Succ(list, k); }
    }
  }

  /** The state of the loop over the span of a group leader: the groups below i are filled and linked. */
  ghost predicate Progress(lv: Level, span: Mask, i: nat, covered: Mask, linked: bool, first: Cpu, last: Cpu,
                           mask: seq<Mask>, next: seq<Cpu>)
    requires LevelOk(lv) && span <= lv.cpuMap
  {
    var list := Reps(lv, span, i);
    && covered == (set j | j in span && GetGroup(lv, j) < i)
    && (linked <==> list != [])
    && (linked ==> first == list[0] && last == list[|list| - 1])
    && Filled(lv, span, list, mask) && OpenChain(list, next)
  }

  lemma Skipped(lv: Level, cpu: Cpu, i: nat, covered: Mask, linked: bool, first: Cpu, last: Cpu,
                mask: seq<Mask>, next: seq<Cpu>)
    requires LevelOk(lv) && cpu in lv.cpuMap
    requires Progress(lv, lv.span[cpu], i, covered, linked, first, last, mask, next)
    requires !(i in lv.span[cpu] && i !in covered)
    ensures Progress(lv, lv.span[cpu], i + 1, covered, linked, first, last, mask, next)
  {
    OnlyReps(lv, cpu, i);
  }

  lemma Added(lv: Level, span: Mask, i: nat, covered: Mask, linked: bool, first: Cpu, last: Cpu,
              mask: seq<Mask>, next: seq<Cpu>)
    requires LevelOk(lv) && span <= lv.cpuMap && i in span && GetGroup(lv, i) == i && i < |mask| && i < |next|
    requires Progress(lv, span, i, covered, linked, first, last, mask, next)
    ensures Progress(lv, span, i + 1, covered + Members(lv, span, i), true, if linked then first else i, i,
                     mask[i := Members(lv, span, i)], if linked then next[last := i] else next)
  {
    var list := Reps(lv, span, i);
    var next' := if linked then next[last := i] else next;
    assert Reps(lv, span, i + 1) == list + [i];
    FilledLonger(lv, span, list, i, mask);
    LinkLonger(list, i, next);
  }

  lemma FilledLonger(lv: Level, span: Mask, list: seq<Cpu>, i: Cpu, mask: seq<Mask>)
    requires LevelOk(lv) && span <= lv.cpuMap && i !in list && i < |mask| && Filled(lv, span, list, mask)
    ensures Filled(lv, span, list + [i], mask[i := Members(lv, span, i)])
  {
  }

  lemma LinkLonger(list: seq<Cpu>, i: Cpu, next: seq<Cpu>)
    requires OpenChain(list, next) && i < |next|
    requires forall a, b :: 0 <= a < b < |list| ==> list[a] < list[b]
    ensures OpenChain(list + [i], if list == [] then next else next[list[|list| - 1] := i])
  {
    var longer := list + [i];
    var next' := if list == [] then next else next[list[|list| - 1] := i];
    forall k | 0 <= k < |longer| - 1 ensures next'[longer[k]] == Succ(longer, k) {
      if k + 1 < |list| { assert next[list[k]] == Succ(list, k); }
    }
  }

  lemma Started(lv: Level, span: Mask, first: Cpu, last: Cpu, mask: seq<Mask>, next: seq<Cpu>)
    requires LevelOk(lv) && span <= lv.cpuMap
    ensures Progress(lv, span, 0, {}, false, first, last, mask, next)
  {
  }

  lemma NewGroup(lv: Level, cpu: Cpu, i: nat, covered: Mask, linked: bool, first: Cpu, last: Cpu,
                 mask: seq<Mask>, next: seq<Cpu>)
    requires LevelOk(lv) && cpu in lv.cpuMap && |mask| == |next| == lv.n
    requires i in lv.span[cpu] && i !in covered
    requires Progress(lv, lv.span[cpu], i, covered, linked, first, last, mask, next)
    ensures i in lv.cpuMap && GetGroup(lv, i) == i && i < lv.n && i in Reps(lv, lv.span[cpu], lv.n)
    ensures linked ==> last < lv.n && last in Reps(lv, lv.span[cpu], lv.n)
    ensures Progress(lv, lv.span[cpu], i + 1, covered + Members(lv, lv.span[cpu], i), true, if linked then first else i, i,
                     mask[i := Members(lv, lv.span[cpu], i)], if linked then next[last := i] else next)
  {
    GroupIsRep(lv, i);
    Added(lv, lv.span[cpu], i, covered, linked, first, last, mask, next);
    if linked { assert last in Reps(lv, lv.span[cpu], i); }
  }

  lemma Finished(lv: Level, cpu: Cpu, covered: Mask, linked: bool, first: Cpu, last: Cpu, mask: seq<Mask>, next: seq<Cpu>)
    requires LevelOk(lv) && cpu in lv.cpuMap && |mask| == |next| == lv.n
    requires Progress(lv, lv.span[cpu], lv.n, covered, linked, first, last, mask, next)
    ensures last < lv.n && last in Reps(lv, lv.span[cpu], lv.n)
    ensures Linked(lv, lv.span[cpu], mask, next[last := first])
  {
    hide GetGroup, Filled, OpenChain, Cycle, Succ;
    var reps := Reps(lv, lv.span[cpu], lv.n);
    RepsNotEmpty(lv, cpu);
    assert last in reps;
    LinkLast(reps, next, last, first);
  }

  lemma RepsNotEmpty(lv: Level, cpu: Cpu)
    requires LevelOk(lv) && cpu in lv.cpuMap
    ensures Reps(lv, lv.span[cpu], lv.n) != []
    ensures GetGroup(lv, cpu) in Reps(lv, lv.span[cpu], lv.n)
    ensures forall x :: x in Reps(lv, lv.span[cpu], lv.n) ==> x < lv.n
  {
    GroupIsRep(lv, cpu);
  }

  lemma KeptAtStart<T>(list: seq<Cpu>, all: seq<T>)
    ensures KeptElsewhere(list, all, all)
  {
  }

  lemma KeptAfter<T>(list: seq<Cpu>, before: seq<T>, after: seq<T>, r: Cpu, v: T)
    requires KeptElsewhere(list, before, after) && r in list && r < |after|
    ensures KeptElsewhere(list, before, after[r := v])
  {
  }

  lemma KeptTwice<T>(list: seq<Cpu>, a: seq<T>, b: seq<T>, c: seq<T>)
    requires KeptElsewhere(list, a, b) && KeptElsewhere(list, b, c)
    ensures KeptElsewhere(list, a, c)
  {
  }

  /** The body of the outer loop for a CPU that is not covered yet: fills its group and links it behind the last one. */
  method LinkGroup(lv: Level, cpu: Cpu, i: Cpu, covered: Mask, linked: bool, first: Cpu, last: Cpu,
                   mask: array<Mask>, next: array<Cpu>) returns (covered': Mask, first': Cpu)
    requires LevelOk(lv) && cpu in lv.cpuMap && mask.Length == lv.n && next.Length == lv.n
    requires i in lv.span[cpu] && i !in covered
    requires Progress(lv, lv.span[cpu], i, covered, linked, first, last, mask[..], next[..])
    modifies mask, next
    ensures Progress(lv, lv.span[cpu], i + 1, covered', true, first', i, mask[..], next[..])
    ensures KeptElsewhere(Reps(lv, lv.span[cpu], lv.n), old(mask[..]), mask[..])
    ensures KeptElsewhere(Reps(lv, lv.span[cpu], lv.n), old(next[..]), next[..])
  {
    ghost var reps := Reps(lv, lv.span[cpu], lv.n);
    hide Progress, KeptElsewhere, GetGroup, Reps, Members, First;
    ghost var mask0, next0 := mask[..], next[..];
    KeptAtStart(reps, mask0);
    KeptAtStart(reps, next0);
    NewGroup(lv, cpu, i, covered, linked, first, last, mask0, next0);
    var group := GetGroup(lv, i);
    var members := FillGroup(lv, lv.span[cpu], group, mask);
    covered' := covered + members;
    KeptAfter(reps, mask0, mask0, i, members);
    first' := first;
    if !linked {
      first' := group;
    } else {
      KeptAfter(reps, next0, next0, last, group);
      next[last] := group;
      assert next[..] == next0[last := group];
    }
  }

  /** The loops of build_sched_groups over the span of its first CPU. */
  method LinkSpan(lv: Level, cpu: Cpu, mask: array<Mask>, next: array<Cpu>)
    requires LevelOk(lv) && cpu in lv.cpuMap && mask.Length == lv.n && next.Length == lv.n
    modifies mask, next
    ensures KeptElsewhere(Reps(lv, lv.span[cpu], lv.n), old(mask[..]), mask[..])
    ensures KeptElsewhere(Reps(lv, lv.span[cpu], lv.n), old(next[..]), next[..])
    ensures Linked(lv, lv.span[cpu], mask[..], next[..])
  {
    var span := lv.span[cpu];
    ghost var reps := Reps(lv, span, lv.n);
    hide Progress, KeptElsewhere, Linked, GetGroup, LevelOk, Reps, Members, First;
    var covered: Mask := {};
    var first: Cpu, last: Cpu := 0, 0;
    var linked := false;
    Started(lv, span, first, last, mask[..], next[..]);
    KeptAtStart(reps, mask[..]);
    KeptAtStart(reps, next[..]);
    for i := 0 to lv.n
      invariant Progress(lv, span, i, covered, linked, first, last, mask[..], next[..])
      invariant KeptElsewhere(reps, old(mask[..]), mask[..])
      invariant KeptElsewhere(reps, old(next[..]), next[..])
    {
      ghost var maskI, nextI := mask[..], next[..];
      if i in span && i !in covered {
        covered, first := LinkGroup(lv, cpu, i, covered, linked, first, last, mask, next);
        linked, last := true, i;
        KeptTwice(reps, old(mask[..]), maskI, mask[..]);
        KeptTwice(reps, old(next[..]), nextI, next[..]);
      } else {
        Skipped(lv, cpu, i, covered, linked, first, last, maskI, nextI);
      }
    }
    Finished(lv, cpu, covered, linked, first, last, mask[..], next[..]);
    KeptAfter(reps, old(next[..]), next[..], last, first);
    ghost var open := next[..];
    next[last] := first;
    assert next[..] == open[last := first];
  }

  method BuildSchedGroups(lv: Level, cpu: Cpu, mask: array<Mask>, next: array<Cpu>, groups: array<Cpu>)
    requires LevelOk(lv) && cpu in lv.cpuMap
    requires mask.Length == lv.n && next.Length == lv.n && groups.Length == lv.n && groups != next
    modifies mask, next, groups
    ensures groups[..] == old(groups[..])[cpu := GetGroup(lv, cpu)]
    ensures KeptElsewhere(Reps(lv, lv.span[cpu], lv.n), old(mask[..]), mask[..])
    ensures KeptElsewhere(Reps(lv, lv.span[cpu], lv.n), old(next[..]), next[..])
    ensures if cpu == First(lv.span[cpu], 0, lv.n) then Linked(lv, lv.span[cpu], mask[..], next[..])
            else mask[..] == old(mask[..]) && next[..] == old(next[..])
  {
    hide Reps, Linked, Members;
    groups[cpu] := GetGroup(lv, cpu);
    if cpu != First(lv.span[cpu], 0, lv.n) {
      return;
    }
    LinkSpan(lv, cpu, mask, next);
  }

  // ---------------------------------------------------------------- a whole level

  ghost predicate LevelBuilt(lv: Level, mask: seq<Mask>, next: seq<Cpu>, groups: seq<Cpu>)
    requires LevelOk(lv)
  {
    && |mask| == |next| == |groups| == lv.n
    && (forall c :: c in lv.cpuMap ==> groups[c] == GetGroup(lv, c))
    && (forall c :: c in lv.cpuMap ==> Linked(lv, lv.span[c], mask, next))
  }

  lemma LinkedKept(lv: Level, a: Cpu, b: Cpu, mask: seq<Mask>, next: seq<Cpu>, mask': seq<Mask>, next': seq<Cpu>)
    requires LevelOk(lv) && a in lv.cpuMap && b in lv.cpuMap && lv.span[a] != lv.span[b]
    requires |mask| == |next| == lv.n && Linked(lv, lv.span[a], mask, next)
    requires KeptElsewhere(Reps(lv, lv.span[b], lv.n), mask, mask')
    requires KeptElsewhere(Reps(lv, lv.span[b], lv.n), next, next')
    ensures Linked(lv, lv.span[a], mask', next')
  {
    var list := Reps(lv, lv.span[a], lv.n);
    forall k | 0 <= k < |list| ensures list[k] !in Reps(lv, lv.span[b], lv.n) {
      assert list[k] in list;
    }
  }

  /** Everything but the levels of CPUs from i on is done. */
  ghost predicate BuiltBelow(lv: Level, i: nat, mask: seq<Mask>, next: seq<Cpu>, groups: seq<Cpu>)
    requires LevelOk(lv)
  {
    && |mask| == |next| == |groups| == lv.n
    && (forall c :: c in lv.cpuMap && c < i ==> groups[c] == GetGroup(lv, c))
    && (forall c :: c in lv.cpuMap && First(lv.span[c], 0, lv.n) < i ==> Linked(lv, lv.span[c], mask, next))
  }

  lemma BuiltNext(lv: Level, i: Cpu, mask: seq<Mask>, next: seq<Cpu>, groups: seq<Cpu>, mask': seq<Mask>, next': seq<Cpu>)
    requires LevelOk(lv) && i in lv.cpuMap && BuiltBelow(lv, i, mask, next, groups)
    requires KeptElsewhere(Reps(lv, lv.span[i], lv.n), mask, mask')
    requires KeptElsewhere(Reps(lv, lv.span[i], lv.n), next, next')
    requires if i == First(lv.span[i], 0, lv.n) then Linked(lv, lv.span[i], mask', next') else mask' == mask && next' == next
    ensures BuiltBelow(lv, i + 1, mask', next', groups[i := GetGroup(lv, i)])
  {
    hide Linked, Reps, GetGroup;
    forall c | c in lv.cpuMap && First(lv.span[c], 0, lv.n) < i + 1 ensures Linked(lv, lv.span[c], mask', next') {
      if lv.span[c] != lv.span[i] {
        assert First(lv.span[c], 0, lv.n) != i;
        LinkedKept(lv, c, i, mask, next, mask', next');
      }
    }
  }

  /** build_sched_groups for every CPU of the map, on one level. */
  method BuildLevel(lv: Level, mask: array<Mask>, next: array<Cpu>, groups: array<Cpu>)
    requires LevelOk(lv)
    requires mask.Length == lv.n && next.Length == lv.n && groups.Length == lv.n && groups != next
    modifies mask, next, groups
    ensures LevelBuilt(lv, mask[..], next[..], groups[..])
  {
    hide BuiltBelow, LevelBuilt, KeptElsewhere, Reps, Linked, GetGroup, First, LevelOk;
    NothingBuilt(lv, mask[..], next[..], groups[..]);
    for i := 0 to lv.n
      invariant BuiltBelow(lv, i, mask[..], next[..], groups[..])
    {
      ghost var mask0, next0, groups0 := mask[..], next[..], groups[..];
      if i in lv.cpuMap {
        BuildSchedGroups(lv, i, mask, next, groups);
        BuiltNext(lv, i, mask0, next0, groups0, mask[..], next[..]);
      } else {
        BuiltSkip(lv, i, mask0, next0, groups0);
      }
    }
    AllBuilt(lv, mask[..], next[..], groups[..]);
  }

  lemma NothingBuilt(lv: Level, mask: seq<Mask>, next: seq<Cpu>, groups: seq<Cpu>)
    requires LevelOk(lv) && |mask| == |next| == |groups| == lv.n
    ensures BuiltBelow(lv, 0, mask, next, groups)
  {
  }

  lemma BuiltSkip(lv: Level, i: Cpu, mask: seq<Mask>, next: seq<Cpu>, groups: seq<Cpu>)
    requires LevelOk(lv) && i !in lv.cpuMap && BuiltBelow(lv, i, mask, next, groups)
    ensures BuiltBelow(lv, i + 1, mask, next, groups)
  {
    hide Linked, GetGroup;
    forall c | c in lv.cpuMap && First(lv.span[c], 0, lv.n) < i + 1 ensures First(lv.span[c], 0, lv.n) < i {
      assert First(lv.span[c], 0, lv.n) in lv.span[c];
    }
  }

  lemma AllBuilt(lv: Level, mask: seq<Mask>, next: seq<Cpu>, groups: seq<Cpu>)
    requires LevelOk(lv) && BuiltBelow(lv, lv.n, mask, next, groups)
    ensures LevelBuilt(lv, mask, next, groups)
  {
    hide Linked, GetGroup;
    forall c | c in lv.cpuMap ensures First(lv.span[c], 0, lv.n) < lv.n {
      assert First(lv.span[c], 0, lv.n) in lv.span[c];
    }
  }

  // ---------------------------------------------------------------- sched_domain_debug_one

  predicate Disjoint(ring: seq<Cpu>, mask: seq<Mask>)
    requires forall k :: 0 <= k < |ring| ==> ring[k] < |mask|
  {
    forall j, k :: 0 <= j < k < |ring| ==> mask[ring[j]] !! mask[ring[k]]
  }

  /** From start the next pointers run round a ring of non-empty, pairwise disjoint groups. */
  predicate IsRing(ring: seq<Cpu>, start: Cpu, mask: seq<Mask>, next: seq<Cpu>) {
    && |mask| == |next| && ring != [] && ring[0] == start
    && (forall k :: 0 <= k < |ring| ==> ring[k] < |mask| && mask[ring[k]] != {})
    && Cycle(ring, next) && Disjoint(ring, mask)
  }

  function Union(ring: seq<Cpu>, mask: seq<Mask>): Mask
    requires forall k :: 0 <= k < |ring| ==> ring[k] < |mask|
  {
    if ring == [] then {} else Union(ring[..|ring| - 1], mask) + mask[ring[|ring| - 1]]
  }

  /** What sched_domain_debug_one demands of the groups of one domain of a CPU. */
  ghost predicate Sound(span: Mask, cpu: Cpu, parent: Option<Mask>, start: Cpu, mask: seq<Mask>, next: seq<Cpu>,
                        ring: seq<Cpu>) {
    && IsRing(ring, start, mask, next)
    && cpu in span && cpu in mask[start] && Union(ring, mask) == span
    && (parent.Some? ==> span <= parent.value)
  }

  /** The path walked so far: it follows next and has not come back to start. */
  predicate Path(path: seq<Cpu>, start: Cpu, mask: seq<Mask>, next: seq<Cpu>) {
    && |mask| == |next| && path != [] && path[0] == start
    && (forall k :: 0 <= k < |path| ==> path[k] < |next|)
    && (forall k :: 0 <= k < |path| - 1 ==> next[path[k]] == Succ(path, k) && Succ(path, k) != start)
  }

  lemma {:induction false} PathInRing(path: seq<Cpu>, ring: seq<Cpu>, start: Cpu, mask: seq<Mask>, next: seq<Cpu>, k: nat)
    requires Path(path, start, mask, next) && IsRing(ring, start, mask, next) && k < |path|
    ensures k < |ring| && ring[k] == path[k]
  {
    hide Disjoint;
    if k > 0 {
      PathInRing(path, ring, start, mask, next, k - 1);
      assert next[path[k - 1]] == Succ(path, k - 1) == path[k];
      assert next[ring[k - 1]] == Succ(ring, k - 1);
    }
  }

  lemma {:induction false} UnionHas(ring: seq<Cpu>, mask: seq<Mask>)
    requires forall k :: 0 <= k < |ring| ==> ring[k] < |mask|
    ensures forall x :: x in Union(ring, mask) <==> exists k :: 0 <= k < |ring| && x in mask[ring[k]]
  {
    if ring != [] {
      var shorter := ring[..|ring| - 1];
      UnionHas(shorter, mask);
      forall x ensures x in Union(ring, mask) <==> exists k :: 0 <= k < |ring| && x in mask[ring[k]] {
        if k :| 0 <= k < |ring| && x in mask[ring[k]] && k < |shorter| {
          assert x in mask[shorter[k]];
        }
      }
    }
  }

  /** The walk meets an error at the end of `path` exactly when no ring is sound. */
  lemma NoRing(path: seq<Cpu>, start: Cpu, mask: seq<Mask>, next: seq<Cpu>)
    requires Path(path, start, mask, next)
    requires var last := |path| - 1; mask[path[last]] == {} || mask[path[last]] * Union(path[..last], mask) != {}
    ensures forall ring :: !IsRing(ring, start, mask, next)
  {
    var last := |path| - 1;
    UnionHas(path[..last], mask);
    forall ring | IsRing(ring, start, mask, next) ensures false {
      PathInRing(path, ring, start, mask, next, last);
      var x :| x in mask[path[last]] && x in Union(path[..last], mask);
      var k :| 0 <= k < last && x in mask[path[..last][k]];
      PathInRing(path, ring, start, mask, next, k);
    }
  }

  lemma RingIsPath(path: seq<Cpu>, ring: seq<Cpu>, start: Cpu, mask: seq<Mask>, next: seq<Cpu>)
    requires Path(path, start, mask, next) && next[path[|path| - 1]] == start && IsRing(ring, start, mask, next)
    ensures ring == path
  {
    forall k | 0 <= k < |path| ensures k < |ring| && ring[k] == path[k] {
      PathInRing(path, ring, start, mask, next, k);
    }
  }

  /** The state of the walk before it looks at `group`. */
  ghost predicate Walked(path: seq<Cpu>, group: Cpu, groupmask: Mask, start: Cpu, mask: seq<Mask>, next: seq<Cpu>) {
    && |mask| == |next| && group < |next|
    && (path == [] ==> group == start)
    && (path != [] ==> Path(path, start, mask, next) && next[path[|path| - 1]] == group && group != start)
    && (forall k :: 0 <= k < |path| ==> mask[path[k]] != {})
    && Disjoint(path, mask) && groupmask == Union(path, mask)
  }

  lemma LongerPath(path: seq<Cpu>, group: Cpu, groupmask: Mask, start: Cpu, mask: seq<Mask>, next: seq<Cpu>)
    requires Walked(path, group, groupmask, start, mask, next)
    ensures Path(path + [group], start, mask, next)
    ensures Union(path + [group], mask) == groupmask + mask[group]
    ensures (path + [group])[..|path|] == path
  {
    var longer := path + [group];
    assert longer[..|longer| - 1] == path;
    forall k | 0 <= k < |longer| - 1 ensures next[longer[k]] == Succ(longer, k) && Succ(longer, k) != start {
      if k + 1 < |path| { assert Succ(longer, k) == Succ(path, k); }
    }
  }

  lemma WalkFails(path: seq<Cpu>, group: Cpu, groupmask: Mask, start: Cpu, mask: seq<Mask>, next: seq<Cpu>)
    requires Walked(path, group, groupmask, start, mask, next)
    requires mask[group] == {} || groupmask * mask[group] != {}
    ensures forall ring :: !IsRing(ring, start, mask, next)
  {
    LongerPath(path, group, groupmask, start, mask, next);
    NoRing(path + [group], start, mask, next);
  }

  lemma LongerDisjoint(path: seq<Cpu>, group: Cpu, groupmask: Mask, start: Cpu, mask: seq<Mask>, next: seq<Cpu>)
    requires Walked(path, group, groupmask, start, mask, next)
    requires mask[group] != {} && groupmask * mask[group] == {}
    ensures Path(path + [group], start, mask, next) && Union(path + [group], mask) == groupmask + mask[group]
    ensures Disjoint(path + [group], mask)
    ensures forall k :: 0 <= k < |path + [group]| ==> mask[(path + [group])[k]] != {}
  {
    hide Path, Disjoint;
    var longer := path + [group];
    LongerPath(path, group, groupmask, start, mask, next);
    UnionHas(path, mask);
    forall k | 0 <= k < |path| ensures mask[path[k]] !! mask[group] {
      PartDisjoint(mask[path[k]], groupmask, mask[group]);
    }
    DisjointLonger(path, group, mask);
  }

  lemma PartDisjoint(part: Mask, whole: Mask, other: Mask)
    requires (forall x :: x in part ==> x in whole) && whole * other == {}
    ensures part !! other
  {
    forall x | x in part ensures x !in other {
      assert x in other ==> x in whole * other;
    }
  }

  lemma DisjointLonger(path: seq<Cpu>, group: Cpu, mask: seq<Mask>)
    requires group < |mask| && (forall k :: 0 <= k < |path| ==> path[k] < |mask|) && Disjoint(path, mask)
    requires forall k :: 0 <= k < |path| ==> mask[path[k]] !! mask[group]
    ensures Disjoint(path + [group], mask)
  {
    var longer := path + [group];
    forall j, k | 0 <= j < k < |longer| ensures mask[longer[j]] !! mask[longer[k]] {
      assert longer[j] == path[j];
      if k < |path| { assert mask[path[j]] !! mask[path[k]]; }
    }
  }

  lemma WalkGrows(path: seq<Cpu>, group: Cpu, groupmask: Mask, start: Cpu, mask: seq<Mask>, next: seq<Cpu>)
    requires Walked(path, group, groupmask, start, mask, next)
    requires mask[group] != {} && groupmask * mask[group] == {} && next[group] < |next|
    ensures var longer := path + [group];
            && Union(longer, mask) == groupmask + mask[group]
            && (next[group] != start ==> Walked(longer, next[group], groupmask + mask[group], start, mask, next))
            && (next[group] == start ==> IsRing(longer, start, mask, next)
                                         && forall ring :: IsRing(ring, start, mask, next) ==> ring == longer)
  {
    hide Disjoint;
    LongerDisjoint(path, group, groupmask, start, mask, next);
    if next[group] == start {
      WalkEnds(path + [group], start, mask, next);
    }
  }

  lemma WalkEnds(path: seq<Cpu>, start: Cpu, mask: seq<Mask>, next: seq<Cpu>)
    requires Path(path, start, mask, next) && Disjoint(path, mask) && next[path[|path| - 1]] == start
    requires forall k :: 0 <= k < |path| ==> mask[path[k]] != {}
    ensures IsRing(path, start, mask, next)
    ensures forall ring :: IsRing(ring, start, mask, next) ==> ring == path
  {
    forall ring | IsRing(ring, start, mask, next) ensures ring == path { RingIsPath(path, ring, start, mask, next); }
  }

  /** sched_domain_debug_one: the walk ends on any list of groups, and is content with a domain exactly when it is sound. */
  method DebugOne(span: Mask, cpu: Cpu, parent: Option<Mask>, start: Cpu, mask: seq<Mask>, next: seq<Cpu>)
    returns (ok: bool)
    requires |mask| == |next| && start < |next|
    requires forall i :: 0 <= i < |next| ==> next[i] < |next|
    requires forall i :: 0 <= i < |mask| ==> mask[i] <= All(|mask|)
    ensures ok <==> exists ring :: Sound(span, cpu, parent, start, mask, next, ring)
  {
    hide Walked, IsRing, Union, Path, Disjoint;
    var group: Cpu, groupmask: Mask := start, {};
    ghost var path: seq<Cpu> := [];
    WalkStarts(start, mask, next);
    while true
      invariant group < |next| && groupmask <= All(|mask|)
      invariant Walked(path, group, groupmask, start, mask, next)
      decreases All(|mask|) - groupmask
    {
      if mask[group] == {} || groupmask * mask[group] != {} {
        WalkFails(path, group, groupmask, start, mask, next);
        return false;
      }
      WalkGrows(path, group, groupmask, start, mask, next);
      path := path + [group];
      groupmask := groupmask + mask[group];
      group := next[group];
      if group == start {
        break;
      }
    }
    ok := cpu in span && cpu in mask[start] && span == groupmask && (parent.Some? ==> groupmask <= parent.value);
    if ok { assert Sound(span, cpu, parent, start, mask, next, path); }
  }

  lemma WalkStarts(start: Cpu, mask: seq<Mask>, next: seq<Cpu>)
    requires |mask| == |next| && start < |next|
    ensures Walked([], start, {}, start, mask, next)
  {
  }

  // ---------------------------------------------------------------- what was built is sound

  function Rotated(list: seq<Cpu>, k: nat): seq<Cpu>
    requires k < |list|
  {
    list[k..] + list[..k]
  }

  lemma RotatedCycle(list: seq<Cpu>, next: seq<Cpu>, k: nat)
    requires k < |list| && Cycle(list, next)
    ensures Cycle(Rotated(list, k), next)
  {
    var ring := Rotated(list, k);
    forall j | 0 <= j < |ring| ensures ring[j] < |next| && next[ring[j]] == Succ(ring, j) {
      var i := if j < |list| - k then k + j else j - (|list| - k);
      assert ring[j] == list[i] && next[list[i]] == Succ(list, i);
    }
  }

  /** After build_sched_groups every CPU of the map finds, from its own group, a sound ring over its span. */
  lemma BuiltIsSound(lv: Level, cpu: Cpu, parent: Option<Mask>, mask: seq<Mask>, next: seq<Cpu>, groups: seq<Cpu>)
    returns (ring: seq<Cpu>)
    requires LevelOk(lv) && cpu in lv.cpuMap && LevelBuilt(lv, mask, next, groups)
    requires parent.Some? ==> lv.span[cpu] <= parent.value
    ensures Sound(lv.span[cpu], cpu, parent, groups[cpu], mask, next, ring) && FollowsChild(lv, ring, mask)
  {
    var list := Reps(lv, lv.span[cpu], lv.n);
    var k := FindGroup(lv, cpu);
    assert Linked(lv, lv.span[cpu], mask, next);
    ring := Rotated(list, k);
    RotatedCycle(list, next, k);
    RotatedElements(list, k);
    RingMasks(lv, cpu, ring, mask);
    UnionIsSpan(lv, cpu, ring, mask);
    RingFollowsChild(lv, cpu, ring, mask);
  }

  lemma FindGroup(lv: Level, cpu: Cpu) returns (k: nat)
    requires LevelOk(lv) && cpu in lv.cpuMap
    ensures k < |Reps(lv, lv.span[cpu], lv.n)| && Reps(lv, lv.span[cpu], lv.n)[k] == GetGroup(lv, cpu)
  {
    RepsNotEmpty(lv, cpu);
    k :| 0 <= k < |Reps(lv, lv.span[cpu], lv.n)| && Reps(lv, lv.span[cpu], lv.n)[k] == GetGroup(lv, cpu);
  }

  lemma RotatedElements(list: seq<Cpu>, k: nat)
    requires k < |list| && forall i, j :: 0 <= i < j < |list| ==> list[i] < list[j]
    ensures forall x :: x in Rotated(list, k) <==> x in list
    ensures forall i, j :: 0 <= i < j < |list| ==> Rotated(list, k)[i] != Rotated(list, k)[j]
  {
    assert list == list[..k] + list[k..];
  }

  lemma RingMasks(lv: Level, cpu: Cpu, ring: seq<Cpu>, mask: seq<Mask>)
    requires LevelOk(lv) && cpu in lv.cpuMap && |mask| == lv.n
    requires Filled(lv, lv.span[cpu], Reps(lv, lv.span[cpu], lv.n), mask)
    requires forall x :: x in ring <==> x in Reps(lv, lv.span[cpu], lv.n)
    requires forall i, j :: 0 <= i < j < |ring| ==> ring[i] != ring[j]
    ensures forall j :: 0 <= j < |ring| ==> ring[j] < |mask| && mask[ring[j]] == Members(lv, lv.span[cpu], ring[j])
    ensures forall j :: 0 <= j < |ring| ==> mask[ring[j]] != {}
    ensures Disjoint(ring, mask)
    ensures cpu in mask[GetGroup(lv, cpu)]
  {
    var list := Reps(lv, lv.span[cpu], lv.n);
    forall j | 0 <= j < |ring|
      ensures ring[j] < |mask| && mask[ring[j]] == Members(lv, lv.span[cpu], ring[j]) && mask[ring[j]] != {}
    {
      assert ring[j] in list;
      var i :| 0 <= i < |list| && list[i] == ring[j];
      assert ring[j] in mask[ring[j]];
    }
    RepsNotEmpty(lv, cpu);
    assert GetGroup(lv, cpu) in ring;
  }

  lemma UnionIsSpan(lv: Level, cpu: Cpu, ring: seq<Cpu>, mask: seq<Mask>)
    requires LevelOk(lv) && cpu in lv.cpuMap
    requires forall x :: x in ring <==> x in Reps(lv, lv.span[cpu], lv.n)
    requires forall j :: 0 <= j < |ring| ==> ring[j] < |mask| && mask[ring[j]] == Members(lv, lv.span[cpu], ring[j])
    ensures Union(ring, mask) == lv.span[cpu]
  {
    UnionHas(ring, mask);
    forall x | x in lv.span[cpu] ensures x in Union(ring, mask) {
      GroupIsRep(lv, x);
      assert GetGroup(lv, x) in ring;
      var k :| 0 <= k < |ring| && ring[k] == GetGroup(lv, x);
      assert x in mask[ring[k]];
    }
  }

  /** The groups of a ring are spans of the level below: a group holds exactly those CPUs that share a child domain, and
      on the base level each CPU is a group of its own. */
  ghost predicate FollowsChild(lv: Level, ring: seq<Cpu>, mask: seq<Mask>)
    requires |lv.span| == |mask| == lv.n && (lv.child.Some? ==> |lv.child.value| == lv.n)
  {
    forall k: nat, j: Cpu :: k < |ring| && ring[k] < |mask| && j < lv.n && j in mask[ring[k]] ==>
      mask[ring[k]] == if lv.child.Some? then lv.child.value[j] else {j}
  }

  lemma MembersShareChild(lv: Level, cpu: Cpu, r: Cpu, j: Cpu)
    requires LevelOk(lv) && cpu in lv.cpuMap && j in Members(lv, lv.span[cpu], r)
    ensures Members(lv, lv.span[cpu], r) == if lv.child.Some? then lv.child.value[j] else {j}
  {
    if lv.child.Some? {
      var child := lv.child.value;
      forall x | x in lv.span[cpu] ensures GetGroup(lv, x) == r <==> x in child[j] {
        if x in child[j] { assert child[x] == child[j]; }
        if GetGroup(lv, x) == r { assert child[r] == child[j] && child[r] == child[x]; }
      }
      assert child[j] <= lv.span[j] == lv.span[cpu];
    }
  }

  lemma RingFollowsChild(lv: Level, cpu: Cpu, ring: seq<Cpu>, mask: seq<Mask>)
    requires LevelOk(lv) && cpu in lv.cpuMap && |mask| == lv.n
    requires forall j :: 0 <= j < |ring| ==> ring[j] < |mask| && mask[ring[j]] == Members(lv, lv.span[cpu], ring[j])
    ensures FollowsChild(lv, ring, mask)
  {
    hide Members, GetGroup;
    forall k: nat, j: Cpu | k < |ring| && ring[k] < |mask| && j < lv.n && j in mask[ring[k]]
      ensures mask[ring[k]] == if lv.child.Some? then lv.child.value[j] else {j}
    {
      MembersShareChild(lv, cpu, ring[k], j);
    }
  }

  // ---------------------------------------------------------------- build_sched_domains

  /** The group storage of one level when it is built. */
  datatype Built = Built(mask: seq<Mask>, next: seq<Cpu>, groups: seq<Cpu>)

  /** Level l of a topology as the loop of build_sched_domains makes it. */
  function LevelAt(n: nat, cpuMap: Mask, masks: seq<seq<Mask>>, l: nat): Level
    requires l < |masks| && forall k :: 0 <= k < |masks| ==> |masks[k]| == n
  {
    Level(n, cpuMap, Spans(n, cpuMap, masks[l]), if l == 0 then None else Some(Spans(n, cpuMap, masks[l - 1])))
  }

  /** The span of the level above, if the chains reach that far. */
  function SpanAbove(n: nat, cpuMap: Mask, masks: seq<seq<Mask>>, height: nat, l: nat, c: Cpu): Option<Mask>
    requires l < height <= |masks| && c < n && forall k :: 0 <= k < |masks| ==> |masks[k]| == n
  {
    if l + 1 < height then Some(Spans(n, cpuMap, masks[l + 1])[c]) else None
  }

  /** The CPUs of the map that share j's span one level below, or on the base level j alone. */
  predicate IsSpanBelow(cpuMap: Mask, masks: seq<seq<Mask>>, l: nat, j: Cpu, m: Mask)
    requires l <= |masks| && (l > 0 ==> j < |masks[l - 1]|)
  {
    m == if l == 0 then {j} else cpuMap * masks[l - 1][j]
  }

  /** Every group of the ring is the span that each of its CPUs has one level below, or on the base level that CPU alone. */
  ghost predicate SpansBelow(n: nat, cpuMap: Mask, masks: seq<seq<Mask>>, l: nat, ring: seq<Cpu>, mask: seq<Mask>)
    requires Topology(n, masks) && l < |masks|
  {
    forall k: nat, j: Cpu :: k < |ring| && ring[k] < |mask| && j < n && j in mask[ring[k]] ==>
      IsSpanBelow(cpuMap, masks, l, j, mask[ring[k]])
  }

  /** From its own group CPU c finds at level l a sound ring of such groups, inside the span of the level above if there
      is one. */
  ghost predicate HasRing(n: nat, cpuMap: Mask, masks: seq<seq<Mask>>, height: nat, l: nat, c: Cpu, b: Built)
    requires Topology(n, masks) && l < height <= |masks| && c < n == |b.groups|
  {
    exists ring ::
      && Sound(cpuMap * masks[l][c], c, SpanAbove(n, cpuMap, masks, height, l, c), b.groups[c], b.mask, b.next, ring)
      && SpansBelow(n, cpuMap, masks, l, ring, b.mask)
  }

  ghost predicate LevelSound(n: nat, cpuMap: Mask, masks: seq<seq<Mask>>, height: nat, l: nat, b: Built)
    requires Topology(n, masks) && Below(cpuMap, n) && l < height <= |masks|
  {
    |b.groups| == n && forall c :: c in cpuMap ==> HasRing(n, cpuMap, masks, height, l, c, b)
  }

  lemma LevelBuiltSound(n: nat, cpuMap: Mask, masks: seq<seq<Mask>>, height: nat, l: nat, b: Built)
    requires Topology(n, masks) && Below(cpuMap, n) && l < height <= |masks| && LevelOk(LevelAt(n, cpuMap, masks, l))
    requires LevelBuilt(LevelAt(n, cpuMap, masks, l), b.mask, b.next, b.groups)
    ensures LevelSound(n, cpuMap, masks, height, l, b)
  {
    hide Linked, GetGroup, Sound, FollowsChild, HasRing;
    forall c | c in cpuMap ensures HasRing(n, cpuMap, masks, height, l, c, b) {
      if l + 1 < height { ChainNested(n, cpuMap, masks, c, l, l + 1); }
      var ring := BuiltIsSound(LevelAt(n, cpuMap, masks, l), c, SpanAbove(n, cpuMap, masks, height, l, c),
                               b.mask, b.next, b.groups);
      RingFound(n, cpuMap, masks, height, l, c, b, ring);
    }
  }

  lemma RingFound(n: nat, cpuMap: Mask, masks: seq<seq<Mask>>, height: nat, l: nat, c: Cpu, b: Built, ring: seq<Cpu>)
    requires Topology(n, masks) && l < height <= |masks| && c < n == |b.groups| == |b.mask|
    requires Sound(Spans(n, cpuMap, masks[l])[c], c, SpanAbove(n, cpuMap, masks, height, l, c), b.groups[c], b.mask, b.next, ring)
    requires FollowsChild(LevelAt(n, cpuMap, masks, l), ring, b.mask)
    ensures HasRing(n, cpuMap, masks, height, l, c, b)
  {
    GroupsAreSpans(n, cpuMap, masks, l, ring, b.mask);
    assert Spans(n, cpuMap, masks[l])[c] == cpuMap * masks[l][c];
    hide Sound, Topology, SpanAbove, SpansBelow, FollowsChild, Spans;
  }

  /** A level that spans no more than one below it has a single group. */
  lemma SameSpanOneGroup(n: nat, cpuMap: Mask, masks: seq<seq<Mask>>, height: nat, k: nat, l: nat, c: Cpu, b: Built)
    returns (ring: seq<Cpu>)
    requires Topology(n, masks) && Below(cpuMap, n) && k < l < height <= |masks| && c in cpuMap && |b.groups| == n
    requires HasRing(n, cpuMap, masks, height, l, c, b) && cpuMap * masks[k][c] == cpuMap * masks[l][c]
    ensures Sound(cpuMap * masks[l][c], c, SpanAbove(n, cpuMap, masks, height, l, c), b.groups[c], b.mask, b.next, ring)
    ensures |ring| == 1
  {
    ChainNested(n, cpuMap, masks, c, k, l - 1);
    ChainNested(n, cpuMap, masks, c, l - 1, l);
    ring :| Sound(cpuMap * masks[l][c], c, SpanAbove(n, cpuMap, masks, height, l, c), b.groups[c], b.mask, b.next, ring)
            && SpansBelow(n, cpuMap, masks, l, ring, b.mask);
    assert IsSpanBelow(cpuMap, masks, l, c, b.mask[ring[0]]);
    assert b.mask[ring[0]] == cpuMap * masks[l][c];
    UnionHas(ring, b.mask);
  }

  lemma GroupsAreSpans(n: nat, cpuMap: Mask, masks: seq<seq<Mask>>, l: nat, ring: seq<Cpu>, mask: seq<Mask>)
    requires Topology(n, masks) && l < |masks| && |mask| == n
    requires FollowsChild(LevelAt(n, cpuMap, masks, l), ring, mask)
    ensures SpansBelow(n, cpuMap, masks, l, ring, mask)
  {
    var lv := LevelAt(n, cpuMap, masks, l);
    forall k: nat, j: Cpu | k < |ring| && ring[k] < |mask| && j < n && j in mask[ring[k]]
      ensures IsSpanBelow(cpuMap, masks, l, j, mask[ring[k]])
    {
      assert mask[ring[k]] == if lv.child.Some? then lv.child.value[j] else {j};
    }
  }

  method BuildOneLevel(n: nat, cpuMap: Mask, masks: seq<seq<Mask>>, ghost height: nat, l: nat) returns (b: Built)
    requires Topology(n, masks) && Below(cpuMap, n) && l < height <= |masks|
    ensures LevelSound(n, cpuMap, masks, height, l, b)
  {
    hide LevelSound, LevelBuilt, LevelOk;
    var mask := new Mask[n];
    var next := new Cpu[n];
    var groups := new Cpu[n];
    ChainLevelOk(n, cpuMap, masks, l);
    BuildLevel(LevelAt(n, cpuMap, masks, l), mask, next, groups);
    b := Built(mask[..], next[..], groups[..]);
    LevelBuiltSound(n, cpuMap, masks, height, l, b);
  }

  ghost predicate AllOfHeight(n: nat, cpuMap: Mask, masks: seq<seq<Mask>>, height: nat)
    requires Topology(n, masks) && Below(cpuMap, n)
  {
    forall c :: c in cpuMap ==> Height(cpuMap, masks, c) == height
  }

  lemma EqualHeights(n: nat, cpuMap: Mask, masks: seq<seq<Mask>>, first: Cpu)
    requires Topology(n, masks) && Below(cpuMap, n) && first in cpuMap
    ensures AllOfHeight(n, cpuMap, masks, Height(cpuMap, masks, first))
  {
    forall c | c in cpuMap ensures Height(cpuMap, masks, c) == Height(cpuMap, masks, first) {
      SameHeight(n, cpuMap, masks, first, c);
    }
  }

  ghost predicate AllSound(n: nat, cpuMap: Mask, masks: seq<seq<Mask>>, height: nat, levels: seq<Built>)
    requires Topology(n, masks) && Below(cpuMap, n) && |levels| <= height <= |masks|
  {
    forall l :: 0 <= l < |levels| ==> LevelSound(n, cpuMap, masks, height, l, levels[l])
  }

  lemma OneMoreSound(n: nat, cpuMap: Mask, masks: seq<seq<Mask>>, height: nat, levels: seq<Built>, b: Built)
    requires Topology(n, masks) && Below(cpuMap, n) && |levels| < height <= |masks|
    requires AllSound(n, cpuMap, masks, height, levels) && LevelSound(n, cpuMap, masks, height, |levels|, b)
    ensures AllSound(n, cpuMap, masks, height, levels + [b])
  {
    hide LevelSound;
    forall l | 0 <= l < |levels + [b]| ensures LevelSound(n, cpuMap, masks, height, l, (levels + [b])[l]) {
      if l < |levels| { assert LevelSound(n, cpuMap, masks, height, l, levels[l]); }
    }
  }

  /** The height is where the span becomes the whole map for the first time. */
  lemma {:induction false} HeightIsFirstFull(cpuMap: Mask, masks: seq<seq<Mask>>, c: Cpu)
    requires forall l :: 0 <= l < |masks| ==> c < |masks[l]|
    ensures var h := Height(cpuMap, masks, c);
            && h <= |masks|
            && (forall l :: 0 <= l < h - 1 ==> cpuMap * masks[l][c] != cpuMap)
            && (h < |masks| ==> h > 0 && cpuMap * masks[h - 1][c] == cpuMap)
  {
    if masks != [] && cpuMap * masks[0][c] != cpuMap {
      HeightIsFirstFull(cpuMap, masks[1..], c);
      var h := Height(cpuMap, masks[1..], c);
      assert forall l :: 0 < l < h ==> masks[l] == masks[1..][l - 1];
    }
  }

  lemma AllFull(n: nat, cpuMap: Mask, masks: seq<seq<Mask>>, height: nat)
    requires Topology(n, masks) && Below(cpuMap, n) && cpuMap != {} && AllOfHeight(n, cpuMap, masks, height)
    ensures height <= |masks|
    ensures forall l, c :: 0 <= l < height - 1 && c in cpuMap ==> cpuMap * masks[l][c] != cpuMap
    ensures height < |masks| ==> height > 0 && forall c :: c in cpuMap ==> cpuMap * masks[height - 1][c] == cpuMap
  {
    forall c | c in cpuMap
      ensures height <= |masks| && (height < |masks| ==> height > 0 && cpuMap * masks[height - 1][c] == cpuMap)
      ensures forall l :: 0 <= l < height - 1 ==> cpuMap * masks[l][c] != cpuMap
    {
      HeightIsFirstFull(cpuMap, masks, c);
    }
    var c :| c in cpuMap;
  }

  /** For any topology every CPU gets a chain of the same height, and every domain of it passes sched_domain_debug_one. */
  method BuildSchedDomains(n: nat, cpuMap: Mask, masks: seq<seq<Mask>>) returns (levels: seq<Built>)
    requires Topology(n, masks) && Below(cpuMap, n) && cpuMap != {}
    ensures AllOfHeight(n, cpuMap, masks, |levels|)
    ensures |levels| <= |masks|
    ensures forall l, c :: 0 <= l < |levels| - 1 && c in cpuMap ==> cpuMap * masks[l][c] != cpuMap
    ensures |levels| < |masks| ==> |levels| > 0 && forall c :: c in cpuMap ==> cpuMap * masks[|levels| - 1][c] == cpuMap
    ensures AllSound(n, cpuMap, masks, |levels|, levels)
  {
    var first := First(cpuMap, 0, n);
    var chain := BuildChain(n, cpuMap, masks, first);
    EqualHeights(n, cpuMap, masks, first);
    AllFull(n, cpuMap, masks, |chain|);
    levels := [];
    assert AllSound(n, cpuMap, masks, |chain|, levels);
    hide LevelSound, First, Height, Topology, Below, AllSound, AllOfHeight;
    for l := 0 to |chain|
      invariant |levels| == l && AllSound(n, cpuMap, masks, |chain|, levels)
    {
      var b := BuildOneLevel(n, cpuMap, masks, |chain|, l);
      OneMoreSound(n, cpuMap, masks, |chain|, levels, b);
      levels := levels + [b];
    }
  }
}
