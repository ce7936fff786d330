/** Attaching a chain of scheduling domains to a CPU: degenerate levels are unlinked and destroyed. */
module SchedAttach {

  datatype Flag = LoadBalance | NewIdle | Fork | Exec | SharePower | SharePkg | WakeAffine | Serialize | Other(k: nat)

  /** What pruning reads of a domain; oneGroup says that its group list is a ring of one. */
  datatype Domain = Domain(span: set<nat>, oneGroup: bool, flags: set<Flag>)

  const GROUP_FLAGS := {LoadBalance, NewIdle, Fork, Exec, SharePower, SharePkg}

  /** sd_degenerate */
  predicate Degenerate(d: Domain) {
    if |d.span| == 1 then true
    else if d.flags * GROUP_FLAGS != {} && !d.oneGroup then false
    else WakeAffine !in d.flags
  }

  /** The flags of a parent that still count when it has a single group. */
  function Effective(p: Domain, oneNode: bool): set<Flag> {
    if p.oneGroup then p.flags - GROUP_FLAGS - (if oneNode then {Serialize} else {}) else p.flags
  }

  /** sd_parent_degenerate */
  predicate ParentDegenerate(d: Domain, p: Domain, oneNode: bool) {
    if Degenerate(p) then true
    else if d.span != p.span then false
    else Effective(p, oneNode) <= d.flags
  }

  /** struct sched_domain */
  class SchedDomain {
    const d: Domain
    var parent: SchedDomain?
    var child: SchedDomain?

    constructor (d: Domain)
      ensures this.d == d && parent == null && child == null
    {
      this.d := d;
      parent, child := null, null;
    }
  }

  // ---------------------------------------------------------------- the pruned chain

  /** The chain from tmp upwards after the first loop of cpu_attach_domain. */
  function Pruned(tmp: SchedDomain, rest: seq<SchedDomain>, oneNode: bool): (kept: seq<SchedDomain>)
    ensures kept != [] && kept[0] == tmp
    decreases |rest|
  {
    if rest == [] then [tmp]
    else if ParentDegenerate(tmp.d, rest[0].d, oneNode) then Pruned(tmp, rest[1..], oneNode)
    else [tmp] + Pruned(rest[0], rest[1..], oneNode)
  }

  /** The domains the first loop destroys, in order. */
  function Removed(tmp: SchedDomain, rest: seq<SchedDomain>, oneNode: bool): seq<SchedDomain>
    decreases |rest|
  {
    if rest == [] then []
    else if ParentDegenerate(tmp.d, rest[0].d, oneNode) then [rest[0]] + Removed(tmp, rest[1..], oneNode)
    else Removed(rest[0], rest[1..], oneNode)
  }

  function Attached(chain: seq<SchedDomain>, oneNode: bool): seq<SchedDomain> {
    if chain == [] then []
    else
      var kept := Pruned(chain[0], chain[1..], oneNode);
      if Degenerate(chain[0].d) then kept[1..] else kept
  }

  function Destroyed(chain: seq<SchedDomain>, oneNode: bool): seq<SchedDomain> {
    if chain == [] then []
    else Removed(chain[0], chain[1..], oneNode) + (if Degenerate(chain[0].d) then [chain[0]] else [])
  }

  ghost predicate Irredundant(kept: seq<SchedDomain>, oneNode: bool) {
    forall i, j :: 0 <= i < j < |kept| && j == i + 1 ==> !ParentDegenerate(kept[i].d, kept[j].d, oneNode)
  }

  lemma {:induction false} PrunedIrredundant(tmp: SchedDomain, rest: seq<SchedDomain>, oneNode: bool)
    ensures Irredundant(Pruned(tmp, rest, oneNode), oneNode)
    decreases |rest|
  {
    if rest != [] {
      if ParentDegenerate(tmp.d, rest[0].d, oneNode) {
        PrunedIrredundant(tmp, rest[1..], oneNode);
      } else {
        PrunedIrredundant(rest[0], rest[1..], oneNode);
        var kept := Pruned(rest[0], rest[1..], oneNode);
        var longer := [tmp] + kept;
        forall i, j | 0 <= i < j < |longer| && j == i + 1 ensures !ParentDegenerate(longer[i].d, longer[j].d, oneNode) {
          if i > 0 { assert longer[i] == kept[i - 1] && longer[j] == kept[j - 1]; }
        }
      }
    }
  }

  /** The domain balances between groups or pulls wakeups: it has more than one CPU, and either more than one group to
      balance between or the affine wakeup flag. */
  predicate Useful(d: Domain) {
    |d.span| != 1
    && (WakeAffine in d.flags
        || (!d.oneGroup && exists f :: f in d.flags && f in {LoadBalance, NewIdle, Fork, Exec, SharePower, SharePkg}))
  }

  lemma UsefulIff(d: Domain)
    ensures Useful(d) <==> !Degenerate(d)
  {
    if f :| f in d.flags && f in {LoadBalance, NewIdle, Fork, Exec, SharePower, SharePkg} { assert f in d.flags * GROUP_FLAGS; }
    if f :| f in d.flags * GROUP_FLAGS { assert f in d.flags && f in {LoadBalance, NewIdle, Fork, Exec, SharePower, SharePkg}; }
  }

  /** Below p domain d does all that p does: the same CPUs, and every flag of p that says something, where a single group
      makes the balancing flags of p empty, and on one node Serialize too. */
  predicate DoesAllOf(d: Domain, p: Domain, oneNode: bool) {
    && d.span == p.span
    && forall f :: f in p.flags ==>
         || f in d.flags
         || (p.oneGroup && (f in {LoadBalance, NewIdle, Fork, Exec, SharePower, SharePkg} || (oneNode && f == Serialize)))
  }

  lemma RedundantIff(d: Domain, p: Domain, oneNode: bool)
    ensures ParentDegenerate(d, p, oneNode) <==> !Useful(p) || DoesAllOf(d, p, oneNode)
  {
    UsefulIff(p);
    if d.span == p.span && DoesAllOf(d, p, oneNode) {
      assert forall f :: f in Effective(p, oneNode) ==> f in p.flags && f in d.flags;
    }
    if d.span == p.span && Effective(p, oneNode) <= d.flags {
      forall f | f in p.flags && f !in d.flags
        ensures p.oneGroup && (f in {LoadBalance, NewIdle, Fork, Exec, SharePower, SharePkg} || (oneNode && f == Serialize))
      {
        assert f !in Effective(p, oneNode);
      }
    }
  }

  /** Every attached domain is useful, and none does only what the one below it does. */
  lemma AttachedUseful(chain: seq<SchedDomain>, oneNode: bool, k: nat)
    requires k < |Attached(chain, oneNode)|
    ensures Useful(Attached(chain, oneNode)[k].d)
    ensures k > 0 ==> !DoesAllOf(Attached(chain, oneNode)[k - 1].d, Attached(chain, oneNode)[k].d, oneNode)
  {
    AttachedClean(chain, oneNode);
    UsefulIff(Attached(chain, oneNode)[k].d);
    if k > 0 { RedundantIff(Attached(chain, oneNode)[k - 1].d, Attached(chain, oneNode)[k].d, oneNode); }
  }

  /** No surviving domain is degenerate, alone or as the parent of its child. */
  lemma AttachedClean(chain: seq<SchedDomain>, oneNode: bool)
    ensures Irredundant(Attached(chain, oneNode), oneNode)
    ensures forall i :: 0 <= i < |Attached(chain, oneNode)| ==> !Degenerate(Attached(chain, oneNode)[i].d)
  {
    if chain != [] {
      var kept := Pruned(chain[0], chain[1..], oneNode);
      PrunedIrredundant(chain[0], chain[1..], oneNode);
      forall j | 1 <= j < |kept| ensures !Degenerate(kept[j].d) {
        assert !ParentDegenerate(kept[j - 1].d, kept[j].d, oneNode);
      }
    }
  }

  lemma {:induction false} PrunedConserves(tmp: SchedDomain, rest: seq<SchedDomain>, oneNode: bool)
    ensures multiset(Pruned(tmp, rest, oneNode)) + multiset(Removed(tmp, rest, oneNode)) == multiset([tmp] + rest)
    decreases |rest|
  {
    Front(tmp, rest);
    if rest != [] {
      var p, above := rest[0], rest[1..];
      assert rest == [p] + above;
      Front(p, above);
      Front(tmp, above);
      if ParentDegenerate(tmp.d, p.d, oneNode) {
        PrunedConserves(tmp, above, oneNode);
        var kept, removed := Pruned(tmp, above, oneNode), Removed(tmp, above, oneNode);
        hide Pruned, Removed, ParentDegenerate;
        Front(p, removed);
        AddBetween(multiset(kept), multiset(removed), multiset{tmp}, multiset(above), multiset{p});
      } else {
        PrunedConserves(p, above, oneNode);
        var kept, removed := Pruned(p, above, oneNode), Removed(p, above, oneNode);
        hide Pruned, Removed, ParentDegenerate;
        Front(tmp, kept);
        AddBefore(multiset(kept), multiset(removed), multiset(rest), multiset{tmp});
      }
    }
  }

  lemma AddBetween<T>(a: multiset<T>, b: multiset<T>, c: multiset<T>, d: multiset<T>, x: multiset<T>)
    requires a + b == c + d
    ensures a + (x + b) == c + (x + d)
  {
    forall e | e in a + (x + b) || e in c + (x + d) ensures (a + (x + b))[e] == (c + (x + d))[e] {
      assert (a + b)[e] == (c + d)[e];
    }
  }

  lemma AddBefore<T>(a: multiset<T>, b: multiset<T>, c: multiset<T>, x: multiset<T>)
    requires a + b == c
    ensures (x + a) + b == x + c
  {
    forall e | e in (x + a) + b || e in x + c ensures ((x + a) + b)[e] == (x + c)[e] {
      assert (a + b)[e] == c[e];
    }
  }

  lemma Front<T>(x: T, s: seq<T>)
    ensures multiset([x] + s) == multiset{x} + multiset(s)
  {
  }

  /** Every domain of the chain either survives or is destroyed, and none twice. */
  lemma AttachConserves(chain: seq<SchedDomain>, oneNode: bool)
    ensures multiset(Attached(chain, oneNode)) + multiset(Destroyed(chain, oneNode)) == multiset(chain)
  {
    if chain != [] {
      var base, rest := chain[0], chain[1..];
      PrunedConserves(base, rest, oneNode);
      assert [base] + rest == chain;
      var kept, removed := Pruned(base, rest, oneNode), Removed(base, rest, oneNode);
      hide Pruned, Removed, Degenerate;
      assert Attached(chain, oneNode) == if Degenerate(base.d) then kept[1..] else kept;
      assert Destroyed(chain, oneNode) == removed + (if Degenerate(base.d) then [base] else []);
      BaseMoves(kept, removed, base);
    }
  }

  /** Moving the first survivor to the destroyed domains loses nothing. */
  lemma BaseMoves(kept: seq<SchedDomain>, removed: seq<SchedDomain>, base: SchedDomain)
    requires kept != [] && kept[0] == base
    ensures multiset(kept[1..]) + multiset(removed + [base]) == multiset(kept) + multiset(removed + [])
  {
    assert kept == [base] + kept[1..];
    assert removed + [] == removed;
  }

  /** A domain that was removed was useless, or a survivor does all that it did. */
  lemma {:induction false} RemovedIsRedundant(tmp: SchedDomain, rest: seq<SchedDomain>, oneNode: bool, r: SchedDomain)
    requires r in Removed(tmp, rest, oneNode)
    ensures Useful(r.d) ==> exists k :: k in Pruned(tmp, rest, oneNode) && DoesAllOf(k.d, r.d, oneNode)
    decreases |rest|
  {
    hide Useful, DoesAllOf, ParentDegenerate;
    if rest != [] {
      if ParentDegenerate(tmp.d, rest[0].d, oneNode) {
        if r == rest[0] {
          assert tmp in Pruned(tmp, rest, oneNode);
          RedundantIff(tmp.d, r.d, oneNode);
        } else {
          RemovedIsRedundant(tmp, rest[1..], oneNode, r);
        }
      } else {
        RemovedIsRedundant(rest[0], rest[1..], oneNode, r);
      }
    }
  }

  lemma {:induction false} RemovedFrom(tmp: SchedDomain, rest: seq<SchedDomain>, oneNode: bool, r: SchedDomain)
    requires r in Removed(tmp, rest, oneNode)
    ensures r in rest
    decreases |rest|
  {
    if ParentDegenerate(tmp.d, rest[0].d, oneNode) {
      if r != rest[0] { RemovedFrom(tmp, rest[1..], oneNode, r); }
    } else {
      RemovedFrom(rest[0], rest[1..], oneNode, r);
    }
  }

  /** A level that spans no more than one below it has a single group, as groups are spans of the level below. */
  ghost predicate GroupsFollowSpans(chain: seq<SchedDomain>) {
    forall i, j :: 0 <= i < j < |chain| && chain[i].d.span == chain[j].d.span ==> chain[j].d.oneGroup
  }

  /** A destroyed domain contributed nothing that no surviving domain does. */
  lemma DestroyedIsRedundant(chain: seq<SchedDomain>, oneNode: bool, r: SchedDomain)
    requires r in Destroyed(chain, oneNode) && GroupsFollowSpans(chain)
    ensures Useful(r.d) ==> exists k :: k in Attached(chain, oneNode) && DoesAllOf(k.d, r.d, oneNode)
  {
    var base, rest := chain[0], chain[1..];
    UsefulIff(base.d);
    if r in Removed(base, rest, oneNode) && Useful(r.d) {
      RemovedIsRedundant(base, rest, oneNode, r);
      RemovedFrom(base, rest, oneNode, r);
      OneGroupAbove(chain, r);
      BaseCovers(base.d, r.d, oneNode);
      hide Useful, DoesAllOf, Degenerate;
      var k :| k in Pruned(base, rest, oneNode) && DoesAllOf(k.d, r.d, oneNode);
      assert k in Attached(chain, oneNode);
    }
  }

  lemma OneGroupAbove(chain: seq<SchedDomain>, r: SchedDomain)
    requires chain != [] && r in chain[1..] && GroupsFollowSpans(chain)
    ensures r.d.span == chain[0].d.span ==> r.d.oneGroup
  {
    var j :| 1 <= j < |chain| && chain[j] == r;
  }

  /** A useless base cannot do all that a useful domain of one group does. */
  lemma BaseCovers(base: Domain, r: Domain, oneNode: bool)
    ensures !Useful(base) && DoesAllOf(base, r, oneNode) && r.oneGroup ==> !Useful(r)
  {
  }

  ghost predicate Nested(chain: seq<SchedDomain>) {
    forall i, j :: 0 <= i < j < |chain| ==> chain[i].d.span <= chain[j].d.span
  }

  lemma {:induction false} PrunedNested(tmp: SchedDomain, rest: seq<SchedDomain>, oneNode: bool)
    requires Nested([tmp] + rest)
    ensures Nested(Pruned(tmp, rest, oneNode))
    ensures forall k :: k in Pruned(tmp, rest, oneNode) ==> k == tmp || k in rest
    decreases |rest|
  {
    hide ParentDegenerate;
    if rest != [] {
      var all := [tmp] + rest;
      if ParentDegenerate(tmp.d, rest[0].d, oneNode) {
        var fewer := [tmp] + rest[1..];
        assert forall i :: 0 <= i < |fewer| ==> fewer[i] == all[if i == 0 then 0 else i + 1];
        PrunedNested(tmp, rest[1..], oneNode);
      } else {
        assert forall i :: 0 <= i < |rest| ==> rest[i] == all[i + 1];
        assert [rest[0]] + rest[1..] == rest;
        PrunedNested(rest[0], rest[1..], oneNode);
        var kept := Pruned(rest[0], rest[1..], oneNode);
        forall k | k in kept ensures tmp.d.span <= k.d.span {
          var i :| 0 <= i < |rest| && rest[i] == k;
          assert all[i + 1] == k && all[0] == tmp;
        }
        NestedFront(tmp, kept);
      }
    }
  }

  lemma NestedFront(tmp: SchedDomain, kept: seq<SchedDomain>)
    requires Nested(kept) && forall k :: k in kept ==> tmp.d.span <= k.d.span
    ensures Nested([tmp] + kept)
  {
    var longer := [tmp] + kept;
    forall i, j | 0 <= i < j < |longer| ensures longer[i].d.span <= longer[j].d.span {
      assert longer[j] == kept[j - 1] && kept[j - 1] in kept;
    }
  }

  lemma AttachedNested(chain: seq<SchedDomain>, oneNode: bool)
    requires Nested(chain)
    ensures Nested(Attached(chain, oneNode))
  {
    if chain != [] {
      assert [chain[0]] + chain[1..] == chain;
      PrunedNested(chain[0], chain[1..], oneNode);
    }
  }

  // ---------------------------------------------------------------- linked chains

  class RunQueue {
    var sd: SchedDomain?

    constructor ()
      ensures sd == null
    {
      sd := null;
    }
  }

  predicate Distinct(c: seq<SchedDomain>) {
    forall i, j :: 0 <= i < j < |c| ==> c[i] != c[j]
  }

  function Above(c: seq<SchedDomain>, k: nat): SchedDomain? {
    if k + 1 < |c| then c[k + 1] else null
  }

  function Beneath(c: seq<SchedDomain>, k: nat): SchedDomain?
    requires k < |c|
  {
    if k > 0 then c[k - 1] else null
  }

  /** head starts a chain whose parent and child links agree. */
  ghost predicate Chain(head: SchedDomain?, c: seq<SchedDomain>)
    reads c
  {
    && head == (if c == [] then null else c[0])
    && Distinct(c)
    && (forall k :: 0 <= k < |c| ==> c[k].parent == Above(c, k) && c[k].child == Beneath(c, k))
  }

  ghost predicate Among(c: seq<SchedDomain>, nodes: set<SchedDomain>) {
    forall i :: 0 <= i < |c| ==> c[i] in nodes
  }

  /** c without its element k. */
  function Skip<T>(c: seq<T>, k: nat): seq<T>
    requires k < |c|
  {
    c[..k] + c[k + 1..]
  }

  lemma SkipLinks(c: seq<SchedDomain>, k: nat, j: nat)
    requires 0 < k < |c| && j < |c| - 1
    ensures var c' := Skip(c, k);
            && c'[j] == c[if j < k then j else j + 1]
            && Above(c', j) == (if j == k - 1 then Above(c, k) else if j < k then Above(c, j) else Above(c, j + 1))
            && Beneath(c', j) == (if j == k then c[k - 1] else if j < k then Beneath(c, j) else Beneath(c, j + 1))
  {
  }

  lemma SkipKeeps(c: seq<SchedDomain>, k: nat, nodes: set<SchedDomain>)
    requires 0 < k < |c| && Distinct(c) && Among(c, nodes)
    ensures var c' := Skip(c, k); |c'| == |c| - 1 && c'[0] == c[0] && Distinct(c') && Among(c', nodes)
  {
  }

  /** The parent of c[k - 1] is unlinked. */
  method Unlink(head: SchedDomain, ghost c: seq<SchedDomain>, ghost k: nat, tmp: SchedDomain, ghost nodes: set<SchedDomain>)
    requires Chain(head, c) && 0 < k < |c| && c[k - 1] == tmp && Among(c, nodes)
    modifies nodes
    ensures Chain(head, Skip(c, k)) && Among(Skip(c, k), nodes)
  {
    var parent := tmp.parent;
    tmp.parent := parent.parent;
    if parent.parent != null {
      parent.parent.child := tmp;
    }
    SkipKeeps(c, k, nodes);
    ghost var c' := Skip(c, k);
    hide Skip, Above, Beneath, Distinct, Among;
    forall j | 0 <= j < |c'| ensures c'[j].parent == Above(c', j) && c'[j].child == Beneath(c', j) {
      SkipLinks(c, k, j);
    }
  }

  /** destroy_sched_domains */
  method DestroyAll(head: SchedDomain?, ghost c: seq<SchedDomain>) returns (destroyed: seq<SchedDomain>)
    requires Chain(head, c)
    ensures destroyed == c
  {
    var sd := head;
    destroyed := [];
    while sd != null
      invariant |destroyed| <= |c| && destroyed == c[..|destroyed|]
      invariant sd == if |destroyed| < |c| then c[|destroyed|] else null
      decreases |c| - |destroyed|
    {
      destroyed := destroyed + [sd];
      sd := sd.parent;
    }
  }

  /** all has become xs, the domains dxs were removed, and the loop has reached element k of xs. */
  ghost predicate Pruning(all: seq<SchedDomain>, xs: seq<SchedDomain>, k: nat, dxs: seq<SchedDomain>, oneNode: bool) {
    && all != [] && k < |xs|
    && xs[..k] + Pruned(xs[k], xs[k + 1..], oneNode) == Pruned(all[0], all[1..], oneNode)
    && dxs + Removed(xs[k], xs[k + 1..], oneNode) == Removed(all[0], all[1..], oneNode)
  }

  lemma PruneStep(all: seq<SchedDomain>, xs: seq<SchedDomain>, k: nat, dxs: seq<SchedDomain>, oneNode: bool)
    requires Pruning(all, xs, k, dxs, oneNode)
    ensures k + 1 == |xs| ==> xs == Pruned(all[0], all[1..], oneNode) && dxs == Removed(all[0], all[1..], oneNode)
    ensures k + 1 < |xs| && ParentDegenerate(xs[k].d, xs[k + 1].d, oneNode)
            ==> Pruning(all, Skip(xs, k + 1), k, dxs + [xs[k + 1]], oneNode)
    ensures k + 1 < |xs| && !ParentDegenerate(xs[k].d, xs[k + 1].d, oneNode) ==> Pruning(all, xs, k + 1, dxs, oneNode)
  {
    hide ParentDegenerate;
    if k + 1 < |xs| {
      assert xs[k + 1..][1..] == xs[k + 2..];
      assert Skip(xs, k + 1)[k + 1..] == xs[k + 2..];
      assert Skip(xs, k + 1)[..k] == xs[..k];
      assert xs[..k + 1] == xs[..k] + [xs[k]];
    }
  }

  /** What the second step makes of the first. */
  lemma SecondStep(all: seq<SchedDomain>, oneNode: bool)
    requires all != []
    ensures var kept, removed := Pruned(all[0], all[1..], oneNode), Removed(all[0], all[1..], oneNode);
            && Attached(all, oneNode) == (if Degenerate(all[0].d) then kept[1..] else kept)
            && Destroyed(all, oneNode) == if Degenerate(all[0].d) then removed + [all[0]] else removed
  {
    assert Removed(all[0], all[1..], oneNode) + [] == Removed(all[0], all[1..], oneNode);
  }

  /** The first loop of cpu_attach_domain. */
  method Prune(sd: SchedDomain, ghost chain: seq<SchedDomain>, oneNode: bool, ghost nodes: set<SchedDomain>)
    returns (destroyed: seq<SchedDomain>, ghost kept: seq<SchedDomain>)
    requires Chain(sd, chain) && Among(chain, nodes)
    modifies nodes
    ensures Chain(sd, kept) && Among(kept, nodes)
    ensures kept == Pruned(sd, chain[1..], oneNode) && destroyed == Removed(sd, chain[1..], oneNode)
  {
    var tmp := sd;
    destroyed := [];
    kept := chain;
    ghost var k := 0;
    hide Pruned, Removed, ParentDegenerate, Pruning, Among;
    PruneStart(chain, oneNode);
    while tmp.parent != null
      invariant k < |kept| && tmp == kept[k] && Chain(sd, kept) && Among(kept, nodes)
      invariant Pruning(chain, kept, k, destroyed, oneNode)
      decreases |kept| - k
    {
      var parent := tmp.parent;
      assert k + 1 < |kept| && parent == kept[k + 1];
      PruneStep(chain, kept, k, destroyed, oneNode);
      if ParentDegenerate(tmp.d, parent.d, oneNode) {
        Unlink(sd, kept, k + 1, tmp, nodes);
        kept := Skip(kept, k + 1);
        destroyed := destroyed + [parent];
      } else {
        tmp := tmp.parent;
        k := k + 1;
      }
    }
    PruneStep(chain, kept, k, destroyed, oneNode);
  }

  lemma PruneStart(all: seq<SchedDomain>, oneNode: bool)
    requires all != []
    ensures Pruning(all, all, 0, [], oneNode)
  {
  }

  /** The second step of cpu_attach_domain: a degenerate base gives way to its parent. */
  method DropBase(sd: SchedDomain, ghost kept: seq<SchedDomain>, ghost nodes: set<SchedDomain>) returns (head: SchedDomain?)
    requires Chain(sd, kept) && Among(kept, nodes)
    modifies nodes
    ensures Chain(head, kept[1..]) && Among(kept[1..], nodes)
  {
    head := sd.parent;
    if head != null {
      assert head == kept[1];
      head.child := null;
    }
    forall j | 0 <= j < |kept[1..]|
      ensures kept[1..][j].parent == Above(kept[1..], j) && kept[1..][j].child == Beneath(kept[1..], j)
    {
      assert kept[1..][j] == kept[j + 1] && Above(kept[1..], j) == Above(kept, j + 1);
    }
  }

  /** Links the CPU to the pruned chain and destroys everything the CPU no longer uses. */
  method CpuAttachDomain(rq: RunQueue, sd0: SchedDomain?, ghost chain: seq<SchedDomain>, ghost current: seq<SchedDomain>,
                         oneNode: bool, ghost nodes: set<SchedDomain>)
    returns (destroyed: seq<SchedDomain>, ghost kept: seq<SchedDomain>)
    requires Chain(sd0, chain) && Among(chain, nodes)
    requires Chain(rq.sd, current) && forall i :: 0 <= i < |current| ==> current[i] !in nodes
    modifies rq, nodes
    ensures Chain(rq.sd, kept) && Among(kept, nodes)
    ensures kept == Attached(chain, oneNode) && destroyed == Destroyed(chain, oneNode) + current
  {
    hide Pruned, Removed, Degenerate, Above, Beneath;
    var sd := sd0;
    destroyed := [];
    kept := [];
    if sd != null {
      destroyed, kept := Prune(sd, chain, oneNode, nodes);
      SecondStep(chain, oneNode);
      if Degenerate(sd.d) {
        var base := sd;
        sd := DropBase(sd, kept, nodes);
        destroyed := destroyed + [base];
        kept := kept[1..];
      }
    }
    var tmp := rq.sd;
    rq.sd := sd;
    var replaced := DestroyAll(tmp, current);
    destroyed := destroyed + replaced;
  }
}
