/** Re-partitioning the scheduling domains: partition_sched_domains destroys and builds only what changed. */
module SchedPartition {

  type Cpu = nat
  type Mask = set<Cpu>

  datatype Option<T> = None | Some(value: T)

  /** What a CPU is attached to: the domains of a mask, built with a relax level under one version of the topology. */
  datatype Attachment = NoDomain | InDomain(mask: Mask, relax: int, topology: nat)

  /** A partition: the masks and, unless NULL, the relax level of each. */
  datatype Partition = Partition(doms: seq<Mask>, attrs: Option<seq<int>>) {
    predicate Valid() {
      && (attrs.Some? ==> |attrs.value| >= |doms|)
      && (forall i, j :: 0 <= i < j < |doms| ==> doms[i] !! doms[j])
    }

    /** The attribute compared by dattrs_equal, with SD_ATTR_INIT for NULL. */
    function Attr(i: nat): int
      requires i < |doms| && Valid()
    {
      if attrs.Some? then attrs.value[i] else -1
    }
  }

  /** set_domain_attribute: a negative level asks for the default. */
  function Relax(attr: int, default_: int): int {
    if attr < 0 then default_ else attr
  }

  predicate Same(p: Partition, i: nat, q: Partition, j: nat)
    requires p.Valid() && q.Valid() && i < |p.doms| && j < |q.doms|
  {
    p.doms[i] == q.doms[j] && p.Attr(i) == q.Attr(j)
  }

  predicate Present(p: Partition, i: nat, q: Partition)
    requires p.Valid() && q.Valid() && i < |p.doms|
  {
    exists j :: 0 <= j < |q.doms| && Same(p, i, q, j)
  }

  function Built(p: Partition, i: nat, default_: int, topology: nat): Attachment
    requires p.Valid() && i < |p.doms|
  {
    InDomain(p.doms[i], Relax(p.Attr(i), default_), topology)
  }

  /** a is what the partition prescribes for CPU c. */
  predicate IsTarget(p: Partition, default_: int, topology: nat, c: Cpu, a: Attachment)
    requires p.Valid()
  {
    && (forall i :: 0 <= i < |p.doms| && c in p.doms[i] ==> a == Built(p, i, default_, topology))
    && ((forall i :: 0 <= i < |p.doms| ==> c !in p.doms[i]) ==> a == NoDomain)
  }

  /** Every CPU is attached as the partition prescribes. */
  predicate Consistent(p: Partition, default_: int, topology: nat, att: seq<Attachment>)
    requires p.Valid()
  {
    forall c :: 0 <= c < |att| ==> IsTarget(p, default_, topology, c, att[c])
  }

  /** What that is: the domain the CPU is in, with its relax level or the default for a negative or missing one. */
  lemma TargetIs(p: Partition, default_: int, topology: nat, att: seq<Attachment>)
    requires p.Valid() && Consistent(p, default_, topology, att)
    ensures forall c, i :: 0 <= c < |att| && 0 <= i < |p.doms| && c in p.doms[i] ==>
              att[c] == InDomain(p.doms[i], if p.attrs.Some? && p.attrs.value[i] >= 0 then p.attrs.value[i] else default_, topology)
    ensures forall c :: 0 <= c < |att| && (forall i :: 0 <= i < |p.doms| ==> c !in p.doms[i]) ==> att[c] == NoDomain
  {
    forall c | 0 <= c < |att| ensures IsTarget(p, default_, topology, c, att[c]) {
    }
  }

  // ---------------------------------------------------------------- the reference: destroy everything, build everything

  /** cpu_attach_domain for every CPU of a mask. */
  function Attach(att: seq<Attachment>, mask: Mask, a: Attachment): seq<Attachment> {
    seq(|att|, c requires 0 <= c < |att| => if c in mask then a else att[c])
  }

  function DetachAll(att: seq<Attachment>, doms: seq<Mask>): seq<Attachment>
    decreases |doms|
  {
    if doms == [] then att else DetachAll(Attach(att, doms[0], NoDomain), doms[1..])
  }

  function BuildFrom(att: seq<Attachment>, p: Partition, k: nat, default_: int, topology: nat): seq<Attachment>
    requires p.Valid() && k <= |p.doms|
    decreases |p.doms| - k
  {
    if k == |p.doms| then att
    else BuildFrom(Attach(att, p.doms[k], Built(p, k, default_, topology)), p, k + 1, default_, topology)
  }

  lemma {:induction false} DetachAllNone(att: seq<Attachment>, doms: seq<Mask>)
    ensures |DetachAll(att, doms)| == |att|
    ensures forall c :: 0 <= c < |att| ==>
              DetachAll(att, doms)[c] == if exists i :: 0 <= i < |doms| && c in doms[i] then NoDomain else att[c]
    decreases |doms|
  {
    if doms != [] {
      var att' := Attach(att, doms[0], NoDomain);
      DetachAllNone(att', doms[1..]);
      forall c | 0 <= c < |att|
        ensures DetachAll(att, doms)[c] == if exists i :: 0 <= i < |doms| && c in doms[i] then NoDomain else att[c]
      {
        assert (exists i :: 0 <= i < |doms| && c in doms[i])
            <==> c in doms[0] || exists i :: 0 <= i < |doms[1..]| && c in doms[1..][i] by {
          if i :| 0 <= i < |doms| && c in doms[i] && i > 0 { assert c in doms[1..][i - 1]; }
        }
      }
    }
  }

  lemma {:induction false} BuildFromTargets(att: seq<Attachment>, p: Partition, k: nat, default_: int, topology: nat)
    requires p.Valid() && k <= |p.doms|
    requires forall c, i :: 0 <= c < |att| && 0 <= i < k && c in p.doms[i] ==> att[c] == Built(p, i, default_, topology)
    ensures var r := BuildFrom(att, p, k, default_, topology);
            && |r| == |att|
            && (forall c, i :: 0 <= c < |att| && 0 <= i < |p.doms| && c in p.doms[i] ==> r[c] == Built(p, i, default_, topology))
            && (forall c :: 0 <= c < |att| && (forall i :: 0 <= i < |p.doms| ==> c !in p.doms[i]) ==> r[c] == att[c])
    decreases |p.doms| - k
  {
    if k < |p.doms| {
      BuildFromTargets(Attach(att, p.doms[k], Built(p, k, default_, topology)), p, k + 1, default_, topology);
    }
  }

  /** Destroying the current partition and building the next from nothing attaches every CPU as the next prescribes. */
  lemma RebuildIsTarget(cur: Partition, next: Partition, default_: int, before: nat, after: nat, att: seq<Attachment>)
    requires cur.Valid() && next.Valid() && Consistent(cur, default_, before, att)
    ensures Consistent(next, default_, after, BuildFrom(DetachAll(att, cur.doms), next, 0, default_, after))
    ensures |BuildFrom(DetachAll(att, cur.doms), next, 0, default_, after)| == |att|
  {
    var none := DetachAll(att, cur.doms);
    DetachAllNone(att, cur.doms);
    forall c | 0 <= c < |att| ensures none[c] == NoDomain {
      assert IsTarget(cur, default_, before, c, att[c]);
    }
    BuildFromTargets(none, next, 0, default_, after);
  }

  lemma OneTarget(p: Partition, default_: int, topology: nat, a: seq<Attachment>, b: seq<Attachment>)
    requires p.Valid() && Consistent(p, default_, topology, a) && Consistent(p, default_, topology, b) && |a| == |b|
    ensures a == b
  {
    forall c | 0 <= c < |a| ensures a[c] == b[c] {
      assert IsTarget(p, default_, topology, c, a[c]) && IsTarget(p, default_, topology, c, b[c]);
      if i :| 0 <= i < |p.doms| && c in p.doms[i] {
        assert a[c] == Built(p, i, default_, topology);
      }
    }
  }

  // ---------------------------------------------------------------- partition_sched_domains

  /** After the first loop over the first k current domains. */
  predicate Detached(cur: Partition, next: Partition, k: nat, changed: bool, before: seq<Attachment>, att: seq<Attachment>)
    requires cur.Valid() && next.Valid()
  {
    && |att| == |before|
    && (forall c, i :: 0 <= c < |att| && 0 <= i < |cur.doms| && c in cur.doms[i] ==>
          att[c] == if i < k && (changed || !Present(cur, i, next)) then NoDomain else before[c])
    && (forall c :: 0 <= c < |att| && (forall i :: 0 <= i < |cur.doms| ==> c !in cur.doms[i]) ==> att[c] == before[c])
  }

  /** After the second loop over the first k new domains. */
  predicate Rebuilt(cur: Partition, next: Partition, k: nat, changed: bool, default_: int, topology: nat,
                    before: seq<Attachment>, att: seq<Attachment>)
    requires cur.Valid() && next.Valid()
  {
    && |att| == |before|
    && (forall c, i :: 0 <= c < |att| && 0 <= i < |next.doms| && c in next.doms[i] ==>
          att[c] == if i < k && (changed || !Present(next, i, cur)) then Built(next, i, default_, topology) else before[c])
    && (forall c :: 0 <= c < |att| && (forall i :: 0 <= i < |next.doms| ==> c !in next.doms[i]) ==> att[c] == before[c])
  }

  lemma DetachStart(cur: Partition, next: Partition, changed: bool, att: seq<Attachment>)
    requires cur.Valid() && next.Valid()
    ensures Detached(cur, next, 0, changed, att, att)
  {
  }

  lemma BuildStart(cur: Partition, next: Partition, changed: bool, default_: int, topology: nat, att: seq<Attachment>)
    requires cur.Valid() && next.Valid()
    ensures Rebuilt(cur, next, 0, changed, default_, topology, att, att)
  {
  }

  lemma DetachStep(cur: Partition, next: Partition, k: nat, changed: bool, before: seq<Attachment>, att: seq<Attachment>,
                   att': seq<Attachment>)
    requires cur.Valid() && next.Valid() && k < |cur.doms| && Detached(cur, next, k, changed, before, att)
    requires att' == if changed || !Present(cur, k, next) then Attach(att, cur.doms[k], NoDomain) else att
    ensures Detached(cur, next, k + 1, changed, before, att')
  {
  }

  lemma BuildStep(cur: Partition, next: Partition, k: nat, changed: bool, default_: int, topology: nat,
                  before: seq<Attachment>, att: seq<Attachment>, att': seq<Attachment>)
    requires cur.Valid() && next.Valid() && k < |next.doms|
    requires Rebuilt(cur, next, k, changed, default_, topology, before, att)
    requires att' == if changed || !Present(next, k, cur) then Attach(att, next.doms[k], Built(next, k, default_, topology))
                     else att
    ensures Rebuilt(cur, next, k + 1, changed, default_, topology, before, att')
  {
    hide Built, Present;
    forall c, i | 0 <= c < |att'| && 0 <= i < |next.doms| && c in next.doms[i]
      ensures att'[c] == if i < k + 1 && (changed || !Present(next, i, cur)) then Built(next, i, default_, topology)
                         else before[c]
    {
      assert i != k ==> c !in next.doms[k];
    }
  }

  /** A domain of the new partition that is present in the old one was kept, and is what the new one prescribes. */
  lemma DiffIsTarget(cur: Partition, next: Partition, changed: bool, default_: int, before: nat, after: nat,
                     att0: seq<Attachment>, att1: seq<Attachment>, att2: seq<Attachment>)
    requires cur.Valid() && next.Valid() && Consistent(cur, default_, before, att0) && (!changed ==> after == before)
    requires Detached(cur, next, |cur.doms|, changed, att0, att1)
    requires Rebuilt(cur, next, |next.doms|, changed, default_, after, att1, att2)
    ensures Consistent(next, default_, after, att2)
  {
    forall c | 0 <= c < |att2| ensures IsTarget(next, default_, after, c, att2[c]) {
      assert IsTarget(cur, default_, before, c, att0[c]);
      forall i | 0 <= i < |next.doms| && c in next.doms[i] ensures att2[c] == Built(next, i, default_, after) {
        if !changed && Present(next, i, cur) {
          var j :| 0 <= j < |cur.doms| && Same(next, i, cur, j);
          assert Same(cur, j, next, i);
        }
      }
      if forall i :: 0 <= i < |next.doms| ==> c !in next.doms[i] {
        GoneIsDetached(cur, next, changed, att0, att1, c);
      }
    }
  }

  lemma GoneIsDetached(cur: Partition, next: Partition, changed: bool, att0: seq<Attachment>, att1: seq<Attachment>, c: Cpu)
    requires cur.Valid() && next.Valid() && Detached(cur, next, |cur.doms|, changed, att0, att1) && c < |att1|
    requires forall i :: 0 <= i < |next.doms| ==> c !in next.doms[i]
    requires (forall i :: 0 <= i < |cur.doms| ==> c !in cur.doms[i]) ==> att0[c] == NoDomain
    ensures att1[c] == NoDomain
  {
    forall i | 0 <= i < |cur.doms| && c in cur.doms[i] ensures !Present(cur, i, next) {
    }
  }

  class SchedDomains {
    const n: nat
    const relaxDefault: int
    var cur: Partition
    var topology: nat
    var attached: seq<Attachment>

    constructor (n: nat, relaxDefault: int)
      ensures Valid() && cur == Partition([], None) && this.n == n && this.relaxDefault == relaxDefault
    {
      this.n, this.relaxDefault := n, relaxDefault;
      cur, topology := Partition([], None), 0;
      attached := seq(n, _ => NoDomain);
    }

    predicate Valid()
      reads this
    {
      |attached| == n && cur.Valid() && Consistent(cur, relaxDefault, topology, attached)
    }

    method AttachMask(mask: Mask, a: Attachment)
      modifies this`attached
      ensures attached == Attach(old(attached), mask, a)
    {
      ghost var before := attached;
      for i := 0 to |attached|
        invariant |attached| == |before|
        invariant forall c :: 0 <= c < |attached| ==> attached[c] == if c < i && c in mask then a else before[c]
      {
        if i in mask {
          attached := attached[i := a];
        }
      }
    }

    /** The inner loop: whether domain i of p is in q. */
    method Find(p: Partition, i: nat, q: Partition) returns (found: bool)
      requires p.Valid() && q.Valid() && i < |p.doms|
      ensures found == Present(p, i, q)
    {
      found := false;
      for j := 0 to |q.doms|
        invariant forall k :: 0 <= k < j ==> !Same(p, i, q, k)
      {
        if p.doms[i] == q.doms[j] && p.Attr(i) == q.Attr(j) {
          assert Same(p, i, q, j);
          return true;
        }
      }
    }

    /** The first loop: the domains that are not in the new partition are destroyed. */
    method DetachGone(prev: Partition, next: Partition, changed: bool) returns (touched: Mask)
      requires prev.Valid() && next.Valid()
      modifies this`attached
      ensures Detached(prev, next, |prev.doms|, changed, old(attached), attached)
      ensures !changed ==> forall k :: 0 <= k < |next.doms| && Present(next, k, prev) ==> touched !! next.doms[k]
    {
      hide Detached, Present, Same;
      ghost var att0 := attached;
      touched := {};
      DetachStart(prev, next, changed, att0);
      for i := 0 to |prev.doms|
        invariant Detached(prev, next, i, changed, att0, attached)
        invariant !changed ==> forall k :: 0 <= k < |next.doms| && Present(next, k, prev) ==> touched !! next.doms[k]
      {
        var found := Find(prev, i, next);
        DetachStep(prev, next, i, changed, att0, attached,
                   if changed || !found then Attach(attached, prev.doms[i], NoDomain) else attached);
        if changed || !found {
          if !changed { MissDisjoint(prev, i, next); }
          AttachMask(prev.doms[i], NoDomain);
          touched := touched + prev.doms[i];
        }
      }
    }

    /** The second loop: the domains that were not in the old partition are built. */
    method BuildNew(prev: Partition, next: Partition, changed: bool, version: nat) returns (touched: Mask)
      requires prev.Valid() && next.Valid()
      modifies this`attached
      ensures Rebuilt(prev, next, |next.doms|, changed, relaxDefault, version, old(attached), attached)
      ensures !changed ==> forall k :: 0 <= k < |next.doms| && Present(next, k, prev) ==> touched !! next.doms[k]
    {
      hide Rebuilt, Present, Same;
      ghost var att1 := attached;
      touched := {};
      BuildStart(prev, next, changed, relaxDefault, version, att1);
      for i := 0 to |next.doms|
        invariant Rebuilt(prev, next, i, changed, relaxDefault, version, att1, attached)
        invariant !changed ==> forall k :: 0 <= k < |next.doms| && Present(next, k, prev) ==> touched !! next.doms[k]
      {
        var found := Find(next, i, prev);
        var a := Built(next, i, relaxDefault, version);
        BuildStep(prev, next, i, changed, relaxDefault, version, att1, attached,
                  if changed || !found then Attach(attached, next.doms[i], a) else attached);
        if changed || !found {
          if !changed { NewDisjoint(prev, i, next); }
          AttachMask(next.doms[i], a);
          touched := touched + next.doms[i];
        }
      }
    }

    /**
     domsNew is None for NULL.  The attachments end up as if everything had been destroyed and the new domains built
     from nothing, and with an unchanged topology no CPU of a domain present before and after is touched.
     */
    method PartitionSchedDomains(ndomsNew: nat, domsNew: Option<seq<Mask>>, attrsNew: Option<seq<int>>,
                                 newTopology: bool, active: Mask, isolated: Mask) returns (touched: Mask)
      requires Valid()
      requires domsNew.Some? ==> |domsNew.value| == ndomsNew
      requires domsNew.None? ==> ndomsNew <= 1
      requires Partition(if domsNew.Some? then domsNew.value else [active - isolated][..ndomsNew], attrsNew).Valid()
      modifies this
      ensures Valid() && topology == old(topology) + (if newTopology then 1 else 0)
      ensures cur == Partition(if domsNew.Some? then domsNew.value else [active - isolated][..ndomsNew], attrsNew)
      ensures attached == BuildFrom(DetachAll(old(attached), old(cur).doms), cur, 0, relaxDefault, topology)
      ensures forall c, i :: 0 <= c < n && 0 <= i < |cur.doms| && c in cur.doms[i] ==>
                attached[c] == InDomain(cur.doms[i],
                                        if cur.attrs.Some? && cur.attrs.value[i] >= 0 then cur.attrs.value[i] else relaxDefault,
                                        topology)
      ensures forall c :: 0 <= c < n && (forall i :: 0 <= i < |cur.doms| ==> c !in cur.doms[i]) ==> attached[c] == NoDomain
      ensures !newTopology && domsNew.Some? ==>
                forall i :: 0 <= i < |cur.doms| && Present(cur, i, old(cur)) ==> touched !! cur.doms[i]
    {
      var next := Partition(if domsNew.Some? then domsNew.value else [active - isolated][..ndomsNew], attrsNew);
      var prev := cur;
      ghost var before, att0 := topology, attached;
      var version := if newTopology then topology + 1 else topology;
      RebuildIsTarget(prev, next, relaxDefault, topology, version, attached);
      hide Detached, Rebuilt, Consistent, DetachAll, BuildFrom, Present, Same;
      topology := version;
      // with domsNew == NULL nothing matches: n is 0 in the first loop and ndoms_cur is 0 in the second
      var changed := newTopology || domsNew.None?;
      touched := DetachGone(prev, next, changed);
      ghost var att1 := attached;
      var built := BuildNew(prev, next, changed, version);
      touched := touched + built;
      DiffIsTarget(prev, next, changed, relaxDefault, before, version, att0, att1, attached);
      OneTarget(next, relaxDefault, version, attached,
                BuildFrom(DetachAll(att0, prev.doms), next, 0, relaxDefault, version));
      TargetIs(next, relaxDefault, version, attached);
      cur := next;
    }
  }

  /** An old domain that is not in the new partition meets no CPU of a domain that is in both. */
  lemma MissDisjoint(cur: Partition, i: nat, next: Partition)
    requires cur.Valid() && next.Valid() && i < |cur.doms| && !Present(cur, i, next)
    ensures forall k :: 0 <= k < |next.doms| && Present(next, k, cur) ==> cur.doms[i] !! next.doms[k]
  {
    forall k | 0 <= k < |next.doms| && Present(next, k, cur) ensures cur.doms[i] !! next.doms[k] {
      var j :| 0 <= j < |cur.doms| && Same(next, k, cur, j);
      assert Same(cur, j, next, k);
      if j < i { assert cur.doms[j] !! cur.doms[i]; } else { assert i == j || cur.doms[i] !! cur.doms[j]; }
    }
  }

  lemma NewDisjoint(cur: Partition, i: nat, next: Partition)
    requires cur.Valid() && next.Valid() && i < |next.doms| && !Present(next, i, cur)
    ensures forall k :: 0 <= k < |next.doms| && Present(next, k, cur) ==> next.doms[i] !! next.doms[k]
  {
    forall k | 0 <= k < |next.doms| && Present(next, k, cur) ensures next.doms[i] !! next.doms[k] {
      if k < i { assert next.doms[k] !! next.doms[i]; } else { assert i == k || next.doms[i] !! next.doms[k]; }
    }
  }
}
