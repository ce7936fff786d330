/** The hierarchy of task groups and the stackless walk over it. */
module TaskGroups {

  type Gid = nat

  datatype Link = NoGroup | Group(gid: Gid)

  /** A task group: its place in the hierarchy and its real-time bandwidth in nanoseconds. */
  datatype TaskGroup = TaskGroup(parent: Link, children: seq<Gid>, period: nat, runtime: nat)

  /** A snapshot of the hierarchy.  depth and height only witness that it is a finite tree. */
  datatype Tree = Tree(groups: map<Gid, TaskGroup>, root: Gid, depth: map<Gid, nat>, height: nat)

  predicate Distinct(s: seq<Gid>) {
    forall i, j :: 0 <= i < j < |s| ==> s[i] != s[j]
  }

  predicate NodeOk(t: Tree, g: Gid)
    requires g in t.groups
  {
    && g in t.depth && t.depth[g] < t.height
    && Distinct(t.groups[g].children)
    && (forall i :: 0 <= i < |t.groups[g].children| ==> ChildOk(t, g, t.groups[g].children[i]))
    && (g == t.root <==> t.groups[g].parent == NoGroup)
    && (g != t.root ==> t.groups[g].parent.gid in t.groups && g in t.groups[t.groups[g].parent.gid].children)
  }

  predicate ChildOk(t: Tree, g: Gid, c: Gid) {
    && c in t.groups && t.groups[c].parent == Group(g)
    && c in t.depth && g in t.depth && t.depth[c] == t.depth[g] + 1
  }

  predicate IsTree(t: Tree) {
    && t.depth.Keys == t.groups.Keys
    && (forall g {:trigger NodeOk(t, g)} :: g in t.groups ==> NodeOk(t, g))
    && t.root in t.groups && t.depth[t.root] == 0
  }

  function Children(t: Tree, g: Gid): seq<Gid>
    requires g in t.groups
  {
    t.groups[g].children
  }

  function Index(s: seq<Gid>, x: Gid): (i: nat)
    requires x in s
    ensures i < |s| && s[i] == x
  {
    if s[0] == x then 0 else Index(s[1..], x) + 1
  }

  // ---------------------------------------------------------------- the traversal

  datatype Visit = Down(g: Gid) | Up(g: Gid)

  /** The recursive traversal: down on entry, the children in order, up on leaving for the last time. */
  function Visits(t: Tree, g: Gid): seq<Visit>
    requires IsTree(t) && g in t.groups
    decreases t.height - t.depth[g], |Children(t, g)| + 1
  {
    [Down(g)] + VisitsFrom(t, g, 0) + [Up(g)]
  }

  function VisitsFrom(t: Tree, g: Gid, i: nat): seq<Visit>
    requires IsTree(t) && g in t.groups && i <= |Children(t, g)|
    decreases t.height - t.depth[g], |Children(t, g)| - i
  {
    if i == |Children(t, g)| then []
    else
      assert NodeOk(t, g) && ChildOk(t, g, Children(t, g)[i]);
      assert NodeOk(t, Children(t, g)[i]);
      Visits(t, Children(t, g)[i]) + VisitsFrom(t, g, i + 1)
  }

  /** What is left of the whole traversal once the subtree of g is left. */
  ghost function Rest(t: Tree, g: Gid): seq<Visit>
    requires IsTree(t) && g in t.groups
    decreases t.depth[g]
  {
    assert NodeOk(t, g);
    if g == t.root then []
    else
      var q := t.groups[g].parent.gid;
      var i := Index(Children(t, q), g);
      assert NodeOk(t, q) && ChildOk(t, q, Children(t, q)[i]);
      VisitsFrom(t, q, i + 1) + [Up(q)] + Rest(t, q)
  }

  /** What is left when the children of g before the i-th are done. */
  ghost function Remaining(t: Tree, g: Gid, i: nat): seq<Visit>
    requires IsTree(t) && g in t.groups && i <= |Children(t, g)|
  {
    VisitsFrom(t, g, i) + [Up(g)] + Rest(t, g)
  }

  lemma IndexUnique(s: seq<Gid>, i: nat)
    requires Distinct(s) && i < |s|
    ensures Index(s, s[i]) == i
  {
  }

  lemma EnterChild(t: Tree, g: Gid, i: nat)
    requires IsTree(t) && g in t.groups && i < |Children(t, g)|
    ensures Children(t, g)[i] in t.groups
    ensures Remaining(t, g, i) == [Down(Children(t, g)[i])] + Remaining(t, Children(t, g)[i], 0)
  {
    var c := Children(t, g)[i];
    assert NodeOk(t, g) && ChildOk(t, g, c);
    assert NodeOk(t, c);
    IndexUnique(Children(t, g), i);
    assert Rest(t, c) == Remaining(t, g, i + 1);
    var below, after := VisitsFrom(t, c, 0), Remaining(t, g, i + 1);
    assert Visits(t, c) == [Down(c)] + below + [Up(c)];
    assert ([Down(c)] + below + [Up(c)]) + VisitsFrom(t, g, i + 1) + [Up(g)] + Rest(t, g)
        == [Down(c)] + (below + [Up(c)] + after);
  }

  lemma LeaveNode(t: Tree, g: Gid)
    requires IsTree(t) && g in t.groups
    ensures Remaining(t, g, |Children(t, g)|) == [Up(g)] + Rest(t, g)
    ensures g != t.root ==> t.groups[g].parent.Group? && t.groups[g].parent.gid in t.groups
                            && g in Children(t, t.groups[g].parent.gid)
    ensures g != t.root ==>
              var q := t.groups[g].parent.gid;
              Rest(t, g) == Remaining(t, q, Index(Children(t, q), g) + 1)
  {
    assert NodeOk(t, g);
  }

  /** The visitor's answer, which may depend on everything it was called with before. */
  type Visitor = seq<Visit> -> int

  /** Every call before the last one answered zero. */
  ghost predicate ZeroSoFar(visit: Visitor, calls: seq<Visit>) {
    forall k :: 0 < k < |calls| ==> visit(calls[..k]) == 0
  }

  lemma ZeroLonger(visit: Visitor, calls: seq<Visit>, v: Visit)
    requires ZeroSoFar(visit, calls) && visit(calls) == 0
    ensures ZeroSoFar(visit, calls + [v])
  {
    forall k | 0 < k < |calls + [v]| ensures visit((calls + [v])[..k]) == 0 {
      assert (calls + [v])[..k] == calls[..k];
      assert calls[..|calls|] == calls;
    }
  }

  /** The calls made are those up to and including the first one that answers nonzero, whose answer is returned. */
  ghost predicate StopsAtFirst(visit: Visitor, all: seq<Visit>, calls: seq<Visit>, ret: int) {
    && 0 < |calls| && calls <= all
    && ZeroSoFar(visit, calls)
    && ret == visit(calls)
    && (ret == 0 ==> calls == all)
  }

  lemma Advance(calls: seq<Visit>, left: seq<Visit>, v: Visit)
    requires left != [] && left[0] == v
    ensures (calls + [v]) + left[1..] == calls + left
  {
  }

  /** The goto-driven walk with parent pointers and no stack makes exactly the calls of the recursive traversal. */
  method WalkTgTree(t: Tree, visit: Visitor) returns (ret: int, calls: seq<Visit>)
    requires IsTree(t)
    ensures StopsAtFirst(visit, Visits(t, t.root), calls, ret)
  {
    var parent := t.root;
    var next: nat := 0;                  // where list_for_each_entry_rcu stands in parent->children
    calls := [Down(parent)];
    ret := visit(calls);
    assert NodeOk(t, parent);
    ghost var left := Remaining(t, parent, next);
    assert Visits(t, t.root) == calls + left;
    while ret == 0
      invariant parent in t.groups && next <= |Children(t, parent)|
      invariant left == Remaining(t, parent, next)
      invariant calls + left == Visits(t, t.root)
      invariant 0 < |calls| && ret == visit(calls) && ZeroSoFar(visit, calls)
      decreases |left|
    {
      if next < |Children(t, parent)| {
        EnterChild(t, parent, next);
        Advance(calls, left, Down(Children(t, parent)[next]));
        parent := Children(t, parent)[next];
        next := 0;
        ZeroLonger(visit, calls, Down(parent));
        calls := calls + [Down(parent)];
        left := left[1..];
        ret := visit(calls);
      } else {
        LeaveNode(t, parent);
        Advance(calls, left, Up(parent));
        ZeroLonger(visit, calls, Up(parent));
        calls := calls + [Up(parent)];
        left := left[1..];
        ret := visit(calls);
        assert NodeOk(t, parent);
        if ret != 0 || t.groups[parent].parent.NoGroup? {
          return;
        }
        var child := parent;
        parent := t.groups[child].parent.gid;
        next := Index(Children(t, parent), child) + 1;
      }
    }
  }

  // ---------------------------------------------------------------- subtrees

  /** The ancestor of x (or x itself) at depth k. */
  ghost function AncestorAt(t: Tree, x: Gid, k: nat): (a: Gid)
    requires IsTree(t) && x in t.groups && k <= t.depth[x]
    ensures a in t.groups && t.depth[a] == k
    decreases t.depth[x]
  {
    assert NodeOk(t, x);
    if t.depth[x] == k then x
    else
      var q := t.groups[x].parent.gid;
      assert NodeOk(t, q) && ChildOk(t, q, Children(t, q)[Index(Children(t, q), x)]);
      AncestorAt(t, q, k)
  }

  /** x lies in the subtree of g. */
  ghost predicate Below(t: Tree, x: Gid, g: Gid)
    requires IsTree(t)
  {
    x in t.groups && g in t.groups && t.depth[x] >= t.depth[g] && AncestorAt(t, x, t.depth[g]) == g
  }

  lemma {:induction false} ParentOfAncestor(t: Tree, x: Gid, k: nat)
    requires IsTree(t) && x in t.groups && k < t.depth[x]
    ensures t.groups[AncestorAt(t, x, k + 1)].parent == Group(AncestorAt(t, x, k))
    decreases t.depth[x]
  {
    assert NodeOk(t, x);
    var q := t.groups[x].parent.gid;
    assert NodeOk(t, q) && ChildOk(t, q, Children(t, q)[Index(Children(t, q), x)]);
    if k + 1 < t.depth[x] {
      ParentOfAncestor(t, q, k);
    }
  }

  /** A proper descendant of g lies in the subtree of a child of g. */
  lemma SomeBranch(t: Tree, x: Gid, g: Gid) returns (i: nat)
    requires IsTree(t) && Below(t, x, g) && x != g
    ensures i < |Children(t, g)| && Below(t, x, Children(t, g)[i])
  {
    assert NodeOk(t, g) && NodeOk(t, x);
    ParentOfAncestor(t, x, t.depth[g]);
    var a := AncestorAt(t, x, t.depth[g] + 1);
    assert NodeOk(t, a);
    i := Index(Children(t, g), a);
  }

  lemma OneBranch(t: Tree, x: Gid, g: Gid, i: nat, j: nat)
    requires IsTree(t) && g in t.groups && i < |Children(t, g)| && j < |Children(t, g)|
    requires Below(t, x, Children(t, g)[i]) && Below(t, x, Children(t, g)[j])
    ensures i == j
  {
    assert NodeOk(t, g) && ChildOk(t, g, Children(t, g)[i]) && ChildOk(t, g, Children(t, g)[j]);
    assert Children(t, g)[i] == Children(t, g)[j];
  }

  lemma ChildBelow(t: Tree, x: Gid, g: Gid, i: nat)
    requires IsTree(t) && g in t.groups && i < |Children(t, g)| && Below(t, x, Children(t, g)[i])
    ensures Below(t, x, g) && x != g
  {
    assert NodeOk(t, g) && ChildOk(t, g, Children(t, g)[i]);
    ParentOfAncestor(t, x, t.depth[g]);
  }

  lemma {:induction false} AllBelowRoot(t: Tree, x: Gid)
    requires IsTree(t) && x in t.groups
    ensures Below(t, x, t.root)
    decreases t.depth[x]
  {
    assert NodeOk(t, x);
    if x != t.root {
      var q := t.groups[x].parent.gid;
      assert NodeOk(t, q) && ChildOk(t, q, Children(t, q)[Index(Children(t, q), x)]);
      AllBelowRoot(t, q);
    }
  }

  ghost function Count(b: bool): nat { if b then 1 else 0 }

  /** The traversal of a subtree enters and leaves each of its groups exactly once and no other group. */
  lemma {:induction false} VisitsOnce(t: Tree, g: Gid, x: Gid)
    requires IsTree(t) && g in t.groups
    ensures multiset(Visits(t, g))[Down(x)] == Count(Below(t, x, g))
    ensures multiset(Visits(t, g))[Up(x)] == Count(Below(t, x, g))
    decreases t.height - t.depth[g], |Children(t, g)| + 1
  {
    VisitsFromOnce(t, g, 0, x);
    assert NodeOk(t, g);
    if Below(t, x, g) && x != g {
      var i := SomeBranch(t, x, g);
    }
    if i: nat :| i < |Children(t, g)| && Below(t, x, Children(t, g)[i]) {
      ChildBelow(t, x, g, i);
    }
  }

  ghost predicate BelowFrom(t: Tree, g: Gid, i: nat, x: Gid)
    requires IsTree(t) && g in t.groups
  {
    exists j: nat :: i <= j < |Children(t, g)| && Below(t, x, Children(t, g)[j])
  }

  lemma BelowFromStep(t: Tree, g: Gid, i: nat, x: Gid)
    requires IsTree(t) && g in t.groups && i < |Children(t, g)|
    ensures Count(BelowFrom(t, g, i, x)) == Count(Below(t, x, Children(t, g)[i])) + Count(BelowFrom(t, g, i + 1, x))
  {
    if j: nat :| i + 1 <= j < |Children(t, g)| && Below(t, x, Children(t, g)[j]) {
      if Below(t, x, Children(t, g)[i]) { OneBranch(t, x, g, i, j); }
    }
  }

  lemma {:induction false} VisitsFromOnce(t: Tree, g: Gid, i: nat, x: Gid)
    requires IsTree(t) && g in t.groups && i <= |Children(t, g)|
    ensures multiset(VisitsFrom(t, g, i))[Down(x)] == Count(BelowFrom(t, g, i, x))
    ensures multiset(VisitsFrom(t, g, i))[Up(x)] == Count(BelowFrom(t, g, i, x))
    decreases t.height - t.depth[g], |Children(t, g)| - i
  {
    if i < |Children(t, g)| {
      var c := Children(t, g)[i];
      assert NodeOk(t, g) && ChildOk(t, g, c);
      assert NodeOk(t, c);
      VisitsOnce(t, c, x);
      VisitsFromOnce(t, g, i + 1, x);
      BelowFromStep(t, g, i, x);
    }
  }

  /** The whole walk visits every group of the tree exactly once in each direction. */
  lemma WholeTreeOnce(t: Tree, x: Gid)
    requires IsTree(t)
    ensures multiset(Visits(t, t.root))[Down(x)] == Count(x in t.groups)
    ensures multiset(Visits(t, t.root))[Up(x)] == Count(x in t.groups)
  {
    VisitsOnce(t, t.root, x);
    if x in t.groups {
      AllBelowRoot(t, x);
    }
  }

  /** The visits of child i of g lie inside those of g. */
  lemma {:induction false} BranchInside(t: Tree, g: Gid, from: nat, i: nat) returns (k: nat)
    requires IsTree(t) && g in t.groups && from <= i < |Children(t, g)| && Children(t, g)[i] in t.groups
    ensures k + |Visits(t, Children(t, g)[i])| <= |VisitsFrom(t, g, from)|
    ensures VisitsFrom(t, g, from)[k..k + |Visits(t, Children(t, g)[i])|] == Visits(t, Children(t, g)[i])
    decreases i - from
  {
    var c := Children(t, g)[from];
    assert NodeOk(t, g) && ChildOk(t, g, c);
    assert NodeOk(t, c);
    assert VisitsFrom(t, g, from) == Visits(t, c) + VisitsFrom(t, g, from + 1);
    if from == i {
      k := 0;
    } else {
      var j := BranchInside(t, g, from + 1, i);
      k := |Visits(t, c)| + j;
      Shifted(Visits(t, c), VisitsFrom(t, g, from + 1), j, |Visits(t, Children(t, g)[i])|);
    }
  }

  lemma Shifted<T>(a: seq<T>, b: seq<T>, j: nat, n: nat)
    requires j + n <= |b|
    ensures (a + b)[|a| + j..|a| + j + n] == b[j..j + n]
  {
  }

  /** A group is entered before it is left, and both happen while the groups above it are entered and not yet left. */
  lemma {:induction false} VisitOrder(t: Tree, g: Gid, x: Gid) returns (j: nat, k: nat)
    requires IsTree(t) && Below(t, x, g)
    ensures j < k < |Visits(t, g)| && Visits(t, g)[j] == Down(x) && Visits(t, g)[k] == Up(x)
    ensures Visits(t, g)[0] == Down(g) && Visits(t, g)[|Visits(t, g)| - 1] == Up(g)
    ensures x != g ==> 0 < j && k < |Visits(t, g)| - 1
    decreases t.height - t.depth[g]
  {
    var all := Visits(t, g);
    if x == g {
      j, k := 0, |all| - 1;
    } else {
      var i := SomeBranch(t, x, g);
      var c := Children(t, g)[i];
      assert NodeOk(t, g) && ChildOk(t, g, c);
      assert NodeOk(t, c);
      var j1, k1 := VisitOrder(t, c, x);
      var b := BranchInside(t, g, 0, i);
      var inside := VisitsFrom(t, g, 0);
      assert inside[b..b + |Visits(t, c)|][j1] == inside[b + j1] && inside[b..b + |Visits(t, c)|][k1] == inside[b + k1];
      assert all == [Down(g)] + inside + [Up(g)];
      j, k := 1 + b + j1, 1 + b + k1;
    }
  }
}
