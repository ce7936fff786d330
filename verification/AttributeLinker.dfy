/**
 Vertex attribute locations: the linker's multi-pass allocator over a 32-bit mask of used slots.  A mask is the set of
 its one bits.
 */
module AttributeLinker {

  datatype Option<T> = None | Some(value: T)

  datatype GlslType = Scalar | Vector(size: nat) | Matrix(columns: nat, rows: nat) | Array(element: GlslType, size: nat)

  /** count_attribute_slots */
  function CountAttributeSlots(t: GlslType): nat {
    match t
    case Array(e, n) => n * CountAttributeSlots(e)
    case Matrix(columns, _) => columns
    case _ => 1
  }

  /** The vec4 inputs a type is made of: one for a scalar or vector, one for each column of a matrix. */
  function Pieces(t: GlslType): seq<nat> {
    match t
    case Scalar => [1]
    case Vector(n) => [n]
    case Matrix(columns, rows) => seq(columns, _ => rows)
    case Array(e, n) => Repeat(Pieces(e), n)
  }

  function Repeat(s: seq<nat>, n: nat): seq<nat> {
    if n == 0 then [] else s + Repeat(s, n - 1)
  }

  lemma {:induction false} RepeatLength(s: seq<nat>, n: nat)
    ensures |Repeat(s, n)| == n * |s|
  {
    if n > 0 { RepeatLength(s, n - 1); }
  }

  /** A type takes one slot for each of its pieces. */
  lemma {:induction false} SlotsCountPieces(t: GlslType)
    ensures |Pieces(t)| == CountAttributeSlots(t)
  {
    if t.Array? {
      SlotsCountPieces(t.element);
      RepeatLength(Pieces(t.element), t.size);
    }
  }

  // ---------------------------------------------------------------- masks

  type Mask = set<nat>

  /** ((1 << count) - 1) << base, truncated to 32 bits. */
  function Bits(base: nat, count: nat): (m: Mask)
    ensures forall b: nat :: b in m <==> base <= b < base + count && b < 32
  {
    if count == 0 then {}
    else Bits(base, count - 1) + (if base + count - 1 < 32 then {base + count - 1} else {})
  }

  /** No bit of the run is used, and none would be shifted out. */
  predicate FreeAt(used: Mask, base: nat, count: nat) {
    base + count <= 32 && forall b: nat :: base <= b < base + count ==> b !in used
  }

  /** find_available_slots; the result is -1 for the source's failure value. */
  method FindAvailableSlots(used: Mask, needed: nat) returns (base: int)
    requires needed <= 31
    ensures base >= 0 ==> FreeAt(used, base, needed) && needed > 0
    ensures base >= 0 ==> forall b: nat :: b < base ==> !FreeAt(used, b, needed)
    ensures base >= -1
    ensures base < 0 <==> needed == 0 || forall b: nat :: !FreeAt(used, b, needed)
  {
    if needed == 0 {
      return -1;
    }
    var maxBit := 32 - needed;
    for i := 0 to maxBit + 1
      invariant forall b: nat :: b < i ==> !FreeAt(used, b, needed)
    {
      FreeIffClear(used, i, needed);
      if Bits(i, needed) * used == {} {
        return i;
      }
    }
    return -1;
  }

  /** The test of the bit masks, also for a run that is truncated. */
  lemma FreeIffClear(used: Mask, base: nat, count: nat)
    ensures Bits(base, count) * used == {}
            <==> forall b: nat :: base <= b < base + count && b < 32 ==> b !in used
    ensures base + count <= 32 ==> (Bits(base, count) * used == {} <==> FreeAt(used, base, count))
  {
    forall b: nat ensures b in Bits(base, count) * used <==> base <= b < base + count && b < 32 && b in used {
    }
  }

  // ---------------------------------------------------------------- the program being linked

  datatype Var = Var(name: string, type_: GlslType, explicit: bool, location: int) {
    function Slots(): nat { CountAttributeSlots(type_) }

    /** The slots of a variable that has a location. */
    function Range(): Mask
      requires location >= 0
    {
      Bits(location, Slots())
    }
  }

  datatype Param = Param(name: string, bindLocation: int, location: int, slots: nat)

  predicate DistinctNames(vars: seq<Var>) {
    forall i, j :: 0 <= i < j < |vars| ==> vars[i].name != vars[j].name
  }

  predicate SmallTypes(vars: seq<Var>) {
    forall i :: 0 <= i < |vars| ==> 1 <= vars[i].Slots() <= 31
  }

  /** Everything but the location. */
  predicate SameVar(v: Var, w: Var) {
    w == v.(location := w.location)
  }

  predicate SameVars(vs: seq<Var>, ws: seq<Var>) {
    |vs| == |ws| && forall i :: 0 <= i < |vs| ==> SameVar(vs[i], ws[i])
  }

  /** What both the symbol table and the parameter list do to find an entry by name. */
  function FindBy<T>(list: seq<T>, nameOf: T -> string, name: string): (r: Option<nat>)
    ensures r.Some? ==> r.value < |list| && nameOf(list[r.value]) == name
    ensures r.None? ==> forall i :: 0 <= i < |list| ==> nameOf(list[i]) != name
  {
    if list == [] then None
    else if nameOf(list[|list| - 1]) == name then Some(|list| - 1)
    else FindBy(list[..|list| - 1], nameOf, name)
  }

  function NameOf(p: Param): string { p.name }

  /** _mesa_get_parameter */
  function Find(params: seq<Param>, name: string): Option<nat> {
    FindBy(params, NameOf, name)
  }

  /** The bound location of a variable, or -1. */
  function Bound(params: seq<Param>, name: string): int {
    match Find(params, name)
    case None => -1
    case Some(k) => params[k].bindLocation
  }

  /** The location pass 1 gives a variable. */
  function Wanted(v: Var, params: seq<Param>): int {
    if v.explicit then v.location else if Bound(params, v.name) >= 0 then Bound(params, v.name) else -1
  }

  predicate Inside(v: Var, max: nat) {
    0 <= v.location && v.location + v.Slots() <= max
  }

  predicate Apart(v: Var, w: Var) {
    v.location + v.Slots() <= w.location || w.location + w.Slots() <= v.location
  }

  /** What a successful link promises: every input has its own slots among the first max. */
  predicate Placed(vars: seq<Var>, max: nat) {
    && (forall i :: 0 <= i < |vars| ==> Inside(vars[i], max))
    && (forall i, j :: 0 <= i < j < |vars| ==> Apart(vars[i], vars[j]))
  }

  // ---------------------------------------------------------------- what each pass keeps

  /** The variables in done have disjoint ranges below max, all marked used; so is everything that is not a location. */
  ghost predicate Kept(vars: seq<Var>, done: set<nat>, used: Mask, max: nat) {
    && (forall b: nat :: (max >= 32 || max <= b) && b < 32 ==> b in used)
    && (forall i :: i in done ==> max < 32 && i < |vars| && Inside(vars[i], max))
    && (forall i, b: nat :: i in done && vars[i].location <= b < vars[i].location + vars[i].Slots() ==> b in used)
    && (forall i, j :: i in done && j in done && i != j ==> Apart(vars[i], vars[j]))
  }

  /** A free run of bits, even one that was truncated to 32, is inside the locations and apart from all others. */
  lemma Allocate(vars: seq<Var>, done: set<nat>, used: Mask, max: nat, i: nat)
    requires Kept(vars, done, used, max) && SmallTypes(vars) && i < |vars| && i !in done
    requires 0 <= vars[i].location < 32 && Bits(vars[i].location, vars[i].Slots()) * used == {}
    ensures Kept(vars, done + {i}, used + Bits(vars[i].location, vars[i].Slots()), max)
  {
    var l: nat, n := vars[i].location, vars[i].Slots();
    FreeIffClear(used, l, n);
    assert l !in used;
    assert l < max < 32;
    assert l + n > max ==> max in used;
    forall j | j in done ensures Apart(vars[i], vars[j]) {
      assert Inside(vars[j], max);
      var b: nat := if l < vars[j].location then vars[j].location else l;
      assert vars[j].location <= b < vars[j].location + vars[j].Slots() ==> b in used;
    }
  }

  predicate Covers(v: Var, b: nat) {
    v.location <= b < v.location + v.Slots()
  }

  /** Nothing else is marked used. */
  ghost predicate Exact(vars: seq<Var>, done: set<nat>, used: Mask, max: nat) {
    forall b :: b in used ==>
      b < 32 && (max >= 32 || max <= b || exists i :: i in done && i < |vars| && Covers(vars[i], b))
  }

  lemma AllocateExact(vars: seq<Var>, done: set<nat>, used: Mask, max: nat, i: nat)
    requires Exact(vars, done, used, max) && i < |vars| && 0 <= vars[i].location
    ensures Exact(vars, done + {i}, used + Bits(vars[i].location, vars[i].Slots()), max)
  {
    forall b | b in used + Bits(vars[i].location, vars[i].Slots())
      ensures b < 32 && (max >= 32 || max <= b || exists j :: j in done + {i} && j < |vars| && Covers(vars[j], b))
    {
      if b in used && max < 32 && b < max {
        var j :| j in done && j < |vars| && Covers(vars[j], b);
        assert j in done + {i};
      } else if b in Bits(vars[i].location, vars[i].Slots()) {
        assert i in done + {i} && Covers(vars[i], b);
      }
    }
  }

  /** A run that meets a used bit leaves the locations or overlaps another variable. */
  lemma Conflict(vars: seq<Var>, done: set<nat>, used: Mask, max: nat, i: nat)
    requires Exact(vars, done, used, max) && i < |vars| && i !in done && 0 <= vars[i].location
    requires Bits(vars[i].location, vars[i].Slots()) * used != {}
    ensures max >= 32 || !Inside(vars[i], max) || exists j :: j in done && j < |vars| && !Apart(vars[i], vars[j])
  {
    var b :| b in Bits(vars[i].location, vars[i].Slots()) * used;
    if max < 32 && b < max {
      var j :| j in done && j < |vars| && Covers(vars[j], b);
      assert !Apart(vars[i], vars[j]);
    }
  }

  // ---------------------------------------------------------------- why an automatic input finds no room

  /** Slot b belongs to an input that has a location, or is kept free for gl_Vertex. */
  ghost predicate Taken(vars: seq<Var>, zeroTaken: bool, b: nat) {
    (zeroTaken && b == 0) || exists i :: 0 <= i < |vars| && vars[i].location >= 0 && Covers(vars[i], b)
  }

  /** A run of n slots from base meets a taken one. */
  ghost predicate Meets(vars: seq<Var>, zeroTaken: bool, base: nat, n: nat) {
    exists b: nat :: base <= b < base + n && Taken(vars, zeroTaken, b)
  }

  /** Some input was left without a location, and every run of its size below max meets a taken slot. */
  ghost predicate Stuck(vars: seq<Var>, max: nat, zeroTaken: bool) {
    exists i :: 0 <= i < |vars| && vars[i].location < 0
                && forall base: nat :: base + vars[i].Slots() <= max ==> Meets(vars, zeroTaken, base, vars[i].Slots())
  }

  ghost predicate UsedIsTaken(vars: seq<Var>, zeroTaken: bool, used: Mask, max: nat) {
    forall b :: b in used && b < max ==> Taken(vars, zeroTaken, b)
  }

  lemma ExactIsTaken(vars: seq<Var>, used: Mask, max: nat, zeroTaken: bool)
    requires Exact(vars, Located(vars), used, max) && max < 32
    ensures UsedIsTaken(vars, zeroTaken, if zeroTaken then used + {0} else used, max)
  {
    forall b | b in used && b < max ensures Taken(vars, zeroTaken, b) {
      var i :| i in Located(vars) && i < |vars| && Covers(vars[i], b);
    }
  }

  lemma TakenLonger(vars: seq<Var>, zeroTaken: bool, used: Mask, max: nat, i: nat, base: nat)
    requires UsedIsTaken(vars, zeroTaken, used, max) && i < |vars| && vars[i].location < 0
    ensures var v := vars[i].(location := base);
            UsedIsTaken(vars[i := v], zeroTaken, used + Bits(base, v.Slots()), max)
  {
    var v := vars[i].(location := base);
    var vars' := vars[i := v];
    forall b | b in used + Bits(base, v.Slots()) && b < max ensures Taken(vars', zeroTaken, b) {
      if b in Bits(base, v.Slots()) {
        assert vars'[i].location >= 0 && Covers(vars'[i], b);
      } else if !(zeroTaken && b == 0) {
        var j :| 0 <= j < |vars| && vars[j].location >= 0 && Covers(vars[j], b);
        assert vars'[j] == vars[j];
      }
    }
  }

  lemma NoRoomIsStuck(vars: seq<Var>, zeroTaken: bool, used: Mask, max: nat, i: nat)
    requires UsedIsTaken(vars, zeroTaken, used, max) && max < 32 && i < |vars| && vars[i].location < 0
    requires forall b: nat :: !FreeAt(used, b, vars[i].Slots())
    ensures Stuck(vars, max, zeroTaken)
  {
    var n := vars[i].Slots();
    forall base: nat | base + n <= max ensures Meets(vars, zeroTaken, base, n) {
      assert !FreeAt(used, base, n);
      var b: nat :| base <= b < base + n && b in used;
      assert Taken(vars, zeroTaken, b);
    }
  }

  lemma AllPlaced(vars: seq<Var>, done: set<nat>, used: Mask, max: nat)
    requires Kept(vars, done, used, max) && forall i :: 0 <= i < |vars| ==> i in done
    ensures Placed(vars, max)
  {
  }

  /** The fixed locations are possible: none is negative, and they fit and are apart. */
  predicate WantedOk(vars: seq<Var>, params: seq<Param>, max: nat) {
    && (forall i :: 0 <= i < |vars| && vars[i].explicit ==> vars[i].location >= 0)
    && (forall i :: 0 <= i < |vars| && Wanted(vars[i], params) >= 0 ==>
          max < 32 && Inside(vars[i].(location := Wanted(vars[i], params)), max))
    && (forall i, j :: 0 <= i < j < |vars| && Wanted(vars[i], params) >= 0 && Wanted(vars[j], params) >= 0 ==>
          Apart(vars[i].(location := Wanted(vars[i], params)), vars[j].(location := Wanted(vars[j], params))))
  }

  predicate NoneWanted(vars: seq<Var>, params: seq<Param>) {
    forall i :: 0 <= i < |vars| ==> !vars[i].explicit && Wanted(vars[i], params) < 0
  }

  predicate DistinctParams(params: seq<Param>) {
    forall i, j :: 0 <= i < j < |params| ==> params[i].name != params[j].name
  }

  predicate SameBinds(ps: seq<Param>, qs: seq<Param>) {
    |ps| == |qs| && forall k :: 0 <= k < |ps| ==> qs[k].name == ps[k].name && qs[k].bindLocation == ps[k].bindLocation
  }

  lemma {:induction false} SameFind(ps: seq<Param>, qs: seq<Param>, name: string)
    requires SameBinds(ps, qs)
    ensures Find(qs, name) == Find(ps, name) && Bound(qs, name) == Bound(ps, name)
  {
    if ps != [] {
      var n := |ps| - 1;
      assert SameBinds(ps[..n], qs[..n]);
      if ps[n].name != name { SameFind(ps[..n], qs[..n], name); }
    }
  }

  /** The variables that have a location. */
  function Located(vars: seq<Var>): set<nat> {
    set i | 0 <= i < |vars| && vars[i].location >= 0
  }

  /** Pass 1 has reached the variable called name when it has done the first k parameters. */
  predicate Seen(params: seq<Param>, name: string, k: nat) {
    Find(params, name).Some? && Find(params, name).value < k
  }

  function Done(vars0: seq<Var>, params0: seq<Param>, k: nat, vars: seq<Var>): set<nat>
    requires |vars0| == |vars|
  {
    set i | 0 <= i < |vars| && Seen(params0, vars0[i].name, k) && vars[i].location >= 0
  }

  /** The state of pass 1 before parameter k. */
  ghost predicate Binding(vars0: seq<Var>, params0: seq<Param>, k: nat, vars: seq<Var>, params: seq<Param>, used: Mask,
                          max: nat)
  {
    && SameVars(vars0, vars) && SameBinds(params0, params)
    && (forall i :: 0 <= i < |vars| ==>
          vars[i].location == if Seen(params0, vars0[i].name, k) then Wanted(vars0[i], params0) else vars0[i].location)
    && Kept(vars, Done(vars0, params0, k, vars), used, max) && Exact(vars, Done(vars0, params0, k, vars), used, max)
  }

  lemma SeenNext(params: seq<Param>, name: string, k: nat)
    requires DistinctParams(params) && k < |params|
    ensures Seen(params, name, k + 1) <==> Seen(params, name, k) || name == params[k].name
    ensures name == params[k].name ==> Find(params, name) == Some(k) && Bound(params, name) == params[k].bindLocation
  {
  }

  /** A parameter that names no vertex input. */
  lemma BindNothing(vars0: seq<Var>, params0: seq<Param>, k: nat, vars: seq<Var>, params: seq<Param>, used: Mask, max: nat)
    requires DistinctParams(params0) && k < |params0| && Binding(vars0, params0, k, vars, params, used, max)
    requires forall i :: 0 <= i < |vars| ==> vars[i].name != params0[k].name
    ensures Binding(vars0, params0, k + 1, vars, params, used, max)
  {
    forall i | 0 <= i < |vars0| ensures Seen(params0, vars0[i].name, k + 1) == Seen(params0, vars0[i].name, k) {
      SeenNext(params0, vars0[i].name, k);
    }
    assert Done(vars0, params0, k + 1, vars) == Done(vars0, params0, k, vars);
  }

  lemma DoneNext(vars0: seq<Var>, params0: seq<Param>, k: nat, vars: seq<Var>, i: nat, v: Var)
    requires DistinctParams(params0) && DistinctNames(vars0) && k < |params0| && i < |vars0| == |vars|
    requires vars0[i].name == params0[k].name
    ensures Done(vars0, params0, k + 1, vars[i := v]) == Done(vars0, params0, k, vars) + (if v.location >= 0 then {i} else {})
    ensures i !in Done(vars0, params0, k, vars)
    ensures forall j :: 0 <= j < |vars0| && j != i ==> Seen(params0, vars0[j].name, k + 1) == Seen(params0, vars0[j].name, k)
    ensures Seen(params0, vars0[i].name, k + 1)
  {
    forall j | 0 <= j < |vars0| {
      SeenNext(params0, vars0[j].name, k);
    }
  }

  lemma KeptWith(vars: seq<Var>, done: set<nat>, used: Mask, max: nat, i: nat, v: Var)
    requires Kept(vars, done, used, max) && Exact(vars, done, used, max) && i < |vars| && i !in done
    ensures Kept(vars[i := v], done, used, max) && Exact(vars[i := v], done, used, max)
  {
    forall b | b in used
      ensures b < 32 && (max >= 32 || max <= b || exists j :: j in done && j < |vars| && Covers(vars[i := v][j], b))
    {
      if max < 32 && b < max {
        var j :| j in done && j < |vars| && Covers(vars[j], b);
        assert Covers(vars[i := v][j], b);
      }
    }
  }

  /** Parameter k names variable i, which gets location v.location. */
  lemma BindOne(vars0: seq<Var>, params0: seq<Param>, k: nat, vars: seq<Var>, params: seq<Param>, used: Mask, max: nat,
                i: nat, v: Var, p: Param)
    requires DistinctParams(params0) && DistinctNames(vars0) && SmallTypes(vars0) && k < |params0|
    requires Binding(vars0, params0, k, vars, params, used, max)
    requires i < |vars| && vars[i].name == params0[k].name && v == vars[i].(location := Wanted(vars0[i], params0))
    requires v.location < 32 && p.name == params0[k].name && p.bindLocation == params0[k].bindLocation
    ensures v.location < 0 ==> Binding(vars0, params0, k + 1, vars[i := v], params[k := p], used, max)
    ensures v.location >= 0 && Bits(v.location, v.Slots()) * used == {} ==>
              Binding(vars0, params0, k + 1, vars[i := v], params[k := p], used + Bits(v.location, v.Slots()), max)
    ensures v.location >= 0 && Bits(v.location, v.Slots()) * used != {} ==> !WantedOk(vars0, params0, max)
  {
    var done := Done(vars0, params0, k, vars);
    var vars' := vars[i := v];
    DoneNext(vars0, params0, k, vars, i, v);
    KeptWith(vars, done, used, max, i, v);
    assert SmallTypes(vars') by { assert forall j :: 0 <= j < |vars| ==> vars'[j].Slots() == vars0[j].Slots(); }
    if v.location >= 0 {
      if Bits(v.location, v.Slots()) * used == {} {
        Allocate(vars', done, used, max, i);
        AllocateExact(vars', done, used, max, i);
      } else {
        Conflict(vars', done, used, max, i);
        ConflictWanted(vars0, params0, k, vars', done, max, i);
      }
    }
  }

  lemma ConflictWanted(vars0: seq<Var>, params0: seq<Param>, k: nat, vars: seq<Var>, done: set<nat>, max: nat, i: nat)
    requires SameVars(vars0, vars) && i < |vars| && i !in done
    requires vars[i].location == Wanted(vars0[i], params0) >= 0
    requires forall j :: j in done ==> j < |vars| && vars[j].location == Wanted(vars0[j], params0) >= 0
    requires max >= 32 || !Inside(vars[i], max) || exists j :: j in done && j < |vars| && !Apart(vars[i], vars[j])
    ensures !WantedOk(vars0, params0, max)
  {
    assert forall j :: 0 <= j < |vars| ==> vars[j] == vars0[j].(location := vars[j].location);
    if max < 32 && Inside(vars[i], max) {
      var j :| j in done && j < |vars| && !Apart(vars[i], vars[j]);
      assert vars[i] == vars0[i].(location := Wanted(vars0[i], params0));
      assert vars[j] == vars0[j].(location := Wanted(vars0[j], params0));
      if i < j { assert !Apart(vars[i], vars[j]); } else { assert !Apart(vars[j], vars[i]); }
    }
  }

  lemma KeptUpdate(vars: seq<Var>, done: set<nat>, used: Mask, max: nat, i: nat, v: Var)
    requires Kept(vars, done, used, max) && i < |vars| && i !in done
    ensures Kept(vars[i := v], done, used, max)
  {
  }

  lemma LocatedNext(vars: seq<Var>, i: nat, v: Var)
    requires i < |vars| && vars[i].location < 0 && v.location >= 0
    ensures Located(vars[i := v]) == Located(vars) + {i} && i !in Located(vars)
  {
  }

  /** Pass 4 gives variable i the free run that was found. */
  lemma AssignOne(vars: seq<Var>, used: Mask, max: nat, i: nat, base: nat)
    requires SmallTypes(vars) && Kept(vars, Located(vars), used, max) && i < |vars| && vars[i].location < 0
    requires FreeAt(used, base, vars[i].Slots())
    ensures Kept(vars[i := vars[i].(location := base)], Located(vars[i := vars[i].(location := base)]),
                 used + Bits(base, vars[i].Slots()), max)
  {
    hide Kept, Located;
    var v := vars[i].(location := base);
    LocatedNext(vars, i, v);
    KeptUpdate(vars, Located(vars), used, max, i, v);
    FreeIffClear(used, base, v.Slots());
    assert SmallTypes(vars[i := v]) by { assert v.Slots() == vars[i].Slots(); }
    Allocate(vars[i := v], Located(vars), used, max, i);
  }

  /** With nothing fixed the used slots are a solid block from 0 to t. */
  ghost predicate Packed(used: Mask, t: nat, max: nat) {
    forall b: nat :: b in used <==> b < 32 && (b < t || max <= b)
  }

  lemma FirstFitPacked(used: Mask, t: nat, max: nat, n: nat, base: int)
    requires Packed(used, t, max) && t <= max < 32 && 1 <= n <= 31
    requires base >= 0 ==> FreeAt(used, base, n) && forall b: nat :: b < base ==> !FreeAt(used, b, n)
    requires base >= -1 && (base < 0 ==> forall b: nat :: !FreeAt(used, b, n))
    ensures base == if t + n <= max then t else -1
    ensures base >= 0 ==> Packed(used + Bits(t, n), t + n, max)
  {
    assert t + n <= max ==> FreeAt(used, t, n);
    if base >= 0 {
      assert base !in used && base >= t;
      assert base + n > max ==> max !in used;
      assert base + n <= max;
      assert base <= t;
    }
  }

  function SlotSum(list: seq<nat>, vars: seq<Var>): nat
    requires forall k :: 0 <= k < |list| ==> list[k] < |vars|
  {
    if list == [] then 0 else SlotSum(list[..|list| - 1], vars) + vars[list[|list| - 1]].Slots()
  }

  lemma {:induction false} SlotSumRemove(list: seq<nat>, vars: seq<Var>, k: nat)
    requires forall j :: 0 <= j < |list| ==> list[j] < |vars|
    requires k < |list|
    ensures SlotSum(list, vars) == SlotSum(list[..k] + list[k + 1..], vars) + vars[list[k]].Slots()
  {
    var n := |list| - 1;
    var without := list[..k] + list[k + 1..];
    if k == n {
      assert without == list[..n];
    } else {
      SlotSumRemove(list[..n], vars, k);
      assert without[..|without| - 1] == list[..n][..k] + list[..n][k + 1..];
      assert without[|without| - 1] == list[n];
    }
  }

  lemma RemovedOne(b: seq<nat>, k: nat)
    requires k < |b|
    ensures multiset(b[..k] + b[k + 1..]) == multiset(b) - multiset{b[k]}
  {
    assert b == b[..k] + ([b[k]] + b[k + 1..]);
  }

  lemma IndexIn(a: seq<nat>, n: nat, b: seq<nat>) returns (k: nat)
    requires n < |a| && multiset(a) == multiset(b)
    ensures k < |b| && b[k] == a[n]
  {
    assert a[n] in multiset(b);
    k :| k < |b| && b[k] == a[n];
  }

  /** The order of the list does not change the sum. */
  lemma {:induction false} SlotSumPermuted(a: seq<nat>, b: seq<nat>, vars: seq<Var>)
    requires multiset(a) == multiset(b)
    requires forall j :: 0 <= j < |a| ==> a[j] < |vars|
    requires forall j :: 0 <= j < |b| ==> b[j] < |vars|
    ensures SlotSum(a, vars) == SlotSum(b, vars)
    decreases |a|
  {
    hide CountAttributeSlots;
    if a == [] {
      assert |b| == |multiset(b)| == |multiset(a)| == 0;
    } else {
      var n := |a| - 1;
      var k := IndexIn(a, n, b);
      RemovedOne(a, n);
      RemovedOne(b, k);
      assert a[..n] + a[n + 1..] == a[..n];
      SlotSumPermuted(a[..n], b[..k] + b[k + 1..], vars);
      SlotSumRemove(b, vars, k);
    }
  }

  function Total(vars: seq<Var>): nat {
    if vars == [] then 0 else Total(vars[..|vars| - 1]) + vars[|vars| - 1].Slots()
  }

  /** The indices 0 to n in order. */
  function Indices(n: nat): seq<nat> {
    seq(n, i => i)
  }

  lemma {:induction false} TotalIsSum(vars: seq<Var>, n: nat)
    requires n <= |vars|
    ensures SlotSum(Indices(n), vars) == Total(vars[..n])
  {
    if n > 0 {
      TotalIsSum(vars, n - 1);
      assert Indices(n)[..n - 1] == Indices(n - 1);
      assert vars[..n][..n - 1] == vars[..n - 1];
    }
  }

  lemma {:induction false} SameSlotSum(list: seq<nat>, vars: seq<Var>, vars': seq<Var>)
    requires SameVars(vars, vars') && forall k :: 0 <= k < |list| ==> list[k] < |vars|
    ensures SlotSum(list, vars') == SlotSum(list, vars)
  {
    if list != [] {
      SameSlotSum(list[..|list| - 1], vars, vars');
      assert SameVar(vars[list[|list| - 1]], vars'[list[|list| - 1]]);
    }
  }

  predicate Descending(list: seq<nat>, vars: seq<Var>) {
    && (forall k :: 0 <= k < |list| ==> list[k] < |vars|)
    && (forall j, k :: 0 <= j < k < |list| ==> vars[list[j]].Slots() >= vars[list[k]].Slots())
  }

  function Inserted(sorted: seq<nat>, p: nat, x: nat): (longer: seq<nat>)
    requires p <= |sorted|
    ensures |longer| == |sorted| + 1
    ensures forall k :: 0 <= k < |longer| ==> longer[k] == if k < p then sorted[k] else if k == p then x else sorted[k - 1]
  {
    sorted[..p] + [x] + sorted[p..]
  }

  lemma InsertedAt(sorted: seq<nat>, p: nat, x: nat, vars: seq<Var>)
    requires Descending(sorted, vars) && x < |vars| && p <= |sorted|
    requires forall k :: 0 <= k < p ==> vars[sorted[k]].Slots() >= vars[x].Slots()
    requires p < |sorted| ==> vars[sorted[p]].Slots() <= vars[x].Slots()
    ensures Descending(Inserted(sorted, p, x), vars)
  {
    var longer := Inserted(sorted, p, x);
    hide CountAttributeSlots, Inserted;
    forall j, k | 0 <= j < k < |longer| ensures vars[longer[j]].Slots() >= vars[longer[k]].Slots() {
      if k == p {
        assert longer[j] == sorted[j];
      } else if j == p {
        assert vars[sorted[p]].Slots() >= vars[sorted[k - 1]].Slots();
      }
    }
  }

  lemma InsertedMembers(sorted: seq<nat>, p: nat, x: nat)
    requires p <= |sorted|
    ensures multiset(Inserted(sorted, p, x)) == multiset(sorted) + multiset{x}
  {
    assert sorted == sorted[..p] + sorted[p..];
  }

  method InsertBySlots(sorted: seq<nat>, x: nat, vars: seq<Var>) returns (longer: seq<nat>)
    requires Descending(sorted, vars) && x < |vars|
    ensures Descending(longer, vars) && multiset(longer) == multiset(sorted) + multiset{x}
  {
    hide CountAttributeSlots;
    var p := 0;
    while p < |sorted| && vars[sorted[p]].Slots() >= vars[x].Slots()
      invariant 0 <= p <= |sorted|
      invariant forall k :: 0 <= k < p ==> vars[sorted[k]].Slots() >= vars[x].Slots()
    {
      p := p + 1;
    }
    InsertedAt(sorted, p, x, vars);
    InsertedMembers(sorted, p, x);
    longer := Inserted(sorted, p, x);
  }

  /** qsort by slots, largest first; callers rely only on the contract, so on no order among equals. */
  method SortBySlots(list: seq<nat>, vars: seq<Var>) returns (sorted: seq<nat>)
    requires forall k :: 0 <= k < |list| ==> list[k] < |vars|
    ensures multiset(sorted) == multiset(list) && Descending(sorted, vars)
  {
    sorted := [];
    for i := 0 to |list|
      invariant multiset(sorted) == multiset(list[..i]) && Descending(sorted, vars)
    {
      assert list[..i + 1] == list[..i] + [list[i]];
      sorted := InsertBySlots(sorted, list[i], vars);
    }
    assert list[..|list|] == list;
  }

  lemma BindStart(vars: seq<Var>, params: seq<Param>, used: Mask, max: nat)
    requires used == if max >= 32 then Bits(0, 32) else Bits(max, 32 - max)
    ensures Binding(vars, params, 0, vars, params, used, max)
  {
    assert Done(vars, params, 0, vars) == {};
  }

  lemma BindFacts(vars0: seq<Var>, params0: seq<Param>, k: nat, vars: seq<Var>, params: seq<Param>, used: Mask, max: nat)
    requires Binding(vars0, params0, k, vars, params, used, max) && k < |params0|
    ensures |params| == |params0| && params[k].name == params0[k].name && params[k].bindLocation == params0[k].bindLocation
    ensures SameVars(vars0, vars)
  {
  }

  /** What the branches of pass 1 compute is the wanted location. */
  lemma WantedHere(vars0: seq<Var>, params0: seq<Param>, k: nat, vars: seq<Var>, params: seq<Param>, used: Mask, max: nat,
                   i: nat)
    requires DistinctParams(params0) && k < |params0| && Binding(vars0, params0, k, vars, params, used, max)
    requires i < |vars| && vars[i].name == params[k].name
    requires params0[k].bindLocation < 32 && vars0[i].location < 32
    ensures Wanted(vars0[i], params0) < 32 && vars[i].explicit == vars0[i].explicit
    ensures Wanted(vars0[i], params0)
            == if params[k].bindLocation >= 0 && !vars[i].explicit then params[k].bindLocation
               else if vars[i].explicit then vars[i].location else -1
  {
    SeenNext(params0, vars0[i].name, k);
    assert SameVar(vars0[i], vars[i]);
  }

  predicate Ascending(list: seq<nat>) {
    forall j, k :: 0 <= j < k < |list| ==> list[j] < list[k]
  }

  lemma LocatedInside(vars: seq<Var>, used: Mask, max: nat, i: nat)
    requires SmallTypes(vars) && Kept(vars, Located(vars), used, max) && i < |vars|
    ensures vars[i].location >= 0 ==> vars[i].location < max
  {
    assert vars[i].location >= 0 ==> i in Located(vars);
  }

  lemma AlreadyUsed(vars: seq<Var>, used: Mask, max: nat, i: nat)
    requires Kept(vars, Located(vars), used, max) && i < |vars| && vars[i].location >= 0
    ensures used + Bits(vars[i].location, vars[i].Slots()) == used
  {
    assert i in Located(vars);
    forall b | b in Bits(vars[i].location, vars[i].Slots()) ensures b in used {
    }
  }

  /** The sum over a whole list is at least the sum up to t and the slots of element t. */
  lemma {:induction false} SlotSumGrows(list: seq<nat>, vars: seq<Var>, t: nat)
    requires t < |list| && forall k :: 0 <= k < |list| ==> list[k] < |vars|
    ensures SlotSum(list[..t + 1], vars) == SlotSum(list[..t], vars) + vars[list[t]].Slots()
    ensures SlotSum(list[..t + 1], vars) <= SlotSum(list, vars)
  {
    assert list[..t + 1][..t] == list[..t];
    if t + 1 == |list| {
      assert list[..t + 1] == list;
    } else {
      var n := |list| - 1;
      SlotSumGrows(list[..n], vars, t);
      assert list[..n][..t + 1] == list[..t + 1] && list[..n][..t] == list[..t];
    }
  }

  /** The state of pass 4 before element t of the list. */
  ghost predicate Assigning(vars0: seq<Var>, vars: seq<Var>, used0: Mask, used: Mask, list: seq<nat>, t: nat, max: nat) {
    && t <= |list| && used0 <= used && SmallTypes(vars) && SameVars(vars0, vars) && Kept(vars, Located(vars), used, max)
    && (forall i: nat :: i < |vars| && i !in list[..t] ==> vars[i] == vars0[i])
    && (forall k :: 0 <= k < t ==> list[k] < |vars| && vars[list[k]].location >= 0 && vars[list[k]].location !in used0)
  }

  ghost predicate PackedAt(used: Mask, start: nat, list: seq<nat>, t: nat, vars0: seq<Var>, max: nat)
    requires t <= |list| && forall k :: 0 <= k < |list| ==> list[k] < |vars0|
  {
    Packed(used, start + SlotSum(list[..t], vars0), max) && start + SlotSum(list[..t], vars0) <= max < 32
  }

  lemma AssignFacts(vars0: seq<Var>, vars: seq<Var>, used0: Mask, used: Mask, list: seq<nat>, t: nat, max: nat)
    requires Assigning(vars0, vars, used0, used, list, t, max) && t < |list| && list[t] < |vars|
    requires forall j, k :: 0 <= j < k < |list| ==> list[j] != list[k]
    ensures vars[list[t]] == vars0[list[t]] && 1 <= vars[list[t]].Slots() <= 31
    ensures SameVars(vars0, vars)
  {
  }

  lemma AssignStep(vars0: seq<Var>, vars: seq<Var>, used0: Mask, used: Mask, list: seq<nat>, t: nat, max: nat, base: nat)
    requires Assigning(vars0, vars, used0, used, list, t, max) && t < |list| && list[t] < |vars|
    requires vars[list[t]].location < 0 && FreeAt(used, base, vars[list[t]].Slots())
    ensures var v := vars[list[t]].(location := base);
            Assigning(vars0, vars[list[t] := v], used0, used + Bits(base, v.Slots()), list, t + 1, max)
  {
    var i := list[t];
    var v := vars[i].(location := base);
    AssignOne(vars, used, max, i, base);
    assert list[..t + 1] == list[..t] + [i];
    assert SmallTypes(vars[i := v]) by { assert v.Slots() == vars[i].Slots(); }
    assert base !in used by { assert base <= base < base + v.Slots(); }
  }

  lemma AssignEnd(vars0: seq<Var>, vars: seq<Var>, used0: Mask, used: Mask, list: seq<nat>, max: nat)
    requires Assigning(vars0, vars, used0, used, list, |list|, max)
    ensures SameVars(vars0, vars)
    ensures forall i: nat :: i < |vars| && i !in list ==> vars[i] == vars0[i]
    ensures used0 <= used && Kept(vars, Located(vars), used, max)
    ensures forall k :: 0 <= k < |list| ==>
              list[k] < |vars| && vars[list[k]].location >= 0 && vars[list[k]].location !in used0
  {
    assert list[..|list|] == list;
  }

  lemma PackedStep(used: Mask, start: nat, list: seq<nat>, t: nat, vars0: seq<Var>, max: nat, n: nat, base: int)
    requires t < |list| && (forall k :: 0 <= k < |list| ==> list[k] < |vars0|) && PackedAt(used, start, list, t, vars0, max)
    requires n == vars0[list[t]].Slots() && 1 <= n <= 31
    requires base >= 0 ==> FreeAt(used, base, n) && forall b: nat :: b < base ==> !FreeAt(used, b, n)
    requires base >= -1 && (base < 0 ==> forall b: nat :: !FreeAt(used, b, n))
    ensures base < 0 ==> start + SlotSum(list, vars0) > max
    ensures base >= 0 ==> PackedAt(used + Bits(base, n), start, list, t + 1, vars0, max)
  {
    SlotSumGrows(list, vars0, t);
    FirstFitPacked(used, start + SlotSum(list[..t], vars0), max, n, base);
  }

  lemma PackedEnd(used: Mask, start: nat, list: seq<nat>, vars0: seq<Var>, max: nat)
    requires (forall k :: 0 <= k < |list| ==> list[k] < |vars0|) && PackedAt(used, start, list, |list|, vars0, max)
    ensures start + SlotSum(list, vars0) <= max
  {
    assert list[..|list|] == list;
  }

  /** The list of the variables before i that have no location. */
  /** The parameters before k that name an input have its number of slots and, if it has one, its location. */
  predicate Booked(vars: seq<Var>, params: seq<Param>, k: nat) {
    && DistinctNames(vars) && DistinctParams(params)
    && (forall i, j :: 0 <= i < |vars| && 0 <= j < |params| && j < k && params[j].name == vars[i].name ==>
          params[j].slots == vars[i].Slots() && (vars[i].location >= 0 ==> params[j].location == vars[i].location))
  }

  lemma NothingBooked(vars: seq<Var>, params: seq<Param>)
    requires DistinctNames(vars) && DistinctParams(params)
    ensures Booked(vars, params, 0)
  {
  }

  /** A parameter that names no input. */
  lemma BookedSkip(vars: seq<Var>, params: seq<Param>, k: nat)
    requires Booked(vars, params, k) && k < |params| && forall i :: 0 <= i < |vars| ==> vars[i].name != params[k].name
    ensures Booked(vars, params, k + 1)
  {
    hide CountAttributeSlots;
  }

  /** Parameter k names input i, and both get their location. */
  lemma BookedOne(vars: seq<Var>, params: seq<Param>, k: nat, i: nat, v: Var, p: Param)
    requires Booked(vars, params, k) && k < |params| && i < |vars| && SameVar(vars[i], v)
    requires params[k].name == vars[i].name == p.name
    requires p.slots == v.Slots() && (v.location >= 0 ==> p.location == v.location)
    ensures Booked(vars[i := v], params[k := p], k + 1)
  {
    hide CountAttributeSlots;
    assert v.name == vars[i].name;
  }

  /** Input i gets a location that its parameter, if there is one, remembers. */
  lemma BookedNext(vars: seq<Var>, params: seq<Param>, params': seq<Param>, i: nat, base: nat)
    requires Booked(vars, params, |params|) && i < |vars| && |params'| == |params|
    requires forall k :: 0 <= k < |params| ==>
               params'[k] == if Find(params, vars[i].name) == Some(k) then params[k].(location := base) else params[k]
    ensures Booked(vars[i := vars[i].(location := base)], params', |params'|)
  {
    hide CountAttributeSlots;
    var vars' := vars[i := vars[i].(location := base)];
    forall k | 0 <= k < |params| && params[k].name == vars[i].name ensures Find(params, vars[i].name) == Some(k) {
      var r := FindBy(params, NameOf, vars[i].name);
      assert r.Some? && params[r.value].name == vars[i].name;
    }
    assert forall j :: 0 <= j < |vars| && j != i ==> vars[j].name != vars[i].name;
  }

  ghost predicate Collected(vars: seq<Var>, i: nat, list: seq<nat>) {
    && i <= |vars| && Ascending(list)
    && (forall j: nat :: j in list <==> j < i && vars[j].location < 0)
    && ((forall j :: 0 <= j < i ==> vars[j].location < 0) ==> list == Indices(i))
  }

  lemma NothingCollected(vars: seq<Var>)
    ensures Collected(vars, 0, [])
  {
  }

  lemma CollectNext(vars: seq<Var>, i: nat, list: seq<nat>)
    requires Collected(vars, i, list) && i < |vars|
    ensures Collected(vars, i + 1, if vars[i].location < 0 then list + [i] else list)
  {
    IndicesNext(i);
    hide Indices;
    var longer := list + [i];
    if vars[i].location < 0 {
      forall j, k | 0 <= j < k < |longer| ensures longer[j] < longer[k] {
        if k == |list| { assert list[j] in list; }
      }
      forall j: nat ensures j in longer <==> j < i + 1 && vars[j].location < 0 {
        assert j in longer <==> j in list || j == i;
      }
    }
  }

  lemma IndicesNext(i: nat)
    ensures Indices(i + 1) == Indices(i) + [i]
  {
  }

  lemma CollectedAll(vars: seq<Var>, list: seq<nat>)
    requires Collected(vars, |vars|, list)
    ensures Ascending(list) && (forall i: nat :: i in list <==> i < |vars| && vars[i].location < 0)
    ensures (forall i :: 0 <= i < |vars| ==> vars[i].location < 0) ==> list == Indices(|vars|)
  {
  }

  class Program {
    var vars: seq<Var>
    var params: seq<Param>

    constructor (vars: seq<Var>, params: seq<Param>)
      ensures this.vars == vars && this.params == params
    {
      this.vars, this.params := vars, params;
    }

    /** Names are unique, types take 1 to 31 slots and fixed locations are below 32. */
    predicate Valid()
      reads this
    {
      && DistinctNames(vars) && SmallTypes(vars) && DistinctParams(params)
      && (forall i :: 0 <= i < |vars| ==> vars[i].location < 32)
      && (forall k :: 0 <= k < |params| ==> params[k].bindLocation < 32)
    }

    /** Declares the inputs the application has not bound. */
    method DeclareInputs()
      requires Valid()
      modifies this`params
      ensures Valid()
      ensures forall i :: 0 <= i < |vars| ==> Find(params, vars[i].name).Some?
      ensures forall name :: Bound(params, name) == Bound(old(params), name)
    {
      for i := 0 to |vars|
        invariant Valid()
        invariant forall j :: 0 <= j < i ==> Find(params, vars[j].name).Some?
        invariant forall name :: Bound(params, name) == Bound(old(params), name)
      {
        if Find(params, vars[i].name).None? {
          params := params + [Param(vars[i].name, -1, -1, 0)];
        }
      }
    }

    /** Pass 1 for one parameter. */
    method BindParam(k: nat, used0: Mask, max: nat, ghost vars0: seq<Var>, ghost params0: seq<Param>)
      returns (ok: bool, used: Mask)
      requires k < |params| && Binding(vars0, params0, k, vars, params, used0, max) && Booked(vars, params, k)
      requires DistinctNames(vars0) && SmallTypes(vars0) && DistinctParams(params0)
      requires forall i :: 0 <= i < |vars0| ==> vars0[i].location < 32
      requires forall j :: 0 <= j < |params0| ==> params0[j].bindLocation < 32
      modifies this
      ensures |params| == old(|params|) && SameVars(vars0, vars)
      ensures ok ==> Binding(vars0, params0, k + 1, vars, params, used, max) && Booked(vars, params, k + 1)
      ensures !ok ==> !WantedOk(vars0, params0, max)
    {
      BindFacts(vars0, params0, k, vars, params, used0, max);
      hide Binding, WantedOk, Wanted, Bits, CountAttributeSlots, FindBy, Bound, DistinctNames, DistinctParams,
           SmallTypes, SameBinds, Booked;
      ok, used := true, used0;
      var p := params[k];
      var found := FindBy(vars, (v: Var) => v.name, p.name);
      if found.None? {
        BindNothing(vars0, params0, k, vars, params, used, max);
        BookedSkip(vars, params, k);
        return;
      }
      var i := found.value;
      WantedHere(vars0, params0, k, vars, params, used, max, i);
      var v := vars[i];
      if p.bindLocation >= 0 && !v.explicit {
        v := v.(location := p.bindLocation);
      } else if !v.explicit {
        v := v.(location := -1);
      }
      p := p.(location := if v.location >= 0 || v.explicit then v.location else p.location, slots := v.Slots());
      BindOne(vars0, params0, k, vars, params, used, max, i, v, p);
      BookedOne(vars, params, k, i, v, p);
      vars := vars[i := v];
      params := params[k := p];
      if v.location < 0 {
        return;
      }
      var useMask := Bits(v.location, v.Slots());
      if useMask * used != {} {
        return false, used;
      }
      used := used + useMask;
    }

    /** Pass 1: the locations bound by the application and the explicit ones. */
    method BindLocations(max: nat) returns (ok: bool, used: Mask)
      requires Valid() && forall i :: 0 <= i < |vars| ==> Find(params, vars[i].name).Some?
      modifies this
      ensures ok ==> Binding(old(vars), old(params), |params|, vars, params, used, max) && Booked(vars, params, |params|)
      ensures !ok ==> !WantedOk(old(vars), old(params), max)
      ensures SameVars(old(vars), vars)
    {
      NothingBooked(vars, params);
      hide Binding, WantedOk, Booked, Wanted, Find, Bound, Kept, Exact;
      ghost var vars0, params0 := vars, params;
      used := if max >= 32 then Bits(0, 32) else Bits(max, 32 - max);
      ok := true;
      BindStart(vars0, params0, used, max);
      assert SameVars(vars0, vars);
      hide Bits, CountAttributeSlots, DistinctNames, DistinctParams, SmallTypes, SameVars, SameVar;
      for k := 0 to |params|
        invariant |params| == |params0| && SameVars(vars0, vars)
        invariant Binding(vars0, params0, k, vars, params, used, max) && Booked(vars, params, k)
      {
        ok, used := BindParam(k, used, max, vars0, params0);
        if !ok {
          return;
        }
      }
    }

    /** Pass 2: checks the explicit locations and lists the variables that still need one. */
    method CollectInputs(max: nat, used0: Mask) returns (ok: bool, used: Mask, toAssign: seq<nat>)
      requires SmallTypes(vars) && Kept(vars, Located(vars), used0, max)
      requires forall i :: 0 <= i < |vars| ==> vars[i].location < 32 && (vars[i].explicit || vars[i].location >= -1)
      ensures ok <==> forall i :: 0 <= i < |vars| && vars[i].explicit ==> vars[i].location >= 0
      ensures ok ==> used == used0 && Ascending(toAssign)
      ensures ok ==> forall i: nat :: i in toAssign <==> i < |vars| && vars[i].location < 0
      ensures ok && (forall i :: 0 <= i < |vars| ==> vars[i].location < 0) ==> toAssign == Indices(|vars|)
    {
      hide CountAttributeSlots, Kept, Located, Bits, SmallTypes, Collected;
      ok, used := true, used0;
      toAssign := [];
      assert Collected(vars, 0, toAssign) by { NothingCollected(vars); }
      for i := 0 to |vars|
        invariant used == used0 && Collected(vars, i, toAssign)
        invariant forall j :: 0 <= j < i && vars[j].explicit ==> vars[j].location >= 0
      {
        CollectNext(vars, i, toAssign);
        var v := vars[i];
        if v.explicit {
          if v.location >= max || v.location < 0 {
            LocatedInside(vars, used0, max, i);
            return false, used, toAssign;
          }
          AlreadyUsed(vars, used0, max, i);
          used := used + Bits(v.location, v.Slots());
        }
        if v.location == -1 {
          toAssign := toAssign + [i];
        }
      }
      CollectedAll(vars, toAssign);
    }

    /** The parameter of the input remembers its location. */
    method RecordLocation(name: string, base: nat)
      modifies this`params
      ensures |params| == |old(params)| && forall k :: 0 <= k < |params| ==>
                params[k] == if Find(old(params), name) == Some(k) then old(params)[k].(location := base) else old(params)[k]
    {
      match Find(params, name)
      case None =>
      case Some(k) => params := params[k := params[k].(location := base)];
    }

    /** Pass 4 for element t of the list. */
    method AssignNext(t: nat, max: nat, used0: Mask, list: seq<nat>, ghost allUsed: Mask, ghost vars0: seq<Var>,
                      ghost start: nat, ghost zeroTaken: bool) returns (ok: bool, used: Mask)
      requires t < |list| && Assigning(vars0, vars, allUsed, used0, list, t, max) && Booked(vars, params, |params|)
      requires forall j, k :: 0 <= j < k < |list| ==> list[j] != list[k]
      requires forall k :: 0 <= k < |list| ==> list[k] < |vars0| == |vars| && vars0[list[k]].location < 0
      modifies this
      ensures SameVars(old(vars), vars)
      ensures !ok ==> vars == old(vars)
      ensures Booked(vars, params, |params|)
      ensures ok ==> Assigning(vars0, vars, allUsed, used, list, t + 1, max)
      ensures PackedAt(used0, start, list, t, vars0, max) ==>
                if ok then PackedAt(used, start, list, t + 1, vars0, max) else start + SlotSum(list, vars0) > max
      ensures UsedIsTaken(old(vars), zeroTaken, used0, max) && max < 32 ==>
                if ok then UsedIsTaken(vars, zeroTaken, used, max) else Stuck(vars, max, zeroTaken)
    {
      ghost var packed, taken := PackedAt(used0, start, list, t, vars0, max), UsedIsTaken(vars, zeroTaken, used0, max) && max < 32;
      hide Assigning, PackedAt, Kept, Packed, CountAttributeSlots, UsedIsTaken, Stuck, Booked;
      var i := list[t];
      AssignFacts(vars0, vars, allUsed, used0, list, t, max);
      var n := vars[i].Slots();
      var base := FindAvailableSlots(used0, n);
      if packed { PackedStep(used0, start, list, t, vars0, max, n, base); }
      if base < 0 {
        if taken { NoRoomIsStuck(vars, zeroTaken, used0, max, i); }
        return false, used0;
      }
      if taken { TakenLonger(vars, zeroTaken, used0, max, i, base); }
      AssignStep(vars0, vars, allUsed, used0, list, t, max, base);
      var v := vars[i].(location := base);
      ghost var before, named := vars, params;
      vars := vars[i := v];
      RecordLocation(v.name, base);
      BookedNext(before, named, params, i, base);
      return true, used0 + Bits(base, n);
    }

    /** Pass 4: first fit, in the order of the list. */
    method AssignRest(max: nat, used0: Mask, list: seq<nat>, ghost start: nat, ghost zeroTaken: bool) returns (ok: bool)
      requires SmallTypes(vars) && Kept(vars, Located(vars), used0, max) && Booked(vars, params, |params|)
      requires forall j, k :: 0 <= j < k < |list| ==> list[j] != list[k]
      requires forall k :: 0 <= k < |list| ==> list[k] < |vars| && vars[list[k]].location < 0
      modifies this
      ensures SameVars(old(vars), vars) && Booked(vars, params, |params|)
      ensures forall i :: 0 <= i < |vars| && i !in list ==> vars[i] == old(vars)[i]
      ensures ok ==> exists used :: used0 <= used && Kept(vars, Located(vars), used, max)
      ensures ok ==> forall k :: 0 <= k < |list| ==> vars[list[k]].location >= 0 && vars[list[k]].location !in used0
      ensures Packed(used0, start, max) && start <= max < 32 ==> (ok <==> start + SlotSum(list, old(vars)) <= max)
      ensures !ok && UsedIsTaken(old(vars), zeroTaken, used0, max) && max < 32 ==> Stuck(vars, max, zeroTaken)
    {
      ghost var vars0 := vars;
      var used := used0;
      ok := true;
      assert list[..0] == [];
      assert Assigning(vars0, vars, used0, used, list, 0, max);
      ghost var packed := Packed(used0, start, max) && start <= max < 32;
      assert packed ==> PackedAt(used, start, list, 0, vars0, max);
      ghost var taken := UsedIsTaken(vars, zeroTaken, used, max) && max < 32;
      hide Assigning, PackedAt, Kept, Packed, CountAttributeSlots, UsedIsTaken, Stuck, Booked;
      for t := 0 to |list|
        invariant ok && SameVars(vars0, vars) && Assigning(vars0, vars, used0, used, list, t, max)
        invariant Booked(vars, params, |params|)
        invariant taken ==> UsedIsTaken(vars, zeroTaken, used, max)
        invariant packed ==> PackedAt(used, start, list, t, vars0, max)
      {
        ok, used := AssignNext(t, max, used, list, used0, vars0, start, zeroTaken);
        if !ok {
          return;
        }
      }
      AssignEnd(vars0, vars, used0, used, list, max);
      if packed { PackedEnd(used, start, list, vars0, max); }
    }

    /** Sorts the variables without a location and gives them one. */
    method AssignUnlocated(max: nat, readsVertex: bool, used0: Mask, toAssign: seq<nat>,
                           ghost vars0: seq<Var>, ghost params0: seq<Param>) returns (ok: bool)
      requires SameVars(vars0, vars) && SmallTypes(vars0) && SmallTypes(vars) && Kept(vars, Located(vars), used0, max)
      requires forall i :: 0 <= i < |vars| ==> vars[i].location == Wanted(vars0[i], params0)
      requires forall i :: 0 <= i < |vars| && vars[i].explicit ==> vars[i].location >= 0
      requires toAssign != [] && Ascending(toAssign)
      requires forall i: nat :: i in toAssign <==> i < |vars| && vars[i].location < 0
      requires (forall i :: 0 <= i < |vars| ==> vars[i].location < 0) ==> toAssign == Indices(|vars|)
      requires NoneWanted(vars0, params0) && max < 32 ==> Packed(used0, 0, max)
      requires Exact(vars, Located(vars), used0, max) && Booked(vars, params, |params|)
      modifies this
      ensures LinkResult(vars0, params0, vars, max, readsVertex, ok) && Booked(vars, params, |params|)
    {
      hide Booked, Kept, Wanted, NoneWanted, Located, SmallTypes, CountAttributeSlots, LinkResult, Packed, SlotSum, SameVar,
           Ascending, Find, Exact, UsedIsTaken, Stuck;
      assert forall k :: 0 <= k < |toAssign| ==> toAssign[k] in toAssign;
      var sorted := SortBySlots(toAssign, vars);
      SortedOk(vars, toAssign, sorted);
      var used := used0;
      Reserve(vars, used, max, readsVertex);
      if max < 32 { ExactIsTaken(vars, used, max, readsVertex); }
      if readsVertex {
        used := used + {0};
      }
      ghost var vars1, used1 := vars, used;
      ok := AssignRest(max, used, sorted, if readsVertex && max > 0 then 1 else 0, readsVertex);
      LinkEnds(vars0, params0, vars1, vars, used1, max, toAssign, sorted, readsVertex, ok);
    }

    /** The passes over the declared inputs. */
    method LinkInputs(max: nat, readsVertex: bool) returns (ok: bool)
      requires Valid() && forall i :: 0 <= i < |vars| ==> Find(params, vars[i].name).Some?
      modifies this
      ensures LinkResult(old(vars), old(params), vars, max, readsVertex, ok)
      ensures ok ==> Booked(vars, params, |params|)
    {
      hide Booked, Kept, Wanted, WantedOk, NoneWanted, AllWanted, Binding, Located, SmallTypes, Bound, CountAttributeSlots,
           LinkResult, Packed, Total, SameVar, Ascending, DistinctNames, DistinctParams, Find, Exact;
      ghost var vars0, params0 := vars, params;
      var used: Mask;
      ok, used := BindLocations(max);
      if !ok {
        FixedFails(vars0, params0, vars, max, readsVertex);
        return;
      }
      PassOneDone(vars0, params0, vars, params, used, max);
      var toAssign: seq<nat>;
      ok, used, toAssign := CollectInputs(max, used);
      if !ok {
        ExplicitFails(vars0, params0, vars, max, readsVertex);
        return;
      }
      if toAssign == [] {
        LinkDone(vars0, params0, vars, used, max, readsVertex);
        return;
      }
      ok := AssignUnlocated(max, readsVertex, used, toAssign, vars0, params0);
    }

    /**
     assign_attribute_locations.  A successful link gives every input its own slots below max, at the fixed location if
     it has one.  It fails if the fixed locations are impossible, and otherwise only when some input is left that fits
     nowhere among those placed so far; with nothing fixed it fails exactly when the slots do not fit, slot 0 being kept
     free if gl_Vertex is read.
     */
    method AssignAttributeLocations(max: nat, readsVertex: bool) returns (ok: bool)
      requires Valid()
      modifies this
      ensures SameVars(old(vars), vars)
      ensures ok ==> Placed(vars, max)
      ensures ok ==> forall i :: 0 <= i < |vars| && old(vars)[i].explicit ==> vars[i].location == old(vars)[i].location
      ensures ok ==> forall i, k :: 0 <= i < |vars| && !vars[i].explicit && 0 <= k < |old(params)| ==>
                       old(params)[k].name == vars[i].name && old(params)[k].bindLocation >= 0 ==>
                         vars[i].location == old(params)[k].bindLocation
      ensures ok ==> forall i, k :: 0 <= i < |vars| && 0 <= k < |params| && params[k].name == vars[i].name ==>
                       params[k].location == vars[i].location && params[k].slots == vars[i].Slots()
      ensures ok ==> forall i :: 0 <= i < |vars| && Wanted(old(vars)[i], old(params)) >= 0 ==>
                       vars[i].location == Wanted(old(vars)[i], old(params))
      ensures ok && readsVertex ==> forall i :: 0 <= i < |vars| && Wanted(old(vars)[i], old(params)) < 0 ==>
                                      vars[i].location >= 1
      ensures !WantedOk(old(vars), old(params), max) ==> !ok
      ensures WantedOk(old(vars), old(params), max) && AllWanted(old(vars), old(params)) ==> ok
      ensures NoneWanted(old(vars), old(params)) && max < 32 ==>
                (ok <==> old(vars) == [] || Total(old(vars)) + (if readsVertex then 1 else 0) <= max)
      ensures !ok && WantedOk(old(vars), old(params), max) && max < 32 ==> Stuck(vars, max, readsVertex)
    {
      hide LinkResult, Bound, Wanted, WantedOk, NoneWanted, AllWanted, Placed, Total, DistinctNames, DistinctParams,
           SmallTypes, SameVars, Find;
      ghost var vars0, params0 := vars, params;
      DeclareInputs();
      ghost var params1 := params;
      ok := LinkInputs(max, readsVertex);
      SameResult(vars0, params0, params1, vars, max, readsVertex, ok);
      if ok { FixedAndBooked(vars0, params0, vars, params, max); }
    }
  }

  /** What a successful link gives the inputs that ask for a location, and what the parameters say of all of them. */
  lemma FixedAndBooked(vars0: seq<Var>, params0: seq<Param>, vars: seq<Var>, params: seq<Param>, max: nat)
    requires SameVars(vars0, vars) && Placed(vars, max) && Booked(vars, params, |params|) && DistinctParams(params0)
    requires WantedOk(vars0, params0, max)
    requires forall i :: 0 <= i < |vars| && Wanted(vars0[i], params0) >= 0 ==> vars[i].location == Wanted(vars0[i], params0)
    ensures forall i :: 0 <= i < |vars| && vars0[i].explicit ==> vars[i].location == vars0[i].location
    ensures forall i, k :: 0 <= i < |vars| && !vars[i].explicit && 0 <= k < |params0| ==>
              params0[k].name == vars[i].name && params0[k].bindLocation >= 0 ==>
                vars[i].location == params0[k].bindLocation
    ensures forall i, k :: 0 <= i < |vars| && 0 <= k < |params| && params[k].name == vars[i].name ==>
              params[k].location == vars[i].location && params[k].slots == vars[i].Slots()
  {
    hide CountAttributeSlots;
    forall i, k | 0 <= i < |vars| && 0 <= k < |params0| && !vars[i].explicit
      && params0[k].name == vars[i].name && params0[k].bindLocation >= 0
      ensures vars[i].location == params0[k].bindLocation
    {
      assert SameVar(vars0[i], vars[i]);
      var r := FindBy(params0, NameOf, vars[i].name);
      assert r.Some? && params0[r.value].name == vars[i].name && r.value == k;
    }
    forall i | 0 <= i < |vars| && vars0[i].explicit ensures vars[i].location == vars0[i].location {
      assert SameVar(vars0[i], vars[i]);
    }
    forall i | 0 <= i < |vars| ensures vars[i].location >= 0 {
      assert Inside(vars[i], max);
    }
  }

  predicate AllWanted(vars: seq<Var>, params: seq<Param>) {
    forall i :: 0 <= i < |vars| ==> Wanted(vars[i], params) >= 0
  }

  /** The contract of the link, in one predicate. */
  ghost predicate LinkResult(vars0: seq<Var>, params0: seq<Param>, vars: seq<Var>, max: nat, readsVertex: bool, ok: bool) {
    && SameVars(vars0, vars)
    && (ok ==> Placed(vars, max))
    && (ok ==> forall i :: 0 <= i < |vars| && Wanted(vars0[i], params0) >= 0 ==>
          vars[i].location == Wanted(vars0[i], params0))
    && (ok && readsVertex ==> forall i :: 0 <= i < |vars| && Wanted(vars0[i], params0) < 0 ==> vars[i].location >= 1)
    && (!WantedOk(vars0, params0, max) ==> !ok)
    && (WantedOk(vars0, params0, max) && AllWanted(vars0, params0) ==> ok)
    && (NoneWanted(vars0, params0) && max < 32 ==>
          (ok <==> vars0 == [] || Total(vars0) + (if readsVertex then 1 else 0) <= max))
    && (!ok && WantedOk(vars0, params0, max) && max < 32 ==> Stuck(vars, max, readsVertex))
  }

  lemma SameResult(vars0: seq<Var>, params0: seq<Param>, params1: seq<Param>, vars: seq<Var>, max: nat, readsVertex: bool,
                   ok: bool)
    requires forall name :: Bound(params1, name) == Bound(params0, name)
    requires LinkResult(vars0, params1, vars, max, readsVertex, ok)
    ensures SameVars(vars0, vars)
    ensures ok ==> Placed(vars, max)
    ensures ok ==> forall i :: 0 <= i < |vars| && Wanted(vars0[i], params0) >= 0 ==>
                     vars[i].location == Wanted(vars0[i], params0)
    ensures ok && readsVertex ==> forall i :: 0 <= i < |vars| && Wanted(vars0[i], params0) < 0 ==> vars[i].location >= 1
    ensures !WantedOk(vars0, params0, max) ==> !ok
    ensures WantedOk(vars0, params0, max) && AllWanted(vars0, params0) ==> ok
    ensures NoneWanted(vars0, params0) && max < 32 ==>
              (ok <==> vars0 == [] || Total(vars0) + (if readsVertex then 1 else 0) <= max)
    ensures !ok && WantedOk(vars0, params0, max) && max < 32 ==> Stuck(vars, max, readsVertex)
  {
    hide Stuck, Bound, Placed, Total, Inside, Apart;
    forall v: Var ensures Wanted(v, params1) == Wanted(v, params0) {
    }
  }

  /** Fixed locations that are impossible, when there are any. */
  lemma FixedFails(vars0: seq<Var>, params: seq<Param>, vars: seq<Var>, max: nat, readsVertex: bool)
    requires SameVars(vars0, vars) && !WantedOk(vars0, params, max)
    ensures LinkResult(vars0, params, vars, max, readsVertex, false)
  {
    assert !NoneWanted(vars0, params);
  }

  lemma ExplicitFails(vars0: seq<Var>, params: seq<Param>, vars: seq<Var>, max: nat, readsVertex: bool)
    requires SameVars(vars0, vars) && forall i :: 0 <= i < |vars| ==> vars[i].location == Wanted(vars0[i], params)
    requires exists i :: 0 <= i < |vars| && vars[i].explicit && vars[i].location < 0
    ensures LinkResult(vars0, params, vars, max, readsVertex, false)
  {
    var i :| 0 <= i < |vars| && vars[i].explicit && vars[i].location < 0;
    assert SameVar(vars0[i], vars[i]);
    FixedFails(vars0, params, vars, max, readsVertex);
  }

  /** After pass 1 every input has its wanted location or -1. */
  lemma PassOneDone(vars0: seq<Var>, params1: seq<Param>, vars: seq<Var>, params: seq<Param>, used: Mask, max: nat)
    requires Binding(vars0, params1, |params|, vars, params, used, max) && SmallTypes(vars0)
    requires forall i :: 0 <= i < |vars0| ==> Find(params1, vars0[i].name).Some? && vars0[i].location < 32
    requires forall k :: 0 <= k < |params1| ==> params1[k].bindLocation < 32
    ensures Kept(vars, Located(vars), used, max) && SameVars(vars0, vars) && SmallTypes(vars)
    ensures forall i :: 0 <= i < |vars| ==> vars[i].location == Wanted(vars0[i], params1)
    ensures forall i :: 0 <= i < |vars| ==> vars[i].location < 32 && (vars[i].explicit || vars[i].location >= -1)
    ensures NoneWanted(vars0, params1) && max < 32 ==> Packed(used, 0, max)
    ensures Exact(vars, Located(vars), used, max)
  {
    forall i | 0 <= i < |vars| ensures Seen(params1, vars0[i].name, |params|) && SameVar(vars0[i], vars[i]) {
      assert |params| == |params1|;
    }
    assert Done(vars0, params1, |params|, vars) == Located(vars);
    if NoneWanted(vars0, params1) { assert Located(vars) == {}; }
  }

  lemma SortedOk(vars: seq<Var>, toAssign: seq<nat>, sorted: seq<nat>)
    requires Ascending(toAssign) && multiset(sorted) == multiset(toAssign)
    requires forall i: nat :: i in toAssign <==> i < |vars| && vars[i].location < 0
    ensures forall j, k :: 0 <= j < k < |sorted| ==> sorted[j] != sorted[k]
    ensures forall k :: 0 <= k < |sorted| ==> sorted[k] < |vars| && vars[sorted[k]].location < 0
    ensures forall i: nat :: i in sorted <==> i < |vars| && vars[i].location < 0
  {
    forall i: nat ensures i in sorted <==> i in toAssign {
      assert i in multiset(sorted) <==> i in multiset(toAssign);
    }
    forall k | 0 <= k < |sorted| ensures sorted[k] in toAssign {
      assert sorted[k] in sorted;
    }
    forall j, k | 0 <= j < k < |sorted| ensures sorted[j] != sorted[k] {
      OnceEach(toAssign, sorted[j]);
      if sorted[j] == sorted[k] { TwiceIn(sorted, j, k); }
    }
  }

  lemma {:induction false} OnceEach(list: seq<nat>, x: nat)
    requires Ascending(list)
    ensures multiset(list)[x] <= 1
  {
    if list != [] {
      var n := |list| - 1;
      OnceEach(list[..n], x);
      assert list == list[..n] + [list[n]];
      if x == list[n] { assert x !in list[..n]; }
    }
  }

  lemma TwiceIn(list: seq<nat>, j: nat, k: nat)
    requires j < k < |list| && list[j] == list[k]
    ensures multiset(list)[list[j]] >= 2
  {
    assert list == list[..j] + [list[j]] + list[j + 1..k] + [list[k]] + list[k + 1..];
  }

  /** Reserving slot 0 for gl_Vertex. */
  lemma Reserve(vars: seq<Var>, used: Mask, max: nat, readsVertex: bool)
    requires Kept(vars, Located(vars), used, max)
    ensures Kept(vars, Located(vars), used + {0}, max)
    ensures Packed(used, 0, max) && max < 32 ==>
              Packed(if readsVertex then used + {0} else used, if readsVertex && max > 0 then 1 else 0, max)
  {
  }

  /** Every location was fixed. */
  lemma LinkDone(vars0: seq<Var>, params: seq<Param>, vars: seq<Var>, used: Mask, max: nat, readsVertex: bool)
    requires SameVars(vars0, vars) && SmallTypes(vars) && Kept(vars, Located(vars), used, max)
    requires forall i :: 0 <= i < |vars| ==> vars[i].location == Wanted(vars0[i], params) >= 0
    ensures LinkResult(vars0, params, vars, max, readsVertex, true)
  {
    AllPlaced(vars, Located(vars), used, max);
    PlacedWantedOk(vars0, params, vars, used, max);
    assert vars0 != [] ==> Wanted(vars0[0], params) >= 0;
  }

  /** A successful link proves that the fixed locations were possible. */
  lemma PlacedWantedOk(vars0: seq<Var>, params: seq<Param>, vars: seq<Var>, used: Mask, max: nat)
    requires SameVars(vars0, vars) && SmallTypes(vars) && Kept(vars, Located(vars), used, max)
    requires forall i :: 0 <= i < |vars| ==> vars[i].location >= 0
    requires forall i :: 0 <= i < |vars| && Wanted(vars0[i], params) >= 0 ==> vars[i].location == Wanted(vars0[i], params)
    requires forall i :: 0 <= i < |vars| && vars0[i].explicit ==> vars0[i].location >= 0
    ensures WantedOk(vars0, params, max)
  {
    forall i | 0 <= i < |vars| && Wanted(vars0[i], params) >= 0
      ensures vars0[i].(location := Wanted(vars0[i], params)) == vars[i] && max < 32 && Inside(vars[i], max)
    {
      assert SameVar(vars0[i], vars[i]) && i in Located(vars);
    }
  }

  lemma LinkEnds(vars0: seq<Var>, params: seq<Param>, vars1: seq<Var>, vars: seq<Var>, used1: Mask, max: nat,
                 toAssign: seq<nat>, sorted: seq<nat>, readsVertex: bool, ok: bool)
    requires SameVars(vars0, vars1) && SameVars(vars1, vars) && SmallTypes(vars0)
    requires forall i :: 0 <= i < |vars1| ==> vars1[i].location == Wanted(vars0[i], params)
    requires forall i :: 0 <= i < |vars1| && vars1[i].explicit ==> vars1[i].location >= 0
    requires forall i: nat :: i in sorted <==> i < |vars1| && vars1[i].location < 0
    requires multiset(sorted) == multiset(toAssign) && toAssign != []
    requires (forall i :: 0 <= i < |vars1| ==> vars1[i].location < 0) ==> toAssign == Indices(|vars1|)
    requires forall i: nat :: i < |vars| && i !in sorted ==> vars[i] == vars1[i]
    requires forall k :: 0 <= k < |sorted| ==> sorted[k] < |vars1|
    requires ok ==> exists used :: used1 <= used && Kept(vars, Located(vars), used, max)
    requires ok ==> forall k :: 0 <= k < |sorted| ==> vars[sorted[k]].location >= 0 && vars[sorted[k]].location !in used1
    requires readsVertex ==> 0 in used1
    requires NoneWanted(vars0, params) && max < 32 ==>
               (ok <==> (if readsVertex && max > 0 then 1 else 0) + SlotSum(sorted, vars1) <= max)
    requires !ok && max < 32 ==> Stuck(vars, max, readsVertex)
    ensures LinkResult(vars0, params, vars, max, readsVertex, ok)
  {
    SomeUnwanted(vars0, params, vars1, toAssign, sorted);
    SmallKept(vars0, vars1, vars);
    if NoneWanted(vars0, params) {
      AllListed(vars0, params, vars1, toAssign, sorted);
    }
    hide Kept, Located, SmallTypes, Wanted, WantedOk, NoneWanted, AllWanted, Placed, SlotSum, Total, SameVar, LinkResult,
         Stuck;
    if ok {
      var used :| used1 <= used && Kept(vars, Located(vars), used, max);
      LinkOk(vars0, params, vars1, vars, used1, used, max, sorted, readsVertex);
    } else {
      LinkNotOk(vars0, params, vars, max, readsVertex);
    }
  }

  lemma LinkNotOk(vars0: seq<Var>, params: seq<Param>, vars: seq<Var>, max: nat, readsVertex: bool)
    requires SameVars(vars0, vars) && !AllWanted(vars0, params)
    requires NoneWanted(vars0, params) && max < 32 ==> vars0 != [] && Total(vars0) + (if readsVertex then 1 else 0) > max
    requires max < 32 ==> Stuck(vars, max, readsVertex)
    ensures LinkResult(vars0, params, vars, max, readsVertex, false)
  {
    hide Stuck;
  }

  lemma LinkOk(vars0: seq<Var>, params: seq<Param>, vars1: seq<Var>, vars: seq<Var>, used1: Mask, used: Mask, max: nat,
               sorted: seq<nat>, readsVertex: bool)
    requires SameVars(vars0, vars1) && SameVars(vars0, vars) && SmallTypes(vars) && Kept(vars, Located(vars), used, max)
    requires forall i :: 0 <= i < |vars1| ==> vars1[i].location == Wanted(vars0[i], params)
    requires forall i :: 0 <= i < |vars1| && vars1[i].explicit ==> vars1[i].location >= 0
    requires forall i: nat :: i in sorted <==> i < |vars1| && vars1[i].location < 0
    requires forall i: nat :: i < |vars| && i !in sorted ==> vars[i] == vars1[i]
    requires forall k :: 0 <= k < |sorted| ==>
               sorted[k] < |vars| && vars[sorted[k]].location >= 0 && vars[sorted[k]].location !in used1
    requires readsVertex ==> 0 in used1
    requires NoneWanted(vars0, params) && max < 32 ==> Total(vars0) + (if readsVertex then 1 else 0) <= max
    ensures LinkResult(vars0, params, vars, max, readsVertex, true)
  {
    ExplicitWanted(vars0, params, vars1);
    EveryWanted(vars0, params, vars1, vars, used1, sorted);
    hide Kept, Located, SmallTypes, Wanted, WantedOk, NoneWanted, AllWanted, Placed, Total, SameVar;
    EveryLocated(vars, used, max);
    PlacedWantedOk(vars0, params, vars, used, max);
  }

  lemma EveryWanted(vars0: seq<Var>, params: seq<Param>, vars1: seq<Var>, vars: seq<Var>, used1: Mask, sorted: seq<nat>)
    requires |vars0| == |vars1| == |vars|
    requires forall i :: 0 <= i < |vars1| ==> vars1[i].location == Wanted(vars0[i], params)
    requires forall i: nat :: i in sorted <==> i < |vars1| && vars1[i].location < 0
    requires forall i: nat :: i < |vars| && i !in sorted ==> vars[i] == vars1[i]
    requires forall k :: 0 <= k < |sorted| ==>
               sorted[k] < |vars| && vars[sorted[k]].location >= 0 && vars[sorted[k]].location !in used1
    ensures forall i :: 0 <= i < |vars| ==> vars[i].location >= 0
    ensures forall i :: 0 <= i < |vars| && Wanted(vars0[i], params) < 0 ==> vars[i].location !in used1
    ensures forall i :: 0 <= i < |vars| && Wanted(vars0[i], params) >= 0 ==> vars[i].location == Wanted(vars0[i], params)
  {
    hide Wanted;
    forall i: nat | i < |vars|
      ensures vars[i].location >= 0
      ensures Wanted(vars0[i], params) < 0 ==> vars[i].location !in used1
      ensures Wanted(vars0[i], params) >= 0 ==> vars[i].location == Wanted(vars0[i], params)
    {
      if i in sorted {
        var k :| 0 <= k < |sorted| && sorted[k] == i;
      }
    }
  }

  lemma SomeUnwanted(vars0: seq<Var>, params: seq<Param>, vars1: seq<Var>, toAssign: seq<nat>, sorted: seq<nat>)
    requires |vars0| == |vars1| && forall i :: 0 <= i < |vars1| ==> vars1[i].location == Wanted(vars0[i], params)
    requires forall i: nat :: i in sorted <==> i < |vars1| && vars1[i].location < 0
    requires multiset(sorted) == multiset(toAssign) && toAssign != []
    ensures !AllWanted(vars0, params)
  {
    assert toAssign[0] in multiset(sorted);
    assert toAssign[0] in sorted;
    assert Wanted(vars0[toAssign[0]], params) < 0;
  }

  /** With nothing fixed the list is every variable, so its slots are all the slots. */
  lemma AllListed(vars0: seq<Var>, params: seq<Param>, vars1: seq<Var>, toAssign: seq<nat>, sorted: seq<nat>)
    requires SameVars(vars0, vars1) && NoneWanted(vars0, params)
    requires forall i :: 0 <= i < |vars1| ==> vars1[i].location == Wanted(vars0[i], params)
    requires multiset(sorted) == multiset(toAssign) && forall k :: 0 <= k < |sorted| ==> sorted[k] < |vars1|
    requires (forall i :: 0 <= i < |vars1| ==> vars1[i].location < 0) ==> toAssign == Indices(|vars1|)
    ensures SlotSum(sorted, vars1) == Total(vars0)
  {
    SlotSumPermuted(sorted, toAssign, vars1);
    SameSlotSum(toAssign, vars0, vars1);
    TotalIsSum(vars0, |vars0|);
    assert vars0[..|vars0|] == vars0;
  }

  lemma SmallKept(vars0: seq<Var>, vars1: seq<Var>, vars: seq<Var>)
    requires SameVars(vars0, vars1) && SameVars(vars1, vars) && SmallTypes(vars0)
    ensures SameVars(vars0, vars) && SmallTypes(vars)
  {
    forall i | 0 <= i < |vars| ensures SameVar(vars0[i], vars[i]) && vars[i].Slots() == vars0[i].Slots() {
      assert SameVar(vars0[i], vars1[i]) && SameVar(vars1[i], vars[i]);
    }
  }

  lemma EveryLocated(vars: seq<Var>, used: Mask, max: nat)
    requires Kept(vars, Located(vars), used, max) && forall i :: 0 <= i < |vars| ==> vars[i].location >= 0
    ensures Placed(vars, max)
  {
    AllPlaced(vars, Located(vars), used, max);
  }

  lemma ExplicitWanted(vars0: seq<Var>, params: seq<Param>, vars1: seq<Var>)
    requires SameVars(vars0, vars1) && forall i :: 0 <= i < |vars1| ==> vars1[i].location == Wanted(vars0[i], params)
    requires forall i :: 0 <= i < |vars1| && vars1[i].explicit ==> vars1[i].location >= 0
    ensures forall i :: 0 <= i < |vars0| && vars0[i].explicit ==> vars0[i].location >= 0
  {
    forall i | 0 <= i < |vars0| && vars0[i].explicit ensures vars0[i].location >= 0 {
      assert SameVar(vars0[i], vars1[i]);
    }
  }
}
