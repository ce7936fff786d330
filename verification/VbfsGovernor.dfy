/**
 The frequency decision of the VBFS governor: signed and unsigned 32-bit index arithmetic over a descending frequency
 table, a gate that lets only every k-th step down through, and a final adjustment by threads and memory.
 */
module VbfsGovernor {

  const WORD := 0x1_0000_0000

  /** Long enough for any table, short enough for the products of indices with a usage. */
  const TABLE_MAX := 20_000_000

  datatype Adj =
    | NoNeed | Settled | StepUp | StepDown | StepCondUp | StepCondDown
    | ScaleUp | ScaleDown | ScaleCondUp | ScaleCondDown | CondUp | CondDown

  datatype Tuners = Tuners(usageUp: nat, usageDown: nat, variationUp: int, variationDown: int,
                           threadUp: int, threadDown: int, memUp: int, memDown: int, lazyDown: nat)

  datatype Policy = Policy(max: nat, min: nat, cur: nat)

  // ---------------------------------------------------------------- C arithmetic

  /** The conversion of an integer to unsigned int. */
  function Unsigned(x: int): nat {
    x % WORD
  }

  /** The conversion of an unsigned int to int. */
  function Signed(x: nat): int {
    if x < 0x8000_0000 then x else x - WORD
  }

  function Abs(x: int): nat {
    if x < 0 then -x else x
  }

  // ---------------------------------------------------------------- picking an index

  /** The index for an increase, from the index of the current frequency, of the maximum, and the usage in percent. */
  function UpPick(cur: nat, end: nat, usage: nat): int {
    UpFrom(cur, end, Unsigned(cur - end + 1) * usage)
  }

  function UpFrom(cur: nat, end: nat, product: nat): int {
    var first := Signed(Unsigned(product - 1));
    var adj := Abs(Signed(Unsigned((if first < 0 then 0 else first) / 100 - cur)));
    if adj >= cur && adj > end then Signed(Unsigned(cur - 1)) else adj
  }

  /** The index for a decrease, from the index of the current frequency and of the minimum. */
  function DownPick(cur: nat, start: nat): int {
    var adj := Signed(Unsigned(Unsigned(start - cur + 1) / 3 + cur));
    if 0 <= adj <= cur && adj < start then Signed(Unsigned(cur + 1)) else adj
  }

  /** What the wrapped arithmetic comes to: the share of the way to the maximum, at least one entry. */
  lemma UpPickIs(cur: nat, end: nat, usage: nat)
    requires end < cur < TABLE_MAX && usage <= 100
    ensures UpPick(cur, end, usage) == cur - (if UpShare(cur, end, usage) == 0 then 1 else UpShare(cur, end, usage))
    ensures UpShare(cur, end, usage) <= cur - end
  {
    hide UpFrom;
    var n := cur - end + 1;
    ProductMono(n, usage, 100);
    UpFromIs(cur, end, n * usage);
    if usage > 0 { ProductMono(n, 1, usage); }
  }

  /** A conversion to unsigned int and back. */
  lemma RoundTrip(x: int)
    requires -0x8000_0000 <= x < 0x8000_0000
    ensures Signed(Unsigned(x)) == x
  {
  }

  lemma UpFromIs(cur: nat, end: nat, p: nat)
    requires end < cur < TABLE_MAX && p <= (cur - end + 1) * 100
    ensures var share := if p == 0 then 0 else (p - 1) / 100;
            share <= cur - end && UpFrom(cur, end, p) == cur - (if share == 0 then 1 else share)
  {
    RoundTrip(p - 1);
    var share := if p == 0 then 0 else (p - 1) / 100;
    RoundTrip(share - cur);
    RoundTrip(cur - 1);
    hide Signed, Unsigned;
  }

  /** How many entries up the usage asks for. */
  function UpShare(cur: nat, end: nat, usage: nat): nat
    requires end <= cur
  {
    if usage == 0 then 0 else ((cur - end + 1) * usage - 1) / 100
  }

  /** An increase stays between the maximum and the entry above the current one; full usage goes to the maximum. */
  lemma UpPickRange(cur: nat, end: nat, usage: nat)
    requires end < cur < TABLE_MAX && usage <= 100
    ensures end <= UpPick(cur, end, usage) <= cur - 1
    ensures usage == 100 ==> UpPick(cur, end, usage) == end
  {
    UpPickIs(cur, end, usage);
  }

  /** A higher usage never picks a slower entry. */
  lemma UpPickMonotone(cur: nat, end: nat, a: nat, b: nat)
    requires end < cur < TABLE_MAX && a <= b <= 100
    ensures UpPick(cur, end, b) <= UpPick(cur, end, a)
  {
    UpPickIs(cur, end, a);
    UpPickIs(cur, end, b);
    ProductMono(cur - end + 1, a, b);
  }

  lemma ProductMono(n: nat, a: nat, b: nat)
    requires a <= b
    ensures n * a <= n * b
  {
  }

  /** A decrease stays between the entry below the current one and the minimum, and goes at most a third and one. */
  lemma DownPickRange(cur: nat, start: nat)
    requires cur < start < TABLE_MAX
    ensures cur + 1 <= DownPick(cur, start) <= start
    ensures DownPick(cur, start) - cur <= (start - cur) / 3 + 1
  {
    RoundTrip((start - cur + 1) / 3 + cur);
    RoundTrip(cur + 1);
    assert Unsigned(start - cur + 1) == start - cur + 1;
    hide Signed, Unsigned;
  }

  /** A decrease goes a third of the way to the minimum, at least one entry. */
  lemma DownPickIs(cur: nat, start: nat)
    requires cur < start < TABLE_MAX
    ensures DownPick(cur, start) == cur + (if start - cur < 2 then 1 else (start - cur + 1) / 3)
  {
    RoundTrip((start - cur + 1) / 3 + cur);
    RoundTrip(cur + 1);
    assert Unsigned(start - cur + 1) == start - cur + 1;
    hide Signed, Unsigned;
  }

  // ---------------------------------------------------------------- the lazy gate

  /** One step-down sample: the counter after it, and whether the sample may change the frequency. */
  function Gate(count: nat, k: nat): (nat, bool) {
    var c := (count + 1) % WORD;
    if c == k then (0, true) else (c, false)
  }

  /** How many of n consecutive step-down samples pass. */
  function Passes(count: nat, k: nat, n: nat): nat
    decreases n
  {
    if n == 0 then 0
    else (if Gate(count, k).1 then 1 else 0) + Passes(Gate(count, k).0, k, n - 1)
  }

  /** From a reset every k-th sample passes. */
  lemma EveryKth(k: nat, n: nat)
    requires 1 <= k < WORD
    ensures Passes(0, k, n) == n / k
  {
    FromCount(0, k, n);
    FloorIs(Passes(0, k, n), k, n);
  }

  lemma FloorIs(p: nat, k: nat, n: nat)
    requires k >= 1 && k * p <= n < k * p + k
    ensures p == n / k
  {
    var q := n / k;
    QuotientBounds(n, k, q);
    if p < q {
      NextMultiple(k, p, q);
    } else if q < p {
      NextMultiple(k, q, p);
    }
  }

  lemma QuotientBounds(n: nat, k: nat, q: nat)
    requires k >= 1 && q == n / k
    ensures k * q <= n < k * q + k
  {
  }

  lemma NextMultiple(k: nat, a: nat, b: nat)
    requires a < b
    ensures k * a + k <= k * b
  {
    ProductMono(k, a + 1, b);
  }

  lemma {:induction false} FromCount(count: nat, k: nat, n: nat)
    requires 1 <= k < WORD && count < k
    ensures k * Passes(count, k, n) <= count + n < k * Passes(count, k, n) + k
    decreases n
  {
    if n > 0 {
      var g := Gate(count, k);
      FromCount(g.0, k, n - 1);
      var rest := Passes(g.0, k, n - 1);
      assert k * (1 + rest) == k + k * rest;
    }
  }

  /** The test is for equality: once the counter has passed the threshold, nothing passes until it wraps. */
  lemma {:induction false} StuckAbove(count: nat, k: nat, n: nat)
    requires k <= count && count + n < WORD
    ensures Passes(count, k, n) == 0
    decreases n
  {
    if n > 0 { StuckAbove(count + 1, k, n - 1); }
  }

  /** One of the next k step-down samples passes exactly if the counter is below the threshold. */
  lemma GateOpensIff(count: nat, k: nat)
    requires count < WORD && k < WORD
    ensures Passes(count, k, k) > 0 <==> count < k
  {
    if count < k {
      FromCount(count, k, k);
      assert k * 0 == 0;
    } else if count + k < WORD {
      StuckAbove(count, k, k);
    } else {
      StuckThenWrapped(count, k, WORD - 1 - count, k);
    }
  }

  /** After the wrap the counter starts from zero and needs k samples more. */
  lemma {:induction false} StuckThenWrapped(count: nat, k: nat, above: nat, n: nat)
    requires k <= count < WORD && k > 0 && above == WORD - 1 - count && n <= above + k
    ensures Passes(count, k, n) == 0
    decreases n
  {
    if n > 0 {
      if above > 0 {
        StuckThenWrapped(count + 1, k, above - 1, n - 1);
      } else {
        FromCount(0, k, n - 1);
        assert Gate(count, k) == (0, false);
        assert Passes(0, k, n - 1) == 0 by {
          if Passes(0, k, n - 1) > 0 { ProductMono(k, 1, Passes(0, k, n - 1)); }
        }
      }
    }
  }

  // ---------------------------------------------------------------- decisions

  ghost predicate TableOk(table: seq<nat>) {
    && |table| < TABLE_MAX
    && (forall i, j :: 0 <= i < j < |table| ==> table[i] > table[j])
    && (forall i :: 0 <= i < |table| ==> table[i] > 0)
  }

  ghost predicate PolicyOk(table: seq<nat>, p: Policy) {
    p.max in table && p.min in table && p.cur in table && p.min <= p.cur <= p.max
  }

  /** What cpufreq_frequency_table_target finds for a frequency of the table that is inside the policy. */
  function IndexOf(table: seq<nat>, freq: nat): (i: nat)
    requires freq in table
    ensures i < |table| && table[i] == freq
  {
    if table[0] == freq then 0 else 1 + IndexOf(table[1..], freq)
  }

  lemma IndexOrder(table: seq<nat>, a: nat, b: nat)
    requires TableOk(table) && a in table && b in table
    ensures a > b <==> IndexOf(table, a) < IndexOf(table, b)
  {
  }

  /** freq is an entry of the table between the limits of the policy. */
  ghost predicate InPolicy(table: seq<nat>, p: Policy, freq: nat) {
    freq in table && p.min <= freq <= p.max
  }

  lemma EntryInPolicy(table: seq<nat>, p: Policy, i: nat)
    requires TableOk(table) && PolicyOk(table, p) && IndexOf(table, p.max) <= i <= IndexOf(table, p.min)
    ensures i < |table| && InPolicy(table, p, table[i]) && IndexOf(table, table[i]) == i
  {
    IndexAt(table, IndexOf(table, table[i]), i);
    IndexOrder(table, p.max, table[i]);
    IndexOrder(table, table[i], p.max);
    IndexOrder(table, table[i], p.min);
    IndexOrder(table, p.min, table[i]);
    hide IndexOf, TableOk;
  }

  lemma IndexAt(table: seq<nat>, i: nat, j: nat)
    requires TableOk(table) && i < |table| && j < |table| && table[i] == table[j]
    ensures i == j
  {
    assert !(i < j) && !(j < i);
  }

  /** The direction chosen by checkCPULoadCond. */
  function LoadCond(t: Tuners, p: Policy, usage: nat, diff: int): Adj {
    if diff >= t.variationUp || usage >= t.usageUp then
      if p.cur == p.max then Settled else if diff >= t.variationUp then ScaleUp else StepUp
    else if usage <= t.usageDown then
      if p.cur == p.min then Settled else if diff <= t.variationDown then ScaleDown else StepDown
    else NoNeed
  }

  function CheckThreadCond(t: Tuners, diff: int): (r: int)
    ensures -1 <= r <= 1
  {
    if diff >= t.threadUp then 1 else if diff <= t.threadDown then -1 else 0
  }

  function CheckMemCond(t: Tuners, diff: int): (r: int)
    ensures -1 <= r <= 1
  {
    if diff >= t.memUp then 1 else if diff <= t.memDown then -1 else 0
  }

  /** The thresholds of the tuners decide on a direction: up, down or neither. */
  predicate LoadUp(t: Tuners, usage: nat, diff: int) {
    diff >= t.variationUp || usage >= t.usageUp
  }

  predicate LoadDown(t: Tuners, usage: nat, diff: int) {
    !LoadUp(t, usage, diff) && usage <= t.usageDown
  }

  /** One point up or down each for threads and memory. */
  function Points(t: Tuners, threadDiff: int, memDiff: int): int {
    (if threadDiff >= t.threadUp then 1 else if threadDiff <= t.threadDown then -1 else 0)
    + (if memDiff >= t.memUp then 1 else if memDiff <= t.memDown then -1 else 0)
  }

  /** What vbfs_adj says about the sample. */
  predicate AdjSays(t: Tuners, p: Policy, usage: nat, diff: int, points: int, adj: Adj) {
    if LoadUp(t, usage, diff) && p.cur < p.max then
      if diff >= t.variationUp then (if points > 0 then adj.ScaleCondUp? else adj.ScaleUp?)
      else if points > 0 then adj.StepCondUp? else adj.StepUp?
    else if LoadDown(t, usage, diff) && p.min < p.cur then
      if diff <= t.variationDown then (if points < 0 then adj.ScaleCondDown? else adj.ScaleDown?)
      else if points < 0 then adj.StepCondDown? else adj.StepDown?
    else if LoadUp(t, usage, diff) || LoadDown(t, usage, diff) then adj.Settled?
    else if points > 0 then adj.CondUp? else if points < 0 then adj.CondDown? else adj.NoNeed?
  }

  /** Where the frequency goes: up under a high load unless it is at the maximum, down under a low one unless it is at the
      minimum or the gate holds a step back that neither threads nor memory ask for, and otherwise where threads and memory
      ask. */
  predicate Goes(t: Tuners, p: Policy, usage: nat, diff: int, points: int, passes: bool, freq: nat) {
    if LoadUp(t, usage, diff) then
      if p.cur < p.max then freq > p.cur else freq == p.cur
    else if LoadDown(t, usage, diff) then
      freq <= p.cur && (freq < p.cur <==> p.min < p.cur && (points < 0 || diff <= t.variationDown || passes))
    else if points > 0 then freq >= p.cur && (freq > p.cur <==> p.cur < p.max)
    else if points < 0 then freq <= p.cur && (freq < p.cur <==> p.min < p.cur)
    else true
  }

  lemma AdjustedSays(t: Tuners, p: Policy, usage: nat, diff: int, points: int)
    requires p.min <= p.cur <= p.max
    ensures AdjSays(t, p, usage, diff, points, Adjusted(LoadCond(t, p, usage, diff), points))
    ensures AsksHigh(p, LoadCond(t, p, usage, diff), points)
            <==> if LoadUp(t, usage, diff) then true
                 else if LoadDown(t, usage, diff) then p.min == p.cur == p.max else points > 0
  {
  }

  lemma DecisionGoes(table: seq<nat>, t: Tuners, p: Policy, usage: nat, diff: int, points: int, passes: bool, freq: nat,
                     maxIdx: nat, minIdx: nat)
    requires TableOk(table) && PolicyOk(table, p) && usage <= 100 && freq in table
    requires maxIdx == IndexOf(table, p.max) && minIdx == IndexOf(table, p.min)
    requires IndexOf(table, freq) == Decision(IndexOf(table, p.cur), usage, LoadCond(t, p, usage, diff), passes, points,
                                              maxIdx, minIdx)
    ensures Goes(t, p, usage, diff, points, passes, freq)
  {
    var cur := IndexOf(table, p.cur);
    IndexOrder(table, p.max, p.cur);
    IndexOrder(table, p.cur, p.min);
    IndexOrder(table, freq, p.cur);
    IndexOrder(table, p.cur, freq);
    var i := IndexOf(table, freq);
    hide IndexOf, TableOk, Decision;
    DecisionIndex(cur, usage, LoadCond(t, p, usage, diff), passes, points, maxIdx, minIdx);
  }

  /** The same for the index, which grows as the frequency falls. */
  lemma DecisionIndex(cur: nat, usage: nat, cond: Adj, passes: bool, points: int, maxIdx: nat, minIdx: nat)
    requires maxIdx <= cur <= minIdx < TABLE_MAX && usage <= 100
    requires cond.StepUp? || cond.ScaleUp? ==> maxIdx < cur
    requires cond.StepDown? || cond.ScaleDown? ==> cur < minIdx
    ensures var i := Decision(cur, usage, cond, passes, points, maxIdx, minIdx);
            match cond
            case StepUp => i < cur
            case ScaleUp => i < cur
            case Settled => i == cur
            case ScaleDown => i > cur
            case StepDown => i >= cur && (i > cur <==> points < 0 || passes)
            case _ => (points > 0 ==> i <= cur && (i < cur <==> maxIdx < cur))
                      && (points < 0 ==> i >= cur && (i > cur <==> cur < minIdx))
  {
    if maxIdx < cur { UpPickRange(cur, maxIdx, usage); }
    if cur < minIdx { DownPickRange(cur, minIdx); }
    hide UpPick, DownPick;
  }

  class Governor {
    const table: seq<nat>
    const t: Tuners
    var nextFreq: nat
    var adj: Adj
    var lazyUp: nat
    var lazyDown: nat
    var maxIdx: nat
    var minIdx: nat

    constructor (table: seq<nat>, t: Tuners)
      ensures this.table == table && this.t == t && lazyUp == lazyDown == 0 && adj == NoNeed
    {
      this.table, this.t := table, t;
      nextFreq, adj, lazyUp, lazyDown, maxIdx, minIdx := 0, NoNeed, 0, 0, 0, 0;
    }

    /** The cached indices match the policy. */
    ghost predicate Ready(p: Policy)
      reads this
    {
      TableOk(table) && PolicyOk(table, p) && maxIdx == IndexOf(table, p.max) && minIdx == IndexOf(table, p.min)
    }

    method SelectNextFrequencyByLoad(p: Policy, usage: nat, direction: Adj)
      requires Ready(p) && usage <= 100
      requires direction.StepUp? || direction.ScaleUp? ==> p.cur < p.max
      requires direction.StepDown? || direction.ScaleDown? ==> p.min < p.cur
      requires direction.StepUp? || direction.ScaleUp? || direction.StepDown? || direction.ScaleDown?
      modifies this`nextFreq, this`lazyUp, this`lazyDown
      ensures direction.StepUp? || direction.ScaleUp? ==>
                var i := UpPick(IndexOf(table, p.cur), maxIdx, usage);
                maxIdx <= i < IndexOf(table, p.cur) && nextFreq == table[i]
      ensures direction.ScaleDown? || (direction.StepDown? && old(lazyDown) == t.lazyDown) ==>
                var i := DownPick(IndexOf(table, p.cur), minIdx);
                IndexOf(table, p.cur) < i <= minIdx && nextFreq == table[i]
      ensures direction.StepDown? && old(lazyDown) != t.lazyDown ==> nextFreq == p.cur
      ensures if direction.StepDown? && old(lazyDown) == t.lazyDown then lazyUp == lazyDown == 0
              else lazyUp == old(lazyUp) && lazyDown == old(lazyDown)
    {
      IndexOrder(table, p.max, p.cur);
      IndexOrder(table, p.cur, p.min);
      var cur := IndexOf(table, p.cur);
      var pick: int;
      if direction.StepDown? || direction.ScaleDown? {
        DownPickRange(cur, minIdx);
        pick := DownPick(cur, minIdx);
      } else {
        UpPickRange(cur, maxIdx, usage);
        pick := UpPick(cur, maxIdx, usage);
      }
      if direction.StepDown? {
        if lazyDown == t.lazyDown {
          nextFreq := table[pick];
          lazyUp, lazyDown := 0, 0;
        } else {
          nextFreq := p.cur;
        }
      } else {
        nextFreq := table[pick];
      }
    }

    method CheckCpuLoadCond(p: Policy, usage: nat, diff: int) returns (cond: Adj)
      requires Ready(p) && usage <= 100
      modifies this`nextFreq, this`lazyUp, this`lazyDown
      ensures cond == LoadCond(t, p, usage, diff)
      ensures cond.StepUp? || cond.ScaleUp? ==>
                var i := UpPick(IndexOf(table, p.cur), maxIdx, usage);
                maxIdx <= i < IndexOf(table, p.cur) && nextFreq == table[i]
      ensures cond.ScaleDown? || (cond.StepDown? && Gate(old(lazyDown), t.lazyDown).1) ==>
                var i := DownPick(IndexOf(table, p.cur), minIdx);
                IndexOf(table, p.cur) < i <= minIdx && nextFreq == table[i]
      ensures cond.StepDown? && !Gate(old(lazyDown), t.lazyDown).1 ==> nextFreq == p.cur
      ensures cond.Settled? ==> nextFreq == p.cur
      ensures cond.NoNeed? ==> nextFreq == 0
      ensures lazyDown == if cond.StepDown? then Gate(old(lazyDown), t.lazyDown).0 else 0
    {
      cond := LoadCond(t, p, usage, diff);
      match cond
      case ScaleUp =>
        lazyUp, lazyDown := 0, 0;
        SelectNextFrequencyByLoad(p, usage, cond);
      case ScaleDown =>
        lazyUp, lazyDown := 0, 0;
        SelectNextFrequencyByLoad(p, usage, cond);
      case StepUp =>
        lazyUp, lazyDown := Unsigned(lazyUp + 1), 0;
        SelectNextFrequencyByLoad(p, usage, cond);
      case StepDown =>
        lazyUp, lazyDown := 0, Unsigned(lazyDown + 1);
        SelectNextFrequencyByLoad(p, usage, cond);
      case Settled =>
        lazyUp, lazyDown := 0, 0;
        nextFreq := p.cur;
      case _ =>
        lazyUp, lazyDown := 0, 0;
        nextFreq := 0;
    }

    /** The loop of adjustCond towards the maximum. */
    method StepsUp(index: nat, points: int) returns (i: nat)
      ensures i == if index <= maxIdx || points <= 0 then index else if index - points < maxIdx then maxIdx else index - points
    {
      i := index;
      var left := points;
      while left > 0
        invariant index <= maxIdx || points <= 0 ==> i == index
        invariant index > maxIdx && points > 0 ==> maxIdx <= i == index - (points - left) && 0 <= left <= points
        decreases left
      {
        if i <= maxIdx {
          break;
        }
        i := i - 1;
        left := left - 1;
      }
    }

    /** The loop of adjustCond towards the minimum. */
    method StepsDown(index: nat, points: int) returns (i: nat)
      ensures i == if index >= minIdx || points >= 0 then index else if index - points > minIdx then minIdx else index - points
    {
      i := index;
      var left := points;
      while left < 0
        invariant index >= minIdx || points >= 0 ==> i == index
        invariant index < minIdx && points < 0 ==> minIdx >= i == index - (points - left) && points <= left <= 0
        decreases -left
      {
        if i >= minIdx {
          break;
        }
        i := i + 1;
        left := left + 1;
      }
    }

    /** adjustCond; the result is whether the driver is asked with CPUFREQ_RELATION_H. */
    method AdjustCond(p: Policy, cond: Adj, threadCond: int, memCond: int) returns (high: bool)
      requires Ready(p) && -1 <= threadCond <= 1 && -1 <= memCond <= 1 && adj.NoNeed?
      requires cond.NoNeed? || InPolicy(table, p, nextFreq)
      requires cond.NoNeed? || cond.Settled? || cond.StepUp? || cond.StepDown? || cond.ScaleUp? || cond.ScaleDown?
      modifies this`nextFreq, this`adj
      ensures adj == Adjusted(cond, threadCond + memCond) && high == AsksHigh(p, cond, threadCond + memCond)
      ensures InPolicy(table, p, nextFreq) || (adj.NoNeed? && nextFreq == old(nextFreq))
      ensures var from := if cond.NoNeed? then p.cur else old(nextFreq);
              if GoesUp(adj) || GoesDown(adj) then
                nextFreq in table
                && IndexOf(table, nextFreq) == Stepped(IndexOf(table, from), threadCond + memCond, maxIdx, minIdx)
              else nextFreq == old(nextFreq)
    {
      hide IndexOf, TableOk;
      var points := threadCond + memCond;
      adj := Adjusted(cond, points);
      var from := if cond.NoNeed? then p.cur else nextFreq;
      match cond {
        case Settled => high := p.cur == p.max;
        case StepUp => high := true;
        case ScaleUp => high := true;
        case NoNeed => high := points > 0;
        case _ => high := false;
      }
      if GoesUp(adj) {
        nextFreq := MoveUp(p, from, points);
      } else if GoesDown(adj) {
        nextFreq := MoveDown(p, from, points);
      }
    }

    method MoveUp(p: Policy, from: nat, points: int) returns (freq: nat)
      requires Ready(p) && InPolicy(table, p, from) && points > 0
      ensures InPolicy(table, p, freq)
      ensures IndexOf(table, freq) == Stepped(IndexOf(table, from), points, maxIdx, minIdx)
    {
      IndexOrder(table, p.max, from);
      IndexOrder(table, from, p.min);
      var index := StepsUp(IndexOf(table, from), points);
      EntryInPolicy(table, p, index);
      freq := table[index];
    }

    method MoveDown(p: Policy, from: nat, points: int) returns (freq: nat)
      requires Ready(p) && InPolicy(table, p, from) && points < 0
      ensures InPolicy(table, p, freq)
      ensures IndexOf(table, freq) == Stepped(IndexOf(table, from), points, maxIdx, minIdx)
    {
      IndexOrder(table, p.max, from);
      IndexOrder(table, from, p.min);
      var index := StepsDown(IndexOf(table, from), points);
      EntryInPolicy(table, p, index);
      freq := table[index];
    }

    /** One sample: whatever is decided, the frequency asked for is an entry of the table inside the policy, and it lies in
        the direction that load, threads and memory ask for. */
    method Sample(p: Policy, usage: nat, diff: int, threadDiff: int, memDiff: int) returns (high: bool)
      requires Ready(p) && usage <= 100
      modifies this`nextFreq, this`adj, this`lazyUp, this`lazyDown
      ensures Ready(p)
      ensures adj.NoNeed? || InPolicy(table, p, nextFreq)
      ensures AdjSays(t, p, usage, diff, Points(t, threadDiff, memDiff), adj)
      ensures adj.NoNeed? || Goes(t, p, usage, diff, Points(t, threadDiff, memDiff),
                                  (old(lazyDown) + 1) % WORD == t.lazyDown, nextFreq)
      ensures high <==> if LoadUp(t, usage, diff) then true
                        else if LoadDown(t, usage, diff) then p.min == p.cur == p.max
                        else Points(t, threadDiff, memDiff) > 0
      ensures var cond := LoadCond(t, p, usage, diff);
              var points := CheckThreadCond(t, threadDiff) + CheckMemCond(t, memDiff);
              && points == Points(t, threadDiff, memDiff)
              && adj == Adjusted(cond, points) && high == AsksHigh(p, cond, points)
              && lazyDown == (if cond.StepDown? then Gate(old(lazyDown), t.lazyDown).0 else 0)
              && (adj.NoNeed? || IndexOf(table, nextFreq)
                                 == Decision(IndexOf(table, p.cur), usage, cond, Gate(old(lazyDown), t.lazyDown).1, points,
                                             maxIdx, minIdx))
    {
      hide IndexOf, TableOk, UpPick, DownPick;
      IndexOrder(table, p.max, p.cur);
      IndexOrder(table, p.cur, p.min);
      adj := NoNeed;
      ghost var pick := Pick(IndexOf(table, p.cur), usage, LoadCond(t, p, usage, diff),
                             Gate(lazyDown, t.lazyDown).1, maxIdx, minIdx);
      var cond := CheckCpuLoadCond(p, usage, diff);
      PickInPolicy(p, usage, cond, pick);
      high := AdjustCond(p, cond, CheckThreadCond(t, threadDiff), CheckMemCond(t, memDiff));
      ghost var points := Points(t, threadDiff, memDiff);
      AdjustedSays(t, p, usage, diff, points);
      if !adj.NoNeed? {
        DecisionGoes(table, t, p, usage, diff, points, Gate(old(lazyDown), t.lazyDown).1, nextFreq, maxIdx, minIdx);
      }
      hide AdjSays, Goes, Adjusted, LoadCond;
    }

    lemma PickInPolicy(p: Policy, usage: nat, cond: Adj, i: int)
      requires Ready(p)
      requires cond.NoNeed? || (nextFreq == p.cur && i == IndexOf(table, p.cur))
               || (maxIdx <= i <= minIdx && i < |table| && nextFreq == table[i])
      ensures cond.NoNeed? || (InPolicy(table, p, nextFreq) && IndexOf(table, nextFreq) == i)
    {
      if maxIdx <= i <= minIdx && i < |table| && nextFreq == table[i] {
        EntryInPolicy(table, p, i);
      }
    }
  }

  /** `points` entries towards the maximum, or -points towards the minimum, but not past it. */
  function Stepped(index: int, points: int, maxIdx: nat, minIdx: nat): int {
    if points > 0 && index - points < maxIdx then maxIdx
    else if points < 0 && index - points > minIdx then minIdx
    else index - points
  }

  /** The index chosen by the load alone; a step down that the gate holds back stays where it is. */
  function Pick(cur: nat, usage: nat, cond: Adj, passes: bool, maxIdx: nat, minIdx: nat): int {
    if cond.StepUp? || cond.ScaleUp? then UpPick(cur, maxIdx, usage)
    else if cond.ScaleDown? || (cond.StepDown? && passes) then DownPick(cur, minIdx)
    else cur
  }

  /** The index one sample asks for, as a function of what it measured. */
  function Decision(cur: nat, usage: nat, cond: Adj, passes: bool, points: int, maxIdx: nat, minIdx: nat): int {
    var i := Pick(cur, usage, cond, passes, maxIdx, minIdx);
    var adj := Adjusted(cond, points);
    if GoesUp(adj) || GoesDown(adj) then Stepped(i, points, maxIdx, minIdx) else i
  }

  /** Whether the driver is asked with CPUFREQ_RELATION_H. */
  predicate AsksHigh(p: Policy, cond: Adj, points: int) {
    cond.StepUp? || cond.ScaleUp? || (cond.Settled? && p.cur == p.max) || (cond.NoNeed? && points > 0)
  }

  predicate GoesUp(a: Adj) {
    a.StepCondUp? || a.ScaleCondUp? || a.CondUp?
  }

  predicate GoesDown(a: Adj) {
    a.StepCondDown? || a.ScaleCondDown? || a.CondDown?
  }

  /** vbfs_adj after adjustCond. */
  function Adjusted(cond: Adj, points: int): Adj {
    match cond
    case Settled => Settled
    case StepUp => if points > 0 then StepCondUp else StepUp
    case ScaleUp => if points > 0 then ScaleCondUp else ScaleUp
    case StepDown => if points < 0 then StepCondDown else StepDown
    case ScaleDown => if points < 0 then ScaleCondDown else ScaleDown
    case _ => if points > 0 then CondUp else if points < 0 then CondDown else NoNeed
  }
}
