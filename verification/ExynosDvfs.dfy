/**
 The Exynos DVFS driver: floors and ceilings on the CPU level held by several devices, and the order in which voltage
 and clock are changed.  Level 0 is the fastest.  The regulator and the clock are fields; every state they pass through
 is recorded, also the detour of the clock over MPLL.
 */
module ExynosDvfs {

  datatype Option<T> = None | Some(value: T)

  /** The tables of the SoC; need is need_apll_change. */
  datatype Info = Info(freq: seq<nat>, volt: seq<nat>, maxIdx: nat, minIdx: nat, safeIdx: nat, mpll: nat, mpllVolt: nat,
                       need: Option<(nat, nat) -> bool>)

  datatype Clock = Level(level: nat) | Mpll

  datatype Moment = Moment(clock: Clock, volt: nat)

  datatype Policy = Policy(min: nat, max: nat)

  datatype Status = Done | NotPermitted | Invalid

  /** Faster levels need more voltage, and the safe level is at least as fast as MPLL. */
  ghost predicate TablesOk(t: Info) {
    && t.maxIdx <= t.minIdx < |t.freq| == |t.volt|
    && t.maxIdx <= t.safeIdx <= t.minIdx && t.freq[t.safeIdx] >= t.mpll
    && (forall i, j :: 0 <= i < j <= t.minIdx ==> t.freq[i] > t.freq[j] && t.volt[i] >= t.volt[j])
    && (forall i :: 0 <= i <= t.minIdx && t.freq[i] >= t.mpll ==> t.volt[i] >= t.mpllVolt)
    && (forall i :: 0 <= i <= t.minIdx ==> t.volt[i] > 0)
  }

  predicate IsLevel(t: Info, l: nat) {
    t.maxIdx <= l <= t.minIdx
  }

  predicate Enough(t: Info, m: Moment) {
    match m.clock
    case Level(l) => l < |t.volt| && m.volt >= t.volt[l]
    case Mpll => m.volt >= t.mpllVolt
  }

  /** The voltage covers every level that was clocked. */
  predicate LevelsCovered(t: Info, log: seq<Moment>) {
    forall i :: 0 <= i < |log| && log[i].clock.Level? ==> Enough(t, log[i])
  }

  /** The voltage covers every clock, the detour included. */
  predicate Covered(t: Info, log: seq<Moment>) {
    forall i :: 0 <= i < |log| ==> Enough(t, log[i])
  }

  /** The change is made over MPLL although both levels are below it. */
  predicate SlowDetour(t: Info, oldIdx: nat, newIdx: nat)
    requires oldIdx < |t.freq| && newIdx < |t.freq|
  {
    t.need.Some? && t.need.value(oldIdx, newIdx) && t.freq[newIdx] < t.mpll && t.freq[oldIdx] < t.mpll
  }

  /** exynos_get_safe_armvolt */
  function SafeArmVolt(t: Info, oldIdx: nat, newIdx: nat): nat
    requires oldIdx < |t.freq| && newIdx < |t.freq| && t.safeIdx < |t.volt|
  {
    if SlowDetour(t, oldIdx, newIdx) then t.volt[t.safeIdx] else 0
  }

  predicate OverMpll(moments: seq<Moment>) {
    exists i :: 0 <= i < |moments| && moments[i].clock.Mpll?
  }

  /** The clock goes over MPLL exactly if need_apll_change says so, and ends at the level. */
  predicate Clocked(t: Info, moments: seq<Moment>, oldIdx: nat, index: nat)
    requires index < |t.volt|
  {
    && (OverMpll(moments) <==> t.need.Some? && t.need.value(oldIdx, index))
    && moments != [] && moments[|moments| - 1] == Moment(Level(index), t.volt[index])
  }

  /** The order of voltage and clock: up before the clock rises, down after it fell, and for a slow detour first to the
      voltage of the safe level. */
  predicate Stepwise(t: Info, moments: seq<Moment>, cur: nat, volt: nat, oldIdx: nat, index: nat, volt': nat)
    requires cur < |t.freq| == |t.volt| && oldIdx < |t.freq| && index < |t.freq| && t.safeIdx < |t.volt|
  {
    var slow := t.need.Some? && t.need.value(oldIdx, index) && t.freq[oldIdx] < t.mpll && t.freq[index] < t.mpll;
    if index == cur then
      if slow then volt' == t.volt[t.safeIdx] && moments == [Moment(Level(cur), volt')] else volt' == volt && moments == []
    else
      && volt' == t.volt[index] && Clocked(t, moments, oldIdx, index)
      && (slow ==> moments[0] == Moment(Level(cur), t.volt[t.safeIdx]))
      && (!slow && index < cur ==> moments[0] == Moment(Level(cur), t.volt[index]))
      && (!slow && index > cur ==> moments[0].volt == volt && moments[0].clock != Level(cur))
  }

  /** What cpufreq_frequency_table_target may answer: some level of the policy, and the exact one for a frequency in it. */
  predicate TargetAnswer(t: Info, policy: Policy, freq: nat, answer: Option<nat>)
    requires |t.freq| > t.minIdx
  {
    answer.Some? ==>
      && IsLevel(t, answer.value)
      && (policy.min <= freq <= policy.max ==>
            forall l :: t.maxIdx <= l <= t.minIdx && t.freq[l] == freq ==> answer.value == l)
  }

  class Driver {
    const t: Info
    const pm: nat                           // DVFS_LOCK_ID_PM
    const tmu: nat                          // DVFS_LOCK_ID_TMU
    const lockVal: array<nat>
    const limitVal: array<nat>
    var lockId: set<nat>
    var limitId: set<nat>
    var lockLevel: nat
    var limitLevel: nat
    var disable: bool
    var lockDisable: bool
    var cur: nat                            // the level of policy->cur
    var volt: nat
    var log: seq<Moment>

    constructor (t: Info, ids: nat, pm: nat, tmu: nat, cur: nat, volt: nat)
      requires TablesOk(t) && IsLevel(t, cur) && volt >= t.volt[cur]
      ensures Valid() && Capped() && this.t == t && log == [] && this.cur == cur && this.volt == volt
      ensures lockId == {} && limitId == {} && lockLevel == t.minIdx && limitLevel == t.maxIdx
      ensures fresh(lockVal) && fresh(limitVal) && lockVal.Length == ids
    {
      this.t, this.pm, this.tmu := t, pm, tmu;
      lockVal := new nat[ids](_ => t.minIdx);
      limitVal := new nat[ids](_ => t.maxIdx);
      lockId, limitId := {}, {};
      lockLevel, limitLevel := t.minIdx, t.maxIdx;
      disable, lockDisable := false, false;
      this.cur, this.volt, log := cur, volt, [];
    }

    /** g_cpufreq_lock_level is the fastest level any holder asks for. */
    ghost predicate LockOk()
      reads `lockId, `lockLevel, lockVal
    {
      && (forall i :: 0 <= i < lockVal.Length ==> IsLevel(t, lockVal[i]))
      && (forall i :: 0 <= i < lockVal.Length && i !in lockId ==> lockVal[i] == t.minIdx)
      && (forall i :: 0 <= i < lockVal.Length ==> lockLevel <= lockVal[i])
      && lockLevel <= t.minIdx
      && (lockLevel == t.minIdx || exists i :: i in lockId && i < lockVal.Length && lockVal[i] == lockLevel)
    }

    /** g_cpufreq_limit_level is the slowest level any holder allows. */
    ghost predicate LimitOk()
      reads `limitId, `limitLevel, limitVal
    {
      && (forall i :: 0 <= i < limitVal.Length ==> IsLevel(t, limitVal[i]))
      && (forall i :: 0 <= i < limitVal.Length && i !in limitId ==> limitVal[i] == t.maxIdx)
      && (forall i :: 0 <= i < limitVal.Length ==> limitLevel >= limitVal[i])
      && limitLevel >= t.maxIdx
      && (limitLevel == t.maxIdx || exists i :: i in limitId && i < limitVal.Length && limitVal[i] == limitLevel)
    }

    ghost predicate Valid()
      reads this, lockVal, limitVal
    {
      && TablesOk(t) && lockVal != limitVal && lockVal.Length == limitVal.Length
      && LockOk() && LimitOk()
      && IsLevel(t, cur) && volt >= t.volt[cur]
    }

    /** The ceiling is respected. */
    predicate Capped()
      reads this
    {
      cur >= limitLevel
    }

    /** The clock is not slower than the floor of any holder, unless the ceiling is. */
    predicate FloorHeld()
      reads this, lockVal
    {
      lockDisable || cur <= limitLevel || forall i :: i in lockId && i < lockVal.Length ==> cur <= lockVal[i]
    }

    /** Only the ceiling of device id lets the clock be slower than the floor. */
    predicate CeilingHolds(id: nat)
      reads this, limitVal
    {
      && !lockDisable && t.maxIdx < cur && lockLevel < cur
      && forall i :: 0 <= i < limitVal.Length && i != id ==> limitVal[i] < cur
    }

    method SetVoltage(v: nat)
      modifies this`volt, this`log
      ensures volt == v && log == old(log) + [Moment(Level(cur), v)]
    {
      volt := v;
      log := log + [Moment(Level(cur), v)];
    }

    method SetFreq(oldIdx: nat, newIdx: nat)
      modifies this`cur, this`log
      ensures cur == newIdx
      ensures log == old(log) + Path(t, oldIdx, newIdx, volt)
    {
      if t.need.Some? && t.need.value(oldIdx, newIdx) {
        log := log + [Moment(Mpll, volt)];
      }
      cur := newIdx;
      log := log + [Moment(Level(newIdx), volt)];
    }

    /** policy->cur is inside the policy, so that cpufreq_frequency_table_target finds its level. */
    predicate InPolicy(policy: Policy)
      requires cur < |t.freq|
      reads this
    {
      policy.min <= t.freq[cur] <= policy.max
    }

    /** exynos_target; the answers are those of cpufreq_frequency_table_target for policy->cur and for the target. */
    method Target(policy: Policy, targetFreq: nat, oldAnswer: Option<nat>, answer: Option<nat>)
      returns (status: Status, ghost moments: seq<Moment>)
      requires Valid()
      requires TargetAnswer(t, policy, t.freq[cur], oldAnswer) && TargetAnswer(t, policy, targetFreq, answer)
      modifies this`cur, this`volt, this`log
      ensures Valid() && (old(Capped()) ==> Capped())
      ensures status == if !disable && (oldAnswer.None? || answer.None?) then Invalid else Done
      ensures disable || status.Invalid? ==> cur == old(cur) && volt == old(volt) && moments == []
      ensures !disable && status.Done? ==>
                && Capped() && FloorHeld()
                && (limitLevel <= answer.value && (lockDisable || answer.value <= lockLevel) ==> cur == answer.value)
                && (answer.value < limitLevel ==> cur == limitLevel)
                && (!lockDisable && answer.value > lockLevel ==> cur == if lockLevel < limitLevel then limitLevel else lockLevel)
      ensures log == old(log) + moments
      ensures old(InPolicy(policy)) ==> Covered(t, moments)
      ensures disable || status.Invalid? || Stepwise(t, moments, old(cur), old(volt), oldAnswer.value, cur, volt)
      ensures LevelsCovered(t, moments)
              <==> disable || status.Invalid?
                   || !(t.need.Some? && t.need.value(oldAnswer.value, cur) && t.freq[cur] < t.mpll
                        && t.freq[oldAnswer.value] < t.mpll && t.volt[old(cur)] > t.volt[t.safeIdx])
    {
      CoveredNone(t);
      hide LockOk, LimitOk, LevelsCovered, Covered, Stepwise;
      moments := [];
      if disable {
        status := Done;
        return;
      }
      if oldAnswer.None? || answer.None? {
        status := Invalid;
        return;
      }
      status := Done;
      var index := answer.value;
      if !lockDisable && index > lockLevel {
        index := lockLevel;
      }
      if index < limitLevel {
        index := limitLevel;
      }
      LevelInRange(index);
      assert old(InPolicy(policy)) ==> oldAnswer.value == cur;
      hide TablesOk, TargetAnswer, FloorHeld;
      moments := ChangeTo(policy, oldAnswer.value, index);
      LowestFloor();
    }

    /** The voltage and clock steps of exynos_target. */
    method ChangeTo(policy: Policy, oldIdx: nat, index: nat) returns (ghost moments: seq<Moment>)
      requires TablesOk(t) && IsLevel(t, cur) && volt >= t.volt[cur] && IsLevel(t, oldIdx) && IsLevel(t, index)
      requires InPolicy(policy) ==> oldIdx == cur
      modifies this`cur, this`volt, this`log
      ensures cur == index && volt >= t.volt[index] && log == old(log) + moments
      ensures Stepwise(t, moments, old(cur), old(volt), oldIdx, index, volt)
      ensures old(InPolicy(policy)) ==> Covered(t, moments)
      ensures LevelsCovered(t, moments)
              <==> !(t.need.Some? && t.need.value(oldIdx, index) && t.freq[index] < t.mpll && t.freq[oldIdx] < t.mpll
                     && t.volt[old(cur)] > t.volt[t.safeIdx])
    {
      ChangeCovered(t, policy, cur, volt, oldIdx, index);
      ChangeStepwise(t, cur, volt, oldIdx, index);
      moments := Change(t, cur, volt, oldIdx, index);
      hide LevelsCovered, Covered, Stepwise;
      ChangeSteps(oldIdx, index);
    }

    /** The calls of the regulator and the clock. */
    method ChangeSteps(oldIdx: nat, index: nat)
      requires TablesOk(t) && IsLevel(t, cur) && volt >= t.volt[cur] && IsLevel(t, oldIdx) && IsLevel(t, index)
      modifies this`cur, this`volt, this`log
      ensures cur == index && volt >= t.volt[index]
      ensures log == old(log) + Change(t, old(cur), old(volt), oldIdx, index)
      ensures volt == if index != old(cur) then t.volt[index]
                      else if SlowDetour(t, oldIdx, index) then t.volt[t.safeIdx] else old(volt)
    {
      var oldFreq, newFreq := t.freq[cur], t.freq[index];
      var safe := SafeArmVolt(t, oldIdx, index);
      if newFreq > oldFreq && safe == 0 {
        SetVoltage(t.volt[index]);
      }
      if safe != 0 {
        SetVoltage(safe);
      }
      if newFreq != oldFreq {
        SetFreq(oldIdx, index);
      }
      if newFreq < oldFreq || (newFreq > oldFreq && safe != 0) {
        SetVoltage(t.volt[index]);
      }
    }

    /** The loop over freq_table that looks for policy->cur. */
    method FindLevel(freq: nat) returns (found: Option<nat>)
      requires TablesOk(t)
      ensures found.Some? ==> found.value <= t.minIdx && t.freq[found.value] == freq
      ensures found.None? ==> forall i :: 0 <= i <= t.minIdx ==> t.freq[i] != freq
    {
      for i := 0 to t.minIdx + 1
        invariant forall j :: 0 <= j < i ==> t.freq[j] != freq
      {
        if freq == t.freq[i] {
          return Some(i);
        }
      }
      return None;
    }

    /** exynos_cpufreq_lock */
    method Lock(id: nat, level: nat) returns (status: Status, ghost moments: seq<Moment>)
      requires Valid() && id < lockVal.Length && IsLevel(t, level)
      modifies this`lockId, this`lockLevel, this`cur, this`volt, this`log, lockVal
      ensures Valid() && log == old(log) + moments && LevelsCovered(t, moments)
      ensures var refused := disable && id != tmu;
              && status == (if refused then NotPermitted else Done)
              && (refused || id in old(lockId) ==>
                    lockId == old(lockId) && lockVal[..] == old(lockVal[..]) && cur == old(cur) && volt == old(volt))
              && (!refused && id !in old(lockId) ==>
                    && lockId == old(lockId) + {id} && lockVal[..] == old(lockVal[..])[id := level]
                    && cur == (if (id == pm || (lockLevel >= limitLevel && !lockDisable)) && level < old(cur) then level
                               else old(cur)))
      ensures if cur == old(cur) then moments == [] && volt == old(volt)
              else Stepwise(t, moments, old(cur), old(volt), old(cur), level, volt)
      ensures old(FloorHeld()) ==>
                (FloorHeld() <==> !(id != pm && !lockDisable && level < limitLevel < cur && id !in old(lockId) && status.Done?))
      ensures old(Capped()) ==>
                (Capped() <==> !(id == pm && level < limitLevel && id !in old(lockId) && status.Done?))
    {
      moments := [];
      if disable && id != tmu {
        status := NotPermitted;
        return;
      }
      status := Done;
      if id in lockId {
        return;
      }
      hide LockOk, LimitOk, LevelsCovered, Stepwise, FloorHeld, TablesOk;
      moments := LockNew(id, level);
    }

    /** The rest of it for a device that holds no floor. */
    method LockNew(id: nat, level: nat) returns (ghost moments: seq<Moment>)
      requires Valid() && id < lockVal.Length && IsLevel(t, level) && id !in lockId
      modifies this`lockId, this`lockLevel, this`cur, this`volt, this`log, lockVal
      ensures Valid() && log == old(log) + moments && LevelsCovered(t, moments)
      ensures lockId == old(lockId) + {id} && lockVal[..] == old(lockVal[..])[id := level]
      ensures cur == if (id == pm || (lockLevel >= limitLevel && !lockDisable)) && level < old(cur) then level else old(cur)
      ensures if cur == old(cur) then moments == [] && volt == old(volt)
              else Stepwise(t, moments, old(cur), old(volt), old(cur), level, volt)
      ensures old(FloorHeld()) ==> (FloorHeld() <==> !(id != pm && !lockDisable && level < limitLevel < cur))
      ensures old(Capped()) ==> (Capped() <==> !(id == pm && level < limitLevel))
    {
      hide LockOk, LimitOk, LevelsCovered, Stepwise, FloorHeld;
      moments := [];
      CoveredNone(t);
      LowestFloor();
      TakeLock(id, level);
      if (lockLevel < limitLevel || lockDisable) && id != pm {
        LowestFloor();
        return;
      }
      moments := RiseTo(level);
      LowestFloor();
    }

    /** The part of exynos_cpufreq_lock under set_freq_lock. */
    method RiseTo(level: nat) returns (ghost moments: seq<Moment>)
      requires TablesOk(t) && IsLevel(t, cur) && volt >= t.volt[cur] && IsLevel(t, level)
      modifies this`cur, this`volt, this`log
      ensures cur == (if level < old(cur) then level else old(cur)) && volt >= t.volt[cur]
      ensures log == old(log) + moments && LevelsCovered(t, moments)
      ensures if cur == old(cur) then moments == [] && volt == old(volt)
              else Stepwise(t, moments, old(cur), old(volt), old(cur), level, volt)
    {
      hide LevelsCovered, SafeArmVolt, SlowDetour, Path, Raise, Stepwise;
      moments := [];
      CoveredNone(t);
      if t.freq[cur] < t.freq[level] {
        var found := FindLevel(t.freq[cur]);
        if found.None? {
          assert false;
        }
        moments := Raise(t, cur, found.value, level);
        RaiseCovered(t, cur, level);
        RaiseStepwise(t, cur, volt, level);
        RaiseTo(found.value, level);
      }
    }

    /** The part of exynos_cpufreq_lock under set_cpu_freq_lock. */
    method TakeLock(id: nat, level: nat)
      requires TablesOk(t) && LockOk() && id < lockVal.Length && IsLevel(t, level) && id !in lockId
      modifies this`lockId, this`lockLevel, lockVal
      ensures LockOk() && lockId == old(lockId) + {id} && lockVal[..] == old(lockVal[..])[id := level]
      ensures lockLevel == if level < old(lockLevel) then level else old(lockLevel)
    {
      lockId := lockId + {id};
      lockVal[id] := level;
      if level < lockLevel {
        lockLevel := level;
        assert lockVal[id] == lockLevel;
      }
    }

    method RaiseTo(oldIdx: nat, level: nat)
      requires TablesOk(t) && IsLevel(t, cur) && IsLevel(t, level) && oldIdx == cur
      modifies this`cur, this`volt, this`log
      ensures cur == level && volt == t.volt[level] && log == old(log) + Raise(t, old(cur), oldIdx, level)
    {
      var safe := SafeArmVolt(t, oldIdx, level);
      if safe != 0 {
        SetVoltage(safe);
      }
      SetVoltage(t.volt[level]);
      SetFreq(oldIdx, level);
    }

    /** exynos_cpufreq_lock_free */
    method LockFree(id: nat)
      requires Valid() && id < lockVal.Length
      modifies this`lockId, this`lockLevel, lockVal
      ensures Valid() && (old(Capped()) ==> Capped()) && (old(FloorHeld()) ==> FloorHeld())
      ensures lockId == old(lockId) - {id} && lockVal[..] == old(lockVal[..])[id := t.minIdx]
    {
      lockId := lockId - {id};
      lockVal[id] := t.minIdx;
      lockLevel := t.minIdx;
      if lockId != {} {
        for i := 0 to lockVal.Length
          modifies this`lockLevel
          invariant lockLevel <= t.minIdx && forall j :: 0 <= j < i ==> lockLevel <= lockVal[j]
          invariant lockLevel == t.minIdx || exists j :: j in lockId && j < lockVal.Length && lockVal[j] == lockLevel
        {
          if lockVal[i] < lockLevel {
            lockLevel := lockVal[i];
          }
        }
      }
    }

    /** exynos_cpufreq_upper_limit */
    method UpperLimit(id: nat, level: nat) returns (status: Status, ghost moments: seq<Moment>)
      requires Valid() && id < limitVal.Length && IsLevel(t, level)
      modifies this`limitId, this`limitLevel, this`cur, this`volt, this`log, limitVal
      ensures Valid() && log == old(log) + moments && LevelsCovered(t, moments)
      ensures status == if disable then NotPermitted else Done
      ensures disable || id in old(limitId) ==>
                limitId == old(limitId) && limitVal[..] == old(limitVal[..]) && cur == old(cur) && volt == old(volt)
      ensures !disable && id !in old(limitId) ==>
                && limitId == old(limitId) + {id} && limitVal[..] == old(limitVal[..])[id := level]
                && cur == (if level > old(cur) then level else old(cur))
      ensures if cur == old(cur) then moments == [] && volt == old(volt)
              else volt == t.volt[cur] && Clocked(t, moments, old(cur), cur)
                   && moments[0].volt == old(volt) && moments[0].clock != Level(old(cur))
      ensures (old(Capped()) ==> Capped()) && (old(FloorHeld()) ==> FloorHeld())
    {
      moments := [];
      if disable {
        status := NotPermitted;
        return;
      }
      status := Done;
      if id in limitId {
        return;
      }
      hide LockOk, LimitOk, LevelsCovered, TablesOk;
      TakeLimit(id, level);
      moments := FallTo(level);
    }

    /** The part of exynos_cpufreq_upper_limit under set_freq_lock. */
    method FallTo(level: nat) returns (ghost moments: seq<Moment>)
      requires TablesOk(t) && IsLevel(t, cur) && volt >= t.volt[cur] && IsLevel(t, level)
      modifies this`cur, this`volt, this`log
      ensures cur == (if level > old(cur) then level else old(cur)) && volt >= t.volt[cur]
      ensures log == old(log) + moments && LevelsCovered(t, moments)
      ensures if cur == old(cur) then moments == [] && volt == old(volt)
              else volt == t.volt[cur] && Clocked(t, moments, old(cur), cur)
                   && moments[0].volt == old(volt) && moments[0].clock != Level(old(cur))
    {
      hide LevelsCovered, SafeArmVolt, SlowDetour, Path, Lower;
      moments := [];
      CoveredNone(t);
      if t.freq[cur] > t.freq[level] {
        var found := FindLevel(t.freq[cur]);
        if found.None? {
          assert false;
        }
        moments := Lower(t, volt, found.value, level);
        LowerCovered(t, cur, volt, level);
        LowerStepwise(t, cur, volt, level);
        LowerTo(found.value, level);
      }
    }

    method TakeLimit(id: nat, level: nat)
      requires TablesOk(t) && LimitOk() && id < limitVal.Length && IsLevel(t, level) && id !in limitId
      modifies this`limitId, this`limitLevel, limitVal
      ensures LimitOk() && limitId == old(limitId) + {id} && limitVal[..] == old(limitVal[..])[id := level]
      ensures limitLevel == if level > old(limitLevel) then level else old(limitLevel)
    {
      limitId := limitId + {id};
      limitVal[id] := level;
      if level > limitLevel {
        limitLevel := level;
        assert limitVal[id] == limitLevel;
      }
    }

    method LowerTo(oldIdx: nat, level: nat)
      requires TablesOk(t) && IsLevel(t, oldIdx) && IsLevel(t, level)
      modifies this`cur, this`volt, this`log
      ensures cur == level && volt == t.volt[level] && log == old(log) + Lower(t, old(volt), oldIdx, level)
    {
      SetFreq(oldIdx, level);
      var safe := SafeArmVolt(t, oldIdx, level);
      if safe != 0 {
        SetVoltage(safe);
      }
      SetVoltage(t.volt[level]);
    }

    /** exynos_cpufreq_upper_limit_free */
    method UpperLimitFree(id: nat)
      requires Valid() && id < limitVal.Length
      modifies this`limitId, this`limitLevel, limitVal
      ensures Valid() && (old(Capped()) ==> Capped())
      ensures limitId == old(limitId) - {id} && limitVal[..] == old(limitVal[..])[id := t.maxIdx]
      ensures old(FloorHeld()) ==> (FloorHeld() <==> !old(CeilingHolds(id)))
    {
      hide LockOk;
      LowestFloor();
      RecomputeLimit(id);
      LowestFloor();
    }

    /** The part of exynos_cpufreq_upper_limit_free under set_cpu_freq_lock. */
    method RecomputeLimit(id: nat)
      requires t.maxIdx <= t.minIdx && LimitOk() && id < limitVal.Length
      modifies this`limitId, this`limitLevel, limitVal
      ensures LimitOk() && limitLevel <= old(limitLevel)
      ensures limitId == old(limitId) - {id} && limitVal[..] == old(limitVal[..])[id := t.maxIdx]
      ensures cur <= limitLevel <==> cur <= t.maxIdx || exists i :: 0 <= i < limitVal.Length && i != id && cur <= old(limitVal[i])
    {
      ghost var before := limitLevel;
      limitId := limitId - {id};
      limitVal[id] := t.maxIdx;
      limitLevel := t.maxIdx;
      if limitId != {} {
        for i := 0 to limitVal.Length
          modifies this`limitLevel
          invariant t.maxIdx <= limitLevel <= before && forall j :: 0 <= j < i ==> limitLevel >= limitVal[j]
          invariant limitLevel == t.maxIdx || exists j :: j in limitId && j < limitVal.Length && limitVal[j] == limitLevel
        {
          if limitVal[i] > limitLevel {
            limitLevel := limitVal[i];
          }
        }
      }
      assert forall i :: 0 <= i < limitVal.Length && i != id ==> limitVal[i] == old(limitVal[i]);
    }

    lemma LevelInRange(index: nat)
      requires Valid() && (index == lockLevel || index == limitLevel || IsLevel(t, index))
      ensures IsLevel(t, index)
    {
    }

    /** exynos_cpufreq_level_fix */
    method LevelFix(policy: Policy, freq: nat, oldAnswer: Option<nat>, answer: Option<nat>)
      returns (status: Status, ghost moments: seq<Moment>)
      requires Valid()
      requires TargetAnswer(t, policy, t.freq[cur], oldAnswer) && TargetAnswer(t, policy, freq, answer)
      modifies this`cur, this`volt, this`log, this`disable
      ensures Valid() && (old(Capped()) ==> Capped()) && disable
      ensures old(disable) ==> status == NotPermitted && cur == old(cur) && moments == []
      ensures !old(disable) ==> status == if oldAnswer.None? || answer.None? then Invalid else Done
      ensures status.Invalid? ==> cur == old(cur) && volt == old(volt) && moments == []
      ensures status.Done? ==>
                && Capped() && FloorHeld()
                && (limitLevel <= answer.value && (lockDisable || answer.value <= lockLevel) ==> cur == answer.value)
                && (answer.value < limitLevel ==> cur == limitLevel)
                && (!lockDisable && answer.value > lockLevel ==> cur == if lockLevel < limitLevel then limitLevel else lockLevel)
                && Stepwise(t, moments, old(cur), old(volt), oldAnswer.value, cur, volt)
      ensures log == old(log) + moments && (old(InPolicy(policy)) ==> Covered(t, moments))
      ensures !status.Done? && old(FloorHeld()) ==> FloorHeld()
    {
      moments := [];
      if disable {
        status := NotPermitted;
        return;
      }
      status, moments := Target(policy, freq, oldAnswer, answer);
      disable := true;
    }

    method LevelUnfix()
      modifies this`disable
      ensures !disable
    {
      disable := false;
    }

    /** exynos_cpufreq_policy_notifier_call: some governors ignore the floor. */
    method SetGovernor(ignoresFloor: bool)
      modifies this`lockDisable
      ensures lockDisable == ignoresFloor
    {
      lockDisable := ignoresFloor;
    }

    /** The call lets the clock be slower than a floor: a floor above the ceiling is taken while the clock is below the
        ceiling, the ceiling that held the clock is lifted, or the floors begin to count. */
    predicate Unsettles(c: Call)
      requires Valid() && CallOk(t, lockVal.Length, c)
      reads this, lockVal, limitVal
    {
      match c
      case LockCall(id, level) =>
        id != pm && !lockDisable && level < limitLevel < cur && id !in lockId && (!disable || id == tmu)
      case LimitFreeCall(id) => CeilingHolds(id)
      case GovernorCall(ignoresFloor) => !ignoresFloor && limitLevel < cur && lockLevel < cur
      case _ => false
    }

    /**
     Any sequence of calls.  Answers that cpufreq_frequency_table_target cannot give are skipped.  Without PM locks the
     ceiling always holds, and the voltage covers every level ever clocked as long as no target call is stale, that is,
     made while policy->cur is outside the policy.  After a completed target call, and until a call unsettles it, the
     clock is not slower than the floor of any holder unless the ceiling is.
     */
    method Run(calls: seq<Call>) returns (stale: bool, settled: bool)
      requires Valid() && LevelsCovered(t, log)
      requires forall i :: 0 <= i < |calls| ==> CallOk(t, lockVal.Length, calls[i])
      modifies this, lockVal, limitVal
      ensures Valid()
      ensures old(Capped()) && (forall i :: 0 <= i < |calls| ==> !IsPmLock(pm, calls[i])) ==> Capped()
      ensures !stale ==> LevelsCovered(t, log)
      ensures settled ==> FloorHeld()
    {
      stale, settled := false, FloorHeld();
      for i := 0 to |calls|
        invariant Valid()
        invariant old(Capped()) && (forall j :: 0 <= j < i ==> !IsPmLock(pm, calls[j])) ==> Capped()
        invariant !stale ==> LevelsCovered(t, log)
        invariant settled ==> FloorHeld()
      {
        var unsettles := Unsettles(calls[i]);
        var late, completed := Dispatch(calls[i]);
        stale := stale || late;
        settled := completed || (settled && !unsettles);
      }
    }

    /** One call; `completed` says that it was a target call that went to its level. */
    method Dispatch(c: Call) returns (stale: bool, completed: bool)
      requires Valid() && CallOk(t, lockVal.Length, c)
      modifies this, lockVal, limitVal
      ensures Valid()
      ensures old(Capped()) && !IsPmLock(pm, c) ==> Capped()
      ensures old(LevelsCovered(t, log)) && !stale ==> LevelsCovered(t, log)
      ensures completed ==> FloorHeld() && Capped()
      ensures old(FloorHeld()) && !completed ==> (FloorHeld() <==> !old(Unsettles(c)))
    {
      stale, completed := false, false;
      ghost var moments: seq<Moment> := [];
      ghost var before := log;
      hide LockOk, LimitOk, Covered, SlowDetour, LevelsCovered, Stepwise, Clocked;
      CoveredNone(t);
      match c {
        case TargetCall(policy, freq, oldAnswer, answer) =>
          if TargetAnswer(t, policy, t.freq[cur], oldAnswer) && TargetAnswer(t, policy, freq, answer) {
            stale := !InPolicy(policy);
            var status;
            status, moments := Target(policy, freq, oldAnswer, answer);
            completed := status.Done? && !disable;
            CoveredLevels(t, moments);
          }
        case FixCall(policy, freq, oldAnswer, answer) =>
          if TargetAnswer(t, policy, t.freq[cur], oldAnswer) && TargetAnswer(t, policy, freq, answer) {
            stale := !InPolicy(policy);
            var status;
            status, moments := LevelFix(policy, freq, oldAnswer, answer);
            completed := status.Done?;
            CoveredLevels(t, moments);
          }
        case UnfixCall => LevelUnfix();
        case GovernorCall(ignoresFloor) =>
          SetGovernor(ignoresFloor);
          LowestFloor();
        case LockCall(id, level) =>
          var status;
          status, moments := Lock(id, level);
        case FreeCall(id) => LockFree(id);
        case LimitCall(id, level) =>
          var status;
          status, moments := UpperLimit(id, level);
        case LimitFreeCall(id) => UpperLimitFree(id);
      }
      assert log == before + moments;
      CoveredAppend(t, before, moments);
    }

    /** The floor is that of some holder. */
    lemma LowestFloor()
      requires Valid()
      ensures FloorHeld() <==> lockDisable || cur <= limitLevel || cur <= lockLevel
    {
      if forall i :: i in lockId && i < lockVal.Length ==> cur <= lockVal[i] {
        assert cur <= lockLevel;
      }
    }
  }

  function Raise(t: Info, cur: nat, oldIdx: nat, level: nat): seq<Moment>
    requires oldIdx < |t.freq| == |t.volt| && level < |t.freq| && t.safeIdx < |t.volt|
  {
    var safe := SafeArmVolt(t, oldIdx, level);
    (if safe != 0 then [Moment(Level(cur), safe)] else []) + [Moment(Level(cur), t.volt[level])]
    + Path(t, oldIdx, level, t.volt[level])
  }

  lemma RaiseCovered(t: Info, cur: nat, level: nat)
    requires TablesOk(t) && IsLevel(t, cur) && IsLevel(t, level) && level < cur
    ensures LevelsCovered(t, Raise(t, cur, cur, level))
  {
  }

  lemma OverMpllAppend(a: seq<Moment>, b: seq<Moment>)
    ensures OverMpll(a + b) <==> OverMpll(a) || OverMpll(b)
  {
    if OverMpll(a) {
      var i :| 0 <= i < |a| && a[i].clock.Mpll?;
      assert (a + b)[i].clock.Mpll?;
    }
    if OverMpll(b) {
      var i :| 0 <= i < |b| && b[i].clock.Mpll?;
      assert (a + b)[|a| + i].clock.Mpll?;
    }
  }

  lemma PathClocked(t: Info, before: seq<Moment>, oldIdx: nat, index: nat, volt: nat)
    requires index < |t.volt|
    ensures OverMpll(before + Path(t, oldIdx, index, volt))
            <==> OverMpll(before) || (t.need.Some? && t.need.value(oldIdx, index))
  {
    OverMpllAppend(before, Path(t, oldIdx, index, volt));
    if t.need.Some? && t.need.value(oldIdx, index) { assert Path(t, oldIdx, index, volt)[0].clock.Mpll?; }
  }

  lemma RaiseStepwise(t: Info, cur: nat, volt: nat, level: nat)
    requires TablesOk(t) && IsLevel(t, cur) && IsLevel(t, level) && level < cur
    ensures Stepwise(t, Raise(t, cur, cur, level), cur, volt, cur, level, t.volt[level])
  {
    var safe := SafeArmVolt(t, cur, level);
    var before := (if safe != 0 then [Moment(Level(cur), safe)] else []) + [Moment(Level(cur), t.volt[level])];
    assert forall i :: 0 <= i < |before| ==> !before[i].clock.Mpll?;
    PathClocked(t, before, cur, level, t.volt[level]);
  }

  function Lower(t: Info, volt: nat, oldIdx: nat, level: nat): seq<Moment>
    requires oldIdx < |t.freq| == |t.volt| && level < |t.freq| && t.safeIdx < |t.volt|
  {
    var safe := SafeArmVolt(t, oldIdx, level);
    Path(t, oldIdx, level, volt) + (if safe != 0 then [Moment(Level(level), safe)] else [])
    + [Moment(Level(level), t.volt[level])]
  }

  /** The voltage comes down only after the clock did. */
  lemma LowerStepwise(t: Info, cur: nat, volt: nat, level: nat)
    requires TablesOk(t) && IsLevel(t, cur) && IsLevel(t, level) && cur < level
    ensures var moments := Lower(t, volt, cur, level);
            && Clocked(t, moments, cur, level) && moments[0].volt == volt && moments[0].clock != Level(cur)
            && (t.need.Some? && t.need.value(cur, level) && t.freq[cur] < t.mpll && t.freq[level] < t.mpll ==>
                  |moments| >= 2 && moments[|moments| - 2] == Moment(Level(level), t.volt[t.safeIdx]))
  {
    var safe := SafeArmVolt(t, cur, level);
    var after := (if safe != 0 then [Moment(Level(level), safe)] else []) + [Moment(Level(level), t.volt[level])];
    assert forall i :: 0 <= i < |after| ==> !after[i].clock.Mpll?;
    assert Lower(t, volt, cur, level) == Path(t, cur, level, volt) + after;
    PathClocked(t, [], cur, level, volt);
    assert [] + Path(t, cur, level, volt) == Path(t, cur, level, volt);
    OverMpllAppend(Path(t, cur, level, volt), after);
  }

  lemma LowerCovered(t: Info, cur: nat, volt: nat, level: nat)
    requires TablesOk(t) && IsLevel(t, cur) && IsLevel(t, level) && cur < level && volt >= t.volt[cur]
    ensures LevelsCovered(t, Lower(t, volt, cur, level))
  {
  }

  datatype Call =
    | TargetCall(policy: Policy, freq: nat, oldAnswer: Option<nat>, answer: Option<nat>)
    | FixCall(policy: Policy, freq: nat, oldAnswer: Option<nat>, answer: Option<nat>)
    | UnfixCall
    | GovernorCall(ignoresFloor: bool)
    | LockCall(id: nat, level: nat)
    | FreeCall(id: nat)
    | LimitCall(id: nat, level: nat)
    | LimitFreeCall(id: nat)

  predicate CallOk(t: Info, ids: nat, c: Call) {
    match c
    case LockCall(id, level) => id < ids && IsLevel(t, level)
    case FreeCall(id) => id < ids
    case LimitCall(id, level) => id < ids && IsLevel(t, level)
    case LimitFreeCall(id) => id < ids
    case _ => true
  }

  predicate IsPmLock(pm: nat, c: Call) {
    c.LockCall? && c.id == pm
  }

  lemma CoveredAppend(t: Info, log: seq<Moment>, moments: seq<Moment>)
    ensures LevelsCovered(t, log) && LevelsCovered(t, moments) ==> LevelsCovered(t, log + moments)
  {
  }

  lemma CoveredLevels(t: Info, moments: seq<Moment>)
    ensures Covered(t, moments) ==> LevelsCovered(t, moments)
  {
  }

  /** The moments of exynos_target, from level cur at voltage volt. */
  function Change(t: Info, cur: nat, volt: nat, oldIdx: nat, index: nat): seq<Moment>
    requires cur < |t.freq| == |t.volt| && oldIdx < |t.freq| && index < |t.freq| && t.safeIdx < |t.volt|
  {
    var safe := SafeArmVolt(t, oldIdx, index);
    var up, down := t.freq[index] > t.freq[cur], t.freq[index] < t.freq[cur];
    var v := if safe != 0 then safe else if up then t.volt[index] else volt;
    (if up || safe != 0 then [Moment(Level(cur), v)] else [])
    + (if up || down then Path(t, oldIdx, index, v) else [])
    + (if down || (up && safe != 0) then [Moment(Level(index), t.volt[index])] else [])
  }

  lemma CoveredNone(t: Info)
    ensures LevelsCovered(t, []) && Covered(t, [])
  {
  }

  /** The record of a change is one of its steps in the right order. */
  lemma ChangeStepwise(t: Info, cur: nat, volt: nat, oldIdx: nat, index: nat)
    requires TablesOk(t) && IsLevel(t, cur) && IsLevel(t, oldIdx) && IsLevel(t, index)
    ensures var slow := t.need.Some? && t.need.value(oldIdx, index) && t.freq[oldIdx] < t.mpll && t.freq[index] < t.mpll;
            Stepwise(t, Change(t, cur, volt, oldIdx, index), cur, volt, oldIdx, index,
                     if index != cur then t.volt[index] else if slow then t.volt[t.safeIdx] else volt)
  {
    var safe := SafeArmVolt(t, oldIdx, index);
    var up, down := index < cur, index > cur;
    var v := if safe != 0 then safe else if up then t.volt[index] else volt;
    var before := if up || safe != 0 then [Moment(Level(cur), v)] else [];
    var after := if down || (up && safe != 0) then [Moment(Level(index), t.volt[index])] else [];
    assert !OverMpll(before) && !OverMpll(after);
    if index != cur {
      assert Change(t, cur, volt, oldIdx, index) == before + Path(t, oldIdx, index, v) + after;
      PathClocked(t, before, oldIdx, index, v);
      OverMpllAppend(before + Path(t, oldIdx, index, v), after);
    }
  }

  /** With the true old level the voltage covers everything, the detour included. */
  lemma FreshCovered(t: Info, cur: nat, volt: nat, index: nat)
    requires TablesOk(t) && IsLevel(t, cur) && IsLevel(t, index) && volt >= t.volt[cur]
    ensures Covered(t, Change(t, cur, volt, cur, index))
  {
  }

  lemma ChangeCovered(t: Info, policy: Policy, cur: nat, volt: nat, oldIdx: nat, index: nat)
    requires TablesOk(t) && IsLevel(t, cur) && IsLevel(t, oldIdx) && IsLevel(t, index) && volt >= t.volt[cur]
    requires policy.min <= t.freq[cur] <= policy.max ==> oldIdx == cur
    ensures policy.min <= t.freq[cur] <= policy.max ==> Covered(t, Change(t, cur, volt, oldIdx, index))
    ensures LevelsCovered(t, Change(t, cur, volt, oldIdx, index))
            <==> !(SlowDetour(t, oldIdx, index) && t.volt[cur] > t.volt[t.safeIdx])
  {
    if policy.min <= t.freq[cur] <= policy.max { FreshCovered(t, cur, volt, index); }
    hide Covered;
    var moments := Change(t, cur, volt, oldIdx, index);
    if SlowDetour(t, oldIdx, index) && t.volt[cur] > t.volt[t.safeIdx] {
      assert moments[0] == Moment(Level(cur), t.volt[t.safeIdx]);
      assert !Enough(t, moments[0]);
    }
  }

  /** What the clock goes through in set_freq. */
  function Path(t: Info, oldIdx: nat, newIdx: nat, volt: nat): seq<Moment> {
    (if t.need.Some? && t.need.value(oldIdx, newIdx) then [Moment(Mpll, volt)] else []) + [Moment(Level(newIdx), volt)]
  }

  /** A policy lowered below the current frequency makes the old level look slow, and the voltage drops too early. */
  lemma StaleTargetUndervolts() returns (t: Info, policy: Policy, cur: nat, freq: nat, oldAnswer: Option<nat>, answer: Option<nat>)
    ensures TablesOk(t) && IsLevel(t, cur) && t.freq[cur] > policy.max
    ensures TargetAnswer(t, policy, t.freq[cur], oldAnswer) && TargetAnswer(t, policy, freq, answer)
    ensures oldAnswer.Some? && answer.Some?
            && !LevelsCovered(t, Change(t, cur, t.volt[cur], oldAnswer.value, answer.value))
  {
    t := Info([1400, 1000, 800, 500, 200], [5, 4, 3, 2, 1], 0, 4, 2, 800, 3, Some((a, b) => true));
    policy, cur, freq, oldAnswer, answer := Policy(200, 500), 0, 200, Some(3), Some(4);
    ChangeCovered(t, policy, cur, t.volt[cur], 3, 4);
  }
}
