# Models of the scheduler, DVFS and attribute allocation

This project models eight parts of the repository and proves what they promise, for all inputs, runs or reachable
states.  Most of it is the Linux 3.0 scheduler in `kernel/sched.c`, built for a 32-bit ARM machine with
`CONFIG_RT_GROUP_SCHED=y`; beside it stand the Exynos DVFS driver, the VBFS cpufreq governor and the attribute allocator
of the GLSL linker.  `dafny verify dfyconfig.toml` checks everything.

## Parts

- **Wakeup and context switch** (`WakeProtocol`, `WakeInvariant`, `WakeSafety`, `WakeEffects`, `WakeProgress`,
  `WakeStaleMatch`).  A state machine whose steps are the lockless accesses (on_rq, on_cpu, the cmpxchg and xchg on a
  wake list) and the critical sections of `try_to_wake_up`, `ttwu_queue`, `scheduler_ipi`, `__schedule`,
  `try_to_wake_up_local`, `wake_up_new_task`, `__migrate_task`, load balancing and `set_cpus_allowed_ptr`, for any
  number of CPUs and tasks.  A CPU that holds a pi_lock, schedules or handles an IPI has interrupts disabled and does
  nothing else until it is done.  One inductive invariant gives single placement, no lost wakeup, an always served wake
  list, a correct lock-free stack and conserved counters.  What each wakeup, switch and migration does is stated in the
  fields of tasks and runqueues.  From every reachable state every such section can be left, the busy wait on `on_cpu`
  included.
- **Real-time bandwidth** (`TaskGroups`, `RtBandwidth`, `RtAdmission`, `RtGuarantee`).  The stackless tree walk against
  the recursive traversal; the hypothetical check of a whole hierarchy; every operation keeps the hierarchy admitted;
  hence no choice of independent groups claims more than the global bandwidth.  Shifts and sums wrap as in the source.
- **Load averages** (`FixedPoint`, `LoadAverage`, `CpuLoad`).  Fast forms against simple iterations with error bounds over
  the reals, 32-bit wrap-around explicit, and the exact condition under which the bounds hold.
- **Completions** (`Completion`).  Tokens are conserved and no waiter is stranded under any interleaving.
- **Scheduling domains** (`SchedGroups`, `SchedAttach`, `SchedPartition`).  Chains and circular group lists, checked
  against the specification that `sched_domain_debug_one` states in the code and against the spans of the level below;
  pruning on linked objects; re-partitioning by difference against rebuilding from nothing.
- **Lock order** (`LockOrder`) and **load accounting** (`LoadAccounting`).  Deadlock freedom and mutual exclusion for any
  number of threads, trylock paths included; the sum of the per-CPU counts against the two global counters.
- **Attribute locations** (`AttributeLinker`).  The four passes over a mask of used slots.
- **DVFS** (`ExynosDvfs`).  Floors and ceilings of several holders; every state of voltage and clock is recorded, so the
  order of the two is a property of the record.
- **VBFS** (`VbfsGovernor`).  Signed and unsigned index arithmetic, the lazy gate, and one whole sample as a function.

Concurrency is interleaving of atomic, sequentially consistent steps.  Code that updates state in place is a class with
methods proved against functions; the properties are lemmas about those functions.  Fields named as history
(`pending`, `drained`, `pushes`, `pops`, `log`) and the witnesses `depth` and `height` of a tree are not in the source.

## Where a property fails

- `try_to_wake_up` tests the state once.  A task that is still queued can go on to another sleep, even `TASK_DEAD`, before
  it is marked; one that was off its runqueue at the test cannot.  `WakeStaleMatch.MarksTestedStateIff` gives the exact
  condition for every reachable state, `WakeStaleMatch.DeadTaskWoken` a state on two CPUs in which it is met.
- A task runs only where its mask allows until `set_cpus_allowed_ptr` excludes its CPU, and no longer
  (`WakeSafety.OutsideIff`): it stays where it is until the stopper moves it.  One that waits on a wake list at that time
  is not queued, so no stopper is asked, and it is activated on the forbidden CPU (`WakeSafety.ListedShutOut`).
- `timeout ?: 1` returns a negative timeout unchanged.  `wait_for_completion_timeout` takes an unsigned long, so a value
  above LONG_MAX consumes a token and reports an error; `Completion.SuccessIffConsumed` says exactly when.
- `decay_load_missed` claims an efficient form of the exact decay.  In 32 bits the bound holds for every average and number
  of ticks if and only if the load is below 35791395 (`CpuLoad.DecayOkIff`); likewise `calc_load` and 2^21
  (`LoadAverage.CalcLoadExactIff`), `fixed_power_int` and 15 fraction bits (`LoadAverage.FixedPowerOkIff`),
  `update_cpu_load` and 2^28 (`CpuLoad.ReachesLoadIff`) and `to_ratio` and 2^44 ns (`RtGuarantee.RatioExactIff`).
- `sched_rt_handler` stores settings before checking them.  A group request that is checked in between can pass against
  settings that are then rejected.  It breaks the restored limit exactly if its own ratio exceeds that limit
  (`RtGuarantee.RejectedWriteWindowIff`), as with the settings of `RtGuarantee.RejectedWriteLeavesWindow`.
- A group with real-time tasks is left without runtime exactly when the kernel itself makes a task real-time there: users,
  attachments, bandwidth requests and sysctl writes are all refused (`RtAdmission.RtSettings.MakeRealtime`).
- `exynos_target` looks its old level up inside the policy.  If the policy was lowered below the current frequency the
  change may take the MPLL detour and lower the voltage first (`ExynosDvfs.StaleTargetUndervolts`);
  `ExynosDvfs.ChangeCovered` says exactly when.  A PM lock can also exceed the ceiling, exactly as
  `ExynosDvfs.Driver.Lock` states.
- A floor above the ceiling is recorded and not applied, even if the clock could rise to the ceiling, and freeing a ceiling
  does not raise the clock to the floor.  Until the next target call the clock is then slower than a floor, exactly as
  `ExynosDvfs.Driver.Lock` and `ExynosDvfs.Driver.UpperLimitFree` state.
- The lazy gate of VBFS tests for equality.  It opens within a threshold's number of samples exactly if the count is
  below the threshold (`VbfsGovernor.GateOpensIff`); otherwise it sticks until the counter wraps
  (`VbfsGovernor.StuckAbove`).

## Model

| member | source | states |
|---|---|---|
| `WakeSafety.ReachableOk` | android/kernel/kernel/sched.c:2695-2757 | every state reached by any interleaving of wakers, IPI handlers, __schedule, migration and balancing on any number of CPUs and tasks satisfies the protocol invariant, and the nr_uninterruptible counters balance |
| `WakeSafety.RunKeeps` | android/kernel/kernel/sched.c:4271-4351 | every run, step by step, keeps the invariant and the balance |
| `WakeInvariant.InitOk` | android/kernel/kernel/sched.c:869-904 | the state after boot satisfies the invariant |
| `WakeInvariant.StepOk` | android/kernel/kernel/sched.c:2695-2757 | each atomic step of any kind keeps the invariant |
| `WakeInvariant.SchedDecideOk` | android/kernel/kernel/sched.c:4292-4314 | deactivating the previous task, or putting it back to TASK_RUNNING for a pending signal, keeps the invariant against every concurrent waker |
| `WakeInvariant.WakeWorkerRelockOk` | android/kernel/kernel/sched.c:2767-2791 | try_to_wake_up_local keeps the invariant although it drops and retakes the runqueue lock inside __schedule |
| `WakeInvariant.SchedDropOk` | android/kernel/kernel/sched.c:4316-4319 | pre_schedule and idle_balance may drop the runqueue lock inside __schedule, so that others wake, pull and push tasks there, and keep the invariant |
| `WakeInvariant.SchedRetakeOk` | android/kernel/kernel/sched.c:4316-4319 | so does taking it again |
| `WakeInvariant.SchedFinishOk` | android/kernel/kernel/sched.c:881-904 | clearing on_cpu of the previous task keeps the invariant |
| `WakeInvariant.TtwuRemoteOk` | android/kernel/kernel/sched.c:2553-2566 | ttwu_remote keeps the invariant, also when the task moved or left its runqueue before the lock was taken |
| `WakeInvariant.TtwuMarkOk` | android/kernel/kernel/sched.c:2732-2738 | setting TASK_WAKING once on_cpu was seen clear keeps the invariant |
| `WakeInvariant.QueueLocalOk` | android/kernel/kernel/sched.c:2535-2545 | activating the woken task under the target runqueue lock keeps the invariant |
| `WakeInvariant.PushOk` | android/kernel/kernel/sched.c:2625-2641 | a cmpxchg that finds the head it read pushes exactly that task on the abstract list, even if the head was popped and pushed again in between |
| `WakeInvariant.QueueCmpxchgOk` | android/kernel/kernel/sched.c:2625-2641 | both outcomes of the cmpxchg keep the invariant; a failed one goes back to the head it found |
| `WakeInvariant.XchgOk` | android/kernel/kernel/sched.c:2599-2622 | taking the whole list by xchg moves its tasks to the handler and loses none |
| `WakeInvariant.PopOk` | android/kernel/kernel/sched.c:2569-2582 | following wake_entry after activating a task pops exactly the first of the drained tasks |
| `WakeInvariant.WakeNewOk` | android/kernel/kernel/sched.c:2947-2972 | placing a new task keeps the invariant |
| `WakeInvariant.MigrateOk` | android/kernel/kernel/sched.c:6123-6159 | __migrate_task keeps the invariant: it moves a queued task that is still on the source, outside its mask or not, if the destination is allowed, and otherwise does nothing |
| `WakeInvariant.SetAffinityOk` | android/kernel/kernel/sched.c:6068-6109 | changing the mask of a task that is queued, listed or running keeps the invariant, the CPUs that wait for a bound worker included |
| `WakeSafety.SinglePlace` | android/kernel/kernel/sched.c:2695-2757 | in every reachable state a task is on at most one runqueue or one wake list, never on both, runs on at most one CPU, and runs where it is queued, while affinity changes at any time |
| `WakeSafety.PlacedWhereAllowed` | android/kernel/kernel/sched.c:6123-6159 | every step that puts a task on another CPU picks one its mask allows at that step; only set_cpus_allowed_ptr changes the mask |
| `WakeSafety.OutsideIff` | android/kernel/kernel/sched.c:6090-6094 | a step takes a task out of its mask if and only if it is a change of the mask that excludes its CPU, and brings it back if and only if it moves the task or changes the mask to include its CPU |
| `WakeSafety.ShutOutInPlace` | android/kernel/kernel/sched.c:6092-6103 | a task whose CPU is excluded stays queued, listed or running where it is, and the stopper is asked to move it if and only if it is queued |
| `WakeSafety.InsideRun` | android/kernel/kernel/sched.c:6068-6109 | over any run, until its CPU is excluded a task is only ever where its mask allows |
| `WakeSafety.ListedShutOut` | android/kernel/kernel/sched.c:6096-6103 | a task excluded while it waits on a wake list: nobody is asked to move it, and each step leaves it listed, changes the mask back or activates it on the forbidden CPU |
| `WakeSafety.FlagsAreAccurate` | android/kernel/kernel/sched.c:869-904 | on_rq and on_cpu are set exactly while the task is queued and while a CPU runs it or switches away from it; nr_running is the length of each queue |
| `WakeSafety.SwitchedBeforeUnlock` | android/kernel/kernel/sched.c:881-904 | on_cpu is cleared before the switching CPU drops its lock: an unlocked CPU has no on_cpu task but its current one |
| `WakeSafety.SpinWaitsForSwitch` | android/kernel/kernel/sched.c:2713-2731 | the busy wait on on_cpu only ever waits for a CPU that is inside __schedule on its way off that task, also when that CPU has dropped its runqueue lock |
| `WakeProgress.SpinCanEnd` | android/kernel/kernel/sched.c:2713-2731 | from every reachable state the busy wait on on_cpu can end without a step of the spinning wakeup, which holds pi_lock with interrupts disabled: no circle with a CPU that waits for a pi_lock |
| `WakeProgress.WakeCanFinish` | android/kernel/kernel/sched.c:2695-2757 | from every reachable state every try_to_wake_up under way can run to the release of its pi_lock |
| `WakeProgress.CpuCanSettle` | android/kernel/kernel/sched.c:2767-2791 | from every reachable state every CPU can leave whatever it does with interrupts disabled: __schedule, the IPI handler or try_to_wake_up, spinning and waiting for locks included |
| `WakeSafety.UninterruptibleConserved` | android/kernel/kernel/sched.c:1849-1868 | the nr_uninterruptible counters of all CPUs sum to the number of uninterruptible sleepers not yet re-activated, although single counters go negative |
| `WakeSafety.StepBalanced` | android/kernel/kernel/sched.c:2498-2545 | each step keeps that sum, the migration of an uninterruptible task included |
| `WakeSafety.NoLostWakeup` | android/kernel/kernel/sched.c:2695-2757 | a task that set its state, found its condition false and went to sleep is on a runqueue or a wake list once its condition is set and no waker is in flight |
| `WakeSafety.WakeListIsServed` | android/kernel/kernel/sched.c:2599-2641 | a non-empty wake list has an IPI pending, being handled, or about to be sent by the waker that found it empty |
| `WakeSafety.WakeListIsStack` | android/kernel/kernel/sched.c:2569-2641 | the wake_entry pointers spell out exactly the pushed and not yet activated tasks, newest first; each push is matched by at most one activation |
| `WakeSafety.EntryStable` | android/kernel/kernel/sched.c:2569-2582 | while a task is listed no step rewrites its wake_entry or its TASK_WAKING state, and it leaves the list only by being activated once |
| `WakeSafety.DrainCompletes` | android/kernel/kernel/sched.c:2569-2582 | the drain loop is enabled to its end whatever it took, activates every task of the list on this CPU and unlocks |
| `WakeStaleMatch.MarksTestedStateIff` | android/kernel/kernel/sched.c:2703-2738 | in every reachable state after the test: every continuation marks the task out of the tested state if and only if the task cannot still run, that is, unless it is queued on, or can be pulled to, a CPU that is neither the waker's nor waits for this wakeup |
| `WakeStaleMatch.TestedStateMarked` | android/kernel/kernel/sched.c:2703-2738 | the same at the test: a task off its runqueue is always marked out of the state that matched the mask; one that can still run can be marked out of TASK_DEAD, which no mask holds |
| `WakeStaleMatch.TestedStateHeld` | android/kernel/kernel/sched.c:2703-2738 | each step of any CPU before the mark keeps the state of a task that cannot run, and keeps it unable to run |
| `WakeStaleMatch.DeadTaskWoken` | android/kernel/kernel/sched.c:2703-2738 | such a state is reachable: on two CPUs, a waker that tested TASK_INTERRUPTIBLE can be about to mark a task that has since become TASK_DEAD |
| `WakeEffects.WorkerWoken` | android/kernel/kernel/sched.c:2781-2786 | try_to_wake_up_local, from every reachable state: a sleeping worker is put on the runqueue in TASK_RUNNING with the counters adjusted, one still queued is made running, one in another state is left alone, and no other task or runqueue changes |
| `WakeEffects.WorkerWokenAfterRelock` | android/kernel/kernel/sched.c:2775-2786 | the same when the trylock failed, with the state in which the worker is found once both locks are held |
| `WakeEffects.TrylockDecides` | android/kernel/kernel/sched.c:2775-2779 | the trylock on pi_lock decides between waking at once and dropping the runqueue lock; one of the two is always possible |
| `WakeEffects.SleepsIff` | android/kernel/kernel/sched.c:4292-4314 | __schedule takes the previous task off its runqueue if and only if it is not running, was not preempted and has no pending signal, which puts it back to TASK_RUNNING |
| `WakeEffects.SwitchesTo` | android/kernel/kernel/sched.c:4321-4345 | the CPU runs the task it picked, and the one before it stays on_cpu until the switch is finished |
| `WakeEffects.BalancingOpens` | android/kernel/kernel/sched.c:4316-4319 | the runqueue lock can be dropped between the decision and the pick and nowhere else, and retaken when it is free |
| `WakeEffects.WaitPattern` | android/kernel/kernel/sched.c:4643-4655 | the sleeper whose wakeups are claimed: it sets its state before it tests its condition and must sleep exactly if it found it false |
| `WakeEffects.MatchedIff` | android/kernel/kernel/sched.c:2701-2705 | a wakeup takes the task if and only if its state is in the mask |
| `WakeEffects.WakeupDelivers` | android/kernel/kernel/sched.c:2695-2757 | a wakeup that took a task is over exactly by a step of ttwu_remote or ttwu_queue after which the task is queued in TASK_RUNNING or on the wake list of its CPU, whatever the other CPUs did in between |
| `WakeEffects.PlacedThere` | android/kernel/kernel/sched.c:2743-2747 | the task goes to the CPU that was selected, which its mask allows |
| `WakeEffects.HandlerTakes` | android/kernel/kernel/sched.c:2569-2622 | the handler consumes the IPI, empties the list in one step and unlocks only when it has reached the end |
| `WakeEffects.NewTaskQueued` | android/kernel/kernel/sched.c:2947-2972 | a new task is queued in TASK_RUNNING on the CPU chosen for it |
| `WakeEffects.BalanceMoves` | android/kernel/kernel/sched.c:1706-1723 | load balancing under both runqueue locks moves the task, and its part of nr_uninterruptible, between the two runqueues and changes nothing else |
| `WakeEffects.MigratesIff` | android/kernel/kernel/sched.c:6123-6159 | __migrate_task moves the task if and only if it is still on the source, queued, and allowed on the destination; otherwise it changes nothing |
| `WakeEffects.MigrationBringsBack` | android/kernel/kernel/sched.c:6123-6159 | a queued task outside its mask can be moved inside as soon as the locks are free |
| `WakeEffects.AffinityChanges` | android/kernel/kernel/sched.c:6068-6109 | set_cpus_allowed_ptr is refused for a bound task of another caller and otherwise changes the mask and nothing else |
| `TaskGroups.WalkTgTree` | android/kernel/kernel/sched.c:1495-1525 | the walk with parent pointers and gotos makes exactly the calls of the recursive traversal up to the first nonzero answer, which it returns, for any visitor |
| `TaskGroups.VisitsOnce` | android/kernel/kernel/sched.c:1495-1525 | the traversal of a subtree enters and leaves each group below its root exactly once and no other group |
| `TaskGroups.WholeTreeOnce` | android/kernel/kernel/sched.c:1495-1525 | the whole traversal visits every group of the hierarchy once down and once up |
| `TaskGroups.VisitOrder` | android/kernel/kernel/sched.c:1495-1525 | a group is entered before it is left, and both while all groups above it are entered and not yet left |
| `RtBandwidth.TgSchedulable` | android/kernel/kernel/sched.c:8760-8814 | the loop accepts a group if and only if runtime is within period or unlimited, no real-time tasks are left without runtime, the ratio is within the global ratio, and the 32-bit sum of the children within the group; the error is that of the first test that fails |
| `RtBandwidth.RtSchedulable` | android/kernel/kernel/sched.c:8816-8825 | the check accepts if and only if every group of the tree passes; EBUSY is returned only if some group with real-time tasks would be left without runtime |
| `RtBandwidth.HypotheticalIsReal` | android/kernel/kernel/sched.c:8816-8855 | checking a request hypothetically is checking the tree that storing it would leave |
| `RtBandwidth.NoWrap` | android/kernel/kernel/sched.c:8795-8811 | an accepted check implies the inequality over unbounded sums: the 32-bit sum of the children did not wrap |
| `RtBandwidth.CommitAdmitted` | android/kernel/kernel/sched.c:8827-8855 | storing a bandwidth that passed the hypothetical check leaves the whole tree admitted |
| `RtBandwidth.CommitAdmittedIff` | android/kernel/kernel/sched.c:8827-8855 | if it passed the check against other settings than the tree is admitted under, the tree stays admitted if and only if the ratio of the request is within the global ratio |
| `RtBandwidth.SysctlAdmitted` | android/kernel/kernel/sched.c:8903-8927 | a tree that passes against new global settings is admitted under them |
| `RtAdmission.CreateAdmitted` | android/kernel/kernel/sched.c:8522-8552 | a new group with no runtime keeps the tree admitted |
| `RtAdmission.DestroyAdmitted` | android/kernel/kernel/sched.c:8621-8637 | removing a group without children keeps the tree admitted |
| `RtAdmission.SanityCheck` | android/kernel/kernel/sched.c:8911-8918 | the sanity check on nanoseconds rejects exactly the settings whose runtime exceeds the period |
| `RtAdmission.RtSettings.constructor` | android/kernel/kernel/sched.c:8119-8125 | the root group starts with the global bandwidth and is admitted |
| `RtAdmission.RtSettings.Create` | android/kernel/kernel/sched.c:8581-8606 | group creation links a leaf with the period of def_rt_bandwidth and no runtime below its parent, changes no other group, and keeps the tree admitted |
| `RtAdmission.RtSettings.Destroy` | android/kernel/kernel/sched.c:8621-8637 | group removal takes the leaf out of the children of its parent, changes no other group, and keeps the tree admitted |
| `RtAdmission.RtSettings.SetBandwidth` | android/kernel/kernel/sched.c:8827-8855 | succeeds if and only if every group passes with the requested values; then exactly that group changes and no group with real-time tasks is without runtime, otherwise nothing changes; EBUSY only for a group with real-time tasks; the tree stays admitted either way |
| `RtAdmission.RtSettings.SetRuntime` | android/kernel/kernel/sched.c:8857-8867 | the same for microseconds from the user, negative meaning no limit, scaled in 64 bits |
| `RtAdmission.RtSettings.SetPeriod` | android/kernel/kernel/sched.c:8881-8892 | the same for the period; a period that scales to zero is -EINVAL |
| `RtAdmission.RtSettings.WriteSysctl` | android/kernel/kernel/sched.c:8968-8996 | a write is kept if and only if the settings are sane and the whole tree passes under them; then no group with real-time tasks is without runtime if real-time bandwidth is enabled; otherwise settings and defaults are as before; the tree stays admitted either way |
| `RtAdmission.RtSettings.GlobalConstraints` | android/kernel/kernel/sched.c:8903-8927 | the checks a write has to pass, in nanoseconds with 64-bit wrap-around |
| `RtAdmission.RtSettings.MakeRealtime` | android/kernel/kernel/sched.c:5213-5226 | a user cannot make a task real-time in a group without runtime while real-time bandwidth is enabled; the kernel can, and exactly then a group with real-time tasks is left without runtime |
| `RtAdmission.RtSettings.AttachRealtime` | android/kernel/kernel/sched.c:8929-8936 | a real-time task is refused in a group without runtime, so that no attachment leaves such a group |
| `RtGuarantee.SubtreeBound` | android/kernel/kernel/sched.c:8760-8814 | in an admitted tree the ratios of any pairwise non-ancestor groups below g sum to at most the ratio of g |
| `RtGuarantee.GlobalBound` | android/kernel/kernel/sched.c:8760-8814 | the ratios of any set of pairwise non-ancestor groups sum to at most the global ratio, which is at most one |
| `RtGuarantee.RatioExactIff` | android/kernel/kernel/sched.c:8733-8739 | to_ratio of an admitted bandwidth is free of 64-bit overflow if and only if the runtime is below 2^44 ns or unlimited |
| `RtGuarantee.RejectedWriteWindowIff` | android/kernel/kernel/sched.c:8968-8996 | sched_rt_handler stores the settings before checking them under a mutex tg_set_bandwidth does not take: for every tree, group and settings, a request that passes in that window breaks the restored limit if and only if its own ratio exceeds it; settings that do not raise the limit open no window |
| `RtGuarantee.RejectedWriteLeavesWindow` | android/kernel/kernel/sched.c:8968-8996 | a witness: settings that fail the sanity check, and a request that passes against them and that the restored settings do not admit |
| `LoadAverage.FixedPowerInt` | android/kernel/kernel/sched.c:3382-3402 | the square-and-multiply loop computes the power by the specification used below, wrapping in 32 bits |
| `LoadAverage.MulRoundExact` | android/kernel/kernel/sched.c:3382-3402 | one rounded product of two fractions of at most 15 bits does not wrap, stays a fraction and is off by at most half a unit |
| `LoadAverage.FixedPowerBound` | android/kernel/kernel/sched.c:3382-3402 | fixed_power_int stays at most 2^f and is off by half a unit for each of n - 1 products, for all x <= 2^f, n and f <= 15 |
| `LoadAverage.FixedPowerScaled` | android/kernel/kernel/sched.c:3382-3402 | fixed_power_int differs from 2^f (x / 2^f)^n by at most n / 2 |
| `LoadAverage.FixedPowerOkIff` | android/kernel/kernel/sched.c:3382-3402 | that bound holds for every fraction and power if and only if there are at most 15 fraction bits |
| `LoadAverage.CalcLoadBetween` | android/kernel/kernel/sched.c:3328-3335 | calc_load stays between the old load and the active count and does not wrap below 2^21 |
| `LoadAverage.CalcLoadExactIff` | android/kernel/kernel/sched.c:3328-3335 | calc_load is free of 32-bit wrap-around for every decay factor if and only if load and active are below 2^21 |
| `LoadAverage.IterateNear` | android/kernel/kernel/sched.c:3328-3335 | n iterations of calc_load stay within n / 2 of the exact exponential average |
| `LoadAverage.CalcLoadNNear` | android/kernel/kernel/sched.c:3427-3433 | calc_load_n is within half a unit and the error of the power, times the distance, of the exact average |
| `LoadAverage.CalcLoadNBetween` | android/kernel/kernel/sched.c:3427-3433 | calc_load_n stays between the old load and the active count |
| `LoadAverage.CatchUpError` | android/kernel/kernel/sched.c:3404-3433 | calc_load_n differs from n iterations of calc_load by at most (n + 1) / 2 + (n - 1) abs(load - active) / 4096 |
| `CpuLoad.DecayLoadMissed` | android/kernel/kernel/sched.c:3602-3624 | the table-driven loop computes the decay by the specification used below; every table access is in bounds |
| `CpuLoad.Entry` | android/kernel/kernel/sched.c:3589-3595 | every table entry the loop can use is the exact decay over 2^j ticks rounded down to 1/128 |
| `CpuLoad.ZeroTicks` | android/kernel/kernel/sched.c:3587-3588 | after degrade_zero_ticks less than 1/128 of the load is left exactly |
| `CpuLoad.DecayNear` | android/kernel/kernel/sched.c:3602-3624 | 0 <= load f^n - result <= 7 (load / 128 + 1) with f = (2^idx - 1) / 2^idx, for all n, every average and every load below 35791395 |
| `CpuLoad.DecayOkIff` | android/kernel/kernel/sched.c:3602-3624 | that bound holds for every n and average if and only if the load is below 35791395, where a product with a table entry first wraps |
| `CpuLoad.WrappedDecay` | android/kernel/kernel/sched.c:3602-3624 | for every larger load one missed tick of the slowest average already breaks it |
| `CpuLoad.WideMoves` | android/kernel/kernel/sched.c:3654-3665 | one update moves an average from distance d to d - ceil(d / 2^i) of the load and never past it |
| `CpuLoad.AverageExactIff` | android/kernel/kernel/sched.c:3654-3665 | no average wraps if and only if the slowest one does not |
| `CpuLoad.ReachesLoad` | android/kernel/kernel/sched.c:3648-3666 | under constant load an average in range reaches the load exactly, in at most as many ticks as it was away, and stays |
| `CpuLoad.ReachesLoadIff` | android/kernel/kernel/sched.c:3648-3666 | from any 32-bit values all averages come to rest at the load if and only if the load is below 2^28 |
| `CpuLoad.DecayAtMost` | android/kernel/kernel/sched.c:3602-3624 | decay never increases a load, not even where a product wraps |
| `CpuLoad.RunQueue.UpdateCpuLoad` | android/kernel/kernel/sched.c:3631-3669 | entry 0 becomes the load; every other entry in range moves by its share towards the load, from a value between the old one decayed exactly over the missed ticks and at most seven roundings below that; a second call in the same jiffy changes nothing; jiffies may have wrapped |
| `CpuLoad.UpdateAverages` | android/kernel/kernel/sched.c:3648-3666 | that is what the wrapping average of the decayed value comes to, and it is again in range |
| `CpuLoad.AveragedTick` | android/kernel/kernel/sched.c:3654-3665 | without missed ticks an average in range moves from its old value by exactly its share |
| `CpuLoad.RunQueue.Tick` | android/kernel/kernel/sched.c:3631-3669 | one tick seen in its jiffy brings every entry closer to the load |
| `CpuLoad.RunQueue.Steady` | android/kernel/kernel/sched.c:3631-3669 | under a constant load every entry equals the load after as many ticks as it was away |
| `Completion.Waits.WakeUpCommon` | android/kernel/kernel/sched.c:4503-4515 | the loop wakes waiters as the specification says |
| `Completion.WakeUpInOrder` | android/kernel/kernel/sched.c:4503-4515 | waiters are woken strictly in queue order: nr of those asleep, or everyone when nr is zero |
| `Completion.Waits.Complete` | android/kernel/kernel/sched.c:4609-4616 | posts one token modulo 2^32 and wakes the first sleeping waiter if there is one; keeps the invariant |
| `Completion.Waits.CompleteAll` | android/kernel/kernel/sched.c:4629-4636 | posts UINT_MAX / 2 tokens modulo 2^32 and wakes everyone; keeps the invariant |
| `Completion.Waits.TryWait` | android/kernel/kernel/sched.c:4785-4797 | takes a token if and only if there is one, and says so |
| `Completion.Waits.WaitEnter` | android/kernel/kernel/sched.c:4640-4652 | a wait takes a free token at once, gives up on a pending signal, or queues |
| `Completion.Waits.WaitResume` | android/kernel/kernel/sched.c:4647-4663 | a woken waiter takes a token, sleeps again with what is left of its timeout, or leaves the queue on a signal or timeout |
| `Completion.StepKeeps` | android/kernel/kernel/sched.c:4640-4663 | every critical section keeps: at least min(done, queue length) queued waiters are awake |
| `Completion.RunConserves` | android/kernel/kernel/sched.c:4609-4663 | after any interleaving done is what was posted less what was taken, modulo 2^32, and no waiter is stranded |
| `Completion.ExactWithoutWrap` | android/kernel/kernel/sched.c:4609-4663 | until 2^32 tokens are posted done is exactly that difference, so no more are taken than posted |
| `Completion.NoneStranded` | android/kernel/kernel/sched.c:4640-4663 | while a token is free and waiters are queued, one of them is awake and its next section takes a token and returns success, whatever its timeout and signals |
| `Completion.SuccessIffConsumed` | android/kernel/kernel/sched.c:4640-4663 | a section that returns reports success exactly when it took its one token, if and only if it is not an entry with a negative timeout and a free token; one that does not return takes none |
| `Completion.NegativeTimeoutLosesToken` | android/kernel/kernel/sched.c:4640-4663 | a timeout above LONG_MAX passed to wait_for_completion_timeout returns a negative value and still decrements done |
| `Completion.SignalTakesNothing` | android/kernel/kernel/sched.c:4647-4657 | a wait ends by a signal only while no token is free, takes none and leaves the queue |
| `Completion.UntimedWaitReturnsOnlyWithToken` | android/kernel/kernel/sched.c:4678-4689 | wait_for_completion returns only with a token |
| `Completion.WaitEndsIff` | android/kernel/kernel/sched.c:4640-4663 | a section of a wait returns if and only if a token is free, or an interruptible wait with time left has a signal pending, or the time is over, in this order and with these values; otherwise the thread sleeps, behind all others at first and then in its place |
| `SchedGroups.BuildChain` | android/kernel/kernel/sched.c:7497-7513 | the chain of a CPU has the spans of the levels up to the first that covers the whole map |
| `SchedGroups.SameHeight` | android/kernel/kernel/sched.c:7497-7513 | the chains of all CPUs of the map stop at the same level |
| `SchedGroups.ChainLevelOk` | android/kernel/kernel/sched.c:7497-7513 | for nested equivalence masks every level satisfies what build_sched_groups relies on |
| `SchedGroups.ChainNested` | android/kernel/kernel/sched.c:7497-7513 | the spans of a chain are nested and contain the CPU |
| `SchedGroups.HeightIsFirstFull` | android/kernel/kernel/sched.c:7497-7513 | a chain ends where its span is the whole map for the first time |
| `SchedGroups.GroupIsRep` | android/kernel/kernel/sched.c:7132-7147 | get_group names a CPU of the same span that is its own group |
| `SchedGroups.SameGroupIff` | android/kernel/kernel/sched.c:7132-7147 | two CPUs have the same group if and only if they share the span of the level below, or on the base level are the same CPU; the group is named by the first CPU of that span |
| `SchedGroups.FillGroup` | android/kernel/kernel/sched.c:7187-7193 | the inner loop collects exactly the CPUs of the span that share the group |
| `SchedGroups.LinkSpan` | android/kernel/kernel/sched.c:7156-7204 | the outer loop fills every group of the span and links them in one circle, touching no other group |
| `SchedGroups.BuildSchedGroups` | android/kernel/kernel/sched.c:7156-7204 | records the group of the CPU, and builds the groups of its span exactly when it is the first CPU of the span |
| `SchedGroups.BuildLevel` | android/kernel/kernel/sched.c:7516-7528 | building for every CPU of the map leaves the groups of every span complete: spans do not disturb each other |
| `SchedGroups.DebugOne` | android/kernel/kernel/sched.c:6591-6670 | sched_domain_debug_one ends on any list of groups and is content if and only if from the CPU's group runs one ring of non-empty pairwise disjoint groups that covers exactly the span, contains the CPU and fits the parent |
| `SchedGroups.BuiltIsSound` | android/kernel/kernel/sched.c:6612-6668 | after build_sched_groups every CPU finds such a ring from its own group |
| `SchedGroups.GroupsAreSpans` | android/kernel/kernel/sched.c:7156-7204 | every group of the ring is the part of the map that each of its CPUs shares one level below |
| `SchedGroups.SameSpanOneGroup` | android/kernel/kernel/sched.c:7156-7204 | a level that spans no more than one below it has a single group |
| `SchedGroups.BuildSchedDomains` | android/kernel/kernel/sched.c:7485-7553 | for any topology of nested equivalence masks every CPU gets a chain of the same height, up to the first span that is the whole map; every domain meets the specification of sched_domain_debug_one, and every group is exactly the span its CPUs have one level below, or a single CPU on the base level |
| `SchedAttach.CpuAttachDomain` | android/kernel/kernel/sched.c:6897-6932 | the linked chain is pruned in place to exactly the domain objects specified, with parent and child links agreeing; the objects destroyed are exactly the removed ones and the old chain, in order |
| `SchedAttach.Prune` | android/kernel/kernel/sched.c:6903-6916 | the first loop unlinks and destroys exactly the specified parents, as objects, and keeps the others linked |
| `SchedAttach.DropBase` | android/kernel/kernel/sched.c:6918-6924 | a degenerate base gives way to its parent |
| `SchedAttach.DestroyAll` | android/kernel/kernel/sched.c:6887-6891 | every domain of a chain is destroyed once |
| `SchedAttach.PrunedIrredundant` | android/kernel/kernel/sched.c:6722-6746 | no survivor of the first loop is redundant above its child |
| `SchedAttach.AttachedClean` | android/kernel/kernel/sched.c:6897-6932 | no attached domain is degenerate, alone or as the parent of its child |
| `SchedAttach.UsefulIff` | android/kernel/kernel/sched.c:6699-6719 | sd_degenerate refuses exactly the domains with more than one CPU that have the affine wakeup flag, or a balancing flag and more than one group |
| `SchedAttach.RedundantIff` | android/kernel/kernel/sched.c:6722-6746 | sd_parent_degenerate drops a parent if and only if it is useless or the domain below has its CPUs and all of its flags that say something |
| `SchedAttach.AttachedUseful` | android/kernel/kernel/sched.c:6897-6932 | every attached domain is useful in this sense, and none is covered by the one below it |
| `SchedAttach.AttachConserves` | android/kernel/kernel/sched.c:6897-6932 | every domain of the chain either survives or is destroyed, and none twice |
| `SchedAttach.RemovedIsRedundant` | android/kernel/kernel/sched.c:6722-6746 | a parent removed by the first loop was useless, or a survivor has its span and all its flags that count |
| `SchedAttach.DestroyedIsRedundant` | android/kernel/kernel/sched.c:6897-6932 | over the whole attachment, a destroyed domain contributed nothing an attached domain does not, if groups are spans of the level below |
| `SchedAttach.AttachedNested` | android/kernel/kernel/sched.c:6897-6932 | the spans of the attached chain are still nested |
| `SchedPartition.RebuildIsTarget` | android/kernel/kernel/sched.c:7628-7636 | destroying every domain and building the new ones attaches every CPU as the new partition prescribes |
| `SchedPartition.TargetIs` | android/kernel/kernel/sched.c:7282-7301 | what a partition prescribes: the mask that contains the CPU, with its level if that is not negative and the default otherwise |
| `SchedPartition.DiffIsTarget` | android/kernel/kernel/sched.c:7680-7740 | so does destroying and building only what differs, for any two disjoint partitions |
| `SchedPartition.SchedDomains.Find` | android/kernel/kernel/sched.c:7639-7652 | the inner loop finds a domain with the same mask and attributes if and only if there is one |
| `SchedPartition.SchedDomains.DetachGone` | android/kernel/kernel/sched.c:7696-7707 | the first loop destroys what has no equal among the new domains and touches no CPU of a domain that has |
| `SchedPartition.SchedDomains.BuildNew` | android/kernel/kernel/sched.c:7716-7727 | the second builds what has no equal among the old ones and touches no CPU of a domain that has |
| `SchedPartition.SchedDomains.PartitionSchedDomains` | android/kernel/kernel/sched.c:7680-7740 | ends with the attachments of a rebuild from nothing, for NULL, zero and any disjoint domains: every CPU in the domain that contains it with its relax level or the default, and every other CPU in none; with unchanged topology no CPU of a domain present before and after is touched |
| `LockOrder.TaskRqLockOrdered` | android/kernel/kernel/sched.c:963-978 | task_rq_lock follows the order through any number of retries |
| `LockOrder.WakeUpOrdered` | android/kernel/kernel/sched.c:2695-2757 | try_to_wake_up takes runqueue locks only under pi_lock, and uses task and runqueue only under their locks |
| `LockOrder.LocalOrdered` | android/kernel/kernel/sched.c:2767-2791 | try_to_wake_up_local takes pi_lock out of order only by trylock, or after dropping the runqueue lock |
| `LockOrder.DoubleLocked` | android/kernel/kernel/sched.c:1706-1723 | double_rq_lock takes two runqueues by address |
| `LockOrder.BalanceOrdered` | android/kernel/kernel/sched.c:1637-1675 | both forms of _double_lock_balance follow the order |
| `LockOrder.CallOrdered` | android/kernel/kernel/sched.c:6123-6159 | every locking function of the model, __migrate_task included, follows the order and ends with no lock held |
| `LockOrder.ProgramOrdered` | android/kernel/kernel/sched.c:963-978 | so does every thread that only calls them |
| `LockOrder.CallUses` | android/kernel/kernel/sched.c:2695-2791 | each modelled function uses what it is there for, under pi_lock and the runqueues it changes, whatever its trylocks answer and however often the task moved |
| `LockOrder.MutualExclusion` | android/kernel/kernel/sched.c:963-978 | for any number of threads and calls, after any run no two threads are about to use what the same lock protects |
| `LockOrder.StepOk` | android/kernel/kernel/sched.c:1706-1723 | ownership of locks and the order survive every step of every thread |
| `LockOrder.BlockedBelowHolder` | android/kernel/kernel/sched.c:1656-1675 | a blocked thread waits for a lock ranked above all it holds, and if the holder is blocked too it waits for a still higher one |
| `LockOrder.SomeHolderRuns` | android/kernel/kernel/sched.c:1656-1675 | following the holders from any unfinished thread leads to one that can run |
| `LockOrder.DeadlockFree` | android/kernel/kernel/sched.c:963-978 | for any number of threads, calls and runqueues, after any run either all threads are finished or one can go on |
| `LockOrder.RunsToCompletion` | android/kernel/kernel/sched.c:963-978 | every run is finite, and one that cannot be extended ends with all threads finished and no lock held |
| `LoadAccounting.StepBalanced` | android/kernel/kernel/sched.c:3313-3365 | each lockless step of 32-bit counters keeps: the reported counts sum, modulo 2^32, to calc_load_tasks, calc_load_tasks_idle and the deltas in flight |
| `LoadAccounting.RunBalanced` | android/kernel/kernel/sched.c:3544-3557 | so in every reachable state, with any number of folds under way at once |
| `LoadAccounting.MovedSums` | android/kernel/kernel/sched.c:6204-6210 | emptying the counter of a dead CPU into another keeps the sum of nr_uninterruptible |
| `LoadAccounting.SettledIsExact` | android/kernel/kernel/sched.c:6215-6219 | once every CPU has folded and nothing is in flight the two counters add up to the active tasks, CPU removals included: modulo 2^32 always, and exactly if their number is in the range of a long, however often the counters wrapped before |
| `LoadAccounting.FoldReports` | android/kernel/kernel/sched.c:3313-3326 | a fold makes the reported count of its CPU running plus uninterruptible tasks, modulo 2^32, and carries exactly the change |
| `LoadAccounting.FoldDrains` | android/kernel/kernel/sched.c:3354-3365 | undisturbed, a fold of an active CPU adds its change and all of calc_load_tasks_idle to calc_load_tasks and empties the former |
| `LoadAccounting.FoldLeavesIdle` | android/kernel/kernel/sched.c:3345-3352 | a fold of an idle CPU ends in calc_load_tasks_idle |
| `LoadAccounting.DeadCpuForgotten` | android/kernel/kernel/sched.c:6204-6219 | a dead CPU hands over its uninterruptible tasks and takes back its report |
| `AttributeLinker.SlotsCountPieces` | android/external/mesa3d/src/glsl/linker.cpp:212-237 | a type takes one slot for each vec4 input it is made of (section 4.3.4 of the GLSL 1.50 specification) |
| `AttributeLinker.FindAvailableSlots` | android/external/mesa3d/src/glsl/linker.cpp:1143-1163 | returns the lowest base with a free run, and -1 if and only if nothing is asked for or no run is free |
| `AttributeLinker.Allocate` | android/external/mesa3d/src/glsl/linker.cpp:1250-1265 | a run of bits that meets no used bit, truncated to 32 bits or not, lies inside the locations and apart from all others |
| `AttributeLinker.Conflict` | android/external/mesa3d/src/glsl/linker.cpp:1250-1265 | a run that meets a used bit leaves the locations or overlaps an input |
| `AttributeLinker.FirstFitPacked` | android/external/mesa3d/src/glsl/linker.cpp:1338-1362 | with nothing fixed, first fit fills the slots without a gap and fails exactly when the total does not fit |
| `AttributeLinker.SortBySlots` | android/external/mesa3d/src/glsl/linker.cpp:1327-1327 | the order of pass 3: a permutation with decreasing slots |
| `AttributeLinker.NoRoomIsStuck` | android/external/mesa3d/src/glsl/linker.cpp:1345-1353 | when find_available_slots fails, every run of that size below the maximum meets the slots of another input or the reserved one |
| `AttributeLinker.Program.DeclareInputs` | android/external/mesa3d/src/glsl/linker.cpp:1193-1201 | declaring the unbound inputs changes no binding |
| `AttributeLinker.Program.BindParam` | android/external/mesa3d/src/glsl/linker.cpp:1204-1266 | one parameter of pass 1: its input gets its fixed location; failure means the fixed locations are impossible |
| `AttributeLinker.Program.BindLocations` | android/external/mesa3d/src/glsl/linker.cpp:1203-1266 | after pass 1 every input has its explicit or bound location or none, and the mask is exact; failure means the fixed locations are impossible |
| `AttributeLinker.Program.CollectInputs` | android/external/mesa3d/src/glsl/linker.cpp:1288-1318 | pass 2 lists exactly the inputs without a location, and fails if and only if an explicit one is negative |
| `AttributeLinker.Program.AssignNext` | android/external/mesa3d/src/glsl/linker.cpp:1338-1362 | one round of pass 4: the next input gets the lowest free run, or none is left for it |
| `AttributeLinker.Program.AssignRest` | android/external/mesa3d/src/glsl/linker.cpp:1338-1362 | pass 4 gives every listed input its own slots among the unused ones, or leaves one that fits nowhere |
| `AttributeLinker.Program.AssignUnlocated` | android/external/mesa3d/src/glsl/linker.cpp:1327-1362 | passes 3 and 4 together |
| `AttributeLinker.Program.LinkInputs` | android/external/mesa3d/src/glsl/linker.cpp:1166-1362 | all passes over the declared inputs |
| `AttributeLinker.Program.AssignAttributeLocations` | android/external/mesa3d/src/glsl/linker.cpp:1166-1362 | a successful link gives all inputs pairwise disjoint slots below the maximum: explicit ones where they ask, others where the application bound them, none automatically in slot 0 when gl_Vertex is read; every parameter that names an input holds its location and slots; impossible fixed locations fail; otherwise a failure leaves an input that fits nowhere among those placed; with nothing fixed the link fails if and only if the total of slots does not fit |
| `ExynosDvfs.ChangeCovered` | android/kernel/arch/arm/mach-exynos/cpufreq.c:123-153 | one change of voltage and clock, step by step: if policy->cur is inside the policy the voltage covers every clock including the MPLL detour; in general the levels are covered if and only if the detour is not taken on a stale level at too high a voltage |
| `ExynosDvfs.RaiseCovered` | android/kernel/arch/arm/mach-exynos/cpufreq.c:311-321 | raising to a floor never clocks a level above its voltage |
| `ExynosDvfs.LowerCovered` | android/kernel/arch/arm/mach-exynos/cpufreq.c:417-425 | lowering to a ceiling never clocks a level above its voltage |
| `ExynosDvfs.Driver.FallTo` | android/kernel/arch/arm/mach-exynos/cpufreq.c:393-427 | the change to a lower ceiling, covered at every level |
| `ExynosDvfs.StaleTargetUndervolts` | android/kernel/arch/arm/mach-exynos/cpufreq.c:102-153 | a concrete target call made after the policy was lowered below the current frequency that clocks a level with too little voltage |
| `ExynosDvfs.Driver.Target` | android/kernel/arch/arm/mach-exynos/cpufreq.c:87-157 | goes to the requested level if floor and ceiling allow it, to the ceiling if it is faster, to the floor or a slower ceiling if it is slower than the floor, or changes nothing; then the clock is not slower than the floor of any holder unless the ceiling is; the order of voltage and clock, the detour included; coverage exactly as above |
| `ExynosDvfs.ChangeStepwise` | android/kernel/arch/arm/mach-exynos/cpufreq.c:130-153 | the voltage rises before the clock and falls after it, a slow detour starts at the safe voltage, the clock goes over MPLL exactly if need_apll_change says so, and both end at the new level |
| `ExynosDvfs.RaiseStepwise` | android/kernel/arch/arm/mach-exynos/cpufreq.c:311-321 | the same order for a raise to a floor |
| `ExynosDvfs.LowerStepwise` | android/kernel/arch/arm/mach-exynos/cpufreq.c:415-425 | a change to a ceiling lowers the clock first and passes the safe voltage on a slow detour |
| `ExynosDvfs.Driver.ChangeTo` | android/kernel/arch/arm/mach-exynos/cpufreq.c:123-153 | the sequence of regulator and clock calls of exynos_target |
| `ExynosDvfs.Driver.Lock` | android/kernel/arch/arm/mach-exynos/cpufreq.c:234-324 | refused, repeated or recorded; the clock rises to the floor exactly when it must; the ceiling survives if and only if this is not a PM lock above the limit; the floors hold afterwards if and only if this is not a floor above the ceiling taken while the clock is below the ceiling |
| `ExynosDvfs.Driver.TakeLock` | android/kernel/arch/arm/mach-exynos/cpufreq.c:266-274 | g_cpufreq_lock_level stays the fastest level over the current holders |
| `ExynosDvfs.Driver.FindLevel` | android/kernel/arch/arm/mach-exynos/cpufreq.c:293-306 | the loop over the frequency table finds the level of a frequency if there is one |
| `ExynosDvfs.Driver.LockFree` | android/kernel/arch/arm/mach-exynos/cpufreq.c:330-347 | the floor is recomputed as the fastest over the remaining holders |
| `ExynosDvfs.Driver.UpperLimit` | android/kernel/arch/arm/mach-exynos/cpufreq.c:351-433 | refused, repeated or recorded; the clock falls to the ceiling exactly when it must; the ceiling holds afterwards |
| `ExynosDvfs.Driver.TakeLimit` | android/kernel/arch/arm/mach-exynos/cpufreq.c:383-391 | g_cpufreq_limit_level stays the slowest level over the current holders |
| `ExynosDvfs.Driver.UpperLimitFree` | android/kernel/arch/arm/mach-exynos/cpufreq.c:435-454 | the ceiling is recomputed as the slowest over the remaining holders and stays respected; the clock is left below the floor if and only if only the freed ceiling allowed it |
| `ExynosDvfs.Driver.Dispatch` | android/kernel/arch/arm/mach-exynos/cpufreq.c:86-454 | each call: a completed change makes the floors hold, and which other calls break them |
| `ExynosDvfs.Driver.LevelFix` | android/kernel/arch/arm/mach-exynos/cpufreq.c:457-478 | one change between floor and ceiling as exynos_target, then every further change is refused |
| `ExynosDvfs.Driver.Run` | android/kernel/arch/arm/mach-exynos/cpufreq.c:86-454 | over any sequence of calls floor and ceiling are the extremes over their holders; without PM locks the ceiling always holds; from a completed target call to the next call that unsettles it the clock is not slower than any floor unless the ceiling is; the voltage covers every level ever clocked as long as no target call finds policy->cur outside the policy |
| `VbfsGovernor.UpPickIs` | android/kernel/drivers/cpufreq/cpufreq_vbfs.c:912-922 | what the signed and unsigned 32-bit index arithmetic of an increase comes to: the usage's share of the way to the maximum, at least one entry |
| `VbfsGovernor.UpPickRange` | android/kernel/drivers/cpufreq/cpufreq_vbfs.c:912-922 | an increase picks an index in [idx(max), idx(cur) - 1], and idx(max) at full usage |
| `VbfsGovernor.UpPickMonotone` | android/kernel/drivers/cpufreq/cpufreq_vbfs.c:912-922 | a higher usage never picks a slower entry |
| `VbfsGovernor.DownPickRange` | android/kernel/drivers/cpufreq/cpufreq_vbfs.c:908-925 | a decrease picks an index in [idx(cur) + 1, idx(min)], at most a third of the way and one entry |
| `VbfsGovernor.DownPickIs` | android/kernel/drivers/cpufreq/cpufreq_vbfs.c:908-925 | what the arithmetic of a decrease comes to: a third of the way to the minimum, at least one entry |
| `VbfsGovernor.EveryKth` | android/kernel/drivers/cpufreq/cpufreq_vbfs.c:927-943 | n consecutive step-down samples from a reset pass the gate exactly floor(n / k) times |
| `VbfsGovernor.StuckAbove` | android/kernel/drivers/cpufreq/cpufreq_vbfs.c:927-943 | the gate tests for equality: if the threshold is lowered to or below the count, nothing passes until the counter wraps |
| `VbfsGovernor.GateOpensIff` | android/kernel/drivers/cpufreq/cpufreq_vbfs.c:927-943 | one of the next k samples passes the gate if and only if the count is below the threshold k, the wrap of the counter included |
| `VbfsGovernor.EntryInPolicy` | android/kernel/drivers/cpufreq/cpufreq_vbfs.c:887-946 | an index between those of maximum and minimum is an entry of the table inside the policy, and is found again |
| `VbfsGovernor.Governor.SelectNextFrequencyByLoad` | android/kernel/drivers/cpufreq/cpufreq_vbfs.c:855-958 | stores the entry at the picked index, which is inside the policy and on the right side of the current one; a gated step down keeps the frequency |
| `VbfsGovernor.Governor.CheckCpuLoadCond` | android/kernel/drivers/cpufreq/cpufreq_vbfs.c:963-1038 | chooses the direction by usage and variation, advances or resets the lazy counter, and stores the picked entry |
| `VbfsGovernor.Governor.StepsUp` | android/kernel/drivers/cpufreq/cpufreq_vbfs.c:1231-1236 | the loop moves exactly the condition points towards the maximum, but not past it |
| `VbfsGovernor.Governor.StepsDown` | android/kernel/drivers/cpufreq/cpufreq_vbfs.c:1245-1250 | the loop moves exactly the condition points towards the minimum, but not past it |
| `VbfsGovernor.Governor.AdjustCond` | android/kernel/drivers/cpufreq/cpufreq_vbfs.c:1141-1262 | agreeing threads and memory move the picked entry by up to two further ones inside the policy; opposing ones leave it |
| `VbfsGovernor.Governor.Sample` | android/kernel/drivers/cpufreq/cpufreq_vbfs.c:1334-1376 | one sample: the entry is inside the policy; under a high load it is faster unless at the maximum, under a low one slower unless at the minimum or the gate holds back a step that threads and memory do not ask for, otherwise it goes where threads and memory ask; vbfs_adj, the relation and the lazy counter say which case it was |
| `VbfsGovernor.DecisionGoes` | android/kernel/drivers/cpufreq/cpufreq_vbfs.c:963-1262 | the picked entry lies in the direction the thresholds of the tuners give |
| `VbfsGovernor.AdjustedSays` | android/kernel/drivers/cpufreq/cpufreq_vbfs.c:1141-1262 | vbfs_adj and the relation in terms of the thresholds |

## Left out

- Weak memory: every step is sequentially consistent, so the `smp_*mb` barriers are not represented.
- `__ARCH_WANT_INTERRUPTS_ON_CTXSW` and `__ARCH_WANT_UNLOCKED_CTXSW` variants of the context switch.
- Scheduling classes: `pick_next_task` is any queued task of the CPU, or idle when none is; `select_task_rq` is any allowed
  CPU; load balancing moves any queued task that does not run.
- CPU hotplug inside the wake protocol, priority inheritance, autogroup, hrtimers, mm switching and IRQ time.
- `set_cpus_allowed_ptr` ends where it asks the stopper for a move; the move is a later `Migrate` step, which need not come.
  Pulls by `pre_schedule` and `idle_balance` are steps of load balancing while the runqueue lock is dropped.  The source
  keeps the lock between the last pull and its return, so the model allows more interleavings.
- Code that takes a pi_lock outside `try_to_wake_up`, `try_to_wake_up_local` and `set_cpus_allowed_ptr`.
- In `__schedule`, `deactivate_task` and the write `on_rq = 0` are one step, under the runqueue lock.
- Sleepers in the wake protocol wait in the set-state, test, schedule pattern; other uses of the task state are arbitrary
  changes by the running task.
- WakeSafety.NoLostWakeup: says where the sleeper is once no waker is in flight, not that every step is eventually taken;
  fairness of CPUs is not modelled.
- WakeProgress.SpinCanEnd: like the other two results of WakeProgress it says that some run leads out of the section,
  whatever happened before, not that every fair run does.
- Allocation failures, sysctl, cgroup and proc plumbing; `rt_rq->rt_runtime` copies per CPU and tasks without cgroups.
  Which groups have real-time tasks is a set that the operations on tasks change; autogroups are left out.
- RtGuarantee.RejectedWriteWindowIff: covers one request between the store and the restore; apart from it each operation
  on RtSettings is atomic.
- The three call sites of `calc_load_n` in `calc_global_nohz` and the timing of `calc_load_update`.
- LoadAverage.CatchUpError: convergence of `calc_load` to the active count is not claimed; rounding can leave it above zero.
- `schedule_timeout` is a contract on what it may return; `kernel/timer.c` is not part of this model.  Wait queue entries
  of completions are all exclusive, as `do_wait_for_common` makes them.
- Overlapping groups (`SDTL_OVERLAP`), group power and reference counts, and the checks for a NULL group and zero power in
  `sched_domain_debug_one`, and its early return for a domain without load balancing.
- SchedGroups.BuildSchedDomains: the groups are built level by level, where the source goes CPU by CPU; the storage of
  different levels is separate, so the order does not matter.
- SchedAttach.DestroyedIsRedundant: assumes that a level whose span is that of one below it has a single group;
  SchedGroups.SameSpanOneGroup proves it of what `build_sched_domains` builds, where groups are named by CPUs.
- SchedPartition.SchedDomains.PartitionSchedDomains: what a CPU is attached to is a mask, a relax level and a topology
  version; the domains built for it are those of the two modules before.
- LockOrder.WakeUpOrdered: the locks of `try_to_wake_up` only; its busy wait on `on_cpu` waits for no lock and is a step of
  WakeProtocol.
- LockOrder.DeadlockFree: about waiting for locks; that the busy wait under pi_lock closes no circle with them is
  WakeProgress.SpinCanEnd, for the functions of WakeProtocol.
- LockOrder.RunsToCompletion: counts lock operations, so the turns of that busy wait are no part of a run.
- LockOrder.BalanceOrdered: for two different runqueues, as `double_lock_balance` is called; lockdep annotations and
  interrupt state are left out.
- In the linker: `prog->Attributes` is present, types take 1 to 31 slots, fixed locations are below 32 and names are unique.
  The list of inputs without a location is unbounded, where `to_assign` has 16 entries.  `qsort` may return any order
  among equals.  IR cloning, optimisation passes and `update_array_sizes` are not modelled.
- AttributeLinker.Program.AssignAttributeLocations: when some locations are fixed and others automatic, first fit need not
  find a placement that exists; a failure is characterised by the input that fits nowhere among those placed before it.
- In the DVFS driver each exported call is atomic, `regulator_set_voltage`, `set_freq` and
  `cpufreq_frequency_table_target` are contracts, and the PM notifier path is left out.
- ExynosDvfs.RaiseCovered: says nothing about the voltage during the MPLL detour, which the source does not guarantee there.
- ExynosDvfs.LowerCovered: says nothing about the voltage during the MPLL detour, which the source does not guarantee there.
- In VBFS the cached indices match the policy, the current frequency, maximum and minimum are in a strictly descending
  table of fewer than 20 million entries, and usage is at most 100; sampling, logging, sysfs and `powersave_bias` are left
  out, and `get_max_load_freq` is not claimed to be a maximum.
- The dynamic hotplug driver, the ondemand and userspace governors, the cpufreq core, the cpuusage tools and the gtest and
  oprofile headers: small counters, file I/O or plumbing.
