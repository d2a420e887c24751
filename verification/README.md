# gc-arena: the incremental collector

This project models the collector of `gc-arena`: an incremental, tri-colour, mark-and-sweep garbage
collector that works on one arena at a time, between the callbacks of a program that allocates,
writes, weakens, upgrades and resurrects pointers as it likes. The collector is a state machine over
the phases sleep, mark, sweep and drop. Its state is an intrusive list of boxes with a sweep cursor
that allocation races with, two gray queues, a flag for the root, and the counters that pace it.

The model has two layers.

* **The code.** `Contexts.Context`, `Contexts.GcBoxHeader`, `MetricsCells.Metrics`, `Arenas.Arena`,
  `Slab.SlotVec`, `Slab.DynamicRootSet` and `Tracing.Tracer` are classes whose methods do what the
  functions of the source do, in the same order and with the same branches: headers are recoloured
  and relinked through their `next` fields, queues are pushed and popped, `do_collection` is a loop.
  Each method is proved to take the abstract state (`View`) from one value to the next, and to keep
  the list and the cursor sound (`Valid`).
* **The state machine.** `Collector`, `Metering`, `Links` and `Slab` say what each operation does to
  the abstract state. `Runs` puts them together: a *world* is a context, the root, the pointers that
  the running callback holds, and the writes that barriers have made safe; an *event* is one thing
  that a callback, a piece of code outside, or the collector may do; a *run* is any sequence of
  events that the interface allows, beginning with a new arena. `trace` may panic after any number of
  pointers, a destructor may panic at any time, and the metrics may be called at any time; all of these
  are events of a run. The main theorems are about all runs, or about all states that satisfy the
  invariant that all runs keep.

A whole call of the collector takes, for each of its steps, the conduct of the program's own code in it:
how `trace` or the destructor ends, what it reports to the metrics meanwhile, and which handles of dynamic
root sets a destructor drops, so that pointers leave the boxes of these sets in the middle of the call.
Such a call returns, or unwinds from a panic.

A callback holds the pointers that it has read, allocated, upgraded or resurrected, and no others.
It may write to a box those pointers that the box has already, or that it holds and a barrier has
allowed since the last collection step; removing pointers needs no barrier. A collection runs only
between callbacks. That is the contract in `src/context.rs:283-284` and in the documentation of the
barriers.

Five remarks on the source:

* A backward barrier that fires on a box that needs no tracing takes the size of the box off the traced
  counters, although it was never added to them (`src/context.rs:402-404` calls this harmless). The
  counters are unsigned in the source, so the subtraction can wrap around or panic. A call of a
  backward barrier depends on the phase, on the colour of the parent, on whether the parent needs
  tracing, and on what is said about the child; call this its site.
  `Untracing.UnderflowsJustAtFiringLeaves` shows, for every set of sites, that programs which call
  backward barriers there and nowhere else keep the counters natural if and only if at none of the sites
  the barrier fires on a parent that needs no tracing. The traced counters are integers here, so
  everything else is proved with or without such calls; but the bounds on the heap hold of unsigned
  counters only as long as these stay natural, which is what `Growth.UnsignedBoundsHeap` is about.
* A destructor that runs in a sweep may drop the last handle to a slot of a live dynamic root set
  (`src/dynamic_roots.rs:135-141`). The pointer then leaves a box that has been traced already, and what
  only it led to stays on the heap, unreachable, until the next cycle. `Vacancy.HandleInGarbage` is such a
  call of `finish_cycle`. `Exactness.FinishCycleIsExact` and `Transparency.TransparentUnlessVacated` say
  exactly when a call is exact, and when the program cannot tell that it has happened.
* A destructor that panics in a sweep leaves the counters behind (`src/context.rs:647-697`): a box that was
  to be freed is off the list, but stays in the totals for ever, and a box that is kept is not remembered.
  `Accounts.Gap` is what the counters miss in this way, and `Accounts.RunCounts` says that it is all they
  miss. The bounds on the heap hold all the same, because what is not counted is work.
* `[T; 0]` takes its `NEEDS_TRACE` from `T`, so `[Gc<T>; 0]` needs tracing although it never holds a
  pointer (`Tracing.EmptyArrayNeedsTrace`). `Tracing.NeedsTraceIsExact` says when the constant is exact.
* The comment at `src/context.rs:542-543` says that a weakly marked box is *deallocated* in the
  current sweep. The code drops its value and keeps the box, and the model follows the code.

## Files

`Types`, `Metering`, `Collector`, `Links`: the state and what the operations do to it.
`Invariant`, `Marking`, `Sweeping`: the invariant, and that each step keeps it.
`Runs`, `Safety`, `Snapshots`: runs, safety, and what every state of a run looks like.
`Program`, `Coloring`: what the program sees and may do, and how marking goes about its work.
`Survival`, `Completeness`, `Exactness`, `Vacancy`, `Lifetimes`: which boxes a cycle keeps, drops and frees.
`Collection`, `Transparency`: whole calls of `do_collection`.
`Gauges`, `Accounts`, `Ledger`, `MemoryBound`, `Growth`, `Untracing`: the counters, the debt, and what pacing
guarantees.
`Slab`, `DynamicRoots`: dynamic root sets. `Tracing`: `Collect::trace` of the provided types.
`Metrics`, `Context`, `Arena`: the code.

## Model

| member | source | states |
|---|---|---|
| Safety.RunIsSafe | src/context.rs:283-366 | at every point of every run, each box strongly reachable from the root or from a pointer that the callback holds is allocated and its value has not been dropped, and its weak pointers refer to allocated boxes |
| Safety.RunWeakIsAllocated | src/context.rs:515-558 | the weak pointers in the root and in the hands of the callback refer to allocated boxes |
| Safety.RunNeverBlocks | src/context.rs:289-366 | whatever the interface allows next finds every box that it reads allocated, every value that it looks into or traces not dropped, and no gray box in the sweep |
| Safety.RunKeeps | src/context.rs:264-716 | every event of every run, including a `trace` or a destructor that panics, keeps the invariant |
| Safety.BarrierKeeps | src/context.rs:28-86 | each of the four barriers keeps the invariant and makes the adoptions that its documentation promises safe until the next collection |
| Safety.SetEdgesKeeps | src/lock.rs:123-155 | writing pointers that a barrier has allowed, or only removing some, keeps the invariant |
| Program.ProgramSeesPlainHeap | src/context.rs:280-289 | the program cannot tell that there is a collector: at every point of every run the root, and every box that can be reached, hold just what they would in a heap in which nothing is ever collected, that is, what the program last put there |
| Program.HoldsWhatItCameBy | src/context.rs:283-284 | a callback holds just the pointers that it has read, allocated or downgraded, those that it has upgraded to live values that no sweep will drop, and those that it has resurrected, since it began |
| Program.CallbackMay | src/context.rs:280-289 | without any barrier a callback may read the root and what it holds, downgrade, upgrade, and while marking resurrect; pointers may be taken away at any time |
| Program.GrantsWhatItPromises | src/context.rs:28-86 | a barrier makes just those adoptions safe that its documentation names, and leaves safe what was so before |
| Program.BarrierAllowsAdoption | src/context.rs:28-86 | after any of the four barriers a callback may write what the barrier has promised next to what is there already |
| Program.PermitsLast | src/context.rs:28-86 | what a barrier has made safe stays so until the next step of the collector |
| Snapshots.MarkingIsTriColored | src/context.rs:397-510 | while marking, no black box has a strong child that is white or weakly marked or a weak child that is plain white, nor has the root unless it is to be traced again |
| Snapshots.QueuesHoldTheGray | src/context.rs:190-197 | the two queues together hold each gray box exactly once and nothing else, gray boxes are live, and outside marking both are empty, also after `trace` has panicked |
| Snapshots.ListHoldsTheHeap | src/context.rs:172-185 | the list has no duplicates and holds exactly the allocated boxes; in a sweep everything before the cursor is white, and asleep everything is |
| Coloring.FirstPointerMarks | src/context.rs:478-510 | what the first strong or weak pointer found to a box does to its colour, to the queue and to nothing else |
| Coloring.ForwardIsExact | src/context.rs:438-475 | a forward barrier marks the child in the mark phase if the parent is black or not given, and otherwise leaves everything alone |
| Coloring.ResurrectionQueues | src/context.rs:561-574 | resurrection makes a white or weakly marked box gray and queues it, even if it needs no tracing, and changes no other |
| Coloring.AnyPrefixIsReported | src/context.rs:599-623 | a `trace` that panics may have reported any number of the pointers by then, and just these have been followed |
| Coloring.LeavesAreNotTraced | src/context.rs:484-493 | in every run without resurrections and without backward barriers that fire on such boxes, no box that needs no tracing is ever queued to be traced |
| Coloring.NewestIsNext | src/context.rs:576-586 | the next box to trace is the newest of the first queue, or else the newest of the second |
| Coloring.FiredGoesLast | src/context.rs:710-716 | a parent on which a backward barrier fires goes to the second queue |
| Coloring.SecondQueueWaits | src/context.rs:577-586 | whatever happens, it stays there, gray, until the first queue is empty |
| Coloring.RootFlagIsExact | src/context.rs:190-192 | the flag that the root is to be traced is set asleep and clear in a sweep, and in a mark phase it is set just while the root has not been traced as a whole since the phase began or the root was last opened |
| Links.CursorIsLinked | src/context.rs:650-658 | in a sweep the predecessor of the cursor leads to it, and if there is none the list begins at the cursor |
| Links.LinkHeadOk | src/context.rs:386-389 | allocation at any time, also in the middle of a sweep, keeps the list free of cycles and the predecessor of the cursor right |
| Links.TakeOutOk | src/context.rs:644-658 | unlinking the box at the cursor, with or without a predecessor, leaves a list of exactly the other boxes |
| Links.StepOverOk | src/context.rs:678-696 | moving past a box that stays keeps the cursor and its predecessor right |
| Links.BeginSweepOk | src/context.rs:316-322 | the cursor starts at the head of the list |
| Survival.UpgradeTellsFreshFromCondemned | src/context.rs:532-557 | in a sweep, the colour test of `upgrade` accepts a weak pointer that the mutator can reach if and only if its value is live and not condemned by the sweep |
| Program.UpgradeIsExact | src/context.rs:515-558 | at every point of every run and in every phase, a weak pointer that the program can reach upgrades if and only if the value has not been dropped and the sweep, if one is under way, will not drop it; outside a sweep, if and only if it has not been dropped |
| Survival.RefusedIsDropped | src/context.rs:541-547 | a value whose upgrade is refused in a sweep has been dropped by the time the collector sleeps |
| Survival.UpgradedSurvivesSweep | src/context.rs:532-557 | what an upgrade in a sweep returns, and every box strongly reachable from it at that time, is neither dropped nor freed before the next cycle begins |
| Survival.AllocatedInSweepSurvives | src/context.rs:174-179 | a box allocated during a sweep outlives it |
| Survival.DeadIsUnreachable | src/gc.rs:229-238 | in a fully marked arena a dead box is not strongly reachable from the root |
| Survival.DeadIsDropped | src/gc_weak.rs:60-78 | a box that is dead when marking completes is dropped by the end of the cycle, if before the sweep nothing is resurrected, no barrier is called and the root is not opened; callbacks may hold, read, allocate and end |
| Survival.SweepDropsTheWhite | src/context.rs:647-697 | a cycle drops exactly the live boxes that are white or weakly marked when its sweep begins, whatever the mutator does before and after |
| Survival.ResurrectedSurvives | src/gc_weak.rs:80-99 | a resurrected box, and all that it strongly reaches when marking completes, is not dropped in this cycle, even if it is stored nowhere |
| Completeness.InaccessibleIsRemoved | src/context.rs:289-366 | a box that cannot be found from the root through live boxes when the collector wakes is off the heap when it sleeps again, whatever the mutator does in between |
| Lifetimes.InaccessibleIsFreed | src/context.rs:647-697 | such a box has been dropped exactly once and deallocated exactly once by then, if no destructor panics |
| Exactness.FinishCycleKeepsReachable | src/arena.rs:349-359 | a `finish_cycle` from sleep that returns leaves live exactly the boxes that were strongly reachable from the root when it was called, and allocated exactly those and the weak targets of the root and of reachable boxes, whatever the destructors do |
| Exactness.FinishCycleIsExact | src/arena.rs:349-359 | the live boxes are then exactly the reachable ones, and the allocated ones those and the weak targets, if and only if, in the heap before the call, everything that the handles dropped in it lead to from reachable boxes could be reached without them, too |
| Exactness.ExactUnlessVacated | src/arena.rs:349-359 | it is enough that no destructor drops the last handle to a slot of a reachable set |
| Vacancy.HandleInGarbage | src/dynamic_roots.rs:135-141 | a state that a program can reach and a `finish_cycle` after which a box is live and not reachable, because a destructor dropped the last handle to it during the sweep: the call is neither exact nor transparent |
| Exactness.TwoCyclesAreExact | src/arena.rs:349-359 | from any state two calls of `finish_cycle` that return make the heap exact if and only if the same holds of the handles dropped in the second; an exact heap leaves nothing for a third to drop or free, and its pointers stay |
| Transparency.TransparentUnlessVacated | src/context.rs:280-289 | however far a call of `do_collection` goes, and even if it unwinds, exactly the same boxes are strongly reachable from the root before and after, live and with the same contents, if and only if no destructor in it drops the last handle to a slot of a reachable set |
| Transparency.CollectionAddsNothing | src/context.rs:280-289 | in any case what is reachable afterwards was reachable before, is live, and has lost only pointers of dropped handles |
| Transparency.CollectionExtendsRun | src/context.rs:283-366 | a call between two callbacks continues the run, by collection steps, reports and dropped handles only, with at most one wake and, if it returns, without a panicking destructor; a debt-driven one takes its steps only while there is debt; so the theorems about runs can be used after it |
| Collection.CollectionIsRun | src/context.rs:289-366 | a call of `do_collection`, returning or unwinding, consists of collection steps, reports and dropped handles only; it wakes the collector at most once, and not at all for `Stop::FinishCycle` unless it sleeps at the start; if it is driven by the debt, each step is taken while there is debt; a cycle that ends in it is forgiven its debt just if the call has woken the collector; if it returns, no destructor has panicked |
| Collection.CallReturns | src/context.rs:289-366 | a call returns if no `trace` and no destructor panics |
| Collection.TickProgresses | src/context.rs:304-363 | each trip around the loop lowers a lexicographic measure: sleeps, phases left, then two per white box, one per gray box and one for the root, or what is left to sweep |
| Collection.StopsAreHonoured | src/arena.rs:306-359 | if they return, `finish_cycle` ends asleep, and `finish_marking` ends fully marked if and only if it is not called in a sweep, whatever the program's code does in them |
| Collection.StopsWithoutWork | src/arena.rs:306-401 | in a sweep `finish_marking` does nothing, and from a fully marked arena `start_sweeping` does just the switch; neither calls any code of the program |
| Collection.DebtOrStop | src/arena.rs:286-347 | a debt-driven call that returns ends without debt or at its stop condition, whatever `trace` and destructors report and whichever handles they drop during the call |
| Collection.CollectDebtPaysAll | src/arena.rs:267-284 | after a `collect_debt` that returns the debt is zero, from any state, whatever the program's code does during the call, also when it leaves through a whole atomic cycle |
| Collection.NoDebtNoWork | src/context.rs:297-300 | a debt-driven call without debt does nothing at all |
| Collection.StopsWhenPaid | src/context.rs:360-362 | it returns right after the first step that leaves no debt |
| Metering.ResetNeverRaisesDebt | src/metrics.rs:350-377 | finishing a cycle atomically leaves no debt; otherwise no more is carried over than there was |
| Metering.TuningCommutes | src/metrics.rs:379-420 | what a destructor or `trace` reports does not interfere with what the collector counts for the same box |
| Ledger.StepEarns | src/metrics.rs:34-103 | every event is credited with just the work that the pacing has for what it does: marking each white box found for the first time, tracing the box popped, dropping, freeing or keeping the box swept, nothing for what was dropped before or panics, and a traced box is taken back when a backward barrier fires |
| Ledger.WorkPaysDebt | src/metrics.rs:302-348 | while there is debt, an event raises it by what it allocates and lowers it by the work that it does, down to zero, and with the last box the debt is gone |
| Ledger.DebtIsBalance | src/metrics.rs:302-377 | at every point of every cycle in which the pacing has not been changed, the debt is what has been allocated, the growth of external memory, and the debt added and taken over, less what could be allocated freely and less all the work done in the cycle; it is zero if that is negative, before the free amount is used up, and with an empty heap |
| Ledger.PacingIsTheLastSet | src/metrics.rs:229-236 | the pacing in force is the one set last, and the default one until then |
| Ledger.ExternalIsNet | src/metrics.rs:265-290 | as long as no more is given back than there was, external memory is what was reported as allocated less what was reported as deallocated |
| Ledger.DefaultPays | src/metrics.rs:144-154 | the work per byte with the default pacing, for each way that a box can take |
| Ledger.DefaultSleep | src/metrics.rs:350-362 | with the default pacing the sleep is half of what was remembered, and 4096 bytes at the least |
| Ledger.StopsTheWorld | src/metrics.rs:156-172 | with work factors of zero a `collect_debt` that is called asleep with debt and returns has run the cycle to its end, or emptied the heap |
| Growth.SleepsForTheWakeupAmount | src/metrics.rs:105-112 | at every point of a sleep of every run, in any order of events, the debt is what has been allocated since the cycle ended, the growth of external memory, and the debt added and carried over, less the remembered size times the sleep factor or the least sleep, whichever is more |
| MemoryBound.CreditsAreBounded | src/metrics.rs:81-103 | whenever the counters match the heap but for what panics have left out, the work credited in a cycle so far is at most f per byte that has been on the heap in it, where f bounds the three documented sums of factors |
| MemoryBound.CollectDebtBoundsHeap | src/metrics.rs:11-32 | in every run, also after destructors have panicked: after every `collect_debt` that returns the heap is at most (H + W) / (1 - f), H being the heap when the cycle began, W the wakeup amount and f the bound on the work for the pacing at the end; and unless the heap is empty, so are all the bytes that have been on it in the cycle |
| MemoryBound.AllocatingEndsTheCycle | src/metrics.rs:11-15 | in every run, also after destructors have panicked: once more than (W + f H) / (1 - f) bytes have been allocated in a cycle, the next `collect_debt` that returns finishes the cycle, in whatever way it is read as a run, or leaves the heap empty |
| Growth.NewBase | src/metrics.rs:350-377 | the total at the end of a cycle is what its sweep has kept, what has been leaked by panics so far, and what has been allocated since its sweep began |
| Growth.CycleContracts | src/metrics.rs:11-32 | if at most b bytes are allocated between times without debt, the cycle leaves at most r bytes, kept or leaked, and the sleep is at most w, then a cycle that begins with H bytes is followed by one that begins with at most f H + r + w + b |
| Growth.HeapStaysBounded | src/metrics.rs:11-15 | memory does not grow without bound: over all cycles of a run of that kind the heap is at every point at most (X + w) / (1 - f) + b, where X is (r + w + b) / (1 - f) |
| Growth.SleepsStayBounded | src/metrics.rs:350-356 | the sleeps are at most w if w is at least the least sleep and r times the sleep factor |
| Growth.DefaultPacingBoundsHeap | src/metrics.rs:144-154 | with the default pacing f is 0.55 |
| Growth.UnsignedBoundsHeap | src/metrics.rs:404-414 | if no backward barrier has fired on a parent that needs no tracing, the traced counters are natural at every point of the run and of the call, so the bound holds of unsigned counters too |
| MemoryBound.LoopKeepsPacing | src/metrics.rs:233-237 | the pacing at the end of a call is the one at its beginning, unless the program sets it meanwhile |
| MemoryBound.StepKeepsBase | src/metrics.rs:350-402 | H changes only when a cycle finishes, and is then the size of the heap |
| Accounts.RunCounts | src/metrics.rs:379-420 | in every run, with leaked the boxes whose destructor has panicked and skipped those that this sweep has kept but a panic has left out: the totals match the list and the leaked; in a mark phase the marked counters match the boxes that are not white; in a sweep remembered, skipped and still-to-be-swept make up the marked; asleep no work is counted |
| Accounts.CalmRunHasNoGap | src/context.rs:647-697 | as long as no destructor has panicked, nothing is leaked or skipped |
| Accounts.SweepConservesBytes | src/context.rs:647-697 | through a sweep, the bytes remembered, skipped, freed, leaked and still to be swept add up to the total at its start |
| Accounts.SweepRemembersTheMarked | src/context.rs:689-696 | at the end of a sweep the remembered and the skipped make up the marked |
| Untracing.TracedStaysNatural | src/context.rs:592-597 | the traced counters stay natural in every run in which no backward barrier fires on a parent that needs no tracing |
| Untracing.LeafBarrierUnderflows | src/context.rs:397-435 | for each site at which a backward barrier fires on a parent that needs no tracing there is a run that calls backward barriers nowhere else and makes the traced counters negative |
| Untracing.UnderflowsJustAtFiringLeaves | src/metrics.rs:410-414 | for every set of call sites: all runs that call backward barriers only there keep the traced counters natural if and only if at none of them the barrier fires on a parent that needs no tracing |
| Untracing.FiringIsExact | src/context.rs:405-435 | what it is for a backward barrier to fire: phase mark, black parent, and a child that is not given, white or weakly marked, or for a weak one plain white |
| Lifetimes.RunLives | src/context.rs:647-697 | no value is dropped twice and no box freed twice, even if destructors panic, and a box is live just when its value has not been dropped |
| Lifetimes.RunFrees | src/context.rs:647-697 | if no destructor has panicked, every box that is gone has been dropped exactly once and freed exactly once |
| Lifetimes.ArenaDropsOnce | src/context.rs:200-228 | after the context is dropped nothing is left, each value has been dropped and each box freed at most once; if the destructors in it return, the totals are what has been leaked before; exactly once with both totals zero if no destructor panics at all |
| Lifetimes.TearDownInOrder | src/context.rs:201-224 | the context drops its boxes in the order of the list, and frees each one right after it, unless its destructor has panicked |
| Slab.NewSlabIsSound | src/dynamic_roots.rs:211-319 | under any stash, clone and drop of handles the free list has no cycle, ends in the null index and visits exactly the vacant slots, each count is one less than the number of handles, handles share a slot only if cloned from one stash, and the slots panic if and only if there are as many slots as there can be, all of them taken, or more handles to one slot than can be counted |
| Slab.ApplyOk | src/dynamic_roots.rs:253-319 | one operation keeps all that, and panics if and only if a number runs out in that way |
| DynamicRoots.HandlesKeepTargets | src/dynamic_roots.rs:45-74 | while a set is strongly reachable and a handle into it exists, the stashed box and what it strongly reaches are live, across any collections |
| DynamicRoots.FetchGivesStashed | src/dynamic_roots.rs:76-126 | fetching a handle from its own set gives the very pointer that was stashed, and from any other set nothing, also when its own set has been dropped |
| DynamicRoots.RootEventsGoAhead | src/dynamic_roots.rs:54-155 | at every point of every run stashing, cloning, dropping and fetching can go ahead if and only if there is a slot left for the stash or a number left for the clone; dropping a handle always can; a stash may write its slots after its barrier, and dropping a handle needs none |
| Tracing.NeedsTraceIsExact | src/collect_impl.rs:85-333 | `NEEDS_TRACE` is exact, that is, true just when some value of the type holds a pointer, if and only if it is false or there is a pointer in the type outside the arrays of length zero |
| Tracing.EmptyArrayNeedsTrace | src/collect_impl.rs:283-292 | `[Gc<T>; 0]` needs tracing, and none of its values holds a pointer |
| Tracing.PointersNeedLeaf | src/collect_impl.rs:85-333 | some value of a type holds a pointer if and only if there is one in the type outside the arrays of length zero |
| Tracing.NeedsTraceHoldsLeaf | src/collect_impl.rs:85-333 | for types without arrays of length zero `NEEDS_TRACE` is always exact |
| Tracing.NoTraceNoPointers | src/collect.rs:21-27 | a value of a type that needs no tracing holds no pointer, so its box may turn black unscanned |
| Tracing.PointersAreHeld | src/collect_impl.rs:85-333 | the pointers listed for a value are just those found somewhere in its items, entries, fields or contents, and as many as there are |
| Tracing.Tracer.Trace | src/collect.rs:74-81 | guarded tracing reports exactly the pointers that are somewhere in the value, and as many as there are |
| Tracing.Tracer.TraceValue | src/collect_impl.rs:85-313 | so does `trace` of each provided type, container by container |
| Contexts.Context.constructor | src/context.rs:232-246 | a new context is asleep and empty, and its root is to be traced |
| Contexts.Context.Allocate | src/context.rs:368-394 | the box is live, white, at the head of the list and counted, and the cursor stays sound |
| Contexts.Context.RootBarrier | src/context.rs:264-268 | the root is to be traced again if the phase is mark, and nothing else changes |
| Contexts.Context.BackwardBarrier | src/context.rs:397-419 | refines the barrier of the state machine: the parent becomes gray again under exactly the condition of the source |
| Contexts.Context.BackwardBarrierWeak | src/context.rs:422-435 | the same for a weak child |
| Contexts.Context.ForwardBarrier | src/context.rs:438-455 | the child is traced if the phase is mark and the parent black or not given |
| Contexts.Context.ForwardBarrierWeak | src/context.rs:458-475 | the same for a weak child |
| Contexts.Context.Trace | src/context.rs:478-501 | a white or weakly marked box becomes gray and queued, or black if it needs no tracing, and is counted only the first time |
| Contexts.Context.TraceWeak | src/context.rs:504-510 | only a plain white box changes, and is counted |
| Contexts.Context.TraceTyped | src/collect.rs:74-81 | tracing a value of a provided type marks exactly the targets of the pointers that are somewhere in it, and changes no other box |
| Contexts.Context.Upgrade | src/context.rs:515-558 | true if and only if the value is live and, in a sweep, not weakly marked |
| Contexts.Context.Resurrect | src/context.rs:561-574 | a white or weakly marked box becomes gray and queued even if it needs no tracing |
| Contexts.Context.MakeGrayAgain | src/context.rs:710-716 | a black box becomes gray, is queued and taken off the traced counters |
| Contexts.Context.PopGray | src/context.rs:580-586 | the newest of the gray queue, or else the newest of the other |
| Contexts.Context.MarkOne | src/context.rs:576-633 | the state after one step of marking, for every way in which `trace` can end and whatever it reports, with the popped box back in a queue if it panics |
| Contexts.Context.SweepOne | src/context.rs:635-707 | the state after one step of sweeping, for each colour, with or without a panic of the destructor, whatever it reports and whichever handles it drops; breaks at the end of the list |
| Contexts.Context.TakeOut | src/context.rs:644-658 | the box leaves the list through its predecessor or through the head |
| Contexts.Context.StepOver | src/context.rs:679-694 | the cursor and its predecessor move on by one box |
| Contexts.Context.Turn | src/context.rs:304-358 | one trip around the loop, in every phase |
| Contexts.Context.MarkTurn | src/context.rs:311-325 | one step of marking, or the switch to sweeping unless the call is to stop there |
| Contexts.Context.SweepTurn | src/context.rs:326-356 | one step of sweeping, or the end of the cycle, with the assertion at line 352 shown to hold |
| Contexts.Context.DoCollection | src/context.rs:289-366 | the loop terminates, returns or unwinds as specified for any conduct of `trace` and destructors, and keeps the list and the invariant |
| Contexts.Context.DropAll | src/context.rs:200-228 | dropping the context drops and frees every box on the list, and leaks those whose destructor panics |
| Contexts.Context.LockSet | src/lock.rs:151-155 | the barrier and then the write |
| Contexts.Context.LockTake | src/lock.rs:122-135 | the pointers of one lock leave the box without a barrier, and the others stay |
| Contexts.Context.IsDropped | src/gc_weak.rs:50-58 | true if and only if the value has been dropped |
| Contexts.Context.IsDead | src/gc.rs:229-238 | true if and only if the box is white or weakly marked |
| Contexts.Context.GrayRemaining | src/context.rs:276-278 | false if and only if marking is complete |
| Arenas.Arena.constructor | src/arena.rs:130-148 | a new arena is the world in which every run begins |
| Arenas.Arena.Alloc | src/gc.rs:88-96 | `Gc::new` is the allocation event of a run |
| Arenas.Arena.New | src/gc.rs:88-96 | for a value of a provided type that holds only pointers of the callback, `Gc::new` is always allowed |
| Arenas.Arena.Upgrade | src/gc_weak.rs:40-48 | `GcWeak::upgrade` is the upgrade event, and gives the pointer just when the value is live and the sweep, if one is under way, will not drop it |
| Arenas.Arena.Resurrect | src/gc_weak.rs:80-99 | `resurrect` is the resurrection event, and gives the pointer just when the value is live |
| Arenas.Arena.CallBarrier | src/context.rs:28-86 | calling a barrier is the barrier event |
| Arenas.Arena.Write | src/gc.rs:196-210 | a write after a barrier is the write event |
| Arenas.Arena.Store | src/gc.rs:196-210 | so is storing such a value in a box of its type, if the barriers allow its pointers |
| Arenas.Arena.Take | src/lock.rs:122-135 | taking the pointers of one lock is an event that needs no barrier |
| Arenas.Arena.TakeFromRoot | src/lock.rs:122-135 | nor does taking from a lock in the root itself need one, or opening the root |
| Arenas.Arena.OpenRoot | src/arena.rs:226-238 | `mutate_root` and `map_root` call the root barrier before the callback may touch the root |
| Arenas.Arena.WriteRoot | src/arena.rs:164-181 | the root then holds what the callback puts there |
| Arenas.Arena.Tune | src/metrics.rs:233-300 | a call on the metrics is the tuning event, possible at any time |
| Arenas.Arena.CollectDebt | src/arena.rs:278-284 | without debt it does nothing; if it returns there is no debt; returning or not, the invariant holds |
| Arenas.Arena.MarkDebt | src/arena.rs:295-308 | without debt it does nothing; if it returns it gives a marked arena if and only if marking is complete, and otherwise the debt is zero or a sweep goes on |
| Arenas.Arena.FinishMarking | src/arena.rs:317-330 | if it returns it gives a marked arena if and only if it was not called in a sweep; in a sweep it changes nothing |
| Arenas.Arena.CycleDebt | src/arena.rs:341-347 | without debt it does nothing; if it returns there is no debt or the collector sleeps |
| Arenas.Arena.FinishCycle | src/arena.rs:353-359 | if it returns the collector sleeps |
| Arenas.Arena.StartSweeping | src/arena.rs:390-401 | does the switch to the sweep and nothing else, so the assertion on the phase holds |
| Arenas.Arena.CurrentPhase | src/arena.rs:246-259 | tells the four phases apart, with marked meaning that nothing is left to mark |
| Arenas.Arena.Destroy | src/context.rs:200-228 | dropping the arena drops the context as specified, whatever the destructors do |
| Slab.SlotVec.Add | src/dynamic_roots.rs:253-290 | takes the head of the free list or grows the vector, reports the growth as external memory, and panics on a corrupted list |
| Slab.SlotVec.Inc | src/dynamic_roots.rs:292-301 | adds one handle; panics on overflow or on a vacant slot |
| Slab.SlotVec.Dec | src/dynamic_roots.rs:303-318 | the last handle gives the slot back to the free list |
| Slab.SlotVec.Free | src/dynamic_roots.rs:231-236 | reports the whole capacity as deallocated |
| Slab.GrowthIsGivenBack | src/dynamic_roots.rs:231-290 | however a vector has grown and whatever else is reported in between, when it is dropped the external memory is as if it had never been, if nothing else gives back more than it has reported |
| Slab.DynamicRootSet.Stash | src/dynamic_roots.rs:62-73 | the new handle refers to the slot that holds the stashed pointer |
| Slab.DynamicRootSet.Clone | src/dynamic_roots.rs:143-154 | the copy has the same index and is counted |
| Slab.DynamicRootSet.Release | src/dynamic_roots.rs:135-141 | the handle is gone and no longer counted |

## Left out

- Lifetimes, generativity, `Rootable!`, `unsize!`, pointer casts and `from_ptr`: matters of the type system and of memory layout. They appear as the rule that a callback uses only pointers it has come by in that callback.
- The tag bits in the vtable pointer and the vtable (`src/types.rs:136-216`): a header has plain fields, an abstract size, and the list of the pointers that its value holds.
- Addresses: a deallocated address may be given out again by the allocator; the model names each allocation once. Headers of deallocated boxes are out of reach in the model, and so are those of boxes leaked by a panicking destructor.
- Contexts.Context.TakeOut: takes the header out of the reachable memory when it is unlinked, just before the value is dropped.
- Contexts.Context.Resurrect: does not assert that the phase is mark; only `Arenas.Arena.Resurrect` calls it, and there it is.
- Collection.Tick: lets handles of dynamic root sets be dropped in steps that call a destructor, and not by `trace`, which is given a shared reference and is there to report pointers; in a run handles may be dropped at any time.
- Contexts.Context.DropAll: a second destructor that panics while the first panic unwinds aborts the process in the source; the model goes on with the list. The handles that destructors drop then are not looked at, because no pointer is followed any more.
- Floating point: the pacing arithmetic is over the reals, without rounding, NaN or infinities.
- Integer widths: sizes and counters are unbounded, so the saturation of the byte counters and the wrap-around of the totals are not modelled; the totals and the traced counters are integers, and where they stay natural is proved.
- Slab.GrowthIsGivenBack: the slots have the sizes of a 64-bit platform, 16 bytes each and indices of 64 bits.
- How a vector grows: the new capacity is a parameter of `Slab.SlotVec.Add`.
- Dynamic root sets as an object in an arena: `Slab.DynamicRootSet` changes the slots in place, and `DynamicRoots` composes slots and arena on values. The identity of a set stands for the address comparison in `contains`.
- `fetch` panics where `try_fetch` fails; the model has the answer of `try_fetch`.
- `MarkedArena::finalize`: only passes the callback on; what the callback may do is in the events.
- `try_new`, `try_map_root` and `rootless_mutate`: other ways through the same steps.
- The derive macro, the `hashbrown` implementations, `MetricsAlloc` and the logging in `PhaseGuard`.
- `Static`, the projections of `Write`, comparison and formatting: no effect on the collector beyond the barrier.
