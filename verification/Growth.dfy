/** What pacing guarantees over whole runs: how long the collector sleeps, and that memory does not grow
    without bound. */
module Growth {
  import opened Types
  import opened Metering
  import opened Collector
  import opened Invariant
  import opened Gauges
  import opened Runs
  import opened Safety
  import opened Collection
  import opened Transparency
  import opened Accounts
  import opened MemoryBound
  import Untracing

  // -------------------------------------------------------------------------- the sleep

  /** Bytes of artificial debt that the program has added between worlds `i` and `j`. */
  function AddedDebt(evs: seq<Event>, i: nat, j: nat): real
    requires i <= j <= |evs|
  {
    if i == j then 0.0
    else AddedDebt(evs, i, j - 1) + DebtOf(evs[j - 1])
  }

  function DebtOf(ev: Event): real {
    if ev.Tune? && ev.tuning.AddDebt? then ev.tuning.bytes as real else 0.0
  }

  /** Between `m` and `n` so much debt has been added. */
  predicate Owes(m: Meter, n: Meter, added: real) {
    n.externalStart == m.externalStart && n.artificialDebt == m.artificialDebt + added
  }

  predicate SameDebt(m: Meter, n: Meter) {
    n.artificialDebt == m.artificialDebt && n.externalStart == m.externalStart
  }

  lemma {:induction false} TraceEdgesOwe(c: Ctx, edges: seq<Edge>)
    requires Present(c, edges)
    ensures SameDebt(c.meter, TraceEdges(c, edges).meter)
  {
    if edges == [] {
    } else {
      TraceEdgesOwe(c, edges[..|edges| - 1]);
    }
  }

  lemma MarkOneOwes(c: Ctx, root: seq<Edge>, outcome: Outcome)
    requires !MarkDone(c) && MarkReady(c, root)
    ensures SameDebt(c.meter, MarkOne(c, root, outcome).meter)
  {
    match NextGray(c) {
      case Some(r) => TraceEdgesOwe(StartTrace(c), Reported(c.heap[r].edges, outcome));
      case None => TraceEdgesOwe(c, Reported(root, outcome));
    }
  }

  lemma SweepOneOwes(c: Ctx, panics: bool)
    requires SweepReady(c)
    ensures SameDebt(c.meter, SweepOne(c, panics).meter)
  {
  }

  lemma BarrierOwes(c: Ctx, b: Barrier)
    requires BarrierReady(c, b)
    ensures SameDebt(c.meter, RunBarrier(c, b).meter)
  {
  }

  lemma StepOwes(w: World, ev: Event)
    requires Allowed(w, ev) && Ready(w, ev) && !ev.FinishSweep?
    ensures Owes(w.cx.meter, After(w, ev).cx.meter, DebtOf(ev))
  {
    match ev {
      case MarkStep(outcome) => MarkOneOwes(w.cx, w.root, outcome);
      case SweepStep(panics) => SweepOneOwes(w.cx, panics);
      case CallBarrier(b) => BarrierOwes(w.cx, b);
      case _ =>
    }
  }

  lemma {:induction false} CycleOwes(ws: seq<World>, evs: seq<Event>, i: nat, j: nat)
    requires IsRun(ws, evs) && i <= j < |ws| && SameCycle(evs, i, j)
    ensures Owes(ws[i].cx.meter, ws[j].cx.meter, AddedDebt(evs, i, j))
  {
    if i == j {
    } else {
      var k := j - 1;
      CycleOwes(ws, evs, i, k);
      RunStepOwes(ws, evs, k, j);
      OwesMore(ws[i].cx.meter, ws[k].cx.meter, ws[j].cx.meter, AddedDebt(evs, i, k), DebtOf(evs[k]));
      AddedDebtMore(evs, i, k, j);
    }
  }

  lemma AddedDebtMore(evs: seq<Event>, i: nat, k: nat, j: nat)
    requires i <= k < |evs| && j == k + 1
    ensures AddedDebt(evs, i, j) == AddedDebt(evs, i, k) + DebtOf(evs[k])
  {
  }

  lemma OwesMore(m: Meter, n: Meter, o: Meter, added: real, more: real)
    requires Owes(m, n, added) && Owes(n, o, more)
    ensures Owes(m, o, added + more)
  {
  }

  lemma RunStepOwes(ws: seq<World>, evs: seq<Event>, i: nat, j: nat)
    requires IsRun(ws, evs) && i < |evs| && j == i + 1 && !evs[i].FinishSweep?
    ensures Owes(ws[i].cx.meter, ws[j].cx.meter, DebtOf(evs[i]))
  {
    StepOwes(ws[i], evs[i]);
  }

  /** External bytes by which `n` is ahead of `m`. */
  function ExternalGrowth(m: Meter, n: Meter): nat {
    if n.totalExternal < m.totalExternal then 0 else n.totalExternal - m.totalExternal
  }

  function Carried(m: Meter, resetDebt: bool): real {
    if resetDebt then 0.0 else AllocationDebt(m)
  }

  /** The counters of a cycle that has just ended, in the one that follows. */
  lemma CycleIsFinished(ws: seq<World>, evs: seq<Event>, s: nat)
    requires IsRun(ws, evs) && s < |evs| && evs[s].FinishSweep?
    ensures var m, n := ws[s].cx.meter, ws[s + 1].cx.meter;
            && n.allocatedBytes == 0 && n.wakeup == Wakeup(m) && n.externalStart == m.totalExternal
            && n.artificialDebt == Carried(m, evs[s].resetDebt)
  {
  }

  /** While the collector sleeps, its debt is what has been allocated since the cycle ended at step `s`,
      the growth of external memory since then, the debt that was added and the debt that was carried
      over, less the remembered size times the sleep factor or the least sleep, whichever is more. */
  lemma SleepsForTheWakeupAmount(ws: seq<World>, evs: seq<Event>, s: nat, i: nat)
    requires IsRun(ws, evs) && ws[0] == INITIAL && s < i < |ws|
    requires evs[s].FinishSweep? && SameCycle(evs, s + 1, i) && ws[i].cx.phase == Sleep
    ensures Sleeps(ws[s].cx.meter, ws[i].cx.meter, AllocatedBytes(evs, s + 1, i),
                   Carried(ws[s].cx.meter, evs[s].resetDebt) + AddedDebt(evs, s + 1, i))
  {
    SleepFields(ws, evs, s, i);
    var owed := Carried(ws[s].cx.meter, evs[s].resetDebt) + AddedDebt(evs, s + 1, i);
    SleepDebt(ws[s].cx.meter, ws[i].cx.meter, AllocatedBytes(evs, s + 1, i), owed);
  }

  /** The counters of a sleep: `m` is from before it, `n` from the middle of it. */
  predicate Asleep(m: Meter, n: Meter, since: nat, owed: real) {
    && SleepCounts(n) && n.externalStart == m.totalExternal && n.wakeup == Wakeup(m)
    && n.allocatedBytes == since && n.artificialDebt == owed
  }

  predicate Sleeps(m: Meter, n: Meter, since: nat, owed: real) {
    n.totalGcs != 0 ==>
      AllocationDebt(n) == Max((since + ExternalGrowth(m, n)) as real - Wakeup(m) + owed, 0.0)
  }

  lemma SleepDebt(m: Meter, n: Meter, since: nat, owed: real)
    requires Asleep(m, n, since, owed)
    ensures Sleeps(m, n, since, owed)
  {
    if n.totalGcs != 0 {
      DebtBeforeWork(n);
    }
  }

  lemma SleepFields(ws: seq<World>, evs: seq<Event>, s: nat, i: nat)
    requires IsRun(ws, evs) && ws[0] == INITIAL && s < i < |ws|
    requires evs[s].FinishSweep? && SameCycle(evs, s + 1, i) && ws[i].cx.phase == Sleep
    ensures Asleep(ws[s].cx.meter, ws[i].cx.meter, AllocatedBytes(evs, s + 1, i),
                   Carried(ws[s].cx.meter, evs[s].resetDebt) + AddedDebt(evs, s + 1, i))
  {
    CycleIsFinished(ws, evs, s);
    CycleAllocates(ws, evs, s + 1, i);
    CycleOwes(ws, evs, s + 1, i);
    NothingCounted(ws, evs, i);
  }

  lemma NothingCounted(ws: seq<World>, evs: seq<Event>, i: nat)
    requires IsRun(ws, evs) && ws[0] == INITIAL && i < |ws| && ws[i].cx.phase == Sleep
    ensures SleepCounts(ws[i].cx.meter)
  {
    RunCounts(ws, evs, i);
  }

  // ----------------------------------------------------------------- the end of a cycle

  /** A sweep has begun at some step, and no cycle has ended since. */
  lemma {:induction false} SweepHasBegun(ws: seq<World>, evs: seq<Event>, j: nat) returns (s: nat)
    requires IsRun(ws, evs) && ws[0] == INITIAL && j < |ws| && ws[j].cx.phase == Sweep
    ensures s < j && evs[s].BeginSweep? && SameCycle(evs, s, j)
  {
    if evs[j - 1].BeginSweep? {
      s := j - 1;
    } else {
      SweepWentOn(ws, evs, j);
      s := SweepHasBegun(ws, evs, j - 1);
    }
  }

  lemma SweepWentOn(ws: seq<World>, evs: seq<Event>, j: nat)
    requires IsRun(ws, evs) && 0 < j < |ws| && ws[j].cx.phase == Sweep && !evs[j - 1].BeginSweep?
    ensures ws[j - 1].cx.phase == Sweep && !evs[j - 1].FinishSweep?
  {
    BeforeSweep(ws[j - 1], evs[j - 1]);
  }

  lemma BeforeSweep(w: World, ev: Event)
    requires Allowed(w, ev) && Ready(w, ev) && After(w, ev).cx.phase == Sweep && !ev.BeginSweep?
    ensures w.cx.phase == Sweep && !ev.FinishSweep?
  {
    if ev.MarkStep? {
      MarkOneStaysMarking(w.cx, w.root, ev.outcome);
    } else if ev.CallBarrier? {
      BarrierKeepsPhase(w.cx, ev.barrier);
    }
  }

  lemma {:induction false} TraceEdgesKeepPhase(c: Ctx, edges: seq<Edge>)
    requires Present(c, edges)
    ensures TraceEdges(c, edges).phase == c.phase
  {
    if edges == [] {
    } else {
      TraceEdgesKeepPhase(c, edges[..|edges| - 1]);
    }
  }

  lemma MarkOneStaysMarking(c: Ctx, root: seq<Edge>, outcome: Outcome)
    requires !MarkDone(c) && MarkReady(c, root)
    ensures MarkOne(c, root, outcome).phase == c.phase
  {
    match NextGray(c) {
      case Some(r) => TraceEdgesKeepPhase(StartTrace(c), Reported(c.heap[r].edges, outcome));
      case None => TraceEdgesKeepPhase(c, Reported(root, outcome));
    }
  }

  lemma BarrierKeepsPhase(c: Ctx, b: Barrier)
    requires BarrierReady(c, b)
    ensures RunBarrier(c, b).phase == c.phase
  {
  }

  /** During a sweep that began at step `s`: what was on the heap then, and how much had been allocated
      in the cycle. */
  lemma SweepKeepsTotal(ws: seq<World>, evs: seq<Event>, s: nat, t: nat)
    requires IsRun(ws, evs) && ws[0] == INITIAL && s < t < |ws|
    requires evs[s].BeginSweep? && SameCycle(evs, s, t)
    ensures Conserves(ws[t].cx, GapAt(ws, evs, t), CycleBase(ws[t].cx.meter) + ws[s].cx.meter.allocatedBytes)
  {
    SweepConservesBytes(ws, evs, s, t);
    CycleAllocates(ws, evs, s, t);
    NothingFreed(ws, evs, s);
  }

  lemma NothingFreed(ws: seq<World>, evs: seq<Event>, s: nat)
    requires IsRun(ws, evs) && ws[0] == INITIAL && s < |ws| && ws[s].cx.phase == Mark
    ensures ws[s].cx.meter.freedBytes == 0
  {
    RunCounts(ws, evs, s);
  }

  /** What the cycle leaves in the totals of the boxes that were there when its sweep began: those that it
      has kept, and those that have been leaked at any time. */
  function LeftBytes(ws: seq<World>, evs: seq<Event>, j: nat): nat
    requires IsRun(ws, evs) && j < |ws|
  {
    KeptBytes(ws[j].cx.meter, GapAt(ws, evs, j)) + GapAt(ws, evs, j).leakedBytes
  }

  /** The total at the end of a cycle is what the cycle has left, and what has been allocated since its
      sweep began at step `s`. */
  lemma NewBase(ws: seq<World>, evs: seq<Event>, s: nat, j: nat)
    requires IsRun(ws, evs) && ws[0] == INITIAL && s < j < |evs|
    requires evs[s].BeginSweep? && SameCycle(evs, s, j) && evs[j].FinishSweep?
    ensures ws[j].cx.meter.totalGcBytes == LeftBytes(ws, evs, j) + AllocatedBytes(evs, s, j)
  {
    SweepKeepsTotal(ws, evs, s, j);
    CycleAllocates(ws, evs, s, j);
  }

  // ---------------------------------------------------------------- growth over a cycle

  /** In a sweep the work so far is at most `f` per byte that was on the heap when the sweep began. */
  lemma SweepCredits(c: Ctx, gap: Gap, f: real, all: int)
    requires Counted(c, gap) && WorkAtMost(c.meter.pacing, f) && Conserves(c, gap, all)
    ensures Credits(c.meter) <= Limit(f, all, 0.0)
  {
    ReadingsAreOrdered(c.heap, c.back);
    CreditsInSweep(c.meter, f, KeptBytes(c.meter, gap), Weigh(MarkedBytes, c.heap, c.back),
                   Weigh(BlackBytes, c.heap, c.back), all);
  }

  /** Without debt, no more has been allocated than may be before the collector wakes, and than has been
      worked off. */
  lemma PaidInSweep(c: Ctx, gap: Gap, f: real, all: int)
    requires Counted(c, gap) && WorkAtMost(c.meter.pacing, f) && Conserves(c, gap, all)
    requires c.meter.totalGcs != 0 && AllocationDebt(c.meter) == 0.0
    ensures c.meter.allocatedBytes as real <= Limit(f, all, c.meter.wakeup)
  {
    SweepCredits(c, gap, f, all);
    PaidMeter(c.meter, f, all);
  }

  lemma PaidMeter(m: Meter, f: real, all: int)
    requires 0.0 <= f && all >= 0 && Credits(m) <= Limit(f, all, 0.0) && m.artificialDebt >= 0.0
    requires m.totalGcs != 0 && AllocationDebt(m) == 0.0
    ensures m.allocatedBytes as real <= Limit(f, all, m.wakeup)
  {
    PaidByWork(m);
    PaidMeterNumbers(m.allocatedBytes as real, m.wakeup, Debits(m), Credits(m), f, all);
  }

  lemma PaidMeterNumbers(bytes: real, wakeup: real, debits: real, credits: real, f: real, all: int)
    requires 0.0 <= f && all >= 0 && credits <= Limit(f, all, 0.0)
    requires debits <= 0.0 || debits <= credits
    requires bytes - wakeup <= debits
    ensures bytes <= Limit(f, all, wakeup)
  {
    Scale(0.0, f, all as real);
  }

  lemma StepGrows(w: World, ev: Event)
    requires Allowed(w, ev) && Ready(w, ev)
    ensures After(w, ev).cx.meter.totalGcBytes <= w.cx.meter.totalGcBytes + if ev.Alloc? then ev.size else 0
  {
    match ev {
      case MarkStep(outcome) => MarkOneGrows(w.cx, w.root, outcome);
      case SweepStep(panics) => SweepOneGrows(w.cx, panics);
      case CallBarrier(b) => BarrierGrows(w.cx, b);
      case _ =>
    }
  }

  lemma {:induction false} TraceEdgesGrow(c: Ctx, edges: seq<Edge>)
    requires Present(c, edges)
    ensures TraceEdges(c, edges).meter.totalGcBytes == c.meter.totalGcBytes
  {
    if edges == [] {
    } else {
      TraceEdgesGrow(c, edges[..|edges| - 1]);
    }
  }

  lemma MarkOneGrows(c: Ctx, root: seq<Edge>, outcome: Outcome)
    requires !MarkDone(c) && MarkReady(c, root)
    ensures MarkOne(c, root, outcome).meter.totalGcBytes == c.meter.totalGcBytes
  {
    match NextGray(c) {
      case Some(r) => TraceEdgesGrow(StartTrace(c), Reported(c.heap[r].edges, outcome));
      case None => TraceEdgesGrow(c, Reported(root, outcome));
    }
  }

  lemma SweepOneGrows(c: Ctx, panics: bool)
    requires SweepReady(c)
    ensures SweepOne(c, panics).meter.totalGcBytes <= c.meter.totalGcBytes
  {
  }

  lemma BarrierGrows(c: Ctx, b: Barrier)
    requires BarrierReady(c, b)
    ensures RunBarrier(c, b).meter.totalGcBytes == c.meter.totalGcBytes
  {
  }

  /** Only allocation makes the heap grow. */
  lemma {:induction false} HeapGrows(ws: seq<World>, evs: seq<Event>, i: nat, j: nat)
    requires IsRun(ws, evs) && i <= j < |ws|
    ensures ws[j].cx.meter.totalGcBytes <= ws[i].cx.meter.totalGcBytes + AllocatedBytes(evs, i, j)
  {
    if i == j {
    } else {
      HeapGrows(ws, evs, i, j - 1);
      StepGrows(ws[j - 1], evs[j - 1]);
    }
  }

  lemma {:induction false} AllocatedAdds(evs: seq<Event>, i: nat, k: nat, j: nat)
    requires i <= k <= j <= |evs|
    ensures AllocatedBytes(evs, i, j) == AllocatedBytes(evs, i, k) + AllocatedBytes(evs, k, j)
  {
    if k == j {
    } else {
      AllocatedAdds(evs, i, k, j - 1);
    }
  }

  /** No debt at world `t`, and no more than `b` bytes allocated from there to world `j`. */
  predicate PaidSince(ws: seq<World>, evs: seq<Event>, t: nat, j: nat, b: real)
    requires |ws| == |evs| + 1 && j <= |evs|
  {
    t <= j && AllocationDebt(ws[t].cx.meter) == 0.0 && AllocatedBytes(evs, t, j) as real <= b
  }

  /** What is known when the debt was last paid in the sweep. */
  lemma SweepFacts(ws: seq<World>, evs: seq<Event>, s: nat, t: nat, j: nat)
    requires IsRun(ws, evs) && ws[0] == INITIAL && s < t <= j < |evs|
    requires evs[s].BeginSweep? && SameCycle(evs, s, j) && evs[j].FinishSweep?
    ensures Counted(ws[t].cx, GapAt(ws, evs, t))
    ensures Conserves(ws[t].cx, GapAt(ws, evs, t), CycleBase(ws[j].cx.meter) + ws[s].cx.meter.allocatedBytes)
    ensures ws[t].cx.meter.allocatedBytes == ws[s].cx.meter.allocatedBytes + AllocatedBytes(evs, s, t)
    ensures ws[j].cx.meter.totalGcBytes
         == LeftBytes(ws, evs, j) + AllocatedBytes(evs, s, t) + AllocatedBytes(evs, t, j)
  {
    NewBase(ws, evs, s, j);
    SweepKeepsTotal(ws, evs, s, t);
    RunCounts(ws, evs, t);
    AllocatedAdds(evs, s, t, j);
    CycleAllocates(ws, evs, s, t);
    CycleAllocates(ws, evs, t, j);
  }

  lemma SweepTotals(ws: seq<World>, evs: seq<Event>, s: nat, t: nat, j: nat)
    requires IsRun(ws, evs) && ws[0] == INITIAL && s < t <= j < |evs|
    requires evs[s].BeginSweep? && SameCycle(evs, s, j) && evs[j].FinishSweep?
    ensures ws[t].cx.meter.allocatedBytes == ws[s].cx.meter.allocatedBytes + AllocatedBytes(evs, s, t)
    ensures ws[j].cx.meter.totalGcBytes
         == LeftBytes(ws, evs, j) + AllocatedBytes(evs, s, t) + AllocatedBytes(evs, t, j)
  {
    SweepFacts(ws, evs, s, t, j);
  }

  lemma WorkedOff(ws: seq<World>, evs: seq<Event>, s: nat, t: nat, j: nat, f: real, all: int)
    requires IsRun(ws, evs) && ws[0] == INITIAL && s < t <= j < |evs|
    requires evs[s].BeginSweep? && SameCycle(evs, s, j) && evs[j].FinishSweep?
    requires WorkAtMost(ws[t].cx.meter.pacing, f)
    requires AllocationDebt(ws[t].cx.meter) == 0.0 && ws[t].cx.meter.totalGcs != 0
    requires all == CycleBase(ws[j].cx.meter) + ws[s].cx.meter.allocatedBytes
    ensures ws[t].cx.meter.allocatedBytes as real <= Limit(f, all, ws[t].cx.meter.wakeup)
  {
    SweepFacts(ws, evs, s, t, j);
    PaidInSweep(ws[t].cx, GapAt(ws, evs, t), f, all);
  }

  /** The numbers in that case: `base` bytes at the beginning of the cycle, `before` and `during`
      allocated before the sweep and in it, up to the time when the debt was zero, and `since` after
      that. */
  lemma SweepNumbers(base: real, before: real, during: real, since: real, kept: real, wakeup: real,
                     f: real, r: real, w: real, b: real)
    requires 0.0 <= f < 1.0 && before >= 0.0 && wakeup <= w && kept <= r && since <= b
    requires before + during <= f * (base + before) + wakeup
    ensures kept + during + since <= f * base + (r + w + b)
  {
    Distribute(f, base, before);
    Scale(f, 1.0, before);
  }

  /** If the debt was last paid in the sweep. */
  lemma PaidInSweepContracts(ws: seq<World>, evs: seq<Event>, s: nat, t: nat, j: nat,
                             f: real, r: real, w: real, b: real)
    requires IsRun(ws, evs) && ws[0] == INITIAL && s < t <= j < |evs|
    requires evs[s].BeginSweep? && SameCycle(evs, s, j) && evs[j].FinishSweep?
    requires PaidSince(ws, evs, t, j, b) && ws[t].cx.meter.totalGcs != 0
    requires WorkAtMost(ws[t].cx.meter.pacing, f) && f < 1.0 && ws[t].cx.meter.wakeup <= w
    requires LeftBytes(ws, evs, j) as real <= r
    ensures ws[j].cx.meter.totalGcBytes as real <= Limit(f, CycleBase(ws[j].cx.meter), r + w + b)
  {
    SweepTotals(ws, evs, s, t, j);
    var all := CycleBase(ws[j].cx.meter) + ws[s].cx.meter.allocatedBytes;
    WorkedOff(ws, evs, s, t, j, f, all);
    PaidNumbers(ws[t].cx.meter, all, CycleBase(ws[j].cx.meter), ws[s].cx.meter.allocatedBytes,
                AllocatedBytes(evs, s, t), AllocatedBytes(evs, t, j), LeftBytes(ws, evs, j),
                ws[j].cx.meter.totalGcBytes, f, r, w, b);
  }

  lemma PaidNumbers(m: Meter, swept: int, base: int, before: nat, during: nat, since: nat, kept: nat, total: int,
                    f: real, r: real, w: real, b: real)
    requires m.allocatedBytes as real <= Limit(f, swept, m.wakeup)
    requires swept == base + before && m.allocatedBytes == before + during && total == kept + during + since
    requires 0.0 <= f < 1.0 && m.wakeup <= w && kept as real <= r && since as real <= b
    ensures total as real <= Limit(f, base, r + w + b)
  {
    assert swept as real == base as real + before as real;
    SweepNumbers(base as real, before as real, during as real, since as real, kept as real, m.wakeup, f, r, w, b);
  }

  lemma Enough(total: int, base: int, f: real, k: real)
    requires 0.0 <= f && base >= 0 && total as real <= k
    ensures total as real <= Limit(f, base, k)
  {
    Scale(0.0, f, base as real);
  }

  ghost predicate PaidUp(ws: seq<World>, evs: seq<Event>, j: nat, b: real)
    requires |ws| == |evs| + 1 && j <= |evs|
  {
    exists t :: PaidSince(ws, evs, t, j, b)
  }

  /** If the debt was last paid before the sweep began, at step `s`. */
  lemma PaidBeforeSweep(ws: seq<World>, evs: seq<Event>, s: nat, t: nat, j: nat, r: real, b: real)
    requires IsRun(ws, evs) && ws[0] == INITIAL && t <= s < j < |evs|
    requires evs[s].BeginSweep? && SameCycle(evs, s, j) && evs[j].FinishSweep?
    requires PaidSince(ws, evs, t, j, b) && LeftBytes(ws, evs, j) as real <= r
    ensures ws[j].cx.meter.totalGcBytes as real <= r + b
  {
    NewBase(ws, evs, s, j);
    AllocatedAdds(evs, t, s, j);
  }

  /** If the heap was empty then. */
  lemma PaidWhenEmpty(ws: seq<World>, evs: seq<Event>, t: nat, j: nat, b: real)
    requires IsRun(ws, evs) && ws[0] == INITIAL && t <= j < |ws|
    requires PaidSince(ws, evs, t, j, b) && ws[t].cx.meter.totalGcs == 0
    ensures ws[j].cx.meter.totalGcBytes as real <= b
  {
    RunCounts(ws, evs, t);
    EmptyHeapHasNoBytes(ws[t].cx, GapAt(ws, evs, t));
    HeapGrows(ws, evs, t, j);
  }

  /** From one cycle to the next: if at most `b` bytes have been allocated since the debt was last zero,
      at most `r` bytes are left over, and the collector sleeps for at most `w` bytes, then the next
      cycle begins with at most f H + (r + w + b) bytes. */
  lemma CycleContracts(ws: seq<World>, evs: seq<Event>, t: nat, j: nat, f: real, r: real, w: real, b: real)
    requires IsRun(ws, evs) && ws[0] == INITIAL && j < |evs| && evs[j].FinishSweep?
    requires PaidSince(ws, evs, t, j, b)
    requires WorkAtMost(ws[t].cx.meter.pacing, f) && f < 1.0 && ws[t].cx.meter.wakeup <= w
    requires LeftBytes(ws, evs, j) as real <= r && w >= 0.0
    ensures ws[j].cx.meter.totalGcBytes as real <= Limit(f, CycleBase(ws[j].cx.meter), r + w + b)
  {
    var s := SweepHasBegun(ws, evs, j);
    RunHasBase(ws, evs, j);
    if t <= s {
      PaidBeforeSweep(ws, evs, s, t, j, r, b);
      Enough(ws[j].cx.meter.totalGcBytes, CycleBase(ws[j].cx.meter), f, r + w + b);
    } else if ws[t].cx.meter.totalGcs == 0 {
      PaidWhenEmpty(ws, evs, t, j, b);
      Enough(ws[j].cx.meter.totalGcBytes, CycleBase(ws[j].cx.meter), f, r + w + b);
    } else {
      PaidInSweepContracts(ws, evs, s, t, j, f, r, w, b);
    }
  }

  // ------------------------------------------------------------------------- for ever

  /** How a program is run that calls `collect_debt` often enough. At every point no more than `b` bytes
      have been allocated since the debt was last zero, every cycle leaves at most `r` bytes, the work
      is at most `f` units per byte, and the collector sleeps for at most `w` bytes. */
  ghost predicate Steady(ws: seq<World>, evs: seq<Event>, f: real, r: real, w: real, b: real)
    requires IsRun(ws, evs)
  {
    && (forall j {:trigger PaidUp(ws, evs, j, b)} | 0 <= j < |ws| :: PaidUp(ws, evs, j, b))
    && LeavesAtMost(ws, evs, r)
    && (forall j {:trigger ws[j]} | 0 <= j < |ws| ::
          WorkAtMost(ws[j].cx.meter.pacing, f) && ws[j].cx.meter.wakeup <= w)
  }

  predicate LeavesAtMost(ws: seq<World>, evs: seq<Event>, r: real)
    requires IsRun(ws, evs)
  {
    forall j {:trigger evs[j]} | 0 <= j < |evs| && evs[j].FinishSweep? :: LeftBytes(ws, evs, j) as real <= r
  }

  lemma WasPaid(ws: seq<World>, evs: seq<Event>, j: nat, f: real, r: real, w: real, b: real) returns (t: nat)
    requires IsRun(ws, evs) && j < |ws| && Steady(ws, evs, f, r, w, b)
    ensures PaidSince(ws, evs, t, j, b) && WorkAtMost(ws[t].cx.meter.pacing, f) && ws[t].cx.meter.wakeup <= w
  {
    assert PaidUp(ws, evs, j, b);
    t :| PaidSince(ws, evs, t, j, b);
  }

  lemma StaysBelow(total: int, base: int, x: real, f: real, k: real)
    requires 0.0 <= f && base as real <= x && total as real <= Limit(f, base, k) && Fixed(f, x, k)
    ensures total as real <= x
  {
    Scale(base as real, x, f);
  }

  /** What is below `x` stays below it from one cycle to the next. */
  predicate Fixed(f: real, x: real, k: real) {
    f * x + k <= x
  }

  /** The step at the end of a cycle. */
  lemma NextBaseIsBounded(ws: seq<World>, evs: seq<Event>, j: nat, f: real, r: real, w: real, b: real, x: real)
    requires IsRun(ws, evs) && ws[0] == INITIAL && j < |evs| && evs[j].FinishSweep?
    requires 0.0 <= f < 1.0 && w >= 0.0 && Steady(ws, evs, f, r, w, b)
    requires CycleBase(ws[j].cx.meter) as real <= x && Fixed(f, x, r + w + b)
    ensures ws[j].cx.meter.totalGcBytes as real <= x
  {
    assert LeftBytes(ws, evs, j) as real <= r;
    var t := WasPaid(ws, evs, j, f, r, w, b);
    NextBaseFrom(ws, evs, t, j, f, r, w, b, x);
  }

  lemma NextBaseFrom(ws: seq<World>, evs: seq<Event>, t: nat, j: nat, f: real, r: real, w: real, b: real, x: real)
    requires IsRun(ws, evs) && ws[0] == INITIAL && j < |evs| && evs[j].FinishSweep?
    requires PaidSince(ws, evs, t, j, b)
    requires WorkAtMost(ws[t].cx.meter.pacing, f) && f < 1.0 && ws[t].cx.meter.wakeup <= w
    requires LeftBytes(ws, evs, j) as real <= r && w >= 0.0
    requires CycleBase(ws[j].cx.meter) as real <= x && Fixed(f, x, r + w + b)
    ensures ws[j].cx.meter.totalGcBytes as real <= x
  {
    CycleContracts(ws, evs, t, j, f, r, w, b);
    StaysBelow(ws[j].cx.meter.totalGcBytes, CycleBase(ws[j].cx.meter), x, f, r + w + b);
  }

  /** No cycle begins with more than `x` bytes on the heap. */
  lemma {:induction false} BaseStaysBelow(ws: seq<World>, evs: seq<Event>, i: nat,
                                          f: real, r: real, w: real, b: real, x: real)
    requires IsRun(ws, evs) && ws[0] == INITIAL && i < |ws|
    requires 0.0 <= f < 1.0 && w >= 0.0 && Steady(ws, evs, f, r, w, b)
    requires x >= 0.0 && Fixed(f, x, r + w + b)
    ensures CycleBase(ws[i].cx.meter) as real <= x
  {
    if i == 0 {
      assert CycleBase(ZERO) == 0;
    } else {
      BaseStaysBelow(ws, evs, i - 1, f, r, w, b, x);
      BaseStepBelow(ws, evs, i - 1, f, r, w, b, x);
    }
  }

  lemma BaseStepBelow(ws: seq<World>, evs: seq<Event>, i: nat, f: real, r: real, w: real, b: real, x: real)
    requires IsRun(ws, evs) && ws[0] == INITIAL && i < |evs|
    requires 0.0 <= f < 1.0 && w >= 0.0 && Steady(ws, evs, f, r, w, b)
    requires CycleBase(ws[i].cx.meter) as real <= x && Fixed(f, x, r + w + b)
    ensures CycleBase(ws[i + 1].cx.meter) as real <= x
  {
    BaseStep(ws, evs, i);
    if evs[i].FinishSweep? {
      NextBaseIsBounded(ws, evs, i, f, r, w, b, x);
    }
  }

  lemma BaseStep(ws: seq<World>, evs: seq<Event>, i: nat)
    requires IsRun(ws, evs) && ws[0] == INITIAL && i < |evs|
    ensures CycleBase(ws[i + 1].cx.meter)
         == if evs[i].FinishSweep? then ws[i].cx.meter.totalGcBytes else CycleBase(ws[i].cx.meter)
  {
    InitialOk();
    RunKeeps(ws, evs, i);
    StepKeepsBase(ws[i], evs[i]);
  }

  /** The bound on the heap at the beginning of a cycle. */
  function BaseLimit(f: real, r: real, w: real, b: real): real
    requires f < 1.0
  {
    (r + w + b) / (1.0 - f)
  }

  lemma LimitIsFixed(f: real, r: real, w: real, b: real)
    requires 0.0 <= f < 1.0 && r >= 0.0 && w >= 0.0 && b >= 0.0
    ensures BaseLimit(f, r, w, b) >= 0.0
    ensures Fixed(f, BaseLimit(f, r, w, b), r + w + b)
  {
    var k := r + w + b;
    var x := k / (1.0 - f);
    Quotient(0.0, 1.0 - f, k);
    assert x * (1.0 - f) == k;
    Distribute(x, 1.0, -f);
  }

  /** Memory does not grow without bound. However long a steady run is and however many cycles it has, at
      every point the heap is at most (X + w) / (1 - f) + b, where X is (r + w + b) / (1 - f). */
  lemma HeapStaysBounded(ws: seq<World>, evs: seq<Event>, i: nat, f: real, r: real, w: real, b: real)
    requires IsRun(ws, evs) && ws[0] == INITIAL && i < |ws|
    requires 0.0 <= f < 1.0 && r >= 0.0 && w >= 0.0 && b >= 0.0 && Steady(ws, evs, f, r, w, b)
    ensures ws[i].cx.meter.totalGcBytes as real <= (BaseLimit(f, r, w, b) + w) / (1.0 - f) + b
  {
    LimitIsFixed(f, r, w, b);
    HeapStaysBelow(ws, evs, i, f, r, w, b, BaseLimit(f, r, w, b));
  }

  lemma HeapStaysBelow(ws: seq<World>, evs: seq<Event>, i: nat, f: real, r: real, w: real, b: real, x: real)
    requires IsRun(ws, evs) && ws[0] == INITIAL && i < |ws|
    requires 0.0 <= f < 1.0 && w >= 0.0 && Steady(ws, evs, f, r, w, b)
    requires x >= 0.0 && Fixed(f, x, r + w + b)
    ensures ws[i].cx.meter.totalGcBytes as real <= (x + w) / (1.0 - f) + b
  {
    var t := WasPaid(ws, evs, i, f, r, w, b);
    BaseStaysBelow(ws, evs, t, f, r, w, b, x);
    PaidHeapBelow(ws, evs, t, i, f, w, b, x);
  }

  lemma PaidHeapBelow(ws: seq<World>, evs: seq<Event>, t: nat, i: nat, f: real, w: real, b: real, x: real)
    requires IsRun(ws, evs) && ws[0] == INITIAL && i < |ws|
    requires PaidSince(ws, evs, t, i, b) && WorkAtMost(ws[t].cx.meter.pacing, f) && f < 1.0
    requires ws[t].cx.meter.wakeup <= w && CycleBase(ws[t].cx.meter) as real <= x
    ensures ws[i].cx.meter.totalGcBytes as real <= (x + w) / (1.0 - f) + b
  {
    HeapGrows(ws, evs, t, i);
    PaidIsBounded(ws, evs, t, f);
    PaidBelow(ws[t].cx.meter, f, w, x);
  }

  lemma PaidIsBounded(ws: seq<World>, evs: seq<Event>, t: nat, f: real)
    requires IsRun(ws, evs) && ws[0] == INITIAL && t < |ws|
    requires WorkAtMost(ws[t].cx.meter.pacing, f) && f < 1.0 && AllocationDebt(ws[t].cx.meter) == 0.0
    ensures Bounded(ws[t].cx.meter, f)
  {
    RunIsCounted(ws, evs, t);
    RunHasBase(ws, evs, t);
    NoDebtBoundsHeap(ws[t].cx, GapAt(ws, evs, t), f);
  }

  lemma PaidBelow(m: Meter, f: real, w: real, x: real)
    requires f < 1.0 && Bounded(m, f) && CycleBase(m) as real <= x && m.wakeup <= w
    ensures m.totalGcBytes as real <= (x + w) / (1.0 - f)
  {
    LargerQuotient(CycleBase(m) as real + m.wakeup, x + w, 1.0 - f);
  }

  lemma LargerQuotient(x: real, y: real, d: real)
    requires x <= y && d > 0.0
    ensures x / d <= y / d
  {
    assert x / d * d == x;
    Quotient(x / d, d, y);
  }

  // ------------------------------------------------------------------- how long it sleeps

  /** A sleep after a cycle that remembers at most `r` bytes is at most `w` bytes long. */
  predicate SleepAtMost(p: Pacing, r: real, w: real) {
    p.sleepFactor >= 0.0 && r * p.sleepFactor <= w && p.minSleep as real <= w
  }

  lemma WakeupIsBounded(m: Meter, r: real, w: real)
    requires SleepAtMost(m.pacing, r, w) && m.rememberedBytes as real <= r
    ensures Wakeup(m) <= w
  {
    Scale(m.rememberedBytes as real, r, m.pacing.sleepFactor);
  }

  lemma StepWakeup(w: World, ev: Event)
    requires Allowed(w, ev) && Ready(w, ev)
    ensures After(w, ev).cx.meter.wakeup == if ev.FinishSweep? then Wakeup(w.cx.meter) else w.cx.meter.wakeup
  {
    if !ev.FinishSweep? {
      StepAllocates(w, ev);
    }
  }

  predicate RemembersAtMost(ws: seq<World>, evs: seq<Event>, r: real)
    requires |ws| == |evs| + 1
  {
    forall j {:trigger evs[j]} | 0 <= j < |evs| && evs[j].FinishSweep? :: ws[j].cx.meter.rememberedBytes as real <= r
  }

  /** The sleeps stay bounded if the pacing bounds them: the condition on sleeps in `Steady` is one on
      the pacing. */
  lemma {:induction false} SleepsStayBounded(ws: seq<World>, evs: seq<Event>, i: nat, r: real, w: real)
    requires IsRun(ws, evs) && ws[0] == INITIAL && i < |ws| && RemembersAtMost(ws, evs, r) && w >= 0.0
    requires forall j {:trigger evs[j]} | 0 <= j < |evs| && evs[j].FinishSweep? ::
               SleepAtMost(ws[j].cx.meter.pacing, r, w)
    ensures ws[i].cx.meter.wakeup <= w
  {
    if i == 0 {
    } else {
      SleepsStayBounded(ws, evs, i - 1, r, w);
      StepWakeup(ws[i - 1], evs[i - 1]);
      if evs[i - 1].FinishSweep? {
        assert SleepAtMost(ws[i - 1].cx.meter.pacing, r, w);
        WakeupIsBounded(ws[i - 1].cx.meter, r, w);
      }
    }
  }

  // ------------------------------------------------------------------------ corollaries

  /** With the default pacing the heap is at most (H + W) / 0.45 after every `collect_debt` that
      returns. */
  lemma DefaultPacingBoundsHeap(ws: seq<World>, evs: seq<Event>, i: nat, us: seq<Conduct>)
    requires IsRun(ws, evs) && ws[0] == INITIAL && i < |ws|
    ensures CtxOk(ws[i].cx, ws[i].root)
    ensures var e := DoCollection(ws[i].cx, ws[i].root, PayDebt, Full, us);
            e.Returned? && e.cx.meter.pacing == DEFAULT ==> Bounded(e.cx.meter, 0.55)
  {
    DefaultWork();
    CollectDebtBoundsHeap(ws, evs, i, us, 0.55);
  }

  /** No barrier is called in a collection. */
  lemma CollectionFiresNothing(w: World, ev: Event)
    requires InCollection(ev)
    ensures !Untracing.LeafFires(w, ev)
  {
  }

  lemma StillNothingFires(ws: seq<World>, evs: seq<Event>, vs: seq<World>, gs: seq<Event>, k: nat)
    requires |ws| == |evs| + 1 && |vs| == |gs| + 1 && ws <= vs && evs <= gs && k < |gs|
    requires k < |evs| ==> !Untracing.LeafFires(ws[k], evs[k])
    requires OnlyCollects(gs[|evs|..])
    ensures !Untracing.LeafFires(vs[k], gs[k])
  {
    if k < |evs| {
      assert vs[k] == ws[k] && gs[k] == evs[k];
    } else {
      assert gs[k] == gs[|evs|..][k - |evs|];
      CollectionFiresNothing(vs[k], gs[k]);
    }
  }

  /** The bound on the heap and unsigned counters. If no backward barrier has fired on a parent that needs
      no tracing, then the traced counters are natural at every point of the run and of the call, so that
      the bound holds of unsigned counters, too. */
  lemma UnsignedBoundsHeap(ws: seq<World>, evs: seq<Event>, us: seq<Conduct>, f: real)
      returns (vs: seq<World>, gs: seq<Event>)
    requires IsRun(ws, evs) && ws[0] == INITIAL && Quiet(ws[|evs|]) && f < 1.0
    requires forall k {:trigger evs[k]} | 0 <= k < |evs| :: !Untracing.LeafFires(ws[k], evs[k])
    ensures CtxOk(ws[|evs|].cx, ws[|evs|].root)
    ensures IsRun(vs, gs) && ws <= vs && evs <= gs && OnlyCollects(gs[|evs|..])
    ensures forall k {:trigger vs[k]} | 0 <= k < |vs| :: Untracing.Natural(vs[k].cx.meter)
    ensures var e := DoCollection(ws[|evs|].cx, ws[|evs|].root, PayDebt, Full, us);
            vs[|gs|].cx == e.cx && (e.Returned? && WorkAtMost(e.cx.meter.pacing, f) ==> Bounded(e.cx.meter, f))
  {
    vs, gs := CollectionExtendsRun(ws, evs, PayDebt, Full, us);
    CollectDebtBoundsHeap(ws, evs, |evs|, us, f);
    forall k | 0 <= k < |gs|
      ensures !Untracing.LeafFires(vs[k], gs[k])
    {
      StillNothingFires(ws, evs, vs, gs, k);
    }
    forall k | 0 <= k < |vs|
      ensures Untracing.Natural(vs[k].cx.meter)
    {
      Untracing.TracedStaysNatural(vs, gs, k);
    }
  }
}
