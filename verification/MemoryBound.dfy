/** The collector outruns allocation: once the debt is paid, the heap is bounded by what it was when
    the cycle began and by the length of the sleep. */
module MemoryBound {
  import opened Types
  import opened Metering
  import opened Collector
  import opened Invariant
  import opened Gauges
  import opened Runs
  import opened Safety
  import opened Collection
  import opened Accounts
  import opened Transparency

  /** Every path that a box can take through a cycle does at most `f` units of work per byte. */
  predicate WorkAtMost(p: Pacing, f: real) {
    && p.markFactor >= 0.0 && p.traceFactor >= 0.0 && p.keepFactor >= 0.0
    && p.dropFactor >= 0.0 && p.freeFactor >= 0.0
    && p.markFactor + p.traceFactor + p.keepFactor <= f
    && p.markFactor + p.dropFactor + p.keepFactor <= f
    && p.dropFactor + p.freeFactor <= f
  }

  /** `f` units of work for each of `bytes` bytes, and `k` more. */
  function Limit(f: real, bytes: int, k: real): real {
    f * bytes as real + k
  }

  /** The default tuning does at most 0.55 units of work per byte. */
  lemma DefaultWork()
    ensures WorkAtMost(DEFAULT, 0.55)
  {
  }

  lemma Scale(a: real, b: real, x: real)
    requires a <= b && x >= 0.0
    ensures a * x <= b * x
    ensures x * a <= x * b
  {
  }

  /** Work during marking: each box has been marked and traced at most once. */
  lemma MarkWork(p: Pacing, f: real, marked: real, traced: real, total: real)
    requires WorkAtMost(p, f) && 0.0 <= marked <= total && traced <= total
    ensures marked * p.markFactor + traced * p.traceFactor <= f * total
  {
    Scale(marked, total, p.markFactor);
    Scale(traced, total, p.traceFactor);
    Scale(p.markFactor + p.traceFactor, f, total);
    Distribute(total, p.markFactor, p.traceFactor);
    Add(marked * p.markFactor, total * p.markFactor, traced * p.traceFactor, total * p.traceFactor, f * total);
  }

  lemma Add(a: real, b: real, c: real, d: real, sum: real)
    requires a <= b && c <= d && b + d <= sum
    ensures a + c <= sum
  {
  }

  lemma Distribute(x: real, a: real, b: real)
    ensures (a + b) * x == x * a + x * b == x * (a + b)
  {
  }

  lemma Split(a: real, b: real, x: real)
    ensures (a + b) * x == a * x + b * x
  {
  }

  lemma ThreeFactors(x: real, a: real, b: real, c: real, f: real)
    requires x >= 0.0 && a + b + c <= f
    ensures x * a + x * b + x * c <= f * x
  {
    Scale(a + b + c, f, x);
    Split(a + b, c, x);
    Split(a, b, x);
  }

  /** Work on the boxes that the sweep is done with. Of the `kept` bytes, `black` have been traced and
      `weak` have only been marked and then dropped, and `freed` bytes have been freed. */
  lemma SweptWork(p: Pacing, f: real, kept: real, black: real, weak: real, freed: real)
    requires WorkAtMost(p, f) && black >= 0.0 && weak >= 0.0 && freed >= 0.0 && kept == black + weak
    ensures kept * p.markFactor + black * p.traceFactor + kept * p.keepFactor
            + (freed + weak) * p.dropFactor + freed * p.freeFactor
            <= f * (kept + freed)
  {
    ThreeFactors(black, p.markFactor, p.traceFactor, p.keepFactor, f);
    ThreeFactors(weak, p.markFactor, p.dropFactor, p.keepFactor, f);
    ThreeFactors(freed, p.dropFactor, p.freeFactor, 0.0, f);
    Split(black, weak, p.markFactor);
    Split(black, weak, p.keepFactor);
    Split(freed, weak, p.dropFactor);
    Distribute(f, kept, freed);
    Distribute(f, black, weak);
  }

  /** Tracing of boxes that the sweep is done with, and of those still ahead. */
  lemma TraceWork(x: real, traced: real, black: real, blackAhead: real)
    requires x >= 0.0 && traced <= black + blackAhead
    ensures traced * x <= black * x + blackAhead * x
  {
    Scale(traced, black + blackAhead, x);
    Split(black, blackAhead, x);
  }

  /** Work during a sweep, in which `kept` bytes have been kept, `freed` bytes have been freed, and
      `ahead` marked bytes are still to be swept. */
  lemma SplitSweepWork(p: Pacing, f: real, kept: real, black: real, weak: real, ahead: real, blackAhead: real,
                       traced: real, dropped: real, freed: real)
    requires WorkAtMost(p, f)
    requires black >= 0.0 && weak >= 0.0 && freed >= 0.0 && kept == black + weak && 0.0 <= blackAhead <= ahead
    requires traced <= black + blackAhead && dropped <= freed + weak
    ensures kept * p.markFactor + ahead * p.markFactor + traced * p.traceFactor + kept * p.keepFactor
            + dropped * p.dropFactor + freed * p.freeFactor
            <= f * (kept + freed) + f * ahead
  {
    SweptWork(p, f, kept, black, weak, freed);
    MarkWork(p, f, ahead, blackAhead, ahead);
    TraceWork(p.traceFactor, traced, black, blackAhead);
    Scale(dropped, freed + weak, p.dropFactor);
  }

  /** The bytes that have been kept split into those that were traced and those that were only
      dropped. */
  lemma SweepWork(p: Pacing, f: real, remembered: real, ahead: real, blackAhead: real, traced: real,
                  dropped: real, freed: real)
    requires WorkAtMost(p, f)
    requires remembered >= 0.0 && freed >= 0.0 && 0.0 <= blackAhead <= ahead
    requires traced <= remembered + blackAhead
    requires dropped <= freed + remembered
    requires dropped + traced <= freed + remembered + blackAhead
    ensures (remembered + ahead) * p.markFactor + traced * p.traceFactor + remembered * p.keepFactor
            + dropped * p.dropFactor + freed * p.freeFactor
            <= f * (remembered + freed + ahead)
  {
    var weak := if dropped <= freed then 0.0 else dropped - freed;
    SplitSweepWork(p, f, remembered, remembered - weak, weak, ahead, blackAhead, traced, dropped, freed);
    Split(remembered, ahead, p.markFactor);
    Distribute(f, remembered + freed, ahead);
  }

  lemma {:induction false} ReadingsAreOrdered(heap: map<Ref, Box>, xs: seq<Ref>)
    ensures Weigh(BlackBytes, heap, xs) <= Weigh(MarkedBytes, heap, xs) <= Weigh(Bytes, heap, xs)
  {
    if xs == [] {
    } else {
      ReadingsAreOrdered(heap, xs[1..]);
    }
  }

  lemma CreditsInMark(m: Meter, f: real)
    requires WorkAtMost(m.pacing, f)
    requires m.markedBytes <= m.totalGcBytes && m.tracedBytes <= m.totalGcBytes
    requires m.rememberedBytes == m.droppedBytes == m.freedBytes == 0
    ensures Credits(m) <= Limit(f, m.totalGcBytes + m.freedBytes, 0.0)
  {
    MarkWork(m.pacing, f, m.markedBytes as real, m.tracedBytes as real, m.totalGcBytes as real);
  }

  /** In a sweep that has kept `kept` bytes and has `all` bytes to account for. */
  lemma CreditsInSweep(m: Meter, f: real, kept: nat, ahead: nat, blackAhead: nat, all: int)
    requires WorkAtMost(m.pacing, f) && blackAhead <= ahead && m.rememberedBytes <= kept
    requires m.markedBytes == kept + ahead
    requires m.tracedBytes <= kept + blackAhead
    requires m.droppedBytes <= m.freedBytes + kept
    requires m.droppedBytes + m.tracedBytes <= m.freedBytes + kept + blackAhead
    requires kept + m.freedBytes + ahead <= all
    ensures Credits(m) <= Limit(f, all, 0.0)
  {
    RememberingIsWork(m, kept);
    CreditsIfRemembered(m.(rememberedBytes := kept), f, ahead, blackAhead, all);
  }

  lemma RememberingIsWork(m: Meter, kept: nat)
    requires m.pacing.keepFactor >= 0.0 && m.rememberedBytes <= kept
    ensures Credits(m) <= Credits(m.(rememberedBytes := kept))
  {
    Scale(m.rememberedBytes as real, kept as real, m.pacing.keepFactor);
  }

  lemma CreditsIfRemembered(m: Meter, f: real, ahead: nat, blackAhead: nat, all: int)
    requires WorkAtMost(m.pacing, f) && blackAhead <= ahead
    requires m.markedBytes == m.rememberedBytes + ahead
    requires m.tracedBytes <= m.rememberedBytes + blackAhead
    requires m.droppedBytes <= m.freedBytes + m.rememberedBytes
    requires m.droppedBytes + m.tracedBytes <= m.freedBytes + m.rememberedBytes + blackAhead
    requires m.rememberedBytes + m.freedBytes + ahead <= all
    ensures Credits(m) <= Limit(f, all, 0.0)
  {
    SweepWork(m.pacing, f, m.rememberedBytes as real, ahead as real, blackAhead as real,
              m.tracedBytes as real, m.droppedBytes as real, m.freedBytes as real);
    Scale((m.rememberedBytes + m.freedBytes + ahead) as real, all as real, f);
  }

  lemma CountsInMark(m: Meter, f: real, heap: map<Ref, Box>, xs: seq<Ref>)
    requires WorkAtMost(m.pacing, f) && MarkCounts(m, heap, xs) && m.totalGcBytes >= Weigh(Bytes, heap, xs)
    ensures Credits(m) <= Limit(f, m.totalGcBytes + m.freedBytes, 0.0)
  {
    ReadingsAreOrdered(heap, xs);
    CreditsInMark(m, f);
  }

  lemma CountsInSweep(c: Ctx, gap: Gap, f: real)
    requires WorkAtMost(c.meter.pacing, f) && c.phase == Sweep && Counted(c, gap)
    ensures Credits(c.meter) <= Limit(f, c.meter.totalGcBytes + c.meter.freedBytes, 0.0)
  {
    ReadingsAreOrdered(c.heap, c.back);
    WeighConcat(Bytes, c.heap, c.front, c.back);
    CreditsInSweep(c.meter, f, KeptBytes(c.meter, gap), Weigh(MarkedBytes, c.heap, c.back),
                   Weigh(BlackBytes, c.heap, c.back), c.meter.totalGcBytes + c.meter.freedBytes);
  }

  lemma CountsAsleep(m: Meter, f: real)
    requires WorkAtMost(m.pacing, f) && SleepCounts(m) && m.totalGcBytes >= 0
    ensures Credits(m) <= Limit(f, m.totalGcBytes + m.freedBytes, 0.0)
  {
    CreditsInMark(m, f);
  }

  /** All the work of a cycle so far is at most `f` per byte that has been on the heap in it. */
  lemma CreditsAreBounded(c: Ctx, gap: Gap, f: real)
    requires c.phase != Drop && Counted(c, gap) && WorkAtMost(c.meter.pacing, f)
    ensures Credits(c.meter) <= Limit(f, c.meter.totalGcBytes + c.meter.freedBytes, 0.0)
  {
    if c.phase == Sleep {
      CountsAsleep(c.meter, f);
    } else if c.phase == Mark {
      CountsInMark(c.meter, f, c.heap, c.List());
    } else {
      CountsInSweep(c, gap, f);
    }
  }

  /** There is no debt if there is nothing to pay, or if it has been worked off. */
  lemma PaidByWork(m: Meter)
    requires m.totalGcs != 0 && AllocationDebt(m) == 0.0
    ensures Debits(m) <= 0.0 || Debits(m) <= Credits(m)
  {
  }

  lemma PaidMeterIsBounded(m: Meter, f: real)
    requires 0.0 <= f < 1.0 && m.totalGcs != 0 && m.totalGcBytes >= 0 && m.artificialDebt >= 0.0
    requires Credits(m) <= Limit(f, m.totalGcBytes + m.freedBytes, 0.0)
    requires AllocationDebt(m) == 0.0
    ensures (m.totalGcBytes + m.freedBytes) as real <= (CycleBase(m) as real + m.wakeup) / (1.0 - f)
  {
    PaidByWork(m);
    DebitsAreBounded((m.totalGcBytes + m.freedBytes) as real, Debits(m), Credits(m), f,
                     CycleBase(m) as real + m.wakeup);
  }

  lemma DebitsAreBounded(all: real, debits: real, credits: real, f: real, free: real)
    requires 0.0 <= f < 1.0 && all >= 0.0
    requires debits <= 0.0 || debits <= credits
    requires credits <= f * all && all - free <= debits
    ensures all <= free / (1.0 - f)
  {
    Scale(0.0, f, all);
    Distribute(all, 1.0, -f);
    Quotient(all, 1.0 - f, free);
  }

  lemma Quotient(x: real, d: real, y: real)
    requires d > 0.0 && x * d <= y
    ensures x <= y / d
  {
    NonNegative(y / d - x, d);
  }

  lemma NonNegative(x: real, d: real)
    requires d > 0.0 && x * d >= 0.0
    ensures x >= 0.0
  {
  }

  /** No more than (H + W) / (1 - f) bytes are on the heap, and unless it is empty no more have been on
      it since the cycle began: H is the size of the heap at that time, and W how much may be allocated
      before the collector wakes. */
  predicate Bounded(m: Meter, f: real)
    requires f < 1.0
  {
    var bound := (CycleBase(m) as real + m.wakeup) / (1.0 - f);
    m.totalGcBytes as real <= bound && (m.totalGcs != 0 ==> (m.totalGcBytes + m.freedBytes) as real <= bound)
  }

  /** With no debt outstanding, the heap is bounded. */
  lemma NoDebtBoundsHeap(c: Ctx, gap: Gap, f: real)
    requires c.phase != Drop && Counted(c, gap) && WorkAtMost(c.meter.pacing, f) && f < 1.0
    requires AllocationDebt(c.meter) == 0.0
    requires CycleBase(c.meter) >= 0
    ensures Bounded(c.meter, f)
  {
    if c.meter.totalGcs == 0 {
      EmptyHeapHasNoBytes(c, gap);
      Quotient(0.0, 1.0 - f, CycleBase(c.meter) as real + c.meter.wakeup);
    } else {
      PaidHeapIsBounded(c, gap, f);
    }
  }

  lemma PaidHeapIsBounded(c: Ctx, gap: Gap, f: real)
    requires c.phase != Drop && Counted(c, gap) && WorkAtMost(c.meter.pacing, f) && f < 1.0
    requires AllocationDebt(c.meter) == 0.0 && c.meter.totalGcs != 0
    ensures Bounded(c.meter, f)
  {
    CreditsAreBounded(c, gap, f);
    PaidMeterIsBounded(c.meter, f);
  }

  lemma EmptyHeapHasNoBytes(c: Ctx, gap: Gap)
    requires Totals(c, gap) && c.meter.totalGcs == 0
    ensures c.meter.totalGcBytes == 0
  {
    if c.List() != [] {
      WeighBoxesOrNothing(c.heap, c.List());
    }
  }

  lemma {:induction false} WeighBoxesOrNothing(heap: map<Ref, Box>, xs: seq<Ref>)
    requires Weigh(Boxes, heap, xs) == 0
    ensures Weigh(Bytes, heap, xs) == 0
  {
    if xs == [] {
    } else {
      WeighBoxesOrNothing(heap, xs[1..]);
    }
  }

  // ---------------------------------------------------------------- over a run

  /** H stays what it was through a whole cycle, and is read anew when the cycle ends. */
  lemma StepKeepsBase(w: World, ev: Event)
    requires WorldOk(w) && Allowed(w, ev) && Ready(w, ev)
    ensures CycleBase(After(w, ev).cx.meter)
         == if ev.FinishSweep? then w.cx.meter.totalGcBytes else CycleBase(w.cx.meter)
  {
    match ev {
      case CallBarrier(b) => BarrierKeepsBase(w.cx, b);
      case MarkStep(outcome) => MarkOneKeepsBase(w.cx, w.root, outcome);
      case SweepStep(panics) => SweepOneKeepsBase(w.cx, panics);
      case _ =>
    }
  }

  lemma {:induction false} TraceEdgesKeepBase(c: Ctx, edges: seq<Edge>)
    requires Present(c, edges)
    ensures CycleBase(TraceEdges(c, edges).meter) == CycleBase(c.meter)
    ensures TraceEdges(c, edges).meter.pacing == c.meter.pacing
  {
    if edges == [] {
    } else {
      TraceEdgesKeepBase(c, edges[..|edges| - 1]);
    }
  }

  lemma BarrierKeepsBase(c: Ctx, b: Barrier)
    requires BarrierReady(c, b)
    ensures CycleBase(RunBarrier(c, b).meter) == CycleBase(c.meter)
  {
  }

  lemma SweepOneKeepsBase(c: Ctx, panics: bool)
    requires SweepReady(c)
    ensures CycleBase(SweepOne(c, panics).meter) == CycleBase(c.meter)
  {
  }

  lemma MarkOneKeepsBase(c: Ctx, root: seq<Edge>, outcome: Outcome)
    requires !MarkDone(c) && MarkReady(c, root)
    ensures CycleBase(MarkOne(c, root, outcome).meter) == CycleBase(c.meter)
    ensures MarkOne(c, root, outcome).meter.pacing == c.meter.pacing
  {
    match NextGray(c) {
      case Some(r) => TraceEdgesKeepBase(StartTrace(c), Reported(c.heap[r].edges, outcome));
      case None => TraceEdgesKeepBase(c, Reported(root, outcome));
    }
  }

  lemma StepHasBase(w: World, ev: Event)
    requires WorldOk(w) && Allowed(w, ev) && Ready(w, ev)
    requires w.cx.meter.totalGcBytes >= 0 && CycleBase(w.cx.meter) >= 0
    ensures CycleBase(After(w, ev).cx.meter) >= 0
  {
    StepKeepsBase(w, ev);
  }

  lemma {:induction false} BaseFrom(ws: seq<World>, evs: seq<Event>, gap: Gap, i: nat)
    requires IsRun(ws, evs) && WorldOk(ws[0]) && Counted(ws[0].cx, gap) && i < |ws|
    requires CycleBase(ws[0].cx.meter) >= 0
    ensures CycleBase(ws[i].cx.meter) >= 0
  {
    if i == 0 {
    } else {
      BaseFrom(ws, evs, gap, i - 1);
      RunKeeps(ws, evs, i - 1);
      HeapHasSize(ws, evs, gap, i - 1);
      StepHasBase(ws[i - 1], evs[i - 1]);
    }
  }

  lemma HeapHasSize(ws: seq<World>, evs: seq<Event>, gap: Gap, i: nat)
    requires IsRun(ws, evs) && WorldOk(ws[0]) && Counted(ws[0].cx, gap) && i < |ws|
    ensures ws[i].cx.meter.totalGcBytes >= 0
  {
    RunCountsFrom(ws, evs, gap, i);
  }

  /** H is a size. */
  lemma RunHasBase(ws: seq<World>, evs: seq<Event>, i: nat)
    requires IsRun(ws, evs) && ws[0] == INITIAL && i < |ws|
    ensures CycleBase(ws[i].cx.meter) >= 0
  {
    InitialCounts(ws[0]);
    InitialBase(ws[0]);
    CleanRunHasBase(ws, evs, i);
  }

  lemma InitialBase(w: World)
    requires w == INITIAL
    ensures CycleBase(w.cx.meter) == 0
  {
  }

  lemma CleanRunHasBase(ws: seq<World>, evs: seq<Event>, i: nat)
    requires IsRun(ws, evs) && WorldOk(ws[0]) && Counted(ws[0].cx, NO_GAP) && i < |ws|
    requires CycleBase(ws[0].cx.meter) >= 0
    ensures CycleBase(ws[i].cx.meter) >= 0
  {
    BaseFrom(ws, evs, NO_GAP, i);
  }

  /** A call of `collect_debt` that returns leaves no debt and a bounded heap. */
  lemma CollectDebtIsBounded(c: Ctx, root: seq<Edge>, gap: Gap, us: seq<Conduct>, f: real)
    requires CtxOk(c, root) && Counted(c, gap) && CycleBase(c.meter) >= 0 && f < 1.0
    ensures var e := DoCollection(c, root, PayDebt, Full, us);
            e.Returned? && WorkAtMost(e.cx.meter.pacing, f) ==>
              AllocationDebt(e.cx.meter) == 0.0 && Bounded(e.cx.meter, f)
  {
    var e := DoCollection(c, root, PayDebt, Full, us);
    CollectDebtPaysAll(c, root, us);
    var after := CallCounts(c, root, gap, us);
    if e.Returned? && WorkAtMost(e.cx.meter.pacing, f) {
      NoDebtBoundsHeap(e.cx, after, f);
    }
  }

  /** However a call ends, the counters miss no more than a gap. */
  lemma CallCounts(c: Ctx, root: seq<Edge>, gap: Gap, us: seq<Conduct>) returns (after: Gap)
    requires CtxOk(c, root) && Counted(c, gap) && CycleBase(c.meter) >= 0
    ensures var e := DoCollection(c, root, PayDebt, Full, us); Counted(e.cx, after) && CycleBase(e.cx.meter) >= 0
  {
    BareOk(c, root);
    var ws, evs := CollectionIsRun(c, root, PayDebt, Full, us);
    RunCountsFrom(ws, evs, gap, |evs|);
    BaseFrom(ws, evs, gap, |evs|);
    after := GapFrom(ws, evs, gap, |evs|);
  }

  /** After every `collect_debt` that returns, from every state that a run can reach, the heap is at most
      (H + W) / (1 - f), whatever the program's code does during the call and whatever has panicked
      before. f is a bound on the work for the pacing at its end. */
  lemma CollectDebtBoundsHeap(ws: seq<World>, evs: seq<Event>, i: nat, us: seq<Conduct>, f: real)
    requires IsRun(ws, evs) && ws[0] == INITIAL && i < |ws| && f < 1.0
    ensures CtxOk(ws[i].cx, ws[i].root)
    ensures var e := DoCollection(ws[i].cx, ws[i].root, PayDebt, Full, us);
            e.Returned? && WorkAtMost(e.cx.meter.pacing, f) ==>
              AllocationDebt(e.cx.meter) == 0.0 && Bounded(e.cx.meter, f)
  {
    RunIsCounted(ws, evs, i);
    RunHasBase(ws, evs, i);
    CollectDebtIsBounded(ws[i].cx, ws[i].root, GapAt(ws, evs, i), us, f);
  }

  // -------------------------------------------------------------------- pacing that is left alone

  /** The program does not change the pacing while the collector calls it. */
  predicate LeavesPacing(us: seq<Conduct>) {
    forall k, t | 0 <= k < |us| && t in us[k].reports :: !t.SetPacing?
  }

  lemma SweepOneKeepsPacing(c: Ctx, panics: bool)
    requires SweepReady(c)
    ensures SweepOne(c, panics).meter.pacing == c.meter.pacing
  {
  }

  lemma ProceedKeepsPacing(c: Ctx, root: seq<Edge>, stop: Stop, slept: bool, outcome: Outcome)
    requires CtxOk(c, root)
    ensures Proceed(c, root, stop, slept, outcome).cx.meter.pacing == c.meter.pacing
  {
    NeverStuck(c, root);
    if c.phase == Mark && !MarkDone(c) {
      MarkOneKeepsBase(c, root, outcome);
    } else if c.phase == Sweep && c.back != [] {
      SweepOneKeepsPacing(c, DropPanics(c, outcome));
    }
  }

  lemma TickKeepsPacing(c: Ctx, root: seq<Edge>, stop: Stop, slept: bool, u: Conduct)
    requires CtxOk(c, root) && forall t | t in u.reports :: !t.SetPacing?
    ensures Tick(c, root, stop, slept, u).cx.meter.pacing == c.meter.pacing
  {
    ProceedKeepsPacing(c, root, stop, slept, u.outcome);
    var d := Proceed(c, root, stop, slept, u.outcome).cx;
    TuneAllKeeps(d.meter, ReportsIn(c, u));
    VacateAllLoses(Tuned(d, ReportsIn(c, u)), DropsIn(c, u));
  }

  /** The pacing at the end of a call is that at its beginning, unless the program changes it. */
  lemma {:induction false} LoopKeepsPacing(c: Ctx, root: seq<Edge>, runUntil: RunUntil, stop: Stop, slept: bool,
                                           us: seq<Conduct>)
    requires CtxOk(c, root) && LeavesPacing(us)
    ensures Loop(c, root, runUntil, stop, slept, us).cx.meter.pacing == c.meter.pacing
    decreases !slept, PhasesLeft(c, slept), WorkLeft(c)
  {
    var t := Tick(c, root, stop, slept, Now(us));
    LoopTurn(c, root, runUntil, stop, slept, us);
    TickKeepsPacing(c, root, stop, slept, Now(us));
    if t.Stay? && !Paid(runUntil, t.cx) {
      LoopKeepsPacing(t.cx, root, runUntil, stop, t.slept, Later(us));
    }
  }

  // ------------------------------------------------------------------- the end of the cycle

  function AllocatedBytes(evs: seq<Event>, i: nat, j: nat): nat
    requires i <= j <= |evs|
  {
    if i == j then 0
    else AllocatedBytes(evs, i, j - 1) + if evs[j - 1].Alloc? then evs[j - 1].size else 0
  }

  predicate SameCycle(evs: seq<Event>, i: nat, j: nat)
    requires j <= |evs|
  {
    forall k {:trigger evs[k]} | i <= k < j :: !evs[k].FinishSweep?
  }

  lemma {:induction false} TraceEdgesAllocate(c: Ctx, edges: seq<Edge>)
    requires Present(c, edges)
    ensures NothingAllocated(c.meter, TraceEdges(c, edges).meter)
  {
    if edges == [] {
    } else {
      TraceEdgesAllocate(c, edges[..|edges| - 1]);
    }
  }

  /** Within a cycle only allocation moves the counter of allocated bytes. */
  lemma StepAllocates(w: World, ev: Event)
    requires Allowed(w, ev) && Ready(w, ev) && !ev.FinishSweep?
    ensures var m := After(w, ev).cx.meter;
            && m.allocatedBytes == w.cx.meter.allocatedBytes + (if ev.Alloc? then ev.size else 0)
            && m.wakeup == w.cx.meter.wakeup
  {
    match ev {
      case MarkStep(outcome) => MarkOneAllocates(w.cx, w.root, outcome);
      case SweepStep(panics) => SweepOneAllocates(w.cx, panics);
      case CallBarrier(b) => BarrierAllocates(w.cx, b);
      case _ =>
    }
  }

  predicate NothingAllocated(m: Meter, n: Meter) {
    n.allocatedBytes == m.allocatedBytes && n.wakeup == m.wakeup
  }

  lemma MarkOneAllocates(c: Ctx, root: seq<Edge>, outcome: Outcome)
    requires !MarkDone(c) && MarkReady(c, root)
    ensures NothingAllocated(c.meter, MarkOne(c, root, outcome).meter)
  {
    match NextGray(c) {
      case Some(r) => TraceEdgesAllocate(StartTrace(c), Reported(c.heap[r].edges, outcome));
      case None => TraceEdgesAllocate(c, Reported(root, outcome));
    }
  }

  lemma SweepOneAllocates(c: Ctx, panics: bool)
    requires SweepReady(c)
    ensures NothingAllocated(c.meter, SweepOne(c, panics).meter)
  {
  }

  lemma BarrierAllocates(c: Ctx, b: Barrier)
    requires BarrierReady(c, b)
    ensures NothingAllocated(c.meter, RunBarrier(c, b).meter)
  {
  }

  lemma {:induction false} CycleAllocates(ws: seq<World>, evs: seq<Event>, i: nat, j: nat)
    requires IsRun(ws, evs) && ws[0] == INITIAL && i <= j < |ws| && SameCycle(evs, i, j)
    ensures var m := ws[j].cx.meter;
            && m.allocatedBytes == ws[i].cx.meter.allocatedBytes + AllocatedBytes(evs, i, j)
            && m.wakeup == ws[i].cx.meter.wakeup
            && CycleBase(m) == CycleBase(ws[i].cx.meter)
  {
    if i == j {
    } else {
      CycleAllocates(ws, evs, i, j - 1);
      InitialOk();
      RunKeeps(ws, evs, j - 1);
      StepAllocates(ws[j - 1], evs[j - 1]);
      StepKeepsBase(ws[j - 1], evs[j - 1]);
    }
  }

  lemma {:induction false} LongerRunAllocates(evs: seq<Event>, gs: seq<Event>, i: nat, j: nat)
    requires evs <= gs && i <= |evs| <= j <= |gs|
    ensures AllocatedBytes(evs, i, |evs|) <= AllocatedBytes(gs, i, j)
  {
    if j == |evs| {
      assert gs[..j] == evs;
      SameEventsAllocate(evs, gs, i, j);
    } else {
      LongerRunAllocates(evs, gs, i, j - 1);
    }
  }

  lemma {:induction false} SameEventsAllocate(evs: seq<Event>, gs: seq<Event>, i: nat, j: nat)
    requires evs <= gs && i <= j <= |evs|
    ensures AllocatedBytes(evs, i, j) == AllocatedBytes(gs, i, j)
  {
    if i == j {
    } else {
      SameEventsAllocate(evs, gs, i, j - 1);
    }
  }

  lemma Product(x: real, d: real, y: real)
    requires d > 0.0 && x <= y / d
    ensures x * d <= y
  {
    Scale(x, y / d, d);
  }

  /** (W + f H) / (1 - f): how much can be allocated before the collector has finished a cycle that it
      has begun with H bytes on the heap. */
  function CycleLimit(wakeup: real, base: int, f: real): real
    requires f < 1.0
  {
    (wakeup + f * base as real) / (1.0 - f)
  }

  /** If no more than (H + W) / (1 - f) bytes have been on the heap, no more than (W + f H) / (1 - f)
      have been allocated. */
  lemma AllocatedIsBounded(m: Meter, f: real)
    requires 0.0 <= f < 1.0 && m.totalGcs != 0 && Bounded(m, f)
    ensures m.allocatedBytes as real <= CycleLimit(m.wakeup, CycleBase(m), f)
  {
    var h, a, w := CycleBase(m) as real, m.allocatedBytes as real, m.wakeup;
    assert (m.totalGcBytes + m.freedBytes) as real == h + a;
    Product(h + a, 1.0 - f, h + w);
    assert a * (1.0 - f) <= w + f * h;
    Quotient(a, 1.0 - f, w + f * h);
  }

  lemma CycleIsBounded(m: Meter, n: Meter, bytes: nat, f: real)
    requires 0.0 <= f < 1.0 && n.totalGcs != 0 && Bounded(n, f)
    requires n.wakeup == m.wakeup && CycleBase(n) == CycleBase(m) && bytes <= n.allocatedBytes
    ensures bytes as real <= CycleLimit(m.wakeup, CycleBase(m), f)
  {
    AllocatedIsBounded(n, f);
  }

  /** Within a cycle that has not ended, no more than the limit has been allocated. */
  lemma UnfinishedIsBounded(ws: seq<World>, evs: seq<Event>, i: nat, j: nat, f: real)
    requires IsRun(ws, evs) && ws[0] == INITIAL && i <= j < |ws| && SameCycle(evs, i, j)
    requires 0.0 <= f < 1.0 && ws[j].cx.meter.totalGcs != 0 && Bounded(ws[j].cx.meter, f)
    ensures AllocatedBytes(evs, i, j) as real <= CycleLimit(ws[i].cx.meter.wakeup, CycleBase(ws[i].cx.meter), f)
  {
    CycleAllocates(ws, evs, i, j);
    CycleIsBounded(ws[i].cx.meter, ws[j].cx.meter, AllocatedBytes(evs, i, j), f);
  }

  /** The collector outruns the mutator: once more than (W + f H) / (1 - f) bytes have been allocated
      in a cycle, the next `collect_debt` that returns finishes the cycle, or there is nothing left on the
      heap. Whatever run the call is taken to be, the end of the cycle is in it. */
  lemma AllocatingEndsTheCycle(ws: seq<World>, evs: seq<Event>, i: nat, us: seq<Conduct>, f: real)
    requires IsRun(ws, evs) && ws[0] == INITIAL && i <= |evs| && SameCycle(evs, i, |evs|)
    requires 0.0 <= f < 1.0
    requires AllocatedBytes(evs, i, |evs|) as real > CycleLimit(ws[i].cx.meter.wakeup, CycleBase(ws[i].cx.meter), f)
    ensures CtxOk(ws[|evs|].cx, ws[|evs|].root)
    ensures var e := DoCollection(ws[|evs|].cx, ws[|evs|].root, PayDebt, Full, us);
            e.Returned? && WorkAtMost(e.cx.meter.pacing, f) && e.cx.meter.totalGcs != 0 ==>
              forall vs: seq<World>, gs: seq<Event> | IsRun(vs, gs) && ws <= vs && evs <= gs && vs[|gs|].cx == e.cx ::
                !SameCycle(gs, |evs|, |gs|)
  {
    CollectDebtBoundsHeap(ws, evs, |evs|, us, f);
    var e := DoCollection(ws[|evs|].cx, ws[|evs|].root, PayDebt, Full, us);
    if e.Returned? && WorkAtMost(e.cx.meter.pacing, f) && e.cx.meter.totalGcs != 0 {
      forall vs: seq<World>, gs: seq<Event> | IsRun(vs, gs) && ws <= vs && evs <= gs && vs[|gs|].cx == e.cx
        ensures !SameCycle(gs, |evs|, |gs|)
      {
        ExtensionEndsTheCycle(ws, evs, vs, gs, i, f);
      }
    }
  }

  lemma ExtensionEndsTheCycle(ws: seq<World>, evs: seq<Event>, vs: seq<World>, gs: seq<Event>, i: nat, f: real)
    requires IsRun(ws, evs) && ws[0] == INITIAL && i <= |evs| && SameCycle(evs, i, |evs|) && 0.0 <= f < 1.0
    requires IsRun(vs, gs) && ws <= vs && evs <= gs
    requires vs[|gs|].cx.meter.totalGcs != 0 && Bounded(vs[|gs|].cx.meter, f)
    requires AllocatedBytes(evs, i, |evs|) as real > CycleLimit(ws[i].cx.meter.wakeup, CycleBase(ws[i].cx.meter), f)
    ensures !SameCycle(gs, |evs|, |gs|)
  {
    if SameCycle(gs, |evs|, |gs|) {
      assert vs[i] == ws[i] && forall k | i <= k < |evs| :: gs[k] == evs[k];
      UnfinishedIsBounded(vs, gs, i, |gs|, f);
      LongerRunAllocates(evs, gs, i, |gs|);
      assert false;
    }
  }
}
