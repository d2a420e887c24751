/** The debt as a ledger: what each step of the collector pays, and that at every point of a cycle the debt
    is what has been charged less what has been paid. */
module Ledger {
  import opened Types
  import opened Metering
  import opened Collector
  import opened Invariant
  import opened Marking
  import opened Runs
  import opened Safety
  import opened Collection
  import Transparency
  import opened MemoryBound
  import opened Growth
  import Untracing
  import Coloring

  // ----------------------------------------------------------------------- what is paid

  /** The work of doing something to a box of `size` bytes. */
  function Cost(factor: real, size: int): real {
    size as real * factor
  }

  /** The bytes of the white boxes among the targets of the pointers, each box counted once. */
  function FirstMarked(heap: map<Ref, Box>, edges: seq<Edge>): nat {
    if edges == [] then 0
    else
      var init, r := edges[..|edges| - 1], edges[|edges| - 1].to;
      FirstMarked(heap, init)
      + if r in heap && heap[r].color == White && !IsTarget(init, r) then heap[r].size else 0
  }

  /** A step of marking traces one box, unless that is undone because of a panic, and marks for the first
      time the white boxes that it finds. */
  function MarkPays(c: Ctx, root: seq<Edge>, outcome: Outcome): real
    requires MarkReady(c, root)
  {
    match NextGray(c)
    case Some(r) =>
      (if outcome.Returns? then Cost(c.meter.pacing.traceFactor, c.heap[r].size) else 0.0)
      + Cost(c.meter.pacing.markFactor, FirstMarked(c.heap, Reported(c.heap[r].edges, outcome)))
    case None => Cost(c.meter.pacing.markFactor, FirstMarked(c.heap, Reported(root, outcome)))
  }

  /** A step of sweeping drops and frees the box, drops and keeps it, or keeps it. A value that has been
      dropped before is not dropped again, and a destructor that panics is not paid for. */
  function SweepPays(p: Pacing, b: Box, panics: bool): real {
    match b.color
    case White =>
      if !b.live then Cost(p.freeFactor, b.size)
      else if panics then 0.0
      else Cost(p.dropFactor, b.size) + Cost(p.freeFactor, b.size)
    case WhiteWeak =>
      if !b.live then Cost(p.keepFactor, b.size)
      else if panics then 0.0
      else Cost(p.dropFactor, b.size) + Cost(p.keepFactor, b.size)
    case Gray => 0.0
    case Black => Cost(p.keepFactor, b.size)
  }

  /** A forward barrier that acts may mark the child for the first time, and a backward barrier that fires
      takes the tracing of the parent back. */
  function BarrierPays(c: Ctx, b: Barrier): real
    requires BarrierReady(c, b)
  {
    match b
    case Backward(parent, _) => FiringPays(c, b, parent)
    case BackwardWeak(parent, _) => FiringPays(c, b, parent)
    case Forward(parent, child) => ForwardPays(c, parent, child)
    case ForwardWeak(parent, child) => ForwardPays(c, parent, child)
  }

  function FiringPays(c: Ctx, b: Barrier, parent: Ref): real
    requires Untracing.IsBackward(b) && BarrierReady(c, b) && parent in c.heap
  {
    if Untracing.Fires(Untracing.SiteOf(c, b)) then -Cost(c.meter.pacing.traceFactor, c.heap[parent].size) else 0.0
  }

  function ForwardPays(c: Ctx, parent: Option<Ref>, child: Ref): real
    requires child in c.heap && (parent.Some? ==> parent.value in c.heap)
  {
    if Coloring.ForwardFires(c, parent) && c.heap[child].color == White then
      Cost(c.meter.pacing.markFactor, c.heap[child].size)
    else 0.0
  }

  /** The work that an event is credited with. */
  function Pays(w: World, ev: Event): real
    requires Ready(w, ev)
  {
    match ev
    case MarkStep(outcome) => MarkPays(w.cx, w.root, outcome)
    case SweepStep(panics) => SweepPays(w.cx.meter.pacing, w.cx.heap[w.cx.back[0]], panics)
    case CallBarrier(b) => BarrierPays(w.cx, b)
    case Resurrection(r) =>
      if w.cx.heap[r].live && w.cx.heap[r].color == White then
        Cost(w.cx.meter.pacing.markFactor, w.cx.heap[r].size)
      else 0.0
    case _ => 0.0
  }

  // ---------------------------------------------------------------- the counters pay that

  /** From `m` to `n` so much work has been credited. */
  predicate Earned(m: Meter, n: Meter, work: real) {
    n.pacing == m.pacing && Credits(n) == Credits(m) + work
  }

  lemma CostSum(factor: real, a: int, b: int)
    ensures Cost(factor, a + b) == Cost(factor, a) + Cost(factor, b)
    ensures Cost(factor, a - b) == Cost(factor, a) - Cost(factor, b)
  {
    Split(a as real, b as real, factor);
    Split(a as real, -(b as real), factor);
  }

  lemma MarkingEarns(m: Meter, bytes: nat)
    ensures Earned(m, Marked(m, bytes), Cost(m.pacing.markFactor, bytes))
  {
    CostSum(m.pacing.markFactor, m.markedBytes, bytes);
  }

  lemma TracingEarns(m: Meter, bytes: nat)
    ensures Earned(m, Traced(m, bytes), Cost(m.pacing.traceFactor, bytes))
    ensures Earned(m, Untraced(m, bytes), -Cost(m.pacing.traceFactor, bytes))
  {
    CostSum(m.pacing.traceFactor, m.tracedBytes, bytes);
  }

  lemma RememberingEarns(m: Meter, bytes: nat)
    ensures Earned(m, Remembered(m, bytes), Cost(m.pacing.keepFactor, bytes))
  {
    CostSum(m.pacing.keepFactor, m.rememberedBytes, bytes);
  }

  lemma DroppingEarns(m: Meter, bytes: nat)
    ensures Earned(m, Dropped(m, bytes), Cost(m.pacing.dropFactor, bytes))
  {
    CostSum(m.pacing.dropFactor, m.droppedBytes, bytes);
  }

  lemma FreeingEarns(m: Meter, bytes: nat)
    ensures Earned(m, Freed(m, bytes), Cost(m.pacing.freeFactor, bytes))
  {
    CostSum(m.pacing.freeFactor, m.freedBytes, bytes);
  }

  lemma EarnedMore(m: Meter, n: Meter, o: Meter, work: real, more: real)
    requires Earned(m, n, work) && Earned(n, o, more)
    ensures Earned(m, o, work + more)
  {
  }

  /** Tracing finds a box white just if it was so before and no pointer to it has been traced yet. */
  lemma StillWhite(c: Ctx, edges: seq<Edge>, r: Ref)
    requires Present(c, edges) && r in c.heap
    ensures var b := TraceEdges(c, edges).heap[r];
            (b.color == White <==> c.heap[r].color == White && !IsTarget(edges, r)) && b.size == c.heap[r].size
  {
    TraceEdgesShape(c, edges);
    TraceEdgesMark(c, edges);
    if Strong(r) in edges {
      assert MarkedEdge(TraceEdges(c, edges), Strong(r));
    } else if Weak(r) in edges {
      assert MarkedEdge(TraceEdges(c, edges), Weak(r));
    } else if c.heap[r].color != White {
      NeverWhitens(c, edges, r);
    }
  }

  lemma {:induction false} NeverWhitens(c: Ctx, edges: seq<Edge>, r: Ref)
    requires Present(c, edges) && r in c.heap && c.heap[r].color != White
    ensures TraceEdges(c, edges).heap[r].color != White
  {
    if edges == [] {
    } else {
      var init, last := edges[..|edges| - 1], edges[|edges| - 1];
      NeverWhitens(c, init, r);
      Coloring.FirstPointerMarks(TraceEdges(c, init), last);
    }
  }

  lemma TraceEdgeEarns(c: Ctx, e: Edge)
    requires e.to in c.heap
    ensures Earned(c.meter, TraceEdge(c, e).meter,
                   if c.heap[e.to].color == White then Cost(c.meter.pacing.markFactor, c.heap[e.to].size) else 0.0)
  {
    MarkingEarns(c.meter, c.heap[e.to].size);
  }

  lemma {:induction false} TraceEdgesEarn(c: Ctx, edges: seq<Edge>)
    requires Present(c, edges)
    ensures Earned(c.meter, TraceEdges(c, edges).meter, Cost(c.meter.pacing.markFactor, FirstMarked(c.heap, edges)))
  {
    if edges == [] {
    } else {
      var init, last := edges[..|edges| - 1], edges[|edges| - 1];
      var mid := TraceEdges(c, init);
      TraceEdgesEarn(c, init);
      StillWhite(c, init, last.to);
      TraceEdgeEarns(mid, last);
      var more := if mid.heap[last.to].color == White then c.heap[last.to].size else 0;
      CostSum(c.meter.pacing.markFactor, FirstMarked(c.heap, init), more);
      EarnedMore(c.meter, mid.meter, TraceEdges(c, edges).meter,
                 Cost(c.meter.pacing.markFactor, FirstMarked(c.heap, init)),
                 Cost(c.meter.pacing.markFactor, more));
    }
  }

  /** Blackening a box that is not white does not change what there is to be marked. */
  lemma {:induction false} SameFirstMarked(h: map<Ref, Box>, r: Ref, color: Color, edges: seq<Edge>)
    requires r in h && h[r].color != White && color != White
    ensures FirstMarked(h[r := h[r].(color := color)], edges) == FirstMarked(h, edges)
  {
    if edges == [] {
    } else {
      SameFirstMarked(h, r, color, edges[..|edges| - 1]);
    }
  }

  lemma MarkBoxEarns(c: Ctx, r: Ref, outcome: Outcome)
    requires NextGray(c) == Some(r) && r in c.heap && c.heap[r].color == Gray && MarkReady(c, [])
    ensures Earned(c.meter, MarkOne(c, [], outcome).meter, MarkPays(c, [], outcome))
  {
    var begun, es := StartTrace(c), Reported(c.heap[r].edges, outcome);
    var traced, p := TraceEdges(begun, es), c.meter.pacing;
    var trace, mark := Cost(p.traceFactor, c.heap[r].size), Cost(p.markFactor, FirstMarked(c.heap, es));
    TracingEarns(c.meter, c.heap[r].size);
    SameFirstMarked(c.heap, r, Black, es);
    TraceEdgesEarn(begun, es);
    EarnedMore(c.meter, begun.meter, traced.meter, trace, mark);
    if outcome.Panics? {
      TraceEdgesShape(begun, es);
      TracingEarns(traced.meter, c.heap[r].size);
      EarnedMore(c.meter, traced.meter, MakeGrayAgain(traced, r).meter, trace + mark, -trace);
    }
  }

  lemma MarkOneEarns(c: Ctx, root: seq<Edge>, outcome: Outcome)
    requires CtxOk(c, root) && c.phase == Mark && !MarkDone(c) && MarkReady(c, root)
    ensures Earned(c.meter, MarkOne(c, root, outcome).meter, MarkPays(c, root, outcome))
  {
    match NextGray(c) {
      case Some(r) =>
        PopKeepsQueued(c, r);
        MarkBoxEarns(c, r, outcome);
      case None => TraceEdgesEarn(c, Reported(root, outcome));
    }
  }

  lemma SweepOneEarns(c: Ctx, panics: bool)
    requires SweepReady(c)
    ensures Earned(c.meter, SweepOne(c, panics).meter, SweepPays(c.meter.pacing, c.heap[c.back[0]], panics))
  {
    var m, b := c.meter, c.heap[c.back[0]];
    var dropped := Dropped(m, b.size);
    DroppingEarns(m, b.size);
    FreeingEarns(m, b.size);
    FreeingEarns(dropped, b.size);
    RememberingEarns(m, b.size);
    RememberingEarns(dropped, b.size);
  }

  lemma BarrierEarns(c: Ctx, b: Barrier)
    requires BarrierReady(c, b)
    ensures Earned(c.meter, RunBarrier(c, b).meter, BarrierPays(c, b))
  {
    if Untracing.IsBackward(b) {
      Untracing.FiringIsExact(c, b);
      TracingEarns(c.meter, c.heap[b.parent].size);
    } else {
      Coloring.ForwardIsExact(c, b);
      match b {
        case Forward(_, child) => TraceEdgeEarns(c, Strong(child));
        case ForwardWeak(_, child) => TraceEdgeEarns(c, Weak(child));
      }
    }
  }

  lemma ResurrectEarns(c: Ctx, r: Ref)
    requires r in c.heap
    ensures Earned(c.meter, Collector.Resurrect(c, r).meter,
                   if c.heap[r].color == White then Cost(c.meter.pacing.markFactor, c.heap[r].size) else 0.0)
  {
    MarkingEarns(c.meter, c.heap[r].size);
  }

  predicate SetsPacing(ev: Event) {
    ev.Tune? && ev.tuning.SetPacing?
  }

  /** Every event is credited with just the work that the pacing has for what it does to the boxes. */
  lemma StepEarns(w: World, ev: Event)
    requires WorldOk(w) && Allowed(w, ev) && Ready(w, ev) && !ev.FinishSweep? && !SetsPacing(ev)
    ensures Earned(w.cx.meter, After(w, ev).cx.meter, Pays(w, ev))
  {
    match ev {
      case MarkStep(outcome) => MarkOneEarns(w.cx, w.root, outcome);
      case SweepStep(panics) => SweepOneEarns(w.cx, panics);
      case CallBarrier(b) => BarrierEarns(w.cx, b);
      case Resurrection(r) => ResurrectEarns(w.cx, r);
      case _ =>
    }
  }

  // ------------------------------------------------------------------- what that does to the debt

  /** The external bytes after an event. */
  function ExternalAfter(total: nat, ev: Event): nat {
    if ev.Tune? && ev.tuning.ExternalAllocation? then total + ev.tuning.bytes
    else if ev.Tune? && ev.tuning.ExternalDeallocation? then
      if total < ev.tuning.bytes then 0 else total - ev.tuning.bytes
    else total
  }

  lemma {:induction false} TraceEdgesExternal(c: Ctx, edges: seq<Edge>)
    requires Present(c, edges)
    ensures TraceEdges(c, edges).meter.totalExternal == c.meter.totalExternal
  {
    if edges == [] {
    } else {
      TraceEdgesExternal(c, edges[..|edges| - 1]);
    }
  }

  lemma MarkOneExternal(c: Ctx, root: seq<Edge>, outcome: Outcome)
    requires !MarkDone(c) && MarkReady(c, root)
    ensures MarkOne(c, root, outcome).meter.totalExternal == c.meter.totalExternal
  {
    match NextGray(c) {
      case Some(r) => TraceEdgesExternal(StartTrace(c), Reported(c.heap[r].edges, outcome));
      case None => TraceEdgesExternal(c, Reported(root, outcome));
    }
  }

  lemma SweepOneExternal(c: Ctx, panics: bool)
    requires SweepReady(c)
    ensures SweepOne(c, panics).meter.totalExternal == c.meter.totalExternal
  {
  }

  lemma BarrierExternal(c: Ctx, b: Barrier)
    requires BarrierReady(c, b)
    ensures RunBarrier(c, b).meter.totalExternal == c.meter.totalExternal
  {
  }

  lemma StepExternal(w: World, ev: Event)
    requires Allowed(w, ev) && Ready(w, ev)
    ensures After(w, ev).cx.meter.totalExternal == ExternalAfter(w.cx.meter.totalExternal, ev)
  {
    match ev {
      case MarkStep(outcome) => MarkOneExternal(w.cx, w.root, outcome);
      case SweepStep(panics) => SweepOneExternal(w.cx, panics);
      case CallBarrier(b) => BarrierExternal(w.cx, b);
      case _ =>
    }
  }

  function Positive(x: real): real {
    if x > 0.0 then x else 0.0
  }

  /** The debt of a meter: nothing with an empty heap or before the wakeup amount is used up, and otherwise
      what is owed and not paid. */
  function Due(m: Meter, owed: real, paid: real): real {
    if m.totalGcs == 0 || owed <= 0.0 then 0.0 else Positive(owed - paid)
  }

  lemma DebtIsDue(m: Meter)
    ensures AllocationDebt(m) == Due(m, Debits(m), Credits(m))
  {
  }

  function AllocatedIn(ev: Event): nat {
    if ev.Alloc? then ev.size else 0
  }

  lemma StepDebits(w: World, ev: Event)
    requires Allowed(w, ev) && Ready(w, ev) && !ev.FinishSweep? && !ev.Tune?
    ensures Debits(After(w, ev).cx.meter) == Debits(w.cx.meter) + AllocatedIn(ev) as real
  {
    StepAllocates(w, ev);
    StepOwes(w, ev);
    StepExternal(w, ev);
  }

  /** While there is debt, every event adds what it allocates and pays the work that it does, and the debt
      does not go below zero. With the last box the debt goes, too. */
  lemma WorkPaysDebt(w: World, ev: Event)
    requires WorldOk(w) && Allowed(w, ev) && Ready(w, ev) && !ev.FinishSweep? && !ev.Tune?
    requires AllocationDebt(w.cx.meter) > 0.0
    ensures var n := After(w, ev).cx.meter;
            AllocationDebt(n)
            == if n.totalGcs == 0 then 0.0
               else Positive(AllocationDebt(w.cx.meter) + AllocatedIn(ev) as real - Pays(w, ev))
  {
    var m, n := w.cx.meter, After(w, ev).cx.meter;
    StepEarns(w, ev);
    StepDebits(w, ev);
    DebtMoves(m, n, AllocatedIn(ev) as real, Pays(w, ev));
  }

  lemma DebtMoves(m: Meter, n: Meter, charge: real, work: real)
    requires AllocationDebt(m) > 0.0 && charge >= 0.0
    requires Debits(n) == Debits(m) + charge && Earned(m, n, work)
    ensures AllocationDebt(n) == if n.totalGcs == 0 then 0.0 else Positive(AllocationDebt(m) + charge - work)
  {
    DebtIsDue(m);
    DebtIsDue(n);
  }

  /** What is paid for a box with the default pacing: for marking it and for tracing it, and for sweeping a
      forgotten one, a weakly marked one, a reachable one, and one that was dropped before. */
  lemma DefaultPays(size: nat)
    ensures var p, n := DEFAULT, size as real;
            && Cost(p.markFactor, size) == n / 10.0 && Cost(p.traceFactor, size) == 4.0 * n / 10.0
            && SweepPays(p, Box(White, true, true, size, []), false) == n / 2.0
            && SweepPays(p, Box(WhiteWeak, true, true, size, []), false) == n / 4.0
            && SweepPays(p, Box(Black, true, true, size, []), false) == n / 20.0
            && SweepPays(p, Box(White, false, true, size, []), false) == 3.0 * n / 10.0
  {
  }

  /** With the default pacing the collector sleeps for half of what it has remembered, but for 4096 bytes at
      the least. */
  lemma DefaultSleep(m: Meter, resetDebt: bool)
    requires m.pacing == DEFAULT
    ensures Metering.FinishCycle(m, resetDebt).wakeup
         == if m.rememberedBytes >= 8192 then m.rememberedBytes as real / 2.0 else 4096.0
  {
  }

  // ---------------------------------------------------------------------------- the balance

  /** The work done between worlds `i` and `j`. */
  function Work(ws: seq<World>, evs: seq<Event>, i: nat, j: nat): real
    requires IsRun(ws, evs) && i <= j < |ws|
  {
    if i == j then 0.0 else Work(ws, evs, i, j - 1) + Pays(ws[j - 1], evs[j - 1])
  }

  /** The pacing is not changed between worlds `i` and `j`. */
  predicate SamePacing(evs: seq<Event>, i: nat, j: nat)
    requires j <= |evs|
  {
    forall k {:trigger evs[k]} | i <= k < j :: !SetsPacing(evs[k])
  }

  lemma RunStepEarns(ws: seq<World>, evs: seq<Event>, i: nat, j: nat)
    requires IsRun(ws, evs) && ws[0] == INITIAL && i < |evs| && j == i + 1
    requires !evs[i].FinishSweep? && !SetsPacing(evs[i])
    ensures Earned(ws[i].cx.meter, ws[j].cx.meter, Pays(ws[i], evs[i]))
  {
    InitialOk();
    RunKeeps(ws, evs, i);
    StepEarns(ws[i], evs[i]);
  }

  lemma WorkMore(ws: seq<World>, evs: seq<Event>, i: nat, k: nat, j: nat)
    requires IsRun(ws, evs) && i <= k < |evs| && j == k + 1
    ensures Work(ws, evs, i, j) == Work(ws, evs, i, k) + Pays(ws[k], evs[k])
  {
  }

  lemma {:induction false} CycleEarns(ws: seq<World>, evs: seq<Event>, i: nat, j: nat)
    requires IsRun(ws, evs) && ws[0] == INITIAL && i <= j < |ws| && SameCycle(evs, i, j) && SamePacing(evs, i, j)
    ensures Earned(ws[i].cx.meter, ws[j].cx.meter, Work(ws, evs, i, j))
  {
    if i == j {
    } else {
      var k := j - 1;
      CycleEarns(ws, evs, i, k);
      RunStepEarns(ws, evs, k, j);
      EarnedMore(ws[i].cx.meter, ws[k].cx.meter, ws[j].cx.meter, Work(ws, evs, i, k), Pays(ws[k], evs[k]));
      WorkMore(ws, evs, i, k, j);
    }
  }

  /** A cycle begins at world `k`, with its sleep. */
  predicate BeginsCycle(evs: seq<Event>, k: nat)
    requires k <= |evs|
  {
    k == 0 || evs[k - 1].FinishSweep?
  }

  /** How much may be allocated in the cycle before there is debt: in the first cycle nothing, and later the
      remembered size times the sleep factor or the least sleep, whichever is more. */
  function FreeAmount(ws: seq<World>, k: nat): real
    requires k < |ws|
  {
    if k == 0 then 0.0
    else
      var m := ws[k - 1].cx.meter;
      var kept, least := m.rememberedBytes as real * m.pacing.sleepFactor, m.pacing.minSleep as real;
      if kept >= least then kept else least
  }

  /** The debt that the cycle takes over: nothing from a cycle run atomically. */
  function TakenOver(ws: seq<World>, evs: seq<Event>, k: nat): real
    requires |ws| == |evs| + 1 && k < |ws|
  {
    if k == 0 || !evs[k - 1].FinishSweep? || evs[k - 1].resetDebt then 0.0 else AllocationDebt(ws[k - 1].cx.meter)
  }

  /** All that has been charged since the cycle began at world `k`, less what could be allocated freely. */
  function Owed(ws: seq<World>, evs: seq<Event>, k: nat, i: nat): real
    requires |ws| == |evs| + 1 && k <= i < |ws|
  {
    (AllocatedBytes(evs, k, i) + ExternalGrowth(ws[k].cx.meter, ws[i].cx.meter)) as real - FreeAmount(ws, k)
    + (TakenOver(ws, evs, k) + AddedDebt(evs, k, i))
  }

  lemma CycleBegins(ws: seq<World>, evs: seq<Event>, k: nat)
    requires IsRun(ws, evs) && ws[0] == INITIAL && k < |ws| && BeginsCycle(evs, k)
    ensures var m := ws[k].cx.meter;
            && m.allocatedBytes == 0 && m.wakeup == FreeAmount(ws, k) && m.externalStart == m.totalExternal
            && m.artificialDebt == TakenOver(ws, evs, k) && Credits(m) == 0.0
  {
    if k > 0 {
      RunStep(ws, evs, k - 1);
    }
    NoCredits(ws[k].cx.meter);
  }

  lemma OwedIsDebits(ws: seq<World>, evs: seq<Event>, k: nat, i: nat)
    requires IsRun(ws, evs) && ws[0] == INITIAL && k <= i < |ws| && BeginsCycle(evs, k) && SameCycle(evs, k, i)
    ensures Debits(ws[i].cx.meter) == Owed(ws, evs, k, i)
  {
    CycleBegins(ws, evs, k);
    CycleAllocates(ws, evs, k, i);
    CycleOwes(ws, evs, k, i);
  }

  /** The ledger balances: at every point of every cycle in which the pacing has not been changed, the debt
      is what has been charged less what has been paid. */
  lemma DebtIsBalance(ws: seq<World>, evs: seq<Event>, k: nat, i: nat)
    requires IsRun(ws, evs) && ws[0] == INITIAL && k <= i < |ws| && BeginsCycle(evs, k)
    requires SameCycle(evs, k, i) && SamePacing(evs, k, i)
    ensures AllocationDebt(ws[i].cx.meter) == Due(ws[i].cx.meter, Owed(ws, evs, k, i), Work(ws, evs, k, i))
  {
    OwedIsDebits(ws, evs, k, i);
    CycleBegins(ws, evs, k);
    CycleEarns(ws, evs, k, i);
    DebtIsDue(ws[i].cx.meter);
  }

  // ---------------------------------------------------------------- what the program sets

  /** The pacing that was set last. */
  function LastSet(evs: seq<Event>, i: nat): Pacing
    requires i <= |evs|
  {
    if i == 0 then DEFAULT
    else if SetsPacing(evs[i - 1]) then evs[i - 1].tuning.pacing
    else LastSet(evs, i - 1)
  }

  lemma StepPacing(w: World, ev: Event)
    requires WorldOk(w) && Allowed(w, ev) && Ready(w, ev)
    ensures After(w, ev).cx.meter.pacing == if SetsPacing(ev) then ev.tuning.pacing else w.cx.meter.pacing
  {
    if !ev.FinishSweep? && !SetsPacing(ev) {
      StepEarns(w, ev);
    }
  }

  /** The pacing in force is the one that was set last, and the default one until then. */
  lemma {:induction false} PacingIsTheLastSet(ws: seq<World>, evs: seq<Event>, i: nat)
    requires IsRun(ws, evs) && ws[0] == INITIAL && i < |ws|
    ensures ws[i].cx.meter.pacing == LastSet(evs, i)
  {
    if i == 0 {
    } else {
      PacingIsTheLastSet(ws, evs, i - 1);
      InitialOk();
      RunKeeps(ws, evs, i - 1);
      RunStep(ws, evs, i - 1);
      StepPacing(ws[i - 1], evs[i - 1]);
    }
  }

  /** External bytes that have been reported as allocated, less those reported as deallocated. */
  function NetExternal(evs: seq<Event>, i: nat): int
    requires i <= |evs|
  {
    if i == 0 then 0 else NetExternal(evs, i - 1) + ExternalIn(evs[i - 1])
  }

  function ExternalIn(ev: Event): int {
    if ev.Tune? && ev.tuning.ExternalAllocation? then ev.tuning.bytes
    else if ev.Tune? && ev.tuning.ExternalDeallocation? then -(ev.tuning.bytes as int)
    else 0
  }

  /** As long as no more has been given back than there was, the external total is the net of what has been
      reported. */
  lemma {:induction false} ExternalIsNet(ws: seq<World>, evs: seq<Event>, i: nat)
    requires IsRun(ws, evs) && ws[0] == INITIAL && i < |ws|
    requires forall k {:trigger NetExternal(evs, k)} | 0 <= k <= i :: NetExternal(evs, k) >= 0
    ensures ws[i].cx.meter.totalExternal == NetExternal(evs, i)
  {
    if i == 0 {
    } else {
      ExternalIsNet(ws, evs, i - 1);
      RunStep(ws, evs, i - 1);
      StepExternal(ws[i - 1], evs[i - 1]);
      assert NetExternal(evs, i) >= 0;
    }
  }

  // ----------------------------------------------------------------------- stop the world

  /** No work is ever credited. */
  predicate NoFactors(p: Pacing) {
    p.markFactor == p.traceFactor == p.keepFactor == p.dropFactor == p.freeFactor == 0.0
  }

  /** More is owed than can be allocated freely, and nothing pays it. */
  predicate Unpaid(m: Meter) {
    NoFactors(m.pacing) && Debits(m) > 0.0
  }

  lemma UnpaidIsDebt(m: Meter)
    requires Unpaid(m)
    ensures AllocationDebt(m) > 0.0 <==> m.totalGcs != 0
  {
  }

  /** The program's code reports no pacing and gives back no external memory. */
  predicate OnlyCharges(ts: seq<Tuning>) {
    forall t | t in ts :: t.AddDebt? || t.ExternalAllocation?
  }

  lemma {:induction false} ChargesStayUnpaid(m: Meter, ts: seq<Tuning>)
    requires Unpaid(m) && OnlyCharges(ts)
    ensures Unpaid(TuneAll(m, ts)) && TuneAll(m, ts).totalGcs == m.totalGcs
    decreases |ts|
  {
    if ts == [] {
    } else {
      assert ts[0] in ts && forall t | t in ts[1..] :: t in ts;
      ChargesStayUnpaid(Metering.Tune(m, ts[0]), ts[1..]);
    }
  }

  lemma ProceedStaysUnpaid(c: Ctx, root: seq<Edge>, slept: bool, outcome: Outcome)
    requires CtxOk(c, root) && Unpaid(c.meter) && (c.phase == Sweep && c.back == [] ==> slept)
    requires Proceed(c, root, Full, slept, outcome).Stay?
    ensures Unpaid(Proceed(c, root, Full, slept, outcome).cx.meter)
  {
    var ev := TickEvent(c, slept, outcome);
    ProceedIsEvent(c, root, Full, slept, outcome);
    Transparency.BareOk(c, root);
    StepDebits(Bare(c, root), ev);
    StepPacing(Bare(c, root), ev);
  }

  lemma {:induction false} LoopStopsTheWorld(c: Ctx, root: seq<Edge>, slept: bool, us: seq<Conduct>)
    requires CtxOk(c, root) && Unpaid(c.meter) && (slept || c.phase == Sleep)
    requires forall k | 0 <= k < |us| :: OnlyCharges(us[k].reports)
    ensures var e := Loop(c, root, PayDebt, Full, slept, us);
            e.Returned? ==> e.cx.phase == Sleep || e.cx.meter.totalGcs == 0
    decreases !slept, PhasesLeft(c, slept), WorkLeft(c)
  {
    var u := Now(us);
    var t := Tick(c, root, Full, slept, u);
    LoopTurn(c, root, PayDebt, Full, slept, us);
    if t.Stay? {
      ProceedStaysUnpaid(c, root, slept, u.outcome);
      var d := Proceed(c, root, Full, slept, u.outcome).cx;
      ChargesStayUnpaid(d.meter, ReportsIn(c, u));
      VacateAllLoses(Tuned(d, ReportsIn(c, u)), DropsIn(c, u));
      UnpaidIsDebt(t.cx.meter);
      if !Paid(PayDebt, t.cx) {
        LoopStopsTheWorld(t.cx, root, t.slept, Later(us));
      }
    }
  }

  /** With work factors of zero, `collect_debt` is a whole collection as soon as the collector wakes: called
      asleep with debt, a call that returns has run the cycle to its end, or has emptied the heap. The
      program's code may charge more debt meanwhile, but give none back. */
  lemma StopsTheWorld(c: Ctx, root: seq<Edge>, us: seq<Conduct>)
    requires CtxOk(c, root) && c.phase == Sleep && AllocationDebt(c.meter) > 0.0 && NoFactors(c.meter.pacing)
    requires forall k | 0 <= k < |us| :: OnlyCharges(us[k].reports)
    ensures NoFactors(STOP_THE_WORLD)
    ensures var e := DoCollection(c, root, PayDebt, Full, us);
            e.Returned? ==> e.cx.phase == Sleep || e.cx.meter.totalGcs == 0
  {
    LoopStopsTheWorld(c, root, false, us);
  }
}
