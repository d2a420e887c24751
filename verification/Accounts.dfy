/** The counters agree with the heap, and a sweep conserves the bytes. A destructor that panics leaves the
    counters behind; what they miss then is accounted for, too. */
module Accounts {
  import opened Types
  import opened Metering
  import opened Collector
  import opened Invariant
  import opened Marking
  import opened Sweeping
  import opened Gauges
  import opened Runs
  import opened Safety

  /** What the counters miss because destructors have panicked: boxes that have been leaked and are still
      in the totals, and boxes that this sweep has kept without remembering them. */
  datatype Gap = Gap(leakedGcs: nat, leakedBytes: nat, skippedGcs: nat, skippedBytes: nat)

  const NO_GAP := Gap(0, 0, 0, 0)

  /** The gap after a step of the sweep. */
  function SweepGap(c: Ctx, panics: bool, gap: Gap): Gap
    requires SweepReady(c)
  {
    var b := c.heap[c.back[0]];
    if !panics || !b.live then gap
    else match b.color
      case White => gap.(leakedGcs := gap.leakedGcs + 1, leakedBytes := gap.leakedBytes + b.size)
      case WhiteWeak => gap.(skippedGcs := gap.skippedGcs + 1, skippedBytes := gap.skippedBytes + b.size)
      case _ => gap
  }

  /** The gap after an event. */
  function GapAfter(w: World, ev: Event, gap: Gap): Gap
    requires Ready(w, ev)
  {
    match ev
    case SweepStep(panics) => SweepGap(w.cx, panics, gap)
    case FinishSweep(_) => gap.(skippedGcs := 0, skippedBytes := 0)
    case _ => gap
  }

  /** The totals count the boxes on the list and those that have been leaked. */
  predicate Totals(c: Ctx, gap: Gap) {
    && c.meter.totalGcs == Weigh(Boxes, c.heap, c.List()) + gap.leakedGcs
    && c.meter.totalGcBytes == Weigh(Bytes, c.heap, c.List()) + gap.leakedBytes
    && (gap.leakedGcs == 0 ==> gap.leakedBytes == 0)
  }

  predicate NoneSkipped(gap: Gap) {
    gap.skippedGcs == gap.skippedBytes == 0
  }

  predicate MarkCounts(m: Meter, heap: map<Ref, Box>, xs: seq<Ref>) {
    && m.markedGcs == Weigh(MarkedBoxes, heap, xs)
    && m.markedBytes == Weigh(MarkedBytes, heap, xs)
    && m.tracedGcs <= Weigh(BlackBoxes, heap, xs)
    && m.tracedBytes <= Weigh(BlackBytes, heap, xs)
    && m.rememberedGcs == m.rememberedBytes == m.droppedBytes == m.freedBytes == 0
  }

  /** The bytes of the boxes that the sweep has kept. */
  function KeptBytes(m: Meter, gap: Gap): nat {
    m.rememberedBytes + gap.skippedBytes
  }

  predicate SweepCounts(m: Meter, heap: map<Ref, Box>, back: seq<Ref>, gap: Gap) {
    && m.markedGcs == m.rememberedGcs + gap.skippedGcs + Weigh(MarkedBoxes, heap, back)
    && m.markedBytes == KeptBytes(m, gap) + Weigh(MarkedBytes, heap, back)
    && m.tracedBytes <= KeptBytes(m, gap) + Weigh(BlackBytes, heap, back)
    && m.droppedBytes <= m.freedBytes + KeptBytes(m, gap)
    && m.droppedBytes + m.tracedBytes <= m.freedBytes + KeptBytes(m, gap) + Weigh(BlackBytes, heap, back)
  }

  predicate SleepCounts(m: Meter) {
    && m.markedGcs == m.markedBytes == m.tracedGcs == m.tracedBytes == 0
    && m.rememberedGcs == m.rememberedBytes == m.droppedBytes == m.freedBytes == 0
  }

  predicate Counted(c: Ctx, gap: Gap) {
    && Totals(c, gap)
    && c.meter.wakeup >= 0.0 && c.meter.artificialDebt >= 0.0
    && match c.phase
       case Mark => MarkCounts(c.meter, c.heap, c.List()) && NoneSkipped(gap)
       case Sweep =>
         SweepCounts(c.meter, c.heap, c.back, gap) && KeptBytes(c.meter, gap) <= Weigh(Bytes, c.heap, c.front)
       case Sleep => SleepCounts(c.meter) && NoneSkipped(gap)
       case Drop => true
  }

  // -------------------------------------------------------------------------- marking

  /** Sums over a list that has `r` once, after `r` has changed to `b`. */
  lemma Reweigh(heap: map<Ref, Box>, xs: seq<Ref>, r: Ref, b: Box)
    requires r in heap && Occurs(xs, r) == 1
    ensures forall g :: Weigh(g, heap[r := b], xs) == Weigh(g, heap, xs) - Reading(g, heap[r]) + Reading(g, b)
  {
    forall g
      ensures Weigh(g, heap[r := b], xs) == Weigh(g, heap, xs) - Reading(g, heap[r]) + Reading(g, b)
    {
      WeighUpdate(g, heap, xs, r, b);
    }
  }

  /** Marking a white box for the first time is counted, and recolouring a `WhiteWeak` one is not. */
  lemma DarkenCounts(c: Ctx, r: Ref, color: Color, gap: Gap)
    requires c.phase == Mark && Counted(c, gap) && Listed(c) && r in c.heap
    requires IsWhite(c.heap[r].color) && color != White
    ensures Counted(Recolor(CountMark(c, r), r, color), gap)
  {
    OccursList(c, r);
    Reweigh(c.heap, c.List(), r, c.heap[r].(color := color));
  }

  lemma TraceEdgeCounts(c: Ctx, e: Edge, gap: Gap)
    requires c.phase == Mark && Counted(c, gap) && Listed(c) && e.to in c.heap
    ensures Counted(TraceEdge(c, e), gap) && Listed(TraceEdge(c, e)) && TraceEdge(c, e).phase == Mark
  {
    var r := e.to;
    match e {
      case Strong(_) =>
        if IsWhite(c.heap[r].color) {
          DarkenCounts(c, r, if c.heap[r].needsTrace then Gray else Black, gap);
        }
      case Weak(_) =>
        if c.heap[r].color == White {
          DarkenCounts(c, r, WhiteWeak, gap);
        }
    }
  }

  lemma {:induction false} TraceEdgesCount(c: Ctx, edges: seq<Edge>, gap: Gap)
    requires c.phase == Mark && Counted(c, gap) && Listed(c) && Present(c, edges)
    ensures Counted(TraceEdges(c, edges), gap) && Listed(TraceEdges(c, edges)) && TraceEdges(c, edges).phase == Mark
  {
    if edges == [] {
    } else {
      TraceEdgesCount(c, edges[..|edges| - 1], gap);
      TraceEdgeCounts(TraceEdges(c, edges[..|edges| - 1]), edges[|edges| - 1], gap);
    }
  }

  lemma MakeGrayAgainCounts(c: Ctx, r: Ref, gap: Gap)
    requires c.phase == Mark && Counted(c, gap) && Listed(c) && r in c.heap && c.heap[r].color == Black
    ensures Counted(MakeGrayAgain(c, r), gap)
  {
    OccursList(c, r);
    Reweigh(c.heap, c.List(), r, c.heap[r].(color := Gray));
  }

  lemma StartTraceCounts(c: Ctx, r: Ref, gap: Gap)
    requires c.phase == Mark && Counted(c, gap) && Listed(c) && Queued(c) && NextGray(c) == Some(r)
    ensures r in c.heap && Counted(StartTrace(c), gap) && Listed(StartTrace(c))
  {
    PopKeepsQueued(c, r);
    OccursList(c, r);
    Reweigh(c.heap, c.List(), r, c.heap[r].(color := Black));
  }

  lemma MarkOneCounts(c: Ctx, root: seq<Edge>, outcome: Outcome, gap: Gap)
    requires c.phase == Mark && CtxOk(c, root) && Counted(c, gap)
    requires !MarkDone(c) && MarkReady(c, root)
    ensures Counted(MarkOne(c, root, outcome), gap)
  {
    match NextGray(c) {
      case Some(r) =>
        StartTraceCounts(c, r, gap);
        var es := Reported(c.heap[r].edges, outcome);
        TraceEdgesCount(StartTrace(c), es, gap);
        if outcome.Panics? {
          TraceEdgesSpare(StartTrace(c), es);
          MakeGrayAgainCounts(TraceEdges(StartTrace(c), es), r, gap);
        }
      case None => TraceEdgesCount(c, Reported(root, outcome), gap);
    }
  }

  lemma BarrierCounts(c: Ctx, b: Barrier, gap: Gap)
    requires Counted(c, gap) && Listed(c) && BarrierReady(c, b)
    ensures Counted(RunBarrier(c, b), gap)
  {
    if RunBarrier(c, b) != c {
      match b {
        case Backward(p, _) => MakeGrayAgainCounts(c, p, gap);
        case BackwardWeak(p, _) => MakeGrayAgainCounts(c, p, gap);
        case Forward(_, child) => TraceEdgeCounts(c, Strong(child), gap);
        case ForwardWeak(_, child) => TraceEdgeCounts(c, Weak(child), gap);
      }
    }
  }

  // -------------------------------------------------------------------------- mutation

  /** A new box adds its own reading to the list and to the part before the cursor. */
  lemma AllocateSums(c: Ctx, r: Ref, needsTrace: bool, size: nat, edges: seq<Edge>, g: Gauge)
    requires Listed(c) && r !in c.past.born
    ensures var d := Allocate(c, r, needsTrace, size, edges);
            && Weigh(g, d.heap, d.List()) == Reading(g, d.heap[r]) + Weigh(g, c.heap, c.List())
            && Weigh(g, d.heap, c.back) == Weigh(g, c.heap, c.back)
            && Weigh(g, d.heap, d.front) == Reading(g, d.heap[r]) + Weigh(g, c.heap, c.front)
  {
    var d := Allocate(c, r, needsTrace, size, edges);
    assert d.List() == [r] + c.List();
    assert d.List()[1..] == c.List() && d.front[1..] == c.front;
    forall q | q in c.List()
      ensures q in c.heap
    {
      OccursList(c, q);
    }
    assert forall q | q in c.back || q in c.front :: q in c.List();
    WeighSame(g, c.heap, d.heap, c.List());
    WeighSame(g, c.heap, d.heap, c.back);
    WeighSame(g, c.heap, d.heap, c.front);
  }

  lemma AllocateCounts(c: Ctx, r: Ref, needsTrace: bool, size: nat, edges: seq<Edge>, gap: Gap)
    requires Listed(c) && r !in c.past.born && Counted(c, gap)
    ensures Counted(Allocate(c, r, needsTrace, size, edges), gap)
  {
    AllocateSums(c, r, needsTrace, size, edges, Boxes);
    AllocateSums(c, r, needsTrace, size, edges, Bytes);
    AllocateSums(c, r, needsTrace, size, edges, MarkedBoxes);
    AllocateSums(c, r, needsTrace, size, edges, MarkedBytes);
    AllocateSums(c, r, needsTrace, size, edges, BlackBoxes);
    AllocateSums(c, r, needsTrace, size, edges, BlackBytes);
  }

  lemma SetEdgesCounts(c: Ctx, p: Ref, edges: seq<Edge>, gap: Gap)
    requires p in c.heap && Counted(c, gap)
    ensures Counted(SetEdges(c, p, edges), gap)
  {
    var d := SetEdges(c, p, edges);
    forall g, xs
      ensures Weigh(g, d.heap, xs) == Weigh(g, c.heap, xs)
    {
      WeighSame(g, c.heap, d.heap, xs);
    }
  }

  // -------------------------------------------------------------------------- sweeping

  /** A sum over the boxes ahead of the cursor loses the box at the cursor. */
  lemma SweepOneAhead(c: Ctx, panics: bool, g: Gauge)
    requires c.phase == Sweep && Listed(c) && SweepReady(c)
    ensures var d := SweepOne(c, panics);
            Weigh(g, d.heap, d.back) == Weigh(g, c.heap, c.back) - Reading(g, c.heap[c.back[0]])
  {
    var d := SweepOne(c, panics);
    SweepOneMoves(c, panics);
    SweepOneLists(c, panics);
    WeighSame(g, c.heap, d.heap, d.back);
  }

  /** A size of the part before the cursor grows by that of the box at the cursor, if it is kept. */
  lemma SweepOneBehind(c: Ctx, panics: bool, g: Gauge)
    requires c.phase == Sweep && Listed(c) && SweepReady(c) && (g == Boxes || g == Bytes)
    ensures var d, r := SweepOne(c, panics), c.back[0];
            Weigh(g, d.heap, d.front) == Weigh(g, c.heap, c.front) + if r in d.heap then Reading(g, c.heap[r]) else 0
  {
    var d, r := SweepOne(c, panics), c.back[0];
    SweepOneLists(c, panics);
    WeighSame(g, c.heap, d.heap, c.front);
    WeighConcat(g, d.heap, c.front, [r]);
    assert [r][1..] == [];
  }

  /** A total over the list changes only if the box at the cursor leaves it. */
  lemma SweepOneTotal(c: Ctx, panics: bool, g: Gauge)
    requires c.phase == Sweep && Listed(c) && SweepReady(c) && (g == Boxes || g == Bytes)
    ensures var d, r := SweepOne(c, panics), c.back[0];
            Weigh(g, d.heap, d.List()) == Weigh(g, c.heap, c.List()) - if r in d.heap then 0 else Reading(g, c.heap[r])
  {
    var d := SweepOne(c, panics);
    SweepOneBehind(c, panics, g);
    SweepOneAhead(c, panics, g);
    WeighConcat(g, c.heap, c.front, c.back);
    WeighConcat(g, d.heap, d.front, d.back);
  }

  lemma SweepOneTotals(c: Ctx, panics: bool, gap: Gap)
    requires c.phase == Sweep && Listed(c) && SweepReady(c) && Totals(c, gap)
    ensures Totals(SweepOne(c, panics), SweepGap(c, panics, gap))
  {
    SweepOneTotal(c, panics, Boxes);
    SweepOneTotal(c, panics, Bytes);
  }

  /** The counters move by what the box at the cursor weighs. */
  lemma SweepOneMeter(c: Ctx, panics: bool, gap: Gap)
    requires SweepReady(c)
    ensures var m, n, after := c.meter, SweepOne(c, panics).meter, SweepGap(c, panics, gap);
            var b := c.heap[c.back[0]];
            && n.markedGcs == m.markedGcs && n.markedBytes == m.markedBytes && n.tracedBytes == m.tracedBytes
            && n.rememberedGcs + after.skippedGcs == m.rememberedGcs + gap.skippedGcs + Reading(MarkedBoxes, b)
            && KeptBytes(n, after) == KeptBytes(m, gap) + Reading(MarkedBytes, b)
            && n.droppedBytes - m.droppedBytes
               <= n.freedBytes - m.freedBytes + Reading(MarkedBytes, b) - Reading(BlackBytes, b)
  {
  }

  lemma SweepOneSums(c: Ctx, panics: bool, gap: Gap)
    requires c.phase == Sweep && Listed(c) && SweepReady(c) && SweepCounts(c.meter, c.heap, c.back, gap)
    ensures var d := SweepOne(c, panics); SweepCounts(d.meter, d.heap, d.back, SweepGap(c, panics, gap))
  {
    SweepOneMeter(c, panics, gap);
    SweepOneAhead(c, panics, MarkedBoxes);
    SweepOneAhead(c, panics, MarkedBytes);
    SweepOneAhead(c, panics, BlackBytes);
  }

  lemma SweepOneConserves(c: Ctx, panics: bool, gap: Gap)
    requires c.phase == Sweep && Listed(c) && SweepReady(c)
    ensures SweptTotal(SweepOne(c, panics), SweepGap(c, panics, gap)) == SweptTotal(c, gap)
  {
    SweepOneAhead(c, panics, Bytes);
  }

  /** What has been kept is in front of the cursor. */
  lemma SweepOneRemembers(c: Ctx, panics: bool, gap: Gap)
    requires c.phase == Sweep && Listed(c) && SweepReady(c)
    requires KeptBytes(c.meter, gap) <= Weigh(Bytes, c.heap, c.front)
    ensures var d := SweepOne(c, panics);
            KeptBytes(d.meter, SweepGap(c, panics, gap)) <= Weigh(Bytes, d.heap, d.front)
  {
    SweepOneMeter(c, panics, gap);
    SweepOneBehind(c, panics, Bytes);
  }

  lemma SweepOneCounts(c: Ctx, panics: bool, gap: Gap)
    requires c.phase == Sweep && Listed(c) && SweepReady(c) && Counted(c, gap)
    ensures Counted(SweepOne(c, panics), SweepGap(c, panics, gap))
  {
    SweepOneTotals(c, panics, gap);
    SweepOneSums(c, panics, gap);
    SweepOneRemembers(c, panics, gap);
  }

  lemma StartSweepCounts(c: Ctx, gap: Gap)
    requires c.phase == Mark && c.back == [] && Counted(c, gap)
    ensures Counted(StartSweep(c), gap)
    ensures SweptTotal(StartSweep(c), gap) == c.meter.totalGcBytes
  {
    assert StartSweep(c).List() == c.List();
  }

  /** Bytes that the sweep has kept and freed, those it has yet to come to, and those that have been
      leaked. */
  function SweptTotal(c: Ctx, gap: Gap): nat {
    KeptBytes(c.meter, gap) + c.meter.freedBytes + Weigh(Bytes, c.heap, c.back) + gap.leakedBytes
  }

  // ------------------------------------------------------------------------- any event

  lemma CollectionCounts(w: World, ev: Event, gap: Gap)
    requires WorldOk(w) && Allowed(w, ev) && Ready(w, ev) && IsCollection(ev)
    requires Counted(w.cx, gap)
    ensures Counted(After(w, ev).cx, GapAfter(w, ev, gap))
  {
    match ev {
      case WakeUp => NothingIsMarked(w.cx);
      case MarkStep(outcome) => MarkOneCounts(w.cx, w.root, outcome, gap);
      case BeginSweep => StartSweepCounts(w.cx, gap);
      case SweepStep(panics) => SweepOneCounts(w.cx, panics, gap);
      case FinishSweep(_) =>
    }
  }

  /** Nothing that the counters are about has changed. */
  lemma SameCounts(c: Ctx, d: Ctx, gap: Gap)
    requires c.phase == d.phase && c.heap == d.heap && c.front == d.front && c.back == d.back
    requires d.meter == c.meter.(pacing := d.meter.pacing, totalExternal := d.meter.totalExternal,
                                 artificialDebt := d.meter.artificialDebt)
    requires d.meter.artificialDebt >= c.meter.artificialDebt && Counted(c, gap)
    ensures Counted(d, gap)
  {
  }

  lemma ResurrectCounts(c: Ctx, r: Ref, gap: Gap)
    requires c.phase == Mark && Listed(c) && r in c.heap && Counted(c, gap)
    ensures Counted(Resurrect(c, r), gap)
  {
    if IsWhite(c.heap[r].color) {
      DarkenCounts(c, r, Gray, gap);
    }
  }

  /** The mutator's events on boxes. */
  lemma BoxEventCounts(w: World, ev: Event, gap: Gap)
    requires WorldOk(w) && Allowed(w, ev) && Ready(w, ev) && Counted(w.cx, gap)
    requires ev.Alloc? || ev.Resurrection? || ev.CallBarrier? || ev.Write? || ev.Shed?
    ensures Counted(After(w, ev).cx, gap)
  {
    match ev {
      case Alloc(r, needsTrace, size, edges) => AllocateCounts(w.cx, r, needsTrace, size, edges, gap);
      case Resurrection(r) =>
        if w.cx.heap[r].live {
          ResurrectCounts(w.cx, r, gap);
        }
      case CallBarrier(b) => BarrierCounts(w.cx, b, gap);
      case Write(p, edges) => SetEdgesCounts(w.cx, p, edges, gap);
      case Shed(p, edges) => SetEdgesCounts(w.cx, p, edges, gap);
    }
  }

  /** All the other events of the mutator. */
  lemma OtherEventCounts(w: World, ev: Event, gap: Gap)
    requires Allowed(w, ev) && Ready(w, ev) && Counted(w.cx, gap) && !IsCollection(ev)
    requires !(ev.Alloc? || ev.Resurrection? || ev.CallBarrier? || ev.Write? || ev.Shed?)
    ensures Counted(After(w, ev).cx, gap)
  {
    SameCounts(w.cx, After(w, ev).cx, gap);
  }

  lemma StepCounts(w: World, ev: Event, gap: Gap)
    requires WorldOk(w) && Allowed(w, ev) && Ready(w, ev)
    requires Counted(w.cx, gap)
    ensures Counted(After(w, ev).cx, GapAfter(w, ev, gap))
  {
    if IsCollection(ev) {
      CollectionCounts(w, ev, gap);
    } else if ev.Alloc? || ev.Resurrection? || ev.CallBarrier? || ev.Write? || ev.Shed? {
      BoxEventCounts(w, ev, gap);
    } else {
      OtherEventCounts(w, ev, gap);
    }
  }

  lemma NothingIsMarked(c: Ctx)
    requires c.phase == Sleep && Listed(c) && Colored(c)
    ensures Weigh(MarkedBoxes, c.heap, c.List()) == Weigh(MarkedBytes, c.heap, c.List()) == 0
  {
    forall r | r in c.List()
      ensures r in c.heap && c.heap[r].color == White
    {
      OccursList(c, r);
      assert ColorFits(c, r);
    }
    forall g | g == MarkedBoxes || g == MarkedBytes
      ensures Weigh(g, c.heap, c.List()) == 0
    {
      WeighSame(g, c.heap, map[], c.List());
      WeighNothing(g, c.List());
    }
  }

  lemma {:induction false} WeighNothing(g: Gauge, xs: seq<Ref>)
    ensures Weigh(g, map[], xs) == 0
  {
    if xs == [] {
    } else {
      WeighNothing(g, xs[1..]);
    }
  }

  /** No destructor panics up to world `i`. */
  predicate NoDropPanics(evs: seq<Event>, i: nat)
    requires i <= |evs|
  {
    forall k {:trigger evs[k]} | 0 <= k < i :: evs[k] != SweepStep(true)
  }

  /** The gap at world `i` of a run that begins with a gap. */
  function GapFrom(ws: seq<World>, evs: seq<Event>, gap: Gap, i: nat): Gap
    requires IsRun(ws, evs) && i < |ws|
  {
    if i == 0 then gap else GapAfter(ws[i - 1], evs[i - 1], GapFrom(ws, evs, gap, i - 1))
  }

  /** What the counters miss at world `i` of a run. */
  function GapAt(ws: seq<World>, evs: seq<Event>, i: nat): Gap
    requires IsRun(ws, evs) && i < |ws|
  {
    GapFrom(ws, evs, NO_GAP, i)
  }

  lemma {:induction false} RunCountsFrom(ws: seq<World>, evs: seq<Event>, gap: Gap, i: nat)
    requires IsRun(ws, evs) && WorldOk(ws[0]) && Counted(ws[0].cx, gap) && i < |ws|
    ensures Counted(ws[i].cx, GapFrom(ws, evs, gap, i))
  {
    if i == 0 {
    } else {
      RunCountsFrom(ws, evs, gap, i - 1);
      RunKeeps(ws, evs, i - 1);
      StepCounts(ws[i - 1], evs[i - 1], GapFrom(ws, evs, gap, i - 1));
    }
  }

  /** At every point of every run the counters match the heap but for the gap: the totals the list, the
      marked counters the boxes that are not white, and during a sweep the remembered counters and what
      is still to be swept add up to the marked ones. */
  lemma RunCounts(ws: seq<World>, evs: seq<Event>, i: nat)
    requires IsRun(ws, evs) && ws[0] == INITIAL && i < |ws|
    ensures Counted(ws[i].cx, GapAt(ws, evs, i))
  {
    InitialCounts(ws[0]);
    CleanRunCounts(ws, evs, i);
  }

  lemma CleanRunCounts(ws: seq<World>, evs: seq<Event>, i: nat)
    requires IsRun(ws, evs) && WorldOk(ws[0]) && Counted(ws[0].cx, NO_GAP) && i < |ws|
    ensures Counted(ws[i].cx, GapAt(ws, evs, i))
  {
    RunCountsFrom(ws, evs, NO_GAP, i);
  }

  /** As long as no destructor has panicked, there is no gap. */
  lemma {:induction false} CalmRunHasNoGap(ws: seq<World>, evs: seq<Event>, i: nat)
    requires IsRun(ws, evs) && i < |ws| && NoDropPanics(evs, i)
    ensures GapAt(ws, evs, i) == NO_GAP
  {
    if i == 0 {
    } else {
      CalmRunHasNoGap(ws, evs, i - 1);
      assert evs[i - 1] != SweepStep(true);
    }
  }

  lemma InitialCounts(w: World)
    requires w == INITIAL
    ensures WorldOk(w) && Counted(w.cx, NO_GAP)
  {
    InitialOk();
    assert EMPTY.List() == [];
  }

  /** Through a sweep that begins at step `s`, the bytes kept, the bytes freed, the bytes still to be swept
      and the bytes leaked add up to the total at its beginning. */
  lemma SweepConservesBytes(ws: seq<World>, evs: seq<Event>, s: nat, j: nat)
    requires IsRun(ws, evs) && ws[0] == INITIAL && s < j < |ws|
    requires evs[s].BeginSweep? && forall k {:trigger evs[k]} | s < k < j :: !evs[k].FinishSweep?
    ensures Conserves(ws[j].cx, GapAt(ws, evs, j), ws[s].cx.meter.totalGcBytes)
  {
    SweepBegins(ws, evs, s, s + 1);
    SweepIsSteady(ws, evs, s + 1, j, ws[s].cx.meter.totalGcBytes);
  }

  predicate Conserves(c: Ctx, gap: Gap, total: int) {
    c.phase == Sweep && SweptTotal(c, gap) == total
  }

  lemma {:induction false} SweepIsSteady(ws: seq<World>, evs: seq<Event>, i: nat, j: nat, total: int)
    requires IsRun(ws, evs) && ws[0] == INITIAL && i <= j < |ws|
    requires forall k {:trigger evs[k]} | i <= k < j :: !evs[k].FinishSweep?
    requires Conserves(ws[i].cx, GapAt(ws, evs, i), total)
    ensures Conserves(ws[j].cx, GapAt(ws, evs, j), total)
  {
    if i == j {
    } else {
      SweepIsSteady(ws, evs, i, j - 1, total);
      SweepGoesOn(ws, evs, j - 1, j, total);
    }
  }

  lemma SweepBegins(ws: seq<World>, evs: seq<Event>, i: nat, j: nat)
    requires IsRun(ws, evs) && ws[0] == INITIAL && i < |evs| && evs[i].BeginSweep? && j == i + 1
    ensures Conserves(ws[j].cx, GapAt(ws, evs, j), ws[i].cx.meter.totalGcBytes)
  {
    RunIsCounted(ws, evs, i);
    BeginSweepTotals(ws[i], GapAt(ws, evs, i));
  }

  lemma SweepGoesOn(ws: seq<World>, evs: seq<Event>, i: nat, j: nat, total: int)
    requires IsRun(ws, evs) && ws[0] == INITIAL && i < |evs| && j == i + 1
    requires Conserves(ws[i].cx, GapAt(ws, evs, i), total) && !evs[i].FinishSweep?
    ensures Conserves(ws[j].cx, GapAt(ws, evs, j), total)
  {
    RunIsCounted(ws, evs, i);
    StepInSweep(ws[i], evs[i], GapAt(ws, evs, i));
  }

  lemma RunIsCounted(ws: seq<World>, evs: seq<Event>, i: nat)
    requires IsRun(ws, evs) && ws[0] == INITIAL && i < |ws|
    ensures WorldOk(ws[i]) && Counted(ws[i].cx, GapAt(ws, evs, i))
  {
    InitialOk();
    RunKeeps(ws, evs, i);
    RunCounts(ws, evs, i);
  }

  lemma BeginSweepTotals(w: World, gap: Gap)
    requires WorldOk(w) && Allowed(w, BeginSweep) && Ready(w, BeginSweep) && Counted(w.cx, gap)
    ensures var c := After(w, BeginSweep).cx; c.phase == Sweep && SweptTotal(c, gap) == w.cx.meter.totalGcBytes
  {
    StartSweepCounts(w.cx, gap);
  }

  lemma StepInSweep(w: World, ev: Event, gap: Gap)
    requires WorldOk(w) && Allowed(w, ev) && Ready(w, ev) && Counted(w.cx, gap)
    requires w.cx.phase == Sweep && !ev.FinishSweep?
    ensures After(w, ev).cx.phase == Sweep
    ensures SweptTotal(After(w, ev).cx, GapAfter(w, ev, gap)) == SweptTotal(w.cx, gap)
  {
    match ev {
      case Alloc(r, needsTrace, size, edges) =>
        AllocateLists(w.cx, r, needsTrace, size, edges);
        WeighSame(Bytes, w.cx.heap, After(w, ev).cx.heap, w.cx.back);
      case Write(p, edges) => WeighSame(Bytes, w.cx.heap, After(w, ev).cx.heap, w.cx.back);
      case Shed(p, edges) => WeighSame(Bytes, w.cx.heap, After(w, ev).cx.heap, w.cx.back);
      case SweepStep(panics) => SweepOneConserves(w.cx, panics, gap);
      case _ =>
    }
  }

  /** At the end of a sweep, what it has remembered is what was marked, in count and in bytes, but for what
      it has skipped. */
  lemma SweepRemembersTheMarked(ws: seq<World>, evs: seq<Event>, i: nat)
    requires IsRun(ws, evs) && ws[0] == INITIAL && i < |ws|
    requires ws[i].cx.phase == Sweep && ws[i].cx.back == []
    ensures ws[i].cx.meter.rememberedGcs + GapAt(ws, evs, i).skippedGcs == ws[i].cx.meter.markedGcs
    ensures ws[i].cx.meter.rememberedBytes + GapAt(ws, evs, i).skippedBytes == ws[i].cx.meter.markedBytes
  {
    RunCounts(ws, evs, i);
  }
}
