/** The traced counters are decremented without a check when a backward barrier fires. They stay
    natural as long as none fires on a parent that needs no tracing, and not otherwise. */
module Untracing {
  import opened Types
  import opened Metering
  import opened Collector
  import opened Invariant
  import opened Marking
  import opened Sweeping
  import opened Gauges
  import opened Runs
  import opened Safety
  import opened Accounts

  // ------------------------------------------------------------------------ call sites

  /** What a backward barrier may be told about the child: nothing, or a pointer to a box of some
      colour. */
  datatype Child = AnyChild | StrongChild(color: Color) | WeakChild(color: Color)

  /** All that a call of a backward barrier depends on, and whether the parent needs tracing. */
  datatype Site = Site(phase: Phase, parent: Color, child: Child, needsTrace: bool)

  predicate IsBackward(b: Barrier) {
    b.Backward? || b.BackwardWeak?
  }

  function SiteOf(c: Ctx, b: Barrier): Site
    requires IsBackward(b) && BarrierReady(c, b)
  {
    var child := match b
      case Backward(_, None) => AnyChild
      case Backward(_, Some(r)) => StrongChild(c.heap[r].color)
      case BackwardWeak(_, r) => WeakChild(c.heap[r].color);
    Site(c.phase, c.heap[b.parent].color, child, c.heap[b.parent].needsTrace)
  }

  /** The barrier fires. */
  predicate Fires(site: Site) {
    && site.phase == Mark && site.parent == Black
    && match site.child
       case AnyChild => true
       case StrongChild(color) => IsWhite(color)
       case WeakChild(color) => color == White
  }

  /** The condition of the two backward barriers, which decides whether the parent becomes gray again. */
  lemma FiringIsExact(c: Ctx, b: Barrier)
    requires IsBackward(b) && BarrierReady(c, b)
    ensures RunBarrier(c, b) == if Fires(SiteOf(c, b)) then MakeGrayAgain(c, b.parent) else c
  {
  }

  predicate FiresOnLeaf(site: Site) {
    Fires(site) && !site.needsTrace
  }

  predicate LeafFires(w: World, ev: Event) {
    ev.CallBarrier? && IsBackward(ev.barrier) && BarrierReady(w.cx, ev.barrier) && FiresOnLeaf(SiteOf(w.cx, ev.barrier))
  }

  // --------------------------------------------------------------- runs that stay natural

  /** The traced counters cover every black box that needs tracing. */
  predicate TracedCovers(c: Ctx) {
    && c.meter.tracedGcs >= 0 && c.meter.tracedBytes >= 0
    && (c.phase == Mark ==>
          && c.meter.tracedGcs >= Weigh(TracedBoxes, c.heap, c.List())
          && c.meter.tracedBytes >= Weigh(Gauge.TracedBytes, c.heap, c.List()))
  }

  /** The traced counters are the same, and so are the black boxes that need tracing. */
  predicate SameTraced(c: Ctx, d: Ctx) {
    && c.phase == d.phase && c.List() == d.List() && c.heap.Keys == d.heap.Keys
    && c.meter.tracedGcs == d.meter.tracedGcs && c.meter.tracedBytes == d.meter.tracedBytes
    && forall r {:trigger d.heap[r]} | r in c.heap ::
         && d.heap[r].size == c.heap[r].size && d.heap[r].needsTrace == c.heap[r].needsTrace
         && (c.heap[r].needsTrace ==> (d.heap[r].color == Black <==> c.heap[r].color == Black))
  }

  lemma SameTracedCovers(c: Ctx, d: Ctx)
    requires SameTraced(c, d) && TracedCovers(c)
    ensures TracedCovers(d)
  {
    forall g | g == TracedBoxes || g == Gauge.TracedBytes
      ensures Weigh(g, d.heap, c.List()) == Weigh(g, c.heap, c.List())
    {
      WeighSame(g, d.heap, c.heap, c.List());
    }
  }

  /** Tracing blackens directly only what needs no tracing. */
  lemma TraceEdgeSame(c: Ctx, e: Edge)
    requires e.to in c.heap
    ensures SameTraced(c, TraceEdge(c, e))
  {
  }

  lemma SameTracedTwice(c: Ctx, d: Ctx, e: Ctx)
    requires SameTraced(c, d) && SameTraced(d, e)
    ensures SameTraced(c, e)
  {
  }

  lemma {:induction false} TraceEdgesSame(c: Ctx, edges: seq<Edge>)
    requires Present(c, edges)
    ensures SameTraced(c, TraceEdges(c, edges))
  {
    if edges == [] {
    } else {
      var init := TraceEdges(c, edges[..|edges| - 1]);
      TraceEdgesSame(c, edges[..|edges| - 1]);
      TraceEdgeSame(init, edges[|edges| - 1]);
      SameTracedTwice(c, init, TraceEdges(c, edges));
    }
  }

  lemma MakeGrayAgainCovers(c: Ctx, r: Ref)
    requires c.phase == Mark && Listed(c) && TracedCovers(c)
    requires r in c.heap && c.heap[r].color == Black && c.heap[r].needsTrace
    ensures TracedCovers(MakeGrayAgain(c, r))
  {
    OccursList(c, r);
    Reweigh(c.heap, c.List(), r, c.heap[r].(color := Gray));
  }

  /** A box taken off a queue is counted. */
  lemma StartTraceCovers(c: Ctx, r: Ref)
    requires c.phase == Mark && Listed(c) && Queued(c) && NextGray(c) == Some(r) && TracedCovers(c)
    ensures r in c.heap
    ensures var d := StartTrace(c); TracedCovers(d) && Listed(d)
  {
    PopKeepsQueued(c, r);
    OccursList(c, r);
    Reweigh(c.heap, c.List(), r, c.heap[r].(color := Black));
  }

  /** If its `trace` panics, the count is taken back. */
  lemma PanicSame(c: Ctx, r: Ref, edges: seq<Edge>)
    requires NextGray(c) == Some(r) && r in c.heap && c.heap[r].color == Gray && Present(StartTrace(c), edges)
    ensures SameTraced(c, MakeGrayAgain(TraceEdges(StartTrace(c), edges), r))
  {
    var begun := StartTrace(c);
    TraceEdgesSame(begun, edges);
    var traced := TraceEdges(begun, edges);
    assert traced.heap[r].size == begun.heap[r].size == c.heap[r].size;
    assert traced.meter.tracedBytes == c.meter.tracedBytes + c.heap[r].size;
  }

  lemma MarkOneCovers(c: Ctx, root: seq<Edge>, outcome: Outcome)
    requires c.phase == Mark && CtxOk(c, root) && TracedCovers(c)
    requires !MarkDone(c) && MarkReady(c, root)
    ensures TracedCovers(MarkOne(c, root, outcome))
  {
    match NextGray(c) {
      case Some(r) =>
        var es := Reported(c.heap[r].edges, outcome);
        if outcome.Panics? {
          PopKeepsQueued(c, r);
          PanicSame(c, r, es);
          SameTracedCovers(c, MarkOne(c, root, outcome));
        } else {
          StartTraceCovers(c, r);
          TraceEdgesSame(StartTrace(c), es);
          SameTracedCovers(StartTrace(c), TraceEdges(StartTrace(c), es));
        }
      case None =>
        TraceEdgesSame(c, Reported(root, outcome));
        SameTracedCovers(c, TraceEdges(c, Reported(root, outcome)));
    }
  }

  lemma BarrierCovers(c: Ctx, b: Barrier)
    requires Listed(c) && BarrierReady(c, b) && TracedCovers(c)
    requires IsBackward(b) ==> !FiresOnLeaf(SiteOf(c, b))
    ensures TracedCovers(RunBarrier(c, b))
  {
    if RunBarrier(c, b) != c {
      match b {
        case Backward(p, _) => MakeGrayAgainCovers(c, p);
        case BackwardWeak(p, _) => MakeGrayAgainCovers(c, p);
        case Forward(_, child) =>
          TraceEdgeSame(c, Strong(child));
          SameTracedCovers(c, RunBarrier(c, b));
        case ForwardWeak(_, child) =>
          TraceEdgeSame(c, Weak(child));
          SameTracedCovers(c, RunBarrier(c, b));
      }
    }
  }

  lemma WakeCovers(c: Ctx)
    requires c.phase == Sleep && Listed(c) && Colored(c) && TracedCovers(c)
    ensures TracedCovers(Wake(c))
  {
    forall r | r in c.List()
      ensures r in c.heap && c.heap[r].color == White
    {
      OccursList(c, r);
      assert ColorFits(c, r);
    }
    forall g | g == TracedBoxes || g == Gauge.TracedBytes
      ensures Weigh(g, c.heap, c.List()) == 0
    {
      WeighSame(g, c.heap, map[], c.List());
      WeighNothing(g, c.List());
    }
  }

  lemma AllocateCovers(c: Ctx, r: Ref, needsTrace: bool, size: nat, edges: seq<Edge>)
    requires Listed(c) && r !in c.past.born && TracedCovers(c)
    ensures TracedCovers(Allocate(c, r, needsTrace, size, edges))
  {
    var d := Allocate(c, r, needsTrace, size, edges);
    assert d.List() == [r] + c.List() && d.List()[1..] == c.List();
    forall q
      ensures q in c.List() <==> q in c.heap
    {
      OccursList(c, q);
    }
    forall g | g == TracedBoxes || g == Gauge.TracedBytes
      ensures Weigh(g, d.heap, d.List()) == Weigh(g, c.heap, c.List())
    {
      WeighSame(g, c.heap, d.heap, c.List());
    }
  }

  lemma SetEdgesCovers(c: Ctx, p: Ref, edges: seq<Edge>)
    requires p in c.heap && TracedCovers(c)
    ensures TracedCovers(SetEdges(c, p, edges))
  {
    WeighSame(TracedBoxes, c.heap, SetEdges(c, p, edges).heap, c.List());
    WeighSame(Gauge.TracedBytes, c.heap, SetEdges(c, p, edges).heap, c.List());
  }

  lemma ResurrectCovers(c: Ctx, r: Ref)
    requires r in c.heap && TracedCovers(c)
    ensures TracedCovers(Resurrect(c, r))
  {
    WeighSame(TracedBoxes, c.heap, Resurrect(c, r).heap, c.List());
    WeighSame(Gauge.TracedBytes, c.heap, Resurrect(c, r).heap, c.List());
  }

  lemma StepCovers(w: World, ev: Event)
    requires WorldOk(w) && Allowed(w, ev) && Ready(w, ev)
    requires TracedCovers(w.cx) && !LeafFires(w, ev)
    ensures TracedCovers(After(w, ev).cx)
  {
    match ev {
      case Alloc(r, needsTrace, size, edges) => AllocateCovers(w.cx, r, needsTrace, size, edges);
      case Resurrection(r) => ResurrectCovers(w.cx, r);
      case CallBarrier(b) => BarrierCovers(w.cx, b);
      case Write(p, edges) => SetEdgesCovers(w.cx, p, edges);
      case Shed(p, edges) => SetEdgesCovers(w.cx, p, edges);
      case WakeUp => WakeCovers(w.cx);
      case MarkStep(outcome) => MarkOneCovers(w.cx, w.root, outcome);
      case _ =>
    }
  }

  /** The traced counters never underflow in a run in which no backward barrier fires on a leaf. */
  lemma {:induction false} TracedStaysNatural(ws: seq<World>, evs: seq<Event>, i: nat)
    requires IsRun(ws, evs) && ws[0] == INITIAL && i < |ws|
    requires forall k {:trigger LeafFires(ws[k], evs[k])} | 0 <= k < i :: !LeafFires(ws[k], evs[k])
    ensures TracedCovers(ws[i].cx)
  {
    if i > 0 {
      TracedStaysNatural(ws, evs, i - 1);
      InitialOk();
      RunKeeps(ws, evs, i - 1);
      assert !LeafFires(ws[i - 1], evs[i - 1]);
      StepCovers(ws[i - 1], evs[i - 1]);
    } else {
      assert TracedCovers(EMPTY);
    }
  }

  // -------------------------------------------------------------- runs that underflow

  predicate Natural(m: Meter) {
    m.tracedGcs >= 0 && m.tracedBytes >= 0
  }

  /** Every backward barrier of the run is called at one of the `sites`. */
  predicate CalledAt(w: World, ev: Event, sites: set<Site>) {
    ev.CallBarrier? && IsBackward(ev.barrier) ==> BarrierReady(w.cx, ev.barrier) && SiteOf(w.cx, ev.barrier) in sites
  }

  predicate CalledOnlyAt(ws: seq<World>, evs: seq<Event>, sites: set<Site>)
    requires |ws| == |evs| + 1
  {
    forall k {:trigger evs[k]} | 0 <= k < |evs| :: CalledAt(ws[k], evs[k], sites)
  }

  /** However a program runs that calls backward barriers only at the `sites`, the traced counters
      stay natural. */
  ghost predicate NeverUnderflows(sites: set<Site>) {
    forall ws: seq<World>, evs: seq<Event> {:trigger CalledOnlyAt(ws, evs, sites)} |
      IsRun(ws, evs) && ws[0] == INITIAL && CalledOnlyAt(ws, evs, sites) :: Natural(ws[|evs|].cx.meter)
  }

  /** A run that ends in `w`. */
  ghost predicate Reached(w: World, sites: set<Site>) {
    exists ws: seq<World>, evs: seq<Event> {:trigger CalledOnlyAt(ws, evs, sites)} ::
      IsRun(ws, evs) && ws[0] == INITIAL && CalledOnlyAt(ws, evs, sites) && ws[|evs|] == w
  }

  lemma InitialReached(sites: set<Site>)
    ensures Reached(INITIAL, sites)
  {
    assert IsRun([INITIAL], []) && CalledOnlyAt([INITIAL], [], sites);
  }

  /** Makes a run one event longer. */
  lemma Extend(w: World, ev: Event, sites: set<Site>) returns (v: World)
    requires Reached(w, sites) && Allowed(w, ev) && Ready(w, ev) && CalledAt(w, ev, sites)
    ensures v == After(w, ev) && Reached(v, sites)
  {
    v := After(w, ev);
    var ws: seq<World>, evs: seq<Event> :|
      IsRun(ws, evs) && ws[0] == INITIAL && CalledOnlyAt(ws, evs, sites) && ws[|evs|] == w;
    RunSnoc(ws, evs, ev);
    var vs, fs := ws + [v], evs + [ev];
    forall k | 0 <= k < |fs|
      ensures CalledAt(vs[k], fs[k], sites)
    {
      assert k < |evs| ==> CalledAt(ws[k], evs[k], sites);
    }
    assert CalledOnlyAt(vs, fs, sites);
  }

  /** An arena with one box, which needs no tracing, before and after marking has come to it. */
  function WhiteLeaf(size: nat): World {
    World(EMPTY.(phase := Mark, heap := map[0 := Box(White, true, false, size, [])], front := [0],
                 meter := Allocated(ZERO, size), past := History({0}, [], [])),
          [Strong(0)], {}, false, NOTHING)
  }

  function BlackLeaf(size: nat): World {
    var w := WhiteLeaf(size);
    w.(cx := w.cx.(heap := map[0 := Box(Black, true, false, size, [])], rootNeedsTrace := false,
                   meter := Marked(w.cx.meter, size)))
  }

  lemma LeafTurnsBlack(size: nat)
    ensures var w, ev := WhiteLeaf(size), MarkStep(Returns);
            Allowed(w, ev) && Ready(w, ev) && After(w, ev) == BlackLeaf(size)
  {
    var c := WhiteLeaf(size).cx;
    assert TraceEdges(c, []) == c;
    assert TraceEdges(c, [Strong(0)]) == Recolor(CountMark(c, 0), 0, Black);
  }

  lemma WhiteLeafReached(size: nat, sites: set<Site>)
    ensures Reached(WhiteLeaf(size), sites)
  {
    InitialReached(sites);
    var w := Extend(INITIAL, Alloc(0, false, size, []), sites);
    w := Extend(w, WriteRoot([Strong(0)]), sites);
    w := Extend(w, EndCallback, sites);
    w := Extend(w, WakeUp, sites);
    assert w == WhiteLeaf(size);
  }

  /** A callback that holds the leaf and a new box. */
  function HoldsBoth(size: nat): World {
    var w := BlackLeaf(size).(held := {Strong(0)});
    w.(cx := Allocate(w.cx, 1, false, 0, []), held := {Strong(0), Strong(1)})
  }

  lemma HoldsBothReached(size: nat, sites: set<Site>)
    ensures Reached(HoldsBoth(size), sites)
  {
    WhiteLeafReached(size, sites);
    LeafTurnsBlack(size);
    var w := Extend(WhiteLeaf(size), MarkStep(Returns), sites);
    w := Extend(w, ReadRoot(Strong(0)), sites);
    assert w == BlackLeaf(size).(held := {Strong(0)});
    w := Extend(w, Alloc(1, false, 0, []), sites);
    assert w == HoldsBoth(size);
  }

  /** A backward barrier that fires on the leaf. */
  lemma LastStrike(w: World, b: Barrier, size: nat, site: Site) returns (v: World)
    requires Reached(w, {site}) && w.cx.meter.tracedGcs == 0 && w.cx.meter.tracedBytes == 0
    requires IsBackward(b) && BarrierHeld(w.held, b) && BarrierReady(w.cx, b) && SiteOf(w.cx, b) == site
    requires FiresOnLeaf(site) && w.cx.heap[b.parent].size == size
    ensures Reached(v, {site}) && v.cx.meter.tracedGcs == -1 && v.cx.meter.tracedBytes + size == 0
  {
    v := Extend(w, CallBarrier(b), {site});
  }

  /** For each site at which a backward barrier fires on a leaf there is a run that calls backward
      barriers nowhere else and makes the counters negative. */
  lemma LeafBarrierUnderflows(site: Site, size: nat) returns (v: World)
    requires FiresOnLeaf(site)
    ensures Reached(v, {site}) && v.cx.meter.tracedGcs == -1 && v.cx.meter.tracedBytes + size == 0
  {
    HoldsBothReached(size, {site});
    var w := HoldsBoth(size);
    match site.child {
      case AnyChild => v := LastStrike(w, Backward(0, None), size, site);
      case StrongChild(color) =>
        if color == WhiteWeak {
          w := Extend(w, Downgrade(1), {site});
          w := Extend(w, CallBarrier(ForwardWeak(None, 1)), {site});
        }
        v := LastStrike(w, Backward(0, Some(1)), size, site);
      case WeakChild(_) =>
        w := Extend(w, Downgrade(1), {site});
        v := LastStrike(w, BackwardWeak(0, 1), size, site);
    }
  }

  /** Whatever set of sites backward barriers are restricted to, the traced counters stay natural in
      all runs if and only if at none of these sites the barrier fires on a parent that needs no
      tracing. */
  lemma UnderflowsJustAtFiringLeaves(sites: set<Site>)
    ensures NeverUnderflows(sites) <==> forall site | site in sites :: !FiresOnLeaf(site)
  {
    if site :| site in sites && FiresOnLeaf(site) {
      var v := LeafBarrierUnderflows(site, 1);
      var ws: seq<World>, evs: seq<Event> :|
        IsRun(ws, evs) && ws[0] == INITIAL && CalledOnlyAt(ws, evs, {site}) && ws[|evs|] == v;
      forall k | 0 <= k < |evs|
        ensures CalledAt(ws[k], evs[k], sites)
      {
        assert CalledAt(ws[k], evs[k], {site});
      }
      assert CalledOnlyAt(ws, evs, sites) && !Natural(ws[|evs|].cx.meter);
    } else {
      forall ws: seq<World>, evs: seq<Event> | IsRun(ws, evs) && ws[0] == INITIAL && CalledOnlyAt(ws, evs, sites)
        ensures Natural(ws[|evs|].cx.meter)
      {
        forall k | 0 <= k < |evs|
          ensures !LeafFires(ws[k], evs[k])
        {
          assert CalledAt(ws[k], evs[k], sites);
        }
        TracedStaysNatural(ws, evs, |evs|);
      }
    }
  }
}
