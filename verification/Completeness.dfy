/** What is inaccessible when a cycle begins is gone when the cycle ends, whatever the mutator does
    in between. */
module Completeness {
  import opened Types
  import opened Collector
  import opened Invariant
  import opened Marking
  import opened Runs
  import opened Safety
  import opened Survival
  import Sweeping

  predicate PointsTo(edges: set<Edge>, r: Ref) {
    Strong(r) in edges || Weak(r) in edges
  }

  /** `p` follows pointers of either kind out of `from`, through boxes whose values are live. */
  predicate IsTrail(heap: map<Ref, Box>, from: set<Edge>, p: seq<Ref>) {
    && p != []
    && PointsTo(from, p[0])
    && forall i | 0 <= i < |p| - 1 :: p[i] in heap && heap[p[i]].live && PointsTo(EdgeSet(heap[p[i]].edges), p[i + 1])
  }

  ghost predicate Accessible(heap: map<Ref, Box>, from: set<Edge>, r: Ref) {
    exists p :: IsTrail(heap, from, p) && p[|p| - 1] == r
  }

  predicate Avoids(edges: seq<Edge>, lost: set<Ref>) {
    forall e {:trigger e in edges} | e in edges :: e.to !in lost
  }

  /** Nothing outside `lost` points into it, and what is left of it is white and still to be swept. */
  predicate Isolated(w: World, lost: set<Ref>) {
    && lost <= w.cx.past.born
    && Avoids(w.root, lost)
    && (forall e {:trigger e in w.held} | e in w.held :: e.to !in lost)
    && (forall r {:trigger Avoids(w.cx.heap[r].edges, lost)} | r in w.cx.heap && r !in lost && w.cx.heap[r].live ::
          Avoids(w.cx.heap[r].edges, lost))
    && (forall r {:trigger r in lost} | r in lost && r in w.cx.heap :: Untouched(w.cx, r))
  }

  predicate Untouched(c: Ctx, r: Ref)
    requires r in c.heap
  {
    c.heap[r].color == White && (c.phase == Mark || (c.phase == Sweep && r in c.back))
  }

  lemma TraceEdgesAvoid(c: Ctx, all: seq<Edge>, edges: seq<Edge>, lost: set<Ref>)
    requires Present(c, edges) && edges <= all && Avoids(all, lost)
    ensures SameShape(c, TraceEdges(c, edges))
    ensures forall r | r in c.heap && r in lost :: TraceEdges(c, edges).heap[r] == c.heap[r]
  {
    TraceEdgesShape(c, edges);
    assert all == edges + all[|edges|..];
    forall r | r in c.heap && r in lost
      ensures !IsTarget(edges, r)
    {
      assert Strong(r) !in all && Weak(r) !in all;
    }
  }

  /** A gray box is not lost, so nothing that it points to is. */
  lemma GrayAvoids(w: World, g: Ref, lost: set<Ref>)
    requires WorldOk(w) && w.cx.phase == Mark && Isolated(w, lost) && NextGray(w.cx) == Some(g)
    ensures g in w.cx.heap && g !in lost && Avoids(w.cx.heap[g].edges, lost)
  {
    PopKeepsQueued(w.cx, g);
    assert ColorFits(w.cx, g);
    assert g in lost ==> Untouched(w.cx, g);
  }

  /** Tracing a box recolours other boxes than the lost ones. */
  lemma MarkBoxSpares(c: Ctx, root: seq<Edge>, g: Ref, outcome: Outcome, lost: set<Ref>)
    requires MarkReady(c, root) && NextGray(c) == Some(g) && g !in lost && Avoids(c.heap[g].edges, lost)
    ensures var d := MarkOne(c, root, outcome);
            && d.phase == c.phase && d.past == c.past && d.heap.Keys == c.heap.Keys
            && (forall r | r in c.heap :: d.heap[r] == c.heap[r].(color := d.heap[r].color))
            && (forall r | r in c.heap && r in lost :: d.heap[r] == c.heap[r])
  {
    TraceEdgesAvoid(StartTrace(c), c.heap[g].edges, Reported(c.heap[g].edges, outcome), lost);
  }

  lemma MarkBoxIsolates(w: World, g: Ref, outcome: Outcome, lost: set<Ref>)
    requires WorldOk(w) && w.cx.phase == Mark && Isolated(w, lost)
    requires MarkReady(w.cx, w.root) && NextGray(w.cx) == Some(g)
    ensures Isolated(w.(cx := MarkOne(w.cx, w.root, outcome)), lost)
  {
    GrayAvoids(w, g, lost);
    MarkBoxSpares(w.cx, w.root, g, outcome, lost);
    SameButColor(w, w.(cx := MarkOne(w.cx, w.root, outcome)), lost);
  }

  lemma MarkOneIsolates(w: World, outcome: Outcome, lost: set<Ref>)
    requires WorldOk(w) && Allowed(w, MarkStep(outcome)) && Ready(w, MarkStep(outcome)) && Isolated(w, lost)
    ensures Isolated(w.(cx := MarkOne(w.cx, w.root, outcome)), lost)
  {
    match NextGray(w.cx) {
      case Some(g) => MarkBoxIsolates(w, g, outcome, lost);
      case None =>
        TraceEdgesAvoid(w.cx, w.root, Reported(w.root, outcome), lost);
        SameButColor(w, w.(cx := MarkOne(w.cx, w.root, outcome)), lost);
    }
  }

  lemma SameButColor(w: World, v: World, lost: set<Ref>)
    requires Isolated(w, lost) && w.root == v.root && w.held == v.held
    requires w.cx.phase == v.cx.phase == Mark && w.cx.past == v.cx.past && w.cx.heap.Keys == v.cx.heap.Keys
    requires forall r | r in w.cx.heap :: v.cx.heap[r] == w.cx.heap[r].(color := v.cx.heap[r].color)
    requires forall r | r in w.cx.heap && r in lost :: v.cx.heap[r] == w.cx.heap[r]
    ensures Isolated(v, lost)
  {
    forall r | r in v.cx.heap && r !in lost && v.cx.heap[r].live
      ensures Avoids(v.cx.heap[r].edges, lost)
    {
      assert Avoids(w.cx.heap[r].edges, lost);
    }
  }

  lemma BarrierIsolates(w: World, b: Barrier, lost: set<Ref>)
    requires Isolated(w, lost) && BarrierHeld(w.held, b) && BarrierReady(w.cx, b)
    ensures Isolated(w.(cx := RunBarrier(w.cx, b), permits := Grant(w.permits, b)), lost)
  {
    var v := w.(cx := RunBarrier(w.cx, b), permits := Grant(w.permits, b));
    if v.cx != w.cx {
      SameButColor(w, v, lost);
    } else {
      assert forall r | r in w.cx.heap && r !in lost && w.cx.heap[r].live :: Avoids(w.cx.heap[r].edges, lost);
    }
  }

  lemma SetEdgesIsolates(w: World, p: Ref, edges: seq<Edge>, lost: set<Ref>)
    requires Isolated(w, lost) && p in w.cx.heap && w.cx.heap[p].live
    requires forall e | e in edges :: e in w.cx.heap[p].edges || e in w.held
    ensures Isolated(w.(cx := SetEdges(w.cx, p, edges)), lost)
  {
    var d := SetEdges(w.cx, p, edges);
    forall r | r in d.heap && r !in lost && d.heap[r].live
      ensures Avoids(d.heap[r].edges, lost)
    {
      assert Avoids(w.cx.heap[r].edges, lost);
    }
  }

  lemma SweepOneIsolates(w: World, panics: bool, lost: set<Ref>)
    requires w.cx.phase == Sweep && SweepReady(w.cx) && Isolated(w, lost)
    ensures Isolated(w.(cx := SweepOne(w.cx, panics)), lost)
  {
    var c := w.cx;
    var d := SweepOne(c, panics);
    assert c.back == [c.back[0]] + d.back;
    forall r | r in d.heap && r !in lost && d.heap[r].live
      ensures Avoids(d.heap[r].edges, lost)
    {
      assert Avoids(c.heap[r].edges, lost);
    }
  }

  lemma BeginSweepIsolates(w: World, lost: set<Ref>)
    requires Listed(w.cx) && w.cx.phase == Mark && Isolated(w, lost)
    ensures Isolated(w.(cx := StartSweep(w.cx)), lost)
  {
    var d := StartSweep(w.cx);
    forall r | r in lost && r in d.heap
      ensures Untouched(d, r)
    {
      assert Untouched(w.cx, r);
      Sweeping.OccursList(w.cx, r);
    }
    forall r | r in d.heap && r !in lost && d.heap[r].live
      ensures Avoids(d.heap[r].edges, lost)
    {
      assert Avoids(w.cx.heap[r].edges, lost);
    }
  }

  lemma CollectionIsolates(w: World, ev: Event, lost: set<Ref>)
    requires WorldOk(w) && Allowed(w, ev) && Ready(w, ev)
    requires Isolated(w, lost) && IsCollection(ev) && !ev.WakeUp?
    ensures Isolated(After(w, ev), lost)
  {
    match ev {
      case MarkStep(outcome) => MarkOneIsolates(w, outcome, lost);
      case BeginSweep => BeginSweepIsolates(w, lost);
      case SweepStep(panics) => SweepOneIsolates(w, panics, lost);
      case FinishSweep(_) =>
        forall r | r in w.cx.heap && r !in lost && w.cx.heap[r].live
          ensures Avoids(w.cx.heap[r].edges, lost)
        {
        }
    }
  }

  lemma ResurrectIsolates(w: World, r: Ref, lost: set<Ref>)
    requires Isolated(w, lost) && w.cx.phase == Mark && r in w.cx.heap && r !in lost
    ensures Isolated(w.(cx := Resurrect(w.cx, r), held := w.held + {Strong(r)}), lost)
  {
    SameButColor(w, w.(cx := Resurrect(w.cx, r)), lost);
  }

  lemma StepIsolates(w: World, ev: Event, lost: set<Ref>)
    requires WorldOk(w) && Allowed(w, ev) && Ready(w, ev)
    requires Isolated(w, lost) && !ev.WakeUp?
    ensures Isolated(After(w, ev), lost)
  {
    if IsCollection(ev) {
      CollectionIsolates(w, ev, lost);
    } else {
      match ev {
        case Alloc(r, needsTrace, size, edges) => AllocIsolates(w, r, needsTrace, size, edges, lost);
        case Read(from, e) => assert Avoids(w.cx.heap[from].edges, lost);
        case CallBarrier(b) => BarrierIsolates(w, b, lost);
        case Write(p, edges) => SetEdgesIsolates(w, p, edges, lost);
        case Shed(p, edges) => SetEdgesIsolates(w, p, edges, lost);
        case Resurrection(r) => ResurrectIsolates(w, r, lost);
        case _ =>
      }
    }
  }

  lemma AllocIsolates(w: World, r: Ref, needsTrace: bool, size: nat, edges: seq<Edge>, lost: set<Ref>)
    requires Isolated(w, lost) && r !in w.cx.past.born && forall e | e in edges :: e in w.held
    ensures Isolated(w.(cx := Allocate(w.cx, r, needsTrace, size, edges), held := w.held + {Strong(r)}), lost)
  {
    var d := Allocate(w.cx, r, needsTrace, size, edges);
    forall q | q in d.heap && q !in lost && d.heap[q].live
      ensures Avoids(d.heap[q].edges, lost)
    {
      if q != r {
        assert Avoids(w.cx.heap[q].edges, lost);
      }
    }
  }

  lemma {:induction false} RunIsolates(ws: seq<World>, evs: seq<Event>, i: nat, j: nat, lost: set<Ref>)
    requires IsRun(ws, evs) && ws[0] == INITIAL && i <= j < |ws|
    requires WithinCycle(evs, i, j) && Isolated(ws[i], lost)
    ensures Isolated(ws[j], lost)
  {
    if i == j {
    } else {
      RunIsolates(ws, evs, i, j - 1, lost);
      InitialOk();
      RunKeeps(ws, evs, j - 1);
      StepIsolates(ws[j - 1], evs[j - 1], lost);
    }
  }

  ghost function Inaccessible(w: World): set<Ref> {
    set r | r in w.cx.heap && !Accessible(w.cx.heap, EdgeSet(w.root), r)
  }

  /** The targets of an accessible live box, and of the root, are accessible. */
  lemma AccessibleIsClosed(heap: map<Ref, Box>, from: set<Edge>, r: Ref, e: Edge)
    requires e in from || (Accessible(heap, from, r) && r in heap && heap[r].live && e in heap[r].edges)
    ensures Accessible(heap, from, e.to)
  {
    if e in from {
      assert IsTrail(heap, from, [e.to]);
    } else {
      var p :| IsTrail(heap, from, p) && p[|p| - 1] == r;
      assert e in EdgeSet(heap[r].edges);
      assert IsTrail(heap, from, p + [e.to]);
    }
  }

  lemma WakeIsolates(w: World)
    requires WorldOk(w) && Allowed(w, WakeUp)
    ensures Isolated(After(w, WakeUp), Inaccessible(w))
  {
    var lost := Inaccessible(w);
    var from := EdgeSet(w.root);
    var v := After(w, WakeUp);
    forall e | e in w.root
      ensures e.to !in lost
    {
      AccessibleIsClosed(w.cx.heap, from, e.to, e);
    }
    forall r, e | r in w.cx.heap && r !in lost && w.cx.heap[r].live && e in w.cx.heap[r].edges
      ensures e.to !in lost
    {
      AccessibleIsClosed(w.cx.heap, from, r, e);
    }
    forall r | r in v.cx.heap && r !in lost && v.cx.heap[r].live
      ensures Avoids(v.cx.heap[r].edges, lost)
    {
    }
    forall r | r in lost
      ensures Untouched(v.cx, r)
    {
      assert ColorFits(w.cx, r);
    }
  }

  /** A box that cannot be found from the root through live boxes, by pointers of either kind, when
      the collector wakes has been removed from the heap once the collector sleeps again. */
  lemma InaccessibleIsRemoved(ws: seq<World>, evs: seq<Event>, i: nat, j: nat, r: Ref)
    requires IsRun(ws, evs) && ws[0] == INITIAL && i < j < |ws|
    requires evs[i].WakeUp? && WithinCycle(evs, i + 1, j) && ws[j].cx.phase == Sleep
    requires r in ws[i].cx.heap && !Accessible(ws[i].cx.heap, EdgeSet(ws[i].root), r)
    ensures r !in ws[j].cx.heap
  {
    InitialOk();
    RunKeeps(ws, evs, i);
    WakeIsolates(ws[i]);
    var lost := Inaccessible(ws[i]);
    RunIsolates(ws, evs, i + 1, j, lost);
    assert r in lost;
  }
}
