/** Every event keeps the invariant, so no run ever drops or frees what can still be reached. */
module Safety {
  import opened Types
  import opened Collector
  import opened Invariant
  import opened Marking
  import opened Sweeping
  import opened Runs
  import Metering

  // ------------------------------------------------- events that mark or only read

  lemma OnwardKeepsPermits(w: World, d: Ctx)
    requires PermitsOk(w) && (w.cx.phase == Mark ==> Onward(w.cx, d) && BlackensOnlyLeaves(w.cx, d))
    requires w.cx.phase == d.phase
    ensures PermitsOk(w.(cx := d))
  {
    if w.cx.phase == Mark {
      forall e
        ensures MarkedEdge(w.cx, e) ==> MarkedEdge(d, e)
      {
        OnwardKeepsEdges(w.cx, d, e);
      }
    }
  }

  /** A step of the mutator that only darkens boxes, which happens during marking alone. */
  lemma OnwardKeepsWorld(w: World, d: Ctx)
    requires WorldOk(w) && Onward(w.cx, d) && BlackensOnlyLeaves(w.cx, d) && HeapOk(d, {})
    ensures WorldOk(w.(cx := d))
  {
    OnwardKeepsRoot(w.cx, d, w.root);
    OnwardKeepsPermits(w, d);
    forall e | e in w.held
      ensures EdgeOk(d, e)
    {
      OnwardKeepsEdges(w.cx, d, e);
    }
  }

  lemma BarrierIsReady(w: World, b: Barrier)
    requires WorldOk(w) && BarrierHeld(w.held, b)
    ensures BarrierReady(w.cx, b)
  {
    match b {
      case Backward(p, child) =>
        assert EdgeOk(w.cx, Strong(p));
        if child.Some? {
          assert EdgeOk(w.cx, Strong(child.value));
        }
      case BackwardWeak(p, child) => assert EdgeOk(w.cx, Strong(p)) && EdgeOk(w.cx, Weak(child));
      case Forward(p, child) =>
        assert EdgeOk(w.cx, Strong(child));
        if p.Some? {
          assert EdgeOk(w.cx, Strong(p.value));
        }
      case ForwardWeak(p, child) =>
        assert EdgeOk(w.cx, Weak(child));
        if p.Some? {
          assert EdgeOk(w.cx, Strong(p.value));
        }
    }
  }

  /** Outside marking a barrier does nothing; during marking it only darkens. */
  lemma BarrierOnward(w: World, b: Barrier)
    requires WorldOk(w) && BarrierHeld(w.held, b) && BarrierReady(w.cx, b)
    ensures var d := RunBarrier(w.cx, b);
            d == w.cx || (Onward(w.cx, d) && BlackensOnlyLeaves(w.cx, d) && HeapOk(d, {}))
  {
    var c := w.cx;
    var d := RunBarrier(c, b);
    if d != c {
      match b {
        case Backward(p, _) => MakeGrayAgainKeeps(c, p, {}); assert {} - {p} == {};
        case BackwardWeak(p, _) => MakeGrayAgainKeeps(c, p, {}); assert {} - {p} == {};
        case Forward(_, child) =>
          assert EdgeOk(c, Strong(child));
          TraceEdgeKeeps(c, Strong(child), {});
        case ForwardWeak(_, child) =>
          assert EdgeOk(c, Weak(child));
          TraceEdgeKeeps(c, Weak(child), {});
      }
    }
  }

  /** A barrier establishes what it grants. */
  lemma BarrierGrants(w: World, b: Barrier)
    requires WorldOk(w) && BarrierReady(w.cx, b)
    requires PermitsOk(w.(cx := RunBarrier(w.cx, b)))
    ensures PermitsOk(w.(cx := RunBarrier(w.cx, b), permits := Grant(w.permits, b)))
  {
  }

  lemma BarrierKeeps(w: World, b: Barrier)
    requires WorldOk(w) && BarrierHeld(w.held, b) && BarrierReady(w.cx, b)
    ensures WorldOk(w.(cx := RunBarrier(w.cx, b), permits := Grant(w.permits, b)))
  {
    var d := RunBarrier(w.cx, b);
    BarrierOnward(w, b);
    if d != w.cx {
      OnwardKeepsWorld(w, d);
    }
    BarrierGrants(w, b);
  }

  lemma ResurrectKeeps(w: World, r: Ref)
    requires WorldOk(w) && w.cx.phase == Mark && r in w.cx.heap && w.cx.heap[r].live
    ensures WorldOk(w.(cx := Resurrect(w.cx, r), held := w.held + {Strong(r)}))
  {
    var d := Resurrect(w.cx, r);
    if d != w.cx {
      GrayKeeps(w.cx, r, {});
      OnwardKeepsWorld(w, d);
    }
    assert EdgeOk(d, Strong(r));
  }

  // ------------------------------------------------------------- events that write

  lemma AllocKeeps(w: World, r: Ref, needsTrace: bool, size: nat, edges: seq<Edge>)
    requires WorldOk(w) && r !in w.cx.past.born
    requires (forall e | e in edges :: e in w.held) && (needsTrace || edges == [])
    ensures WorldOk(w.(cx := Allocate(w.cx, r, needsTrace, size, edges), held := w.held + {Strong(r)}))
  {
    var c := w.cx;
    var d := Allocate(c, r, needsTrace, size, edges);
    AllocateLists(c, r, needsTrace, size, edges);
    AllocateEdges(c, r, needsTrace, size, edges);
    assert Queued(d);
    forall q | q in d.heap
      ensures ColorFits(d, q)
      ensures Solid(d, q) ==> EdgesOk(d, d.heap[q].edges)
      ensures d.phase == Mark && d.heap[q].color == Black ==> MarkedEdges(d, d.heap[q].edges)
    {
      if q != r {
        assert ColorFits(c, q);
        assert Solid(d, q) ==> Solid(c, q) && EdgesOk(c, c.heap[q].edges);
        assert d.phase == Mark && d.heap[q].color == Black ==> MarkedEdges(c, c.heap[q].edges);
      }
    }
  }

  lemma AllocateLists(c: Ctx, r: Ref, needsTrace: bool, size: nat, edges: seq<Edge>)
    requires Listed(c) && r !in c.past.born
    ensures Listed(Allocate(c, r, needsTrace, size, edges))
    ensures r !in c.heap && r !in c.back
  {
    forall q
      ensures Occurs([r] + c.front, q) == Occurs(c.front, q) + if q == r then 1 else 0
    {
    }
    OccursMember(c.back, r);
    assert Occurs(c.front, r) + Occurs(c.back, r) == 0;
  }

  /** Every pointer that was good or marked is so still. */
  lemma AllocateEdges(c: Ctx, r: Ref, needsTrace: bool, size: nat, edges: seq<Edge>)
    requires Listed(c) && r !in c.past.born
    ensures var d := Allocate(c, r, needsTrace, size, edges);
            (forall e :: EdgeOk(c, e) ==> EdgeOk(d, e)) && (forall e :: MarkedEdge(c, e) ==> MarkedEdge(d, e))
  {
  }

  /** Changing the pointers of one box changes nothing about which pointers are good or marked. */
  lemma SetEdgesKeepsStatus(c: Ctx, p: Ref, edges: seq<Edge>)
    requires p in c.heap
    ensures var d := SetEdges(c, p, edges);
            && (forall e :: EdgeOk(c, e) <==> EdgeOk(d, e))
            && (forall e :: MarkedEdge(c, e) <==> MarkedEdge(d, e))
  {
  }

  lemma SetEdgesKeeps(w: World, p: Ref, edges: seq<Edge>)
    requires WorldOk(w) && p in w.cx.heap && w.cx.heap[p].live
    requires w.cx.heap[p].needsTrace || edges == []
    requires forall e | e in edges :: e in w.cx.heap[p].edges || (e in w.held && Adoptable(w.permits, p, e))
    ensures WorldOk(w.(cx := SetEdges(w.cx, p, edges)))
  {
    var c := w.cx;
    var d := SetEdges(c, p, edges);
    SetEdgesKeepsStatus(c, p, edges);
    assert Listed(d) && Queued(d);
    AdoptedEdges(w, p, edges);
    forall q | q in d.heap
      ensures ColorFits(d, q)
      ensures Solid(d, q) ==> EdgesOk(d, d.heap[q].edges)
      ensures d.phase == Mark && d.heap[q].color == Black ==> MarkedEdges(d, d.heap[q].edges)
    {
      assert ColorFits(c, q);
      assert Solid(d, q) ==> Solid(c, q) && EdgesOk(c, c.heap[q].edges);
      assert d.phase == Mark && d.heap[q].color == Black ==> MarkedEdges(c, c.heap[q].edges);
    }
    assert PermitsOk(w.(cx := d));
  }

  /** The pointers that the barriers allow a box to adopt fit the colour of the box. */
  lemma AdoptedEdges(w: World, p: Ref, edges: seq<Edge>)
    requires WorldOk(w) && p in w.cx.heap
    requires w.cx.heap[p].needsTrace || edges == []
    requires forall e | e in edges :: e in w.cx.heap[p].edges || (e in w.held && Adoptable(w.permits, p, e))
    ensures Solid(w.cx, p) ==> EdgesOk(w.cx, edges)
    ensures w.cx.phase == Mark && w.cx.heap[p].color == Black ==> MarkedEdges(w.cx, edges)
  {
    forall e | e in edges
      ensures Solid(w.cx, p) ==> EdgeOk(w.cx, e)
      ensures w.cx.phase == Mark && w.cx.heap[p].color == Black ==> MarkedEdge(w.cx, e)
    {
      if e in w.cx.heap[p].edges {
        assert Solid(w.cx, p) ==> EdgesOk(w.cx, w.cx.heap[p].edges);
        assert w.cx.phase == Mark && w.cx.heap[p].color == Black ==> MarkedEdges(w.cx, w.cx.heap[p].edges);
      }
    }
  }

  lemma OpenRootKeeps(w: World)
    requires WorldOk(w)
    ensures WorldOk(w.(cx := RootBarrier(w.cx), rootOpen := true))
  {
    if w.cx.phase == Mark {
      RootFlagIsNotInHeap(w.cx, true);
      SameHeapSameEdges(w.cx, RootBarrier(w.cx));
    }
  }

  lemma SameHeapSameEdges(c: Ctx, d: Ctx)
    requires c.phase == d.phase && c.heap == d.heap && c.back == d.back
    ensures forall e :: EdgeOk(c, e) <==> EdgeOk(d, e)
    ensures forall e :: MarkedEdge(c, e) <==> MarkedEdge(d, e)
  {
  }

  lemma MeterIsNotInHeap(w: World, m: Metering.Meter)
    requires WorldOk(w)
    ensures WorldOk(w.(cx := w.cx.(meter := m)))
  {
    var c := w.cx;
    var d := c.(meter := m);
    SameHeapSameEdges(c, d);
    forall q | q in d.heap
      ensures ColorFits(d, q)
      ensures Solid(d, q) ==> EdgesOk(d, d.heap[q].edges)
      ensures d.phase == Mark && d.heap[q].color == Black ==> MarkedEdges(d, d.heap[q].edges)
    {
      assert ColorFits(c, q);
      assert Solid(d, q) ==> Solid(c, q) && EdgesOk(c, c.heap[q].edges);
      assert d.phase == Mark && d.heap[q].color == Black ==> MarkedEdges(c, c.heap[q].edges);
    }
  }

  // ------------------------------------------------------------------ any event

  lemma CollectionKeeps(w: World, ev: Event)
    requires WorldOk(w) && IsCollection(ev) && Allowed(w, ev) && Ready(w, ev)
    ensures WorldOk(After(w, ev))
  {
    match ev {
      case WakeUp => WakeKeeps(w.cx, w.root);
      case MarkStep(outcome) => MarkOneKeeps(w.cx, w.root, outcome);
      case BeginSweep => StartSweepKeeps(w.cx, w.root);
      case SweepStep(panics) => SweepOneKeeps(w.cx, w.root, panics);
      case FinishSweep(resetDebt) => EndSweepKeeps(w.cx, w.root, resetDebt);
    }
  }

  lemma ReadKeeps(w: World, ev: Event)
    requires WorldOk(w) && Allowed(w, ev) && Ready(w, ev)
    requires ev.Read? || ev.ReadRoot? || ev.Downgrade? || ev.Upgrade?
    ensures WorldOk(After(w, ev))
  {
    match ev {
      case Read(from, e) =>
        assert EdgeOk(w.cx, Strong(from));
        assert EdgesOk(w.cx, w.cx.heap[from].edges);
      case ReadRoot(e) =>
      case Downgrade(r) => assert EdgeOk(w.cx, Strong(r));
      case Upgrade(r) =>
        assert EdgeOk(w.cx, Weak(r));
        assert ColorFits(w.cx, r);
    }
  }

  lemma WriteRootKeeps(w: World, edges: seq<Edge>)
    requires WorldOk(w)
    requires forall e | e in edges :: e in w.root || (w.rootOpen && e in w.held)
    ensures WorldOk(w.(root := edges))
  {
  }

  lemma StepKeeps(w: World, ev: Event)
    requires WorldOk(w) && Allowed(w, ev) && Ready(w, ev)
    ensures WorldOk(After(w, ev))
  {
    if IsCollection(ev) {
      CollectionKeeps(w, ev);
    } else {
      match ev {
        case Alloc(r, needsTrace, size, edges) => AllocKeeps(w, r, needsTrace, size, edges);
        case Resurrection(r) =>
          if w.cx.heap[r].live {
            ResurrectKeeps(w, r);
          }
        case CallBarrier(b) => BarrierKeeps(w, b);
        case Write(p, edges) => SetEdgesKeeps(w, p, edges);
        case Shed(p, edges) =>
          assert ColorFits(w.cx, p);
          if edges != [] {
            assert edges[0] in w.cx.heap[p].edges;
          }
          SetEdgesKeeps(w, p, edges);
        case OpenRoot => OpenRootKeeps(w);
        case WriteRoot(edges) => WriteRootKeeps(w, edges);
        case ShedRoot(edges) => WriteRootKeeps(w, edges);
        case EndCallback =>
        case Tune(t) => MeterIsNotInHeap(w, Metering.Tune(w.cx.meter, t));
        case _ => ReadKeeps(w, ev);
      }
    }
  }

  /** Whatever the interface allows, the memory that it touches is there. */
  lemma AllowedIsReady(w: World, ev: Event)
    requires WorldOk(w) && Allowed(w, ev)
    ensures Ready(w, ev)
  {
    match ev {
      case Read(from, _) => assert EdgeOk(w.cx, Strong(from));
      case Upgrade(r) => assert EdgeOk(w.cx, Weak(r));
      case Resurrection(r) =>
        if Weak(r) in w.held {
          assert EdgeOk(w.cx, Weak(r));
        } else {
          assert EdgeOk(w.cx, Strong(r));
        }
      case CallBarrier(b) => BarrierIsReady(w, b);
      case Write(p, _) => assert EdgeOk(w.cx, Strong(p));
      case MarkStep(_) => NeverStuck(w.cx, w.root);
      case SweepStep(_) => NeverStuck(w.cx, w.root);
      case _ =>
    }
  }

  lemma GoesAhead(w: World, ev: Event) returns (v: World)
    requires WorldOk(w) && Allowed(w, ev)
    ensures Ready(w, ev) && v == After(w, ev) && WorldOk(v)
  {
    AllowedIsReady(w, ev);
    StepKeeps(w, ev);
    v := After(w, ev);
  }

  lemma InitialOk()
    ensures WorldOk(INITIAL)
  {
  }

  lemma {:induction false} RunKeeps(ws: seq<World>, evs: seq<Event>, i: nat)
    requires IsRun(ws, evs) && WorldOk(ws[0]) && i < |ws|
    ensures WorldOk(ws[i])
  {
    if i == 0 {
    } else {
      RunKeeps(ws, evs, i - 1);
      StepKeeps(ws[i - 1], evs[i - 1]);
    }
  }

  /** Everything on a strong path is solid. */
  lemma {:induction false} PathIsSolid(w: World, p: seq<Ref>, i: nat)
    requires WorldOk(w) && IsPath(w.cx.heap, Sources(w), p) && i < |p|
    ensures Solid(w.cx, p[i])
  {
    if i == 0 {
      assert EdgeOk(w.cx, Strong(p[0]));
    } else {
      PathIsSolid(w, p, i - 1);
      assert Strong(p[i]) in w.cx.heap[p[i - 1]].edges;
      assert EdgeOk(w.cx, Strong(p[i]));
    }
  }

  /** At every point of every run: a box that can be reached from the root or from a pointer that
      the callback holds is allocated and its value has not been dropped; its weak pointers refer
      to allocated boxes; and the next event finds everything that it reads. */
  lemma RunIsSafe(ws: seq<World>, evs: seq<Event>, i: nat, r: Ref)
    requires IsRun(ws, evs) && ws[0] == INITIAL && i < |ws|
    requires Reachable(ws[i].cx.heap, Sources(ws[i]), r)
    ensures r in ws[i].cx.heap && ws[i].cx.heap[r].live
    ensures forall q | Weak(q) in ws[i].cx.heap[r].edges :: q in ws[i].cx.heap
  {
    var w := ws[i];
    InitialOk();
    RunKeeps(ws, evs, i);
    var p :| IsPath(w.cx.heap, Sources(w), p) && p[|p| - 1] == r;
    PathIsSolid(w, p, |p| - 1);
    forall q | Weak(q) in w.cx.heap[r].edges
      ensures q in w.cx.heap
    {
      assert EdgeOk(w.cx, Weak(q));
    }
  }

  /** The weak pointers in the root and in the hands of the callback refer to allocated boxes too. */
  lemma RunWeakIsAllocated(ws: seq<World>, evs: seq<Event>, i: nat, q: Ref)
    requires IsRun(ws, evs) && ws[0] == INITIAL && i < |ws|
    requires Weak(q) in Sources(ws[i])
    ensures q in ws[i].cx.heap
  {
    InitialOk();
    RunKeeps(ws, evs, i);
    assert EdgeOk(ws[i].cx, Weak(q));
  }

  /** No run gets stuck on memory: at every point, whatever the interface allows can go ahead. */
  lemma RunNeverBlocks(ws: seq<World>, evs: seq<Event>, i: nat, ev: Event)
    requires IsRun(ws, evs) && ws[0] == INITIAL && i < |ws|
    requires Allowed(ws[i], ev)
    ensures Ready(ws[i], ev)
  {
    InitialOk();
    RunKeeps(ws, evs, i);
    AllowedIsReady(ws[i], ev);
  }
}
