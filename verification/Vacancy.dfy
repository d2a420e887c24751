/** A destructor that drops the last handle to a slot of a live dynamic root set takes a pointer out of a
    box that the collector has already traced. The input for which a cycle is then neither exact nor
    transparent. */
module Vacancy {
  import opened Types
  import opened Metering
  import opened Collector
  import opened Invariant
  import opened Runs
  import opened Safety
  import opened Collection
  import opened Transparency
  import opened Exactness

  const ROOT := [Strong(0)]

  /** The heap has these three boxes. */
  ghost predicate Boxes(h: map<Ref, Box>, set_: Box, target: Box, garbage: Box) {
    && (forall r :: r in h <==> r == 0 || r == 1 || r == 2)
    && h[0] == set_ && h[1] == target && h[2] == garbage
  }

  function SetBox(color: Color): Box {
    Box(color, true, true, 1, [Strong(1)])
  }

  function LeafBox(color: Color): Box {
    Box(color, true, false, 1, [])
  }

  /** Asleep. The root holds a set, box 0, in which box 1 is stashed. The only handle is in box 2, which
      is garbage. */
  ghost predicate Scene(c: Ctx) {
    && c.phase == Sleep && c.front == [2, 1, 0] && c.back == [] && c.gray == [] && c.grayAgain == []
    && c.rootNeedsTrace
    && Boxes(c.heap, SetBox(White), LeafBox(White), LeafBox(White))
  }

  /** The destructor of box 2, the only one that is called, drops the handle. */
  const DROPPED := Conduct(Returns, [], [Vacate(0, 0)])

  const CONDUCTS := [CALM, CALM, CALM, CALM, DROPPED]

  // ---------------------------------------------------------------------- a run to the scene

  /** A run can get to `w`. */
  ghost predicate Reached(w: World) {
    exists ws: seq<World>, evs: seq<Event> :: IsRun(ws, evs) && ws[0] == INITIAL && ws[|evs|] == w
  }

  lemma Extend(w: World, ev: Event) returns (v: World)
    requires Reached(w) && Allowed(w, ev) && Ready(w, ev)
    ensures v == After(w, ev) && Reached(v)
  {
    v := After(w, ev);
    var ws: seq<World>, evs: seq<Event> :| IsRun(ws, evs) && ws[0] == INITIAL && ws[|evs|] == w;
    RunSnoc(ws, evs, ev);
  }

  /** The program makes a set and puts it in the root. */
  lemma SetIsReached() returns (w: World)
    ensures Reached(w) && w.root == ROOT && w.held == {Strong(0)} && w.permits == NOTHING
    ensures w.cx == Allocate(EMPTY, 0, true, 1, [])
  {
    assert IsRun([INITIAL], []) && Reached(INITIAL);
    w := Extend(INITIAL, Alloc(0, true, 1, []));
    w := Extend(w, WriteRoot(ROOT));
  }

  lemma StashIsReached() returns (w: World)
    ensures Reached(w) && w.root == ROOT
    ensures w.cx == SetEdges(Allocate(Allocate(EMPTY, 0, true, 1, []), 1, false, 1, []), 0, [Strong(1)])
  {
    w := SetIsReached();
    w := Extend(w, Alloc(1, false, 1, []));
    w := Extend(w, CallBarrier(Backward(0, Some(1))));
    w := Extend(w, Write(0, [Strong(1)]));
  }

  /** It stashes a pointer in the set, keeps the handle in another box, and lets go of that. */
  lemma SceneIsReached() returns (w: World)
    ensures Reached(w) && Quiet(w) && Scene(w.cx) && w.root == ROOT
  {
    w := StashIsReached();
    w := Extend(w, Alloc(2, false, 1, []));
    w := Extend(w, EndCallback);
  }

  lemma ReachedIsOk(w: World)
    requires Reached(w)
    ensures CtxOk(w.cx, w.root)
  {
    var ws: seq<World>, evs: seq<Event> :| IsRun(ws, evs) && ws[0] == INITIAL && ws[|evs|] == w;
    InitialOk();
    RunKeeps(ws, evs, |evs|);
  }

  // ---------------------------------------------------------------------------- the cycle

  /** The root is traced, and box 0 becomes gray. */
  lemma RootIsMarked(c: Ctx) returns (d: Ctx)
    requires c.phase == Mark && Scene(c.(phase := Sleep))
    ensures !MarkDone(c) && MarkReady(c, ROOT) && d == MarkOne(c, ROOT, Returns)
    ensures d == c.(heap := d.heap, gray := [0], rootNeedsTrace := false, meter := d.meter)
    ensures Boxes(d.heap, SetBox(Gray), LeafBox(White), LeafBox(White))
  {
    assert TraceEdges(c, []) == c;
    assert TraceEdges(c, ROOT) == Collector.Trace(c, 0);
    d := MarkOne(c, ROOT, Returns);
  }

  /** Box 0 is traced, and box 1 becomes black. */
  lemma SetIsMarked(c: Ctx) returns (d: Ctx)
    requires c.phase == Mark && c.gray == [0] && c.grayAgain == [] && !c.rootNeedsTrace
    requires Boxes(c.heap, SetBox(Gray), LeafBox(White), LeafBox(White))
    ensures !MarkDone(c) && MarkReady(c, ROOT) && d == MarkOne(c, ROOT, Returns)
    ensures MarkDone(d) && d.phase == Mark && d.front == c.front && d.back == c.back
    ensures Boxes(d.heap, SetBox(Black), LeafBox(Black), LeafBox(White))
  {
    var s := StartTrace(c);
    assert TraceEdges(s, []) == s;
    assert TraceEdges(s, [Strong(1)]) == Collector.Trace(s, 1);
    d := MarkOne(c, ROOT, Returns);
  }

  /** The step of the sweep that drops box 2. */
  lemma SceneIsVacated(d: Ctx)
    requires d.phase == Mark && MarkDone(d) && d.List() == [2, 1, 0] && CtxOk(StartSweep(d), ROOT)
    requires Boxes(d.heap, SetBox(Black), LeafBox(Black), LeafBox(White))
    ensures var t := Tick(StartSweep(d), ROOT, Stop.FinishCycle, true, DROPPED);
            t.Stay? && t.slept && 0 in t.cx.heap && t.cx.heap[0].edges == []
  {
    var c := StartSweep(d);
    assert SweepReady(c) && DropsValue(c) && CallsDestructor(c);
    var e := Tuned(SweepOne(c, false), []);
    assert Vacates(e, Vacate(0, 0));
    assert VacateAll(e, [Vacate(0, 0)]) == VacateAll(Vacated(e, Vacate(0, 0)), []);
    assert Minus([Strong(1)], 0) == [];
  }

  lemma OneTrip(c: Ctx, slept: bool, u: Conduct, us: seq<Conduct>, d: Ctx)
    requires CtxOk(c, ROOT) && Tick(c, ROOT, Stop.FinishCycle, slept, u) == Stay(d, true)
    ensures CtxOk(d, ROOT)
    ensures Loop(c, ROOT, UntilStop, Stop.FinishCycle, slept, [u] + us)
         == Loop(d, ROOT, UntilStop, Stop.FinishCycle, true, us)
  {
    LoopTurn(c, ROOT, UntilStop, Stop.FinishCycle, slept, [u] + us);
    assert ([u] + us)[1..] == us;
  }

  lemma WakeTrip(c: Ctx)
    requires CtxOk(c, ROOT) && c.phase == Sleep
    ensures Tick(c, ROOT, Stop.FinishCycle, false, CALM) == Stay(Wake(c), true)
  {
  }

  lemma MarkTrip(c: Ctx)
    requires CtxOk(c, ROOT) && c.phase == Mark && !MarkDone(c) && MarkReady(c, ROOT)
    ensures Tick(c, ROOT, Stop.FinishCycle, true, CALM) == Stay(MarkOne(c, ROOT, Returns), true)
  {
  }

  lemma BeginTrip(c: Ctx)
    requires CtxOk(c, ROOT) && c.phase == Mark && MarkDone(c)
    ensures Tick(c, ROOT, Stop.FinishCycle, true, CALM) == Stay(StartSweep(c), true)
  {
  }

  lemma SceneBegins(c: Ctx, c2: Ctx)
    requires CtxOk(c, ROOT) && c.phase == Sleep && !MarkDone(Wake(c)) && MarkReady(Wake(c), ROOT)
    requires c2 == MarkOne(Wake(c), ROOT, Returns)
    ensures CtxOk(c2, ROOT)
    ensures DoCollection(c, ROOT, UntilStop, Stop.FinishCycle, CONDUCTS)
         == Loop(c2, ROOT, UntilStop, Stop.FinishCycle, true, [CALM, CALM, DROPPED])
  {
    WakeTrip(c);
    OneTrip(c, false, CALM, [CALM, CALM, CALM, DROPPED], Wake(c));
    MarkTrip(Wake(c));
    OneTrip(Wake(c), true, CALM, [CALM, CALM, DROPPED], c2);
    assert CONDUCTS == [CALM] + [CALM, CALM, CALM, DROPPED];
    assert [CALM, CALM, CALM, DROPPED] == [CALM] + [CALM, CALM, DROPPED];
  }

  lemma SceneIsMarked(c2: Ctx, c3: Ctx)
    requires CtxOk(c2, ROOT) && c2.phase == Mark && !MarkDone(c2) && MarkReady(c2, ROOT)
    requires c3 == MarkOne(c2, ROOT, Returns)
    ensures CtxOk(c3, ROOT)
    ensures Loop(c2, ROOT, UntilStop, Stop.FinishCycle, true, [CALM, CALM, DROPPED])
         == Loop(c3, ROOT, UntilStop, Stop.FinishCycle, true, [CALM, DROPPED])
  {
    MarkTrip(c2);
    OneTrip(c2, true, CALM, [CALM, DROPPED], c3);
    assert [CALM, CALM, DROPPED] == [CALM] + [CALM, DROPPED];
  }

  lemma SweepBegins(c3: Ctx)
    requires CtxOk(c3, ROOT) && c3.phase == Mark && MarkDone(c3)
    ensures CtxOk(StartSweep(c3), ROOT)
    ensures Loop(c3, ROOT, UntilStop, Stop.FinishCycle, true, [CALM, DROPPED])
         == Loop(StartSweep(c3), ROOT, UntilStop, Stop.FinishCycle, true, [DROPPED])
  {
    BeginTrip(c3);
    OneTrip(c3, true, CALM, [DROPPED], StartSweep(c3));
    assert [CALM, DROPPED] == [CALM] + [DROPPED];
  }

  lemma SweepDrops(c3: Ctx) returns (d: Ctx)
    requires CtxOk(StartSweep(c3), ROOT) && c3.phase == Mark && MarkDone(c3) && c3.List() == [2, 1, 0]
    requires Boxes(c3.heap, SetBox(Black), LeafBox(Black), LeafBox(White))
    ensures CtxOk(d, ROOT) && 0 in d.heap && d.heap[0].edges == []
    ensures Loop(StartSweep(c3), ROOT, UntilStop, Stop.FinishCycle, true, [DROPPED])
         == Loop(d, ROOT, UntilStop, Stop.FinishCycle, true, [])
  {
    SceneIsVacated(c3);
    d := Tick(StartSweep(c3), ROOT, Stop.FinishCycle, true, DROPPED).cx;
    OneTrip(StartSweep(c3), true, DROPPED, [], d);
    assert [DROPPED] == [DROPPED] + [];
  }

  /** The loop, as far as the step that drops box 2. */
  lemma SceneUnfolds(c: Ctx) returns (d: Ctx)
    requires CtxOk(c, ROOT) && Scene(c)
    ensures CtxOk(d, ROOT) && 0 in d.heap && d.heap[0].edges == []
    ensures DoCollection(c, ROOT, UntilStop, Stop.FinishCycle, CONDUCTS)
         == Loop(d, ROOT, UntilStop, Stop.FinishCycle, true, [])
  {
    var c2 := RootIsMarked(Wake(c));
    SceneBegins(c, c2);
    var c3 := SetIsMarked(c2);
    SceneIsMarked(c2, c3);
    SweepBegins(c3);
    d := SweepDrops(c3);
  }

  // --------------------------------------------------------------------------- what follows

  lemma FirstStep(heap: map<Ref, Box>, from: set<Edge>, p: seq<Ref>)
    requires IsPath(heap, from, p) && |p| > 1
    ensures p[0] in heap && Strong(p[1]) in heap[p[0]].edges
  {
    assert p[0 + 1] == p[1];
  }

  lemma NothingFromZero(heap: map<Ref, Box>)
    requires 0 in heap && heap[0].edges == []
    ensures !Reachable(heap, EdgeSet(ROOT), 1)
  {
    forall p | IsPath(heap, EdgeSet(ROOT), p)
      ensures p[|p| - 1] == 0
    {
      assert p[0] == 0;
      if |p| > 1 {
        FirstStep(heap, EdgeSet(ROOT), p);
      }
    }
  }

  lemma BothAreReachable(c: Ctx)
    requires Scene(c)
    ensures Reachable(c.heap, EdgeSet(ROOT), 0) && Reachable(c.heap, EdgeSet(ROOT), 1)
  {
    assert IsPath(c.heap, EdgeSet(ROOT), [0]);
    assert IsPath(c.heap, EdgeSet(ROOT), [0, 1]);
  }

  /** After the step that drops box 2 nothing leads to box 1 any more. */
  lemma SceneEnds(c: Ctx)
    requires CtxOk(c, ROOT) && Scene(c)
    ensures var e := DoCollection(c, ROOT, UntilStop, Stop.FinishCycle, CONDUCTS);
            0 in e.cx.heap ==> e.cx.heap[0].edges == []
  {
    var e := DoCollection(c, ROOT, UntilStop, Stop.FinishCycle, CONDUCTS);
    var d := SceneUnfolds(c);
    LoopKeepsGraph(d, ROOT, UntilStop, Stop.FinishCycle, true, []);
    assert 0 in e.cx.heap ==> Fewer(d.heap[0].edges, e.cx.heap[0].edges);
  }

  /** From a state that a program can reach, a `finish_cycle` that returns leaves box 1 live, although by
      then it is not reachable any more: the heap is not exact, and the call not transparent. */
  lemma HandleInGarbage() returns (w: World)
    ensures Reached(w) && Quiet(w) && Scene(w.cx) && w.root == ROOT && CtxOk(w.cx, ROOT)
    ensures var e := DoCollection(w.cx, ROOT, UntilStop, Stop.FinishCycle, CONDUCTS);
            && e.Returned? && 1 in e.cx.heap && e.cx.heap[1].live
            && Reachable(w.cx.heap, EdgeSet(ROOT), 1)
            && !Reachable(e.cx.heap, EdgeSet(ROOT), 1)
            && !IsExact(e.cx.heap, EdgeSet(ROOT))
            && !Transparent(w.cx, e.cx, ROOT)
  {
    w := SceneIsReached();
    ReachedIsOk(w);
    CallReturns(w.cx, ROOT, UntilStop, Stop.FinishCycle, CONDUCTS);
    BothAreReachable(w.cx);
    FinishCycleKeepsReachable(w.cx, ROOT, CONDUCTS, 0);
    FinishCycleKeepsReachable(w.cx, ROOT, CONDUCTS, 1);
    SceneEnds(w.cx);
    var e := DoCollection(w.cx, ROOT, UntilStop, Stop.FinishCycle, CONDUCTS);
    NothingFromZero(e.cx.heap);
    assert Wanted(e.cx.heap, EdgeSet(ROOT), 1) ==> 1 in e.cx.heap;
  }
}
