/** A whole cycle run without interruption keeps exactly what is reachable. */
module Exactness {
  import opened Types
  import opened Collector
  import opened Invariant
  import opened Marking
  import opened Sweeping
  import opened Runs
  import opened Safety
  import opened Collection
  import opened Transparency

  /** Some weak pointer that can be reached from `from` refers to `r`. */
  ghost predicate WeaklyHeld(heap: map<Ref, Box>, from: set<Edge>, r: Ref) {
    || Weak(r) in from
    || exists q {:trigger Reachable(heap, from, q)} :: Reachable(heap, from, q) && q in heap && Weak(r) in heap[q].edges
  }

  /** What tracing the pointer `e` may mark. */
  ghost predicate MayMark(heap: map<Ref, Box>, from: set<Edge>, e: Edge) {
    match e
    case Strong(r) => Reachable(heap, from, r)
    case Weak(r) => WeaklyHeld(heap, from, r)
  }

  lemma {:induction false} EdgeMayMark(heap: map<Ref, Box>, from: set<Edge>, e: Edge, g: Ref)
    requires e in from || (Reachable(heap, from, g) && g in heap && e in heap[g].edges)
    ensures MayMark(heap, from, e)
  {
    match e {
      case Strong(r) =>
        if e in from {
          assert IsPath(heap, from, [r]);
        } else {
          var p :| IsPath(heap, from, p) && p[|p| - 1] == g;
          assert IsPath(heap, from, p + [r]);
        }
      case Weak(r) =>
    }
  }

  /** The colours so far are justified by what was reachable in `h`. */
  ghost predicate Justified(c: Ctx, h: map<Ref, Box>, from: set<Edge>) {
    && c.heap.Keys == h.Keys
    && forall r {:trigger c.heap[r]} | r in h ::
         && c.heap[r] == h[r].(color := c.heap[r].color)
         && (!IsWhite(c.heap[r].color) ==> Reachable(h, from, r))
         && (c.heap[r].color == WhiteWeak ==> WeaklyHeld(h, from, r))
  }

  lemma {:induction false} TraceEdgesJustified(c: Ctx, edges: seq<Edge>, h: map<Ref, Box>, from: set<Edge>)
    requires Justified(c, h, from) && Present(c, edges)
    requires forall e | e in edges :: MayMark(h, from, e)
    ensures Justified(TraceEdges(c, edges), h, from)
  {
    if edges == [] {
    } else {
      var init, last := edges[..|edges| - 1], edges[|edges| - 1];
      forall e | e in init
        ensures MayMark(h, from, e)
      {
        assert e in edges;
      }
      TraceEdgesJustified(c, init, h, from);
      assert last in edges;
      TraceEdgeJustified(TraceEdges(c, init), last, h, from);
    }
  }

  lemma RecolorJustified(c: Ctx, d: Ctx, r: Ref, color: Color, h: map<Ref, Box>, from: set<Edge>)
    requires Justified(c, h, from) && r in c.heap && d.heap == c.heap[r := c.heap[r].(color := color)]
    requires !IsWhite(color) ==> Reachable(h, from, r)
    requires color == WhiteWeak ==> WeaklyHeld(h, from, r)
    ensures Justified(d, h, from)
  {
    assert c.heap[r] == h[r].(color := c.heap[r].color);
  }

  lemma TraceEdgeJustified(c: Ctx, e: Edge, h: map<Ref, Box>, from: set<Edge>)
    requires Justified(c, h, from) && e.to in c.heap && MayMark(h, from, e)
    ensures Justified(TraceEdge(c, e), h, from)
  {
    var d := TraceEdge(c, e);
    if d.heap != c.heap {
      var color := if e.Weak? then WhiteWeak else if c.heap[e.to].needsTrace then Gray else Black;
      RecolorJustified(c, d, e.to, color, h, from);
    }
  }

  lemma MarkOneJustified(c: Ctx, root: seq<Edge>, h: map<Ref, Box>)
    requires CtxOk(c, root) && c.phase == Mark && !MarkDone(c) && MarkReady(c, root)
    requires Justified(c, h, EdgeSet(root))
    ensures Justified(MarkOne(c, root, Returns), h, EdgeSet(root))
  {
    var from := EdgeSet(root);
    match NextGray(c) {
      case Some(g) =>
        PopKeepsQueued(c, g);
        assert Reachable(h, from, g);
        forall e | e in c.heap[g].edges
          ensures MayMark(h, from, e)
        {
          EdgeMayMark(h, from, e, g);
        }
        assert Justified(StartTrace(c), h, from);
        TraceEdgesJustified(StartTrace(c), c.heap[g].edges, h, from);
      case None =>
        forall e | e in root
          ensures MayMark(h, from, e)
        {
          EdgeMayMark(h, from, e, e.to);
        }
        TraceEdgesJustified(c, root, h, from);
    }
  }

  // --------------------------------------------------------------- the end of marking

  ghost predicate Wanted(h: map<Ref, Box>, from: set<Edge>, r: Ref) {
    Reachable(h, from, r) || WeaklyHeld(h, from, r)
  }

  /** What a sweep makes of the box `r` of `h`, if it is kept. */
  ghost function Settle(h: map<Ref, Box>, from: set<Edge>, r: Ref): Box
    requires r in h
  {
    h[r].(color := White, live := Reachable(h, from, r))
  }

  /** The colour that marking gives in the end. */
  ghost function FinalColor(h: map<Ref, Box>, from: set<Edge>, r: Ref): Color {
    if Reachable(h, from, r) then Black else if WeaklyHeld(h, from, r) then WhiteWeak else White
  }

  lemma {:induction false} PathIsMarked(c: Ctx, root: seq<Edge>, h: map<Ref, Box>, p: seq<Ref>, i: nat)
    requires CtxOk(c, root) && c.phase == Mark && MarkDone(c) && Justified(c, h, EdgeSet(root))
    requires IsPath(h, EdgeSet(root), p) && i < |p|
    ensures p[i] in c.heap && c.heap[p[i]].color == Black
  {
    if i == 0 {
      assert MarkedEdge(c, Strong(p[0]));
    } else {
      PathIsMarked(c, root, h, p, i - 1);
      var e := Strong(p[i]);
      assert c.heap[p[i - 1]].edges == h[p[i - 1]].edges;
      assert MarkedEdges(c, c.heap[p[i - 1]].edges) && MarkedEdge(c, e);
    }
    NoGray(c, p[i]);
  }

  /** What is reachable has been marked, live and not gray any more. */
  lemma ReachableIsBlack(c: Ctx, root: seq<Edge>, h: map<Ref, Box>, r: Ref)
    requires CtxOk(c, root) && c.phase == Mark && MarkDone(c) && Justified(c, h, EdgeSet(root))
    requires Reachable(h, EdgeSet(root), r)
    ensures r in h && c.heap[r].color == Black && h[r].live
  {
    var p :| IsPath(h, EdgeSet(root), p) && p[|p| - 1] == r;
    PathIsMarked(c, root, h, p, |p| - 1);
    NoGray(c, r);
    assert ColorFits(c, r) && c.heap[r] == h[r].(color := c.heap[r].color);
  }

  /** What is weakly held has been marked too. */
  lemma WeaklyHeldIsMarked(c: Ctx, root: seq<Edge>, h: map<Ref, Box>, r: Ref)
    requires CtxOk(c, root) && c.phase == Mark && MarkDone(c) && Justified(c, h, EdgeSet(root))
    requires WeaklyHeld(h, EdgeSet(root), r)
    ensures r in h && c.heap[r].color != White
  {
    var from := EdgeSet(root);
    if Weak(r) in from {
      assert MarkedEdge(c, Weak(r));
    } else {
      var q :| Reachable(h, from, q) && q in h && Weak(r) in h[q].edges;
      ReachableIsBlack(c, root, h, q);
      assert MarkedEdges(c, c.heap[q].edges) && MarkedEdge(c, Weak(r));
    }
  }

  /** When marking is done, a box is black just when it is reachable, and otherwise `WhiteWeak`
      just when a reachable weak pointer refers to it. */
  lemma MarkingIsExact(c: Ctx, root: seq<Edge>, h: map<Ref, Box>, r: Ref)
    requires CtxOk(c, root) && c.phase == Mark && MarkDone(c) && Justified(c, h, EdgeSet(root))
    ensures Wanted(h, EdgeSet(root), r) ==> r in h
    ensures r in h ==> c.heap[r].color == FinalColor(h, EdgeSet(root), r)
    ensures Reachable(h, EdgeSet(root), r) ==> h[r].live
  {
    if Reachable(h, EdgeSet(root), r) {
      ReachableIsBlack(c, root, h, r);
    } else if WeaklyHeld(h, EdgeSet(root), r) {
      WeaklyHeldIsMarked(c, root, h, r);
    }
    if r in h {
      NoGray(c, r);
      assert c.heap[r] == h[r].(color := c.heap[r].color);
    }
  }

  // -------------------------------------------------------------------------- sweeping

  /** The box is `b`, but for pointers that it may have lost. */
  predicate Like(b: Box, k: Box) {
    k == b.(edges := k.edges) && Fewer(b.edges, k.edges)
  }

  /** The sweep so far: ahead of the cursor the boxes of `h` in their final colours, behind it the
      wanted ones as they will stay. */
  ghost predicate HalfSwept(c: Ctx, h: map<Ref, Box>, from: set<Edge>) {
    && c.heap.Keys <= h.Keys
    && (forall r {:trigger r in h} | Wanted(h, from, r) :: r in h)
    && forall r {:trigger r in c.back} | r in h ::
         if r in c.back then r in c.heap && Like(h[r].(color := FinalColor(h, from, r)), c.heap[r])
         else (r in c.heap <==> Wanted(h, from, r)) && (r in c.heap ==> Like(Settle(h, from, r), c.heap[r]))
  }

  /** Nothing in `h` is left to drop or to deallocate. */
  ghost predicate Clean(h: map<Ref, Box>, from: set<Edge>) {
    forall r | r in h :: Wanted(h, from, r) && (h[r].live ==> Reachable(h, from, r))
  }

  lemma StartSweepExact(c: Ctx, root: seq<Edge>, h: map<Ref, Box>)
    requires CtxOk(c, root) && c.phase == Mark && MarkDone(c) && Justified(c, h, EdgeSet(root))
    ensures HalfSwept(StartSweep(c), h, EdgeSet(root))
    ensures forall r | Reachable(h, EdgeSet(root), r) :: r in h && h[r].live
  {
    forall r
      ensures Wanted(h, EdgeSet(root), r) ==> r in h
      ensures r in h ==> r in c.List() && c.heap[r].color == FinalColor(h, EdgeSet(root), r)
      ensures Reachable(h, EdgeSet(root), r) ==> h[r].live
    {
      MarkingIsExact(c, root, h, r);
      OccursList(c, r);
    }
  }

  lemma SweepOneExact(c: Ctx, h: map<Ref, Box>, from: set<Edge>)
    requires c.phase == Sweep && Listed(c) && SweepReady(c) && HalfSwept(c, h, from)
    requires forall r | Reachable(h, from, r) :: r in h && h[r].live
    ensures HalfSwept(SweepOne(c, false), h, from)
  {
    var r := c.back[0];
    var d := SweepOne(c, false);
    SweepOneLists(c, false);
    assert c.back == [r] + d.back;
    assert r in c.back && r in h;
    SweepOneSettles(c, h, from);
    forall q | q in h
      ensures if q in d.back then q in d.heap && Like(h[q].(color := FinalColor(h, from, q)), d.heap[q])
              else (q in d.heap <==> Wanted(h, from, q)) && (q in d.heap ==> Like(Settle(h, from, q), d.heap[q]))
    {
      assert q in c.back <==> q == r || q in d.back;
      assert q != r && q in d.heap ==> d.heap[q] == c.heap[q];
    }
  }

  /** The box at the cursor is settled. */
  lemma SweepOneSettles(c: Ctx, h: map<Ref, Box>, from: set<Edge>)
    requires SweepReady(c) && c.back[0] in h
    requires Reachable(h, from, c.back[0]) ==> h[c.back[0]].live
    requires Like(h[c.back[0]].(color := FinalColor(h, from, c.back[0])), c.heap[c.back[0]])
    ensures var d, r := SweepOne(c, false), c.back[0];
            && (r in d.heap <==> Wanted(h, from, r))
            && (r in d.heap ==> Like(Settle(h, from, r), d.heap[r]))
            && (forall q | q != r :: q in d.heap <==> q in c.heap)
            && (forall q | q != r && q in d.heap :: d.heap[q] == c.heap[q])
  {
  }

  /** What dropped handles take away makes no difference to what is kept. */
  lemma LostIsLike(c: Ctx, d: Ctx, lost: set<Ref>, h: map<Ref, Box>, from: set<Edge>)
    requires OnlyLost(c, d, lost) && HalfSwept(c, h, from)
    ensures HalfSwept(d, h, from)
  {
    forall r | r in h
      ensures if r in d.back then r in d.heap && Like(h[r].(color := FinalColor(h, from, r)), d.heap[r])
              else (r in d.heap <==> Wanted(h, from, r)) && (r in d.heap ==> Like(Settle(h, from, r), d.heap[r]))
    {
      assert r in c.back <==> r in d.back;
      assert r in c.heap ==> d.heap[r] == c.heap[r].(edges := d.heap[r].edges);
    }
  }

  /** If there is nothing to drop, no destructor is called, and what is left stays as it is. */
  lemma CleanDropsNothing(c: Ctx, h: map<Ref, Box>, from: set<Edge>)
    requires c.phase == Sweep && Listed(c) && SweepReady(c) && HalfSwept(c, h, from) && Clean(h, from)
    ensures !DropsValue(c) && SweepOne(c, false).past == c.past
    ensures SameEdges(c, SweepOne(c, false))
  {
    var r := c.back[0];
    assert r in c.back && r in h;
    assert Wanted(h, from, r) && Like(h[r].(color := FinalColor(h, from, r)), c.heap[r]);
  }

  /** No box is gone, and all hold the same pointers. */
  predicate SameEdges(c: Ctx, d: Ctx) {
    d.heap.Keys == c.heap.Keys && forall r {:trigger d.heap[r]} | r in c.heap :: d.heap[r].edges == c.heap[r].edges
  }

  // ------------------------------------------------------------------------- the cycle

  /** What a whole cycle leaves of the heap `h`. */
  ghost predicate KeepsJustReachable(h: map<Ref, Box>, from: set<Edge>, k: map<Ref, Box>) {
    && (forall r {:trigger r in k} :: r in k <==> Wanted(h, from, r))
    && (forall r {:trigger k[r]} | r in k :: r in h && Like(Settle(h, from, r), k[r]))
  }

  /** A step of marking. */
  lemma MarkTripExact(c: Ctx, root: seq<Edge>, h: map<Ref, Box>, u: Conduct)
    requires CtxOk(c, root) && c.phase == Mark && !MarkDone(c) && Justified(c, h, EdgeSet(root)) && u.outcome.Returns?
    ensures var d := Tick(c, root, Stop.FinishCycle, true, u).cx;
            d.phase == Mark && Justified(d, h, EdgeSet(root)) && d.past == c.past && SameEdges(c, d)
  {
    NeverStuck(c, root);
    MarkOneJustified(c, root, h);
    MarkOneKeepsPast(c, root);
    MarkOneStaysInMark(c, root);
  }

  /** A step of sweeping, with what the destructor does. */
  lemma SweepTripExact(c: Ctx, root: seq<Edge>, h: map<Ref, Box>, u: Conduct)
    requires CtxOk(c, root) && c.phase == Sweep && c.back != [] && HalfSwept(c, h, EdgeSet(root))
    requires forall r | Reachable(h, EdgeSet(root), r) :: r in h && h[r].live
    requires Tick(c, root, Stop.FinishCycle, true, u).Stay?
    ensures var d := Tick(c, root, Stop.FinishCycle, true, u).cx;
            && d.phase == Sweep && HalfSwept(d, h, EdgeSet(root))
            && (Clean(h, EdgeSet(root)) ==> d.past == c.past && SameEdges(c, d))
  {
    NeverStuck(c, root);
    SweepOneExact(c, h, EdgeSet(root));
    var d := Tuned(SweepOne(c, false), ReportsIn(c, u));
    VacateAllLoses(d, DropsIn(c, u));
    LostIsLike(d, VacateAll(d, DropsIn(c, u)), Losers(d, DropsIn(c, u)), h, EdgeSet(root));
    if Clean(h, EdgeSet(root)) {
      CleanDropsNothing(c, h, EdgeSet(root));
    }
  }

  lemma {:induction false} LoopIsExact(c: Ctx, root: seq<Edge>, h: map<Ref, Box>, us: seq<Conduct>)
    requires CtxOk(c, root)
    requires match c.phase
             case Mark => Justified(c, h, EdgeSet(root))
             case Sweep =>
               HalfSwept(c, h, EdgeSet(root)) && forall r | Reachable(h, EdgeSet(root), r) :: r in h && h[r].live
             case _ => false
    requires Loop(c, root, UntilStop, Stop.FinishCycle, true, us).Returned?
    ensures var d := Loop(c, root, UntilStop, Stop.FinishCycle, true, us).cx;
            && KeepsJustReachable(h, EdgeSet(root), d.heap)
            && (Clean(h, EdgeSet(root)) ==> d.past == c.past && SameEdges(c, d))
    decreases PhasesLeft(c, true), WorkLeft(c)
  {
    var t := Tick(c, root, Stop.FinishCycle, true, Now(us));
    NeverStuck(c, root);
    LoopTurn(c, root, UntilStop, Stop.FinishCycle, true, us);
    if t.Stay? {
      TickProgresses(c, root, Stop.FinishCycle, true, Now(us));
      if c.phase == Sweep {
        SweepTripExact(c, root, h, Now(us));
      } else if MarkDone(c) {
        StartSweepExact(c, root, h);
      } else {
        MarkTripExact(c, root, h, Now(us));
      }
      LoopIsExact(t.cx, root, h, Later(us));
    } else {
      LastTripExact(c, root, h, Now(us));
    }
  }

  /** The end of the cycle. */
  lemma LastTripExact(c: Ctx, root: seq<Edge>, h: map<Ref, Box>, u: Conduct)
    requires CtxOk(c, root) && Tick(c, root, Stop.FinishCycle, true, u).Leave?
    requires c.phase == Sweep && HalfSwept(c, h, EdgeSet(root))
    ensures var d := Tick(c, root, Stop.FinishCycle, true, u).cx;
            KeepsJustReachable(h, EdgeSet(root), d.heap) && d.past == c.past && SameEdges(c, d)
  {
    forall r
      ensures r in c.heap <==> Wanted(h, EdgeSet(root), r)
      ensures r in c.heap ==> r in h && Like(Settle(h, EdgeSet(root), r), c.heap[r])
    {
      assert r !in c.back;
    }
  }

  lemma MarkOneKeepsPast(c: Ctx, root: seq<Edge>)
    requires !MarkDone(c) && MarkReady(c, root)
    ensures MarkOne(c, root, Returns).past == c.past
  {
    match NextGray(c) {
      case Some(g) => TraceEdgesShape(StartTrace(c), c.heap[g].edges);
      case None => TraceEdgesShape(c, root);
    }
  }

  lemma FinishCycleKeepsJustReachable(c: Ctx, root: seq<Edge>, us: seq<Conduct>)
    requires CtxOk(c, root) && c.phase == Sleep
    requires DoCollection(c, root, UntilStop, Stop.FinishCycle, us).Returned?
    ensures var d := DoCollection(c, root, UntilStop, Stop.FinishCycle, us).cx;
            && d.phase == Sleep
            && KeepsJustReachable(c.heap, EdgeSet(root), d.heap)
            && (Clean(c.heap, EdgeSet(root)) ==> d.past == c.past && SameEdges(c, d))
  {
    StopsAreHonoured(c, root, us);
    LoopTurn(c, root, UntilStop, Stop.FinishCycle, false, us);
    forall r | r in c.heap
      ensures c.heap[r].color == White
    {
      assert ColorFits(c, r);
    }
    assert Tick(c, root, Stop.FinishCycle, false, Now(us)) == Stay(Wake(c), true);
    LoopIsExact(Wake(c), root, c.heap, Later(us));
  }

  /** The live boxes are exactly those strongly reachable, and the allocated ones are those and the
      targets of the weak pointers that can be reached. */
  ghost predicate IsExact(heap: map<Ref, Box>, from: set<Edge>) {
    forall r {:trigger Wanted(heap, from, r)} ::
      && (r in heap && heap[r].live <==> Reachable(heap, from, r))
      && (r in heap <==> Wanted(heap, from, r))
  }

  /** `finish_cycle` called on a sleeping arena leaves live exactly the boxes that were strongly reachable
      from the root when it was called, and allocated exactly those and the targets of the weak pointers
      that could be reached, whatever the destructors do. */
  lemma FinishCycleKeepsReachable(c: Ctx, root: seq<Edge>, us: seq<Conduct>, r: Ref)
    requires CtxOk(c, root) && c.phase == Sleep
    requires DoCollection(c, root, UntilStop, Stop.FinishCycle, us).Returned?
    ensures var d := DoCollection(c, root, UntilStop, Stop.FinishCycle, us).cx;
            && d.phase == Sleep
            && (r in d.heap && d.heap[r].live <==> Reachable(c.heap, EdgeSet(root), r))
            && (r in d.heap <==> Wanted(c.heap, EdgeSet(root), r))
            && (r in d.heap ==> r in c.heap && Fewer(c.heap[r].edges, d.heap[r].edges))
  {
    FinishCycleKeepsJustReachable(c, root, us);
    var d := DoCollection(c, root, UntilStop, Stop.FinishCycle, us).cx;
    assert r in d.heap <==> Wanted(c.heap, EdgeSet(root), r);
    if r in d.heap {
      assert Like(Settle(c.heap, EdgeSet(root), r), d.heap[r]);
    }
  }

  /** Every pointer that is gone from a reachable box leads to a box that can still be reached in some
      other way. */
  ghost predicate LostIsReachable(h: map<Ref, Box>, from: set<Edge>, k: map<Ref, Box>) {
    forall p, q {:trigger Lost(h, k, p, q)} | Reachable(h, from, p) && Lost(h, k, p, q) :: Reachable(k, from, q)
  }

  /** The strong pointer from `p` to `q` is gone. */
  predicate Lost(h: map<Ref, Box>, k: map<Ref, Box>, p: Ref, q: Ref) {
    p in h && p in k && Strong(q) in h[p].edges && Strong(q) !in k[p].edges
  }

  lemma {:induction false} PathIsReachable(h: map<Ref, Box>, from: set<Edge>, k: map<Ref, Box>, p: seq<Ref>, i: nat)
    requires KeepsJustReachable(h, from, k) && LostIsReachable(h, from, k) && IsPath(h, from, p) && i < |p|
    ensures Reachable(k, from, p[i])
  {
    if i == 0 {
      assert IsPath(k, from, [p[0]]);
    } else {
      PathIsReachable(h, from, k, p, i - 1);
      assert IsPath(h, from, p[..i]) && p[..i][i - 1] == p[i - 1];
      assert Reachable(h, from, p[i - 1]) && Wanted(h, from, p[i - 1]);
      if Strong(p[i]) in k[p[i - 1]].edges {
        var s :| IsPath(k, from, s) && s[|s| - 1] == p[i - 1];
        assert IsPath(k, from, s + [p[i]]);
      } else {
        assert Lost(h, k, p[i - 1], p[i]);
      }
    }
  }

  /** No path is new. */
  lemma ReachableBefore(h: map<Ref, Box>, from: set<Edge>, k: map<Ref, Box>, r: Ref)
    requires KeepsJustReachable(h, from, k) && Reachable(k, from, r)
    ensures Reachable(h, from, r)
  {
    var p :| IsPath(k, from, p) && p[|p| - 1] == r;
    forall i | 0 <= i < |p| - 1
      ensures p[i] in h && Strong(p[i + 1]) in h[p[i]].edges
    {
      assert Like(Settle(h, from, p[i]), k[p[i]]);
    }
    assert IsPath(h, from, p);
  }

  /** Reachability is the same before and after the cycle. */
  lemma SameReachability(h: map<Ref, Box>, from: set<Edge>, k: map<Ref, Box>, r: Ref)
    requires KeepsJustReachable(h, from, k) && LostIsReachable(h, from, k)
    ensures Reachable(h, from, r) <==> Reachable(k, from, r)
  {
    if Reachable(h, from, r) {
      var p :| IsPath(h, from, p) && p[|p| - 1] == r;
      PathIsReachable(h, from, k, p, |p| - 1);
    } else if Reachable(k, from, r) {
      ReachableBefore(h, from, k, r);
    }
  }

  lemma SameWeaklyHeld(h: map<Ref, Box>, from: set<Edge>, k: map<Ref, Box>, r: Ref)
    requires KeepsJustReachable(h, from, k) && LostIsReachable(h, from, k)
    ensures WeaklyHeld(h, from, r) <==> WeaklyHeld(k, from, r)
  {
    forall q
      ensures Reachable(h, from, q) && q in h && Weak(r) in h[q].edges
         <==> Reachable(k, from, q) && q in k && Weak(r) in k[q].edges
    {
      SameReachability(h, from, k, q);
      assert Wanted(h, from, q) <==> q in k;
      if q in k {
        assert Like(Settle(h, from, q), k[q]);
      }
    }
  }

  /** The heap that a cycle leaves. */
  lemma JustReachableAt(h: map<Ref, Box>, from: set<Edge>, k: map<Ref, Box>, r: Ref)
    requires KeepsJustReachable(h, from, k)
    ensures r in k <==> Wanted(h, from, r)
    ensures r in k && k[r].live <==> Reachable(h, from, r)
  {
    assert r in k <==> Wanted(h, from, r);
    if r in k {
      assert Like(Settle(h, from, r), k[r]);
    }
  }

  lemma TargetIsReachable(h: map<Ref, Box>, from: set<Edge>, p: Ref, q: Ref)
    requires Reachable(h, from, p) && p in h && Strong(q) in h[p].edges
    ensures Reachable(h, from, q)
  {
    var s :| IsPath(h, from, s) && s[|s| - 1] == p;
    assert IsPath(h, from, s + [q]);
  }

  lemma ExactWhenReachable(h: map<Ref, Box>, from: set<Edge>, k: map<Ref, Box>)
    requires KeepsJustReachable(h, from, k) && LostIsReachable(h, from, k)
    ensures IsExact(k, from)
  {
    forall r
      ensures r in k && k[r].live <==> Reachable(k, from, r)
      ensures r in k <==> Wanted(k, from, r)
    {
      SameReachability(h, from, k, r);
      SameWeaklyHeld(h, from, k, r);
      JustReachableAt(h, from, k, r);
    }
  }

  lemma ReachableWhenExact(h: map<Ref, Box>, from: set<Edge>, k: map<Ref, Box>)
    requires KeepsJustReachable(h, from, k) && IsExact(k, from)
    ensures LostIsReachable(h, from, k)
  {
    forall p, q | Reachable(h, from, p) && Lost(h, k, p, q)
      ensures Reachable(k, from, q)
    {
      TargetIsReachable(h, from, p, q);
      JustReachableAt(h, from, k, q);
      assert Wanted(k, from, q) <==> q in k;
    }
  }

  // ------------------------------------------------------ the handles dropped beforehand

  /** Both have the box, live and with the same pointers. */
  predicate Agree(c: Ctx, d: Ctx, r: Ref) {
    && r in c.heap && r in d.heap && c.heap[r].live && d.heap[r].live
    && c.heap[r].edges == d.heap[r].edges
  }

  lemma {:induction false} VacateAllAgrees(c: Ctx, d: Ctx, r: Ref, vs: seq<Vacate>)
    requires Agree(c, d, r)
    ensures Agree(VacateAll(c, vs), VacateAll(d, vs), r)
    decreases |vs|
  {
    if vs == [] {
    } else {
      VacateAllAgrees(Vacated(c, vs[0]), Vacated(d, vs[0]), r, vs[1..]);
    }
  }

  lemma {:induction false} VacateAllConcat(c: Ctx, vs: seq<Vacate>, ws: seq<Vacate>)
    ensures VacateAll(c, vs + ws) == VacateAll(VacateAll(c, vs), ws)
    decreases |vs|
  {
    if vs == [] {
      assert vs + ws == ws;
    } else {
      assert (vs + ws)[1..] == vs[1..] + ws;
      VacateAllConcat(Vacated(c, vs[0]), vs[1..], ws);
    }
  }

  /** A box that is live after the trip has then the pointers that it would have if the handles had been
      dropped before. */
  lemma TickDropsAgree(c: Ctx, root: seq<Edge>, stop: Stop, slept: bool, u: Conduct, r: Ref)
    requires CtxOk(c, root)
    requires var d := Tick(c, root, stop, slept, u).cx; r in d.heap && d.heap[r].live
    ensures Agree(VacateAll(c, TickDrops(c, root, stop, slept, u)), Tick(c, root, stop, slept, u).cx, r)
  {
    var t := Proceed(c, root, stop, slept, u.outcome);
    ProceedKeepsGraph(c, root, stop, slept, u.outcome);
    if !t.Leave? {
      var d := Tuned(t.cx, ReportsIn(c, u));
      VacateAllLoses(d, DropsIn(c, u));
      assert Agree(c, d, r);
      VacateAllAgrees(c, d, r, DropsIn(c, u));
    }
  }

  lemma AgreeTwice(c: Ctx, d: Ctx, e: Ctx, now: seq<Vacate>, later: seq<Vacate>, r: Ref)
    requires Agree(VacateAll(c, now), d, r) && Agree(VacateAll(d, later), e, r)
    ensures Agree(VacateAll(c, now + later), e, r)
  {
    VacateAllAgrees(VacateAll(c, now), d, r, later);
    VacateAllConcat(c, now, later);
  }

  lemma LoopDropsTurn(c: Ctx, root: seq<Edge>, runUntil: RunUntil, stop: Stop, slept: bool, us: seq<Conduct>)
    requires CtxOk(c, root)
    ensures var t := Tick(c, root, stop, slept, Now(us));
            var now := TickDrops(c, root, stop, slept, Now(us));
            CtxOk(t.cx, root)
            && LoopDrops(c, root, runUntil, stop, slept, us)
               == if t.Stay? && !Paid(runUntil, t.cx)
                  then now + LoopDrops(t.cx, root, runUntil, stop, t.slept, Later(us)) else now
  {
    LoopTurn(c, root, runUntil, stop, slept, us);
  }

  lemma {:induction false} LoopDropsAgree(c: Ctx, root: seq<Edge>, runUntil: RunUntil, stop: Stop, slept: bool,
                                          us: seq<Conduct>, d: Ctx, r: Ref)
    requires CtxOk(c, root) && d == Loop(c, root, runUntil, stop, slept, us).cx && r in d.heap && d.heap[r].live
    ensures Agree(VacateAll(c, LoopDrops(c, root, runUntil, stop, slept, us)), d, r)
    decreases !slept, PhasesLeft(c, slept), WorkLeft(c)
  {
    var t := Tick(c, root, stop, slept, Now(us));
    LoopTurn(c, root, runUntil, stop, slept, us);
    LoopDropsTurn(c, root, runUntil, stop, slept, us);
    if t.Stay? && !Paid(runUntil, t.cx) {
      LoopKeepsGraph(t.cx, root, runUntil, stop, t.slept, Later(us));
      LoopDropsAgree(t.cx, root, runUntil, stop, t.slept, Later(us), d, r);
      TickDropsAgree(c, root, stop, slept, Now(us), r);
      AgreeTwice(c, t.cx, d, TickDrops(c, root, stop, slept, Now(us)),
                 LoopDrops(t.cx, root, runUntil, stop, t.slept, Later(us)), r);
    } else {
      TickDropsAgree(c, root, stop, slept, Now(us), r);
    }
  }

  lemma CallDropsAgree(c: Ctx, root: seq<Edge>, runUntil: RunUntil, stop: Stop, us: seq<Conduct>, d: Ctx, r: Ref)
    requires CtxOk(c, root) && d == DoCollection(c, root, runUntil, stop, us).cx && r in d.heap && d.heap[r].live
    ensures Agree(VacateAll(c, CallDrops(c, root, runUntil, stop, us)), d, r)
  {
    if !Paid(runUntil, c) {
      LoopDropsAgree(c, root, runUntil, stop, false, us, d, r);
    }
  }

  /** In both heaps what is reachable in `h` holds the same pointers, and no new ones. */
  ghost predicate SameWithin(h: map<Ref, Box>, from: set<Edge>, k: map<Ref, Box>, v: map<Ref, Box>) {
    forall r {:trigger Reachable(h, from, r)} | Reachable(h, from, r) ::
      && r in h && r in k && r in v && k[r].edges == v[r].edges
      && (forall e | e in k[r].edges :: e in h[r].edges)
  }

  lemma {:induction false} PathWithin(h: map<Ref, Box>, from: set<Edge>, k: map<Ref, Box>, v: map<Ref, Box>,
                                      p: seq<Ref>, i: nat)
    requires SameWithin(h, from, k, v) && IsPath(k, from, p) && i < |p|
    ensures Reachable(h, from, p[i])
  {
    if i == 0 {
      assert IsPath(h, from, [p[0]]);
    } else {
      PathWithin(h, from, k, v, p, i - 1);
      assert p[i - 1] in h && Strong(p[i]) in k[p[i - 1]].edges;
      TargetIsReachable(h, from, p[i - 1], p[i]);
    }
  }

  lemma SameWithinReaches(h: map<Ref, Box>, from: set<Edge>, k: map<Ref, Box>, v: map<Ref, Box>, q: Ref)
    requires SameWithin(h, from, k, v) && Reachable(k, from, q)
    ensures Reachable(v, from, q)
  {
    var p :| IsPath(k, from, p) && p[|p| - 1] == q;
    forall i | 0 <= i < |p| - 1
      ensures p[i] in v && Strong(p[i + 1]) in v[p[i]].edges
    {
      PathWithin(h, from, k, v, p, i);
    }
    assert IsPath(v, from, p);
  }

  lemma SameWithinLoses(h: map<Ref, Box>, from: set<Edge>, k: map<Ref, Box>, v: map<Ref, Box>)
    requires SameWithin(h, from, k, v) && LostIsReachable(h, from, k)
    ensures LostIsReachable(h, from, v)
  {
    forall p, q | Reachable(h, from, p) && Lost(h, v, p, q)
      ensures Reachable(v, from, q)
    {
      assert Lost(h, k, p, q);
      SameWithinReaches(h, from, k, v, q);
    }
  }

  /** The heap after the cycle, and the heap before it without the pointers of the dropped handles. */
  lemma DropsWithin(c: Ctx, root: seq<Edge>, us: seq<Conduct>)
    requires CtxOk(c, root) && c.phase == Sleep
    requires DoCollection(c, root, UntilStop, Stop.FinishCycle, us).Returned?
    ensures var d := DoCollection(c, root, UntilStop, Stop.FinishCycle, us).cx;
            var v := VacateAll(c, CallDrops(c, root, UntilStop, Stop.FinishCycle, us));
            SameWithin(c.heap, EdgeSet(root), d.heap, v.heap) && SameWithin(c.heap, EdgeSet(root), v.heap, d.heap)
  {
    var d := DoCollection(c, root, UntilStop, Stop.FinishCycle, us).cx;
    var v := VacateAll(c, CallDrops(c, root, UntilStop, Stop.FinishCycle, us));
    forall r | Reachable(c.heap, EdgeSet(root), r)
      ensures Agree(v, d, r) && r in c.heap && forall e | e in d.heap[r].edges :: e in c.heap[r].edges
    {
      FinishCycleKeepsReachable(c, root, us, r);
      CallDropsAgree(c, root, UntilStop, Stop.FinishCycle, us, d, r);
    }
  }

  /** A `finish_cycle` from sleep that returns makes the heap exact, if and only if the following holds of
      the heap before the call and of the handles that its destructors drop: if these had been dropped
      already, everything that they lead to from reachable boxes could still be reached in some other
      way. */
  lemma FinishCycleIsExact(c: Ctx, root: seq<Edge>, us: seq<Conduct>)
    requires CtxOk(c, root) && c.phase == Sleep
    requires DoCollection(c, root, UntilStop, Stop.FinishCycle, us).Returned?
    ensures IsExact(DoCollection(c, root, UntilStop, Stop.FinishCycle, us).cx.heap, EdgeSet(root))
       <==> LostIsReachable(c.heap, EdgeSet(root),
                            VacateAll(c, CallDrops(c, root, UntilStop, Stop.FinishCycle, us)).heap)
  {
    var d := DoCollection(c, root, UntilStop, Stop.FinishCycle, us).cx;
    var v := VacateAll(c, CallDrops(c, root, UntilStop, Stop.FinishCycle, us));
    CycleIsExact(c, root, us);
    DropsWithin(c, root, us);
    if LostIsReachable(c.heap, EdgeSet(root), d.heap) {
      SameWithinLoses(c.heap, EdgeSet(root), d.heap, v.heap);
    }
    if LostIsReachable(c.heap, EdgeSet(root), v.heap) {
      SameWithinLoses(c.heap, EdgeSet(root), v.heap, d.heap);
    }
  }

  lemma CycleIsExact(c: Ctx, root: seq<Edge>, us: seq<Conduct>)
    requires CtxOk(c, root) && c.phase == Sleep
    requires DoCollection(c, root, UntilStop, Stop.FinishCycle, us).Returned?
    ensures var d := DoCollection(c, root, UntilStop, Stop.FinishCycle, us).cx;
            IsExact(d.heap, EdgeSet(root)) <==> LostIsReachable(c.heap, EdgeSet(root), d.heap)
  {
    var d := DoCollection(c, root, UntilStop, Stop.FinishCycle, us).cx;
    FinishCycleKeepsJustReachable(c, root, us);
    if LostIsReachable(c.heap, EdgeSet(root), d.heap) {
      ExactWhenReachable(c.heap, EdgeSet(root), d.heap);
    }
    if IsExact(d.heap, EdgeSet(root)) {
      ReachableWhenExact(c.heap, EdgeSet(root), d.heap);
    }
  }

  /** It is enough that no reachable box loses a pointer at all. */
  lemma ExactUnlessVacated(c: Ctx, root: seq<Edge>, us: seq<Conduct>)
    requires CtxOk(c, root) && c.phase == Sleep
    requires DoCollection(c, root, UntilStop, Stop.FinishCycle, us).Returned?
    requires forall r | Reachable(c.heap, EdgeSet(root), r) ::
               r !in CallLosers(c, root, UntilStop, Stop.FinishCycle, us)
    ensures IsExact(DoCollection(c, root, UntilStop, Stop.FinishCycle, us).cx.heap, EdgeSet(root))
  {
    CallKeepsGraph(c, root, UntilStop, Stop.FinishCycle, us);
    CycleIsExact(c, root, us);
  }

  /** Nothing is dropped or deallocated by a cycle that begins with an exact heap, and the heap stays
      as it is. */
  lemma CycleKeepsExact(d: Ctx, root: seq<Edge>, us: seq<Conduct>)
    requires CtxOk(d, root) && d.phase == Sleep && IsExact(d.heap, EdgeSet(root))
    requires DoCollection(d, root, UntilStop, Stop.FinishCycle, us).Returned?
    ensures var e := DoCollection(d, root, UntilStop, Stop.FinishCycle, us).cx; e.heap == d.heap && e.past == d.past
  {
    var from := EdgeSet(root);
    var e := DoCollection(d, root, UntilStop, Stop.FinishCycle, us).cx;
    FinishCycleKeepsJustReachable(d, root, us);
    forall r | r in d.heap
      ensures Wanted(d.heap, from, r) && (d.heap[r].live ==> Reachable(d.heap, from, r))
    {
      assert Wanted(d.heap, from, r) <==> r in d.heap;
    }
    assert Clean(d.heap, from) && SameEdges(d, e);
    forall r | r in d.heap
      ensures e.heap[r] == d.heap[r]
    {
      assert Wanted(d.heap, from, r) && ColorFits(d, r);
      assert Like(Settle(d.heap, from, r), e.heap[r]);
    }
  }

  /** From any state, two calls of `finish_cycle` that return make the heap exact, if and only if whatever
      the handles that the destructors drop in the second one lead to from reachable boxes can also be
      reached without them. An exact heap leaves nothing for a third call to drop or to deallocate. */
  lemma TwoCyclesAreExact(c: Ctx, root: seq<Edge>, us: seq<Conduct>, vs: seq<Conduct>, ws: seq<Conduct>)
    requires CtxOk(c, root)
    ensures var x := DoCollection(c, root, UntilStop, Stop.FinishCycle, us);
            var y := DoCollection(x.cx, root, UntilStop, Stop.FinishCycle, vs);
            var z := DoCollection(y.cx, root, UntilStop, Stop.FinishCycle, ws);
            var drops := CallDrops(x.cx, root, UntilStop, Stop.FinishCycle, vs);
            x.Returned? && y.Returned? ==>
              && (IsExact(y.cx.heap, EdgeSet(root))
                  <==> LostIsReachable(x.cx.heap, EdgeSet(root), VacateAll(x.cx, drops).heap))
              && (IsExact(y.cx.heap, EdgeSet(root)) && z.Returned? ==> z.cx.heap == y.cx.heap && z.cx.past == y.cx.past)
  {
    var x := DoCollection(c, root, UntilStop, Stop.FinishCycle, us);
    StopsAreHonoured(c, root, us);
    if x.Returned? {
      var y := DoCollection(x.cx, root, UntilStop, Stop.FinishCycle, vs);
      StopsAreHonoured(x.cx, root, vs);
      if y.Returned? {
        FinishCycleIsExact(x.cx, root, vs);
        if IsExact(y.cx.heap, EdgeSet(root)) && DoCollection(y.cx, root, UntilStop, Stop.FinishCycle, ws).Returned? {
          CycleKeepsExact(y.cx, root, ws);
        }
      }
    }
  }
}
