/** What the program sees of the heap: it is as if there were no collector, but that values that cannot be
    reached go away. What a callback can get hold of, and what the barriers allow it to write. */
module Program {
  import opened Types
  import opened Collector
  import opened Invariant
  import opened Marking
  import opened Sweeping
  import opened Runs
  import opened Safety

  // ----------------------------------------------------------------------- the contents

  /** The contents of a box, which no step of the collector changes. */
  datatype Value = Value(needsTrace: bool, size: nat, edges: seq<Edge>)

  function ValueOf(b: Box): Value {
    Value(b.needsTrace, b.size, b.edges)
  }

  /** A heap without a collector, after the first `i` events: every box that was ever allocated, with the
      pointers that were last put into it. */
  function Plain(evs: seq<Event>, i: nat): map<Ref, Value>
    requires i <= |evs|
  {
    if i == 0 then map[] else PlainAfter(Plain(evs, i - 1), evs[i - 1])
  }

  function PlainAfter(h: map<Ref, Value>, ev: Event): map<Ref, Value> {
    match ev
    case Alloc(r, needsTrace, size, edges) => h[r := Value(needsTrace, size, edges)]
    case Write(p, edges) => Put(h, p, edges)
    case Shed(p, edges) => Put(h, p, edges)
    case _ => h
  }

  function Put(h: map<Ref, Value>, p: Ref, edges: seq<Edge>): map<Ref, Value> {
    if p in h then h[p := h[p].(edges := edges)] else h
  }

  /** The root after the first `i` events. */
  function PlainRoot(evs: seq<Event>, i: nat): seq<Edge>
    requires i <= |evs|
  {
    if i == 0 then []
    else match evs[i - 1]
      case WriteRoot(edges) => edges
      case ShedRoot(edges) => edges
      case _ => PlainRoot(evs, i - 1)
  }

  /** The boxes that are left hold what they hold in `h`, and `h` has every box ever allocated. */
  ghost predicate Agrees(c: Ctx, h: map<Ref, Value>) {
    && h.Keys == c.past.born
    && c.heap.Keys <= h.Keys
    && forall r {:trigger c.heap[r]} | r in c.heap :: ValueOf(c.heap[r]) == h[r]
  }

  lemma SameShapeAgrees(c: Ctx, d: Ctx, h: map<Ref, Value>)
    requires SameShape(c, d) && Agrees(c, h)
    ensures Agrees(d, h)
  {
    forall r | r in d.heap
      ensures ValueOf(d.heap[r]) == h[r]
    {
      assert ValueOf(c.heap[r]) == h[r];
    }
  }

  lemma RecolorAgrees(c: Ctx, d: Ctx, r: Ref, h: map<Ref, Value>)
    requires r in c.heap && r in d.heap && d.heap == c.heap[r := c.heap[r].(color := d.heap[r].color)]
    requires d.past == c.past && Agrees(c, h)
    ensures Agrees(d, h)
  {
    assert ValueOf(c.heap[r]) == h[r];
  }

  lemma MarkOneAgrees(c: Ctx, root: seq<Edge>, outcome: Outcome, h: map<Ref, Value>)
    requires !MarkDone(c) && MarkReady(c, root) && Agrees(c, h)
    ensures Agrees(MarkOne(c, root, outcome), h)
  {
    match NextGray(c) {
      case Some(r) =>
        var traced := TraceEdges(StartTrace(c), Reported(c.heap[r].edges, outcome));
        RecolorAgrees(c, StartTrace(c), r, h);
        TraceEdgesShape(StartTrace(c), Reported(c.heap[r].edges, outcome));
        SameShapeAgrees(StartTrace(c), traced, h);
        RecolorAgrees(traced, MakeGrayAgain(traced, r), r, h);
      case None =>
        TraceEdgesShape(c, Reported(root, outcome));
        SameShapeAgrees(c, TraceEdges(c, Reported(root, outcome)), h);
    }
  }

  lemma SweepOneAgrees(c: Ctx, panics: bool, h: map<Ref, Value>)
    requires SweepReady(c) && Agrees(c, h)
    ensures Agrees(SweepOne(c, panics), h)
  {
    assert ValueOf(c.heap[c.back[0]]) == h[c.back[0]];
  }

  lemma BarrierAgrees(c: Ctx, b: Barrier, h: map<Ref, Value>)
    requires BarrierReady(c, b) && Agrees(c, h)
    ensures Agrees(RunBarrier(c, b), h)
  {
    match b {
      case Backward(p, _) => assert ValueOf(c.heap[p]) == h[p];
      case BackwardWeak(p, _) => assert ValueOf(c.heap[p]) == h[p];
      case Forward(_, child) => assert ValueOf(c.heap[child]) == h[child];
      case ForwardWeak(_, child) => assert ValueOf(c.heap[child]) == h[child];
    }
  }

  lemma StoreAgrees(c: Ctx, p: Ref, edges: seq<Edge>, h: map<Ref, Value>)
    requires p in c.heap && Agrees(c, h)
    ensures Agrees(SetEdges(c, p, edges), Put(h, p, edges))
  {
    assert ValueOf(c.heap[p]) == h[p];
  }

  lemma StepAgrees(w: World, ev: Event, h: map<Ref, Value>)
    requires Allowed(w, ev) && Ready(w, ev) && Agrees(w.cx, h)
    ensures Agrees(After(w, ev).cx, PlainAfter(h, ev))
  {
    match ev {
      case Resurrection(r) => assert ValueOf(w.cx.heap[r]) == h[r];
      case CallBarrier(b) => BarrierAgrees(w.cx, b, h);
      case Write(p, edges) => StoreAgrees(w.cx, p, edges, h);
      case Shed(p, edges) => StoreAgrees(w.cx, p, edges, h);
      case MarkStep(outcome) => MarkOneAgrees(w.cx, w.root, outcome, h);
      case SweepStep(panics) => SweepOneAgrees(w.cx, panics, h);
      case _ =>
    }
  }

  lemma {:induction false} RunAgrees(ws: seq<World>, evs: seq<Event>, i: nat)
    requires IsRun(ws, evs) && ws[0] == INITIAL && i < |ws|
    ensures Agrees(ws[i].cx, Plain(evs, i))
  {
    if i == 0 {
    } else {
      RunAgrees(ws, evs, i - 1);
      RunStep(ws, evs, i - 1);
      StepAgrees(ws[i - 1], evs[i - 1], Plain(evs, i - 1));
    }
  }

  lemma {:induction false} RootIsPlain(ws: seq<World>, evs: seq<Event>, i: nat)
    requires IsRun(ws, evs) && ws[0] == INITIAL && i < |ws|
    ensures ws[i].root == PlainRoot(evs, i)
  {
    if i == 0 {
    } else {
      RootIsPlain(ws, evs, i - 1);
      RunStep(ws, evs, i - 1);
    }
  }

  /** The program cannot tell that there is a collector: at every point of every run, whatever can be
      reached has just the contents that it would have in a heap in which nothing is ever collected, and
      so has the root. */
  lemma ProgramSeesPlainHeap(ws: seq<World>, evs: seq<Event>, i: nat, r: Ref)
    requires IsRun(ws, evs) && ws[0] == INITIAL && i < |ws|
    requires Reachable(ws[i].cx.heap, Sources(ws[i]), r)
    ensures ws[i].root == PlainRoot(evs, i)
    ensures r in ws[i].cx.heap && ws[i].cx.heap[r].live
    ensures r in Plain(evs, i) && ValueOf(ws[i].cx.heap[r]) == Plain(evs, i)[r]
  {
    RootIsPlain(ws, evs, i);
    RunIsSafe(ws, evs, i, r);
    RunAgrees(ws, evs, i);
  }

  // ------------------------------------------------------------ what a callback can hold

  /** The pointers that a callback comes by in an event. */
  function Given(w: World, ev: Event): set<Edge> {
    match ev
    case Alloc(r, _, _, _) => {Strong(r)}
    case Read(_, e) => {e}
    case ReadRoot(e) => {e}
    case Downgrade(r) => {Weak(r)}
    case Upgrade(r) => if Solid(w.cx, r) then {Strong(r)} else {}
    case Resurrection(r) => if r in w.cx.heap && w.cx.heap[r].live then {Strong(r)} else {}
    case _ => {}
  }

  /** All that it has come by since it began. */
  function Gathered(ws: seq<World>, evs: seq<Event>, i: nat): set<Edge>
    requires |ws| == |evs| + 1 && i <= |evs|
  {
    if i == 0 || evs[i - 1].EndCallback? then {}
    else Gathered(ws, evs, i - 1) + Given(ws[i - 1], evs[i - 1])
  }

  /** In every phase, a weak pointer can be upgraded if and only if the value has not been dropped and the
      sweep, if one is under way, will not drop it. */
  lemma UpgradesJustTheSolid(w: World, r: Ref)
    requires WorldOk(w) && EdgeOk(w.cx, Weak(r))
    ensures Upgradable(w.cx, r) <==> Solid(w.cx, r)
  {
    assert ColorFits(w.cx, r);
  }

  lemma StepGives(w: World, ev: Event)
    requires WorldOk(w) && Allowed(w, ev) && Ready(w, ev)
    ensures After(w, ev).held == if ev.EndCallback? then {} else w.held + Given(w, ev)
  {
    if ev.Upgrade? {
      assert EdgeOk(w.cx, Weak(ev.ref));
      UpgradesJustTheSolid(w, ev.ref);
    }
  }

  /** A callback holds just the pointers that it has come by: those that it has read, allocated or
      downgraded, those to live values that it has resurrected, and those upgraded to values that are live
      and not condemned. */
  lemma {:induction false} HoldsWhatItCameBy(ws: seq<World>, evs: seq<Event>, i: nat)
    requires IsRun(ws, evs) && ws[0] == INITIAL && i < |ws|
    ensures ws[i].held == Gathered(ws, evs, i)
  {
    if i == 0 {
    } else {
      HoldsWhatItCameBy(ws, evs, i - 1);
      InitialOk();
      RunKeeps(ws, evs, i - 1);
      RunStep(ws, evs, i - 1);
      StepGives(ws[i - 1], evs[i - 1]);
    }
  }

  /** Without any barrier a callback may look at the root and into the boxes that it holds, downgrade the
      pointers that it holds, try to upgrade weak ones, and while marking resurrect their targets. Pointers
      may be taken away at any time. */
  lemma CallbackMay(w: World, p: Ref, e: Edge, i: nat)
    ensures e in w.root ==> Allowed(w, ReadRoot(e))
    ensures Strong(p) in w.held ==> Allowed(w, Downgrade(p))
    ensures Strong(p) in w.held && p in w.cx.heap && e in w.cx.heap[p].edges ==> Allowed(w, Read(p, e))
    ensures Weak(p) in w.held ==> Allowed(w, Event.Upgrade(p))
    ensures w.cx.phase == Mark && (Weak(p) in w.held || Strong(p) in w.held) ==> Allowed(w, Resurrection(p))
    ensures p in w.cx.heap && w.cx.heap[p].live && i < |w.cx.heap[p].edges| ==>
              Allowed(w, Shed(p, Minus(w.cx.heap[p].edges, i)))
    ensures i < |w.root| ==> Allowed(w, ShedRoot(Minus(w.root, i)))
  {
  }

  /** At every point of every run, in every phase: a weak pointer that the program can reach upgrades if and
      only if the value has not been dropped and the sweep, if one is under way, will not drop it. */
  lemma UpgradeIsExact(ws: seq<World>, evs: seq<Event>, i: nat, r: Ref)
    requires IsRun(ws, evs) && ws[0] == INITIAL && i < |ws| && Weak(r) in Sources(ws[i])
    ensures r in ws[i].cx.heap
    ensures Upgradable(ws[i].cx, r) <==> Solid(ws[i].cx, r)
    ensures ws[i].cx.phase != Sweep ==> (Upgradable(ws[i].cx, r) <==> ws[i].cx.heap[r].live)
  {
    InitialOk();
    RunKeeps(ws, evs, i);
    assert EdgeOk(ws[i].cx, Weak(r));
    UpgradesJustTheSolid(ws[i], r);
  }

  // ------------------------------------------------------------- what a barrier is good for

  /** Once the barrier has been called, the box `p` may adopt the pointer `e`, as its documentation says. */
  predicate Promises(b: Barrier, p: Ref, e: Edge) {
    match b
    case Backward(parent, child) => p == parent && (child.Some? ==> e == Strong(child.value))
    case BackwardWeak(parent, child) => p == parent && e == Weak(child)
    case Forward(parent, child) => e == Strong(child) && (parent.Some? ==> p == parent.value)
    case ForwardWeak(parent, child) => e == Weak(child) && (parent.Some? ==> p == parent.value)
  }

  /** A barrier makes just the adoptions safe that it promises, and those before stay so. */
  lemma GrantsWhatItPromises(permits: Permits, b: Barrier, p: Ref, e: Edge)
    ensures Adoptable(Grant(permits, b), p, e) <==> Adoptable(permits, p, e) || Promises(b, p, e)
  {
  }

  /** What a barrier has made safe stays so until the collector takes its next step. */
  lemma PermitsLast(w: World, ev: Event, p: Ref, e: Edge)
    requires Allowed(w, ev) && Ready(w, ev) && !IsCollection(ev)
    requires Adoptable(w.permits, p, e)
    ensures Adoptable(After(w, ev).permits, p, e)
  {
  }

  /** After a barrier a callback may write to a box that it holds the pointers that are there already, and
      those that it holds and the barrier has promised. */
  lemma BarrierAllowsAdoption(w: World, b: Barrier, p: Ref, edges: seq<Edge>)
    requires WorldOk(w) && Allowed(w, CallBarrier(b)) && Strong(p) in w.held
    requires p in w.cx.heap && w.cx.heap[p].needsTrace
    requires forall e | e in edges :: e in w.cx.heap[p].edges || (e in w.held && Promises(b, p, e))
    ensures Ready(w, CallBarrier(b))
    ensures var v := After(w, CallBarrier(b)); Allowed(v, Write(p, edges)) && Ready(v, Write(p, edges))
  {
    AllowedIsReady(w, CallBarrier(b));
    StepKeeps(w, CallBarrier(b));
    var v := After(w, CallBarrier(b));
    BarrierLeavesBoxes(w.cx, b, p);
    forall e | e in edges
      ensures e in v.cx.heap[p].edges || (e in v.held && Adoptable(v.permits, p, e))
    {
      GrantsWhatItPromises(w.permits, b, p, e);
    }
    AllowedIsReady(v, Write(p, edges));
  }

  lemma BarrierLeavesBoxes(c: Ctx, b: Barrier, p: Ref)
    requires BarrierReady(c, b) && p in c.heap
    ensures var d := RunBarrier(c, b);
            p in d.heap && d.heap[p] == c.heap[p].(color := d.heap[p].color)
  {
  }
}
