/** Arenas in use: callbacks that mutate the object graph, interleaved with partial collections. */
module Runs {
  import opened Types
  import opened Collector
  import opened Invariant
  import Metering

  datatype Barrier =
    | Backward(parent: Ref, child: Option<Ref>)
    | BackwardWeak(parent: Ref, weakChild: Ref)
    | Forward(forParent: Option<Ref>, traced: Ref)
    | ForwardWeak(forParent: Option<Ref>, tracedWeak: Ref)

  /** The adoptions that barriers called since the last collection step have made safe: anything by
      some parents, some pointers by anyone, and some pointers by some parents. */
  datatype Permits = Permits(parents: set<Ref>, children: set<Edge>, pairs: set<(Ref, Edge)>)

  const NOTHING := Permits({}, {}, {})

  /** `held` are the pointers that the running callback may use; it is empty between callbacks.
      `rootOpen` says that the callback may replace the pointers of the root. */
  datatype World = World(cx: Ctx, root: seq<Edge>, held: set<Edge>, rootOpen: bool, permits: Permits)

  /** An arena whose constructor callback has just been entered. */
  const INITIAL := World(EMPTY, [], {}, true, NOTHING)

  datatype Event =
    // what a callback may do
    | Alloc(ref: Ref, needsTrace: bool, size: nat, edges: seq<Edge>)
    | Read(from: Ref, edge: Edge)
    | ReadRoot(edge: Edge)
    | Downgrade(ref: Ref)
    | Upgrade(ref: Ref)
    | Resurrection(ref: Ref)
    | CallBarrier(barrier: Barrier)
    | Write(parent: Ref, edges: seq<Edge>)
    | OpenRoot
    | WriteRoot(edges: seq<Edge>)
    | EndCallback
    // what may happen at any time
    | Shed(parent: Ref, edges: seq<Edge>)
    | ShedRoot(edges: seq<Edge>)
    | Tune(tuning: Metering.Tuning)
    // what a collection does
    | WakeUp
    | MarkStep(outcome: Outcome)
    | BeginSweep
    | SweepStep(panics: bool)
    | FinishSweep(resetDebt: bool)

  predicate IsCollection(ev: Event) {
    ev.WakeUp? || ev.MarkStep? || ev.BeginSweep? || ev.SweepStep? || ev.FinishSweep?
  }

  predicate BarrierHeld(held: set<Edge>, b: Barrier) {
    match b
    case Backward(p, child) => Strong(p) in held && (child.Some? ==> Strong(child.value) in held)
    case BackwardWeak(p, child) => Strong(p) in held && Weak(child) in held
    case Forward(p, child) => (p.Some? ==> Strong(p.value) in held) && Strong(child) in held
    case ForwardWeak(p, child) => (p.Some? ==> Strong(p.value) in held) && Weak(child) in held
  }

  predicate BarrierReady(c: Ctx, b: Barrier) {
    match b
    case Backward(p, child) => p in c.heap && (child.Some? ==> child.value in c.heap)
    case BackwardWeak(p, child) => p in c.heap && child in c.heap
    case Forward(p, child) => (p.Some? ==> p.value in c.heap) && child in c.heap && c.heap[child].live
    case ForwardWeak(p, child) => (p.Some? ==> p.value in c.heap) && child in c.heap
  }

  function RunBarrier(c: Ctx, b: Barrier): Ctx
    requires BarrierReady(c, b)
  {
    match b
    case Backward(p, child) => BackwardBarrier(c, p, child)
    case BackwardWeak(p, child) => BackwardBarrierWeak(c, p, child)
    case Forward(p, child) => ForwardBarrier(c, p, child)
    case ForwardWeak(p, child) => ForwardBarrierWeak(c, p, child)
  }

  /** What each barrier promises its caller. */
  function Grant(permits: Permits, b: Barrier): Permits {
    match b
    case Backward(p, Some(child)) => permits.(pairs := permits.pairs + {(p, Strong(child))})
    case Backward(p, None) => permits.(parents := permits.parents + {p})
    case BackwardWeak(p, child) => permits.(pairs := permits.pairs + {(p, Weak(child))})
    case Forward(Some(p), child) => permits.(pairs := permits.pairs + {(p, Strong(child))})
    case Forward(None, child) => permits.(children := permits.children + {Strong(child)})
    case ForwardWeak(Some(p), child) => permits.(pairs := permits.pairs + {(p, Weak(child))})
    case ForwardWeak(None, child) => permits.(children := permits.children + {Weak(child)})
  }

  predicate Adoptable(permits: Permits, parent: Ref, e: Edge) {
    parent in permits.parents || e in permits.children || (parent, e) in permits.pairs
  }

  /** What the interface of the arena lets happen. A callback uses only pointers it holds, writes
      only what a barrier allows, and keeps nothing past its end; a collection runs only between
      callbacks. Types that do not need tracing hold no pointers. */
  predicate Allowed(w: World, ev: Event) {
    match ev
    case Alloc(r, needsTrace, _, edges) =>
      r !in w.cx.past.born && (forall e | e in edges :: e in w.held) && (needsTrace || edges == [])
    case Read(from, e) => Strong(from) in w.held && (from in w.cx.heap ==> e in w.cx.heap[from].edges)
    case ReadRoot(e) => e in w.root
    case Downgrade(r) => Strong(r) in w.held
    case Upgrade(r) => Weak(r) in w.held
    case Resurrection(r) => w.cx.phase == Mark && (Weak(r) in w.held || Strong(r) in w.held)
    case CallBarrier(b) => BarrierHeld(w.held, b)
    case Write(p, edges) =>
      && Strong(p) in w.held
      && (p in w.cx.heap ==>
            && (w.cx.heap[p].needsTrace || edges == [])
            && forall e | e in edges :: e in w.cx.heap[p].edges || (e in w.held && Adoptable(w.permits, p, e)))
    case OpenRoot => true
    case WriteRoot(edges) => w.rootOpen && forall e | e in edges :: e in w.root || e in w.held
    case EndCallback => true
    case Shed(p, edges) => p in w.cx.heap && w.cx.heap[p].live && forall e | e in edges :: e in w.cx.heap[p].edges
    case ShedRoot(edges) => forall e | e in edges :: e in w.root
    case Tune(_) => true
    case WakeUp => Quiet(w) && w.cx.phase == Sleep
    case MarkStep(_) => Quiet(w) && w.cx.phase == Mark && !MarkDone(w.cx)
    case BeginSweep => Quiet(w) && w.cx.phase == Mark && MarkDone(w.cx)
    case SweepStep(_) => Quiet(w) && w.cx.phase == Sweep && w.cx.back != []
    case FinishSweep(_) => Quiet(w) && w.cx.phase == Sweep && w.cx.back == []
  }

  predicate Quiet(w: World) {
    w.held == {} && !w.rootOpen
  }

  /** Everything that the event reads is allocated, and every value that it looks into or traces
      has not been dropped. */
  predicate Ready(w: World, ev: Event) {
    match ev
    case Read(from, _) => from in w.cx.heap && w.cx.heap[from].live
    case Upgrade(r) => r in w.cx.heap
    case Resurrection(r) => r in w.cx.heap
    case CallBarrier(b) => BarrierReady(w.cx, b)
    case Write(p, _) => p in w.cx.heap && w.cx.heap[p].live
    case MarkStep(_) => MarkReady(w.cx, w.root)
    case SweepStep(_) => SweepReady(w.cx)
    case _ => true
  }

  function After(w: World, ev: Event): World
    requires Allowed(w, ev) && Ready(w, ev)
  {
    match ev
    case Alloc(r, needsTrace, size, edges) =>
      w.(cx := Allocate(w.cx, r, needsTrace, size, edges), held := w.held + {Strong(r)})
    case Read(_, e) => w.(held := w.held + {e})
    case ReadRoot(e) => w.(held := w.held + {e})
    case Downgrade(r) => w.(held := w.held + {Weak(r)})
    case Upgrade(r) => if Upgradable(w.cx, r) then w.(held := w.held + {Strong(r)}) else w
    case Resurrection(r) =>
      if w.cx.heap[r].live then w.(cx := Resurrect(w.cx, r), held := w.held + {Strong(r)}) else w
    case CallBarrier(b) => w.(cx := RunBarrier(w.cx, b), permits := Grant(w.permits, b))
    case Write(p, edges) => w.(cx := SetEdges(w.cx, p, edges))
    case OpenRoot => w.(cx := RootBarrier(w.cx), rootOpen := true)
    case WriteRoot(edges) => w.(root := edges)
    case EndCallback => w.(held := {}, rootOpen := false)
    case Shed(p, edges) => w.(cx := SetEdges(w.cx, p, edges))
    case ShedRoot(edges) => w.(root := edges)
    case Tune(t) => w.(cx := w.cx.(meter := Metering.Tune(w.cx.meter, t)))
    case WakeUp => w.(cx := Wake(w.cx), permits := NOTHING)
    case MarkStep(outcome) => w.(cx := MarkOne(w.cx, w.root, outcome), permits := NOTHING)
    case BeginSweep => w.(cx := StartSweep(w.cx), permits := NOTHING)
    case SweepStep(panics) => w.(cx := SweepOne(w.cx, panics), permits := NOTHING)
    case FinishSweep(resetDebt) => w.(cx := Collector.EndSweep(w.cx, resetDebt), permits := NOTHING)
  }

  /** `ws` are the worlds passed through when the events `evs` happen one after the other. */
  predicate IsRun(ws: seq<World>, evs: seq<Event>) {
    && |ws| == |evs| + 1
    && forall i | 0 <= i < |evs| ::
         Allowed(ws[i], evs[i]) && Ready(ws[i], evs[i]) && ws[i + 1] == After(ws[i], evs[i])
  }

  predicate Follows(w: World, ev: Event, v: World) {
    Allowed(w, ev) && Ready(w, ev) && v == After(w, ev)
  }

  lemma RunStep(ws: seq<World>, evs: seq<Event>, i: nat)
    requires IsRun(ws, evs) && i < |evs|
    ensures Follows(ws[i], evs[i], ws[i + 1])
  {
  }

  lemma RunSnoc(ws: seq<World>, evs: seq<Event>, ev: Event)
    requires IsRun(ws, evs) && Allowed(ws[|evs|], ev) && Ready(ws[|evs|], ev)
    ensures IsRun(ws + [After(ws[|evs|], ev)], evs + [ev])
    ensures (ws + [After(ws[|evs|], ev)])[|evs| + 1] == After(ws[|evs|], ev)
  {
    var vs, fs := ws + [After(ws[|evs|], ev)], evs + [ev];
    forall i | 0 <= i < |fs|
      ensures Allowed(vs[i], fs[i]) && Ready(vs[i], fs[i]) && vs[i + 1] == After(vs[i], fs[i])
    {
    }
  }

  // ------------------------------------------------------------- reachability

  /** `p` follows strong pointers, the first of them out of `from`. */
  predicate IsPath(heap: map<Ref, Box>, from: set<Edge>, p: seq<Ref>) {
    && p != []
    && Strong(p[0]) in from
    && forall i | 0 <= i < |p| - 1 :: p[i] in heap && Strong(p[i + 1]) in heap[p[i]].edges
  }

  ghost predicate Reachable(heap: map<Ref, Box>, from: set<Edge>, r: Ref) {
    exists p :: IsPath(heap, from, p) && p[|p| - 1] == r
  }

  function EdgeSet(edges: seq<Edge>): set<Edge> {
    set e | e in edges
  }

  /** The pointers out of which the mutator can find its way. */
  function Sources(w: World): set<Edge> {
    EdgeSet(w.root) + w.held
  }

  // ---------------------------------------------------------------- invariant

  ghost predicate PermitsOk(w: World) {
    w.cx.phase == Mark ==>
      && (forall p | p in w.permits.parents ::
            p in w.cx.heap && (w.cx.heap[p].needsTrace ==> w.cx.heap[p].color != Black))
      && (forall e | e in w.permits.children :: MarkedEdge(w.cx, e))
      && (forall p, e | (p, e) in w.permits.pairs ::
            p in w.cx.heap && (w.cx.heap[p].needsTrace && w.cx.heap[p].color == Black ==> MarkedEdge(w.cx, e)))
  }

  ghost predicate WorldOk(w: World) {
    && CtxOk(w.cx, w.root)
    && (forall e {:trigger e in w.held} | e in w.held :: EdgeOk(w.cx, e))
    && (w.cx.phase == Mark && w.rootOpen ==> w.cx.rootNeedsTrace)
    && PermitsOk(w)
  }
}
