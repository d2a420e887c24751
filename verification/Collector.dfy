/** What each operation of the collection context does, as a function from state to state. The
    methods of class `Context` are proved equal to these functions, and every theorem about runs is
    about them. */
module Collector {
  import opened Types
  import opened Metering

  /** Bookkeeping for the proofs: every box ever allocated, and the order in which values were
      dropped and boxes deallocated. */
  datatype History = History(born: set<Ref>, dropped: seq<Ref>, freed: seq<Ref>)

  /** The context. The list of all boxes is `front + back`; the sweep cursor stands between the two
      parts, so `back` is what is left to sweep and is empty outside `Sweep`. */
  datatype Ctx = Ctx(
    phase: Phase,
    heap: map<Ref, Box>,
    front: seq<Ref>,
    back: seq<Ref>,
    gray: seq<Ref>,
    grayAgain: seq<Ref>,
    rootNeedsTrace: bool,
    meter: Meter,
    past: History)
  {
    function List(): seq<Ref> {
      front + back
    }
  }

  const EMPTY := Ctx(Sleep, map[], [], [], [], [], true, ZERO, History({}, [], []))

  function Recolor(c: Ctx, r: Ref, color: Color): Ctx
    requires r in c.heap
  {
    c.(heap := c.heap[r := c.heap[r].(color := color)])
  }

  function CountMark(c: Ctx, r: Ref): Ctx
    requires r in c.heap
  {
    if c.heap[r].color == White then c.(meter := Marked(c.meter, c.heap[r].size)) else c
  }

  // ---------------------------------------------------------------- mutation

  function Allocate(c: Ctx, r: Ref, needsTrace: bool, size: nat, edges: seq<Edge>): Ctx {
    c.(heap := c.heap[r := Box(White, true, needsTrace, size, edges)],
       front := [r] + c.front,
       meter := Allocated(c.meter, size),
       past := c.past.(born := c.past.born + {r}))
  }

  function SetEdges(c: Ctx, r: Ref, edges: seq<Edge>): Ctx
    requires r in c.heap
  {
    c.(heap := c.heap[r := c.heap[r].(edges := edges)])
  }

  function RootBarrier(c: Ctx): Ctx {
    if c.phase == Mark then c.(rootNeedsTrace := true) else c
  }

  function MakeGrayAgain(c: Ctx, r: Ref): Ctx
    requires r in c.heap
  {
    Recolor(c, r, Gray).(grayAgain := c.grayAgain + [r], meter := Untraced(c.meter, c.heap[r].size))
  }

  function BackwardBarrier(c: Ctx, parent: Ref, child: Option<Ref>): Ctx
    requires parent in c.heap && (child.Some? ==> child.value in c.heap)
  {
    if c.phase == Mark && c.heap[parent].color == Black && (child.Some? ==> IsWhite(c.heap[child.value].color)) then
      MakeGrayAgain(c, parent)
    else c
  }

  function BackwardBarrierWeak(c: Ctx, parent: Ref, child: Ref): Ctx
    requires parent in c.heap && child in c.heap
  {
    if c.phase == Mark && c.heap[parent].color == Black && c.heap[child].color == White then
      MakeGrayAgain(c, parent)
    else c
  }

  function ForwardBarrier(c: Ctx, parent: Option<Ref>, child: Ref): Ctx
    requires child in c.heap && (parent.Some? ==> parent.value in c.heap)
  {
    if c.phase == Mark && (parent.Some? ==> c.heap[parent.value].color == Black) then Trace(c, child) else c
  }

  function ForwardBarrierWeak(c: Ctx, parent: Option<Ref>, child: Ref): Ctx
    requires child in c.heap && (parent.Some? ==> parent.value in c.heap)
  {
    if c.phase == Mark && (parent.Some? ==> c.heap[parent.value].color == Black) then TraceWeak(c, child) else c
  }

  predicate Upgradable(c: Ctx, r: Ref)
    requires r in c.heap
  {
    c.heap[r].live && !(c.phase == Sweep && c.heap[r].color == WhiteWeak)
  }

  function Resurrect(c: Ctx, r: Ref): Ctx
    requires r in c.heap
  {
    if IsWhite(c.heap[r].color) then
      Recolor(CountMark(c, r), r, Gray).(gray := c.gray + [r])
    else c
  }

  // ----------------------------------------------------------------- marking

  function Trace(c: Ctx, r: Ref): (c': Ctx)
    requires r in c.heap
    ensures c'.heap.Keys == c.heap.Keys
  {
    if !IsWhite(c.heap[r].color) then c
    else if c.heap[r].needsTrace then Recolor(CountMark(c, r), r, Gray).(gray := c.gray + [r])
    else Recolor(CountMark(c, r), r, Black)
  }

  function TraceWeak(c: Ctx, r: Ref): (c': Ctx)
    requires r in c.heap
    ensures c'.heap.Keys == c.heap.Keys
  {
    if c.heap[r].color == White then Recolor(CountMark(c, r), r, WhiteWeak) else c
  }

  function TraceEdge(c: Ctx, e: Edge): (c': Ctx)
    requires e.to in c.heap
    ensures c'.heap.Keys == c.heap.Keys
  {
    match e
    case Strong(r) => Trace(c, r)
    case Weak(r) => TraceWeak(c, r)
  }

  predicate Present(c: Ctx, edges: seq<Edge>) {
    forall i :: 0 <= i < |edges| ==> edges[i].to in c.heap
  }

  /** Reports the pointers of one value to the context, in order. */
  function TraceEdges(c: Ctx, edges: seq<Edge>): (c': Ctx)
    requires Present(c, edges)
    ensures c'.heap.Keys == c.heap.Keys
  {
    if edges == [] then c
    else TraceEdge(TraceEdges(c, edges[..|edges| - 1]), edges[|edges| - 1])
  }

  /** Every pointer that `trace` is about to follow is allocated, and the strong ones are live. */
  predicate Traceable(c: Ctx, edges: seq<Edge>) {
    forall i :: 0 <= i < |edges| ==> edges[i].to in c.heap && (edges[i].Strong? ==> c.heap[edges[i].to].live)
  }

  predicate MarkDone(c: Ctx) {
    c.gray == [] && c.grayAgain == [] && !c.rootNeedsTrace
  }

  /** The next gray box: the newest of `gray`, or else the newest of `grayAgain`. */
  function NextGray(c: Ctx): Option<Ref> {
    if c.gray != [] then Some(c.gray[|c.gray| - 1])
    else if c.grayAgain != [] then Some(c.grayAgain[|c.grayAgain| - 1])
    else None
  }

  function Pop(c: Ctx): Ctx {
    if c.gray != [] then c.(gray := c.gray[..|c.gray| - 1])
    else if c.grayAgain != [] then c.(grayAgain := c.grayAgain[..|c.grayAgain| - 1])
    else c
  }

  /** Takes the next gray box off its queue and blackens it. */
  function StartTrace(c: Ctx): Ctx
    requires NextGray(c).Some? && NextGray(c).value in c.heap
  {
    var r := NextGray(c).value;
    Recolor(Pop(c), r, Black).(meter := Traced(c.meter, c.heap[r].size))
  }

  /** What `mark_one` reads is there to be read. */
  predicate MarkReady(c: Ctx, root: seq<Edge>) {
    match NextGray(c)
    case Some(r) => r in c.heap && c.heap[r].live && Traceable(c, c.heap[r].edges)
    case None => Traceable(c, root)
  }

  /** How a call into the user's `Collect::trace` ends: it returns, or it panics after having
      reported `reported` pointers. */
  datatype Outcome = Returns | Panics(reported: nat)

  function Reported(edges: seq<Edge>, outcome: Outcome): (es: seq<Edge>)
    ensures es <= edges
  {
    if outcome.Panics? && outcome.reported < |edges| then edges[..outcome.reported] else edges
  }

  /** One step of marking that finds work to do. */
  function MarkOne(c: Ctx, root: seq<Edge>, outcome: Outcome): Ctx
    requires !MarkDone(c) && MarkReady(c, root)
  {
    match NextGray(c)
    case Some(r) =>
      var traced := TraceEdges(StartTrace(c), Reported(c.heap[r].edges, outcome));
      if outcome.Returns? then traced else MakeGrayAgain(traced, r)
    case None =>
      var traced := TraceEdges(c, Reported(root, outcome));
      if outcome.Returns? then traced.(rootNeedsTrace := false) else traced
  }

  // ---------------------------------------------------------------- sweeping

  /** `sweep_one` finds a box, and never a gray one. */
  predicate SweepReady(c: Ctx) {
    c.back != [] && c.back[0] in c.heap && c.heap[c.back[0]].color != Gray
  }

  /** The step runs a destructor. */
  predicate DropsValue(c: Ctx)
    requires SweepReady(c)
  {
    c.heap[c.back[0]].live && IsWhite(c.heap[c.back[0]].color)
  }

  /** The last handle to a slot of a dynamic root set is dropped, so the pointer at this index leaves the
      box of the set. */
  datatype Vacate = Vacate(from: Ref, index: nat)

  /** What the program's own code does when it is called: how `trace` or a destructor ends, what it
      reports to the metrics in the meantime, and which handles of dynamic root sets a destructor
      drops. */
  datatype Conduct = Conduct(outcome: Outcome, reports: seq<Tuning>, drops: seq<Vacate>)

  const CALM := Conduct(Returns, [], [])

  function Tuned(c: Ctx, reports: seq<Tuning>): Ctx {
    c.(meter := TuneAll(c.meter, reports))
  }

  /** The set has not been dropped, and there is a pointer at the index. Slots hold strong pointers. */
  predicate Vacates(c: Ctx, v: Vacate) {
    && v.from in c.heap && c.heap[v.from].live
    && v.index < |c.heap[v.from].edges| && c.heap[v.from].edges[v.index].Strong?
  }

  function Minus(edges: seq<Edge>, i: nat): seq<Edge>
    requires i < |edges|
  {
    edges[..i] + edges[i + 1..]
  }

  function Vacated(c: Ctx, v: Vacate): Ctx {
    if Vacates(c, v) then SetEdges(c, v.from, Minus(c.heap[v.from].edges, v.index)) else c
  }

  function VacateAll(c: Ctx, vs: seq<Vacate>): Ctx
    decreases |vs|
  {
    if vs == [] then c else VacateAll(Vacated(c, vs[0]), vs[1..])
  }

  /** The boxes that lose a pointer. */
  function Losers(c: Ctx, vs: seq<Vacate>): set<Ref>
    decreases |vs|
  {
    if vs == [] then {}
    else (if Vacates(c, vs[0]) then {vs[0].from} else {}) + Losers(Vacated(c, vs[0]), vs[1..])
  }

  /** A destructor is called, and panics. */
  predicate DropPanics(c: Ctx, outcome: Outcome) {
    outcome.Panics? && SweepReady(c) && DropsValue(c)
  }

  /** The destructors that are not mentioned are calm. */
  function ConductOf(us: map<Ref, Conduct>, r: Ref): Conduct {
    if r in us then us[r] else CALM
  }

  function DropValue(c: Ctx, r: Ref): Ctx
    requires r in c.heap
  {
    if c.heap[r].live then c.(past := c.past.(dropped := c.past.dropped + [r])) else c
  }

  function CountDrop(c: Ctx, b: Box): Ctx {
    if b.live then c.(meter := Dropped(c.meter, b.size)) else c
  }

  function Unlink(c: Ctx, r: Ref): Ctx {
    c.(heap := c.heap - {r})
  }

  function Deallocate(c: Ctx, r: Ref, b: Box): Ctx {
    Unlink(c, r).(past := c.past.(freed := c.past.freed + [r]), meter := Freed(c.meter, b.size))
  }

  /** One step of sweeping. A destructor that panics leaves the metrics behind, and leaks the box
      if it was to be deallocated. */
  function SweepOne(c: Ctx, panics: bool): Ctx
    requires SweepReady(c)
  {
    var r := c.back[0];
    var b := c.heap[r];
    var next := c.(back := c.back[1..]);
    match b.color
    case White =>
      if panics && b.live then Unlink(DropValue(next, r), r)
      else Deallocate(CountDrop(DropValue(next, r), b), r, b)
    case WhiteWeak =>
      var kept := DropValue(next, r).(heap := c.heap[r := b.(color := White, live := false)], front := c.front + [r]);
      if panics && b.live then kept
      else var counted := CountDrop(kept, b); counted.(meter := Remembered(counted.meter, b.size))
    case Black =>
      Recolor(next, r, White).(front := c.front + [r], meter := Remembered(c.meter, b.size))
    case Gray => next
  }

  // ------------------------------------------------------------------ phases

  function Wake(c: Ctx): Ctx {
    c.(phase := Mark)
  }

  function StartSweep(c: Ctx): Ctx {
    c.(phase := Sweep, front := [], back := c.List())
  }

  function EndSweep(c: Ctx, resetDebt: bool): Ctx {
    c.(phase := Sleep, rootNeedsTrace := true, meter := Metering.FinishCycle(c.meter, resetDebt))
  }
}
