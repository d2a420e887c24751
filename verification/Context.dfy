/** The collection context as the source has it: headers that are recoloured and relinked in place,
    an intrusive list with a sweep cursor, and the collection loop. Pointers are addresses into
    `memory`, so that every access to a header is an access to an allocated box. */
module Contexts {
  import opened Types
  import opened Metering
  import opened MetricsCells
  import opened Collector
  import opened Invariant
  import opened Links
  import Marking
  import Runs
  import Collection
  import Lifetimes
  import opened Tracing

  /** The header of a box, and the pointers that its value holds. */
  class GcBoxHeader {
    ghost const addr: Ref
    var next: Option<Ref>
    var color: Color
    var needsTrace: bool
    var live: bool
    const size: nat
    var edges: seq<Edge>

    constructor (ghost addr: Ref, size: nat, edges: seq<Edge>)
      ensures this.addr == addr && this.size == size && this.edges == edges
      ensures next == None && color == White && !needsTrace && !live
    {
      this.addr := addr;
      this.size := size;
      this.edges := edges;
      next, color, needsTrace, live := None, White, false, false;
    }

    function View(): Box
      reads this
    {
      Box(color, live, needsTrace, size, edges)
    }
  }

  datatype ControlFlow = Continue | Break | Unwind

  lemma OneMore(c: Ctx, edges: seq<Edge>, i: nat)
    requires Present(c, edges) && i < |edges|
    ensures edges[i].to in TraceEdges(c, edges[..i]).heap
    ensures TraceEdges(c, edges[..i + 1]) == TraceEdge(TraceEdges(c, edges[..i]), edges[i])
  {
    assert edges[..i + 1][..i] == edges[..i];
  }

  /** The box that is about to be traced, as `mark_one` finds it. */
  lemma ReadyToTrace(c: Ctx, root: seq<Edge>, outcome: Outcome)
    requires MarkReady(c, root) && NextGray(c).Some?
    ensures var r := NextGray(c).value; var es := Reported(c.heap[r].edges, outcome);
      && StartTrace(c).heap[r].edges == c.heap[r].edges
      && Present(StartTrace(c), es)
      && TraceEdges(StartTrace(c), es).heap[r].color == Black
  {
    var r := NextGray(c).value;
    Marking.TraceEdgesSpare(StartTrace(c), Reported(c.heap[r].edges, outcome));
  }

  /** What becomes of a box that is off the list. */
  function Discarded(c: Ctx, r: Ref, live: bool, size: nat, u: Conduct): Ctx {
    var d := if live then c.(past := c.past.(dropped := c.past.dropped + [r])) else c;
    if !live then Deallocated(d, r, size)
    else if u.outcome.Panics? then Ran(d, u)
    else Ran(Deallocated(d.(meter := Dropped(d.meter, size)), r, size), u)
  }

  function Deallocated(c: Ctx, r: Ref, size: nat): Ctx {
    c.(past := c.past.(freed := c.past.freed + [r]), meter := Freed(c.meter, size))
  }

  /** What a destructor does to the metrics and to dynamic root sets. */
  function Ran(c: Ctx, u: Conduct): Ctx {
    VacateAll(Tuned(c, u.reports), u.drops)
  }

  /** The value of `r` is dropped, and `r` is not live any more. */
  function Emptied(c: Ctx, r: Ref, u: Conduct): Ctx
    requires r in c.heap
  {
    var b := c.heap[r];
    var dead := DropValue(c, r).(heap := c.heap[r := b.(live := false)]);
    if !b.live then dead
    else if u.outcome.Panics? then Ran(dead, u)
    else Ran(CountDrop(dead, b), u)
  }

  /** The box at the cursor is white and in front of the cursor. */
  function Whitened(c: Ctx): Ctx
    requires c.back != [] && c.back[0] in c.heap
  {
    Recolor(c, c.back[0], White).(front := c.front + [c.back[0]], back := c.back[1..])
  }

  /** A step of sweeping, with what the destructor does if one is called. */
  function Swept(c: Ctx, u: Conduct): Ctx
    requires SweepReady(c)
  {
    var d := Collector.SweepOne(c, u.outcome.Panics?);
    if DropsValue(c) then Ran(d, u) else d
  }

  /** Dropped handles do not touch the counters or the history. */
  lemma {:induction false} VacateCommutes(c: Ctx, vs: seq<Vacate>, m: Meter, past: History)
    ensures VacateAll(c.(meter := m, past := past), vs) == VacateAll(c, vs).(meter := m, past := past)
    decreases |vs|
  {
    if vs == [] {
    } else {
      VacateCommutes(Vacated(c, vs[0]), vs[1..], m, past);
      assert Vacated(c.(meter := m, past := past), vs[0]) == Vacated(c, vs[0]).(meter := m, past := past);
    }
  }

  /** It makes no difference whether the collector counts before or after the destructor has run. */
  lemma RanThenCounted(c: Ctx, u: Conduct, r: Ref, size: nat)
    ensures var d := Ran(c, u); Ran(c.(meter := Dropped(c.meter, size)), u) == d.(meter := Dropped(d.meter, size))
    ensures var d := Ran(c, u); Ran(c.(meter := Remembered(c.meter, size)), u) == d.(meter := Remembered(d.meter, size))
    ensures Ran(Deallocated(c, r, size), u) == Deallocated(Ran(c, u), r, size)
  {
    TuningCommutes(c.meter, u.reports, size);
    var t := Tuned(c, u.reports);
    var m := t.meter;
    VacateCommutes(t, u.drops, m, c.past);
    VacateCommutes(t, u.drops, Dropped(m, size), c.past);
    VacateCommutes(t, u.drops, Remembered(m, size), c.past);
    VacateCommutes(t, u.drops, Freed(m, size), c.past.(freed := c.past.freed + [r]));
  }

  lemma DiscardCommutes(c: Ctx, r: Ref, size: nat, u: Conduct)
    ensures var d := c.(past := c.past.(dropped := c.past.dropped + [r]));
            var e := Ran(d, u);
            Ran(Deallocated(d.(meter := Dropped(d.meter, size)), r, size), u)
            == Deallocated(e.(meter := Dropped(e.meter, size)), r, size)
  {
    var d := c.(past := c.past.(dropped := c.past.dropped + [r]));
    RanThenCounted(d, u, r, size);
    RanThenCounted(d.(meter := Dropped(d.meter, size)), u, r, size);
  }

  /** The order in which a weakly held box is whitened and emptied does not matter. */
  lemma WhitenedThenEmptied(c: Ctx, u: Conduct)
    requires SweepReady(c) && c.heap[c.back[0]].color == WhiteWeak
    ensures var r := c.back[0]; var b := c.heap[r]; var d := Emptied(Whitened(c), r, u);
            Swept(c, u) == if u.outcome.Panics? && b.live then d else d.(meter := Remembered(d.meter, b.size))
  {
    var r := c.back[0];
    var b := c.heap[r];
    var dead := b.(color := White, live := false);
    assert c.heap[r := b.(color := White)][r := dead] == c.heap[r := dead];
    var kept := DropValue(Whitened(c), r).(heap := c.heap[r := dead]);
    RanThenCounted(CountDrop(kept, b), u, r, b.size);
  }

  /** What the parts of the loop come to, phase by phase. */
  lemma MarkTick(c: Ctx, root: seq<Edge>, stop: Stop, slept: bool, u: Conduct)
    requires CtxOk(c, root) && c.phase == Mark && MarkReady(c, root)
    ensures var t := Collection.Tick(c, root, stop, slept, u);
            && (!MarkDone(c) ==>
                  var d := Tuned(Collector.MarkOne(c, root, u.outcome), u.reports);
                  t == if u.outcome.Panics? then Collection.Unwind(d) else Collection.Stay(d, slept))
            && (MarkDone(c) && stop.Rank() <= FullyMarked.Rank() ==> t == Collection.Leave(c))
            && (MarkDone(c) && stop.Rank() > FullyMarked.Rank() ==> t == Collection.Stay(StartSweep(c), slept))
  {
  }

  lemma SweepTick(c: Ctx, root: seq<Edge>, stop: Stop, slept: bool, u: Conduct)
    requires CtxOk(c, root) && c.phase == Sweep && (c.back != [] ==> SweepReady(c))
    ensures var t := Collection.Tick(c, root, stop, slept, u);
            && (stop.Rank() <= AtSweep.Rank() ==> t == Collection.Leave(c))
            && (stop.Rank() > AtSweep.Rank() && c.back != [] ==>
                  t == if u.outcome.Panics? && DropsValue(c) then Collection.Unwind(Swept(c, u))
                       else Collection.Stay(Swept(c, u), slept))
            && (stop.Rank() > AtSweep.Rank() && c.back == [] ==>
                  t == if stop == Stop.FinishCycle || slept then Collection.Leave(EndSweep(c, slept))
                       else Collection.Stay(EndSweep(c, slept), slept))
  {
  }

  lemma TearDownStep(c: Ctx, xs: seq<Ref>, us: map<Ref, Conduct>)
    requires xs != [] && Lifetimes.Droppable(c, xs)
    ensures var d := Lifetimes.DropOne(c, xs[0], ConductOf(us, xs[0]));
      && Lifetimes.Droppable(d, xs[1..])
      && Lifetimes.TearDown(c, xs, us) == Lifetimes.TearDown(d, xs[1..], us)
  {
  }

  /** The targets of the pointers in the value are marked, and no other box has changed. */
  ghost predicate MarksJustHeld(c: Ctx, d: Ctx, v: Val) {
    && d.heap.Keys == c.heap.Keys
    && (forall e {:trigger Holds(v, e)} :: Holds(v, e) ==> MarkedEdge(d, e))
    && (forall r {:trigger d.heap[r]} | r in c.heap && !Holds(v, Strong(r)) && !Holds(v, Weak(r)) ::
          d.heap[r] == c.heap[r])
  }

  lemma TypedMarks(c: Ctx, v: Val)
    requires Present(c, Pointers(v))
    ensures MarksJustHeld(c, TraceEdges(c, Pointers(v)), v)
  {
    Marking.TraceEdgesMark(c, Pointers(v));
    Marking.TraceEdgesShape(c, Pointers(v));
    forall e
      ensures e in Pointers(v) <==> Holds(v, e)
    {
      PointersAreHeld(v, e);
    }
  }

  class Context {
    const metrics: Metrics
    var phase: Phase
    var all: Option<Ref>
    var sweep: Option<Ref>
    var sweepPrev: Option<Ref>
    var rootNeedsTrace: bool
    var gray: seq<Ref>
    var grayAgain: seq<Ref>
    var memory: map<Ref, GcBoxHeader>
    ghost var front: seq<Ref>
    ghost var back: seq<Ref>
    ghost var past: History

    ghost function HeapView(): map<Ref, Box>
      reads this`memory, memory.Values
    {
      map r | r in memory :: memory[r].View()
    }

    ghost function View(): Ctx
      reads this, metrics, memory.Values
    {
      Ctx(phase, HeapView(), front, back, gray, grayAgain, rootNeedsTrace, metrics.View(), past)
    }

    ghost function Nexts(): map<Ref, Option<Ref>>
      reads this`memory, memory.Values
    {
      map r | r in memory :: memory[r].next
    }

    ghost function CursorView(): Cursor
      reads this, memory.Values
    {
      Cursor(Nexts(), all, sweep, sweepPrev, phase == Sweep, front, back)
    }

    /** Each header is at its own address. */
    ghost predicate Addressed()
      reads this`memory, memory.Values
    {
      forall r {:trigger memory[r]} | r in memory :: memory[r].addr == r
    }

    /** What holds of the list even at the very end of a sweep, when the predecessor of the cursor has
        been forgotten and the phase has not yet changed. */
    ghost predicate Shape()
      reads this, memory.Values
    {
      Addressed() && ListOk(CursorView())
    }

    ghost predicate Valid()
      reads this, memory.Values
    {
      Addressed() && CursorOk(CursorView())
    }

    constructor ()
      ensures Valid() && View() == EMPTY
      ensures fresh(metrics)
    {
      metrics := new Metrics();
      phase := Sleep;
      all, sweep, sweepPrev := None, None, None;
      rootNeedsTrace := true;
      gray, grayAgain := [], [];
      memory := map[];
      front, back := [], [];
      past := History({}, [], []);
    }

    // ------------------------------------------------------------------------ headers

    /** A change to one header shows at its address and nowhere else. */
    twostate lemma HeaderChanged(r: Ref)
      requires memory == old(memory) && Addressed() && r in memory
      requires forall q | q in memory && q != r :: unchanged(memory[q])
      ensures HeapView() == old(HeapView())[r := memory[r].View()]
      ensures Nexts() == old(Nexts())[r := memory[r].next]
    {
    }

    twostate lemma HeaderAdded(r: Ref)
      requires r in memory && r !in old(memory) && memory == old(memory)[r := memory[r]]
      requires forall q | q in old(memory) :: unchanged(old(memory)[q])
      ensures HeapView() == old(HeapView())[r := memory[r].View()]
      ensures Nexts() == old(Nexts())[r := memory[r].next]
    {
    }

    twostate lemma HeaderRemoved(r: Ref)
      requires memory == old(memory) - {r}
      requires forall q | q in memory :: unchanged(memory[q])
      ensures HeapView() == old(HeapView()) - {r}
      ensures Nexts() == old(Nexts()) - {r}
    {
    }

    method SetColor(r: Ref, color: Color)
      requires Valid() && r in memory
      modifies memory[r]
      ensures Valid() && View() == Recolor(old(View()), r, color)
    {
      memory[r].color := color;
      HeaderChanged(r);
      assert Nexts() == old(Nexts());
    }

    method StoreEdges(r: Ref, edges: seq<Edge>)
      requires Addressed() && r in memory
      modifies memory[r]
      ensures Addressed() && View() == SetEdges(old(View()), r, edges) && Nexts() == old(Nexts())
      ensures old(Valid()) ==> Valid()
    {
      memory[r].edges := edges;
      HeaderChanged(r);
      assert Nexts() == old(Nexts());
    }

    method PushGray(r: Ref)
      requires Valid()
      modifies this`gray
      ensures Valid() && View() == old(View()).(gray := old(gray) + [r])
    {
      gray := gray + [r];
    }

    method PushGrayAgain(r: Ref)
      requires Valid()
      modifies this`grayAgain
      ensures Valid() && View() == old(View()).(grayAgain := old(grayAgain) + [r])
    {
      grayAgain := grayAgain + [r];
    }

    method CountMarked(size: nat)
      requires Valid()
      modifies metrics
      ensures Valid() && View() == old(View()).(meter := Marked(old(metrics.View()), size))
    {
      metrics.MarkGcMarked(size);
    }

    method CountUntraced(size: nat)
      requires Valid()
      modifies metrics
      ensures Valid() && View() == old(View()).(meter := Untraced(old(metrics.View()), size))
    {
      metrics.MarkGcUntraced(size);
    }

    /** What the program's code reports to the metrics while the collector calls it. */
    method Report(reports: seq<Tuning>)
      modifies metrics
      ensures View() == Tuned(old(View()), reports)
      ensures old(Valid()) ==> Valid()
    {
      for i := 0 to |reports|
        invariant TuneAll(metrics.View(), reports[i..]) == TuneAll(old(metrics.View()), reports)
      {
        metrics.Apply(reports[i]);
        assert reports[i..][1..] == reports[i + 1..];
      }
    }

    /** The drop of a handle that is the last one to its slot, while the set is alive. */
    method VacateSlot(v: Vacate)
      requires Addressed()
      modifies memory.Values
      ensures Addressed() && View() == Vacated(old(View()), v) && Nexts() == old(Nexts())
      ensures old(Valid()) ==> Valid()
    {
      if v.from in memory && memory[v.from].live && v.index < |memory[v.from].edges| {
        var edges := memory[v.from].edges;
        if edges[v.index].Strong? {
          StoreEdges(v.from, edges[..v.index] + edges[v.index + 1..]);
        }
      }
    }

    /** What a destructor does to dynamic root sets. */
    method VacateSlots(vs: seq<Vacate>)
      requires Addressed()
      modifies memory.Values
      ensures Addressed() && View() == VacateAll(old(View()), vs) && Nexts() == old(Nexts())
      ensures old(Valid()) ==> Valid()
    {
      ghost var was := View();
      for i := 0 to |vs|
        invariant Addressed() && Nexts() == old(Nexts()) && (old(Valid()) ==> Valid())
        invariant VacateAll(View(), vs[i..]) == VacateAll(was, vs)
      {
        assert vs[i..][1..] == vs[i + 1..];
        VacateSlot(vs[i]);
      }
    }

    /** Runs the destructor of the value of `r`, up to its end or its panic. */
    method RunDestructor(ghost r: Ref, u: Conduct)
      requires Addressed()
      modifies this`past, metrics, memory.Values
      ensures Addressed() && Nexts() == old(Nexts())
      ensures View() == Ran(old(View()).(past := old(past).(dropped := old(past).dropped + [r])), u)
      ensures old(Valid()) ==> Valid()
    {
      DropInPlace(r);
      Report(u.reports);
      VacateSlots(u.drops);
    }

    // --------------------------------------------------------------------- allocation

    /** Puts a header at its address. */
    method Insert(r: Ref, header: GcBoxHeader)
      requires Addressed() && r !in memory && header.addr == r
      modifies this`memory
      ensures Addressed() && memory == old(memory)[r := header]
      ensures HeapView() == old(HeapView())[r := header.View()]
      ensures CursorView() == old(CursorView()).(next := old(Nexts())[r := header.next])
    {
      memory := memory[r := header];
      HeaderAdded(r);
    }

    /** Makes `r` the head of the list, and the predecessor of a cursor that had none. */
    method PushHead(r: Ref)
      requires Addressed()
      modifies this`all, this`front, this`sweepPrev
      ensures Addressed() && HeapView() == old(HeapView())
      ensures CursorView() == LinkHead(old(CursorView()), r).(next := old(Nexts()))
    {
      all := Some(r);
      front := [r] + front;
      if phase == Sweep && sweepPrev == None {
        sweepPrev := all;
      }
    }

    /** Puts a header into memory at the address `r`, at the head of the list. */
    method LinkNew(r: Ref, header: GcBoxHeader)
      requires Valid() && r !in memory && header.addr == r && header.next == all
      modifies this`memory, this`all, this`front, this`sweepPrev
      ensures Valid() && memory == old(memory)[r := header]
      ensures View() == old(View()).(heap := old(HeapView())[r := header.View()], front := [r] + old(front))
    {
      ghost var l := CursorView();
      LinkHeadOk(l, r);
      Insert(r, header);
      PushHead(r);
      assert CursorView() == LinkHead(l, r);
      assert front == CursorView().front;
    }

    method CountAllocated(ghost r: Ref, size: nat)
      requires Valid()
      modifies this`past, metrics
      ensures Valid()
      ensures View() == old(View()).(meter := Allocated(old(metrics.View()), size),
                                     past := old(past).(born := old(past).born + {r}))
    {
      past := past.(born := past.born + {r});
      metrics.MarkGcAllocated(size);
    }

    /** A live white header that leads to the present head of the list. */
    method NewHeader(r: Ref, needsTrace: bool, size: nat, edges: seq<Edge>) returns (header: GcBoxHeader)
      requires Valid()
      ensures fresh(header) && header.addr == r && header.next == all && View() == old(View()) && Valid()
      ensures header.View() == Box(White, true, needsTrace, size, edges)
    {
      header := new GcBoxHeader(r, size, edges);
      header.next := all;
      header.live := true;
      header.needsTrace := needsTrace;
    }

    /** `Mutation::allocate`. The allocator's choice of an address is a parameter. */
    method Allocate(r: Ref, needsTrace: bool, size: nat, edges: seq<Edge>)
      requires Valid() && r !in memory
      modifies this, metrics
      ensures Valid() && View() == Collector.Allocate(old(View()), r, needsTrace, size, edges)
      ensures memory.Keys == old(memory).Keys + {r} && fresh(memory[r])
      ensures forall q | q in old(memory) :: memory[q] == old(memory)[q]
    {
      var header := NewHeader(r, needsTrace, size, edges);
      assert View() == old(View()) && Valid();
      LinkNew(r, header);
      CountAllocated(r, size);
    }

    // ----------------------------------------------------------------------- barriers

    method RootBarrier()
      requires Valid()
      modifies this`rootNeedsTrace
      ensures Valid() && View() == Collector.RootBarrier(old(View()))
    {
      if phase == Mark {
        SetRootNeedsTrace(true);
      }
    }

    method MakeGrayAgain(r: Ref)
      requires Valid() && r in memory && memory[r].color == Black
      modifies this`grayAgain, metrics, memory[r]
      ensures Valid() && View() == Collector.MakeGrayAgain(old(View()), r)
    {
      SetColor(r, Gray);
      PushGrayAgain(r);
      CountUntraced(memory[r].size);
    }

    method BackwardBarrier(parent: Ref, child: Option<Ref>)
      requires Valid() && parent in memory && (child.Some? ==> child.value in memory)
      modifies this`grayAgain, metrics, memory[parent]
      ensures Valid() && View() == Collector.BackwardBarrier(old(View()), parent, child)
    {
      if phase == Mark && memory[parent].color == Black && (child.Some? ==> IsWhite(memory[child.value].color)) {
        MakeGrayAgain(parent);
      }
    }

    method BackwardBarrierWeak(parent: Ref, child: Ref)
      requires Valid() && parent in memory && child in memory
      modifies this`grayAgain, metrics, memory[parent]
      ensures Valid() && View() == Collector.BackwardBarrierWeak(old(View()), parent, child)
    {
      if phase == Mark && memory[parent].color == Black && memory[child].color == White {
        MakeGrayAgain(parent);
      }
    }

    method ForwardBarrier(parent: Option<Ref>, child: Ref)
      requires Valid() && child in memory && (parent.Some? ==> parent.value in memory)
      modifies this`gray, metrics, memory[child]
      ensures Valid() && View() == Collector.ForwardBarrier(old(View()), parent, child)
    {
      if phase == Mark && (parent.Some? ==> memory[parent.value].color == Black) {
        Trace(child);
      }
    }

    method ForwardBarrierWeak(parent: Option<Ref>, child: Ref)
      requires Valid() && child in memory && (parent.Some? ==> parent.value in memory)
      modifies metrics, memory[child]
      ensures Valid() && View() == Collector.ForwardBarrierWeak(old(View()), parent, child)
    {
      if phase == Mark && (parent.Some? ==> memory[parent.value].color == Black) {
        TraceWeak(child);
      }
    }

    method CallBarrier(b: Runs.Barrier)
      requires Valid() && Runs.BarrierReady(View(), b)
      modifies this`gray, this`grayAgain, metrics, memory.Values
      ensures Valid() && View() == Runs.RunBarrier(old(View()), b)
    {
      match b {
        case Backward(parent, child) => BackwardBarrier(parent, child);
        case BackwardWeak(parent, child) => BackwardBarrierWeak(parent, child);
        case Forward(parent, child) => ForwardBarrier(parent, child);
        case ForwardWeak(parent, child) => ForwardBarrierWeak(parent, child);
      }
    }

    // ------------------------------------------------------------------------ marking

    method Trace(r: Ref)
      requires Valid() && r in memory
      modifies this`gray, metrics, memory[r]
      ensures Valid() && View() == Collector.Trace(old(View()), r)
    {
      var color := memory[r].color;
      if IsWhite(color) {
        if memory[r].needsTrace {
          SetColor(r, Gray);
          PushGray(r);
        } else {
          SetColor(r, Black);
        }
        if color == White {
          CountMarked(memory[r].size);
        }
      }
    }

    method TraceWeak(r: Ref)
      requires Valid() && r in memory
      modifies metrics, memory[r]
      ensures Valid() && View() == Collector.TraceWeak(old(View()), r)
    {
      if memory[r].color == White {
        SetColor(r, WhiteWeak);
        CountMarked(memory[r].size);
      }
    }

    method TracePointer(e: Edge)
      requires Valid() && e.to in memory
      modifies this`gray, metrics, memory[e.to]
      ensures Valid() && View() == TraceEdge(old(View()), e)
    {
      match e {
        case Strong(r) => Trace(r);
        case Weak(r) => TraceWeak(r);
      }
    }

    /** A call of `Collect::trace` on a value that holds `edges`, or on the root. */
    method TraceValue(edges: seq<Edge>)
      requires Valid() && Present(View(), edges)
      modifies this`gray, metrics, memory.Values
      ensures Valid() && View() == TraceEdges(old(View()), edges)
    {
      ghost var was := View();
      for i := 0 to |edges|
        invariant Valid() && View() == TraceEdges(was, edges[..i])
      {
        OneMore(was, edges, i);
        TracePointer(edges[i]);
      }
      assert edges[..|edges|] == edges;
    }

    /** What the `trace` of a value reports. */
    method ReportedBy(t: Ty, v: Val) returns (edges: seq<Edge>)
      requires HasType(v, t)
      ensures edges == Pointers(v)
    {
      var tracer := new Tracer();
      tracer.Trace(t, v);
      return tracer.reported;
    }

    /** A call of `Collect::trace` on a value `v` of type `t`: what the value's own `trace` reports is
        what the context sees. */
    method TraceTyped(t: Ty, v: Val)
      requires Valid() && HasType(v, t) && Present(View(), Pointers(v))
      modifies this`gray, metrics, memory.Values
      ensures Valid() && View() == TraceEdges(old(View()), Pointers(v))
      ensures MarksJustHeld(old(View()), View(), v)
    {
      TypedMarks(View(), v);
      ghost var was := View();
      var edges := ReportedBy(t, v);
      assert Valid() && View() == was;
      TraceValue(edges);
    }

    /** `Context::upgrade`. */
    method Upgrade(r: Ref) returns (ok: bool)
      requires Valid() && r in memory
      ensures ok <==> Upgradable(View(), r)
      ensures ok <==> if phase == Sweep then memory[r].live && memory[r].color != WhiteWeak else memory[r].live
    {
      if !memory[r].live {
        return false;
      }
      if phase == Sweep && memory[r].color == WhiteWeak {
        return false;
      }
      return true;
    }

    /** `GcWeak::is_dropped`. */
    method IsDropped(r: Ref) returns (dropped: bool)
      requires r in memory
      ensures dropped <==> !View().heap[r].live
    {
      return !memory[r].live;
    }

    /** `Gc::is_dead`. */
    method IsDead(r: Ref) returns (dead: bool)
      requires r in memory
      ensures dead <==> IsWhite(View().heap[r].color)
    {
      return IsWhite(memory[r].color);
    }

    /** Whether there is something left to mark. */
    method GrayRemaining() returns (remaining: bool)
      ensures remaining <==> !MarkDone(View())
    {
      return gray != [] || grayAgain != [] || rootNeedsTrace;
    }

    /** `Context::resurrect`. */
    method Resurrect(r: Ref)
      requires Valid() && r in memory
      modifies this`gray, metrics, memory[r]
      ensures Valid() && View() == Collector.Resurrect(old(View()), r)
    {
      var color := memory[r].color;
      if IsWhite(color) {
        SetColor(r, Gray);
        PushGray(r);
        if color == White {
          CountMarked(memory[r].size);
        }
      }
    }

    /** `Gc::write` followed by the write: the parent may adopt any pointers. */
    method LockSet(r: Ref, edges: seq<Edge>)
      requires Valid() && r in memory
      modifies this`grayAgain, metrics, memory[r]
      ensures Valid() && View() == SetEdges(Collector.BackwardBarrier(old(View()), r, None), r, edges)
    {
      BackwardBarrier(r, None);
      StoreEdges(r, edges);
    }

    /** `Lock::take` moves the pointers out of one lock, those from `from` to `to` of the box, without a
        barrier. */
    method LockTake(r: Ref, from: nat, to: nat) returns (taken: seq<Edge>)
      requires Valid() && r in memory && from <= to <= |memory[r].edges|
      modifies memory[r]
      ensures taken == old(memory[r].edges)[from..to]
      ensures Valid() && View() == SetEdges(old(View()), r, old(memory[r].edges)[..from] + old(memory[r].edges)[to..])
    {
      taken := memory[r].edges[from..to];
      StoreEdges(r, memory[r].edges[..from] + memory[r].edges[to..]);
    }

    /** Takes the next gray box off its queue, the newest first. */
    method PopGray() returns (r: Option<Ref>)
      requires Valid()
      modifies this`gray, this`grayAgain
      ensures Valid() && r == NextGray(old(View())) && View() == Pop(old(View()))
    {
      if gray != [] {
        r := Some(gray[|gray| - 1]);
        gray := gray[..|gray| - 1];
      } else if grayAgain != [] {
        r := Some(grayAgain[|grayAgain| - 1]);
        grayAgain := grayAgain[..|grayAgain| - 1];
      } else {
        r := None;
      }
    }

    method CountTraced(size: nat)
      requires Valid()
      modifies metrics
      ensures Valid() && View() == old(View()).(meter := Traced(old(metrics.View()), size))
    {
      metrics.MarkGcTraced(size);
    }

    /** Takes the next gray box off its queue, counts it and blackens it. */
    method BeginTrace() returns (next: Option<Ref>)
      requires Valid() && (NextGray(View()).Some? ==> NextGray(View()).value in memory)
      modifies this`gray, this`grayAgain, metrics, memory.Values
      ensures Valid() && next == NextGray(old(View()))
      ensures View() == if next == None then old(View()) else StartTrace(old(View()))
    {
      next := PopGray();
      match next {
        case Some(r) =>
          CountTraced(memory[r].size);
          SetColor(r, Black);
        case None =>
      }
    }

    /** Traces the box `r`, which was just taken off its queue. If the user's `trace` panics, the box
        goes back to a queue while unwinding. */
    method TraceBox(r: Ref, u: Conduct) returns (flow: ControlFlow)
      requires Valid() && r in memory
      requires Present(View(), Reported(memory[r].edges, u.outcome))
      requires TraceEdges(View(), Reported(memory[r].edges, u.outcome)).heap[r].color == Black
      modifies this`gray, this`grayAgain, metrics, memory.Values
      ensures Valid()
      ensures var traced := TraceEdges(old(View()), Reported(old(memory[r].edges), u.outcome));
        View() == Tuned(if u.outcome.Returns? then traced else Collector.MakeGrayAgain(traced, r), u.reports)
      ensures flow == if u.outcome.Returns? then Continue else Unwind
    {
      TraceValue(Reported(memory[r].edges, u.outcome));
      TuningCommutes(metrics.View(), u.reports, memory[r].size);
      Report(u.reports);
      if u.outcome.Panics? {
        assert View().heap[r] == memory[r].View();
        MakeGrayAgain(r);
        return Unwind;
      }
      return Continue;
    }

    method SetRootNeedsTrace(needsTrace: bool)
      requires Valid()
      modifies this`rootNeedsTrace
      ensures Valid() && View() == old(View()).(rootNeedsTrace := needsTrace)
    {
      rootNeedsTrace := needsTrace;
    }

    /** The root is gray while its flag is set; a panic leaves the flag as it is. */
    method TraceRoot(root: seq<Edge>, u: Conduct) returns (flow: ControlFlow)
      requires Valid() && Present(View(), Reported(root, u.outcome))
      modifies this`gray, this`rootNeedsTrace, metrics, memory.Values
      ensures Valid()
      ensures var traced := TraceEdges(old(View()), Reported(root, u.outcome));
        View() == Tuned(if u.outcome.Returns? then traced.(rootNeedsTrace := false) else traced, u.reports)
      ensures flow == if u.outcome.Returns? then Continue else Unwind
    {
      TraceValue(Reported(root, u.outcome));
      Report(u.reports);
      if u.outcome.Panics? {
        return Unwind;
      }
      SetRootNeedsTrace(false);
      return Continue;
    }

    /** `mark_one`. `u` tells what the call of `trace` does, if there is one. */
    method MarkOne(root: seq<Edge>, u: Conduct) returns (flow: ControlFlow)
      requires Valid() && MarkReady(View(), root)
      modifies this`gray, this`grayAgain, this`rootNeedsTrace, metrics, memory.Values
      ensures Valid()
      ensures MarkDone(old(View())) ==> flow == Break && View() == old(View())
      ensures !MarkDone(old(View())) ==>
                && flow == (if u.outcome.Returns? then Continue else Unwind)
                && View() == Tuned(Collector.MarkOne(old(View()), root, u.outcome), u.reports)
    {
      ghost var was := View();
      var next := BeginTrace();
      if next.Some? {
        ReadyToTrace(was, root, u.outcome);
        assert View().heap[next.value] == memory[next.value].View();
        flow := TraceBox(next.value, u);
      } else if rootNeedsTrace {
        flow := TraceRoot(root, u);
      } else {
        flow := Break;
      }
    }

    // ----------------------------------------------------------------------- sweeping

    /** Runs the destructor of the value in the box `r`. */
    ghost method DropInPlace(r: Ref)
      modifies this`past
      ensures View() == old(View()).(past := old(past).(dropped := old(past).dropped + [r]))
      ensures old(Valid()) ==> Valid()
    {
      past := past.(dropped := past.dropped + [r]);
    }

    method CountDropped(size: nat)
      modifies metrics
      ensures View() == old(View()).(meter := Dropped(old(metrics.View()), size))
      ensures old(Valid()) ==> Valid()
    {
      metrics.MarkGcDropped(size);
    }

    method CountFreed(ghost r: Ref, size: nat)
      modifies this`past, metrics
      ensures View() == old(View()).(meter := Freed(old(metrics.View()), size),
                                     past := old(past).(freed := old(past).freed + [r]))
      ensures old(Valid()) ==> Valid()
    {
      past := past.(freed := past.freed + [r]);
      metrics.MarkGcFreed(size);
    }

    method CountRemembered(size: nat)
      requires Valid()
      modifies metrics
      ensures Valid() && View() == old(View()).(meter := Remembered(old(metrics.View()), size))
    {
      metrics.MarkGcRemembered(size);
    }

    /** Clears the live flag. */
    method SetDead(r: Ref)
      requires Valid() && r in memory
      modifies memory[r]
      ensures Valid() && View() == old(View()).(heap := old(HeapView())[r := old(HeapView())[r].(live := false)])
    {
      memory[r].live := false;
      HeaderChanged(r);
      assert Nexts() == old(Nexts());
    }

    method Remove(r: Ref)
      requires Addressed()
      modifies this`memory
      ensures Addressed() && memory == old(memory) - {r}
      ensures HeapView() == old(HeapView()) - {r}
      ensures CursorView() == old(CursorView()).(next := old(Nexts()) - {r})
    {
      memory := memory - {r};
      HeaderRemoved(r);
    }

    method SetNext(r: Ref, next: Option<Ref>)
      requires Addressed() && r in memory
      modifies memory[r]
      ensures Addressed() && HeapView() == old(HeapView())
      ensures CursorView() == old(CursorView()).(next := old(Nexts())[r := next])
    {
      memory[r].next := next;
      HeaderChanged(r);
    }

    /** Leads past a box: its predecessor, or else the head of the list, points to `next`. */
    method Bypass(next: Option<Ref>)
      requires Addressed() && (sweepPrev.Some? ==> sweepPrev.value in memory)
      modifies this`all, memory.Values
      ensures Addressed() && HeapView() == old(HeapView())
      ensures CursorView() == if sweepPrev.Some? then old(CursorView()).(next := old(Nexts())[sweepPrev.value := next])
                              else old(CursorView()).(all := next)
    {
      if sweepPrev != None {
        SetNext(sweepPrev.value, next);
      } else {
        all := next;
      }
    }

    /** Moves the cursor on. */
    method Advance(next: Option<Ref>)
      requires Addressed() && back != []
      modifies this`sweep, this`back
      ensures Addressed() && HeapView() == old(HeapView())
      ensures CursorView() == old(CursorView()).(sweep := next, back := old(back)[1..])
    {
      sweep := next;
      back := back[1..];
    }

    /** What `TakeOut` does to the list. */
    method Excise(r: Ref)
      requires Valid() && phase == Sweep && sweep == Some(r)
      modifies this`all, this`sweep, this`back, this`memory, memory.Values
      ensures Valid() && memory == old(memory) - {r}
      ensures HeapView() == old(HeapView()) - {r} && back == old(back)[1..]
    {
      ghost var l := CursorView();
      TakeOutOk(l, r);
      var next := memory[r].next;
      Advance(next);
      Bypass(next);
      Remove(r);
      assert CursorView() == Links.TakeOut(l, r);
      assert back == CursorView().back;
    }

    /** Takes the box at the cursor off the list and moves the cursor on. From here on the box is out
        of reach: it is about to be deallocated, or leaked. */
    method TakeOut(r: Ref)
      requires Valid() && phase == Sweep && sweep == Some(r)
      modifies this`all, this`sweep, this`back, this`memory, memory.Values
      ensures Valid() && memory == old(memory) - {r}
      ensures View() == old(View()).(heap := old(HeapView()) - {r}, back := old(back)[1..])
    {
      Excise(r);
      assert metrics.View() == old(metrics.View());
      assert View() == Ctx(phase, HeapView(), front, back, gray, grayAgain, rootNeedsTrace, metrics.View(), past);
    }

    /** The box just swept becomes the predecessor of the cursor. */
    method LeaveBehind(r: Ref)
      requires Addressed()
      modifies this`sweepPrev, this`front
      ensures Addressed() && HeapView() == old(HeapView())
      ensures CursorView() == old(CursorView()).(sweepPrev := Some(r), front := old(front) + [r])
    {
      sweepPrev := Some(r);
      front := front + [r];
    }

    /** What `StepOver` does to the list. */
    method Pass(r: Ref)
      requires Valid() && phase == Sweep && sweep == Some(r)
      modifies this`sweep, this`sweepPrev, this`front, this`back
      ensures Valid() && HeapView() == old(HeapView())
      ensures front == old(front) + [r] && back == old(back)[1..]
    {
      StepOverOk(CursorView(), r);
      Advance(memory[r].next);
      LeaveBehind(r);
      assert CursorView() == Links.StepOver(old(CursorView()), r);
    }

    /** Moves the cursor past a box that stays. */
    method StepOver(r: Ref)
      requires Valid() && phase == Sweep && sweep == Some(r)
      modifies this`sweep, this`sweepPrev, this`front, this`back
      ensures Valid() && View() == old(View()).(front := old(front) + [r], back := old(back)[1..])
    {
      Pass(r);
    }

    method CountDroppedAndFreed(ghost r: Ref, size: nat)
      modifies this`past, metrics
      ensures View() == Deallocated(old(View()).(meter := Dropped(old(View()).meter, size)), r, size)
      ensures old(Valid()) ==> Valid()
    {
      CountDropped(size);
      CountFreed(r, size);
    }

    /** Drops the value of a box that is off the list, if it has one, and deallocates the box. */
    method Discard(ghost r: Ref, live: bool, size: nat, u: Conduct) returns (flow: ControlFlow)
      requires Addressed()
      modifies this`past, metrics, memory.Values
      ensures Addressed() && Nexts() == old(Nexts()) && (old(Valid()) ==> Valid())
      ensures View() == Discarded(old(View()), r, live, size, u)
      ensures flow == if live && u.outcome.Panics? then Unwind else Continue
    {
      if live {
        DiscardCommutes(View(), r, size, u);
        RunDestructor(r, u);
        if u.outcome.Panics? {
          return Unwind;
        }
        CountDroppedAndFreed(r, size);
      } else {
        CountFreed(r, size);
      }
      return Continue;
    }

    /** A white box: it leaves the list, and is dropped and deallocated. */
    method SweepWhite(r: Ref, u: Conduct) returns (flow: ControlFlow)
      requires Valid() && phase == Sweep && sweep == Some(r) && SweepReady(View())
      requires back[0] == r && memory[r].color == White
      modifies this, metrics, memory.Values
      ensures Valid() && View() == Swept(old(View()), u)
      ensures flow == if u.outcome.Panics? && old(memory[r].live) then Unwind else Continue
      ensures memory.Values <= old(memory.Values)
    {
      var live, size := memory[r].live, memory[r].size;
      TakeOut(r);
      flow := Discard(r, live, size, u);
      FewerValues(r);
    }

    twostate lemma FewerValues(r: Ref)
      requires memory == old(memory) - {r}
      ensures memory.Values <= old(memory.Values)
    {
    }

    /** Drops the value of a box that stays allocated. */
    method DropWhileAllocated(r: Ref, u: Conduct) returns (flow: ControlFlow)
      requires Valid() && r in memory
      modifies this`past, metrics, memory.Values
      ensures Valid() && flow == if u.outcome.Panics? && old(memory[r].live) then Unwind else Continue
      ensures View() == Emptied(old(View()), r, u)
    {
      if memory[r].live {
        var size := memory[r].size;
        SetDead(r);
        RanThenCounted(View().(past := past.(dropped := past.dropped + [r])), u, r, size);
        RunDestructor(r, u);
        if u.outcome.Panics? {
          return Unwind;
        }
        CountDropped(size);
      }
      return Continue;
    }

    /** Moves the cursor past a box that stays, and makes it white for the next cycle. */
    method Whiten(r: Ref)
      requires Valid() && phase == Sweep && sweep == Some(r) && back[0] == r && r in memory
      modifies this`sweep, this`sweepPrev, this`front, this`back, memory[r]
      ensures Valid() && View() == Whitened(old(View()))
    {
      StepOver(r);
      SetColor(r, White);
    }

    /** A box with weak pointers to it: its value is dropped, and the box stays. */
    method SweepWhiteWeak(r: Ref, u: Conduct) returns (flow: ControlFlow)
      requires Valid() && phase == Sweep && sweep == Some(r) && SweepReady(View())
      requires back[0] == r && memory[r].color == WhiteWeak
      modifies this`sweep, this`sweepPrev, this`front, this`back, this`past, metrics, memory.Values
      ensures Valid() && View() == Swept(old(View()), u)
      ensures flow == if u.outcome.Panics? && old(memory[r].live) then Unwind else Continue
    {
      WhitenedThenEmptied(View(), u);
      Whiten(r);
      var size := memory[r].size;
      flow := DropWhileAllocated(r, u);
      if flow == Continue {
        CountRemembered(size);
      }
    }

    /** A marked box stays as it is. */
    method SweepBlack(r: Ref, ghost u: Conduct)
      requires Valid() && phase == Sweep && sweep == Some(r) && SweepReady(View())
      requires back[0] == r && memory[r].color == Black
      modifies this`sweep, this`sweepPrev, this`front, this`back, metrics, memory[r]
      ensures Valid() && View() == Swept(old(View()), u)
    {
      Whiten(r);
      CountRemembered(memory[r].size);
    }

    /** `sweep_one`. `u` tells what the destructor does, if one is called. */
    method SweepOne(u: Conduct) returns (flow: ControlFlow)
      requires Valid() && phase == Sweep && (back != [] ==> SweepReady(View()))
      modifies this, metrics, memory.Values
      ensures memory.Values <= old(memory.Values)
      ensures old(back) == [] ==> flow == Break && Shape() && sweepPrev == None && View() == old(View())
      ensures old(back) != [] ==> Valid() && View() == Swept(old(View()), u)
      ensures old(back) != [] ==> (flow == if u.outcome.Panics? && DropsValue(old(View())) then Unwind else Continue)
    {
      if sweep == None {
        sweepPrev := None;
        return Break;
      }
      flow := SweepBox(sweep.value, u);
    }

    method SweepBox(r: Ref, u: Conduct) returns (flow: ControlFlow)
      requires Valid() && phase == Sweep && sweep == Some(r) && back != [] && back[0] == r && SweepReady(View())
      modifies this, metrics, memory.Values
      ensures Valid() && memory.Values <= old(memory.Values)
      ensures View() == Swept(old(View()), u)
      ensures flow == if u.outcome.Panics? && DropsValue(old(View())) then Unwind else Continue
    {
      match memory[r].color {
        case White => flow := SweepWhite(r, u);
        case WhiteWeak => flow := SweepWhiteWeak(r, u);
        case Black =>
          SweepBlack(r, u);
          flow := Continue;
        case Gray => assert false;
      }
    }

    // ----------------------------------------------------------------- the collection loop

    method WakeUp()
      requires Valid() && phase == Sleep
      modifies this`phase
      ensures Valid() && View() == Wake(old(View()))
    {
      phase := Mark;
    }

    /** The cursor starts at the present head of the list, so later allocations come before it. */
    method BeginSweep()
      requires Valid() && phase == Mark
      modifies this`phase, this`sweep, this`front, this`back
      ensures Valid() && View() == StartSweep(old(View()))
    {
      PlaceCursor();
    }

    /** What `BeginSweep` does to the list. */
    method PlaceCursor()
      requires Valid() && phase == Mark
      modifies this`phase, this`sweep, this`front, this`back
      ensures Valid() && HeapView() == old(HeapView())
      ensures phase == Sweep && front == [] && back == old(front + back)
    {
      BeginSweepOk(CursorView());
      ResetCursor();
    }

    method ResetCursor()
      requires Addressed()
      modifies this`phase, this`sweep, this`front, this`back
      ensures Addressed() && HeapView() == old(HeapView())
      ensures CursorView() == Links.BeginSweep(old(CursorView()))
    {
      phase := Sweep;
      sweep := all;
      front, back := [], front + back;
    }

    /** The end of a cycle. */
    method FinishSweep(resetDebt: bool)
      requires Shape() && phase == Sweep && back == [] && sweepPrev == None
      modifies this`phase, this`rootNeedsTrace, metrics
      ensures Valid() && View() == EndSweep(old(View()), resetDebt)
    {
      metrics.FinishCycle(resetDebt);
      FallAsleep();
    }

    method FallAsleep()
      requires Shape() && phase == Sweep && back == [] && sweepPrev == None
      modifies this`phase, this`rootNeedsTrace
      ensures Valid() && View() == old(View()).(phase := Sleep, rootNeedsTrace := true)
    {
      rootNeedsTrace := true;
      phase := Sleep;
    }

    /** The part of the loop for `Phase::Mark`. */
    method MarkTurn(root: seq<Edge>, stop: Stop, ghost slept: bool, u: Conduct) returns (course: Collection.Course)
      requires Valid() && phase == Mark && CtxOk(View(), root) && MarkReady(View(), root)
      modifies this, metrics, memory.Values
      ensures Valid() && memory.Values <= old(memory.Values)
      ensures Collection.Tick(old(View()), root, stop, slept, u) == Collection.TripOf(course, View(), slept)
    {
      MarkTick(View(), root, stop, slept, u);
      var flow := MarkOne(root, u);
      if flow == Unwind {
        return Collection.Unwinding;
      }
      if flow == Break {
        if stop.Rank() <= FullyMarked.Rank() {
          return Collection.Done;
        }
        BeginSweep();
      }
      return Collection.Going;
    }

    /** The part of the loop for `Phase::Sweep`. The assertion is the one in the source. */
    method SweepTurn(ghost root: seq<Edge>, stop: Stop, slept: bool, u: Conduct) returns (course: Collection.Course)
      requires Valid() && phase == Sweep && CtxOk(View(), root) && (back != [] ==> SweepReady(View()))
      modifies this, metrics, memory.Values
      ensures Valid() && memory.Values <= old(memory.Values)
      ensures Collection.Tick(old(View()), root, stop, slept, u) == Collection.TripOf(course, View(), slept)
    {
      SweepTick(View(), root, stop, slept, u);
      if stop.Rank() <= AtSweep.Rank() {
        return Collection.Done;
      }
      var flow := SweepOne(u);
      if flow == Unwind {
        return Collection.Unwinding;
      }
      if flow == Break {
        FinishSweep(slept);
        if stop == Stop.FinishCycle {
          return Collection.Done;
        }
        if slept {
          assert stop == Full;
          return Collection.Done;
        }
      }
      return Collection.Going;
    }

    /** One trip around the loop of `do_collection`. */
    method Turn(root: seq<Edge>, stop: Stop, slept: bool, u: Conduct) returns (course: Collection.Course, slept': bool)
      requires Valid() && CtxOk(View(), root)
      modifies this, metrics, memory.Values
      ensures Valid() && memory.Values <= old(memory.Values)
      ensures Collection.Tick(old(View()), root, stop, slept, u) == Collection.TripOf(course, View(), slept')
    {
      NeverStuck(View(), root);
      slept' := slept;
      match phase {
        case Sleep =>
          slept' := true;
          WakeUp();
          course := Collection.Going;
        case Mark => course := MarkTurn(root, stop, slept, u);
        case Sweep => course := SweepTurn(root, stop, slept, u);
        case Drop => assert false;
      }
    }

    /** Whether the call may end because the debt is paid. */
    method IsPaid(runUntil: RunUntil) returns (paid: bool)
      ensures paid <==> Collection.Paid(runUntil, View())
    {
      if runUntil == UntilStop {
        return false;
      }
      var debt := metrics.AllocationDebt();
      return !(debt > 0.0);
    }

    /** The body of the loop: a trip, and then the check of the debt. */
    method TurnAndCheck(root: seq<Edge>, runUntil: RunUntil, stop: Stop, slept: bool, us: seq<Conduct>)
        returns (course: Collection.Course, slept': bool)
      requires Valid() && CtxOk(View(), root)
      modifies this, metrics, memory.Values
      ensures Valid() && memory.Values <= old(memory.Values)
      ensures Collection.Onwards(old(View()), root, runUntil, stop, slept, us, View(), course, slept')
    {
      ghost var t := Collection.Tick(View(), root, stop, slept, Collection.Now(us));
      Collection.TurnGoesOn(View(), root, runUntil, stop, slept, us);
      course, slept' := Turn(root, stop, slept, Collection.Now(us));
      assert View() == t.cx;
      if course == Collection.Going {
        var paid := IsPaid(runUntil);
        if paid {
          course := Collection.Done;
        }
      }
    }

    /** `do_collection`. `us` tells what the program's code does as it is called, and the result is
        whether the call returns, rather than unwinds from a panic. */
    method DoCollection(root: seq<Edge>, runUntil: RunUntil, stop: Stop, us: seq<Conduct>) returns (ok: bool)
      requires Valid() && CtxOk(View(), root)
      modifies this, metrics, memory.Values
      ensures Valid() && memory.Values <= old(memory.Values)
      ensures Collection.DoCollection(old(View()), root, runUntil, stop, us)
           == if ok then Collection.Returned(View()) else Collection.Unwound(View())
    {
      ghost var target := Collection.DoCollection(View(), root, runUntil, stop, us);
      var paid := IsPaid(runUntil);
      if paid {
        return true;
      }
      var course, slept, rest := Collection.Going, false, us;
      ghost var cx := View();
      while course == Collection.Going
        invariant Valid() && memory.Values <= old(memory.Values)
        invariant View() == cx && CtxOk(cx, root)
        invariant target == Collection.EndFrom(cx, root, runUntil, stop, slept, rest, course)
        decreases course.Going?, !slept, Collection.PhasesLeft(cx, slept), Collection.WorkLeft(cx)
      {
        course, slept := TurnAndCheck(root, runUntil, stop, slept, rest);
        cx, rest := View(), Collection.Later(rest);
      }
      return course == Collection.Done;
    }

    // ----------------------------------------------------------------- the end of the context

    /** Drops and deallocates one box. If the destructor panics the box is leaked. The handles that it
        drops do not matter any more, because nothing looks at the pointers of boxes that are to go. */
    method DropBox(r: Ref, u: Conduct)
      requires Addressed() && r in memory
      modifies this`past, this`memory, metrics, memory.Values
      ensures Addressed() && memory == old(memory) - {r} && Nexts() == old(Nexts()) - {r}
      ensures View() == Lifetimes.DropOne(old(View()), r, u)
    {
      var live, size := memory[r].live, memory[r].size;
      Remove(r);
      var _ := Discard(r, live, size, u.(drops := []));
    }

    lemma ListIsDroppable()
      requires Valid()
      ensures Lifetimes.Droppable(View(), View().List())
    {
      ChainMembers(Nexts(), front + back);
    }

    /** `Drop for Context`. A destructor that panics unwinds into the drop of the rest of the list. */
    method DropAll(us: map<Ref, Conduct>)
      requires Valid()
      modifies this, metrics, memory.Values
      ensures Lifetimes.Droppable(old(View()), old(View()).List())
      ensures View() == Lifetimes.DropContext(old(View()), us)
    {
      ghost var rest := front + back;
      var cursor := EnterDrop();
      ghost var target := Lifetimes.TearDown(View(), rest, us);
      while cursor != None
        invariant Dropping(cursor, rest) && memory.Values <= old(memory.Values)
        invariant Lifetimes.TearDown(View(), rest, us) == target
        decreases |rest|
      {
        cursor := DropHead(cursor.value, rest, us);
        rest := rest[1..];
      }
    }

    /** Enters the last phase, and begins with the head of the list. */
    method EnterDrop() returns (cursor: Option<Ref>)
      requires Valid()
      modifies this`phase
      ensures Lifetimes.Droppable(old(View()), old(View()).List())
      ensures View() == old(View()).(phase := Phase.Drop) && Dropping(cursor, old(View()).List())
    {
      ListIsDroppable();
      phase := Phase.Drop;
      cursor := all;
    }

    /** What is left to be dropped is a list that begins at the cursor. */
    ghost predicate Dropping(cursor: Option<Ref>, rest: seq<Ref>)
      reads this, metrics, memory.Values
    {
      && Addressed() && ListsAll(Nexts(), rest) && cursor == First(rest)
      && Lifetimes.Droppable(View(), rest)
    }

    /** Drops the first box of what is left, and finds the next one. */
    method DropHead(r: Ref, ghost rest: seq<Ref>, us: map<Ref, Conduct>) returns (next: Option<Ref>)
      requires Dropping(Some(r), rest)
      modifies this`past, this`memory, metrics, memory.Values
      ensures Dropping(next, rest[1..]) && memory.Values <= old(memory.Values)
      ensures Lifetimes.TearDown(View(), rest[1..], us) == Lifetimes.TearDown(old(View()), rest, us)
    {
      UnlinkFirst(Nexts(), rest);
      TearDownStep(View(), rest, us);
      next := memory[r].next;
      DropBox(r, ConductOf(us, r));
      FewerValues(r);
    }
  }
}
