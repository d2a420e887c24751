/** How marking colours and queues boxes: what is darkened and when, what never has to be traced, what is
    traced last, and when the root is to be traced again. */
module Coloring {
  import opened Types
  import opened Collector
  import opened Invariant
  import opened Marking
  import opened Runs
  import opened Safety
  import Untracing

  // ------------------------------------------------------------------------- darkening

  /** The first pointer found to a box marks it: by a strong one it is to be traced, unless it needs no
      tracing, and by a weak one it will be kept. Marked boxes change only when a strong pointer is found
      to a box that only weak ones were known of. Nothing else changes but the meter. */
  lemma FirstPointerMarks(c: Ctx, e: Edge)
    requires e.to in c.heap
    ensures var d, b := TraceEdge(c, e), c.heap[e.to];
            && d.heap[e.to].color == Darker(b, e)
            && (forall r | r in c.heap && r != e.to :: d.heap[r] == c.heap[r])
            && d.gray == c.gray + (if e.Strong? && IsWhite(b.color) && b.needsTrace then [e.to] else [])
            && d == c.(heap := d.heap, gray := d.gray, meter := d.meter)
  {
  }

  function Darker(b: Box, e: Edge): Color {
    match b.color
    case White => if e.Weak? then WhiteWeak else if b.needsTrace then Gray else Black
    case WhiteWeak => if e.Weak? then WhiteWeak else if b.needsTrace then Gray else Black
    case Gray => Gray
    case Black => Black
  }

  /** What a forward barrier depends on: it acts in the mark phase, for a parent that is black or is not
      given. */
  predicate ForwardFires(c: Ctx, parent: Option<Ref>)
    requires parent.Some? ==> parent.value in c.heap
  {
    c.phase == Mark && match parent { case Some(p) => c.heap[p].color == Black case None => true }
  }

  /** A forward barrier marks the child just as `trace` does, or leaves everything alone. */
  lemma ForwardIsExact(c: Ctx, b: Barrier)
    requires (b.Forward? || b.ForwardWeak?) && BarrierReady(c, b)
    ensures var e := if b.Forward? then Strong(b.traced) else Weak(b.tracedWeak);
            RunBarrier(c, b) == if ForwardFires(c, b.forParent) then TraceEdge(c, e) else c
  {
  }

  /** Resurrection makes a white box gray and queues it to be traced, even if it needs no tracing; of any
      other box it changes nothing. */
  lemma ResurrectionQueues(c: Ctx, r: Ref)
    requires r in c.heap
    ensures var d := Collector.Resurrect(c, r);
            && d.heap[r].color == (if IsWhite(c.heap[r].color) then Gray else c.heap[r].color)
            && (forall q | q in c.heap && q != r :: d.heap[q] == c.heap[q])
            && d.gray == c.gray + (if IsWhite(c.heap[r].color) then [r] else [])
            && d == c.(heap := d.heap, gray := d.gray, meter := d.meter)
  {
  }

  /** A panic may come after any number of pointers, and then just these have been reported. */
  lemma AnyPrefixIsReported(edges: seq<Edge>, n: nat)
    requires n <= |edges|
    ensures exists outcome: Outcome :: outcome.Panics? && Reported(edges, outcome) == edges[..n]
  {
    assert Reported(edges, Panics(n)) == edges[..n];
  }

  // ---------------------------------------------------------- boxes that need no tracing

  /** No box that needs no tracing waits to be traced. */
  predicate LeavesStayOut(c: Ctx) {
    forall r {:trigger c.heap[r]} | r in c.heap && c.heap[r].color == Gray :: c.heap[r].needsTrace
  }

  lemma {:induction false} TraceEdgesLeaveOut(c: Ctx, edges: seq<Edge>)
    requires Present(c, edges) && LeavesStayOut(c)
    ensures LeavesStayOut(TraceEdges(c, edges))
  {
    if edges == [] {
    } else {
      TraceEdgesLeaveOut(c, edges[..|edges| - 1]);
      FirstPointerMarks(TraceEdges(c, edges[..|edges| - 1]), edges[|edges| - 1]);
    }
  }

  lemma MarkOneLeavesOut(c: Ctx, root: seq<Edge>, outcome: Outcome)
    requires c.phase == Mark && CtxOk(c, root) && !MarkDone(c) && MarkReady(c, root) && LeavesStayOut(c)
    ensures LeavesStayOut(MarkOne(c, root, outcome))
  {
    match NextGray(c) {
      case Some(r) =>
        PopKeepsQueued(c, r);
        assert LeavesStayOut(StartTrace(c));
        TraceEdgesLeaveOut(StartTrace(c), Reported(c.heap[r].edges, outcome));
        TraceEdgesShape(StartTrace(c), Reported(c.heap[r].edges, outcome));
      case None => TraceEdgesLeaveOut(c, Reported(root, outcome));
    }
  }

  lemma BarrierLeavesOut(w: World, b: Barrier)
    requires BarrierReady(w.cx, b) && LeavesStayOut(w.cx) && !Untracing.LeafFires(w, CallBarrier(b))
    ensures LeavesStayOut(RunBarrier(w.cx, b))
  {
    if Untracing.IsBackward(b) {
      Untracing.FiringIsExact(w.cx, b);
    } else {
      ForwardIsExact(w.cx, b);
    }
  }

  lemma SweepOneLeavesOut(c: Ctx, panics: bool)
    requires SweepReady(c) && LeavesStayOut(c)
    ensures LeavesStayOut(SweepOne(c, panics))
  {
  }

  lemma StepLeavesOut(w: World, ev: Event)
    requires WorldOk(w) && Allowed(w, ev) && Ready(w, ev) && LeavesStayOut(w.cx)
    requires !ev.Resurrection? && !Untracing.LeafFires(w, ev)
    ensures LeavesStayOut(After(w, ev).cx)
  {
    match ev {
      case CallBarrier(b) => BarrierLeavesOut(w, b);
      case MarkStep(outcome) => MarkOneLeavesOut(w.cx, w.root, outcome);
      case SweepStep(panics) => SweepOneLeavesOut(w.cx, panics);
      case _ =>
    }
  }

  /** As long as nothing is resurrected and no backward barrier fires on a parent that needs no tracing,
      the collector never calls `trace` on such a box: it is marked without ever being queued. */
  lemma {:induction false} LeavesAreNotTraced(ws: seq<World>, evs: seq<Event>, i: nat)
    requires IsRun(ws, evs) && ws[0] == INITIAL && i < |ws|
    requires forall k {:trigger evs[k]} | 0 <= k < i :: !evs[k].Resurrection? && !Untracing.LeafFires(ws[k], evs[k])
    ensures LeavesStayOut(ws[i].cx)
  {
    if i == 0 {
    } else {
      LeavesAreNotTraced(ws, evs, i - 1);
      InitialOk();
      RunKeeps(ws, evs, i - 1);
      RunStep(ws, evs, i - 1);
      StepLeavesOut(ws[i - 1], evs[i - 1]);
    }
  }

  // ------------------------------------------------------------------- what is traced last

  /** The newest of the first queue is next, or else the newest of the second. */
  lemma NewestIsNext(c: Ctx, older: seq<Ref>, r: Ref)
    requires c.gray == older + [r] || (c.gray == [] && c.grayAgain == older + [r])
    ensures NextGray(c) == Some(r)
    ensures Pop(c) == if c.gray != [] then c.(gray := older) else c.(grayAgain := older)
  {
  }

  /** A parent on which a backward barrier fires goes to the second queue. */
  lemma FiredGoesLast(c: Ctx, b: Barrier)
    requires Untracing.IsBackward(b) && BarrierReady(c, b) && Untracing.Fires(Untracing.SiteOf(c, b))
    ensures var d := RunBarrier(c, b);
            d.gray == c.gray && d.grayAgain == c.grayAgain + [b.parent] && d.heap[b.parent].color == Gray
  {
  }

  /** It gets time to be mutated again: it stays gray and queued until the first queue is empty. */
  lemma SecondQueueWaits(w: World, ev: Event, r: Ref)
    requires WorldOk(w) && Allowed(w, ev) && Ready(w, ev) && r in w.cx.grayAgain
    requires ev.MarkStep? ==> w.cx.gray != []
    ensures var c := After(w, ev).cx; r in c.grayAgain && r in c.heap && c.heap[r].color == Gray
  {
    WaitsIsGray(w.cx, r);
    match ev {
      case MarkStep(outcome) => MarkOneWaits(w.cx, w.root, outcome, r);
      case CallBarrier(b) => BarrierWaits(w.cx, b, r);
      case _ =>
    }
  }

  lemma WaitsIsGray(c: Ctx, r: Ref)
    requires Queued(c) && Colored(c) && r in c.grayAgain
    ensures r in c.heap && c.heap[r].color == Gray && c.phase == Mark
    ensures r !in c.gray
  {
    OccursMember(c.grayAgain, r);
    OccursMember(c.gray, r);
    assert Occurs(c.gray, r) + Occurs(c.grayAgain, r) > 0;
    assert r in c.heap && ColorFits(c, r);
  }

  lemma BarrierWaits(c: Ctx, b: Barrier, r: Ref)
    requires BarrierReady(c, b) && r in c.grayAgain && r in c.heap && c.heap[r].color == Gray
    ensures var d := RunBarrier(c, b); r in d.grayAgain && r in d.heap && d.heap[r].color == Gray
  {
  }

  lemma MarkOneWaits(c: Ctx, root: seq<Edge>, outcome: Outcome, r: Ref)
    requires MarkReady(c, root) && c.gray != []
    requires r in c.grayAgain && r !in c.gray && r in c.heap && c.heap[r].color == Gray
    ensures !MarkDone(c)
    ensures var d := MarkOne(c, root, outcome); r in d.grayAgain && r in d.heap && d.heap[r].color == Gray
  {
    var g := c.gray[|c.gray| - 1];
    var es := Reported(c.heap[g].edges, outcome);
    assert NextGray(c) == Some(g) && g != r;
    TraceEdgesShape(StartTrace(c), es);
    TraceEdgesSpare(StartTrace(c), es);
  }

  // ------------------------------------------------------------------------------ the root

  /** In a mark phase: the root has not been traced as a whole since the phase began or the root was last
      opened. */
  predicate RootIsStale(ws: seq<World>, evs: seq<Event>, i: nat)
    requires |ws| == |evs| + 1 && i <= |evs|
  {
    i == 0
    || match evs[i - 1]
       case WakeUp => true
       case OpenRoot => true
       case MarkStep(outcome) =>
         (outcome.Panics? || ws[i - 1].cx.gray != [] || ws[i - 1].cx.grayAgain != []) && RootIsStale(ws, evs, i - 1)
       case _ => RootIsStale(ws, evs, i - 1)
  }

  /** The flag that the root is to be traced: set while asleep, clear in a sweep, and in a mark phase set
      just while the root is stale. */
  predicate FlagFits(ws: seq<World>, evs: seq<Event>, i: nat)
    requires |ws| == |evs| + 1 && i <= |evs|
  {
    match ws[i].cx.phase
    case Sleep => ws[i].cx.rootNeedsTrace
    case Mark => ws[i].cx.rootNeedsTrace == RootIsStale(ws, evs, i)
    case Sweep => !ws[i].cx.rootNeedsTrace
    case Drop => false
  }

  lemma {:induction false} TraceEdgesKeepFlag(c: Ctx, edges: seq<Edge>)
    requires Present(c, edges)
    ensures TraceEdges(c, edges).rootNeedsTrace == c.rootNeedsTrace && TraceEdges(c, edges).phase == c.phase
  {
    if edges == [] {
    } else {
      TraceEdgesKeepFlag(c, edges[..|edges| - 1]);
    }
  }

  lemma MarkOneFlag(c: Ctx, root: seq<Edge>, outcome: Outcome)
    requires !MarkDone(c) && MarkReady(c, root)
    ensures var d := MarkOne(c, root, outcome);
            && d.phase == c.phase
            && d.rootNeedsTrace == (c.rootNeedsTrace && (outcome.Panics? || c.gray != [] || c.grayAgain != []))
  {
    match NextGray(c) {
      case Some(r) => TraceEdgesKeepFlag(StartTrace(c), Reported(c.heap[r].edges, outcome));
      case None => TraceEdgesKeepFlag(c, Reported(root, outcome));
    }
  }

  lemma BarrierKeepsFlag(c: Ctx, b: Barrier)
    requires BarrierReady(c, b)
    ensures RunBarrier(c, b).rootNeedsTrace == c.rootNeedsTrace && RunBarrier(c, b).phase == c.phase
  {
  }

  lemma StepFlag(ws: seq<World>, evs: seq<Event>, i: nat)
    requires IsRun(ws, evs) && i < |evs| && FlagFits(ws, evs, i)
    ensures FlagFits(ws, evs, i + 1)
  {
    RunStep(ws, evs, i);
    var c := ws[i].cx;
    match evs[i] {
      case CallBarrier(b) => BarrierKeepsFlag(c, b);
      case MarkStep(outcome) => MarkOneFlag(c, ws[i].root, outcome);
      case _ => OtherStepFlag(ws[i], evs[i]);
    }
  }

  lemma OtherStepFlag(w: World, ev: Event)
    requires Allowed(w, ev) && Ready(w, ev) && !ev.CallBarrier? && !ev.MarkStep?
    ensures var c, d := w.cx, After(w, ev).cx;
            && d.phase == (if ev.WakeUp? then Mark else if ev.BeginSweep? then Sweep
                           else if ev.FinishSweep? then Sleep else c.phase)
            && d.rootNeedsTrace == (c.rootNeedsTrace || ev.FinishSweep? || (ev.OpenRoot? && c.phase == Mark))
  {
  }

  lemma {:induction false} RootFlagIsExact(ws: seq<World>, evs: seq<Event>, i: nat)
    requires IsRun(ws, evs) && ws[0] == INITIAL && i < |ws|
    ensures FlagFits(ws, evs, i)
  {
    if i == 0 {
    } else {
      RootFlagIsExact(ws, evs, i - 1);
      StepFlag(ws, evs, i - 1);
    }
  }
}
