/** Every value is dropped at most once and every box deallocated at most once; exactly once by the
    time the arena is gone, if no destructor panics. */
module Lifetimes {
  import opened Types
  import opened Metering
  import opened Collector
  import opened Invariant
  import opened Marking
  import opened Sweeping
  import opened Gauges
  import opened Runs
  import opened Safety
  import opened Survival
  import opened Completeness
  import opened Accounts
  import opened Snapshots

  /** Values have been dropped once if they are no longer live, and boxes freed once if at all. */
  predicate LifeOk(c: Ctx, r: Ref) {
    && Occurs(c.past.dropped, r) <= 1 && Occurs(c.past.freed, r) <= 1
    && (r in c.heap ==> Occurs(c.past.freed, r) == 0 && (c.heap[r].live <==> Occurs(c.past.dropped, r) == 0))
    && (r !in c.past.born ==> Occurs(c.past.freed, r) == 0 && Occurs(c.past.dropped, r) == 0)
  }

  ghost predicate LivesOk(c: Ctx) {
    && c.heap.Keys <= c.past.born
    && forall r {:trigger LifeOk(c, r)} :: LifeOk(c, r)
  }

  /** What is gone has been dropped and freed. */
  predicate GoneIsFreed(c: Ctx) {
    forall r {:trigger r in c.past.born} | r in c.past.born && r !in c.heap ::
      Occurs(c.past.dropped, r) == 1 && Occurs(c.past.freed, r) == 1
  }

  lemma SameLives(c: Ctx, d: Ctx)
    requires c.past == d.past && c.heap.Keys == d.heap.Keys
    requires forall r | r in c.heap :: c.heap[r].live == d.heap[r].live
    ensures LivesOk(c) ==> LivesOk(d)
    ensures GoneIsFreed(c) ==> GoneIsFreed(d)
  {
    if LivesOk(c) {
      forall r
        ensures LifeOk(d, r)
      {
        assert LifeOk(c, r);
      }
    }
  }

  lemma AllocateLives(c: Ctx, r: Ref, needsTrace: bool, size: nat, edges: seq<Edge>)
    requires LivesOk(c) && r !in c.past.born
    ensures LivesOk(Allocate(c, r, needsTrace, size, edges))
    ensures GoneIsFreed(c) ==> GoneIsFreed(Allocate(c, r, needsTrace, size, edges))
  {
    var d := Allocate(c, r, needsTrace, size, edges);
    forall q
      ensures LifeOk(d, q)
    {
      assert LifeOk(c, q);
    }
  }

  lemma MarkOneLives(c: Ctx, root: seq<Edge>, outcome: Outcome)
    requires !MarkDone(c) && MarkReady(c, root)
    ensures var d := MarkOne(c, root, outcome);
            && (LivesOk(c) ==> LivesOk(d))
            && (GoneIsFreed(c) ==> GoneIsFreed(d))
  {
    match NextGray(c) {
      case Some(r) => TraceEdgesShape(StartTrace(c), Reported(c.heap[r].edges, outcome));
      case None => TraceEdgesShape(c, Reported(root, outcome));
    }
    SameLives(c, MarkOne(c, root, outcome));
  }

  /** The box at the cursor may be dropped or freed; the history of every other box stays. */
  lemma SweepOneHistory(c: Ctx, panics: bool, q: Ref)
    requires SweepReady(c)
    ensures var d, r := SweepOne(c, panics), c.back[0];
            && Occurs(d.past.dropped, q)
               == Occurs(c.past.dropped, q) + (if q == r && c.heap[r].live && c.heap[r].color != Black then 1 else 0)
            && Occurs(d.past.freed, q)
               == Occurs(c.past.freed, q)
                  + (if q == r && c.heap[r].color == White && !(panics && c.heap[r].live) then 1 else 0)
  {
    OccursPush(c.past.dropped, c.back[0], q);
    OccursPush(c.past.freed, c.back[0], q);
  }

  lemma SweepOneLives(c: Ctx, panics: bool)
    requires SweepReady(c) && LivesOk(c)
    ensures LivesOk(SweepOne(c, panics))
  {
    forall q
      ensures LifeOk(SweepOne(c, panics), q)
    {
      SweepOneHistory(c, panics, q);
      assert LifeOk(c, q);
    }
  }

  lemma SweepOneFrees(c: Ctx)
    requires SweepReady(c) && LivesOk(c) && GoneIsFreed(c)
    ensures GoneIsFreed(SweepOne(c, false))
  {
    var d := SweepOne(c, false);
    forall q | q in d.past.born && q !in d.heap
      ensures Occurs(d.past.dropped, q) == 1 && Occurs(d.past.freed, q) == 1
    {
      SweepOneHistory(c, false, q);
      assert LifeOk(c, q);
    }
  }

  lemma BarrierLives(c: Ctx, b: Barrier)
    requires BarrierReady(c, b)
    ensures LivesOk(c) ==> LivesOk(RunBarrier(c, b))
    ensures GoneIsFreed(c) ==> GoneIsFreed(RunBarrier(c, b))
  {
    SameLives(c, RunBarrier(c, b));
  }

  lemma StepLives(w: World, ev: Event)
    requires Allowed(w, ev) && Ready(w, ev) && LivesOk(w.cx)
    ensures LivesOk(After(w, ev).cx)
    ensures GoneIsFreed(w.cx) && ev != SweepStep(true) ==> GoneIsFreed(After(w, ev).cx)
  {
    match ev {
      case Alloc(r, needsTrace, size, edges) => AllocateLives(w.cx, r, needsTrace, size, edges);
      case Resurrection(r) => SameLives(w.cx, Resurrect(w.cx, r));
      case CallBarrier(b) => BarrierLives(w.cx, b);
      case Write(p, edges) => SameLives(w.cx, SetEdges(w.cx, p, edges));
      case Shed(p, edges) => SameLives(w.cx, SetEdges(w.cx, p, edges));
      case MarkStep(outcome) => MarkOneLives(w.cx, w.root, outcome);
      case SweepStep(panics) =>
        SweepOneLives(w.cx, panics);
        if GoneIsFreed(w.cx) && !panics {
          SweepOneFrees(w.cx);
        }
      case OpenRoot => SameLives(w.cx, RootBarrier(w.cx));
      case Tune(_) => SameLives(w.cx, After(w, ev).cx);
      case WakeUp => SameLives(w.cx, Wake(w.cx));
      case BeginSweep => SameLives(w.cx, StartSweep(w.cx));
      case FinishSweep(resetDebt) => SameLives(w.cx, EndSweep(w.cx, resetDebt));
      case _ =>
    }
  }

  /** In every run, whether or not destructors panic, no value is dropped twice and no box is freed
      twice, and a box is live just when its value has not been dropped. */
  lemma {:induction false} RunLives(ws: seq<World>, evs: seq<Event>, i: nat)
    requires IsRun(ws, evs) && ws[0] == INITIAL && i < |ws|
    ensures LivesOk(ws[i].cx)
  {
    if i > 0 {
      RunLives(ws, evs, i - 1);
      StepLives(ws[i - 1], evs[i - 1]);
    } else {
      NothingLives();
    }
  }

  /** If no destructor has panicked, what is not on the heap any more has been dropped once and freed
      once. */
  lemma {:induction false} RunFrees(ws: seq<World>, evs: seq<Event>, i: nat)
    requires IsRun(ws, evs) && ws[0] == INITIAL && i < |ws| && NoDropPanics(evs, i)
    ensures GoneIsFreed(ws[i].cx)
  {
    if i > 0 {
      RunFrees(ws, evs, i - 1);
      RunLives(ws, evs, i - 1);
      StepLives(ws[i - 1], evs[i - 1]);
    } else {
      NothingLives();
    }
  }

  lemma NothingLives()
    ensures LivesOk(EMPTY) && GoneIsFreed(EMPTY)
  {
    forall r
      ensures LifeOk(EMPTY, r)
    {
    }
  }

  /** What is inaccessible when the collector wakes has been deallocated when it sleeps again. */
  lemma InaccessibleIsFreed(ws: seq<World>, evs: seq<Event>, i: nat, j: nat, r: Ref)
    requires IsRun(ws, evs) && ws[0] == INITIAL && i < j < |ws| && NoDropPanics(evs, j)
    requires evs[i].WakeUp? && WithinCycle(evs, i + 1, j) && ws[j].cx.phase == Sleep
    requires r in ws[i].cx.heap && !Accessible(ws[i].cx.heap, EdgeSet(ws[i].root), r)
    ensures Occurs(ws[j].cx.past.freed, r) == 1 && Occurs(ws[j].cx.past.dropped, r) == 1
  {
    InaccessibleIsRemoved(ws, evs, i, j, r);
    RunLives(ws, evs, i);
    BornStays(ws, evs, i, j, r);
    RunFrees(ws, evs, j);
  }

  predicate Born(w: World, r: Ref) {
    r in w.cx.past.born
  }

  lemma {:induction false} BornStays(ws: seq<World>, evs: seq<Event>, i: nat, j: nat, r: Ref)
    requires IsRun(ws, evs) && i <= j < |ws| && Born(ws[i], r)
    ensures Born(ws[j], r)
    decreases j
  {
    if i == j {
    } else {
      BornStays(ws, evs, i, j - 1, r);
      BornGrows(ws, evs, j - 1, r);
    }
  }

  lemma BornGrows(ws: seq<World>, evs: seq<Event>, i: nat, r: Ref)
    requires IsRun(ws, evs) && i < |evs| && Born(ws[i], r)
    ensures Born(ws[i + 1], r)
  {
    RunStep(ws, evs, i);
    StepKeepsBorn(ws[i], evs[i], ws[i + 1]);
  }

  lemma StepKeepsBorn(w: World, ev: Event, v: World)
    requires Follows(w, ev, v)
    ensures w.cx.past.born <= v.cx.past.born
  {
    match ev {
      case MarkStep(outcome) => MarkOneKeepsBorn(w.cx, w.root, outcome);
      case SweepStep(panics) => SweepOneKeepsBorn(w.cx, panics);
      case _ =>
    }
  }

  lemma MarkOneKeepsBorn(c: Ctx, root: seq<Edge>, outcome: Outcome)
    requires !MarkDone(c) && MarkReady(c, root)
    ensures MarkOne(c, root, outcome).past == c.past
  {
    match NextGray(c) {
      case Some(g) => TraceEdgesShape(StartTrace(c), Reported(c.heap[g].edges, outcome));
      case None => TraceEdgesShape(c, Reported(root, outcome));
    }
  }

  lemma SweepOneKeepsBorn(c: Ctx, panics: bool)
    requires SweepReady(c)
    ensures SweepOne(c, panics).past.born == c.past.born
  {
  }

  // -------------------------------------------------------------- dropping the arena

  /** The end of one box. If the destructor panics the box leaks, and the rest of the list is dropped
      while unwinding. */
  function DropOne(c: Ctx, r: Ref, u: Conduct): Ctx
    requires r in c.heap
  {
    var b := c.heap[r];
    if !b.live then Deallocate(c, r, b)
    else if u.outcome.Panics? then Tuned(Unlink(DropValue(c, r), r), u.reports)
    else Tuned(Deallocate(CountDrop(DropValue(c, r), b), r, b), u.reports)
  }

  predicate Droppable(c: Ctx, xs: seq<Ref>) {
    Distinct(xs) && forall r | r in xs :: r in c.heap
  }

  /** None of the destructors panics. */
  predicate AllReturn(us: map<Ref, Conduct>) {
    forall r | r in us :: us[r].outcome.Returns?
  }

  /** Drops the boxes of the list one after the other. `us` says what the destructors do. */
  function TearDown(c: Ctx, xs: seq<Ref>, us: map<Ref, Conduct>): Ctx
    requires Droppable(c, xs)
    decreases |xs|
  {
    if xs == [] then c else TearDown(DropOne(c, xs[0], ConductOf(us, xs[0])), xs[1..], us)
  }

  lemma DropOneHistory(c: Ctx, r: Ref, u: Conduct, q: Ref)
    requires r in c.heap
    ensures var d := DropOne(c, r, u);
            && d.heap == c.heap - {r} && d.past.born == c.past.born
            && Occurs(d.past.dropped, q) == Occurs(c.past.dropped, q) + (if q == r && c.heap[r].live then 1 else 0)
            && Occurs(d.past.freed, q)
               == Occurs(c.past.freed, q) + (if q == r && !(c.heap[r].live && u.outcome.Panics?) then 1 else 0)
  {
    OccursPush(c.past.dropped, r, q);
    OccursPush(c.past.freed, r, q);
  }

  lemma DropOneLives(c: Ctx, r: Ref, u: Conduct)
    requires r in c.heap && LivesOk(c)
    ensures LivesOk(DropOne(c, r, u))
  {
    assert LifeOk(c, r);
    forall q
      ensures LifeOk(DropOne(c, r, u), q)
    {
      DropOneHistory(c, r, u, q);
      assert LifeOk(c, q);
    }
    DropOneHistory(c, r, u, r);
  }

  lemma DropOneFrees(c: Ctx, r: Ref, u: Conduct)
    requires r in c.heap && LivesOk(c) && GoneIsFreed(c) && u.outcome.Returns?
    ensures GoneIsFreed(DropOne(c, r, u))
  {
    assert LifeOk(c, r);
    var d := DropOne(c, r, u);
    DropOneHistory(c, r, u, r);
    forall q | q in d.past.born && q !in d.heap
      ensures Occurs(d.past.dropped, q) == 1 && Occurs(d.past.freed, q) == 1
    {
      DropOneHistory(c, r, u, q);
    }
  }

  lemma {:induction false} TearDownLives(c: Ctx, xs: seq<Ref>, us: map<Ref, Conduct>)
    requires Droppable(c, xs) && LivesOk(c)
    ensures LivesOk(TearDown(c, xs, us))
    decreases |xs|
  {
    if xs == [] {
    } else {
      DropOneLives(c, xs[0], ConductOf(us, xs[0]));
      TearDownLives(DropOne(c, xs[0], ConductOf(us, xs[0])), xs[1..], us);
    }
  }

  lemma {:induction false} TearDownFrees(c: Ctx, xs: seq<Ref>, us: map<Ref, Conduct>)
    requires Droppable(c, xs) && LivesOk(c) && GoneIsFreed(c) && AllReturn(us)
    ensures GoneIsFreed(TearDown(c, xs, us))
    decreases |xs|
  {
    if xs == [] {
    } else {
      DropOneLives(c, xs[0], ConductOf(us, xs[0]));
      DropOneFrees(c, xs[0], ConductOf(us, xs[0]));
      TearDownFrees(DropOne(c, xs[0], ConductOf(us, xs[0])), xs[1..], us);
    }
  }

  lemma {:induction false} TearDownEmpties(c: Ctx, xs: seq<Ref>, us: map<Ref, Conduct>)
    requires Droppable(c, xs)
    ensures var d := TearDown(c, xs, us);
            d.heap.Keys == c.heap.Keys - (set r | r in xs) && d.past.born == c.past.born
    decreases |xs|
  {
    if xs == [] {
    } else {
      DropOneHistory(c, xs[0], ConductOf(us, xs[0]), xs[0]);
      TearDownEmpties(DropOne(c, xs[0], ConductOf(us, xs[0])), xs[1..], us);
      assert xs == [xs[0]] + xs[1..];
    }
  }

  /** Only what has been leaked stays in the totals. */
  lemma {:induction false} TearDownTotals(c: Ctx, xs: seq<Ref>, us: map<Ref, Conduct>, gap: Gap)
    requires Droppable(c, xs) && AllReturn(us)
    requires c.meter.totalGcs == Weigh(Boxes, c.heap, xs) + gap.leakedGcs
    requires c.meter.totalGcBytes == Weigh(Bytes, c.heap, xs) + gap.leakedBytes
    ensures var m := TearDown(c, xs, us).meter;
            && m.totalGcs == gap.leakedGcs && m.totalGcBytes == gap.leakedBytes
            && m.droppedBytes == c.meter.droppedBytes + Weigh(LiveBytes, c.heap, xs)
            && m.freedBytes == c.meter.freedBytes + Weigh(Bytes, c.heap, xs)
    decreases |xs|
  {
    if xs == [] {
    } else {
      var d := DropOne(c, xs[0], ConductOf(us, xs[0]));
      DropOneTotals(c, xs[0], ConductOf(us, xs[0]));
      WeighSame(Boxes, c.heap, d.heap, xs[1..]);
      WeighSame(Bytes, c.heap, d.heap, xs[1..]);
      WeighSame(LiveBytes, c.heap, d.heap, xs[1..]);
      TearDownTotals(d, xs[1..], us, gap);
    }
  }

  lemma DropOneTotals(c: Ctx, r: Ref, u: Conduct)
    requires r in c.heap && u.outcome.Returns?
    ensures var d := DropOne(c, r, u);
            && d.meter.totalGcs == c.meter.totalGcs - 1
            && d.meter.totalGcBytes == c.meter.totalGcBytes - c.heap[r].size
            && d.meter.droppedBytes == c.meter.droppedBytes + (if c.heap[r].live then c.heap[r].size else 0)
            && d.meter.freedBytes == c.meter.freedBytes + c.heap[r].size
  {
    TuneAllKeeps(Deallocate(CountDrop(DropValue(c, r), c.heap[r]), r, c.heap[r]).meter, u.reports);
  }

  /** The live boxes of a list, in its order. */
  function LiveOf(heap: map<Ref, Box>, xs: seq<Ref>): seq<Ref> {
    if xs == [] then [] else LiveNow(heap, xs[0]) + LiveOf(heap, xs[1..])
  }

  function LiveNow(heap: map<Ref, Box>, r: Ref): seq<Ref> {
    if r in heap && heap[r].live then [r] else []
  }

  /** The boxes of a list whose destructors return or need not be called, in its order. */
  function CalmOf(heap: map<Ref, Box>, xs: seq<Ref>, us: map<Ref, Conduct>): seq<Ref> {
    if xs == [] then [] else CalmNow(heap, xs[0], us) + CalmOf(heap, xs[1..], us)
  }

  function CalmNow(heap: map<Ref, Box>, r: Ref, us: map<Ref, Conduct>): seq<Ref> {
    if r in heap && heap[r].live && ConductOf(us, r).outcome.Panics? then [] else [r]
  }

  lemma {:induction false} SameLiveOf(h: map<Ref, Box>, r: Ref, xs: seq<Ref>, us: map<Ref, Conduct>)
    requires r !in xs
    ensures LiveOf(h - {r}, xs) == LiveOf(h, xs) && CalmOf(h - {r}, xs, us) == CalmOf(h, xs, us)
  {
    if xs == [] {
    } else {
      SameLiveOf(h, r, xs[1..], us);
    }
  }

  /** The context drops its boxes in the order of the list, which is from the newest to the oldest, and frees
      each one right after it, unless its destructor has panicked. */
  lemma {:induction false} TearDownInOrder(c: Ctx, xs: seq<Ref>, us: map<Ref, Conduct>)
    requires Droppable(c, xs)
    ensures var d := TearDown(c, xs, us);
            && d.past.dropped == c.past.dropped + LiveOf(c.heap, xs)
            && d.past.freed == c.past.freed + CalmOf(c.heap, xs, us)
    decreases |xs|
  {
    if xs == [] {
    } else {
      var d := DropOne(c, xs[0], ConductOf(us, xs[0]));
      assert xs[0] !in xs[1..];
      SameLiveOf(c.heap, xs[0], xs[1..], us);
      DropOneOrder(c, xs[0], us);
      TearDownInOrder(d, xs[1..], us);
      Chain(c.past.dropped, LiveNow(c.heap, xs[0]), LiveOf(c.heap, xs[1..]));
      Chain(c.past.freed, CalmNow(c.heap, xs[0], us), CalmOf(c.heap, xs[1..], us));
    }
  }

  lemma DropOneOrder(c: Ctx, r: Ref, us: map<Ref, Conduct>)
    requires r in c.heap
    ensures var d := DropOne(c, r, ConductOf(us, r));
            && d.heap == c.heap - {r}
            && d.past.dropped == c.past.dropped + LiveNow(c.heap, r)
            && d.past.freed == c.past.freed + CalmNow(c.heap, r, us)
  {
  }

  lemma Chain(a: seq<Ref>, b: seq<Ref>, c: seq<Ref>)
    ensures (a + b) + c == a + (b + c)
  {
  }

  lemma ListIsDroppable(c: Ctx)
    requires Listed(c)
    ensures Droppable(c, c.List()) && forall r :: r in c.List() <==> r in c.heap
  {
    forall r
      ensures Occurs(c.List(), r) <= 1
      ensures r in c.List() <==> r in c.heap
    {
      OccursList(c, r);
    }
    OnceIsDistinct(c.List());
  }

  /** The context is dropped: its phase becomes `Drop`, and every box on the list goes. */
  function DropContext(c: Ctx, us: map<Ref, Conduct>): Ctx
    requires Droppable(c, c.List())
  {
    TearDown(c.(phase := Phase.Drop), c.List(), us)
  }

  /** When the arena is dropped, at whatever point of a run, nothing is left on the heap, and every
      value ever allocated has been dropped at most once over the whole run and every box freed at
      most once. If the remaining destructors return, the totals are what has been leaked before; if no
      destructor has panicked at all, dropping and freeing have happened exactly once, to all of them, and
      nothing has been leaked. */
  lemma ArenaDropsOnce(ws: seq<World>, evs: seq<Event>, i: nat, us: map<Ref, Conduct>)
    requires IsRun(ws, evs) && ws[0] == INITIAL && i < |ws|
    ensures Droppable(ws[i].cx, ws[i].cx.List())
    ensures var d := DropContext(ws[i].cx, us);
            && d.heap == map[]
            && d.past.born == ws[i].cx.past.born
            && (forall r :: Occurs(d.past.dropped, r) <= 1 && Occurs(d.past.freed, r) <= 1)
            && (NoDropPanics(evs, i) && AllReturn(us) ==>
                  && (forall r | r in d.past.born :: Occurs(d.past.dropped, r) == 1 && Occurs(d.past.freed, r) == 1)
                  && GapAt(ws, evs, i) == NO_GAP)
            && (AllReturn(us) ==>
                  && d.meter.totalGcs == GapAt(ws, evs, i).leakedGcs
                  && d.meter.totalGcBytes == GapAt(ws, evs, i).leakedBytes)
  {
    var c := ws[i].cx;
    InitialOk();
    RunKeeps(ws, evs, i);
    RunLives(ws, evs, i);
    if NoDropPanics(evs, i) {
      RunFrees(ws, evs, i);
    }
    ListIsDroppable(c);
    var d := DropContext(c, us);
    SameLives(c, c.(phase := Phase.Drop));
    var c' := c.(phase := Phase.Drop);
    TearDownLives(c', c.List(), us);
    TearDownEmpties(c', c.List(), us);
    forall r
      ensures Occurs(d.past.dropped, r) <= 1 && Occurs(d.past.freed, r) <= 1
    {
      assert LifeOk(d, r);
    }
    assert d.heap.Keys == {};
    if NoDropPanics(evs, i) && AllReturn(us) {
      TearDownFrees(c', c.List(), us);
      CalmRunHasNoGap(ws, evs, i);
    }
    if AllReturn(us) {
      RunCounts(ws, evs, i);
      TearDownTotals(c', c.List(), us, GapAt(ws, evs, i));
    }
  }
}
