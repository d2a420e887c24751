/** A whole call of `do_collection`: it terminates, keeps the invariant, honours its stop condition
    and pays the debt, whatever the program's own code does meanwhile. */
module Collection {
  import opened Types
  import opened Metering
  import opened Collector
  import opened Invariant
  import opened Marking
  import opened Sweeping
  import opened Gauges
  import opened Runs
  import opened Safety

  /** What the program does in this trip, and in the later ones. */
  function Now(us: seq<Conduct>): Conduct {
    if us == [] then CALM else us[0]
  }

  function Later(us: seq<Conduct>): seq<Conduct> {
    if us == [] then [] else us[1..]
  }

  /** One trip around the loop leaves it, or goes on to check the debt, or a panic unwinds out of it. */
  datatype Trip = Leave(cx: Ctx) | Stay(cx: Ctx, slept: bool) | Unwind(cx: Ctx)

  /** How a call ends. */
  datatype End = Returned(cx: Ctx) | Unwound(cx: Ctx)

  /** The work of one trip. */
  function Proceed(c: Ctx, root: seq<Edge>, stop: Stop, slept: bool, outcome: Outcome): Trip
    requires CtxOk(c, root)
  {
    NeverStuck(c, root);
    match c.phase
    case Sleep => Stay(Wake(c), true)
    case Mark =>
      if !MarkDone(c) then
        if outcome.Panics? then Unwind(MarkOne(c, root, outcome)) else Stay(MarkOne(c, root, Returns), slept)
      else if stop.Rank() <= FullyMarked.Rank() then Leave(c)
      else Stay(StartSweep(c), slept)
    case Sweep =>
      if stop.Rank() <= AtSweep.Rank() then Leave(c)
      else if c.back != [] then
        if DropPanics(c, outcome) then Unwind(SweepOne(c, true)) else Stay(SweepOne(c, false), slept)
      else if stop == Stop.FinishCycle || slept then Leave(EndSweep(c, slept))
      else Stay(EndSweep(c, slept), slept)
    case Drop => Leave(c)
  }

  /** The trip calls `trace` or a destructor. */
  predicate CallsProgram(c: Ctx) {
    match c.phase
    case Mark => !MarkDone(c)
    case Sweep => SweepReady(c) && DropsValue(c)
    case _ => false
  }

  /** The trip calls a destructor. */
  predicate CallsDestructor(c: Ctx) {
    c.phase == Sweep && SweepReady(c) && DropsValue(c)
  }

  function ReportsIn(c: Ctx, u: Conduct): seq<Tuning> {
    if CallsProgram(c) then u.reports else []
  }

  function DropsIn(c: Ctx, u: Conduct): seq<Vacate> {
    if CallsDestructor(c) then u.drops else []
  }

  /** What the program's code does to the state `d` in which the collector leaves `c`. */
  function Affected(c: Ctx, d: Ctx, u: Conduct): Ctx {
    VacateAll(Tuned(d, ReportsIn(c, u)), DropsIn(c, u))
  }

  /** One trip, with what the program's code does while it is called. */
  function Tick(c: Ctx, root: seq<Edge>, stop: Stop, slept: bool, u: Conduct): Trip
    requires CtxOk(c, root)
  {
    match Proceed(c, root, stop, slept, u.outcome)
    case Leave(d) => Leave(d)
    case Stay(d, slept') => Stay(Affected(c, d, u), slept')
    case Unwind(d) => Unwind(Affected(c, d, u))
  }

  /** The boxes that lose a pointer in the trip. */
  function TickLosers(c: Ctx, root: seq<Edge>, stop: Stop, slept: bool, u: Conduct): set<Ref>
    requires CtxOk(c, root)
  {
    match Proceed(c, root, stop, slept, u.outcome)
    case Leave(_) => {}
    case Stay(d, _) => Losers(Tuned(d, ReportsIn(c, u)), DropsIn(c, u))
    case Unwind(d) => Losers(Tuned(d, ReportsIn(c, u)), DropsIn(c, u))
  }

  /** Some pointers are gone, none of them weak, and none is new. */
  predicate Fewer(es: seq<Edge>, fs: seq<Edge>) {
    && |fs| <= |es|
    && (|fs| == |es| ==> fs == es)
    && (forall e | e in fs :: e in es)
    && (forall e | e in es && e.Weak? :: e in fs)
  }

  /** Nothing but pointers in live boxes has changed, and some of them are gone: from the boxes in `lost`,
      and from no others. */
  predicate OnlyLost(c: Ctx, d: Ctx, lost: set<Ref>) {
    && d == c.(heap := d.heap) && d.heap.Keys == c.heap.Keys
    && forall r {:trigger d.heap[r]} | r in c.heap ::
         && d.heap[r] == c.heap[r].(edges := d.heap[r].edges)
         && Fewer(c.heap[r].edges, d.heap[r].edges)
         && (r in lost <==> d.heap[r].edges != c.heap[r].edges)
  }

  lemma MinusIsFewer(edges: seq<Edge>, i: nat)
    requires i < |edges| && edges[i].Strong?
    ensures Fewer(edges, Minus(edges, i)) && Minus(edges, i) != edges
  {
    forall e | e in edges && e.Weak?
      ensures e in Minus(edges, i)
    {
      var k :| 0 <= k < |edges| && edges[k] == e;
      assert Minus(edges, i)[if k < i then k else k - 1] == e;
    }
  }

  lemma LostTwice(c: Ctx, d: Ctx, e: Ctx, lost: set<Ref>, more: set<Ref>)
    requires OnlyLost(c, d, lost) && OnlyLost(d, e, more)
    ensures OnlyLost(c, e, lost + more)
  {
    forall r | r in c.heap
      ensures e.heap[r] == c.heap[r].(edges := e.heap[r].edges)
      ensures Fewer(c.heap[r].edges, e.heap[r].edges)
      ensures r in lost + more <==> e.heap[r].edges != c.heap[r].edges
    {
      assert d.heap[r] == c.heap[r].(edges := d.heap[r].edges);
    }
  }

  lemma {:induction false} VacateAllLoses(c: Ctx, vs: seq<Vacate>)
    ensures OnlyLost(c, VacateAll(c, vs), Losers(c, vs))
    decreases |vs|
  {
    if vs == [] {
    } else {
      var d := Vacated(c, vs[0]);
      if Vacates(c, vs[0]) {
        MinusIsFewer(c.heap[vs[0].from].edges, vs[0].index);
      }
      assert OnlyLost(c, d, if Vacates(c, vs[0]) then {vs[0].from} else {});
      VacateAllLoses(d, vs[1..]);
      LostTwice(c, d, VacateAll(c, vs), if Vacates(c, vs[0]) then {vs[0].from} else {}, Losers(d, vs[1..]));
    }
  }

  /** A handle is dropped: the event of a run in which the box of the set sheds a pointer. */
  lemma VacateIsShed(c: Ctx, root: seq<Edge>, v: Vacate)
    requires Vacates(c, v)
    ensures Follows(Bare(c, root), Shed(v.from, Minus(c.heap[v.from].edges, v.index)), Bare(Vacated(c, v), root))
  {
    MinusIsFewer(c.heap[v.from].edges, v.index);
  }

  lemma {:induction false} VacateAllKeeps(c: Ctx, root: seq<Edge>, vs: seq<Vacate>)
    requires CtxOk(c, root)
    ensures CtxOk(VacateAll(c, vs), root)
    decreases |vs|
  {
    if vs == [] {
    } else {
      if Vacates(c, vs[0]) {
        VacateIsShed(c, root, vs[0]);
        StepKeeps(Bare(c, root), Shed(vs[0].from, Minus(c.heap[vs[0].from].edges, vs[0].index)));
      }
      VacateAllKeeps(Vacated(c, vs[0]), root, vs[1..]);
    }
  }

  lemma ProceedKeeps(c: Ctx, root: seq<Edge>, stop: Stop, slept: bool, outcome: Outcome)
    requires CtxOk(c, root)
    ensures CtxOk(Proceed(c, root, stop, slept, outcome).cx, root)
  {
    NeverStuck(c, root);
    match c.phase {
      case Sleep => WakeKeeps(c, root);
      case Mark =>
        if !MarkDone(c) {
          MarkOneKeeps(c, root, outcome);
        } else {
          StartSweepKeeps(c, root);
        }
      case Sweep =>
        if c.back != [] {
          SweepOneKeeps(c, root, DropPanics(c, outcome));
        } else {
          EndSweepKeeps(c, root, slept);
        }
    }
  }

  lemma TunedKeeps(c: Ctx, root: seq<Edge>, reports: seq<Tuning>)
    requires CtxOk(c, root)
    ensures CtxOk(Tuned(c, reports), root)
  {
    MeterIsNotInHeap(Bare(c, root), Tuned(c, reports).meter);
  }

  lemma AffectedKeeps(c: Ctx, d: Ctx, root: seq<Edge>, u: Conduct)
    requires CtxOk(d, root)
    ensures CtxOk(Affected(c, d, u), root)
  {
    TunedKeeps(d, root, ReportsIn(c, u));
    VacateAllKeeps(Tuned(d, ReportsIn(c, u)), root, DropsIn(c, u));
  }

  lemma TickKeeps(c: Ctx, root: seq<Edge>, stop: Stop, slept: bool, u: Conduct)
    requires CtxOk(c, root)
    ensures CtxOk(Tick(c, root, stop, slept, u).cx, root)
  {
    ProceedKeeps(c, root, stop, slept, u.outcome);
    AffectedKeeps(c, Proceed(c, root, stop, slept, u.outcome).cx, root, u);
  }

  // ---------------------------------------------------------------------- termination

  /** The phases still to come. A call that has slept leaves the loop when it sleeps again. */
  function PhasesLeft(c: Ctx, slept: bool): nat {
    match c.phase
    case Sleep => if slept then 3 else 0
    case Mark => 2
    case Sweep => 1
    case Drop => 0
  }

  /** The work left in the phase: two units for each white box, one for each gray one and one for
      the root, or else one for each box still to be swept and one to finish. */
  function WorkLeft(c: Ctx): nat {
    if c.phase == Mark then Weigh(Work, c.heap, c.List()) + if c.rootNeedsTrace then 1 else 0
    else if c.phase == Sweep then |c.back| + 1
    else 0
  }

  lemma TraceEdgesWork(c: Ctx, edges: seq<Edge>, xs: seq<Ref>)
    requires Present(c, edges)
    ensures Weigh(Work, TraceEdges(c, edges).heap, xs) <= Weigh(Work, c.heap, xs)
  {
    var d := TraceEdges(c, edges);
    TraceEdgesShape(c, edges);
    TraceEdgesSpare(c, edges);
    WeighMonotone(Work, d.heap, c.heap, xs);
  }

  lemma MarkOneWork(c: Ctx, root: seq<Edge>)
    requires c.phase == Mark && CtxOk(c, root) && !MarkDone(c) && MarkReady(c, root)
    ensures WorkLeft(MarkOne(c, root, Returns)) < WorkLeft(c)
  {
    match NextGray(c) {
      case Some(r) =>
        PopKeepsQueued(c, r);
        OccursList(c, r);
        WeighUpdate(Work, c.heap, c.List(), r, c.heap[r].(color := Black));
        TraceEdgesWork(StartTrace(c), c.heap[r].edges, c.List());
        TraceEdgesShape(StartTrace(c), c.heap[r].edges);
      case None =>
        TraceEdgesWork(c, root, c.List());
        TraceEdgesShape(c, root);
    }
  }

  function NextPhase(c: Ctx): Phase {
    match c.phase
    case Sleep => Mark
    case Mark => if MarkDone(c) then Sweep else Mark
    case Sweep => if c.back == [] then Sleep else Sweep
    case Drop => Drop
  }

  /** The lexicographic measure under which the loop terminates goes down. */
  predicate Nearer(c: Ctx, slept: bool, d: Ctx, slept': bool) {
    && (slept ==> slept')
    && (slept == slept' ==>
          || PhasesLeft(d, slept') < PhasesLeft(c, slept)
          || (PhasesLeft(d, slept') == PhasesLeft(c, slept) && WorkLeft(d) < WorkLeft(c)))
  }

  lemma ProceedProgresses(c: Ctx, root: seq<Edge>, stop: Stop, slept: bool, outcome: Outcome)
    requires CtxOk(c, root) && Proceed(c, root, stop, slept, outcome).Stay?
    ensures var t := Proceed(c, root, stop, slept, outcome);
            t.cx.phase == NextPhase(c) && Nearer(c, slept, t.cx, t.slept)
  {
    NeverStuck(c, root);
    if c.phase == Mark && !MarkDone(c) {
      MarkOneWork(c, root);
      MarkOneStaysInMark(c, root);
    }
  }

  /** What the program does leaves the phase and the work as they are. */
  lemma AffectedSameWork(c: Ctx, d: Ctx, u: Conduct)
    requires CallsDestructor(c) ==> d.phase != Mark
    ensures var e := Affected(c, d, u);
            && e.phase == d.phase && WorkLeft(e) == WorkLeft(d)
            && forall slept :: PhasesLeft(e, slept) == PhasesLeft(d, slept)
  {
    VacateAllLoses(Tuned(d, ReportsIn(c, u)), DropsIn(c, u));
  }

  /** Every trip that stays in the loop brings its end nearer. */
  lemma TickProgresses(c: Ctx, root: seq<Edge>, stop: Stop, slept: bool, u: Conduct)
    requires CtxOk(c, root) && Tick(c, root, stop, slept, u).Stay?
    ensures var t := Tick(c, root, stop, slept, u); t.cx.phase == NextPhase(c) && Nearer(c, slept, t.cx, t.slept)
  {
    ProceedProgresses(c, root, stop, slept, u.outcome);
    AffectedSameWork(c, Proceed(c, root, stop, slept, u.outcome).cx, u);
  }

  lemma MarkOneStaysInMark(c: Ctx, root: seq<Edge>)
    requires c.phase == Mark && !MarkDone(c) && MarkReady(c, root)
    ensures MarkOne(c, root, Returns).phase == Mark
  {
    match NextGray(c) {
      case Some(r) => TraceEdgesShape(StartTrace(c), c.heap[r].edges);
      case None => TraceEdgesShape(c, root);
    }
  }

  predicate Paid(runUntil: RunUntil, c: Ctx) {
    runUntil == PayDebt && !(AllocationDebt(c.meter) > 0.0)
  }

  /** The loop. `us` says what the program does in each trip; after that it is calm. */
  function Loop(c: Ctx, root: seq<Edge>, runUntil: RunUntil, stop: Stop, slept: bool, us: seq<Conduct>): (e: End)
    requires CtxOk(c, root)
    ensures CtxOk(e.cx, root)
    decreases !slept, PhasesLeft(c, slept), WorkLeft(c)
  {
    TickKeeps(c, root, stop, slept, Now(us));
    match Tick(c, root, stop, slept, Now(us))
    case Leave(d) => Returned(d)
    case Unwind(d) => Unwound(d)
    case Stay(d, slept') =>
      TickProgresses(c, root, stop, slept, Now(us));
      if Paid(runUntil, d) then Returned(d) else Loop(d, root, runUntil, stop, slept', Later(us))
  }

  /** What one trip around the loop does to the rest of the loop. */
  lemma LoopTurn(c: Ctx, root: seq<Edge>, runUntil: RunUntil, stop: Stop, slept: bool, us: seq<Conduct>)
    requires CtxOk(c, root)
    ensures var t := Tick(c, root, stop, slept, Now(us));
            var e := Loop(c, root, runUntil, stop, slept, us);
            && CtxOk(t.cx, root)
            && (t.Leave? ==> e == Returned(t.cx))
            && (t.Unwind? ==> e == Unwound(t.cx))
            && (t.Stay? && Paid(runUntil, t.cx) ==> e == Returned(t.cx))
            && (t.Stay? && !Paid(runUntil, t.cx) ==> e == Loop(t.cx, root, runUntil, stop, t.slept, Later(us)))
            && (t.Stay? ==> Nearer(c, slept, t.cx, t.slept))
  {
    TickKeeps(c, root, stop, slept, Now(us));
    if Tick(c, root, stop, slept, Now(us)).Stay? {
      TickProgresses(c, root, stop, slept, Now(us));
    }
  }

  /** The boxes that lose a pointer in the loop, because a destructor drops the last handle to it. */
  function LoopLosers(c: Ctx, root: seq<Edge>, runUntil: RunUntil, stop: Stop, slept: bool, us: seq<Conduct>): set<Ref>
    requires CtxOk(c, root)
    decreases !slept, PhasesLeft(c, slept), WorkLeft(c)
  {
    LoopTurn(c, root, runUntil, stop, slept, us);
    var t := Tick(c, root, stop, slept, Now(us));
    TickLosers(c, root, stop, slept, Now(us))
    + if t.Stay? && !Paid(runUntil, t.cx) then LoopLosers(t.cx, root, runUntil, stop, t.slept, Later(us)) else {}
  }

  function CallLosers(c: Ctx, root: seq<Edge>, runUntil: RunUntil, stop: Stop, us: seq<Conduct>): set<Ref>
    requires CtxOk(c, root)
  {
    if Paid(runUntil, c) then {} else LoopLosers(c, root, runUntil, stop, false, us)
  }

  /** The handles that destructors drop in the trip. */
  function TickDrops(c: Ctx, root: seq<Edge>, stop: Stop, slept: bool, u: Conduct): seq<Vacate>
    requires CtxOk(c, root)
  {
    if Proceed(c, root, stop, slept, u.outcome).Leave? then [] else DropsIn(c, u)
  }

  function LoopDrops(c: Ctx, root: seq<Edge>, runUntil: RunUntil, stop: Stop, slept: bool, us: seq<Conduct>):
    seq<Vacate>
    requires CtxOk(c, root)
    decreases !slept, PhasesLeft(c, slept), WorkLeft(c)
  {
    LoopTurn(c, root, runUntil, stop, slept, us);
    var t := Tick(c, root, stop, slept, Now(us));
    TickDrops(c, root, stop, slept, Now(us))
    + if t.Stay? && !Paid(runUntil, t.cx) then LoopDrops(t.cx, root, runUntil, stop, t.slept, Later(us)) else []
  }

  /** The handles that destructors drop in the call, in order. */
  function CallDrops(c: Ctx, root: seq<Edge>, runUntil: RunUntil, stop: Stop, us: seq<Conduct>): seq<Vacate>
    requires CtxOk(c, root)
  {
    if Paid(runUntil, c) then [] else LoopDrops(c, root, runUntil, stop, false, us)
  }

  datatype Course = Going | Done | Unwinding

  /** The loop, begun in `c`, has got to `d`, where it goes on, returns or unwinds. */
  ghost predicate Onwards(c: Ctx, root: seq<Edge>, runUntil: RunUntil, stop: Stop, slept: bool, us: seq<Conduct>,
                          d: Ctx, course: Course, slept': bool)
    requires CtxOk(c, root)
  {
    && CtxOk(d, root)
    && Loop(c, root, runUntil, stop, slept, us) == EndFrom(d, root, runUntil, stop, slept', Later(us), course)
    && (course.Going? ==> Nearer(c, slept, d, slept'))
  }

  function EndFrom(d: Ctx, root: seq<Edge>, runUntil: RunUntil, stop: Stop, slept: bool, us: seq<Conduct>,
                   course: Course): End
    requires CtxOk(d, root)
  {
    match course
    case Going => Loop(d, root, runUntil, stop, slept, us)
    case Done => Returned(d)
    case Unwinding => Unwound(d)
  }

  /** The trip that stands for a course. */
  function TripOf(course: Course, d: Ctx, slept: bool): Trip {
    match course
    case Going => Stay(d, slept)
    case Done => Leave(d)
    case Unwinding => Unwind(d)
  }

  lemma TurnGoesOn(c: Ctx, root: seq<Edge>, runUntil: RunUntil, stop: Stop, slept: bool, us: seq<Conduct>)
    requires CtxOk(c, root)
    ensures match Tick(c, root, stop, slept, Now(us))
            case Leave(d) => forall slept' :: Onwards(c, root, runUntil, stop, slept, us, d, Done, slept')
            case Unwind(d) => forall slept' :: Onwards(c, root, runUntil, stop, slept, us, d, Unwinding, slept')
            case Stay(d, slept') =>
              Onwards(c, root, runUntil, stop, slept, us, d, if Paid(runUntil, d) then Done else Going, slept')
  {
    LoopTurn(c, root, runUntil, stop, slept, us);
  }

  function DoCollection(c: Ctx, root: seq<Edge>, runUntil: RunUntil, stop: Stop, us: seq<Conduct>): (e: End)
    requires CtxOk(c, root)
    ensures CtxOk(e.cx, root)
  {
    if Paid(runUntil, c) then Returned(c) else Loop(c, root, runUntil, stop, false, us)
  }

  // ------------------------------------------------------------------ a call is a run

  function TickEvent(c: Ctx, slept: bool, outcome: Outcome): Event
    requires c.phase != Drop
  {
    match c.phase
    case Sleep => WakeUp
    case Mark => if MarkDone(c) then BeginSweep else MarkStep(outcome)
    case Sweep => if c.back == [] then FinishSweep(slept) else SweepStep(DropPanics(c, outcome))
  }

  function Bare(c: Ctx, root: seq<Edge>): World {
    World(c, root, {}, false, NOTHING)
  }

  lemma ProceedIsEvent(c: Ctx, root: seq<Edge>, stop: Stop, slept: bool, outcome: Outcome)
    requires CtxOk(c, root)
    ensures var t := Proceed(c, root, stop, slept, outcome);
            t == Leave(c) || Follows(Bare(c, root), TickEvent(c, slept, outcome), Bare(t.cx, root))
  {
    NeverStuck(c, root);
  }

  lemma RunCons(w: World, ev: Event, ws: seq<World>, evs: seq<Event>)
    requires IsRun(ws, evs) && Follows(w, ev, ws[0])
    ensures IsRun([w] + ws, [ev] + evs)
    ensures ([w] + ws)[|evs| + 1] == ws[|evs|]
  {
    var vs, fs := [w] + ws, [ev] + evs;
    forall i | 0 <= i < |fs|
      ensures Allowed(vs[i], fs[i]) && Ready(vs[i], fs[i]) && vs[i + 1] == After(vs[i], fs[i])
    {
      if i > 0 {
        assert vs[i] == ws[i - 1] && fs[i] == evs[i - 1] && vs[i + 1] == ws[i];
      }
    }
  }

  lemma EventsCons(ev: Event, evs: seq<Event>)
    ensures Wakes([ev] + evs) == Wakes(evs) + if ev.WakeUp? then 1 else 0
    ensures OnlyCollects(evs) && InCollection(ev) ==> OnlyCollects([ev] + evs)
    ensures CalmDrops(evs) && ev != SweepStep(true) ==> CalmDrops([ev] + evs)
  {
    assert ([ev] + evs)[1..] == evs;
  }

  /** A step of the collector, or something that the program's own code does in it: a report to the
      metrics, or the drop of a handle. */
  predicate InCollection(ev: Event) {
    IsCollection(ev) || ev.Tune? || ev.Shed?
  }

  predicate OnlyCollects(evs: seq<Event>) {
    forall k | 0 <= k < |evs| :: InCollection(evs[k])
  }

  /** No destructor panics. */
  predicate CalmDrops(evs: seq<Event>) {
    forall k {:trigger evs[k]} | 0 <= k < |evs| :: evs[k] != SweepStep(true)
  }

  /** Every step of the collector is taken while there is debt. */
  predicate Owing(ws: seq<World>, evs: seq<Event>)
    requires |ws| == |evs| + 1
  {
    forall k {:trigger evs[k]} | 0 <= k < |evs| && IsCollection(evs[k]) :: AllocationDebt(ws[k].cx.meter) > 0.0
  }

  /** A cycle that ends in the call leaves no debt behind just if the call has woken the collector. `slept`
      says whether it has already. */
  predicate Resets(evs: seq<Event>, slept: bool)
    decreases |evs|
  {
    || evs == []
    || ((evs[0].FinishSweep? ==> evs[0].resetDebt == slept) && Resets(evs[1..], slept || evs[0].WakeUp?))
  }

  function Wakes(evs: seq<Event>): nat {
    if evs == [] then 0 else (if evs[0].WakeUp? then 1 else 0) + Wakes(evs[1..])
  }

  /** How often the loop may still wake the collector. */
  function WakesLeft(c: Ctx, stop: Stop, slept: bool): nat {
    if c.phase != Sleep && (slept || stop == Stop.FinishCycle) then 0 else 1
  }

  /** A trip that wakes the collector uses up one of the wakes that are left. */
  lemma WakesFewer(c: Ctx, root: seq<Edge>, stop: Stop, slept: bool, u: Conduct)
    requires CtxOk(c, root) && Tick(c, root, stop, slept, u).Stay?
    ensures var t := Tick(c, root, stop, slept, u);
            WakesLeft(t.cx, stop, t.slept) + (if TickEvent(c, slept, u.outcome).WakeUp? then 1 else 0)
            <= WakesLeft(c, stop, slept)
  {
    TickProgresses(c, root, stop, slept, u);
  }

  /** A collection goes on from `c` as it does from `d`, once it has got there. */
  predicate Joins(vs: seq<World>, fs: seq<Event>, c: Ctx, root: seq<Edge>, ws: seq<World>, evs: seq<Event>)
    requires |ws| == |evs| + 1
  {
    && IsRun(vs, fs) && vs[0] == Bare(c, root) && vs[|fs|] == ws[|evs|]
    && (OnlyCollects(evs) ==> OnlyCollects(fs))
  }

  /** What has come before `evs` changes nothing about when there is debt and when it is reset. */
  ghost predicate Extends(vs: seq<World>, fs: seq<Event>, ws: seq<World>, evs: seq<Event>)
    requires |vs| == |fs| + 1 && |ws| == |evs| + 1
  {
    && (Owing(ws, evs) ==> Owing(vs, fs))
    && (forall slept {:trigger Resets(fs, slept)} :: Resets(evs, slept) ==> Resets(fs, slept))
  }

  lemma OwingCons(w: World, ev: Event, ws: seq<World>, evs: seq<Event>)
    requires |ws| == |evs| + 1 && Owing(ws, evs) && (IsCollection(ev) ==> AllocationDebt(w.cx.meter) > 0.0)
    ensures Owing([w] + ws, [ev] + evs)
  {
    forall k | 0 <= k < |[ev] + evs| && IsCollection(([ev] + evs)[k])
      ensures AllocationDebt(([w] + ws)[k].cx.meter) > 0.0
    {
      assert k > 0 ==> ([ev] + evs)[k] == evs[k - 1] && ([w] + ws)[k] == ws[k - 1];
    }
  }

  lemma ResetsCons(ev: Event, evs: seq<Event>, slept: bool)
    requires Resets(evs, slept || ev.WakeUp?) && (ev.FinishSweep? ==> ev.resetDebt == slept)
    ensures Resets([ev] + evs, slept)
  {
    assert ([ev] + evs)[1..] == evs;
  }

  /** Something that the program's code does, before a collection. */
  lemma ProgramFirst(w: World, ev: Event, vs: seq<World>, fs: seq<Event>, ws: seq<World>, evs: seq<Event>)
    requires |vs| == |fs| + 1 && |ws| == |evs| + 1 && Extends(vs, fs, ws, evs) && !IsCollection(ev)
    ensures Extends([w] + vs, [ev] + fs, ws, evs)
  {
    if Owing(ws, evs) {
      OwingCons(w, ev, vs, fs);
    }
    forall slept | Resets(evs, slept)
      ensures Resets([ev] + fs, slept)
    {
      ResetsCons(ev, fs, slept);
    }
  }

  /** One more event before a collection. */
  lemma PrependEvent(c: Ctx, ev: Event, d: Ctx, root: seq<Edge>, vs: seq<World>, fs: seq<Event>,
                     ws: seq<World>, evs: seq<Event>)
    requires |ws| == |evs| + 1 && Joins(vs, fs, d, root, ws, evs)
    requires Follows(Bare(c, root), ev, Bare(d, root)) && InCollection(ev)
    ensures Joins([Bare(c, root)] + vs, [ev] + fs, c, root, ws, evs)
    ensures Wakes([ev] + fs) == Wakes(fs) + if ev.WakeUp? then 1 else 0
    ensures CalmDrops(fs) && ev != SweepStep(true) ==> CalmDrops([ev] + fs)
  {
    RunCons(Bare(c, root), ev, vs, fs);
    EventsCons(ev, fs);
  }

  /** A run is a stretch of a collection that leads to another one, by what the program's code does. */
  ghost predicate LeadsTo(vs: seq<World>, fs: seq<Event>, c: Ctx, root: seq<Edge>, ws: seq<World>, evs: seq<Event>)
    requires |ws| == |evs| + 1
  {
    && Joins(vs, fs, c, root, ws, evs) && Extends(vs, fs, ws, evs)
    && Wakes(fs) == Wakes(evs) && (CalmDrops(evs) ==> CalmDrops(fs))
  }

  lemma PrependProgram(c: Ctx, ev: Event, d: Ctx, root: seq<Edge>, vs: seq<World>, fs: seq<Event>,
                       ws: seq<World>, evs: seq<Event>)
    requires |ws| == |evs| + 1 && LeadsTo(vs, fs, d, root, ws, evs)
    requires Follows(Bare(c, root), ev, Bare(d, root)) && InCollection(ev) && !IsCollection(ev)
    ensures LeadsTo([Bare(c, root)] + vs, [ev] + fs, c, root, ws, evs)
  {
    PrependEvent(c, ev, d, root, vs, fs, ws, evs);
    ProgramFirst(Bare(c, root), ev, vs, fs, ws, evs);
  }

  lemma {:induction false} PrependTunings(c: Ctx, root: seq<Edge>, ts: seq<Tuning>, ws: seq<World>, evs: seq<Event>)
      returns (vs: seq<World>, fs: seq<Event>)
    requires IsRun(ws, evs) && ws[0] == Bare(Tuned(c, ts), root)
    ensures LeadsTo(vs, fs, c, root, ws, evs)
    decreases |ts|
  {
    if ts == [] {
      vs, fs := ws, evs;
    } else {
      var d := c.(meter := Metering.Tune(c.meter, ts[0]));
      vs, fs := PrependTunings(d, root, ts[1..], ws, evs);
      PrependProgram(c, Event.Tune(ts[0]), d, root, vs, fs, ws, evs);
      vs, fs := [Bare(c, root)] + vs, [Event.Tune(ts[0])] + fs;
    }
  }

  lemma {:induction false} PrependDrops(c: Ctx, root: seq<Edge>, ds: seq<Vacate>, ws: seq<World>, evs: seq<Event>)
      returns (vs: seq<World>, fs: seq<Event>)
    requires IsRun(ws, evs) && ws[0] == Bare(VacateAll(c, ds), root)
    ensures LeadsTo(vs, fs, c, root, ws, evs)
    decreases |ds|
  {
    if ds == [] {
      vs, fs := ws, evs;
    } else {
      vs, fs := PrependDrops(Vacated(c, ds[0]), root, ds[1..], ws, evs);
      if Vacates(c, ds[0]) {
        var ev := Shed(ds[0].from, Minus(c.heap[ds[0].from].edges, ds[0].index));
        VacateIsShed(c, root, ds[0]);
        PrependProgram(c, ev, Vacated(c, ds[0]), root, vs, fs, ws, evs);
        vs, fs := [Bare(c, root)] + vs, [ev] + fs;
      }
    }
  }

  /** What the program's code does, followed by a run, is a run. */
  lemma PrependAffected(c: Ctx, d: Ctx, root: seq<Edge>, u: Conduct, ws: seq<World>, evs: seq<Event>)
      returns (vs: seq<World>, fs: seq<Event>)
    requires IsRun(ws, evs) && ws[0] == Bare(Affected(c, d, u), root)
    ensures LeadsTo(vs, fs, d, root, ws, evs)
  {
    vs, fs := PrependDrops(Tuned(d, ReportsIn(c, u)), root, DropsIn(c, u), ws, evs);
    var xs, es := vs, fs;
    vs, fs := PrependTunings(d, root, ReportsIn(c, u), xs, es);
    LeadsFurther(vs, fs, d, xs, es, Tuned(d, ReportsIn(c, u)), root, ws, evs);
  }

  lemma LeadsFurther(vs: seq<World>, fs: seq<Event>, c: Ctx, xs: seq<World>, es: seq<Event>, d: Ctx,
                     root: seq<Edge>, ws: seq<World>, evs: seq<Event>)
    requires |xs| == |es| + 1 && |ws| == |evs| + 1
    requires LeadsTo(vs, fs, c, root, xs, es) && LeadsTo(xs, es, d, root, ws, evs)
    ensures LeadsTo(vs, fs, c, root, ws, evs)
  {
  }

  /** A step of the collector, before the rest of a collection. */
  lemma TripFirst(c: Ctx, root: seq<Edge>, ev: Event, slept: bool, vs: seq<World>, fs: seq<Event>,
                  ws: seq<World>, evs: seq<Event>)
    requires |vs| == |fs| + 1 && |ws| == |evs| + 1 && Extends(vs, fs, ws, evs)
    requires ev.FinishSweep? ==> ev.resetDebt == slept
    ensures Owing(ws, evs) && AllocationDebt(c.meter) > 0.0 ==> Owing([Bare(c, root)] + vs, [ev] + fs)
    ensures Resets(evs, slept || ev.WakeUp?) ==> Resets([ev] + fs, slept)
  {
    if Owing(ws, evs) && AllocationDebt(c.meter) > 0.0 {
      OwingCons(Bare(c, root), ev, vs, fs);
    }
    if Resets(evs, slept || ev.WakeUp?) {
      ResetsCons(ev, fs, slept);
    }
  }

  /** A trip followed by a run is a run. */
  lemma PrependTrip(c: Ctx, root: seq<Edge>, stop: Stop, slept: bool, u: Conduct, ws: seq<World>, evs: seq<Event>)
      returns (vs: seq<World>, fs: seq<Event>)
    requires CtxOk(c, root) && Tick(c, root, stop, slept, u) != Leave(c)
    requires IsRun(ws, evs) && ws[0] == Bare(Tick(c, root, stop, slept, u).cx, root)
    ensures Joins(vs, fs, c, root, ws, evs)
    ensures Wakes(fs) == Wakes(evs) + if TickEvent(c, slept, u.outcome).WakeUp? then 1 else 0
    ensures CalmDrops(evs) && !Tick(c, root, stop, slept, u).Unwind? ==> CalmDrops(fs)
    ensures Owing(ws, evs) && AllocationDebt(c.meter) > 0.0 ==> Owing(vs, fs)
    ensures Resets(evs, slept || TickEvent(c, slept, u.outcome).WakeUp?) ==> Resets(fs, slept)
  {
    var t := Proceed(c, root, stop, slept, u.outcome);
    var ev := TickEvent(c, slept, u.outcome);
    ProceedIsEvent(c, root, stop, slept, u.outcome);
    vs, fs := ws, evs;
    if !t.Leave? {
      vs, fs := PrependAffected(c, t.cx, root, u, ws, evs);
    }
    PrependEvent(c, ev, t.cx, root, vs, fs, ws, evs);
    TripFirst(c, root, ev, slept, vs, fs, ws, evs);
    vs, fs := [Bare(c, root)] + vs, [ev] + fs;
  }

  /** The last trip of a call. */
  lemma LastTripIsRun(c: Ctx, root: seq<Edge>, stop: Stop, slept: bool, u: Conduct)
      returns (ws: seq<World>, evs: seq<Event>)
    requires CtxOk(c, root)
    ensures IsRun(ws, evs) && ws[0] == Bare(c, root)
    ensures ws[|evs|] == Bare(Tick(c, root, stop, slept, u).cx, root)
    ensures Wakes(evs) <= WakesLeft(c, stop, slept) && OnlyCollects(evs)
    ensures !Tick(c, root, stop, slept, u).Unwind? ==> CalmDrops(evs)
    ensures AllocationDebt(c.meter) > 0.0 ==> Owing(ws, evs)
    ensures Resets(evs, slept)
  {
    ws, evs := [Bare(Tick(c, root, stop, slept, u).cx, root)], [];
    if Tick(c, root, stop, slept, u) != Leave(c) {
      ws, evs := PrependTrip(c, root, stop, slept, u, ws, evs);
    }
  }

  /** A trip that stays in the loop, before the rest of the loop. */
  lemma OneMoreTrip(c: Ctx, root: seq<Edge>, runUntil: RunUntil, stop: Stop, slept: bool, u: Conduct,
                    ws: seq<World>, evs: seq<Event>)
      returns (vs: seq<World>, fs: seq<Event>)
    requires CtxOk(c, root) && Tick(c, root, stop, slept, u).Stay?
    requires IsRun(ws, evs) && ws[0] == Bare(Tick(c, root, stop, slept, u).cx, root) && OnlyCollects(evs)
    requires var t := Tick(c, root, stop, slept, u);
             && !Paid(runUntil, t.cx) && Wakes(evs) <= WakesLeft(t.cx, stop, t.slept) && Resets(evs, t.slept)
             && (runUntil == PayDebt && AllocationDebt(t.cx.meter) > 0.0 ==> Owing(ws, evs))
    ensures IsRun(vs, fs) && vs[0] == Bare(c, root) && vs[|fs|] == ws[|evs|]
    ensures Wakes(fs) <= WakesLeft(c, stop, slept) && OnlyCollects(fs) && Resets(fs, slept)
    ensures CalmDrops(evs) ==> CalmDrops(fs)
    ensures runUntil == PayDebt && AllocationDebt(c.meter) > 0.0 ==> Owing(vs, fs)
  {
    WakesFewer(c, root, stop, slept, u);
    StayIsWake(c, root, stop, slept, u);
    vs, fs := PrependTrip(c, root, stop, slept, u, ws, evs);
  }

  /** Only a trip that wakes the collector changes whether it has been woken. */
  lemma StayIsWake(c: Ctx, root: seq<Edge>, stop: Stop, slept: bool, u: Conduct)
    requires CtxOk(c, root) && Tick(c, root, stop, slept, u).Stay?
    ensures Tick(c, root, stop, slept, u).slept == (slept || TickEvent(c, slept, u.outcome).WakeUp?)
  {
  }

  lemma {:induction false} LoopIsRun(c: Ctx, root: seq<Edge>, runUntil: RunUntil, stop: Stop, slept: bool,
                                     us: seq<Conduct>)
      returns (ws: seq<World>, evs: seq<Event>)
    requires CtxOk(c, root)
    ensures IsRun(ws, evs) && ws[0] == Bare(c, root)
    ensures ws[|evs|] == Bare(Loop(c, root, runUntil, stop, slept, us).cx, root)
    ensures Wakes(evs) <= WakesLeft(c, stop, slept) && OnlyCollects(evs)
    ensures Loop(c, root, runUntil, stop, slept, us).Returned? ==> CalmDrops(evs)
    ensures runUntil == PayDebt && AllocationDebt(c.meter) > 0.0 ==> Owing(ws, evs)
    ensures Resets(evs, slept)
    decreases !slept, PhasesLeft(c, slept), WorkLeft(c)
  {
    var t := Tick(c, root, stop, slept, Now(us));
    LoopTurn(c, root, runUntil, stop, slept, us);
    if t.Stay? && !Paid(runUntil, t.cx) {
      ws, evs := LoopIsRun(t.cx, root, runUntil, stop, t.slept, Later(us));
      ws, evs := OneMoreTrip(c, root, runUntil, stop, slept, Now(us), ws, evs);
    } else {
      ws, evs := LastTripIsRun(c, root, stop, slept, Now(us));
    }
  }

  /** A call of `do_collection`, whether it returns or unwinds, is a run of collection steps and of what
      the program's code does in them. It wakes the collector at most once; `cycle_debt` and
      `finish_cycle` do not wake it at all unless it sleeps when they are called. If it returns, no
      destructor has panicked. A call that is driven by the debt takes a step only while there is debt,
      and a cycle that ends in the call is forgiven its debt just if the call has begun it, too. */
  lemma CollectionIsRun(c: Ctx, root: seq<Edge>, runUntil: RunUntil, stop: Stop, us: seq<Conduct>)
      returns (ws: seq<World>, evs: seq<Event>)
    requires CtxOk(c, root)
    ensures IsRun(ws, evs) && ws[0] == Bare(c, root)
    ensures ws[|evs|] == Bare(DoCollection(c, root, runUntil, stop, us).cx, root)
    ensures OnlyCollects(evs) && Wakes(evs) <= 1
    ensures DoCollection(c, root, runUntil, stop, us).Returned? ==> CalmDrops(evs)
    ensures stop == Stop.FinishCycle && c.phase != Sleep ==> Wakes(evs) == 0
    ensures runUntil == PayDebt ==> Owing(ws, evs)
    ensures Resets(evs, false)
  {
    if Paid(runUntil, c) {
      ws, evs := [Bare(c, root)], [];
    } else {
      ws, evs := LoopIsRun(c, root, runUntil, stop, false, us);
    }
  }

  /** None of the calls of the program's code unwinds. */
  predicate AllReturn(us: seq<Conduct>) {
    forall k | 0 <= k < |us| :: us[k].outcome.Returns?
  }

  lemma {:induction false} LoopReturns(c: Ctx, root: seq<Edge>, runUntil: RunUntil, stop: Stop, slept: bool,
                                       us: seq<Conduct>)
    requires CtxOk(c, root) && AllReturn(us)
    ensures Loop(c, root, runUntil, stop, slept, us).Returned?
    decreases !slept, PhasesLeft(c, slept), WorkLeft(c)
  {
    var t := Tick(c, root, stop, slept, Now(us));
    LoopTurn(c, root, runUntil, stop, slept, us);
    if t.Stay? && !Paid(runUntil, t.cx) {
      LoopReturns(t.cx, root, runUntil, stop, t.slept, Later(us));
    }
  }

  /** A call returns if the program's code does. */
  lemma CallReturns(c: Ctx, root: seq<Edge>, runUntil: RunUntil, stop: Stop, us: seq<Conduct>)
    requires CtxOk(c, root) && AllReturn(us)
    ensures DoCollection(c, root, runUntil, stop, us).Returned?
  {
    if !Paid(runUntil, c) {
      LoopReturns(c, root, runUntil, stop, false, us);
    }
  }

  // ------------------------------------------------------------------ stop conditions

  /** How a call that does not stop for the debt returns. */
  predicate StopReached(start: Phase, c: Ctx, stop: Stop) {
    match stop
    case FullyMarked => if start == Sweep then c.phase == Sweep else c.phase == Mark && MarkDone(c)
    case AtSweep => c.phase == Sweep
    case FinishCycle => c.phase == Sleep
    case Full => c.phase == Sleep
  }

  lemma {:induction false} LoopReachesStop(c: Ctx, root: seq<Edge>, stop: Stop, slept: bool, us: seq<Conduct>,
                                           start: Phase)
    requires CtxOk(c, root)
    requires stop == Stop.FullyMarked ==> (c.phase == Sweep <==> start == Sweep)
    ensures var e := Loop(c, root, UntilStop, stop, slept, us); e.Returned? ==> StopReached(start, e.cx, stop)
    decreases !slept, PhasesLeft(c, slept), WorkLeft(c)
  {
    var t := Tick(c, root, stop, slept, Now(us));
    LoopTurn(c, root, UntilStop, stop, slept, us);
    if t.Stay? {
      TickProgresses(c, root, stop, slept, Now(us));
      LoopReachesStop(t.cx, root, stop, t.slept, Later(us), start);
    } else if t.Leave? {
      assert StopReached(start, t.cx, stop);
    }
  }

  /** If they return, `finish_cycle` ends asleep, and `finish_marking` ends fully marked unless it was
      called in the middle of a sweep. */
  lemma StopsAreHonoured(c: Ctx, root: seq<Edge>, us: seq<Conduct>)
    requires CtxOk(c, root)
    ensures var e := DoCollection(c, root, UntilStop, Stop.FinishCycle, us); e.Returned? ==> e.cx.phase == Sleep
    ensures var e := DoCollection(c, root, UntilStop, FullyMarked, us);
            e.Returned? ==> (c.phase != Sweep <==> e.cx.phase == Mark && MarkDone(e.cx))
  {
    LoopReachesStop(c, root, Stop.FinishCycle, false, us, c.phase);
    LoopReachesStop(c, root, FullyMarked, false, us, c.phase);
  }

  /** In a sweep `finish_marking` does nothing, and from a fully marked arena `start_sweeping` does
      just the switch; neither calls any code of the program. */
  lemma StopsWithoutWork(c: Ctx, root: seq<Edge>, us: seq<Conduct>)
    requires CtxOk(c, root)
    ensures c.phase == Sweep ==> DoCollection(c, root, UntilStop, FullyMarked, us) == Returned(c)
    ensures c.phase == Mark && MarkDone(c) ==> DoCollection(c, root, UntilStop, AtSweep, us) == Returned(StartSweep(c))
  {
    if c.phase == Mark && MarkDone(c) {
      var d := StartSweep(c);
      LoopTurn(c, root, UntilStop, AtSweep, false, us);
      assert Tick(c, root, AtSweep, false, Now(us)) == Stay(d, false);
      LoopTurn(d, root, UntilStop, AtSweep, false, Later(us));
      assert Tick(d, root, AtSweep, false, Now(Later(us))) == Leave(d);
    }
  }

  /** The debt is paid, or the stop condition has been reached. */
  predicate PaidOrStopped(d: Ctx, stop: Stop) {
    || AllocationDebt(d.meter) == 0.0
    || match stop
       case Full => false
       case FinishCycle => d.phase == Sleep
       case AtSweep => d.phase == Sweep
       case FullyMarked => d.phase == Sweep || (d.phase == Mark && MarkDone(d))
  }

  /** Without debt a debt-driven call does nothing at all. */
  lemma NoDebtNoWork(c: Ctx, root: seq<Edge>, stop: Stop, us: seq<Conduct>)
    requires CtxOk(c, root) && AllocationDebt(c.meter) == 0.0
    ensures DoCollection(c, root, PayDebt, stop, us) == Returned(c)
  {
  }

  /** It returns as soon as a trip has paid the debt. */
  lemma StopsWhenPaid(c: Ctx, root: seq<Edge>, stop: Stop, slept: bool, us: seq<Conduct>)
    requires CtxOk(c, root) && Tick(c, root, stop, slept, Now(us)).Stay?
    requires AllocationDebt(Tick(c, root, stop, slept, Now(us)).cx.meter) == 0.0
    ensures Loop(c, root, PayDebt, stop, slept, us) == Returned(Tick(c, root, stop, slept, Now(us)).cx)
  {
    LoopTurn(c, root, PayDebt, stop, slept, us);
  }

  lemma LeavesPaidOrStopped(c: Ctx, root: seq<Edge>, stop: Stop, slept: bool, u: Conduct)
    requires CtxOk(c, root) && Tick(c, root, stop, slept, u).Leave?
    ensures PaidOrStopped(Tick(c, root, stop, slept, u).cx, stop)
  {
    ResetNeverRaisesDebt(c.meter, slept);
  }

  lemma {:induction false} LoopPays(c: Ctx, root: seq<Edge>, stop: Stop, slept: bool, us: seq<Conduct>)
    requires CtxOk(c, root)
    ensures var e := Loop(c, root, PayDebt, stop, slept, us); e.Returned? ==> PaidOrStopped(e.cx, stop)
    decreases !slept, PhasesLeft(c, slept), WorkLeft(c)
  {
    var t := Tick(c, root, stop, slept, Now(us));
    LoopTurn(c, root, PayDebt, stop, slept, us);
    if t.Leave? {
      LeavesPaidOrStopped(c, root, stop, slept, Now(us));
    } else if t.Stay? && !Paid(PayDebt, t.cx) {
      LoopPays(t.cx, root, stop, t.slept, Later(us));
    }
  }

  /** A debt-driven call that returns ends paid up, or at its stop condition, whatever `trace` and the
      destructors have reported to the metrics on the way. */
  lemma DebtOrStop(c: Ctx, root: seq<Edge>, stop: Stop, us: seq<Conduct>)
    requires CtxOk(c, root)
    ensures var e := DoCollection(c, root, PayDebt, stop, us); e.Returned? ==> PaidOrStopped(e.cx, stop)
  {
    LoopPays(c, root, stop, false, us);
  }

  /** After `collect_debt` there is no debt, from whatever state it was called. */
  lemma CollectDebtPaysAll(c: Ctx, root: seq<Edge>, us: seq<Conduct>)
    requires CtxOk(c, root)
    ensures var e := DoCollection(c, root, PayDebt, Full, us); e.Returned? ==> AllocationDebt(e.cx.meter) == 0.0
  {
    LoopPays(c, root, Full, false, us);
  }
}
