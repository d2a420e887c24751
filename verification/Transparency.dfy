/** A collection leaves alone what the program can reach, and a whole call of the collector is a
    stretch of a run. */
module Transparency {
  import opened Types
  import opened Collector
  import opened Invariant
  import opened Marking
  import opened Runs
  import opened Safety
  import opened Collection
  import Metering

  /** The boxes that are left are as they were, but for their colours, for values dropped, and for the
      pointers that the boxes in `lost` have lost. */
  predicate GraphKept(c: Ctx, d: Ctx, lost: set<Ref>) {
    && d.heap.Keys <= c.heap.Keys
    && forall r {:trigger d.heap[r]} | r in d.heap ::
         && Fewer(c.heap[r].edges, d.heap[r].edges)
         && (r in lost <==> d.heap[r].edges != c.heap[r].edges)
         && d.heap[r].size == c.heap[r].size
         && d.heap[r].needsTrace == c.heap[r].needsTrace
         && (d.heap[r].live ==> c.heap[r].live)
  }

  lemma ProceedKeepsGraph(c: Ctx, root: seq<Edge>, stop: Stop, slept: bool, outcome: Outcome)
    requires CtxOk(c, root)
    ensures GraphKept(c, Proceed(c, root, stop, slept, outcome).cx, {})
  {
    NeverStuck(c, root);
    if c.phase == Mark && !MarkDone(c) {
      MarkOneKeepsGraph(c, root, outcome);
    } else if c.phase == Sweep && c.back != [] {
      SweepOneKeepsGraph(c, DropPanics(c, outcome));
    }
  }

  lemma TickKeepsGraph(c: Ctx, root: seq<Edge>, stop: Stop, slept: bool, u: Conduct)
    requires CtxOk(c, root)
    ensures GraphKept(c, Tick(c, root, stop, slept, u).cx, TickLosers(c, root, stop, slept, u))
  {
    var t := Proceed(c, root, stop, slept, u.outcome);
    ProceedKeepsGraph(c, root, stop, slept, u.outcome);
    if !t.Leave? {
      var d := Tuned(t.cx, ReportsIn(c, u));
      VacateAllLoses(d, DropsIn(c, u));
      LostKeepsGraph(d, VacateAll(d, DropsIn(c, u)), Losers(d, DropsIn(c, u)));
      KeptTwice(c, d, VacateAll(d, DropsIn(c, u)), {}, Losers(d, DropsIn(c, u)));
    }
  }

  lemma LostKeepsGraph(c: Ctx, d: Ctx, lost: set<Ref>)
    requires OnlyLost(c, d, lost)
    ensures GraphKept(c, d, lost)
  {
  }

  lemma SweepOneKeepsGraph(c: Ctx, panics: bool)
    requires SweepReady(c)
    ensures GraphKept(c, SweepOne(c, panics), {})
  {
  }

  lemma SameShapeKeepsGraph(c: Ctx, d: Ctx)
    requires SameShape(c, d)
    ensures GraphKept(c, d, {})
  {
  }

  lemma RecolorKeepsGraph(c: Ctx, d: Ctx, r: Ref)
    requires r in c.heap && r in d.heap && d.heap == c.heap[r := c.heap[r].(color := d.heap[r].color)]
    ensures GraphKept(c, d, {})
  {
  }

  lemma MarkOneKeepsGraph(c: Ctx, root: seq<Edge>, outcome: Outcome)
    requires !MarkDone(c) && MarkReady(c, root)
    ensures GraphKept(c, MarkOne(c, root, outcome), {})
  {
    match NextGray(c) {
      case Some(r) =>
        var begun := StartTrace(c);
        var traced := TraceEdges(begun, Reported(c.heap[r].edges, outcome));
        TraceEdgesShape(begun, Reported(c.heap[r].edges, outcome));
        RecolorKeepsGraph(c, begun, r);
        SameShapeKeepsGraph(begun, traced);
        KeptTwice(c, begun, traced, {}, {});
        RecolorKeepsGraph(traced, MakeGrayAgain(traced, r), r);
        KeptTwice(c, traced, MakeGrayAgain(traced, r), {}, {});
      case None =>
        TraceEdgesShape(c, Reported(root, outcome));
        SameShapeKeepsGraph(c, TraceEdges(c, Reported(root, outcome)));
    }
  }

  lemma {:induction false} LoopKeepsGraph(c: Ctx, root: seq<Edge>, runUntil: RunUntil, stop: Stop, slept: bool,
                                          us: seq<Conduct>)
    requires CtxOk(c, root)
    ensures GraphKept(c, Loop(c, root, runUntil, stop, slept, us).cx, LoopLosers(c, root, runUntil, stop, slept, us))
    decreases !slept, PhasesLeft(c, slept), WorkLeft(c)
  {
    var t := Tick(c, root, stop, slept, Now(us));
    LoopTurn(c, root, runUntil, stop, slept, us);
    TickKeepsGraph(c, root, stop, slept, Now(us));
    if t.Stay? && !Paid(runUntil, t.cx) {
      LoopKeepsGraph(t.cx, root, runUntil, stop, t.slept, Later(us));
      KeptTwice(c, t.cx, Loop(t.cx, root, runUntil, stop, t.slept, Later(us)).cx,
                TickLosers(c, root, stop, slept, Now(us)), LoopLosers(t.cx, root, runUntil, stop, t.slept, Later(us)));
    }
  }

  lemma CallKeepsGraph(c: Ctx, root: seq<Edge>, runUntil: RunUntil, stop: Stop, us: seq<Conduct>)
    requires CtxOk(c, root)
    ensures GraphKept(c, DoCollection(c, root, runUntil, stop, us).cx, CallLosers(c, root, runUntil, stop, us))
  {
    if !Paid(runUntil, c) {
      LoopKeepsGraph(c, root, runUntil, stop, false, us);
    }
  }

  lemma KeptTwice(c: Ctx, d: Ctx, e: Ctx, lost: set<Ref>, more: set<Ref>)
    requires GraphKept(c, d, lost) && GraphKept(d, e, more)
    ensures GraphKept(c, e, lost + more)
  {
    forall r | r in e.heap
      ensures Fewer(c.heap[r].edges, e.heap[r].edges)
      ensures r in lost + more <==> e.heap[r].edges != c.heap[r].edges
      ensures e.heap[r].size == c.heap[r].size && e.heap[r].needsTrace == c.heap[r].needsTrace
      ensures e.heap[r].live ==> c.heap[r].live
    {
      assert r in d.heap && Fewer(c.heap[r].edges, d.heap[r].edges);
    }
  }

  // --------------------------------------------------------------- what the program can reach

  /** The call leaves everything alone that is strongly reachable from the root: it is reachable
      afterwards just when it was before, live, and holds the same pointers. */
  ghost predicate Transparent(c: Ctx, d: Ctx, root: seq<Edge>) {
    forall r {:trigger Reachable(d.heap, EdgeSet(root), r)} ::
      && (Reachable(c.heap, EdgeSet(root), r) <==> Reachable(d.heap, EdgeSet(root), r))
      && (Reachable(d.heap, EdgeSet(root), r) ==>
            r in c.heap && r in d.heap && d.heap[r].live && d.heap[r].edges == c.heap[r].edges)
  }

  /** A strong path out of the root that avoids the losers goes through solid boxes after the call, by
      the same pointers. */
  lemma {:induction false} PathIsKept(c: Ctx, d: Ctx, lost: set<Ref>, root: seq<Edge>, p: seq<Ref>, i: nat)
    requires GraphKept(c, d, lost) && CtxOk(d, root)
    requires IsPath(c.heap, EdgeSet(root), p) && i < |p| && forall k | 0 <= k < i :: p[k] !in lost
    ensures Solid(d, p[i])
  {
    if i == 0 {
      assert EdgeOk(d, Strong(p[0]));
    } else {
      PathIsKept(c, d, lost, root, p, i - 1);
      assert Strong(p[i]) in d.heap[p[i - 1]].edges;
      assert EdgeOk(d, Strong(p[i]));
    }
  }

  lemma KeptPath(c: Ctx, d: Ctx, lost: set<Ref>, root: seq<Edge>, p: seq<Ref>)
    requires GraphKept(c, d, lost) && CtxOk(d, root) && IsPath(c.heap, EdgeSet(root), p)
    requires forall k | 0 <= k < |p| :: p[k] !in lost
    ensures IsPath(d.heap, EdgeSet(root), p)
  {
    forall i | 0 <= i < |p| - 1
      ensures p[i] in d.heap && Strong(p[i + 1]) in d.heap[p[i]].edges
    {
      PathIsKept(c, d, lost, root, p, i);
    }
  }

  lemma OldPath(c: Ctx, d: Ctx, lost: set<Ref>, from: set<Edge>, p: seq<Ref>)
    requires GraphKept(c, d, lost) && IsPath(d.heap, from, p)
    ensures IsPath(c.heap, from, p)
  {
    forall i | 0 <= i < |p| - 1
      ensures p[i] in c.heap && Strong(p[i + 1]) in c.heap[p[i]].edges
    {
      assert Fewer(c.heap[p[i]].edges, d.heap[p[i]].edges);
    }
  }

  lemma ReachableIsSolid(d: Ctx, root: seq<Edge>, r: Ref)
    requires CtxOk(d, root) && Reachable(d.heap, EdgeSet(root), r)
    ensures Solid(d, r)
  {
    var p :| IsPath(d.heap, EdgeSet(root), p) && p[|p| - 1] == r;
    BareOk(d, root);
    PathIsSolid(Bare(d, root), p, |p| - 1);
  }

  lemma BareOk(c: Ctx, root: seq<Edge>)
    requires CtxOk(c, root)
    ensures WorldOk(Bare(c, root))
  {
  }

  /** However far a call of the collector goes, and even if it unwinds from a panic: what is strongly
      reachable from the root afterwards was so before, its value has not been dropped, and it holds the
      same pointers, but for those that dropped handles have taken away. */
  lemma CollectionAddsNothing(c: Ctx, root: seq<Edge>, runUntil: RunUntil, stop: Stop, us: seq<Conduct>, r: Ref)
    requires CtxOk(c, root)
    requires Reachable(DoCollection(c, root, runUntil, stop, us).cx.heap, EdgeSet(root), r)
    ensures var d := DoCollection(c, root, runUntil, stop, us).cx;
            && Reachable(c.heap, EdgeSet(root), r)
            && r in c.heap && r in d.heap && d.heap[r].live
            && Fewer(c.heap[r].edges, d.heap[r].edges)
            && (r in CallLosers(c, root, runUntil, stop, us) <==> d.heap[r].edges != c.heap[r].edges)
  {
    var d := DoCollection(c, root, runUntil, stop, us).cx;
    var lost := CallLosers(c, root, runUntil, stop, us);
    CallKeepsGraph(c, root, runUntil, stop, us);
    var p :| IsPath(d.heap, EdgeSet(root), p) && p[|p| - 1] == r;
    OldPath(c, d, lost, EdgeSet(root), p);
    ReachableIsSolid(d, root, r);
    assert Fewer(c.heap[r].edges, d.heap[r].edges);
  }

  /** What can be reached without passing a loser can still be reached. */
  lemma NotLostStays(c: Ctx, root: seq<Edge>, runUntil: RunUntil, stop: Stop, us: seq<Conduct>, r: Ref)
    requires CtxOk(c, root) && Reachable(c.heap, EdgeSet(root), r)
    requires forall q | Reachable(c.heap, EdgeSet(root), q) :: q !in CallLosers(c, root, runUntil, stop, us)
    ensures Reachable(DoCollection(c, root, runUntil, stop, us).cx.heap, EdgeSet(root), r)
  {
    var lost := CallLosers(c, root, runUntil, stop, us);
    CallKeepsGraph(c, root, runUntil, stop, us);
    var p :| IsPath(c.heap, EdgeSet(root), p) && p[|p| - 1] == r;
    forall k | 0 <= k < |p|
      ensures p[k] !in lost
    {
      assert IsPath(c.heap, EdgeSet(root), p[..k + 1]) && p[..k + 1][k] == p[k];
      assert Reachable(c.heap, EdgeSet(root), p[k]);
    }
    KeptPath(c, DoCollection(c, root, runUntil, stop, us).cx, lost, root, p);
  }

  /** However far a call of the collector goes, and even if it unwinds from a panic, it is transparent to
      the program, if and only if in it no destructor drops the last handle to a slot of a dynamic root
      set that was strongly reachable from the root when it began. */
  lemma TransparentUnlessVacated(c: Ctx, root: seq<Edge>, runUntil: RunUntil, stop: Stop, us: seq<Conduct>)
    requires CtxOk(c, root)
    ensures Transparent(c, DoCollection(c, root, runUntil, stop, us).cx, root)
       <==> forall r | Reachable(c.heap, EdgeSet(root), r) :: r !in CallLosers(c, root, runUntil, stop, us)
  {
    var d := DoCollection(c, root, runUntil, stop, us).cx;
    var lost := CallLosers(c, root, runUntil, stop, us);
    forall r | Reachable(d.heap, EdgeSet(root), r)
      ensures Reachable(c.heap, EdgeSet(root), r) && r in c.heap && r in d.heap && d.heap[r].live
      ensures r in lost <==> d.heap[r].edges != c.heap[r].edges
    {
      CollectionAddsNothing(c, root, runUntil, stop, us, r);
    }
    if forall r | Reachable(c.heap, EdgeSet(root), r) :: r !in lost {
      forall r | Reachable(c.heap, EdgeSet(root), r)
        ensures Reachable(d.heap, EdgeSet(root), r)
      {
        NotLostStays(c, root, runUntil, stop, us, r);
      }
    }
  }

  // ------------------------------------------------------------- calls within a run

  /** Collection steps that follow on the last world of a run make it a longer run. What the
      barriers had allowed plays no part in them. */
  lemma {:induction false} Append(ws: seq<World>, evs: seq<Event>, vs: seq<World>, fs: seq<Event>)
      returns (us: seq<World>)
    requires IsRun(ws, evs) && Quiet(ws[|evs|])
    requires IsRun(vs, fs) && vs[0] == Bare(ws[|evs|].cx, ws[|evs|].root)
    requires OnlyCollects(fs)
    ensures IsRun(us, evs + fs) && ws <= us
    ensures var w := us[|evs + fs|]; w == vs[|fs|].(permits := w.permits)
    ensures SameContexts(us, |evs|, vs)
    decreases |fs|
  {
    if fs == [] {
      us := ws;
      assert evs + fs == evs;
    } else {
      var k := |fs| - 1;
      var ev := fs[k];
      assert fs[..k] + [ev] == fs;
      us := Append(ws, evs, vs[..|fs|], fs[..k]);
      var w := us[|evs + fs[..k]|];
      assert Allowed(vs[k], ev) && Ready(vs[k], ev) && vs[k + 1] == After(vs[k], ev);
      SameButForPermits(vs[k], w, ev);
      RunSnoc(us, evs + fs[..k], ev);
      assert evs + fs[..k] + [ev] == evs + fs;
      AppendContext(us, |evs|, vs, After(w, ev));
      us := us + [After(w, ev)];
    }
  }

  /** From world `n` on the collector is in the states of `vs`. */
  predicate SameContexts(us: seq<World>, n: nat, vs: seq<World>) {
    |us| == n + |vs| && forall k {:trigger vs[k]} | 0 <= k < |vs| :: us[n + k].cx == vs[k].cx
  }

  lemma AppendContext(us: seq<World>, n: nat, vs: seq<World>, w: World)
    requires |vs| > 0 && SameContexts(us, n, vs[..|vs| - 1]) && w.cx == vs[|vs| - 1].cx
    ensures SameContexts(us + [w], n, vs)
  {
    forall k | 0 <= k < |vs|
      ensures (us + [w])[n + k].cx == vs[k].cx
    {
      assert k < |vs| - 1 ==> vs[..|vs| - 1][k] == vs[k];
    }
  }

  lemma OwingInContexts(us: seq<World>, n: nat, vs: seq<World>, fs: seq<Event>)
    requires |vs| == |fs| + 1 && SameContexts(us, n, vs) && Owing(vs, fs)
    ensures Owing(us[n..], fs)
  {
    forall k | 0 <= k < |fs| && IsCollection(fs[k])
      ensures Metering.AllocationDebt(us[n..][k].cx.meter) > 0.0
    {
      assert us[n..][k] == us[n + k] && us[n + k].cx == vs[k].cx;
    }
  }

  lemma SameButForPermits(v: World, w: World, ev: Event)
    requires w == v.(permits := w.permits) && InCollection(ev) && Allowed(v, ev) && Ready(v, ev)
    ensures Allowed(w, ev) && Ready(w, ev) && After(w, ev) == After(v, ev).(permits := After(w, ev).permits)
  {
  }

  /** A call of the collector between two callbacks of a run continues the run, by steps of the collector
      and what the program's code does in them. It wakes the collector at most once, and if it returns no
      destructor has panicked in it. So the theorems about runs can be used after the call. */
  lemma CollectionExtendsRun(ws: seq<World>, evs: seq<Event>, runUntil: RunUntil, stop: Stop, us: seq<Conduct>)
      returns (vs: seq<World>, gs: seq<Event>)
    requires IsRun(ws, evs) && ws[0] == INITIAL && Quiet(ws[|evs|])
    ensures CtxOk(ws[|evs|].cx, ws[|evs|].root)
    ensures IsRun(vs, gs) && ws <= vs && evs <= gs
    ensures vs[|gs|].root == ws[|evs|].root && Quiet(vs[|gs|])
    ensures OnlyCollects(gs[|evs|..]) && Wakes(gs[|evs|..]) <= 1
    ensures stop == Stop.FinishCycle && ws[|evs|].cx.phase != Sleep ==> Wakes(gs[|evs|..]) == 0
    ensures var e := DoCollection(ws[|evs|].cx, ws[|evs|].root, runUntil, stop, us);
            vs[|gs|].cx == e.cx && (e.Returned? ==> CalmDrops(gs[|evs|..]))
    ensures runUntil == PayDebt ==> Owing(vs[|evs|..], gs[|evs|..])
    ensures Resets(gs[|evs|..], false)
  {
    InitialOk();
    RunKeeps(ws, evs, |evs|);
    var xs, fs := CollectionIsRun(ws[|evs|].cx, ws[|evs|].root, runUntil, stop, us);
    vs := Append(ws, evs, xs, fs);
    gs := evs + fs;
    assert gs[|evs|..] == fs;
    if runUntil == PayDebt {
      OwingInContexts(vs, |evs|, xs, fs);
    }
  }
}
