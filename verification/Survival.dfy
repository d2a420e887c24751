/** Which boxes a cycle spares and which it drops: upgrades, allocation during a sweep,
    resurrection and finalization. */
module Survival {
  import opened Types
  import opened Collector
  import opened Invariant
  import opened Marking
  import opened Sweeping
  import opened Runs
  import opened Safety

  /** No new cycle begins between worlds `i` and `j`. */
  predicate WithinCycle(evs: seq<Event>, i: nat, j: nat)
    requires j <= |evs|
  {
    forall k {:trigger evs[k]} | i <= k < j :: !evs[k].WakeUp?
  }

  /** What may yet save a dead box while the arena is marked: a resurrection, a barrier, or opening
      the root. Any other event of a callback, its end included, leaves the box as dead as it is. */
  predicate MayRescue(ev: Event) {
    ev.Resurrection? || ev.CallBarrier? || ev.OpenRoot?
  }

  /** Between worlds `i` and `j` nothing that may rescue a box happens during marking. */
  predicate NoRescue(ws: seq<World>, evs: seq<Event>, i: nat, j: nat)
    requires j <= |evs| < |ws|
  {
    forall k {:trigger evs[k]} | i <= k < j :: ws[k].cx.phase == Mark ==> !MayRescue(evs[k])
  }

  /** This cycle, from here on, will not drop the value of `r`. */
  predicate Spared(c: Ctx, r: Ref) {
    && r in c.heap
    && c.heap[r].live
    && match c.phase
       case Mark => !IsWhite(c.heap[r].color)
       case Sweep => !Doomed(c, r)
       case _ => true
  }

  lemma MarkOneSpares(c: Ctx, root: seq<Edge>, outcome: Outcome, r: Ref)
    requires !MarkDone(c) && MarkReady(c, root) && r in c.heap && !IsWhite(c.heap[r].color)
    ensures var d := MarkOne(c, root, outcome);
            r in d.heap && !IsWhite(d.heap[r].color) && d.heap[r].live == c.heap[r].live
  {
    match NextGray(c) {
      case Some(g) => TraceEdgesSpare(StartTrace(c), Reported(c.heap[g].edges, outcome));
      case None => TraceEdgesSpare(c, Reported(root, outcome));
    }
  }

  lemma BarrierSpares(c: Ctx, b: Barrier, r: Ref)
    requires BarrierReady(c, b) && Spared(c, r)
    ensures Spared(RunBarrier(c, b), r)
  {
  }

  lemma SweepOneSpares(c: Ctx, panics: bool, r: Ref)
    requires c.phase == Sweep && Listed(c) && Colored(c) && SweepReady(c) && Spared(c, r)
    ensures Spared(SweepOne(c, panics), r)
  {
    SweepOneLists(c, panics);
    assert c.back == [c.back[0]] + c.back[1..];
    assert ColorFits(c, r);
  }

  /** Nothing but the start of another cycle can undo being spared. */
  lemma StepSpares(w: World, ev: Event, r: Ref)
    requires WorldOk(w) && Allowed(w, ev) && Ready(w, ev)
    requires Spared(w.cx, r) && !ev.WakeUp?
    ensures Spared(After(w, ev).cx, r)
  {
    match ev {
      case Alloc(q, _, _, _) =>
        AllocateLists(w.cx, q, ev.needsTrace, ev.size, ev.edges);
      case CallBarrier(b) => BarrierSpares(w.cx, b, r);
      case MarkStep(outcome) => MarkOneSpares(w.cx, w.root, outcome, r);
      case BeginSweep => NoGray(w.cx, r);
      case SweepStep(panics) => SweepOneSpares(w.cx, panics, r);
      case _ =>
    }
  }

  lemma {:induction false} RunSpares(ws: seq<World>, evs: seq<Event>, i: nat, j: nat, r: Ref)
    requires IsRun(ws, evs) && ws[0] == INITIAL && i <= j < |ws|
    requires WithinCycle(evs, i, j)
    requires Spared(ws[i].cx, r)
    ensures Spared(ws[j].cx, r)
  {
    if i == j {
    } else {
      RunSpares(ws, evs, i, j - 1, r);
      InitialOk();
      RunKeeps(ws, evs, j - 1);
      StepSpares(ws[j - 1], evs[j - 1], r);
    }
  }

  /** Strong pointers lead from spared boxes to spared boxes, outside unfinished marking. */
  lemma {:induction false} SparedIsClosed(w: World, from: set<Edge>, p: seq<Ref>, i: nat)
    requires WorldOk(w) && (w.cx.phase == Mark ==> MarkDone(w.cx))
    requires IsPath(w.cx.heap, from, p) && i < |p|
    requires forall e | e in from && e.Strong? :: Spared(w.cx, e.to)
    ensures Spared(w.cx, p[i])
  {
    if i == 0 {
    } else {
      SparedIsClosed(w, from, p, i - 1);
      var q := p[i - 1];
      var e := Strong(p[i]);
      assert e in w.cx.heap[q].edges;
      assert Solid(w.cx, q) && EdgeOk(w.cx, e);
      if w.cx.phase == Mark {
        NoGray(w.cx, q);
        assert MarkedEdges(w.cx, w.cx.heap[q].edges) && MarkedEdge(w.cx, e);
      }
    }
  }

  // ------------------------------------------------------------------ weak pointers

  /** In a sweep, the colour test of `upgrade` accepts exactly the pointers to values that the rest
      of the sweep keeps. */
  lemma UpgradeTellsFreshFromCondemned(ws: seq<World>, evs: seq<Event>, i: nat, r: Ref)
    requires IsRun(ws, evs) && ws[0] == INITIAL && i < |ws|
    requires ws[i].cx.phase == Sweep && Weak(r) in Sources(ws[i])
    ensures r in ws[i].cx.heap
    ensures Upgradable(ws[i].cx, r) <==> Spared(ws[i].cx, r)
  {
    InitialOk();
    RunKeeps(ws, evs, i);
    assert EdgeOk(ws[i].cx, Weak(r));
    assert ColorFits(ws[i].cx, r);
  }

  /** What an upgrade in a sweep returns, and every box strongly reachable from there, is neither
      dropped nor deallocated before the next cycle begins. */
  lemma UpgradedSurvivesSweep(ws: seq<World>, evs: seq<Event>, i: nat, j: nat, r: Ref, q: Ref)
    requires IsRun(ws, evs) && ws[0] == INITIAL && i <= j < |ws|
    requires WithinCycle(evs, i, j)
    requires ws[i].cx.phase == Sweep && Weak(r) in Sources(ws[i])
    requires r in ws[i].cx.heap && Upgradable(ws[i].cx, r)
    requires Reachable(ws[i].cx.heap, {Strong(r)}, q)
    ensures q in ws[j].cx.heap && ws[j].cx.heap[q].live
  {
    InitialOk();
    RunKeeps(ws, evs, i);
    UpgradeTellsFreshFromCondemned(ws, evs, i, r);
    var p :| IsPath(ws[i].cx.heap, {Strong(r)}, p) && p[|p| - 1] == q;
    SparedIsClosed(ws[i], {Strong(r)}, p, |p| - 1);
    RunSpares(ws, evs, i, j, q);
  }

  /** A box allocated during a sweep outlives it. */
  lemma AllocatedInSweepSurvives(ws: seq<World>, evs: seq<Event>, i: nat, j: nat)
    requires IsRun(ws, evs) && ws[0] == INITIAL && i < j < |ws|
    requires evs[i].Alloc? && ws[i].cx.phase == Sweep
    requires WithinCycle(evs, i, j)
    ensures evs[i].ref in ws[j].cx.heap && ws[j].cx.heap[evs[i].ref].live
  {
    InitialOk();
    RunKeeps(ws, evs, i);
    AllocateLists(ws[i].cx, evs[i].ref, evs[i].needsTrace, evs[i].size, evs[i].edges);
    RunSpares(ws, evs, i + 1, j, evs[i].ref);
  }

  // ------------------------------------------------------------------- finalization

  /** In a fully marked arena a dead box is not strongly reachable from the root. */
  lemma DeadIsUnreachable(ws: seq<World>, evs: seq<Event>, i: nat, r: Ref)
    requires IsRun(ws, evs) && ws[0] == INITIAL && i < |ws|
    requires ws[i].cx.phase == Mark && MarkDone(ws[i].cx)
    requires r in ws[i].cx.heap && IsWhite(ws[i].cx.heap[r].color)
    ensures !Reachable(ws[i].cx.heap, EdgeSet(ws[i].root), r)
  {
    var w := ws[i];
    InitialOk();
    RunKeeps(ws, evs, i);
    if Reachable(w.cx.heap, EdgeSet(w.root), r) {
      var p :| IsPath(w.cx.heap, EdgeSet(w.root), p) && p[|p| - 1] == r;
      forall e | e in EdgeSet(w.root) && e.Strong?
        ensures Spared(w.cx, e.to)
      {
        assert MarkedEdge(w.cx, e) && EdgeOk(w.cx, e);
      }
      SparedIsClosed(w, EdgeSet(w.root), p, |p| - 1);
    }
  }

  /** The value of `r` is dropped already, or it is sure to be dropped by the end of the cycle. */
  predicate Condemned(c: Ctx, r: Ref) {
    && r in c.past.born
    && (r in c.heap && c.heap[r].live ==>
          Doomed(c, r) || (c.phase == Mark && MarkDone(c) && IsWhite(c.heap[r].color)))
  }

  lemma StepCondemns(w: World, ev: Event, r: Ref)
    requires WorldOk(w) && Allowed(w, ev) && Ready(w, ev)
    requires Condemned(w.cx, r) && !ev.WakeUp?
    requires w.cx.phase == Mark ==> !MayRescue(ev)
    ensures Condemned(After(w, ev).cx, r)
  {
    if ev.BeginSweep? {
      OccursList(w.cx, r);
    } else if ev.SweepStep? {
      SweepOneCondemns(w.cx, ev.panics, r);
    } else if ev.MarkStep? {
      MarkOneCondemns(w.cx, w.root, ev.outcome, r);
    }
  }

  lemma SweepOneCondemns(c: Ctx, panics: bool, r: Ref)
    requires c.phase == Sweep && SweepReady(c) && Condemned(c, r)
    ensures Condemned(SweepOne(c, panics), r)
  {
    assert c.back == [c.back[0]] + c.back[1..];
  }

  lemma MarkOneCondemns(c: Ctx, root: seq<Edge>, outcome: Outcome, r: Ref)
    requires c.phase == Mark && CtxOk(c, root) && !MarkDone(c) && MarkReady(c, root)
    requires Condemned(c, r)
    ensures Condemned(MarkOne(c, root, outcome), r)
  {
    match NextGray(c) {
      case Some(g) => MarkBoxKeeps(c, g, outcome);
      case None =>
        OkPrefix(c, Reported(root, outcome), root);
        TraceEdgesKeep(c, Reported(root, outcome), {});
    }
  }

  lemma {:induction false} RunCondemns(ws: seq<World>, evs: seq<Event>, i: nat, j: nat, r: Ref)
    requires IsRun(ws, evs) && ws[0] == INITIAL && i <= j < |ws|
    requires WithinCycle(evs, i, j) && NoRescue(ws, evs, i, j)
    requires Condemned(ws[i].cx, r)
    ensures Condemned(ws[j].cx, r)
  {
    if i == j {
    } else {
      RunCondemns(ws, evs, i, j - 1, r);
      InitialOk();
      RunKeeps(ws, evs, j - 1);
      StepCondemns(ws[j - 1], evs[j - 1], r);
    }
  }

  /** A box that is dead when marking completes is dropped by the end of the cycle, if before the
      sweep begins no box is resurrected, no barrier is called and the root is not opened. A callback
      may find out that the box is dead while it holds a pointer to it, read, allocate, upgrade other
      pointers, and end. */
  lemma DeadIsDropped(ws: seq<World>, evs: seq<Event>, i: nat, j: nat, r: Ref)
    requires IsRun(ws, evs) && ws[0] == INITIAL && i <= j < |ws|
    requires ws[i].cx.phase == Mark && MarkDone(ws[i].cx)
    requires r in ws[i].cx.heap && IsWhite(ws[i].cx.heap[r].color)
    requires WithinCycle(evs, i, j) && NoRescue(ws, evs, i, j)
    requires ws[j].cx.phase == Sleep
    ensures r !in ws[j].cx.heap || !ws[j].cx.heap[r].live
  {
    InitialOk();
    RunKeeps(ws, evs, i);
    RunCondemns(ws, evs, i, j, r);
  }

  /** Without another wake there is no more marking once a sweep has begun. */
  lemma StepStaysOutOfMark(w: World, ev: Event)
    requires Allowed(w, ev) && Ready(w, ev) && w.cx.phase != Mark && !ev.WakeUp?
    ensures After(w, ev).cx.phase != Mark
  {
  }

  lemma {:induction false} StaysOutOfMark(ws: seq<World>, evs: seq<Event>, i: nat, j: nat)
    requires IsRun(ws, evs) && i <= j < |ws| && WithinCycle(evs, i, j) && ws[i].cx.phase != Mark
    ensures ws[j].cx.phase != Mark
  {
    if i == j {
    } else {
      StaysOutOfMark(ws, evs, i, j - 1);
      StepStaysOutOfMark(ws[j - 1], evs[j - 1]);
    }
  }

  /** In a sweep the mutator can do nothing for a condemned box. */
  lemma CondemnedIsDropped(ws: seq<World>, evs: seq<Event>, i: nat, j: nat, r: Ref)
    requires IsRun(ws, evs) && ws[0] == INITIAL && i <= j < |ws|
    requires ws[i].cx.phase == Sweep && Condemned(ws[i].cx, r)
    requires WithinCycle(evs, i, j) && ws[j].cx.phase == Sleep
    ensures r !in ws[j].cx.heap || !ws[j].cx.heap[r].live
  {
    forall k | i <= k < j
      ensures ws[k].cx.phase != Mark
    {
      StaysOutOfMark(ws, evs, i, k);
    }
    RunCondemns(ws, evs, i, j, r);
  }

  /** A cycle drops just the boxes that are white when its sweep begins. What happened before, and
      what the mutator does from then on, makes no difference. */
  lemma SweepDropsTheWhite(ws: seq<World>, evs: seq<Event>, s: nat, j: nat, r: Ref)
    requires IsRun(ws, evs) && ws[0] == INITIAL && s < j < |ws|
    requires evs[s].BeginSweep? && WithinCycle(evs, s, j) && ws[j].cx.phase == Sleep
    requires r in ws[s].cx.heap && ws[s].cx.heap[r].live
    ensures r in ws[j].cx.heap && ws[j].cx.heap[r].live <==> !IsWhite(ws[s].cx.heap[r].color)
  {
    InitialOk();
    RunKeeps(ws, evs, s);
    if IsWhite(ws[s].cx.heap[r].color) {
      StepCondemns(ws[s], evs[s], r);
      CondemnedIsDropped(ws, evs, s + 1, j, r);
    } else {
      RunSpares(ws, evs, s, j, r);
    }
  }

  /** If a weak pointer to a live value is refused an upgrade in a sweep, the value is dropped by the
      end of that sweep. */
  lemma RefusedIsDropped(ws: seq<World>, evs: seq<Event>, i: nat, j: nat, r: Ref)
    requires IsRun(ws, evs) && ws[0] == INITIAL && i <= j < |ws|
    requires WithinCycle(evs, i, j) && ws[j].cx.phase == Sleep
    requires ws[i].cx.phase == Sweep && Weak(r) in Sources(ws[i])
    requires r in ws[i].cx.heap && !Upgradable(ws[i].cx, r)
    ensures r !in ws[j].cx.heap || !ws[j].cx.heap[r].live
  {
    InitialOk();
    RunKeeps(ws, evs, i);
    UpgradeTellsFreshFromCondemned(ws, evs, i, r);
    CondemnedIsDropped(ws, evs, i, j, r);
  }

  /** A resurrected box outlives the cycle even if it is stored nowhere, and so does every box
      strongly reachable from it when marking completes at step `m`. */
  lemma ResurrectedSurvives(ws: seq<World>, evs: seq<Event>, i: nat, m: nat, j: nat, q: Ref)
    requires IsRun(ws, evs) && ws[0] == INITIAL && i < m <= j < |ws|
    requires evs[i].Resurrection? && ws[i].cx.heap[evs[i].ref].live
    requires WithinCycle(evs, i, j)
    requires ws[m].cx.phase == Mark && MarkDone(ws[m].cx)
    requires Reachable(ws[m].cx.heap, {Strong(evs[i].ref)}, q)
    ensures Spared(ws[j].cx, evs[i].ref) && Spared(ws[j].cx, q)
  {
    var r := evs[i].ref;
    InitialOk();
    RunKeeps(ws, evs, m);
    RunSpares(ws, evs, i + 1, m, r);
    var p :| IsPath(ws[m].cx.heap, {Strong(r)}, p) && p[|p| - 1] == q;
    SparedIsClosed(ws[m], {Strong(r)}, p, |p| - 1);
    RunSpares(ws, evs, m, j, q);
    RunSpares(ws, evs, m, j, r);
  }
}
