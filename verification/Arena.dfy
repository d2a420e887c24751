/** The arena: a context and a root, and the methods through which a program uses them. `held`,
    `rootOpen` and `permits` follow what the running callback may do, so that every method is a step
    or a stretch of a run, and every theorem about runs speaks of these methods. */
module Arenas {
  import opened Types
  import opened Metering
  import opened Collector
  import opened Invariant
  import opened Contexts
  import opened Runs
  import Safety
  import Collection
  import Lifetimes
  import Program
  import opened Tracing

  datatype CollectionPhase = Sleeping | Marking | Marked | Sweeping

  /** What a call of the collector makes of the arena. */
  ghost function Collected(w: World, runUntil: RunUntil, stop: Stop, us: seq<Conduct>): (v: World)
    requires WorldOk(w)
    ensures Quiet(w) ==> WorldOk(v)
  {
    w.(cx := Collection.DoCollection(w.cx, w.root, runUntil, stop, us).cx, permits := NOTHING)
  }

  /** The call returns, and does not unwind from a panic of the program's own code. */
  ghost predicate CallReturns(w: World, runUntil: RunUntil, stop: Stop, us: seq<Conduct>)
    requires WorldOk(w)
  {
    Collection.DoCollection(w.cx, w.root, runUntil, stop, us).Returned?
  }

  predicate Alive(c: Ctx, r: Ref) {
    r in c.heap && c.heap[r].live
  }

  lemma ResurrectionOf(w: World, r: Ref)
    requires Allowed(w, Resurrection(r)) && Ready(w, Resurrection(r))
    ensures After(w, Resurrection(r))
         == if w.cx.heap[r].live then w.(cx := Collector.Resurrect(w.cx, r), held := w.held + {Strong(r)}) else w
  {
  }

  lemma WeakIsExact(w: World, r: Ref)
    requires WorldOk(w) && Weak(r) in w.held
    ensures r in w.cx.heap && (Upgradable(w.cx, r) <==> Solid(w.cx, r))
  {
    assert EdgeOk(w.cx, Weak(r));
    Program.UpgradesJustTheSolid(w, r);
  }

  /** A call without debt does nothing. */
  ghost predicate IdleWithoutDebt(w: World, v: World, ok: bool) {
    AllocationDebt(w.cx.meter) == 0.0 ==> ok && v == w.(permits := NOTHING)
  }

  lemma IsIdle(w: World, stop: Stop, us: seq<Conduct>)
    requires WorldOk(w)
    ensures IdleWithoutDebt(w, Collected(w, PayDebt, stop, us), CallReturns(w, PayDebt, stop, us))
  {
    if AllocationDebt(w.cx.meter) == 0.0 {
      Collection.NoDebtNoWork(w.cx, w.root, stop, us);
    }
  }

  lemma TakeIsAllowed(w: World, p: Ref, from: nat, to: nat)
    requires WorldOk(w) && Strong(p) in w.held
    ensures Alive(w.cx, p)
    ensures from <= to <= |w.cx.heap[p].edges| ==>
              Allowed(w, Shed(p, w.cx.heap[p].edges[..from] + w.cx.heap[p].edges[to..]))
  {
    assert EdgeOk(w.cx, Strong(p));
  }

  class Arena {
    const context: Context
    var root: seq<Edge>
    ghost var held: set<Edge>
    ghost var rootOpen: bool
    ghost var permits: Permits

    ghost function View(): World
      reads this, context, context.metrics, context.memory.Values
    {
      World(context.View(), root, held, rootOpen, permits)
    }

    ghost predicate Valid()
      reads this, context, context.metrics, context.memory.Values
    {
      context.Valid() && WorldOk(View())
    }

    /** `Arena::new`, at the point where its callback is entered. */
    constructor ()
      ensures Valid() && View() == INITIAL
      ensures fresh(context) && fresh(context.metrics)
    {
      context := new Context();
      root, held, rootOpen, permits := [], {}, true, NOTHING;
    }

    // ------------------------------------------------------------------- callbacks

    /** The callback comes by a strong pointer. */
    ghost method Hold(r: Ref)
      requires context.Valid()
      modifies this`held
      ensures context.Valid() && View() == old(View()).(held := old(held) + {Strong(r)})
    {
      held := held + {Strong(r)};
    }

    method Revive(r: Ref)
      requires context.Valid() && r in context.memory
      modifies context`gray, context.metrics, context.memory[r]
      ensures context.Valid() && View() == old(View()).(cx := Collector.Resurrect(old(View()).cx, r))
    {
      context.Resurrect(r);
    }

    method Guard(b: Barrier)
      requires context.Valid() && BarrierReady(View().cx, b)
      modifies context`gray, context`grayAgain, context.metrics, context.memory.Values
      ensures context.Valid() && View() == old(View()).(cx := RunBarrier(old(View()).cx, b))
    {
      context.CallBarrier(b);
    }

    ghost method Permit(b: Barrier)
      requires context.Valid()
      modifies this`permits
      ensures context.Valid() && View() == old(View()).(permits := Grant(old(permits), b))
    {
      permits := Grant(permits, b);
    }

    method Alloc(r: Ref, needsTrace: bool, size: nat, edges: seq<Edge>)
      requires Valid() && Allowed(View(), Event.Alloc(r, needsTrace, size, edges))
      modifies this`held, context, context.metrics
      ensures Valid() && View() == After(old(View()), Event.Alloc(r, needsTrace, size, edges))
    {
      ghost var v := Safety.GoesAhead(View(), Event.Alloc(r, needsTrace, size, edges));
      Safety.AllocateLists(View().cx, r, needsTrace, size, edges);
      context.Allocate(r, needsTrace, size, edges);
      held := held + {Strong(r)};
      assert View() == v;
    }

    method Upgrade(r: Ref) returns (gc: Option<Ref>)
      requires Valid() && Allowed(View(), Event.Upgrade(r))
      modifies this`held
      ensures Ready(old(View()), Event.Upgrade(r))
      ensures Valid() && View() == After(old(View()), Event.Upgrade(r))
      ensures gc == if Solid(old(View()).cx, r) then Some(r) else None
    {
      WeakIsExact(View(), r);
      ghost var v := Safety.GoesAhead(View(), Event.Upgrade(r));
      var ok := context.Upgrade(r);
      if !ok {
        return None;
      }
      Hold(r);
      return Some(r);
    }

    /** `GcWeak::resurrect`, and `Gc::resurrect` for a box that is live. */
    method Resurrect(r: Ref) returns (gc: Option<Ref>)
      requires Valid() && Allowed(View(), Resurrection(r))
      modifies this`held, context`gray, context.metrics, context.memory.Values
      ensures Ready(old(View()), Resurrection(r))
      ensures Valid() && View() == After(old(View()), Resurrection(r))
      ensures gc == if old(View()).cx.heap[r].live then Some(r) else None
    {
      ghost var v := Safety.GoesAhead(View(), Resurrection(r));
      ResurrectionOf(View(), r);
      var dropped := context.IsDropped(r);
      if dropped {
        return None;
      }
      Revive(r);
      Hold(r);
      return Some(r);
    }

    method CallBarrier(b: Barrier)
      requires Valid() && Allowed(View(), Event.CallBarrier(b))
      modifies this`permits, context`gray, context`grayAgain, context.metrics, context.memory.Values
      ensures Ready(old(View()), Event.CallBarrier(b))
      ensures Valid() && View() == After(old(View()), Event.CallBarrier(b))
    {
      ghost var v := Safety.GoesAhead(View(), Event.CallBarrier(b));
      Guard(b);
      Permit(b);
    }

    /** A write through `Write<'gc, T>`. */
    method Write(p: Ref, edges: seq<Edge>)
      requires Valid() && Allowed(View(), Event.Write(p, edges))
      modifies context.memory.Values
      ensures Ready(old(View()), Event.Write(p, edges))
      ensures Valid() && View() == After(old(View()), Event.Write(p, edges))
    {
      ghost var v := Safety.GoesAhead(View(), Event.Write(p, edges));
      context.StoreEdges(p, edges);
    }

    /** `Gc::new` of a value `v` of type `t`. A value of a type that needs no tracing holds no pointers,
        so there is nothing more to ask of the caller. */
    method New(r: Ref, size: nat, t: Ty, v: Val)
      requires Valid() && r !in View().cx.past.born && HasType(v, t) && forall e | e in Pointers(v) :: e in held
      modifies this`held, context, context.metrics
      ensures Valid() && Allowed(old(View()), Event.Alloc(r, NeedsTrace(t), size, Pointers(v)))
      ensures View() == After(old(View()), Event.Alloc(r, NeedsTrace(t), size, Pointers(v)))
    {
      if !NeedsTrace(t) {
        NoTraceNoPointers(v, t);
      }
      Alloc(r, NeedsTrace(t), size, Pointers(v));
    }

    /** A write of a whole value `v`, of the type `t` that the box was made for. */
    method Store(p: Ref, t: Ty, v: Val)
      requires Valid() && Strong(p) in held && HasType(v, t)
      requires p in View().cx.heap ==>
                 && View().cx.heap[p].needsTrace == NeedsTrace(t)
                 && forall e | e in Pointers(v) ::
                      e in View().cx.heap[p].edges || (e in held && Adoptable(permits, p, e))
      modifies context.memory.Values
      ensures Allowed(old(View()), Event.Write(p, Pointers(v))) && Ready(old(View()), Event.Write(p, Pointers(v)))
      ensures Valid() && View() == After(old(View()), Event.Write(p, Pointers(v)))
    {
      if !NeedsTrace(t) {
        NoTraceNoPointers(v, t);
      }
      Write(p, Pointers(v));
    }

    /** `Lock::take`: the pointers of one lock leave the box without a barrier. */
    method Take(p: Ref, from: nat, to: nat) returns (taken: seq<Edge>)
      requires Valid() && Strong(p) in held && p in context.memory && from <= to <= |context.memory[p].edges|
      modifies context.memory.Values
      ensures Alive(old(View()).cx, p)
      ensures var edges := old(View()).cx.heap[p].edges; var rest := edges[..from] + edges[to..];
              Valid() && Allowed(old(View()), Shed(p, rest)) && View() == After(old(View()), Shed(p, rest))
              && taken == edges[from..to]
    {
      ghost var edges := context.memory[p].edges;
      TakeIsAllowed(View(), p, from, to);
      ghost var v := Safety.GoesAhead(View(), Shed(p, edges[..from] + edges[to..]));
      taken := context.LockTake(p, from, to);
    }

    /** `Lock::take` on a lock in the root itself, which needs no barrier either. */
    method TakeFromRoot(from: nat, to: nat) returns (taken: seq<Edge>)
      requires Valid() && from <= to <= |root|
      modifies this`root
      ensures var rest := old(root)[..from] + old(root)[to..];
              Valid() && Allowed(old(View()), ShedRoot(rest)) && View() == After(old(View()), ShedRoot(rest))
              && taken == old(root)[from..to]
    {
      ghost var v := Safety.GoesAhead(View(), ShedRoot(root[..from] + root[to..]));
      taken := root[from..to];
      root := root[..from] + root[to..];
    }

    /** Any of the calls on `Metrics` that a program may make at any time. */
    method Tune(t: Tuning)
      requires Valid()
      modifies context.metrics
      ensures Valid() && View() == After(old(View()), Event.Tune(t))
    {
      ghost var v := Safety.GoesAhead(View(), Event.Tune(t));
      ApplyTuning(t);
    }

    method ApplyTuning(t: Tuning)
      requires context.Valid()
      modifies context.metrics
      ensures context.Valid()
      ensures View() == old(View()).(cx := old(View()).cx.(meter := Metering.Tune(old(View()).cx.meter, t)))
    {
      context.metrics.Apply(t);
    }

    /** The start of `mutate_root` and of `map_root`. */
    method OpenRoot()
      requires Valid()
      modifies this`rootOpen, context`rootNeedsTrace
      ensures Valid() && View() == After(old(View()), Event.OpenRoot)
    {
      ghost var v := Safety.GoesAhead(View(), Event.OpenRoot);
      context.RootBarrier();
      rootOpen := true;
    }

    method WriteRoot(edges: seq<Edge>)
      requires Valid() && Allowed(View(), Event.WriteRoot(edges))
      modifies this`root
      ensures Valid() && View() == After(old(View()), Event.WriteRoot(edges))
    {
      ghost var v := Safety.GoesAhead(View(), Event.WriteRoot(edges));
      root := edges;
    }

    /** The callback returns, and every pointer that it held is gone. */
    ghost method EndCallback()
      requires Valid()
      modifies this`held, this`rootOpen
      ensures Valid() && View() == After(old(View()), Event.EndCallback)
    {
      ghost var v := Safety.GoesAhead(View(), Event.EndCallback);
      held, rootOpen := {}, false;
    }

    // ------------------------------------------------------------------ collection

    /** Calls the collector. `us` tells what `trace` and the destructors do as they are called. */
    method Collect(runUntil: RunUntil, stop: Stop, us: seq<Conduct>) returns (ok: bool)
      requires Valid() && Quiet(View())
      modifies this`permits, context, context.metrics, context.memory.Values
      ensures Valid() && context.memory.Values <= old(context.memory.Values)
      ensures View() == Collected(old(View()), runUntil, stop, us)
      ensures ok <==> CallReturns(old(View()), runUntil, stop, us)
    {
      ok := context.DoCollection(root, runUntil, stop, us);
      permits := NOTHING;
    }

    method CollectDebt(us: seq<Conduct>) returns (ok: bool)
      requires Valid() && Quiet(View())
      modifies this`permits, context, context.metrics, context.memory.Values
      ensures Valid() && View() == Collected(old(View()), PayDebt, Full, us)
      ensures ok <==> CallReturns(old(View()), PayDebt, Full, us)
      ensures ok ==> AllocationDebt(View().cx.meter) == 0.0
      ensures IdleWithoutDebt(old(View()), View(), ok)
    {
      Collection.CollectDebtPaysAll(View().cx, root, us);
      IsIdle(View(), Full, us);
      ok := Collect(PayDebt, Full, us);
    }

    /** Whether the arena is fully marked, so that a `MarkedArena` can be given out. */
    method IsMarked() returns (marked: bool)
      ensures marked <==> View().cx.phase == Mark && MarkDone(View().cx)
    {
      var remaining := context.GrayRemaining();
      return context.phase == Mark && !remaining;
    }

    method MarkDebt(us: seq<Conduct>) returns (ok: bool, marked: bool)
      requires Valid() && Quiet(View())
      modifies this`permits, context, context.metrics, context.memory.Values
      ensures Valid() && View() == Collected(old(View()), PayDebt, FullyMarked, us)
      ensures ok <==> CallReturns(old(View()), PayDebt, FullyMarked, us)
      ensures marked <==> ok && View().cx.phase == Mark && MarkDone(View().cx)
      ensures ok ==> marked || AllocationDebt(View().cx.meter) == 0.0 || View().cx.phase == Sweep
      ensures IdleWithoutDebt(old(View()), View(), ok)
    {
      IsIdle(View(), FullyMarked, us);
      Collection.DebtOrStop(View().cx, root, FullyMarked, us);
      ok := Collect(PayDebt, FullyMarked, us);
      if ok {
        marked := IsMarked();
      } else {
        marked := false;
      }
    }

    method FinishMarking(us: seq<Conduct>) returns (ok: bool, marked: bool)
      requires Valid() && Quiet(View())
      modifies this`permits, context, context.metrics, context.memory.Values
      ensures Valid() && View() == Collected(old(View()), UntilStop, FullyMarked, us)
      ensures ok <==> CallReturns(old(View()), UntilStop, FullyMarked, us)
      ensures marked <==> ok && old(View()).cx.phase != Sweep
      ensures old(View()).cx.phase == Sweep ==> ok && View().cx == old(View()).cx
    {
      Collection.StopsAreHonoured(View().cx, root, us);
      Collection.StopsWithoutWork(View().cx, root, us);
      ok := Collect(UntilStop, FullyMarked, us);
      if ok {
        marked := IsMarked();
      } else {
        marked := false;
      }
    }

    method CycleDebt(us: seq<Conduct>) returns (ok: bool)
      requires Valid() && Quiet(View())
      modifies this`permits, context, context.metrics, context.memory.Values
      ensures Valid() && View() == Collected(old(View()), PayDebt, Stop.FinishCycle, us)
      ensures ok <==> CallReturns(old(View()), PayDebt, Stop.FinishCycle, us)
      ensures ok ==> AllocationDebt(View().cx.meter) == 0.0 || View().cx.phase == Sleep
      ensures IdleWithoutDebt(old(View()), View(), ok)
    {
      IsIdle(View(), Stop.FinishCycle, us);
      Collection.DebtOrStop(View().cx, root, Stop.FinishCycle, us);
      ok := Collect(PayDebt, Stop.FinishCycle, us);
    }

    method FinishCycle(us: seq<Conduct>) returns (ok: bool)
      requires Valid() && Quiet(View())
      modifies this`permits, context, context.metrics, context.memory.Values
      ensures Valid() && View() == Collected(old(View()), UntilStop, Stop.FinishCycle, us)
      ensures ok <==> CallReturns(old(View()), UntilStop, Stop.FinishCycle, us)
      ensures ok ==> View().cx.phase == Sleep
    {
      Collection.StopsAreHonoured(View().cx, root, us);
      ok := Collect(UntilStop, Stop.FinishCycle, us);
    }

    /** `MarkedArena::start_sweeping`. The assertion is the one in the source. No code of the program
        is called. */
    method StartSweeping()
      requires Valid() && Quiet(View()) && View().cx.phase == Mark && MarkDone(View().cx)
      modifies this`permits, context, context.metrics, context.memory.Values
      ensures Valid() && View() == old(View()).(cx := StartSweep(old(View()).cx), permits := NOTHING)
    {
      Collection.StopsWithoutWork(View().cx, root, []);
      var _ := Collect(UntilStop, AtSweep, []);
      assert context.phase == Sweep;
    }

    method CurrentPhase() returns (phase: CollectionPhase)
      requires Valid()
      ensures phase == Marked <==> View().cx.phase == Mark && MarkDone(View().cx)
      ensures phase == Marking <==> View().cx.phase == Mark && !MarkDone(View().cx)
      ensures phase == Sweeping <==> View().cx.phase == Sweep
      ensures phase == Sleeping <==> View().cx.phase == Sleep
    {
      match context.phase {
        case Mark =>
          var remaining := context.GrayRemaining();
          phase := if remaining then Marking else Marked;
        case Sweep => phase := Sweeping;
        case Sleep => phase := Sleeping;
        case Drop => assert false;
      }
    }

    /** The arena is dropped, the context before the root. Dropping the root touches no box. */
    method Destroy(us: map<Ref, Conduct>)
      requires Valid()
      modifies context, context.metrics, context.memory.Values
      ensures Lifetimes.Droppable(old(View()).cx, old(View()).cx.List())
      ensures context.View() == Lifetimes.DropContext(old(View()).cx, us)
    {
      context.DropAll(us);
    }
  }
}
