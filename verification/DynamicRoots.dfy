/** Dynamic root sets in an arena: handles held outside keep their targets alive. */
module DynamicRoots {
  import opened Types
  import opened Collector
  import opened Invariant
  import opened Marking
  import opened Sweeping
  import opened Runs
  import opened Safety
  import opened Slab

  /** The pointers that `trace` reports for a vector of slots. */
  function SlotEdges(slots: seq<Slot>): seq<Edge> {
    if slots == [] then []
    else SlotEdges(slots[..|slots| - 1])
         + match slots[|slots| - 1] { case Occupied(root, _) => [Strong(root)] case Vacant(_) => [] }
  }

  /** An arena together with its dynamic root sets, each named by the box that holds it. */
  datatype Rooted = Rooted(w: World, sets: map<Ref, Registry>)

  const FRESH := Rooted(INITIAL, map[])

  datatype RootEvent =
    | Plain(event: Event)
    | NewSet(set_: Ref, size: nat)
    | StashRoot(set_: Ref, root: Ref)
    | CloneRoot(set_: Ref, handle: nat)
    | DropRoot(set_: Ref, handle: nat)
    | Fetch(set_: Ref, owner: Ref, handle: nat)

  /** The value of the set has not been dropped, so handles can still find its slots. */
  predicate Alive(w: World, d: Ref) {
    d in w.cx.heap && w.cx.heap[d].live
  }

  /** `try_fetch`: gives the stashed pointer if the handle belongs to this very set. */
  function TryFetch(d: Ref, owner: Ref, h: Handle): Option<Ref> {
    if d == owner then Some(h.root) else None
  }

  predicate Possible(a: Rooted, ev: RootEvent) {
    match ev
    case Plain(e) => (e.Write? || e.Shed?) ==> e.parent !in a.sets
    case NewSet(_, _) => true
    case StashRoot(d, p) =>
      d in a.sets && Strong(d) in a.w.held && Strong(p) in a.w.held
    case CloneRoot(d, i) => d in a.sets && i < |a.sets[d].handles|
    case DropRoot(d, i) => d in a.sets && i < |a.sets[d].handles|
    case Fetch(d, owner, i) =>
      d in a.sets && Strong(d) in a.w.held && owner in a.sets && i < |a.sets[owner].handles|
  }

  /** The slots do not panic. */
  predicate Succeeds(a: Rooted, ev: RootEvent)
    requires Possible(a, ev)
  {
    match ev
    case StashRoot(d, p) => Apply(a.sets[d], Stash(p)).Ok?
    case CloneRoot(d, i) => Alive(a.w, d) ==> Apply(a.sets[d], Clone(i)).Ok?
    case DropRoot(d, i) => Alive(a.w, d) ==> Apply(a.sets[d], Release(i)).Ok?
    case _ => true
  }

  /** A number has run out: there is no slot left for the pointer to be stashed, or there are as many
      handles to one slot as can be counted. */
  predicate Exhausted(a: Rooted, ev: RootEvent)
    requires Possible(a, ev)
  {
    match ev
    case StashRoot(d, p) => RunsOut(a.sets[d], Stash(p))
    case CloneRoot(d, i) => Alive(a.w, d) && RunsOut(a.sets[d], Clone(i))
    case _ => false
  }

  /** What the event does to the arena: stashing calls the barrier and then writes the slots, and a
      handle that goes may take its pointer out of the slots without a barrier. */
  function ArenaEvents(a: Rooted, ev: RootEvent): seq<Event>
    requires Possible(a, ev) && Succeeds(a, ev)
  {
    match ev
    case Plain(e) => [e]
    case NewSet(d, size) => [Alloc(d, true, size, [])]
    case StashRoot(d, p) =>
      [CallBarrier(Backward(d, Some(p))), Write(d, SlotEdges(Apply(a.sets[d], Stash(p)).value.slots.slots))]
    case CloneRoot(_, _) => []
    case DropRoot(d, i) =>
      if Alive(a.w, d) then [Shed(d, SlotEdges(Apply(a.sets[d], Release(i)).value.slots.slots))] else []
    case Fetch(d, owner, i) =>
      (match TryFetch(d, owner, a.sets[owner].handles[i])
       case Some(root) => [Read(d, Strong(root))]
       case None => [])
  }

  /** What the event does to the sets. Once the slots of a set are gone, its handles are just copied
      and thrown away. */
  function SetsAfter(a: Rooted, ev: RootEvent): map<Ref, Registry>
    requires Possible(a, ev) && Succeeds(a, ev)
  {
    match ev
    case NewSet(d, _) => a.sets[d := NO_HANDLES]
    case StashRoot(d, p) => a.sets[d := Apply(a.sets[d], Stash(p)).value]
    case CloneRoot(d, i) =>
      var g := a.sets[d];
      a.sets[d := if Alive(a.w, d) then Apply(g, Clone(i)).value else g.(handles := g.handles + [g.handles[i]])]
    case DropRoot(d, i) =>
      var g := a.sets[d];
      a.sets[d := if Alive(a.w, d) then Apply(g, Release(i)).value else g.(handles := Without(g.handles, i))]
    case _ => a.sets
  }

  predicate Steps(w: World, evs: seq<Event>, v: World)
    decreases |evs|
  {
    if evs == [] then v == w
    else Allowed(w, evs[0]) && Ready(w, evs[0]) && Steps(After(w, evs[0]), evs[1..], v)
  }

  predicate Next(a: Rooted, ev: RootEvent, b: Rooted) {
    Possible(a, ev) && Succeeds(a, ev) && Steps(a.w, ArenaEvents(a, ev), b.w) && b.sets == SetsAfter(a, ev)
  }

  // ---------------------------------------------------------------------------- invariant

  /** While a set is alive, its slots and handles agree, and its box points to just the pointers in
      occupied slots. */
  ghost predicate SetOk(a: Rooted, d: Ref)
    requires d in a.sets
  {
    && d in a.w.cx.past.born
    && (Alive(a.w, d) ==>
          && SlabOk(a.sets[d])
          && a.w.cx.heap[d].needsTrace
          && a.w.cx.heap[d].edges == SlotEdges(a.sets[d].slots.slots))
  }

  ghost predicate RootedOk(a: Rooted) {
    WorldOk(a.w) && forall d {:trigger SetOk(a, d)} | d in a.sets :: SetOk(a, d)
  }

  lemma {:induction false} SlotEdgesAre(slots: seq<Slot>, e: Edge)
    ensures e in SlotEdges(slots) <==> exists k :: 0 <= k < |slots| && slots[k].Occupied? && e == Strong(slots[k].root)
  {
    if slots == [] {
    } else {
      SlotEdgesAre(slots[..|slots| - 1], e);
      assert slots == slots[..|slots| - 1] + [slots[|slots| - 1]];
    }
  }

  /** No new pointers but the one that is stashed. */
  lemma ApplyEdges(g: Registry, op: Op, e: Edge)
    requires Apply(g, op).Ok? && e in SlotEdges(Apply(g, op).value.slots.slots)
    ensures e in SlotEdges(g.slots.slots) || (op.Stash? && e == Strong(op.root))
  {
    var before, after := g.slots.slots, Apply(g, op).value.slots.slots;
    SlotEdgesAre(after, e);
    SlotEdgesAre(before, e);
    var k :| 0 <= k < |after| && after[k].Occupied? && e == Strong(after[k].root);
    if !(op.Stash? && e == Strong(op.root)) {
      assert k < |before| && before[k].Occupied? && before[k].root == after[k].root;
    }
  }

  lemma CloneKeepsEdges(g: Registry, i: nat)
    requires Apply(g, Clone(i)).Ok?
    ensures SlotEdges(Apply(g, Clone(i)).value.slots.slots) == SlotEdges(g.slots.slots)
  {
    if i < |g.handles| {
      SameRootsSameEdges(g.slots.slots, Apply(g, Clone(i)).value.slots.slots);
    }
  }

  lemma {:induction false} SameRootsSameEdges(s: seq<Slot>, t: seq<Slot>)
    requires |s| == |t|
    requires forall k | 0 <= k < |s| :: s[k].Occupied? == t[k].Occupied? && (s[k].Occupied? ==> s[k].root == t[k].root)
    ensures SlotEdges(s) == SlotEdges(t)
  {
    if s == [] {
    } else {
      SameRootsSameEdges(s[..|s| - 1], t[..|t| - 1]);
    }
  }

  // ------------------------------------------------------------------------------- events

  /** The value of `x` is the same in `d` as in `c`, unless it is gone. */
  predicate ValueKept(c: Ctx, d: Ctx, x: Ref) {
    && x in d.past.born
    && (x in d.heap && d.heap[x].live ==>
          && x in c.heap && c.heap[x].live
          && d.heap[x].edges == c.heap[x].edges
          && d.heap[x].needsTrace == c.heap[x].needsTrace)
  }

  lemma TracingKeepsValue(c: Ctx, edges: seq<Edge>, x: Ref)
    requires Present(c, edges) && x in c.past.born
    ensures ValueKept(c, TraceEdges(c, edges), x)
  {
    TraceEdgesShape(c, edges);
  }

  lemma RecolorKeepsValue(c: Ctx, d: Ctx, r: Ref, x: Ref)
    requires r in c.heap && r in d.heap && d.heap == c.heap[r := c.heap[r].(color := d.heap[r].color)]
    requires d.past == c.past && x in c.past.born
    ensures ValueKept(c, d, x)
  {
  }

  lemma MarkOneKeepsValue(c: Ctx, root: seq<Edge>, outcome: Outcome, x: Ref)
    requires !MarkDone(c) && MarkReady(c, root) && x in c.past.born
    ensures ValueKept(c, MarkOne(c, root, outcome), x)
  {
    match NextGray(c) {
      case Some(g) =>
        var traced := TraceEdges(StartTrace(c), Reported(c.heap[g].edges, outcome));
        RecolorKeepsValue(c, StartTrace(c), g, x);
        TracingKeepsValue(StartTrace(c), Reported(c.heap[g].edges, outcome), x);
        RecolorKeepsValue(traced, MakeGrayAgain(traced, g), g, x);
      case None => TracingKeepsValue(c, Reported(root, outcome), x);
    }
  }

  lemma SweepOneKeepsValue(c: Ctx, panics: bool, x: Ref)
    requires SweepReady(c) && x in c.past.born
    ensures ValueKept(c, SweepOne(c, panics), x)
  {
  }

  lemma BarrierKeepsValue(c: Ctx, b: Barrier, x: Ref)
    requires BarrierReady(c, b) && x in c.past.born
    ensures ValueKept(c, RunBarrier(c, b), x)
  {
  }

  /** An event that does not write to a box leaves what it holds alone, as long as it is alive. */
  lemma StepKeepsValue(w: World, ev: Event, x: Ref)
    requires Allowed(w, ev) && Ready(w, ev) && x in w.cx.past.born
    requires (ev.Write? || ev.Shed?) ==> ev.parent != x
    ensures ValueKept(w.cx, After(w, ev).cx, x)
  {
    match ev {
      case CallBarrier(b) => BarrierKeepsValue(w.cx, b, x);
      case MarkStep(outcome) => MarkOneKeepsValue(w.cx, w.root, outcome, x);
      case SweepStep(panics) => SweepOneKeepsValue(w.cx, panics, x);
      case _ =>
    }
  }

  lemma PlainKeeps(a: Rooted, e: Event)
    requires RootedOk(a) && Possible(a, Plain(e)) && Allowed(a.w, e) && Ready(a.w, e)
    ensures RootedOk(a.(w := After(a.w, e)))
  {
    StepKeeps(a.w, e);
    forall d | d in a.sets
      ensures SetOk(a.(w := After(a.w, e)), d)
    {
      assert SetOk(a, d);
      StepKeepsValue(a.w, e, d);
    }
  }

  lemma NewSetKeeps(a: Rooted, d: Ref, size: nat)
    requires RootedOk(a) && d !in a.w.cx.past.born
    ensures RootedOk(Rooted(After(a.w, Alloc(d, true, size, [])), a.sets[d := NO_HANDLES]))
  {
    var b := Rooted(After(a.w, Alloc(d, true, size, [])), a.sets[d := NO_HANDLES]);
    PlainKeeps(a, Alloc(d, true, size, []));
    forall x | x in b.sets
      ensures SetOk(b, x)
    {
      if x == d {
        assert RegistryOk(NO_HANDLES, []);
        assert SlotEdges([]) == [];
      } else {
        assert SetOk(a.(w := b.w), x);
      }
    }
  }

  /** Writing the slots of the set `d` and replacing its registry accordingly. */
  lemma RewriteKeeps(a: Rooted, e: Event, d: Ref, g: Registry)
    requires RootedOk(a) && d in a.sets && SlabOk(g)
    requires (e.Write? || e.Shed?) && e.parent == d && e.edges == SlotEdges(g.slots.slots)
    requires Allowed(a.w, e) && Ready(a.w, e) && Alive(a.w, d)
    ensures RootedOk(Rooted(After(a.w, e), a.sets[d := g]))
  {
    var b := Rooted(After(a.w, e), a.sets[d := g]);
    StepKeeps(a.w, e);
    forall x | x in b.sets
      ensures SetOk(b, x)
    {
      assert SetOk(a, x);
      if x != d {
        StepKeepsValue(a.w, e, x);
      }
    }
  }

  /** After the barrier has been called on the set, its box may hold the slots with the stashed
      pointer among them. */
  lemma StashIsAllowed(a: Rooted, d: Ref, p: Ref)
    requires RootedOk(a) && Possible(a, StashRoot(d, p)) && Succeeds(a, StashRoot(d, p))
    ensures Alive(a.w, d)
    ensures var evs := ArenaEvents(a, StashRoot(d, p));
            && Allowed(a.w, evs[0]) && Ready(a.w, evs[0])
            && Allowed(After(a.w, evs[0]), evs[1]) && Ready(After(a.w, evs[0]), evs[1])
  {
    var evs := ArenaEvents(a, StashRoot(d, p));
    assert SetOk(a, d);
    AllowedIsReady(a.w, evs[0]);
    StepKeeps(a.w, evs[0]);
    var v := After(a.w, evs[0]);
    assert EdgeOk(a.w.cx, Strong(d));
    assert v.cx.heap[d].edges == a.w.cx.heap[d].edges && v.cx.heap[d].needsTrace;
    forall e | e in evs[1].edges
      ensures e in v.cx.heap[d].edges || (e in v.held && Adoptable(v.permits, d, e))
    {
      ApplyEdges(a.sets[d], Stash(p), e);
    }
    AllowedIsReady(v, evs[1]);
  }

  lemma StashKeeps(a: Rooted, d: Ref, p: Ref)
    requires RootedOk(a) && Possible(a, StashRoot(d, p)) && Succeeds(a, StashRoot(d, p))
    ensures var evs := ArenaEvents(a, StashRoot(d, p));
            && Allowed(a.w, evs[0]) && Ready(a.w, evs[0])
            && Allowed(After(a.w, evs[0]), evs[1]) && Ready(After(a.w, evs[0]), evs[1])
            && RootedOk(Rooted(After(After(a.w, evs[0]), evs[1]), SetsAfter(a, StashRoot(d, p))))
  {
    StashIsAllowed(a, d, p);
    var evs := ArenaEvents(a, StashRoot(d, p));
    assert SetOk(a, d);
    PlainKeeps(a, evs[0]);
    ApplyOk(a.sets[d], Stash(p));
    RewriteKeeps(a.(w := After(a.w, evs[0])), evs[1], d, Apply(a.sets[d], Stash(p)).value);
  }

  lemma CloneKeeps(a: Rooted, d: Ref, i: nat)
    requires RootedOk(a) && Possible(a, CloneRoot(d, i)) && Succeeds(a, CloneRoot(d, i))
    ensures RootedOk(a.(sets := SetsAfter(a, CloneRoot(d, i))))
  {
    var b := a.(sets := SetsAfter(a, CloneRoot(d, i)));
    forall x | x in b.sets
      ensures SetOk(b, x)
    {
      assert SetOk(a, x);
      if x == d && Alive(a.w, d) {
        ApplyOk(a.sets[d], Clone(i));
        CloneKeepsEdges(a.sets[d], i);
      }
    }
  }

  lemma DropIsAllowed(a: Rooted, d: Ref, i: nat)
    requires RootedOk(a) && Possible(a, DropRoot(d, i)) && Succeeds(a, DropRoot(d, i)) && Alive(a.w, d)
    ensures var ev := ArenaEvents(a, DropRoot(d, i))[0]; Allowed(a.w, ev) && Ready(a.w, ev)
  {
    var ev := ArenaEvents(a, DropRoot(d, i))[0];
    assert SetOk(a, d);
    forall e | e in ev.edges
      ensures e in a.w.cx.heap[d].edges
    {
      ApplyEdges(a.sets[d], Release(i), e);
    }
  }

  lemma DropKeeps(a: Rooted, d: Ref, i: nat)
    requires RootedOk(a) && Possible(a, DropRoot(d, i)) && Succeeds(a, DropRoot(d, i))
    ensures !Alive(a.w, d) ==> RootedOk(a.(sets := SetsAfter(a, DropRoot(d, i))))
    ensures Alive(a.w, d) ==>
              var ev := ArenaEvents(a, DropRoot(d, i))[0];
              Allowed(a.w, ev) && Ready(a.w, ev) && RootedOk(Rooted(After(a.w, ev), SetsAfter(a, DropRoot(d, i))))
  {
    if Alive(a.w, d) {
      DropIsAllowed(a, d, i);
      assert SetOk(a, d);
      ApplyOk(a.sets[d], Release(i));
      RewriteKeeps(a, ArenaEvents(a, DropRoot(d, i))[0], d, Apply(a.sets[d], Release(i)).value);
    } else {
      var b := a.(sets := SetsAfter(a, DropRoot(d, i)));
      forall x | x in b.sets
        ensures SetOk(b, x)
      {
        assert SetOk(a, x);
      }
    }
  }

  lemma StepsOne(w: World, ev: Event, v: World)
    requires Steps(w, [ev], v)
    ensures Allowed(w, ev) && Ready(w, ev) && v == After(w, ev)
  {
    assert [ev][1..] == [];
    assert Steps(After(w, ev), [], v);
  }

  lemma StepsTwo(w: World, ev: Event, fv: Event, v: World)
    requires Steps(w, [ev, fv], v)
    ensures Allowed(w, ev) && Ready(w, ev)
    ensures Allowed(After(w, ev), fv) && Ready(After(w, ev), fv) && v == After(After(w, ev), fv)
  {
    assert [ev, fv][1..] == [fv];
    StepsOne(After(w, ev), fv, v);
  }

  lemma NextKeeps(a: Rooted, ev: RootEvent, b: Rooted)
    requires RootedOk(a) && Next(a, ev, b)
    ensures RootedOk(b)
  {
    match ev {
      case Plain(e) =>
        StepsOne(a.w, e, b.w);
        PlainKeeps(a, e);
      case NewSet(d, size) =>
        StepsOne(a.w, Alloc(d, true, size, []), b.w);
        NewSetKeeps(a, d, size);
      case StashRoot(d, p) =>
        var evs := ArenaEvents(a, ev);
        StepsTwo(a.w, evs[0], evs[1], b.w);
        StashKeeps(a, d, p);
      case CloneRoot(d, i) => CloneKeeps(a, d, i);
      case DropRoot(d, i) =>
        DropKeeps(a, d, i);
        if Alive(a.w, d) {
          StepsOne(a.w, ArenaEvents(a, ev)[0], b.w);
        }
      case Fetch(d, owner, i) =>
        if d == owner {
          var e := ArenaEvents(a, ev)[0];
          StepsOne(a.w, e, b.w);
          PlainKeeps(a, e);
        }
    }
  }

  // ---------------------------------------------------------------------------------- runs

  predicate IsRootedRun(rs: seq<Rooted>, evs: seq<RootEvent>) {
    && |rs| == |evs| + 1
    && forall i | 0 <= i < |evs| :: Next(rs[i], evs[i], rs[i + 1])
  }

  lemma {:induction false} RootedRunKeeps(rs: seq<Rooted>, evs: seq<RootEvent>, i: nat)
    requires IsRootedRun(rs, evs) && rs[0] == FRESH && i < |rs|
    ensures RootedOk(rs[i])
  {
    if i > 0 {
      RootedRunKeeps(rs, evs, i - 1);
      NextKeeps(rs[i - 1], evs[i - 1], rs[i]);
    } else {
      InitialOk();
    }
  }

  /** In every run, with any collections in between: while a set can be strongly reached and a handle
      into it exists, the box that was stashed is live, and so is everything that it strongly
      reaches. */
  lemma HandlesKeepTargets(rs: seq<Rooted>, evs: seq<RootEvent>, i: nat, d: Ref, h: Handle, q: Ref)
    requires IsRootedRun(rs, evs) && rs[0] == FRESH && i < |rs|
    requires d in rs[i].sets && h in rs[i].sets[d].handles
    requires Reachable(rs[i].w.cx.heap, Sources(rs[i].w), d)
    requires Reachable(rs[i].w.cx.heap, {Strong(h.root)}, q)
    ensures h.root in rs[i].w.cx.heap && rs[i].w.cx.heap[h.root].live
    ensures q in rs[i].w.cx.heap && rs[i].w.cx.heap[q].live
  {
    var a := rs[i];
    RootedRunKeeps(rs, evs, i);
    var p :| IsPath(a.w.cx.heap, Sources(a.w), p) && p[|p| - 1] == d;
    PathIsSolid(a.w, p, |p| - 1);
    assert SetOk(a, d);
    HandleIsEdge(a.sets[d], h);
    var t :| IsPath(a.w.cx.heap, {Strong(h.root)}, t) && t[|t| - 1] == q;
    assert IsPath(a.w.cx.heap, Sources(a.w), p + t) by {
      forall k | 0 <= k < |p + t| - 1
        ensures (p + t)[k] in a.w.cx.heap && Strong((p + t)[k + 1]) in a.w.cx.heap[(p + t)[k]].edges
      {
        if k >= |p| {
          assert (p + t)[k] == t[k - |p|] && (p + t)[k + 1] == t[k - |p| + 1];
        }
      }
    }
    PathIsSolid(a.w, p + t, |p|);
    PathIsSolid(a.w, p + t, |p + t| - 1);
  }

  /** Fetching a handle from its set gives the callback the very pointer that was stashed, and fetching
      it from any other set gives nothing, also when its own set is gone. */
  lemma FetchGivesStashed(rs: seq<Rooted>, evs: seq<RootEvent>, i: nat, d: Ref, owner: Ref, k: nat, b: Rooted)
    requires IsRootedRun(rs, evs) && rs[0] == FRESH && i < |rs|
    requires Next(rs[i], Fetch(d, owner, k), b)
    ensures d != owner ==> b == rs[i]
    ensures var g := rs[i].sets[owner];
            d == owner ==>
              && g.handles[k].stash < |g.stashed|
              && b.w.held == rs[i].w.held + {Strong(g.stashed[g.handles[k].stash])}
  {
    var a := rs[i];
    RootedRunKeeps(rs, evs, i);
    if d == owner {
      assert EdgeOk(a.w.cx, Strong(d)) && SetOk(a, owner);
      var path :| RegistryOk(a.sets[owner], path);
      var h := a.sets[owner].handles[k];
      assert h in a.sets[owner].handles && HandleOk(a.sets[owner], h);
      StepsOne(a.w, Read(d, Strong(h.root)), b.w);
    }
  }

  lemma HandleIsEdge(g: Registry, h: Handle)
    requires SlabOk(g) && h in g.handles
    ensures Strong(h.root) in SlotEdges(g.slots.slots)
  {
    var path :| RegistryOk(g, path);
    assert HandleOk(g, h);
    SlotEdgesAre(g.slots.slots, Strong(h.root));
  }

  /** Dropping a handle never panics, and stashing and cloning panic just when a number runs out. */
  lemma SlotsHold(a: Rooted, ev: RootEvent)
    requires RootedOk(a) && Possible(a, ev)
    ensures Succeeds(a, ev) <==> !Exhausted(a, ev)
  {
    match ev {
      case StashRoot(d, p) =>
        assert EdgeOk(a.w.cx, Strong(d)) && SetOk(a, d);
        ApplyOk(a.sets[d], Stash(p));
      case CloneRoot(d, i) =>
        assert SetOk(a, d);
        if Alive(a.w, d) {
          ApplyOk(a.sets[d], Clone(i));
        }
      case DropRoot(d, i) =>
        assert SetOk(a, d);
        if Alive(a.w, d) {
          ApplyOk(a.sets[d], Release(i));
        }
      case _ =>
    }
  }

  /** Nothing about memory, about the free list or about barriers stands in the way of stashing,
      cloning, dropping or fetching: at every point of every run they can go ahead, if and only if no
      number runs out. */
  lemma RootEventsGoAhead(rs: seq<Rooted>, evs: seq<RootEvent>, i: nat, ev: RootEvent)
    requires IsRootedRun(rs, evs) && rs[0] == FRESH && i < |rs|
    requires Possible(rs[i], ev) && !ev.Plain? && (ev.NewSet? ==> ev.set_ !in rs[i].w.cx.past.born)
    ensures !Exhausted(rs[i], ev) <==> exists b :: Next(rs[i], ev, b)
  {
    RootedRunKeeps(rs, evs, i);
    SlotsHold(rs[i], ev);
    if Succeeds(rs[i], ev) {
      var b := GoAhead(rs[i], ev);
    }
  }

  lemma GoAhead(a: Rooted, ev: RootEvent) returns (b: Rooted)
    requires RootedOk(a) && Possible(a, ev) && Succeeds(a, ev)
    requires !ev.Plain? && (ev.NewSet? ==> ev.set_ !in a.w.cx.past.born)
    ensures Next(a, ev, b)
  {
    var sets := SetsAfter(a, ev);
    b := Rooted(a.w, sets);
    match ev {
      case NewSet(d, size) =>
        var e := Alloc(d, true, size, []);
        OneStep(a.w, e);
        b := Rooted(After(a.w, e), sets);
      case StashRoot(d, p) =>
        StashIsAllowed(a, d, p);
        var es := ArenaEvents(a, ev);
        TwoSteps(a.w, es[0], es[1]);
        b := Rooted(After(After(a.w, es[0]), es[1]), sets);
      case CloneRoot(d, i) =>
      case DropRoot(d, i) =>
        if Alive(a.w, d) {
          DropIsAllowed(a, d, i);
          var e := ArenaEvents(a, ev)[0];
          OneStep(a.w, e);
          b := Rooted(After(a.w, e), sets);
        }
      case Fetch(d, owner, i) =>
        if d == owner {
          FetchIsAllowed(a, d, i);
          var e := ArenaEvents(a, ev)[0];
          OneStep(a.w, e);
          b := Rooted(After(a.w, e), sets);
        }
    }
  }

  lemma FetchIsAllowed(a: Rooted, d: Ref, i: nat)
    requires RootedOk(a) && Possible(a, Fetch(d, d, i))
    ensures var e := Read(d, Strong(a.sets[d].handles[i].root)); Allowed(a.w, e) && Ready(a.w, e)
  {
    assert EdgeOk(a.w.cx, Strong(d));
    assert SetOk(a, d);
    HandleIsEdge(a.sets[d], a.sets[d].handles[i]);
  }

  lemma OneStep(w: World, ev: Event)
    requires Allowed(w, ev) && Ready(w, ev)
    ensures Steps(w, [ev], After(w, ev))
  {
    assert [ev][1..] == [];
  }

  lemma TwoSteps(w: World, ev: Event, fv: Event)
    requires Allowed(w, ev) && Ready(w, ev) && Allowed(After(w, ev), fv) && Ready(After(w, ev), fv)
    ensures Steps(w, [ev, fv], After(After(w, ev), fv))
  {
    assert [ev, fv][1..] == [fv];
    OneStep(After(w, ev), fv);
  }
}
