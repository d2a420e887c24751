/** Marking, the barriers and resurrection keep the invariant. */
module Marking {
  import opened Types
  import opened Collector
  import opened Invariant

  /** During marking, boxes change nothing but their colour, no step whitens a box, and only live
      boxes become gray or black. */
  ghost predicate Onward(c: Ctx, d: Ctx) {
    && c.phase == d.phase == Mark
    && c.front == d.front && c.back == d.back && c.past == d.past
    && c.rootNeedsTrace == d.rootNeedsTrace
    && c.heap.Keys == d.heap.Keys
    && forall r | r in c.heap ::
         && d.heap[r] == c.heap[r].(color := d.heap[r].color)
         && (c.heap[r].color != White ==> d.heap[r].color != White)
         && (!IsWhite(c.heap[r].color) ==> !IsWhite(d.heap[r].color))
         && (!IsWhite(d.heap[r].color) ==> !IsWhite(c.heap[r].color) || c.heap[r].live)
  }

  /** The only boxes that turned black are ones that cannot hold pointers. */
  ghost predicate BlackensOnlyLeaves(c: Ctx, d: Ctx)
    requires c.heap.Keys == d.heap.Keys
  {
    forall r | r in c.heap && d.heap[r].color == Black && c.heap[r].color != Black :: !c.heap[r].needsTrace
  }

  /** `c` and `d` differ at most in colours, in the gray queue and in the meter. */
  predicate SameShape(c: Ctx, d: Ctx) {
    && c.phase == d.phase && c.past == d.past && c.rootNeedsTrace == d.rootNeedsTrace
    && c.front == d.front && c.back == d.back && c.grayAgain == d.grayAgain
    && c.heap.Keys == d.heap.Keys
    && forall r | r in c.heap :: d.heap[r] == c.heap[r].(color := d.heap[r].color)
  }

  predicate IsTarget(edges: seq<Edge>, r: Ref) {
    Strong(r) in edges || Weak(r) in edges
  }

  /** Tracing recolours the targets of the pointers, and nothing else in the heap. */
  lemma {:induction false} TraceEdgesShape(c: Ctx, edges: seq<Edge>)
    requires Present(c, edges)
    ensures SameShape(c, TraceEdges(c, edges))
    ensures forall r {:trigger TraceEdges(c, edges).heap[r]} | r in c.heap && !IsTarget(edges, r) ::
              TraceEdges(c, edges).heap[r] == c.heap[r]
  {
    if edges == [] {
    } else {
      var init, last := edges[..|edges| - 1], edges[|edges| - 1];
      TraceEdgesShape(c, init);
      TraceEdgeShape(TraceEdges(c, init), last);
      assert last in edges && forall e | e in init :: e in edges;
    }
  }

  lemma TraceEdgeShape(c: Ctx, e: Edge)
    requires e.to in c.heap
    ensures SameShape(c, TraceEdge(c, e))
    ensures forall r | r in c.heap && r != e.to :: TraceEdge(c, e).heap[r] == c.heap[r]
    ensures forall r | r in c.heap && !IsWhite(c.heap[r].color) :: TraceEdge(c, e).heap[r] == c.heap[r]
  {
  }

  /** Tracing leaves gray and black boxes as they are. */
  lemma {:induction false} TraceEdgesSpare(c: Ctx, edges: seq<Edge>)
    requires Present(c, edges)
    ensures forall r {:trigger TraceEdges(c, edges).heap[r]} | r in c.heap && !IsWhite(c.heap[r].color) ::
              TraceEdges(c, edges).heap[r] == c.heap[r]
  {
    if edges == [] {
    } else {
      var init, last := edges[..|edges| - 1], edges[|edges| - 1];
      TraceEdgesSpare(c, init);
      TraceEdgeShape(TraceEdges(c, init), last);
    }
  }

  lemma TraceEdgeMarks(c: Ctx, e: Edge)
    requires e.to in c.heap
    ensures MarkedEdge(TraceEdge(c, e), e)
    ensures forall f :: MarkedEdge(c, f) ==> MarkedEdge(TraceEdge(c, e), f)
  {
  }

  /** Tracing marks the targets of all the pointers. */
  lemma {:induction false} TraceEdgesMark(c: Ctx, edges: seq<Edge>)
    requires Present(c, edges)
    ensures MarkedEdges(TraceEdges(c, edges), edges)
  {
    if edges == [] {
    } else {
      var init, last := edges[..|edges| - 1], edges[|edges| - 1];
      TraceEdgesMark(c, init);
      TraceEdgeMarks(TraceEdges(c, init), last);
      assert edges == init + [last];
    }
  }

  ghost predicate BlackStays(c: Ctx, d: Ctx)
    requires c.heap.Keys == d.heap.Keys
  {
    forall r | r in c.heap && c.heap[r].color == Black :: d.heap[r].color == Black
  }

  lemma OnwardKeepsEdges(c: Ctx, d: Ctx, e: Edge)
    requires Onward(c, d)
    ensures EdgeOk(c, e) ==> EdgeOk(d, e)
    ensures MarkedEdge(c, e) ==> MarkedEdge(d, e)
  {
  }

  lemma OnwardKeepsRoot(c: Ctx, d: Ctx, root: seq<Edge>)
    requires Onward(c, d) && RootOk(c, root)
    ensures RootOk(d, root)
  {
    forall e | e in root
      ensures EdgeOk(d, e) && (!c.rootNeedsTrace ==> MarkedEdge(d, e))
    {
      OnwardKeepsEdges(c, d, e);
    }
  }

  lemma OnwardTransitive(c: Ctx, d: Ctx, e: Ctx)
    requires Onward(c, d) && Onward(d, e)
    ensures Onward(c, e)
  {
  }

  lemma OnwardKeepsListed(c: Ctx, d: Ctx)
    requires Listed(c) && Onward(c, d)
    ensures Listed(d)
  {
  }

  lemma OnwardKeepsColored(c: Ctx, d: Ctx)
    requires Colored(c) && Onward(c, d)
    ensures Colored(d)
  {
    forall r | r in d.heap
      ensures ColorFits(d, r)
    {
      assert ColorFits(c, r);
    }
  }

  lemma OnwardKeepsClosed(c: Ctx, d: Ctx)
    requires Closed(c) && Onward(c, d)
    ensures Closed(d)
  {
    forall r, e | r in d.heap && Solid(d, r) && e in d.heap[r].edges
      ensures EdgeOk(d, e)
    {
      assert Solid(c, r) && e in c.heap[r].edges;
      OnwardKeepsEdges(c, d, e);
    }
  }

  lemma OnwardKeepsTriColor(c: Ctx, d: Ctx, hole: set<Ref>)
    requires TriColor(c, hole) && Colored(c) && Onward(c, d) && BlackensOnlyLeaves(c, d)
    ensures TriColor(d, hole)
  {
    forall r, e | r in d.heap && d.heap[r].color == Black && r !in hole && e in d.heap[r].edges
      ensures MarkedEdge(d, e)
    {
      assert ColorFits(c, r);
      assert MarkedEdges(c, c.heap[r].edges);
      OnwardKeepsEdges(c, d, e);
    }
  }

  /** What `HeapOk` says about the heap survives any `Onward` step that blackens only leaves. */
  lemma OnwardKeepsHeap(c: Ctx, d: Ctx, hole: set<Ref>)
    requires HeapOk(c, hole) && Onward(c, d) && BlackensOnlyLeaves(c, d)
    requires Queued(d)
    ensures HeapOk(d, hole)
  {
    OnwardKeepsListed(c, d);
    OnwardKeepsColored(c, d);
    OnwardKeepsClosed(c, d);
    OnwardKeepsTriColor(c, d, hole);
  }

  lemma OccursPush(s: seq<Ref>, r: Ref, q: Ref)
    ensures Occurs(s + [r], q) == Occurs(s, q) + if q == r then 1 else 0
  {
  }

  lemma OccursPop(s: seq<Ref>, q: Ref)
    requires s != []
    ensures Occurs(s, q) == Occurs(s[..|s| - 1], q) + if q == s[|s| - 1] then 1 else 0
  {
    assert s == s[..|s| - 1] + [s[|s| - 1]];
  }

  /** Queues that gain one entry for `r` fit a heap in which `r` has just become gray. */
  lemma PushKeepsQueued(c: Ctx, d: Ctx, r: Ref)
    requires Queued(c) && r in c.heap && c.heap[r].color != Gray
    requires d.heap == c.heap[r := c.heap[r].(color := Gray)]
    requires (d.gray == c.gray + [r] && d.grayAgain == c.grayAgain)
          || (d.gray == c.gray && d.grayAgain == c.grayAgain + [r])
    ensures Queued(d)
  {
    forall q
      ensures Occurs(d.gray, q) + Occurs(d.grayAgain, q) == if q in d.heap && d.heap[q].color == Gray then 1 else 0
    {
      OccursPush(c.gray, r, q);
      OccursPush(c.grayAgain, r, q);
    }
  }

  lemma SameGrayKeepsQueued(c: Ctx, d: Ctx)
    requires Queued(c) && c.gray == d.gray && c.grayAgain == d.grayAgain && c.heap.Keys == d.heap.Keys
    requires forall r | r in c.heap :: c.heap[r].color == Gray <==> d.heap[r].color == Gray
    ensures Queued(d)
  {
  }

  /** Queues that lose their next entry fit a heap in which that box is no longer gray. */
  lemma PopKeepsQueued(c: Ctx, r: Ref)
    requires Queued(c) && NextGray(c) == Some(r)
    ensures r in c.heap && c.heap[r].color == Gray
    ensures Queued(StartTrace(c))
  {
    OccursMember(c.gray, r);
    OccursMember(c.grayAgain, r);
    var d := StartTrace(c);
    forall q
      ensures Occurs(d.gray, q) + Occurs(d.grayAgain, q) == if q in d.heap && d.heap[q].color == Gray then 1 else 0
    {
      if c.gray != [] {
        OccursPop(c.gray, q);
      } else {
        OccursPop(c.grayAgain, q);
      }
    }
  }

  /** Colouring a white box gray and queueing it. */
  lemma GrayKeeps(c: Ctx, r: Ref, hole: set<Ref>)
    requires c.phase == Mark && HeapOk(c, hole)
    requires r in c.heap && IsWhite(c.heap[r].color) && c.heap[r].live
    ensures var d := Recolor(CountMark(c, r), r, Gray).(gray := c.gray + [r]);
            HeapOk(d, hole) && Onward(c, d)
  {
    var d := Recolor(CountMark(c, r), r, Gray).(gray := c.gray + [r]);
    PushKeepsQueued(c, d, r);
    OnwardKeepsHeap(c, d, hole);
  }

  /** Colouring a white box without queueing it: `WhiteWeak`, or black if it holds no pointers. */
  lemma RecolorKeeps(c: Ctx, r: Ref, color: Color, hole: set<Ref>)
    requires c.phase == Mark && HeapOk(c, hole)
    requires r in c.heap && IsWhite(c.heap[r].color)
    requires color == WhiteWeak || (color == Black && c.heap[r].live && !c.heap[r].needsTrace)
    ensures var d := Recolor(CountMark(c, r), r, color);
            HeapOk(d, hole) && Onward(c, d) && BlackensOnlyLeaves(c, d)
  {
    var d := Recolor(CountMark(c, r), r, color);
    SameGrayKeepsQueued(c, d);
    OnwardKeepsHeap(c, d, hole);
  }

  lemma TraceEdgeKeeps(c: Ctx, e: Edge, hole: set<Ref>)
    requires c.phase == Mark && HeapOk(c, hole) && EdgeOk(c, e)
    ensures var d := TraceEdge(c, e);
            HeapOk(d, hole) && Onward(c, d) && BlackensOnlyLeaves(c, d) && MarkedEdge(d, e)
  {
    var b := c.heap[e.to];
    match e {
      case Strong(r) =>
        if IsWhite(b.color) {
          if b.needsTrace {
            GrayKeeps(c, r, hole);
          } else {
            RecolorKeeps(c, r, Black, hole);
          }
        }
      case Weak(r) =>
        if b.color == White {
          RecolorKeeps(c, r, WhiteWeak, hole);
        }
    }
  }

  lemma {:induction false} TraceEdgesKeep(c: Ctx, edges: seq<Edge>, hole: set<Ref>)
    requires c.phase == Mark && HeapOk(c, hole) && Present(c, edges) && EdgesOk(c, edges)
    ensures var d := TraceEdges(c, edges);
            HeapOk(d, hole) && Onward(c, d) && MarkedEdges(d, edges) && BlackStays(c, d)
  {
    if edges == [] {
    } else {
      var init, last := edges[..|edges| - 1], edges[|edges| - 1];
      assert edges == init + [last];
      OkPrefix(c, init, edges);
      assert last in edges;
      TraceEdgesKeep(c, init, hole);
      TraceOneMore(c, TraceEdges(c, init), init, last, hole);
    }
  }

  lemma TraceOneMore(c: Ctx, mid: Ctx, init: seq<Edge>, last: Edge, hole: set<Ref>)
    requires Onward(c, mid) && BlackStays(c, mid) && HeapOk(mid, hole)
    requires EdgeOk(c, last) && MarkedEdges(mid, init)
    ensures var d := TraceEdge(mid, last);
            HeapOk(d, hole) && Onward(c, d) && MarkedEdges(d, init + [last]) && BlackStays(c, d)
  {
    OnwardKeepsEdges(c, mid, last);
    TraceEdgeKeeps(mid, last, hole);
    var d := TraceEdge(mid, last);
    MarkedSnoc(mid, d, init, last);
    OnwardTransitive(c, mid, d);
  }

  lemma OkPrefix(c: Ctx, es: seq<Edge>, edges: seq<Edge>)
    requires es <= edges && EdgesOk(c, edges)
    ensures EdgesOk(c, es) && Present(c, es)
  {
    forall i | 0 <= i < |es|
      ensures EdgeOk(c, es[i])
    {
      assert es[i] == edges[i] && edges[i] in edges;
    }
  }

  lemma MarkedSnoc(c: Ctx, d: Ctx, init: seq<Edge>, last: Edge)
    requires Onward(c, d) && MarkedEdges(c, init) && MarkedEdge(d, last)
    ensures MarkedEdges(d, init + [last])
  {
    forall e | e in init
      ensures MarkedEdge(d, e)
    {
      OnwardKeepsEdges(c, d, e);
    }
  }

  lemma MakeGrayAgainKeeps(c: Ctx, r: Ref, hole: set<Ref>)
    requires c.phase == Mark && HeapOk(c, hole)
    requires r in c.heap && c.heap[r].color == Black
    ensures var d := MakeGrayAgain(c, r);
            HeapOk(d, hole - {r}) && Onward(c, d) && BlackensOnlyLeaves(c, d)
  {
    var d := MakeGrayAgain(c, r);
    PushKeepsQueued(c, d, r);
    OnwardKeepsHeap(c, d, hole);
    assert TriColor(d, hole - {r});
  }

  /** Taking a gray box off its queue leaves a hole in the tri-colour condition at that box. */
  lemma StartTraceKeeps(c: Ctx, r: Ref)
    requires c.phase == Mark && HeapOk(c, {})
    requires NextGray(c) == Some(r)
    ensures r in c.heap && c.heap[r].color == Gray
    ensures var d := StartTrace(c);
            HeapOk(d, {r}) && Onward(c, d) && d.heap[r].color == Black
  {
    PopKeepsQueued(c, r);
    var d := StartTrace(c);
    OnwardKeepsListed(c, d);
    OnwardKeepsColored(c, d);
    OnwardKeepsClosed(c, d);
    forall q, e | q in d.heap && d.heap[q].color == Black && q !in {r} && e in d.heap[q].edges
      ensures MarkedEdge(d, e)
    {
      assert MarkedEdges(c, c.heap[q].edges);
      OnwardKeepsEdges(c, d, e);
    }
  }

  /** A step of marking keeps the invariant whether or not the value's `trace` panics part-way. */
  lemma MarkOneKeeps(c: Ctx, root: seq<Edge>, outcome: Outcome)
    requires c.phase == Mark && CtxOk(c, root)
    requires !MarkDone(c) && MarkReady(c, root)
    ensures CtxOk(MarkOne(c, root, outcome), root)
  {
    match NextGray(c) {
      case Some(r) => MarkBoxKeeps(c, r, outcome); OnwardKeepsRoot(c, MarkOne(c, root, outcome), root);
      case None => MarkRootKeeps(c, root, outcome);
    }
  }

  lemma MarkBoxKeeps(c: Ctx, r: Ref, outcome: Outcome)
    requires c.phase == Mark && HeapOk(c, {}) && NextGray(c) == Some(r)
    requires r in c.heap && c.heap[r].live && Traceable(c, c.heap[r].edges)
    ensures var d := MarkOne(c, [], outcome); HeapOk(d, {}) && Onward(c, d)
  {
    StartTraceKeeps(c, r);
    var begun := StartTrace(c);
    var edges := c.heap[r].edges;
    var es := Reported(edges, outcome);
    assert EdgesOk(begun, edges) by {
      assert Solid(begun, r);
    }
    OkPrefix(begun, es, edges);
    TraceEdgesKeep(begun, es, {r});
    var traced := TraceEdges(begun, es);
    OnwardTransitive(c, begun, traced);
    assert traced.heap[r].color == Black && traced.heap[r].edges == edges;
    FinishTrace(c, traced, r, outcome);
  }

  /** Closing the hole at `r`: its pointers are all marked, or it goes back to being gray. */
  lemma FinishTrace(c: Ctx, traced: Ctx, r: Ref, outcome: Outcome)
    requires Onward(c, traced) && HeapOk(traced, {r})
    requires r in traced.heap && traced.heap[r].color == Black
    requires outcome.Returns? ==> MarkedEdges(traced, traced.heap[r].edges)
    ensures var d := if outcome.Returns? then traced else MakeGrayAgain(traced, r);
            HeapOk(d, {}) && Onward(c, d)
  {
    if outcome.Panics? {
      MakeGrayAgainKeeps(traced, r, {r});
      OnwardTransitive(c, traced, MakeGrayAgain(traced, r));
    } else {
      assert TriColor(traced, {});
    }
  }

  lemma MarkRootKeeps(c: Ctx, root: seq<Edge>, outcome: Outcome)
    requires c.phase == Mark && CtxOk(c, root) && NextGray(c).None? && Traceable(c, root)
    requires !MarkDone(c)
    ensures CtxOk(MarkOne(c, root, outcome), root)
  {
    var es := Reported(root, outcome);
    OkPrefix(c, es, root);
    TraceEdgesKeep(c, es, {});
    var traced := TraceEdges(c, es);
    OnwardKeepsRoot(c, traced, root);
    RootFlagIsNotInHeap(traced, false);
  }

  lemma RootFlagIsNotInHeap(c: Ctx, flag: bool)
    requires HeapOk(c, {})
    ensures HeapOk(c.(rootNeedsTrace := flag), {})
  {
    var d := c.(rootNeedsTrace := flag);
    forall r | r in d.heap
      ensures ColorFits(d, r)
      ensures Solid(d, r) ==> EdgesOk(d, d.heap[r].edges)
      ensures d.phase == Mark && d.heap[r].color == Black ==> MarkedEdges(d, d.heap[r].edges)
    {
      assert ColorFits(c, r);
      assert Solid(c, r) ==> EdgesOk(c, c.heap[r].edges);
      assert c.phase == Mark && c.heap[r].color == Black ==> MarkedEdges(c, c.heap[r].edges);
    }
  }
}
