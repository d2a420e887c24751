/** What holds of the context and the root between any two steps of a run. */
module Invariant {
  import opened Types
  import opened Collector

  function Occurs(s: seq<Ref>, r: Ref): nat {
    multiset(s)[r]
  }

  /** The list of all boxes has no duplicates and holds exactly the allocated boxes. */
  ghost predicate Listed(c: Ctx) {
    && (forall r {:trigger Occurs(c.front, r)} ::
          Occurs(c.front, r) + Occurs(c.back, r) == if r in c.heap then 1 else 0)
    && (c.phase != Sweep ==> c.back == [])
    && c.heap.Keys <= c.past.born
  }

  /** The two queues together have no duplicates and hold exactly the gray boxes. */
  ghost predicate Queued(c: Ctx) {
    forall r {:trigger Occurs(c.gray, r)} ::
      Occurs(c.gray, r) + Occurs(c.grayAgain, r) == if r in c.heap && c.heap[r].color == Gray then 1 else 0
  }

  /** The colours that each phase allows. Only live boxes are gray or black, only marking has gray
      boxes, and whatever the sweep has passed is white. */
  predicate ColorFits(c: Ctx, r: Ref)
    requires r in c.heap
  {
    var b := c.heap[r];
    && (IsWhite(b.color) || b.live)
    && (b.color == Gray ==> c.phase == Mark)
    && (c.phase == Sleep ==> b.color == White)
    && (c.phase == Sweep && r !in c.back ==> b.color == White)
    && (!b.needsTrace ==> b.edges == [])
  }

  predicate Colored(c: Ctx) {
    forall r {:trigger ColorFits(c, r)} | r in c.heap :: ColorFits(c, r)
  }

  /** The rest of this sweep will drop the value of `r`. */
  predicate Doomed(c: Ctx, r: Ref)
    requires r in c.heap
  {
    c.phase == Sweep && r in c.back && IsWhite(c.heap[r].color)
  }

  /** The value of `r` has not been dropped, and this sweep will not drop it. */
  predicate Solid(c: Ctx, r: Ref) {
    r in c.heap && c.heap[r].live && !Doomed(c, r)
  }

  /** The box is allocated and this sweep will not deallocate it. */
  predicate Lasting(c: Ctx, r: Ref) {
    r in c.heap && !(c.phase == Sweep && r in c.back && c.heap[r].color == White)
  }

  predicate EdgeOk(c: Ctx, e: Edge) {
    match e
    case Strong(r) => Solid(c, r)
    case Weak(r) => Lasting(c, r)
  }

  predicate EdgesOk(c: Ctx, edges: seq<Edge>) {
    forall e {:trigger e in edges} | e in edges :: EdgeOk(c, e)
  }

  predicate Closed(c: Ctx) {
    forall r {:trigger Solid(c, r)} | r in c.heap && Solid(c, r) :: EdgesOk(c, c.heap[r].edges)
  }

  predicate MarkedEdge(c: Ctx, e: Edge) {
    && e.to in c.heap
    && match e
       case Strong(r) => !IsWhite(c.heap[r].color)
       case Weak(r) => c.heap[r].color != White
  }

  predicate MarkedEdges(c: Ctx, edges: seq<Edge>) {
    forall e {:trigger e in edges} | e in edges :: MarkedEdge(c, e)
  }

  /** The strong and weak tri-colour condition, except for the boxes in `hole`. */
  predicate TriColor(c: Ctx, hole: set<Ref>) {
    c.phase == Mark ==>
      forall r {:trigger MarkedEdges(c, c.heap[r].edges)} | r in c.heap && c.heap[r].color == Black && r !in hole ::
        MarkedEdges(c, c.heap[r].edges)
  }

  ghost predicate HeapOk(c: Ctx, hole: set<Ref>) {
    && c.phase != Drop
    && Listed(c)
    && Queued(c)
    && Colored(c)
    && Closed(c)
    && TriColor(c, hole)
  }

  ghost predicate RootOk(c: Ctx, root: seq<Edge>) {
    && EdgesOk(c, root)
    && (c.phase == Sleep ==> c.rootNeedsTrace)
    && (c.phase == Mark && !c.rootNeedsTrace ==> MarkedEdges(c, root))
  }

  ghost predicate CtxOk(c: Ctx, root: seq<Edge>) {
    HeapOk(c, {}) && RootOk(c, root)
  }

  lemma OccursAppend(s: seq<Ref>, t: seq<Ref>, r: Ref)
    ensures Occurs(s + t, r) == Occurs(s, r) + Occurs(t, r)
  {
  }

  lemma OccursMember(s: seq<Ref>, r: Ref)
    ensures r in s <==> Occurs(s, r) > 0
  {
  }

  lemma OkEdgesAreTraceable(c: Ctx, edges: seq<Edge>)
    requires EdgesOk(c, edges)
    ensures Traceable(c, edges)
  {
    forall i | 0 <= i < |edges|
      ensures edges[i].to in c.heap && (edges[i].Strong? ==> c.heap[edges[i].to].live)
    {
      assert edges[i] in edges;
    }
  }

  /** Nothing that a collection step reads has been deallocated or dropped. */
  lemma NeverStuck(c: Ctx, root: seq<Edge>)
    requires CtxOk(c, root)
    ensures c.phase == Mark ==> MarkReady(c, root)
    ensures c.phase == Sweep && c.back != [] ==> SweepReady(c)
  {
    match NextGray(c) {
      case Some(r) =>
        OccursMember(c.gray, r);
        OccursMember(c.grayAgain, r);
        assert r in c.heap && ColorFits(c, r);
        assert Solid(c, r);
        OkEdgesAreTraceable(c, c.heap[r].edges);
      case None =>
        OkEdgesAreTraceable(c, root);
    }
    if c.phase == Sweep && c.back != [] {
      OccursMember(c.back, c.back[0]);
      assert Occurs(c.front, c.back[0]) + Occurs(c.back, c.back[0]) > 0;
      assert ColorFits(c, c.back[0]);
    }
  }
}
