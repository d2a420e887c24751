/** Waking, the switch from marking to sweeping, and the sweep itself keep the invariant. */
module Sweeping {
  import opened Types
  import opened Collector
  import opened Invariant

  /** No good pointer goes bad, and no box becomes solid or, while solid, changes its pointers. */
  ghost predicate Preserves(c: Ctx, d: Ctx) {
    && (forall e {:trigger EdgeOk(d, e)} :: EdgeOk(c, e) ==> EdgeOk(d, e))
    && (forall r {:trigger Solid(d, r)} :: Solid(d, r) ==> Solid(c, r) && d.heap[r].edges == c.heap[r].edges)
  }

  lemma PreservesKeepsClosed(c: Ctx, d: Ctx)
    requires Preserves(c, d) && Closed(c)
    ensures Closed(d)
  {
  }

  lemma PreservesKeepsEdges(c: Ctx, d: Ctx, edges: seq<Edge>)
    requires Preserves(c, d) && EdgesOk(c, edges)
    ensures EdgesOk(d, edges)
  {
  }

  lemma WakeKeeps(c: Ctx, root: seq<Edge>)
    requires c.phase == Sleep && CtxOk(c, root)
    ensures CtxOk(Wake(c), root)
  {
    var d := Wake(c);
    assert Preserves(c, d);
    PreservesKeepsEdges(c, d, root);
    forall r | r in d.heap
      ensures ColorFits(d, r) && d.heap[r].color == White
    {
      assert ColorFits(c, r);
    }
  }

  lemma EndSweepKeeps(c: Ctx, root: seq<Edge>, resetDebt: bool)
    requires c.phase == Sweep && c.back == [] && CtxOk(c, root)
    ensures CtxOk(EndSweep(c, resetDebt), root)
  {
    var d := EndSweep(c, resetDebt);
    assert Preserves(c, d);
    PreservesKeepsEdges(c, d, root);
    forall r | r in d.heap
      ensures ColorFits(d, r)
    {
      assert ColorFits(c, r);
    }
  }

  /** Nothing is gray once both queues are empty. */
  lemma NoGray(c: Ctx, r: Ref)
    requires Queued(c) && c.gray == [] && c.grayAgain == [] && r in c.heap
    ensures c.heap[r].color != Gray
  {
    assert Occurs(c.gray, r) == 0;
  }

  lemma OccursList(c: Ctx, r: Ref)
    requires Listed(c)
    ensures Occurs(c.List(), r) == if r in c.heap then 1 else 0
    ensures r in c.List() <==> r in c.heap
  {
    assert Occurs(c.List(), r) == Occurs(c.front, r) + Occurs(c.back, r);
  }

  /** A marked pointer is good after the switch to sweeping. */
  lemma MarkedIsOk(c: Ctx, e: Edge)
    requires c.phase == Mark && MarkDone(c) && Queued(c) && Colored(c) && MarkedEdge(c, e)
    ensures EdgeOk(StartSweep(c), e)
  {
    NoGray(c, e.to);
    assert ColorFits(c, e.to);
  }

  lemma StartSweepKeeps(c: Ctx, root: seq<Edge>)
    requires c.phase == Mark && MarkDone(c) && CtxOk(c, root)
    ensures CtxOk(StartSweep(c), root)
  {
    var d := StartSweep(c);
    forall r
      ensures Occurs(d.front, r) + Occurs(d.back, r) == if r in d.heap then 1 else 0
      ensures r in d.back <==> r in c.heap
    {
      OccursList(c, r);
    }
    forall r | r in d.heap
      ensures ColorFits(d, r)
    {
      NoGray(c, r);
      assert ColorFits(c, r);
    }
    forall r, e | r in d.heap && Solid(d, r) && e in d.heap[r].edges
      ensures EdgeOk(d, e)
    {
      NoGray(c, r);
      assert MarkedEdges(c, c.heap[r].edges);
      MarkedIsOk(c, e);
    }
    forall e | e in root
      ensures EdgeOk(d, e)
    {
      MarkedIsOk(c, e);
    }
  }

  lemma CursorMoves(c: Ctx)
    requires Listed(c) && c.back != []
    ensures forall q {:trigger Occurs(c.front, q)} ::
              && Occurs(c.back, q) == Occurs(c.back[1..], q) + (if q == c.back[0] then 1 else 0)
              && Occurs(c.front + [c.back[0]], q) == Occurs(c.front, q) + (if q == c.back[0] then 1 else 0)
              && Occurs(c.front, q) + Occurs(c.back, q) == if q in c.heap then 1 else 0
  {
    var r, rest := c.back[0], c.back[1..];
    assert c.back == [r] + rest;
    forall q
      ensures Occurs(c.back, q) == Occurs(rest, q) + if q == r then 1 else 0
      ensures Occurs(c.front + [r], q) == Occurs(c.front, q) + if q == r then 1 else 0
    {
      OccursAppend([r], rest, q);
      OccursAppend(c.front, [r], q);
    }
  }

  /** The box at the cursor is taken away, or moved in front of the cursor. */
  lemma SweepOneMoves(c: Ctx, panics: bool)
    requires c.phase == Sweep && SweepReady(c)
    ensures var d, r := SweepOne(c, panics), c.back[0];
            && d.phase == Sweep && d.back == c.back[1..] && d.past.born == c.past.born
            && (|| (d.front == c.front && d.heap.Keys == c.heap.Keys - {r})
                || (d.front == c.front + [r] && d.heap.Keys == c.heap.Keys))
  {
  }

  lemma SweepOneLists(c: Ctx, panics: bool)
    requires c.phase == Sweep && Listed(c) && SweepReady(c)
    ensures Listed(SweepOne(c, panics))
    ensures c.back[0] !in c.back[1..] && c.back[0] !in c.front
  {
    var r := c.back[0];
    var d := SweepOne(c, panics);
    SweepOneMoves(c, panics);
    CursorMoves(c);
    OccursMember(d.back, r);
    OccursMember(c.front, r);
    forall q
      ensures Occurs(d.front, q) + Occurs(d.back, q) == if q in d.heap then 1 else 0
    {
      assert Occurs(c.front, q) + Occurs(c.back, q) == if q in c.heap then 1 else 0;
    }
  }

  lemma SweepOnePreserves(c: Ctx, panics: bool)
    requires c.phase == Sweep && SweepReady(c) && c.back[0] !in c.back[1..]
    ensures Preserves(c, SweepOne(c, panics))
  {
    var r := c.back[0];
    var d := SweepOne(c, panics);
    assert c.back == [r] + d.back;
    assert forall q :: q in c.back <==> q == r || q in d.back;
  }

  /** Only the box at the cursor changes, and if it is kept it is white. */
  lemma SweepOneBoxes(c: Ctx, panics: bool)
    requires SweepReady(c)
    ensures var d, r := SweepOne(c, panics), c.back[0];
            && (forall q | q in d.heap && q != r :: q in c.heap && d.heap[q] == c.heap[q])
            && (r in d.heap ==>
                  && d.heap[r].color == White
                  && d.heap[r].edges == c.heap[r].edges && d.heap[r].needsTrace == c.heap[r].needsTrace)
  {
  }

  lemma SweepOneColors(c: Ctx, panics: bool)
    requires c.phase == Sweep && SweepReady(c) && Colored(c)
    ensures Colored(SweepOne(c, panics))
  {
    var d := SweepOne(c, panics);
    SweepOneMoves(c, panics);
    SweepOneBoxes(c, panics);
    assert c.back == [c.back[0]] + d.back;
    forall q | q in d.heap
      ensures ColorFits(d, q)
    {
      assert ColorFits(c, q);
    }
  }

  /** There is nothing gray in a sweep. */
  lemma SweepOneQueues(c: Ctx, panics: bool)
    requires c.phase == Sweep && SweepReady(c) && Colored(c) && Queued(c)
    ensures Queued(SweepOne(c, panics))
  {
    var d := SweepOne(c, panics);
    SweepOneBoxes(c, panics);
    assert d.gray == c.gray && d.grayAgain == c.grayAgain;
    forall q
      ensures Occurs(d.gray, q) + Occurs(d.grayAgain, q) == if q in d.heap && d.heap[q].color == Gray then 1 else 0
    {
      assert q in c.heap ==> ColorFits(c, q);
      assert Occurs(c.gray, q) + Occurs(c.grayAgain, q) == 0;
    }
  }

  lemma SweepOneKeeps(c: Ctx, root: seq<Edge>, panics: bool)
    requires c.phase == Sweep && SweepReady(c) && CtxOk(c, root)
    ensures CtxOk(SweepOne(c, panics), root)
  {
    var d := SweepOne(c, panics);
    SweepOneLists(c, panics);
    SweepOneColors(c, panics);
    SweepOneQueues(c, panics);
    SweepOnePreserves(c, panics);
    PreservesKeepsClosed(c, d);
    PreservesKeepsEdges(c, d, root);
  }
}
