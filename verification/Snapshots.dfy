/** What the state looks like at every point of every run. */
module Snapshots {
  import opened Types
  import opened Collector
  import opened Invariant
  import opened Sweeping
  import opened Runs
  import opened Safety

  predicate Distinct(xs: seq<Ref>) {
    forall i, j | 0 <= i < j < |xs| :: xs[i] != xs[j]
  }

  lemma OnceIsDistinct(xs: seq<Ref>)
    requires forall r :: Occurs(xs, r) <= 1
    ensures Distinct(xs)
  {
    forall i, j | 0 <= i < j < |xs|
      ensures xs[i] != xs[j]
    {
      assert xs == xs[..i] + [xs[i]] + xs[i + 1..j] + [xs[j]] + xs[j + 1..];
      assert Occurs(xs, xs[i]) <= 1;
    }
  }

  /** The tri-colour condition. While marking, a black box has no white strong child and no weak
      child that is plain white, and neither has the root unless it is to be traced again. */
  lemma MarkingIsTriColored(ws: seq<World>, evs: seq<Event>, i: nat, e: Edge)
    requires IsRun(ws, evs) && ws[0] == INITIAL && i < |ws| && ws[i].cx.phase == Mark
    requires
      || (exists r :: r in ws[i].cx.heap && ws[i].cx.heap[r].color == Black && e in ws[i].cx.heap[r].edges)
      || (!ws[i].cx.rootNeedsTrace && e in ws[i].root)
    ensures e.to in ws[i].cx.heap
    ensures e.Strong? ==> !IsWhite(ws[i].cx.heap[e.to].color)
    ensures e.Weak? ==> ws[i].cx.heap[e.to].color != White
  {
    var c := ws[i].cx;
    InitialOk();
    RunKeeps(ws, evs, i);
    if !(!c.rootNeedsTrace && e in ws[i].root) {
      var r :| r in c.heap && c.heap[r].color == Black && e in c.heap[r].edges;
      assert MarkedEdges(c, c.heap[r].edges);
    }
    assert MarkedEdge(c, e);
  }

  /** The gray queues together hold each gray box once and nothing else; gray boxes are live, and
      there are none outside marking. */
  lemma QueuesHoldTheGray(ws: seq<World>, evs: seq<Event>, i: nat)
    requires IsRun(ws, evs) && ws[0] == INITIAL && i < |ws|
    ensures var c := ws[i].cx; var queue := c.gray + c.grayAgain;
            && Distinct(queue)
            && (forall r :: r in queue <==> r in c.heap && c.heap[r].color == Gray)
            && (forall r | r in queue :: c.heap[r].live)
            && (c.phase != Mark ==> queue == [])
  {
    var c := ws[i].cx;
    var queue := c.gray + c.grayAgain;
    InitialOk();
    RunKeeps(ws, evs, i);
    forall r
      ensures Occurs(queue, r) == if r in c.heap && c.heap[r].color == Gray then 1 else 0
      ensures r in queue <==> r in c.heap && c.heap[r].color == Gray
      ensures r in queue ==> c.heap[r].live && c.phase == Mark
    {
      OccursAppend(c.gray, c.grayAgain, r);
      OccursMember(queue, r);
      if r in c.heap {
        assert ColorFits(c, r);
      }
    }
    OnceIsDistinct(queue);
    if queue != [] {
      assert queue[0] in queue;
    }
  }

  /** The list of all boxes holds each allocated box once. Outside a sweep nothing is left behind
      the cursor; in a sweep everything before the cursor is white, and asleep every box is. */
  lemma ListHoldsTheHeap(ws: seq<World>, evs: seq<Event>, i: nat)
    requires IsRun(ws, evs) && ws[0] == INITIAL && i < |ws|
    ensures var c := ws[i].cx;
            && Distinct(c.front + c.back)
            && (forall r :: r in c.front + c.back <==> r in c.heap)
            && (c.phase != Sweep ==> c.back == [])
            && (c.phase == Sweep ==> forall r | r in c.front :: c.heap[r].color == White)
            && (c.phase == Sleep ==> forall r | r in c.heap :: c.heap[r].color == White)
  {
    var c := ws[i].cx;
    InitialOk();
    RunKeeps(ws, evs, i);
    forall r
      ensures Occurs(c.front + c.back, r) <= 1
      ensures r in c.front + c.back <==> r in c.heap
      ensures c.phase == Sweep && r in c.front ==> c.heap[r].color == White
      ensures c.phase == Sleep && r in c.heap ==> c.heap[r].color == White
    {
      OccursList(c, r);
      OccursMember(c.front, r);
      OccursMember(c.back, r);
      if r in c.heap {
        assert ColorFits(c, r);
      }
    }
    OnceIsDistinct(c.front + c.back);
  }
}
