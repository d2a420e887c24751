/** Sums over lists of boxes. */
module Gauges {
  import opened Types
  import opened Invariant

  datatype Gauge =
    | Boxes | Bytes | LiveBytes | MarkedBoxes | MarkedBytes | BlackBoxes | BlackBytes | TracedBoxes | TracedBytes | Work

  function Reading(g: Gauge, b: Box): nat {
    match g
    case Boxes => 1
    case Bytes => b.size
    case LiveBytes => if b.live then b.size else 0
    case MarkedBoxes => if b.color == White then 0 else 1
    case MarkedBytes => if b.color == White then 0 else b.size
    case BlackBoxes => if b.color == Black then 1 else 0
    case BlackBytes => if b.color == Black then b.size else 0
    case TracedBoxes => if b.color == Black && b.needsTrace then 1 else 0
    case TracedBytes => if b.color == Black && b.needsTrace then b.size else 0
    case Work => if IsWhite(b.color) then 2 else if b.color == Gray then 1 else 0
  }

  function ReadingAt(g: Gauge, heap: map<Ref, Box>, r: Ref): nat {
    if r in heap then Reading(g, heap[r]) else 0
  }

  function Weigh(g: Gauge, heap: map<Ref, Box>, xs: seq<Ref>): nat {
    if xs == [] then 0 else ReadingAt(g, heap, xs[0]) + Weigh(g, heap, xs[1..])
  }

  lemma {:induction false} WeighConcat(g: Gauge, heap: map<Ref, Box>, xs: seq<Ref>, ys: seq<Ref>)
    ensures Weigh(g, heap, xs + ys) == Weigh(g, heap, xs) + Weigh(g, heap, ys)
  {
    if xs == [] {
      assert xs + ys == ys;
    } else {
      assert (xs + ys)[1..] == xs[1..] + ys;
      WeighConcat(g, heap, xs[1..], ys);
    }
  }

  /** Heaps that read no more, box by box, weigh no more. */
  lemma {:induction false} WeighMonotone(g: Gauge, low: map<Ref, Box>, high: map<Ref, Box>, xs: seq<Ref>)
    requires forall r | r in xs :: ReadingAt(g, low, r) <= ReadingAt(g, high, r)
    ensures Weigh(g, low, xs) <= Weigh(g, high, xs)
  {
    if xs == [] {
    } else {
      WeighMonotone(g, low, high, xs[1..]);
    }
  }

  lemma WeighSame(g: Gauge, h: map<Ref, Box>, k: map<Ref, Box>, xs: seq<Ref>)
    requires forall r | r in xs :: ReadingAt(g, h, r) == ReadingAt(g, k, r)
    ensures Weigh(g, h, xs) == Weigh(g, k, xs)
  {
    WeighMonotone(g, h, k, xs);
    WeighMonotone(g, k, h, xs);
  }

  /** Changing one box that is listed once changes the sum by the change in its reading. */
  lemma {:induction false} WeighUpdate(g: Gauge, heap: map<Ref, Box>, xs: seq<Ref>, r: Ref, b: Box)
    requires Occurs(xs, r) == 1
    ensures Weigh(g, heap[r := b], xs) == Weigh(g, heap, xs) - ReadingAt(g, heap, r) + Reading(g, b)
  {
    assert xs == [xs[0]] + xs[1..];
    if xs[0] == r {
      OccursMember(xs[1..], r);
      WeighSame(g, heap, heap[r := b], xs[1..]);
    } else {
      WeighUpdate(g, heap, xs[1..], r, b);
    }
  }
}
