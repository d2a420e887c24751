/** The intrusive list of all boxes, and the sweep cursor that allocation races with. */
module Links {
  import opened Types

  function First(xs: seq<Ref>): Option<Ref> {
    if xs == [] then None else Some(xs[0])
  }

  function Last(xs: seq<Ref>): Option<Ref> {
    if xs == [] then None else Some(xs[|xs| - 1])
  }

  function Successor(xs: seq<Ref>, i: nat): Option<Ref> {
    if i + 1 < |xs| then Some(xs[i + 1]) else None
  }

  /** The `next` field of the `i`-th box of `xs` leads to the one after it. */
  predicate LinkedAt(next: map<Ref, Option<Ref>>, xs: seq<Ref>, i: nat)
    requires i < |xs|
  {
    xs[i] in next && next[xs[i]] == Successor(xs, i)
  }

  /** `xs` is what one meets by following the `next` fields from its first box to the end. No box
      comes twice, so there is no cycle. */
  predicate IsChain(next: map<Ref, Option<Ref>>, xs: seq<Ref>) {
    && (forall i {:trigger LinkedAt(next, xs, i)} | 0 <= i < |xs| :: LinkedAt(next, xs, i))
    && (forall i, j {:trigger xs[i], xs[j]} | 0 <= i < j < |xs| :: xs[i] != xs[j])
  }

  /** The list `xs` has all the boxes there are. */
  predicate ListsAll(next: map<Ref, Option<Ref>>, xs: seq<Ref>) {
    IsChain(next, xs) && forall r {:trigger r in next} | r in next :: r in xs
  }

  lemma ChainCons(next: map<Ref, Option<Ref>>, xs: seq<Ref>, r: Ref)
    requires ListsAll(next, xs) && r !in next
    ensures ListsAll(next[r := First(xs)], [r] + xs)
  {
    var ys := [r] + xs;
    forall i | 0 <= i < |ys|
      ensures LinkedAt(next[r := First(xs)], ys, i) && (i > 0 ==> ys[i] != r)
    {
      assert i > 0 ==> LinkedAt(next, xs, i - 1);
    }
  }

  /** Taking the first box off the list. */
  lemma UnlinkFirst(next: map<Ref, Option<Ref>>, xs: seq<Ref>)
    requires ListsAll(next, xs) && xs != []
    ensures xs[0] in next && next[xs[0]] == First(xs[1..])
    ensures ListsAll(next - {xs[0]}, xs[1..])
  {
    assert xs == [xs[0]] + xs[1..];
    assert LinkedAt(next, xs, 0);
    forall i | 0 <= i < |xs[1..]|
      ensures LinkedAt(next - {xs[0]}, xs[1..], i)
    {
      assert LinkedAt(next, xs, i + 1) && xs[i + 1] != xs[0];
    }
  }

  /** Linking the box before `r` to the box after it. */
  lemma UnlinkMiddle(next: map<Ref, Option<Ref>>, front: seq<Ref>, r: Ref, back: seq<Ref>)
    requires ListsAll(next, front + [r] + back) && front != []
    ensures r in next && next[r] == First(back) && front[|front| - 1] in next && front[|front| - 1] != r
    ensures ListsAll(next[front[|front| - 1] := First(back)] - {r}, front + back)
  {
    var xs, ys, k := front + [r] + back, front + back, |front|;
    assert LinkedAt(next, xs, k) && LinkedAt(next, xs, k - 1);
    assert xs[k] == r;
    var after := next[front[k - 1] := First(back)] - {r};
    forall i, j | 0 <= i < j < |ys|
      ensures ys[i] != ys[j]
    {
      var i', j' := if i < k then i else i + 1, if j < k then j else j + 1;
      assert ys[i] == xs[i'] && ys[j] == xs[j'] && i' < j';
    }
    forall i | 0 <= i < |ys|
      ensures LinkedAt(after, ys, i)
    {
      var i' := if i < k then i else i + 1;
      assert LinkedAt(next, xs, i') && ys[i] == xs[i'];
      assert xs[i'] != xs[k];
      if i < k - 1 {
        assert xs[i] != xs[k - 1];
      } else if i > k - 1 {
        assert xs[i'] != xs[k - 1];
      }
    }
  }

  lemma ChainMembers(next: map<Ref, Option<Ref>>, xs: seq<Ref>)
    requires IsChain(next, xs)
    ensures forall r | r in xs :: r in next
  {
    forall i | 0 <= i < |xs|
      ensures xs[i] in next
    {
      assert LinkedAt(next, xs, i);
    }
  }

  // ------------------------------------------------------------------------ the cursor

  /** The `next` fields of all boxes and the three pointers into the list. `front` is the part of the
      list before the cursor and `back` the part from the cursor on. */
  datatype Cursor = Cursor(
    next: map<Ref, Option<Ref>>,
    all: Option<Ref>,
    sweep: Option<Ref>,
    sweepPrev: Option<Ref>,
    sweeping: bool,
    front: seq<Ref>,
    back: seq<Ref>)

  /** The list from `all` has no cycle and holds exactly the allocated boxes, and in a sweep the
      cursor stands between its two parts. */
  predicate ListOk(l: Cursor) {
    && ListsAll(l.next, l.front + l.back)
    && l.all == First(l.front + l.back)
    && l.sweep == First(l.back)
    && (!l.sweeping ==> l.back == [])
  }

  /** `sweepPrev` is the last box before the cursor. */
  predicate CursorOk(l: Cursor) {
    ListOk(l) && l.sweepPrev == if l.sweeping then Last(l.front) else None
  }

  /** A new box goes to the head of the list. If it is the first one before the cursor, it becomes the
      predecessor of the cursor. */
  function LinkHead(l: Cursor, r: Ref): Cursor {
    l.(next := l.next[r := l.all], all := Some(r), front := [r] + l.front,
       sweepPrev := if l.sweeping && l.sweepPrev == None then Some(r) else l.sweepPrev)
  }

  /** The box at the cursor is taken off the list: its predecessor, or else `all`, leads past it. */
  function TakeOut(l: Cursor, r: Ref): Cursor
    requires l.sweep == Some(r) && r in l.next && l.back != []
  {
    l.(next := (if l.sweepPrev.Some? then l.next[l.sweepPrev.value := l.next[r]] else l.next) - {r},
       all := if l.sweepPrev.Some? then l.all else l.next[r],
       sweep := l.next[r],
       back := l.back[1..])
  }

  /** The cursor moves past the box. */
  function StepOver(l: Cursor, r: Ref): Cursor
    requires l.sweep == Some(r) && r in l.next && l.back != []
  {
    l.(sweep := l.next[r], sweepPrev := Some(r), front := l.front + [r], back := l.back[1..])
  }

  function BeginSweep(l: Cursor): Cursor {
    l.(sweeping := true, sweep := l.all, front := [], back := l.front + l.back)
  }

  lemma LinkHeadOk(l: Cursor, r: Ref)
    requires CursorOk(l) && r !in l.next
    ensures CursorOk(LinkHead(l, r))
  {
    ChainCons(l.next, l.front + l.back, r);
    assert ([r] + l.front) + l.back == [r] + (l.front + l.back);
  }

  /** The predecessor of the cursor leads to it, and if there is none the list begins there. */
  lemma CursorIsLinked(l: Cursor)
    requires CursorOk(l) && l.sweeping
    ensures l.sweepPrev == None ==> l.all == l.sweep
    ensures l.sweepPrev.Some? ==> l.sweepPrev.value in l.next && l.next[l.sweepPrev.value] == l.sweep
    ensures l.sweep.Some? ==> l.sweep.value in l.next && l.next[l.sweep.value] == First(l.back[1..])
  {
    var xs, k := l.front + l.back, |l.front|;
    if k > 0 {
      assert LinkedAt(l.next, xs, k - 1);
    } else {
      assert xs == l.back;
    }
    if l.back != [] {
      assert LinkedAt(l.next, xs, k);
    }
  }

  /** Taking out the box at the cursor when it is the first of the list. */
  lemma TakeOutFirst(l: Cursor, r: Ref)
    requires CursorOk(l) && l.sweeping && l.sweep == Some(r) && l.sweepPrev == None
    ensures r in l.next && CursorOk(TakeOut(l, r))
  {
    assert l.front == [];
    assert l.front + l.back == l.back && l.front + l.back[1..] == l.back[1..];
    UnlinkFirst(l.next, l.back);
  }

  /** Taking out the box at the cursor when others come before it. */
  lemma TakeOutMiddle(l: Cursor, r: Ref)
    requires CursorOk(l) && l.sweeping && l.sweep == Some(r) && l.sweepPrev != None
    ensures r in l.next && CursorOk(TakeOut(l, r))
    ensures l.sweepPrev.value in l.next && l.sweepPrev.value != r
  {
    var rest := l.back[1..];
    assert l.front + l.back == l.front + [r] + rest;
    UnlinkMiddle(l.next, l.front, r, rest);
    assert ListsAll(TakeOut(l, r).next, l.front + rest);
    assert First(l.front + l.back) == Some(l.front[0]) == First(l.front + rest);
  }

  lemma TakeOutOk(l: Cursor, r: Ref)
    requires CursorOk(l) && l.sweeping && l.sweep == Some(r)
    ensures r in l.next && CursorOk(TakeOut(l, r))
    ensures l.sweepPrev.Some? ==> l.sweepPrev.value in l.next && l.sweepPrev.value != r
  {
    if l.sweepPrev == None {
      TakeOutFirst(l, r);
    } else {
      TakeOutMiddle(l, r);
    }
  }

  lemma StepOverOk(l: Cursor, r: Ref)
    requires CursorOk(l) && l.sweeping && l.sweep == Some(r)
    ensures r in l.next && CursorOk(StepOver(l, r))
  {
    CursorIsLinked(l);
    assert l.back == [r] + l.back[1..];
    assert (l.front + [r]) + l.back[1..] == l.front + l.back;
  }

  lemma BeginSweepOk(l: Cursor)
    requires CursorOk(l) && !l.sweeping
    ensures CursorOk(BeginSweep(l))
  {
    assert [] + (l.front + l.back) == l.front + l.back;
  }
}
