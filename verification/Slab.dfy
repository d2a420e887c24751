/** The slots of a dynamic root set: a free list threaded through a vector, with reference counts
    that are one less than the number of handles. */
module Slab {
  import opened Types
  import opened Metering
  import opened MetricsCells

  /** `usize::MAX`: no vector of slots is that long. */
  const NULL_INDEX: nat := 0xFFFF_FFFF_FFFF_FFFF

  datatype Slot = Vacant(nextFree: nat) | Occupied(root: Ref, refCount: nat)

  datatype Slots = Slots(slots: seq<Slot>, nextFree: nat)

  const NO_SLOTS := Slots([], NULL_INDEX)

  /** The ways in which the slots panic. */
  datatype Fault = OutOfBounds | FreeListCorrupted | ImproperlyFreed | CountOverflow | CapacityOverflow

  datatype Result<+T> = Ok(value: T) | Err(fault: Fault)

  /** The slots after `add`, and the index of the slot that was taken. */
  function AddSlot(s: Slots, p: Ref): Result<(Slots, nat)> {
    if s.nextFree != NULL_INDEX then
      if s.nextFree >= |s.slots| then Err(OutOfBounds)
      else if s.slots[s.nextFree].Occupied? then Err(FreeListCorrupted)
      else Ok((Slots(s.slots[s.nextFree := Occupied(p, 0)], s.slots[s.nextFree].nextFree), s.nextFree))
    else if |s.slots| >= NULL_INDEX then Err(CapacityOverflow)
    else Ok((s.(slots := s.slots + [Occupied(p, 0)]), |s.slots|))
  }

  function IncSlot(s: Slots, idx: nat): Result<Slots> {
    if idx >= |s.slots| then Err(OutOfBounds)
    else match s.slots[idx]
      case Occupied(root, refCount) =>
        if refCount >= NULL_INDEX then Err(CountOverflow)
        else Ok(s.(slots := s.slots[idx := Occupied(root, refCount + 1)]))
      case Vacant(_) => Err(ImproperlyFreed)
  }

  function DecSlot(s: Slots, idx: nat): Result<Slots> {
    if idx >= |s.slots| then Err(OutOfBounds)
    else match s.slots[idx]
      case Occupied(root, refCount) =>
        if refCount == 0 then Ok(Slots(s.slots[idx := Vacant(s.nextFree)], idx))
        else Ok(s.(slots := s.slots[idx := Occupied(root, refCount - 1)]))
      case Vacant(_) => Err(ImproperlyFreed)
  }

  /** The size of a slot in bytes: an index and a tag, or a pointer and a count, with 64-bit words. */
  const SLOT_SIZE: nat := 16

  /** The vector of slots, as the source updates it. It reports its memory as external. */
  class SlotVec {
    const metrics: Metrics
    var slots: seq<Slot>
    var nextFree: nat
    var capacity: nat

    function View(): Slots
      reads this
    {
      Slots(slots, nextFree)
    }

    ghost predicate Valid()
      reads this
    {
      |slots| <= capacity
    }

    constructor (metrics: Metrics)
      ensures Valid() && View() == NO_SLOTS && capacity == 0 && this.metrics == metrics
    {
      this.metrics := metrics;
      slots := [];
      nextFree := NULL_INDEX;
      capacity := 0;
    }

    /** `Vec::push`. If the vector is full, the allocator gives it room for `room` slots. */
    method Push(slot: Slot, room: nat)
      requires Valid() && room > |slots|
      modifies this`slots, this`capacity
      ensures Valid() && slots == old(slots) + [slot]
      ensures capacity == if |old(slots)| == old(capacity) then room else old(capacity)
    {
      if |slots| == capacity {
        capacity := room;
      }
      slots := slots + [slot];
    }

    method Add(p: Ref, room: nat) returns (r: Result<nat>)
      requires Valid() && room > |slots|
      modifies this, metrics
      ensures Valid() && old(capacity) <= capacity
      ensures metrics.View() == Tune(old(metrics.View()), ExternalAllocation((capacity - old(capacity)) * SLOT_SIZE))
      ensures match AddSlot(old(View()), p)
              case Ok((after, idx)) => r == Ok(idx) && View() == after
              case Err(fault) => r == Err(fault) && View() == old(View()) && capacity == old(capacity)
    {
      if nextFree != NULL_INDEX {
        var idx := nextFree;
        if idx >= |slots| {
          return Err(OutOfBounds);
        }
        match slots[idx] {
          case Vacant(next) => nextFree := next;
          case Occupied(_, _) => return Err(FreeListCorrupted);
        }
        slots := slots[idx := Occupied(p, 0)];
        r := Ok(idx);
      } else {
        var idx := |slots|;
        if idx >= NULL_INDEX {
          return Err(CapacityOverflow);
        }
        var oldCapacity := capacity;
        Push(Occupied(p, 0), room);
        if capacity > oldCapacity {
          metrics.MarkExternalAllocation((capacity - oldCapacity) * SLOT_SIZE);
        }
        r := Ok(idx);
      }
    }

    /** `Drop for Slots`. */
    method Free()
      modifies metrics
      ensures metrics.View() == Tune(old(metrics.View()), ExternalDeallocation(capacity * SLOT_SIZE))
    {
      metrics.MarkExternalDeallocation(capacity * SLOT_SIZE);
    }

    method Inc(idx: nat) returns (r: Result<()>)
      requires Valid()
      modifies this`slots, this`nextFree
      ensures Valid()
      ensures match IncSlot(old(View()), idx)
              case Ok(after) => r == Ok(()) && View() == after
              case Err(fault) => r == Err(fault) && View() == old(View())
    {
      if idx >= |slots| {
        return Err(OutOfBounds);
      }
      match slots[idx] {
        case Occupied(root, refCount) =>
          if refCount >= NULL_INDEX {
            return Err(CountOverflow);
          }
          slots := slots[idx := Occupied(root, refCount + 1)];
          r := Ok(());
        case Vacant(_) => r := Err(ImproperlyFreed);
      }
    }

    method Dec(idx: nat) returns (r: Result<()>)
      requires Valid()
      modifies this`slots, this`nextFree
      ensures Valid()
      ensures match DecSlot(old(View()), idx)
              case Ok(after) => r == Ok(()) && View() == after
              case Err(fault) => r == Err(fault) && View() == old(View())
    {
      if idx >= |slots| {
        return Err(OutOfBounds);
      }
      match slots[idx] {
        case Occupied(root, refCount) =>
          if refCount == 0 {
            slots := slots[idx := Vacant(nextFree)];
            nextFree := idx;
          } else {
            slots := slots[idx := Occupied(root, refCount - 1)];
          }
          r := Ok(());
        case Vacant(_) => r := Err(ImproperlyFreed);
      }
    }
  }

  // ------------------------------------------------------------------------- handles

  /** A handle outside the arena. `stash` tells which call of `stash` it descends from. */
  datatype Handle = Handle(stash: nat, root: Ref, index: nat)

  /** The slots of one set together with all the live handles into it, and what has been stashed in
      it so far. */
  datatype Registry = Registry(slots: Slots, handles: seq<Handle>, stashed: seq<Ref>)

  const NO_HANDLES := Registry(NO_SLOTS, [], [])

  datatype Op = Stash(root: Ref) | Clone(handle: nat) | Release(handle: nat)

  function Without(hs: seq<Handle>, i: nat): seq<Handle>
    requires i < |hs|
  {
    hs[..i] + hs[i + 1..]
  }

  /** What stashing a pointer, or cloning or dropping one of the handles, does. An operation on a
      handle that does not exist cannot happen, and does nothing here. */
  function Apply(g: Registry, op: Op): Result<Registry> {
    match op
    case Stash(p) =>
      (match AddSlot(g.slots, p)
       case Ok((slots, idx)) => Ok(Registry(slots, g.handles + [Handle(|g.stashed|, p, idx)], g.stashed + [p]))
       case Err(fault) => Err(fault))
    case Clone(i) =>
      if i >= |g.handles| then Ok(g)
      else (match IncSlot(g.slots, g.handles[i].index)
            case Ok(slots) => Ok(g.(slots := slots, handles := g.handles + [g.handles[i]]))
            case Err(fault) => Err(fault))
    case Release(i) =>
      if i >= |g.handles| then Ok(g)
      else (match DecSlot(g.slots, g.handles[i].index)
            case Ok(slots) => Ok(g.(slots := slots, handles := Without(g.handles, i)))
            case Err(fault) => Err(fault))
  }

  function ApplyAll(g: Registry, ops: seq<Op>): Result<Registry>
    decreases |ops|
  {
    if ops == [] then Ok(g)
    else match Apply(g, ops[0])
      case Ok(next) => ApplyAll(next, ops[1..])
      case Err(fault) => Err(fault)
  }

  /** The slots of one set together with the handles into it, which the source keeps outside the
      arena. A handle knows its index and no more, so the handles are ghost here. */
  class DynamicRootSet {
    const slots: SlotVec
    ghost var handles: seq<Handle>
    ghost var stashed: seq<Ref>

    ghost function View(): Registry
      reads this, slots
    {
      Registry(slots.View(), handles, stashed)
    }

    constructor (metrics: Metrics)
      ensures View() == NO_HANDLES && fresh(slots) && slots.Valid() && slots.metrics == metrics
    {
      slots := new SlotVec(metrics);
      handles, stashed := [], [];
    }

    /** The second half of `stash`; the barrier comes first. */
    method Stash(p: Ref, room: nat) returns (r: Result<nat>)
      requires slots.Valid() && room > |slots.slots|
      modifies this, slots, slots.metrics
      ensures slots.Valid()
      ensures match Apply(old(View()), Op.Stash(p))
              case Ok(g) => View() == g && r.Ok? && handles == old(handles) + [Handle(|old(stashed)|, p, r.value)]
              case Err(fault) => r == Err(fault) && View() == old(View())
    {
      r := slots.Add(p, room);
      if r.Ok? {
        handles, stashed := handles + [Handle(|stashed|, p, r.value)], stashed + [p];
      }
    }

    /** `DynamicRoot::clone`, while the set is alive. */
    method Clone(ghost i: nat, index: nat) returns (r: Result<()>)
      requires slots.Valid() && i < |handles| && handles[i].index == index
      modifies this, slots
      ensures slots.Valid()
      ensures match Apply(old(View()), Op.Clone(i))
              case Ok(g) => View() == g && r == Ok(())
              case Err(fault) => r == Err(fault) && View() == old(View())
    {
      r := slots.Inc(index);
      if r.Ok? {
        handles := handles + [handles[i]];
      }
    }

    /** The drop of a `DynamicRoot`, while the set is alive. */
    method Release(ghost i: nat, index: nat) returns (r: Result<()>)
      requires slots.Valid() && i < |handles| && handles[i].index == index
      modifies this, slots
      ensures slots.Valid()
      ensures match Apply(old(View()), Op.Release(i))
              case Ok(g) => View() == g && r == Ok(())
              case Err(fault) => r == Err(fault) && View() == old(View())
    {
      r := slots.Dec(index);
      if r.Ok? {
        handles := Without(handles, i);
      }
    }
  }

  // ------------------------------------------------------------------ external memory

  /** What reaches the metrics: the vector grows to a new capacity, or something else is reported. */
  datatype Report = Grows(capacity: nat) | Other(tuning: Tuning)

  /** The capacity of the vector never goes down. */
  predicate Rising(from: nat, reports: seq<Report>)
    decreases |reports|
  {
    reports == []
    || match reports[0]
       case Grows(to) => from <= to && Rising(to, reports[1..])
       case Other(_) => Rising(from, reports[1..])
  }

  /** The meter after all reports, if the vector had `from` slots before. */
  function ReportAll(m: Meter, from: nat, reports: seq<Report>): Meter
    requires Rising(from, reports)
    decreases |reports|
  {
    if reports == [] then m
    else match reports[0]
      case Grows(to) => ReportAll(Tune(m, ExternalAllocation((to - from) * SLOT_SIZE)), to, reports[1..])
      case Other(t) => ReportAll(Tune(m, t), from, reports[1..])
  }

  /** The meter if there were no vector. */
  function Others(m: Meter, reports: seq<Report>): Meter
    decreases |reports|
  {
    if reports == [] then m
    else match reports[0]
      case Grows(_) => Others(m, reports[1..])
      case Other(t) => Others(Tune(m, t), reports[1..])
  }

  /** Nothing else gives back more external memory than it has reported, which the metrics ask of their
      callers. */
  predicate Honest(m: Meter, reports: seq<Report>)
    decreases |reports|
  {
    reports == []
    || match reports[0]
       case Grows(_) => Honest(m, reports[1..])
       case Other(t) => (t.ExternalDeallocation? ==> t.bytes <= m.totalExternal) && Honest(Tune(m, t), reports[1..])
  }

  /** The capacity of the vector in the end. */
  function Final(from: nat, reports: seq<Report>): nat
    decreases |reports|
  {
    if reports == [] then from
    else match reports[0]
      case Grows(to) => Final(to, reports[1..])
      case Other(_) => Final(from, reports[1..])
  }

  function WithExternal(m: Meter, bytes: nat): Meter {
    m.(totalExternal := m.totalExternal + bytes)
  }

  /** The vector's share comes on top of what else is reported. */
  lemma {:induction false} GrowthAdds(m: Meter, from: nat, reports: seq<Report>)
    requires Rising(from, reports) && Honest(m, reports)
    ensures ReportAll(WithExternal(m, from * SLOT_SIZE), from, reports)
         == WithExternal(Others(m, reports), Final(from, reports) * SLOT_SIZE)
    decreases |reports|
  {
    if reports == [] {
    } else {
      match reports[0] {
        case Grows(to) =>
          assert from * SLOT_SIZE + (to - from) * SLOT_SIZE == to * SLOT_SIZE;
          GrowthAdds(m, to, reports[1..]);
        case Other(t) =>
          assert Tune(WithExternal(m, from * SLOT_SIZE), t) == WithExternal(Tune(m, t), from * SLOT_SIZE);
          GrowthAdds(Tune(m, t), from, reports[1..]);
      }
    }
  }

  /** However a vector has grown and whatever else has been reported in between: when it is dropped, the
      metrics are as if it had never been. */
  lemma GrowthIsGivenBack(m: Meter, reports: seq<Report>)
    requires Rising(0, reports) && Honest(m, reports)
    ensures Tune(ReportAll(m, 0, reports), ExternalDeallocation(Final(0, reports) * SLOT_SIZE)) == Others(m, reports)
  {
    assert WithExternal(m, 0) == m;
    GrowthAdds(m, 0, reports);
  }

  // ------------------------------------------------------------------------ invariant

  function Count(hs: seq<Handle>, idx: nat): nat {
    if hs == [] then 0 else (if hs[0].index == idx then 1 else 0) + Count(hs[1..], idx)
  }

  /** What follows the `i`-th index of a free list. */
  function Successor(path: seq<nat>, i: nat): nat {
    if i + 1 < |path| then path[i + 1] else NULL_INDEX
  }

  /** The `i`-th index of the path is that of a vacant slot that leads to the next one. */
  predicate Linked(s: Slots, path: seq<nat>, i: nat)
    requires i < |path|
  {
    path[i] < |s.slots| && s.slots[path[i]] == Vacant(Successor(path, i))
  }

  /** `path` is the free list: it starts at `nextFree`, ends with the null index, has no cycle, and
      visits exactly the vacant slots. */
  predicate FreeList(s: Slots, path: seq<nat>) {
    && s.nextFree == (if path == [] then NULL_INDEX else path[0])
    && (forall i {:trigger Linked(s, path, i)} | 0 <= i < |path| :: Linked(s, path, i))
    && (forall i, j {:trigger path[i], path[j]} | 0 <= i < j < |path| :: path[i] != path[j])
    && (forall k {:trigger s.slots[k]} | 0 <= k < |s.slots| && s.slots[k].Vacant? :: k in path)
  }

  /** The handle refers to an occupied slot, and both hold the pointer that was stashed. */
  predicate HandleOk(g: Registry, h: Handle) {
    && h.index < |g.slots.slots|
    && g.slots.slots[h.index].Occupied?
    && g.slots.slots[h.index].root == h.root
    && h.stash < |g.stashed| && g.stashed[h.stash] == h.root
  }

  ghost predicate RegistryOk(g: Registry, path: seq<nat>) {
    && |g.slots.slots| <= NULL_INDEX
    && FreeList(g.slots, path)
    && (forall h {:trigger h in g.handles} | h in g.handles :: HandleOk(g, h))
    && (forall k {:trigger Count(g.handles, k)} | 0 <= k < |g.slots.slots| && g.slots.slots[k].Occupied? ::
          g.slots.slots[k].refCount + 1 == Count(g.handles, k))
    && (forall h, k {:trigger h in g.handles, k in g.handles} | h in g.handles && k in g.handles ::
          h.index == k.index <==> h.stash == k.stash)
  }

  /** The slots and the handles agree. */
  ghost predicate SlabOk(g: Registry) {
    exists path :: RegistryOk(g, path)
  }

  /** There is no slot to give out. */
  predicate NoRoom(s: Slots) {
    |s.slots| == NULL_INDEX && forall k | 0 <= k < |s.slots| :: s.slots[k].Occupied?
  }

  /** A number has run out: there are as many slots as there can be, and all are taken, or there are as
      many handles to one slot as can be counted. */
  predicate RunsOut(g: Registry, op: Op) {
    match op
    case Stash(_) => NoRoom(g.slots)
    case Clone(i) => i < |g.handles| && Count(g.handles, g.handles[i].index) > NULL_INDEX
    case Release(_) => false
  }

  /** A number runs out in one of the operations. */
  predicate RunsOutIn(g: Registry, ops: seq<Op>)
    decreases |ops|
  {
    ops != [] && (RunsOut(g, ops[0]) || (Apply(g, ops[0]).Ok? && RunsOutIn(Apply(g, ops[0]).value, ops[1..])))
  }

  lemma {:induction false} CountConcat(hs: seq<Handle>, ks: seq<Handle>, idx: nat)
    ensures Count(hs + ks, idx) == Count(hs, idx) + Count(ks, idx)
  {
    if hs == [] {
      assert hs + ks == ks;
    } else {
      assert (hs + ks)[1..] == hs[1..] + ks;
      CountConcat(hs[1..], ks, idx);
    }
  }

  lemma CountSnoc(hs: seq<Handle>, h: Handle, idx: nat)
    ensures Count(hs + [h], idx) == Count(hs, idx) + if h.index == idx then 1 else 0
  {
    CountConcat(hs, [h], idx);
    assert [h][1..] == [];
  }

  lemma CountWithout(hs: seq<Handle>, i: nat, idx: nat)
    requires i < |hs|
    ensures Count(hs, idx) == Count(Without(hs, i), idx) + if hs[i].index == idx then 1 else 0
  {
    assert hs == hs[..i] + [hs[i]] + hs[i + 1..];
    CountConcat(hs[..i] + [hs[i]], hs[i + 1..], idx);
    CountSnoc(hs[..i], hs[i], idx);
    CountConcat(hs[..i], hs[i + 1..], idx);
  }

  lemma {:induction false} CountedMember(hs: seq<Handle>, idx: nat)
    ensures Count(hs, idx) > 0 <==> exists h :: h in hs && h.index == idx
  {
    if hs == [] {
    } else {
      CountedMember(hs[1..], idx);
      assert hs == [hs[0]] + hs[1..];
    }
  }

  /** No handle refers to a vacant slot or past the end. */
  lemma UnusedSlot(g: Registry, path: seq<nat>, idx: nat)
    requires RegistryOk(g, path)
    requires idx >= |g.slots.slots| || g.slots.slots[idx].Vacant?
    ensures Count(g.handles, idx) == 0
    ensures forall h | h in g.handles :: h.index != idx
  {
    CountedMember(g.handles, idx);
  }

  lemma StashOk(g: Registry, path: seq<nat>, p: Ref) returns (path': seq<nat>)
    requires RegistryOk(g, path)
    ensures match Apply(g, Stash(p))
            case Ok(next) => RegistryOk(next, path') && !NoRoom(g.slots)
            case Err(fault) => fault == CapacityOverflow && NoRoom(g.slots)
  {
    path' := if path == [] then [] else path[1..];
    AddFreeList(g.slots, path, p);
    assert path != [] ==> Linked(g.slots, path, 0);
    if AddSlot(g.slots, p).Ok? {
      var (slots, idx) := AddSlot(g.slots, p).value;
      var next := Apply(g, Stash(p)).value;
      UnusedSlot(g, path, idx);
      forall k | 0 <= k < |slots.slots| && slots.slots[k].Occupied?
        ensures slots.slots[k].refCount + 1 == Count(next.handles, k)
      {
        CountSnoc(g.handles, Handle(|g.stashed|, p, idx), k);
      }
      forall h | h in next.handles
        ensures HandleOk(next, h)
      {
        assert h in g.handles ==> HandleOk(g, h);
      }
    }
  }

  lemma AddFreeList(s: Slots, path: seq<nat>, p: Ref)
    requires FreeList(s, path) && |s.slots| <= NULL_INDEX
    ensures AddSlot(s, p).Err? ==> AddSlot(s, p).fault == CapacityOverflow
    ensures AddSlot(s, p).Ok? ==> FreeList(AddSlot(s, p).value.0, if path == [] then [] else path[1..])
  {
    if path != [] {
      var rest := path[1..];
      assert Linked(s, path, 0);
      var t := AddSlot(s, p).value.0;
      assert path == [path[0]] + rest;
      forall i | 0 <= i < |rest|
        ensures Linked(t, rest, i)
      {
        assert Linked(s, path, i + 1) && path[i + 1] != path[0];
      }
    }
  }

  lemma CloneOk(g: Registry, path: seq<nat>, i: nat)
    requires RegistryOk(g, path) && i < |g.handles|
    ensures match Apply(g, Clone(i))
            case Ok(next) => RegistryOk(next, path) && !RunsOut(g, Clone(i))
            case Err(fault) => fault == CountOverflow && RunsOut(g, Clone(i))
  {
    var h := g.handles[i];
    assert h in g.handles && HandleOk(g, h);
    assert g.slots.slots[h.index].refCount + 1 == Count(g.handles, h.index);
    if IncSlot(g.slots, h.index).Ok? {
      var next := Apply(g, Clone(i)).value;
      forall j | 0 <= j < |path|
        ensures Linked(next.slots, path, j)
      {
        assert Linked(g.slots, path, j);
      }
      forall k | 0 <= k < |next.slots.slots| && next.slots.slots[k].Occupied?
        ensures next.slots.slots[k].refCount + 1 == Count(next.handles, k)
      {
        CountSnoc(g.handles, h, k);
        assert g.slots.slots[k].refCount + 1 == Count(g.handles, k);
      }
      forall x | x in next.handles
        ensures x in g.handles && HandleOk(next, x)
      {
        assert HandleOk(g, x);
      }
    }
  }

  lemma WithoutMembers(hs: seq<Handle>, i: nat)
    requires i < |hs|
    ensures forall h | h in Without(hs, i) :: h in hs
  {
  }

  lemma ReleaseOk(g: Registry, path: seq<nat>, i: nat) returns (path': seq<nat>)
    requires RegistryOk(g, path) && i < |g.handles|
    ensures match Apply(g, Release(i))
            case Ok(next) => RegistryOk(next, path')
            case Err(_) => false
  {
    var h := g.handles[i];
    assert h in g.handles && HandleOk(g, h);
    var next := Apply(g, Release(i)).value;
    var freed := g.slots.slots[h.index].refCount == 0;
    path' := if freed then [h.index] + path else path;
    WithoutMembers(g.handles, i);
    forall k
      ensures Count(g.handles, k) == Count(next.handles, k) + if h.index == k then 1 else 0
    {
      CountWithout(g.handles, i, k);
    }
    forall x | x in next.handles
      ensures HandleOk(next, x)
    {
      assert HandleOk(g, x);
      if freed && x.index == h.index {
        CountedMember(next.handles, h.index);
        assert false;
      }
    }
    forall k | 0 <= k < |next.slots.slots| && next.slots.slots[k].Occupied?
      ensures next.slots.slots[k].refCount + 1 == Count(next.handles, k)
    {
      assert g.slots.slots[k].refCount + 1 == Count(g.handles, k);
    }
    DecFreeList(g.slots, path, h.index);
  }

  lemma DecFreeList(s: Slots, path: seq<nat>, idx: nat)
    requires FreeList(s, path) && idx < |s.slots| && s.slots[idx].Occupied?
    ensures FreeList(DecSlot(s, idx).value, if s.slots[idx].refCount == 0 then [idx] + path else path)
  {
    var t := DecSlot(s, idx).value;
    if s.slots[idx].refCount == 0 {
      var longer := [idx] + path;
      forall i | 0 <= i < |longer|
        ensures Linked(t, longer, i)
      {
        assert i > 0 ==> Linked(s, path, i - 1);
      }
      forall k | 0 <= k < |t.slots| && t.slots[k].Vacant?
        ensures k in longer
      {
        assert k == idx || s.slots[k].Vacant?;
      }
      forall i, j | 0 <= i < j < |longer|
        ensures longer[i] != longer[j]
      {
        assert Linked(s, path, j - 1);
      }
    } else {
      forall i | 0 <= i < |path|
        ensures Linked(t, path, i)
      {
        assert Linked(s, path, i);
      }
    }
  }

  /** Under any sequence of stashing, cloning and dropping of handles, the free list stays sound, each
      count is one less than the number of handles to its slot, handles share a slot just when they
      descend from one stash, and the slots panic if and only if a number runs out. */
  lemma {:induction false} SlabIsSound(g: Registry, ops: seq<Op>)
    requires SlabOk(g)
    ensures match ApplyAll(g, ops)
            case Ok(next) => SlabOk(next) && !RunsOutIn(g, ops)
            case Err(fault) => (fault == CountOverflow || fault == CapacityOverflow) && RunsOutIn(g, ops)
    decreases |ops|
  {
    if ops == [] {
    } else {
      ApplyOk(g, ops[0]);
      if Apply(g, ops[0]).Ok? {
        SlabIsSound(Apply(g, ops[0]).value, ops[1..]);
      }
    }
  }

  /** One operation keeps the slab sound, and panics if and only if a number runs out. */
  lemma ApplyOk(g: Registry, op: Op)
    requires SlabOk(g)
    ensures Apply(g, op).Err? <==> RunsOut(g, op)
    ensures match Apply(g, op)
            case Ok(next) => SlabOk(next)
            case Err(fault) => fault == if op.Clone? then CountOverflow else CapacityOverflow
  {
    var path :| RegistryOk(g, path);
    match op {
      case Stash(p) => var _ := StashOk(g, path, p);
      case Clone(i) =>
        if i < |g.handles| {
          CloneOk(g, path, i);
        }
      case Release(i) =>
        if i < |g.handles| {
          var _ := ReleaseOk(g, path, i);
        }
    }
  }

  lemma NewSlabIsSound(ops: seq<Op>)
    ensures match ApplyAll(NO_HANDLES, ops)
            case Ok(next) => SlabOk(next) && !RunsOutIn(NO_HANDLES, ops)
            case Err(fault) => (fault == CountOverflow || fault == CapacityOverflow) && RunsOutIn(NO_HANDLES, ops)
  {
    assert RegistryOk(NO_HANDLES, []);
    SlabIsSound(NO_HANDLES, ops);
  }
}
