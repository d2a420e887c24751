/** What `Collect::trace` reports for the provided types, and what `NEEDS_TRACE` promises. */
module Tracing {
  import opened Types

  /** The types built from `Gc`, `GcWeak` and static leaves. `ArrayTy` stands for `[T; N]`, `SeqTy`
      for slices, `Vec`, `VecDeque`, `LinkedList`, `BinaryHeap` and the sets, `MapTy` for the two maps, `BoxTy` for
      `Box`, `Rc` and `Arc`, `LockTy` for `Lock` and `RefLock`, and `StaticTy` for everything that
      holds only `'static` data, such as `Cell` and `RefCell`. */
  datatype Ty =
    | GcTy
    | WeakTy
    | StaticTy
    | SeqTy(elem: Ty)
    | ArrayTy(elem: Ty, length: nat)
    | OptionTy(some: Ty)
    | ResultTy(ok: Ty, err: Ty)
    | MapTy(key: Ty, value: Ty)
    | TupleTy(fields: seq<Ty>)
    | BoxTy(inner: Ty)
    | LockTy(inner: Ty)

  datatype Entry = Entry(key: Val, value: Val)

  datatype Val =
    | GcVal(to: Ref)
    | WeakVal(to: Ref)
    | StaticVal
    | SeqVal(items: seq<Val>)
    | NoneVal
    | SomeVal(some: Val)
    | OkVal(ok: Val)
    | ErrVal(err: Val)
    | MapVal(entries: seq<Entry>)
    | TupleVal(fields: seq<Val>)
    | BoxVal(inner: Val)
    | LockVal(inner: Val)

  predicate HasType(v: Val, t: Ty)
    decreases v
  {
    match t
    case GcTy => v.GcVal?
    case WeakTy => v.WeakVal?
    case StaticTy => v.StaticVal?
    case SeqTy(elem) => v.SeqVal? && forall i | 0 <= i < |v.items| :: HasType(v.items[i], elem)
    case ArrayTy(elem, length) =>
      v.SeqVal? && |v.items| == length && forall i | 0 <= i < |v.items| :: HasType(v.items[i], elem)
    case OptionTy(some) => v.NoneVal? || (v.SomeVal? && HasType(v.some, some))
    case ResultTy(ok, err) => (v.OkVal? && HasType(v.ok, ok)) || (v.ErrVal? && HasType(v.err, err))
    case MapTy(key, value) =>
      && v.MapVal?
      && forall i | 0 <= i < |v.entries| :: HasType(v.entries[i].key, key) && HasType(v.entries[i].value, value)
    case TupleTy(fields) =>
      v.TupleVal? && |v.fields| == |fields| && forall i | 0 <= i < |fields| :: HasType(v.fields[i], fields[i])
    case BoxTy(inner) => v.BoxVal? && HasType(v.inner, inner)
    case LockTy(inner) => v.LockVal? && HasType(v.inner, inner)
  }

  /** The constant `NEEDS_TRACE` of each type. */
  predicate NeedsTrace(t: Ty) {
    match t
    case GcTy => true
    case WeakTy => true
    case StaticTy => false
    case SeqTy(elem) => NeedsTrace(elem)
    case ArrayTy(elem, _) => NeedsTrace(elem)
    case OptionTy(some) => NeedsTrace(some)
    case ResultTy(ok, err) => NeedsTrace(ok) || NeedsTrace(err)
    case MapTy(key, value) => NeedsTrace(key) || NeedsTrace(value)
    case TupleTy(fields) => exists i :: 0 <= i < |fields| && NeedsTrace(fields[i])
    case BoxTy(inner) => NeedsTrace(inner)
    case LockTy(inner) => NeedsTrace(inner)
  }

  /** The pointers directly held by a value: all its `Gc` and `GcWeak` leaves, from left to right. */
  function Pointers(v: Val): seq<Edge>
    decreases v
  {
    match v
    case GcVal(r) => [Strong(r)]
    case WeakVal(r) => [Weak(r)]
    case StaticVal => []
    case SeqVal(items) => AllPointers(items)
    case NoneVal => []
    case SomeVal(some) => Pointers(some)
    case OkVal(ok) => Pointers(ok)
    case ErrVal(err) => Pointers(err)
    case MapVal(entries) => EntryPointers(entries)
    case TupleVal(fields) => AllPointers(fields)
    case BoxVal(inner) => Pointers(inner)
    case LockVal(inner) => Pointers(inner)
  }

  function AllPointers(vs: seq<Val>): seq<Edge>
    decreases vs
  {
    if vs == [] then [] else AllPointers(vs[..|vs| - 1]) + Pointers(vs[|vs| - 1])
  }

  function EntryPointers(es: seq<Entry>): seq<Edge>
    decreases es
  {
    if es == [] then []
    else EntryPointers(es[..|es| - 1]) + BothPointers(es[|es| - 1])
  }

  function BothPointers(e: Entry): seq<Edge>
    decreases e
  {
    Pointers(e.key) + Pointers(e.value)
  }

  // ----------------------------------------------------------------------- what is held

  /** The pointer is somewhere in the value. */
  predicate Holds(v: Val, e: Edge)
    decreases v
  {
    match v
    case GcVal(r) => e == Strong(r)
    case WeakVal(r) => e == Weak(r)
    case StaticVal => false
    case SeqVal(items) => exists i :: 0 <= i < |items| && Holds(items[i], e)
    case NoneVal => false
    case SomeVal(some) => Holds(some, e)
    case OkVal(ok) => Holds(ok, e)
    case ErrVal(err) => Holds(err, e)
    case MapVal(entries) =>
      exists i :: 0 <= i < |entries| && (Holds(entries[i].key, e) || Holds(entries[i].value, e))
    case TupleVal(fields) => exists i :: 0 <= i < |fields| && Holds(fields[i], e)
    case BoxVal(inner) => Holds(inner, e)
    case LockVal(inner) => Holds(inner, e)
  }

  /** The number of pointers in the value. */
  function Leaves(v: Val): nat
    decreases v
  {
    match v
    case GcVal(_) => 1
    case WeakVal(_) => 1
    case StaticVal => 0
    case SeqVal(items) => AllLeaves(items)
    case NoneVal => 0
    case SomeVal(some) => Leaves(some)
    case OkVal(ok) => Leaves(ok)
    case ErrVal(err) => Leaves(err)
    case MapVal(entries) => EntryLeaves(entries)
    case TupleVal(fields) => AllLeaves(fields)
    case BoxVal(inner) => Leaves(inner)
    case LockVal(inner) => Leaves(inner)
  }

  function AllLeaves(vs: seq<Val>): nat
    decreases vs
  {
    if vs == [] then 0 else Leaves(vs[0]) + AllLeaves(vs[1..])
  }

  function EntryLeaves(es: seq<Entry>): nat
    decreases es
  {
    if es == [] then 0 else BothLeaves(es[0]) + EntryLeaves(es[1..])
  }

  function BothLeaves(e: Entry): nat
    decreases e
  {
    Leaves(e.key) + Leaves(e.value)
  }

  lemma {:induction false} AllLeavesSnoc(vs: seq<Val>, v: Val)
    ensures AllLeaves(vs + [v]) == AllLeaves(vs) + Leaves(v)
  {
    if vs == [] {
      assert [v][1..] == [];
    } else {
      assert (vs + [v])[1..] == vs[1..] + [v];
      AllLeavesSnoc(vs[1..], v);
    }
  }

  lemma {:induction false} EntryLeavesSnoc(es: seq<Entry>, e: Entry)
    ensures EntryLeaves(es + [e]) == EntryLeaves(es) + BothLeaves(e)
  {
    if es == [] {
      assert [e][1..] == [];
    } else {
      assert (es + [e])[1..] == es[1..] + [e];
      EntryLeavesSnoc(es[1..], e);
    }
  }

  lemma {:induction false} PointersOfAll(vs: seq<Val>, e: Edge)
    ensures e in AllPointers(vs) <==> exists i :: 0 <= i < |vs| && Holds(vs[i], e)
    ensures |AllPointers(vs)| == AllLeaves(vs)
    decreases vs, 0
  {
    if vs == [] {
    } else {
      var init, last := vs[..|vs| - 1], vs[|vs| - 1];
      PointersOfAll(init, e);
      PointersAreHeld(last, e);
      assert vs == init + [last];
      AllLeavesSnoc(init, last);
      assert forall i | 0 <= i < |init| :: vs[i] == init[i];
    }
  }

  lemma {:induction false} PointersOfEntries(es: seq<Entry>, e: Edge)
    ensures e in EntryPointers(es)
       <==> exists i :: 0 <= i < |es| && (Holds(es[i].key, e) || Holds(es[i].value, e))
    ensures |EntryPointers(es)| == EntryLeaves(es)
    decreases es, 0
  {
    if es == [] {
    } else {
      var init, last := es[..|es| - 1], es[|es| - 1];
      PointersOfEntries(init, e);
      PointersOfBoth(last, e);
      assert es == init + [last];
      EntryLeavesSnoc(init, last);
      assert forall i | 0 <= i < |init| :: es[i] == init[i];
    }
  }

  lemma PointersOfBoth(entry: Entry, e: Edge)
    ensures e in BothPointers(entry) <==> Holds(entry.key, e) || Holds(entry.value, e)
    ensures |BothPointers(entry)| == BothLeaves(entry)
    decreases entry, 0
  {
    PointersAreHeld(entry.key, e);
    PointersAreHeld(entry.value, e);
  }

  /** The pointers listed for a value are just those that are in it, and as many as there are. */
  lemma {:induction false} PointersAreHeld(v: Val, e: Edge)
    ensures e in Pointers(v) <==> Holds(v, e)
    ensures |Pointers(v)| == Leaves(v)
    decreases v, 1
  {
    match v {
      case GcVal(_) =>
      case WeakVal(_) =>
      case StaticVal =>
      case SeqVal(items) => PointersOfAll(items, e);
      case NoneVal =>
      case SomeVal(some) => PointersAreHeld(some, e);
      case OkVal(ok) => PointersAreHeld(ok, e);
      case ErrVal(err) => PointersAreHeld(err, e);
      case MapVal(entries) => PointersOfEntries(entries, e);
      case TupleVal(fields) => PointersOfAll(fields, e);
      case BoxVal(inner) => PointersAreHeld(inner, e);
      case LockVal(inner) => PointersAreHeld(inner, e);
    }
  }

  /** What has been added to `before` is what is in the value. */
  ghost predicate Reports(before: seq<Edge>, after: seq<Edge>, v: Val) {
    && before <= after
    && (forall e {:trigger Holds(v, e)} :: e in after[|before|..] <==> Holds(v, e))
    && |after| == |before| + Leaves(v)
  }

  lemma PointersAreReports(before: seq<Edge>, v: Val)
    ensures Reports(before, before + Pointers(v), v)
  {
    assert (before + Pointers(v))[|before|..] == Pointers(v);
    forall e
      ensures e in Pointers(v) <==> Holds(v, e)
    {
      PointersAreHeld(v, e);
    }
    PointersAreHeld(v, Strong(0));
  }

  // ---------------------------------------------------------------------- NEEDS_TRACE

  /** The type has a pointer in it that is not inside an array of length zero. */
  predicate HoldsLeaf(t: Ty) {
    match t
    case GcTy => true
    case WeakTy => true
    case StaticTy => false
    case SeqTy(elem) => HoldsLeaf(elem)
    case ArrayTy(elem, length) => length > 0 && HoldsLeaf(elem)
    case OptionTy(some) => HoldsLeaf(some)
    case ResultTy(ok, err) => HoldsLeaf(ok) || HoldsLeaf(err)
    case MapTy(key, value) => HoldsLeaf(key) || HoldsLeaf(value)
    case TupleTy(fields) => exists i :: 0 <= i < |fields| && HoldsLeaf(fields[i])
    case BoxTy(inner) => HoldsLeaf(inner)
    case LockTy(inner) => HoldsLeaf(inner)
  }

  lemma {:induction false} LeafNeedsTrace(t: Ty)
    requires HoldsLeaf(t)
    ensures NeedsTrace(t)
  {
    match t {
      case GcTy =>
      case WeakTy =>
      case SeqTy(elem) => LeafNeedsTrace(elem);
      case ArrayTy(elem, _) => LeafNeedsTrace(elem);
      case OptionTy(some) => LeafNeedsTrace(some);
      case ResultTy(ok, err) => LeafNeedsTrace(if HoldsLeaf(ok) then ok else err);
      case MapTy(key, value) => LeafNeedsTrace(if HoldsLeaf(key) then key else value);
      case TupleTy(fields) =>
        var i :| 0 <= i < |fields| && HoldsLeaf(fields[i]);
        LeafNeedsTrace(fields[i]);
      case BoxTy(inner) => LeafNeedsTrace(inner);
      case LockTy(inner) => LeafNeedsTrace(inner);
    }
  }

  lemma NoLeafNoPointersInAll(vs: seq<Val>, elem: Ty)
    requires forall i | 0 <= i < |vs| :: HasType(vs[i], elem)
    requires !HoldsLeaf(elem)
    ensures AllPointers(vs) == []
    decreases vs, 0
  {
    forall i | 0 <= i < |vs|
      ensures Pointers(vs[i]) == []
    {
      NoLeafNoPointers(vs[i], elem);
    }
    NoneHavePointers(vs);
  }

  /** A value holds no pointer if its type has none but inside arrays of length zero. */
  lemma {:induction false} NoLeafNoPointers(v: Val, t: Ty)
    requires HasType(v, t) && !HoldsLeaf(t)
    ensures Pointers(v) == []
    decreases v, 1
  {
    match t {
      case StaticTy =>
      case SeqTy(elem) => NoLeafNoPointersInAll(v.items, elem);
      case ArrayTy(elem, length) =>
        if length > 0 {
          NoLeafNoPointersInAll(v.items, elem);
        }
      case OptionTy(some) =>
        if v.SomeVal? {
          NoLeafNoPointers(v.some, some);
        }
      case ResultTy(ok, err) =>
        if v.OkVal? {
          NoLeafNoPointers(v.ok, ok);
        } else {
          NoLeafNoPointers(v.err, err);
        }
      case MapTy(key, value) =>
        forall i | 0 <= i < |v.entries|
          ensures Pointers(v.entries[i].key) == [] && Pointers(v.entries[i].value) == []
        {
          NoLeafNoPointers(v.entries[i].key, key);
          NoLeafNoPointers(v.entries[i].value, value);
        }
        NoEntriesHavePointers(v.entries);
      case TupleTy(fields) =>
        forall i | 0 <= i < |v.fields|
          ensures Pointers(v.fields[i]) == []
        {
          NoLeafNoPointers(v.fields[i], fields[i]);
        }
        NoneHavePointers(v.fields);
      case BoxTy(inner) => NoLeafNoPointers(v.inner, inner);
      case LockTy(inner) => NoLeafNoPointers(v.inner, inner);
    }
  }

  /** A value of a type that does not need tracing holds no pointer. */
  lemma NoTraceNoPointers(v: Val, t: Ty)
    requires HasType(v, t) && !NeedsTrace(t)
    ensures Pointers(v) == []
  {
    if HoldsLeaf(t) {
      LeafNeedsTrace(t);
      assert false;
    }
    NoLeafNoPointers(v, t);
  }

  lemma {:induction false} NoneHavePointers(vs: seq<Val>)
    requires forall i | 0 <= i < |vs| :: Pointers(vs[i]) == []
    ensures AllPointers(vs) == []
  {
    if vs == [] {
    } else {
      NoneHavePointers(vs[..|vs| - 1]);
    }
  }

  lemma {:induction false} NoEntriesHavePointers(es: seq<Entry>)
    requires forall i | 0 <= i < |es| :: Pointers(es[i].key) == [] && Pointers(es[i].value) == []
    ensures EntryPointers(es) == []
  {
    if es == [] {
    } else {
      NoEntriesHavePointers(es[..|es| - 1]);
    }
  }

  /** A value of the type, with a pointer in it if there is any such value. */
  function Sample(t: Ty): (v: Val)
    ensures HasType(v, t)
  {
    match t
    case GcTy => GcVal(0)
    case WeakTy => WeakVal(0)
    case StaticTy => StaticVal
    case SeqTy(elem) => SeqVal([Sample(elem)])
    case ArrayTy(elem, length) => SeqVal(seq(length, _ => Sample(elem)))
    case OptionTy(some) => SomeVal(Sample(some))
    case ResultTy(ok, err) => if HoldsLeaf(ok) then OkVal(Sample(ok)) else ErrVal(Sample(err))
    case MapTy(key, value) => MapVal([Entry(Sample(key), Sample(value))])
    case TupleTy(fields) => TupleVal(seq(|fields|, i requires 0 <= i < |fields| => Sample(fields[i])))
    case BoxTy(inner) => BoxVal(Sample(inner))
    case LockTy(inner) => LockVal(Sample(inner))
  }

  lemma {:induction false} AllPointersCovers(vs: seq<Val>, i: nat)
    requires i < |vs| && Pointers(vs[i]) != []
    ensures AllPointers(vs) != []
  {
    if i < |vs| - 1 {
      AllPointersCovers(vs[..|vs| - 1], i);
    }
  }

  lemma {:induction false} SampleHasPointers(t: Ty)
    requires HoldsLeaf(t)
    ensures Pointers(Sample(t)) != []
  {
    match t {
      case GcTy =>
      case WeakTy =>
      case SeqTy(elem) =>
        SampleHasPointers(elem);
        AllPointersCovers([Sample(elem)], 0);
      case ArrayTy(elem, length) =>
        SampleHasPointers(elem);
        AllPointersCovers(Sample(t).items, 0);
      case OptionTy(some) => SampleHasPointers(some);
      case ResultTy(ok, err) => SampleHasPointers(if HoldsLeaf(ok) then ok else err);
      case MapTy(key, value) =>
        SampleHasPointers(if HoldsLeaf(key) then key else value);
        var e := Entry(Sample(key), Sample(value));
        assert [e][..0] == [];
        assert EntryPointers([e]) == EntryPointers([]) + BothPointers(e);
      case TupleTy(fields) =>
        var i :| 0 <= i < |fields| && HoldsLeaf(fields[i]);
        SampleHasPointers(fields[i]);
        AllPointersCovers(Sample(t).fields, i);
      case BoxTy(inner) => SampleHasPointers(inner);
      case LockTy(inner) => SampleHasPointers(inner);
    }
  }

  /** Some value of the type holds a pointer. */
  ghost predicate MayHoldPointers(t: Ty) {
    exists v :: HasType(v, t) && Pointers(v) != []
  }

  lemma PointersNeedLeaf(t: Ty)
    ensures MayHoldPointers(t) <==> HoldsLeaf(t)
  {
    if HoldsLeaf(t) {
      SampleHasPointers(t);
    } else {
      forall v | HasType(v, t)
        ensures Pointers(v) == []
      {
        NoLeafNoPointers(v, t);
      }
    }
  }

  /** An array of no pointers needs tracing, although it never holds any. */
  lemma EmptyArrayNeedsTrace()
    ensures NeedsTrace(ArrayTy(GcTy, 0)) && !MayHoldPointers(ArrayTy(GcTy, 0))
  {
    PointersNeedLeaf(ArrayTy(GcTy, 0));
  }

  /** `NEEDS_TRACE` tells exactly whether a value of the type may hold a pointer, if and only if the type
      does not need tracing or has a pointer outside the arrays of length zero. */
  lemma NeedsTraceIsExact(t: Ty)
    ensures (NeedsTrace(t) <==> MayHoldPointers(t)) <==> (!NeedsTrace(t) || HoldsLeaf(t))
  {
    PointersNeedLeaf(t);
    if HoldsLeaf(t) {
      LeafNeedsTrace(t);
    }
  }

  /** There is no array of length zero in the type. */
  predicate NoEmptyArrays(t: Ty) {
    match t
    case GcTy => true
    case WeakTy => true
    case StaticTy => true
    case SeqTy(elem) => NoEmptyArrays(elem)
    case ArrayTy(elem, length) => length > 0 && NoEmptyArrays(elem)
    case OptionTy(some) => NoEmptyArrays(some)
    case ResultTy(ok, err) => NoEmptyArrays(ok) && NoEmptyArrays(err)
    case MapTy(key, value) => NoEmptyArrays(key) && NoEmptyArrays(value)
    case TupleTy(fields) => forall i | 0 <= i < |fields| :: NoEmptyArrays(fields[i])
    case BoxTy(inner) => NoEmptyArrays(inner)
    case LockTy(inner) => NoEmptyArrays(inner)
  }

  /** Among the types without such arrays, those that need tracing are just those that may hold
      pointers. */
  lemma {:induction false} NeedsTraceHoldsLeaf(t: Ty)
    requires NoEmptyArrays(t)
    ensures NeedsTrace(t) <==> HoldsLeaf(t)
  {
    match t {
      case GcTy =>
      case WeakTy =>
      case StaticTy =>
      case SeqTy(elem) => NeedsTraceHoldsLeaf(elem);
      case ArrayTy(elem, _) => NeedsTraceHoldsLeaf(elem);
      case OptionTy(some) => NeedsTraceHoldsLeaf(some);
      case ResultTy(ok, err) =>
        NeedsTraceHoldsLeaf(ok);
        NeedsTraceHoldsLeaf(err);
      case MapTy(key, value) =>
        NeedsTraceHoldsLeaf(key);
        NeedsTraceHoldsLeaf(value);
      case TupleTy(fields) =>
        forall i | 0 <= i < |fields|
          ensures NeedsTrace(fields[i]) <==> HoldsLeaf(fields[i])
        {
          NeedsTraceHoldsLeaf(fields[i]);
        }
      case BoxTy(inner) => NeedsTraceHoldsLeaf(inner);
      case LockTy(inner) => NeedsTraceHoldsLeaf(inner);
    }
  }

  // ------------------------------------------------------------------------------ trace

  /** Collects the pointers reported to it. */
  class Tracer {
    var reported: seq<Edge>

    constructor ()
      ensures reported == []
    {
      reported := [];
    }

    method TraceGc(to: Ref)
      modifies this
      ensures reported == old(reported) + [Strong(to)]
    {
      reported := reported + [Strong(to)];
    }

    method TraceGcWeak(to: Ref)
      modifies this
      ensures reported == old(reported) + [Weak(to)]
    {
      reported := reported + [Weak(to)];
    }

    /** `Trace::trace`: skips the value if its type says that it needs no tracing. Nothing is missed,
        and nothing is reported that is not there. */
    method Trace(t: Ty, v: Val)
      requires HasType(v, t)
      modifies this
      ensures reported == old(reported) + Pointers(v) && Reports(old(reported), reported, v)
      decreases v, 1
    {
      PointersAreReports(reported, v);
      if NeedsTrace(t) {
        TraceValue(t, v);
      } else {
        NoTraceNoPointers(v, t);
      }
    }

    /** `Collect::trace` of each provided type. */
    method TraceValue(t: Ty, v: Val)
      requires HasType(v, t)
      modifies this
      ensures reported == old(reported) + Pointers(v) && Reports(old(reported), reported, v)
      decreases v, 0
    {
      PointersAreReports(reported, v);
      match t {
        case GcTy => TraceGc(v.to);
        case WeakTy => TraceGcWeak(v.to);
        case StaticTy =>
        case SeqTy(elem) => TraceItems(elem, v.items);
        case ArrayTy(elem, _) => TraceItems(elem, v.items);
        case OptionTy(some) =>
          if v.SomeVal? {
            Trace(some, v.some);
          }
        case ResultTy(ok, err) =>
          if v.OkVal? {
            Trace(ok, v.ok);
          } else {
            Trace(err, v.err);
          }
        case MapTy(key, value) => TraceEntries(key, value, v.entries);
        case TupleTy(fields) => TraceFields(fields, v.fields);
        case BoxTy(inner) => Trace(inner, v.inner);
        case LockTy(inner) => Trace(inner, v.inner);
      }
    }

    /** The loop over the items of a sequence or of a set. */
    method TraceItems(elem: Ty, items: seq<Val>)
      requires forall i | 0 <= i < |items| :: HasType(items[i], elem)
      modifies this
      ensures reported == old(reported) + AllPointers(items)
      decreases items, 0
    {
      for i := 0 to |items|
        invariant reported == old(reported) + AllPointers(items[..i])
      {
        Trace(elem, items[i]);
        assert items[..i + 1][..i] == items[..i];
      }
      assert items[..|items|] == items;
    }

    /** The loop over the keys and values of a map. */
    method TraceEntries(key: Ty, value: Ty, entries: seq<Entry>)
      requires forall i | 0 <= i < |entries| :: HasType(entries[i].key, key) && HasType(entries[i].value, value)
      modifies this
      ensures reported == old(reported) + EntryPointers(entries)
      decreases entries, 0
    {
      for i := 0 to |entries|
        invariant reported == old(reported) + EntryPointers(entries[..i])
      {
        TraceEntry(key, value, entries[i]);
        assert entries[..i + 1][..i] == entries[..i];
      }
      assert entries[..|entries|] == entries;
    }

    method TraceEntry(key: Ty, value: Ty, e: Entry)
      requires HasType(e.key, key) && HasType(e.value, value)
      modifies this
      ensures reported == old(reported) + BothPointers(e)
      decreases e, 0
    {
      Trace(key, e.key);
      Trace(value, e.value);
    }

    /** The fields of a tuple, one after the other. */
    method TraceFields(types: seq<Ty>, fields: seq<Val>)
      requires |types| == |fields| && forall i | 0 <= i < |fields| :: HasType(fields[i], types[i])
      modifies this
      ensures reported == old(reported) + AllPointers(fields)
      decreases fields, 0
    {
      for i := 0 to |fields|
        invariant reported == old(reported) + AllPointers(fields[..i])
      {
        Trace(types[i], fields[i]);
        assert fields[..i + 1][..i] == fields[..i];
      }
      assert fields[..|fields|] == fields;
    }
  }
}
