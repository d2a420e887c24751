/** Pacing arithmetic: the allocation debt that drives the collector. Floating point values are
    reals, and the byte counters are unbounded. */
module Metering {

  datatype Pacing = Pacing(
    sleepFactor: real,
    minSleep: nat,
    markFactor: real,
    traceFactor: real,
    keepFactor: real,
    dropFactor: real,
    freeFactor: real)

  const DEFAULT := Pacing(0.5, 4096, 0.1, 0.4, 0.05, 0.2, 0.3)

  /** All the work factors are zero. */
  const STOP_THE_WORLD := Pacing(1.0, 4096, 0.0, 0.0, 0.0, 0.0, 0.0)

  /** A reading of all the counters. The two totals and the traced counters are decremented by the
      source without a check, so they are integers here and that they stay natural is proved. */
  datatype Meter = Meter(
    pacing: Pacing,
    totalGcs: int,
    totalGcBytes: int,
    totalExternal: nat,
    wakeup: real,
    artificialDebt: real,
    externalStart: nat,
    allocatedBytes: nat,
    droppedBytes: nat,
    freedBytes: nat,
    markedGcs: nat,
    markedBytes: nat,
    tracedGcs: int,
    tracedBytes: int,
    rememberedGcs: nat,
    rememberedBytes: nat)

  const ZERO := Meter(DEFAULT, 0, 0, 0, 0.0, 0.0, 0, 0, 0, 0, 0, 0, 0, 0, 0, 0)

  function Max(x: real, y: real): real {
    if x < y then y else x
  }

  function AllocatedExternal(m: Meter): nat {
    if m.totalExternal < m.externalStart then 0 else m.totalExternal - m.externalStart
  }

  function Debits(m: Meter): real {
    (m.allocatedBytes + AllocatedExternal(m)) as real - m.wakeup + m.artificialDebt
  }

  function Credits(m: Meter): real {
    m.markedBytes as real * m.pacing.markFactor
    + m.tracedBytes as real * m.pacing.traceFactor
    + m.rememberedBytes as real * m.pacing.keepFactor
    + m.droppedBytes as real * m.pacing.dropFactor
    + m.freedBytes as real * m.pacing.freeFactor
  }

  function AllocationDebt(m: Meter): (debt: real)
    ensures debt >= 0.0
  {
    if m.totalGcs == 0 then 0.0
    else if Debits(m) <= 0.0 then 0.0
    else Max(Debits(m) - Credits(m), 0.0)
  }

  function FinishCycle(m: Meter, resetDebt: bool): Meter {
    CountersReset(m.(wakeup := Wakeup(m),
                     artificialDebt := if resetDebt then 0.0 else AllocationDebt(m),
                     externalStart := m.totalExternal))
  }

  function CountersReset(m: Meter): Meter {
    m.(allocatedBytes := 0, droppedBytes := 0, freedBytes := 0,
       markedGcs := 0, markedBytes := 0,
       tracedGcs := 0, tracedBytes := 0,
       rememberedGcs := 0, rememberedBytes := 0)
  }

  function Allocated(m: Meter, bytes: nat): Meter {
    m.(totalGcs := m.totalGcs + 1, totalGcBytes := m.totalGcBytes + bytes, allocatedBytes := m.allocatedBytes + bytes)
  }

  function Dropped(m: Meter, bytes: nat): Meter {
    m.(droppedBytes := m.droppedBytes + bytes)
  }

  function Freed(m: Meter, bytes: nat): Meter {
    m.(totalGcs := m.totalGcs - 1, totalGcBytes := m.totalGcBytes - bytes, freedBytes := m.freedBytes + bytes)
  }

  function Marked(m: Meter, bytes: nat): Meter {
    m.(markedGcs := m.markedGcs + 1, markedBytes := m.markedBytes + bytes)
  }

  function Traced(m: Meter, bytes: nat): Meter {
    m.(tracedGcs := m.tracedGcs + 1, tracedBytes := m.tracedBytes + bytes)
  }

  function Untraced(m: Meter, bytes: nat): Meter {
    m.(tracedGcs := m.tracedGcs - 1, tracedBytes := m.tracedBytes - bytes)
  }

  function Remembered(m: Meter, bytes: nat): Meter {
    m.(rememberedGcs := m.rememberedGcs + 1, rememberedBytes := m.rememberedBytes + bytes)
  }

  /** What the mutator may do to the meter at any time. */
  datatype Tuning =
    | SetPacing(pacing: Pacing)
    | AddDebt(bytes: nat)
    | ExternalAllocation(bytes: nat)
    | ExternalDeallocation(bytes: nat)

  function Tune(m: Meter, t: Tuning): Meter {
    match t
    case SetPacing(p) => m.(pacing := p)
    case AddDebt(n) => m.(artificialDebt := m.artificialDebt + n as real)
    case ExternalAllocation(n) => m.(totalExternal := m.totalExternal + n)
    case ExternalDeallocation(n) => m.(totalExternal := if m.totalExternal < n then 0 else m.totalExternal - n)
  }

  function TuneAll(m: Meter, ts: seq<Tuning>): Meter
    decreases |ts|
  {
    if ts == [] then m else TuneAll(Tune(m, ts[0]), ts[1..])
  }

  /** The mutator sets the pacing, and moves the external bytes and the artificial debt. */
  lemma {:induction false} TuneAllKeeps(m: Meter, ts: seq<Tuning>)
    ensures var n := TuneAll(m, ts);
            && n == m.(pacing := n.pacing, totalExternal := n.totalExternal, artificialDebt := n.artificialDebt)
            && n.artificialDebt >= m.artificialDebt
            && ((forall t | t in ts :: !t.SetPacing?) ==> n.pacing == m.pacing)
    decreases |ts|
  {
    if ts == [] {
    } else {
      TuneAllKeeps(Tune(m, ts[0]), ts[1..]);
      assert ts == [ts[0]] + ts[1..];
    }
  }

  /** What the mutator reports and what the collector counts do not get in each other's way: it makes
      no difference whether a destructor reports before or after the collector has counted it. */
  lemma {:induction false} TuningCommutes(m: Meter, ts: seq<Tuning>, bytes: nat)
    ensures TuneAll(Dropped(m, bytes), ts) == Dropped(TuneAll(m, ts), bytes)
    ensures TuneAll(Freed(m, bytes), ts) == Freed(TuneAll(m, ts), bytes)
    ensures TuneAll(Remembered(m, bytes), ts) == Remembered(TuneAll(m, ts), bytes)
    ensures TuneAll(Untraced(m, bytes), ts) == Untraced(TuneAll(m, ts), bytes)
    decreases |ts|
  {
    if ts == [] {
    } else {
      TuneCommutes(m, ts[0], bytes);
      TuningCommutes(Tune(m, ts[0]), ts[1..], bytes);
    }
  }

  lemma TuneCommutes(m: Meter, t: Tuning, bytes: nat)
    ensures Tune(Dropped(m, bytes), t) == Dropped(Tune(m, t), bytes)
    ensures Tune(Freed(m, bytes), t) == Freed(Tune(m, t), bytes)
    ensures Tune(Remembered(m, bytes), t) == Remembered(Tune(m, t), bytes)
    ensures Tune(Untraced(m, bytes), t) == Untraced(Tune(m, t), bytes)
  {
  }

  /** The number of bytes on the heap when the counters of this cycle were last reset. */
  function CycleBase(m: Meter): int {
    m.totalGcBytes + m.freedBytes - m.allocatedBytes
  }

  lemma NoWork(bytes: int, factor: real)
    requires bytes == 0
    ensures bytes as real * factor == 0.0
  {
  }

  lemma NoCredits(m: Meter)
    requires m.markedBytes == m.tracedBytes == m.rememberedBytes == m.droppedBytes == m.freedBytes == 0
    ensures Credits(m) == 0.0
  {
    NoWork(m.markedBytes, m.pacing.markFactor);
    NoWork(m.tracedBytes, m.pacing.traceFactor);
    NoWork(m.rememberedBytes, m.pacing.keepFactor);
    NoWork(m.droppedBytes, m.pacing.dropFactor);
    NoWork(m.freedBytes, m.pacing.freeFactor);
  }

  /** A reset after an atomic cycle leaves no debt, and any other reset carries over no more debt
      than there was. */
  lemma ResetNeverRaisesDebt(m: Meter, resetDebt: bool)
    ensures AllocationDebt(FinishCycle(m, resetDebt)) <= AllocationDebt(m)
    ensures resetDebt ==> AllocationDebt(FinishCycle(m, resetDebt)) == 0.0
    ensures CycleBase(FinishCycle(m, resetDebt)) == m.totalGcBytes
  {
    var n := FinishCycle(m, resetDebt);
    assert n.wakeup >= 0.0;
    NoCredits(n);
    assert AllocatedExternal(n) == 0;
    assert Debits(n) == n.artificialDebt - n.wakeup;
  }

  /** Before any work has been done in a cycle, the debt is what the debits come to. */
  lemma DebtBeforeWork(m: Meter)
    requires m.markedBytes == m.tracedBytes == m.rememberedBytes == m.droppedBytes == m.freedBytes == 0
    requires m.totalGcs != 0
    ensures AllocationDebt(m) == Max(Debits(m), 0.0)
  {
    NoCredits(m);
  }

  /** How much may be allocated after the cycle before the collector wakes. */
  function Wakeup(m: Meter): real {
    Max(m.rememberedBytes as real * m.pacing.sleepFactor, m.pacing.minSleep as real)
  }
}
