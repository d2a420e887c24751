/** The shared counters that the context updates as it works. */
module MetricsCells {
  import opened Metering

  class Metrics {
    var pacing: Pacing
    var totalGcs: int
    var totalGcBytes: int
    var totalExternal: nat
    var wakeup: real
    var artificialDebt: real
    var externalStart: nat
    var allocatedBytes: nat
    var droppedBytes: nat
    var freedBytes: nat
    var markedGcs: nat
    var markedBytes: nat
    var tracedGcs: int
    var tracedBytes: int
    var rememberedGcs: nat
    var rememberedBytes: nat

    function View(): Meter
      reads this
    {
      Meter(pacing, totalGcs, totalGcBytes, totalExternal, wakeup, artificialDebt, externalStart,
            allocatedBytes, droppedBytes, freedBytes, markedGcs, markedBytes, tracedGcs, tracedBytes,
            rememberedGcs, rememberedBytes)
    }

    constructor ()
      ensures View() == ZERO
    {
      pacing := DEFAULT;
      totalGcs, totalGcBytes, totalExternal := 0, 0, 0;
      wakeup, artificialDebt, externalStart := 0.0, 0.0, 0;
      allocatedBytes, droppedBytes, freedBytes := 0, 0, 0;
      markedGcs, markedBytes, tracedGcs, tracedBytes := 0, 0, 0, 0;
      rememberedGcs, rememberedBytes := 0, 0;
    }

    method SetPacing(p: Pacing)
      modifies this
      ensures View() == Tune(old(View()), Tuning.SetPacing(p))
    {
      pacing := p;
    }

    method AddDebt(bytes: nat)
      modifies this
      ensures View() == Tune(old(View()), Tuning.AddDebt(bytes))
    {
      artificialDebt := artificialDebt + bytes as real;
    }

    method MarkExternalAllocation(bytes: nat)
      modifies this
      ensures View() == Tune(old(View()), ExternalAllocation(bytes))
    {
      totalExternal := totalExternal + bytes;
    }

    method MarkExternalDeallocation(bytes: nat)
      modifies this
      ensures View() == Tune(old(View()), ExternalDeallocation(bytes))
    {
      totalExternal := if totalExternal < bytes then 0 else totalExternal - bytes;
    }

    /** Any of the calls that a program may make. */
    method Apply(t: Tuning)
      modifies this
      ensures View() == Tune(old(View()), t)
    {
      match t {
        case SetPacing(p) => SetPacing(p);
        case AddDebt(bytes) => AddDebt(bytes);
        case ExternalAllocation(bytes) => MarkExternalAllocation(bytes);
        case ExternalDeallocation(bytes) => MarkExternalDeallocation(bytes);
      }
    }

    /** How far allocation is ahead of the work that has been done. */
    method AllocationDebt() returns (debt: real)
      ensures debt == Metering.AllocationDebt(View())
    {
      if totalGcs == 0 {
        return 0.0;
      }
      var external := if totalExternal < externalStart then 0 else totalExternal - externalStart;
      var debits := (allocatedBytes + external) as real - wakeup + artificialDebt;
      if debits <= 0.0 {
        return 0.0;
      }
      var credits := markedBytes as real * pacing.markFactor
                     + tracedBytes as real * pacing.traceFactor
                     + rememberedBytes as real * pacing.keepFactor
                     + droppedBytes as real * pacing.dropFactor
                     + freedBytes as real * pacing.freeFactor;
      debt := Max(debits - credits, 0.0);
    }

    method FinishCycle(resetDebt: bool)
      modifies this
      ensures View() == Metering.FinishCycle(old(View()), resetDebt)
    {
      var amount := Max(rememberedBytes as real * pacing.sleepFactor, pacing.minSleep as real);
      var carried := 0.0;
      if !resetDebt {
        carried := AllocationDebt();
      }
      wakeup := amount;
      artificialDebt := carried;
      externalStart := totalExternal;
      ResetCounters();
    }

    method ResetCounters()
      modifies this
      ensures View() == CountersReset(old(View()))
    {
      allocatedBytes, droppedBytes, freedBytes := 0, 0, 0;
      ResetKept();
    }

    method ResetKept()
      modifies this
      ensures View() == old(View()).(markedGcs := 0, markedBytes := 0, tracedGcs := 0, tracedBytes := 0,
                                     rememberedGcs := 0, rememberedBytes := 0)
    {
      markedGcs, markedBytes := 0, 0;
      tracedGcs, tracedBytes := 0, 0;
      rememberedGcs, rememberedBytes := 0, 0;
    }

    method MarkGcAllocated(bytes: nat)
      modifies this
      ensures View() == Allocated(old(View()), bytes)
    {
      totalGcs := totalGcs + 1;
      totalGcBytes := totalGcBytes + bytes;
      allocatedBytes := allocatedBytes + bytes;
    }

    method MarkGcDropped(bytes: nat)
      modifies this
      ensures View() == Dropped(old(View()), bytes)
    {
      droppedBytes := droppedBytes + bytes;
    }

    method MarkGcFreed(bytes: nat)
      modifies this
      ensures View() == Freed(old(View()), bytes)
    {
      totalGcs := totalGcs - 1;
      totalGcBytes := totalGcBytes - bytes;
      freedBytes := freedBytes + bytes;
    }

    method MarkGcMarked(bytes: nat)
      modifies this
      ensures View() == Marked(old(View()), bytes)
    {
      markedGcs := markedGcs + 1;
      markedBytes := markedBytes + bytes;
    }

    method MarkGcTraced(bytes: nat)
      modifies this
      ensures View() == Traced(old(View()), bytes)
    {
      tracedGcs := tracedGcs + 1;
      tracedBytes := tracedBytes + bytes;
    }

    method MarkGcUntraced(bytes: nat)
      modifies this
      ensures View() == Untraced(old(View()), bytes)
    {
      tracedGcs := tracedGcs - 1;
      tracedBytes := tracedBytes - bytes;
    }

    method MarkGcRemembered(bytes: nat)
      modifies this
      ensures View() == Remembered(old(View()), bytes)
    {
      rememberedGcs := rememberedGcs + 1;
      rememberedBytes := rememberedBytes + bytes;
    }
  }
}
