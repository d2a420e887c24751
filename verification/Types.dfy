/** The values shared by every part of the model: addresses, colours, boxes and phases. */
module Types {

  /** Names one allocation. A `Ref` is never given to a second box, even when the allocator hands
      the same address out again after a deallocation. */
  type Ref = nat

  datatype Option<+T> = None | Some(value: T)

  datatype Color = White | WhiteWeak | Gray | Black

  /** A pointer: `Gc` is strong, `GcWeak` is weak. */
  datatype Edge = Strong(to: Ref) | Weak(to: Ref)

  /** A header together with the pointers its value holds, in the order `trace` visits them. */
  datatype Box = Box(color: Color, live: bool, needsTrace: bool, size: nat, edges: seq<Edge>)

  datatype Phase = Mark | Sweep | Sleep | Drop

  datatype RunUntil = PayDebt | UntilStop

  datatype Stop = FullyMarked | AtSweep | FinishCycle | Full {
    /** Position in the derived ordering of the stop conditions. */
    function Rank(): nat {
      match this
      case FullyMarked => 0
      case AtSweep => 1
      case FinishCycle => 2
      case Full => 3
    }
  }

  predicate IsWhite(color: Color) {
    color.White? || color.WhiteWeak?
  }
}
