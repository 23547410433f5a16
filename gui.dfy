/** The state behind the window of src/gui.rs: the recent raw and filtered pointer
    positions and the last metrics shown. Drawing is not modelled; the clock reading
    taken at construction is a parameter. */
module Gui {
  import opened Numeric
  import opened Bounded
  import Tremor

  /** Capacity of both position histories. */
  const HistoryCapacity: nat := 100

  /** `TremorGUI`: updated in place once per processed movement. */
  class TremorGUI {
    var movementHistory: seq<Position>
    var filteredHistory: seq<Position>
    var tremorType: Tremor.TremorType
    var frequency: real
    var amplitude: real
    var startTime: real

    /** The two histories are pushed and evicted together, so they always have the
        same length, at most the capacity. */
    ghost predicate Valid()
      reads this
    {
      |movementHistory| == |filteredHistory| <= HistoryCapacity
    }

    /** `TremorGUI::new`, with `now` the clock reading it records. */
    constructor (now: real)
      ensures Valid()
      ensures movementHistory == [] && filteredHistory == []
      ensures tremorType == Tremor.Mixed && frequency == 0.0 && amplitude == 0.0
      ensures startTime == now
    {
      movementHistory := [];
      filteredHistory := [];
      tremorType := Tremor.Mixed;
      frequency := 0.0;
      amplitude := 0.0;
      startTime := now;
    }

    /** `update_metrics`: appends both positions, overwrites the metrics, and when
        the raw history goes over capacity drops the oldest entry of both histories. */
    method UpdateMetrics(rawPos: Position, filteredPos: Position,
                         tremorType: Tremor.TremorType, frequency: real, amplitude: real)
      modifies this
      ensures movementHistory == PushCapped(old(movementHistory), rawPos, HistoryCapacity)
      ensures |old(movementHistory)| < HistoryCapacity ==>
        filteredHistory == old(filteredHistory) + [filteredPos]
      ensures |old(movementHistory)| >= HistoryCapacity ==>
        filteredHistory == (old(filteredHistory) + [filteredPos])[1..]
      ensures old(Valid()) ==>
        Valid() && filteredHistory == PushCapped(old(filteredHistory), filteredPos, HistoryCapacity)
      ensures this.tremorType == tremorType && this.frequency == frequency && this.amplitude == amplitude
      ensures startTime == old(startTime)
    {
      movementHistory := movementHistory + [rawPos];
      filteredHistory := filteredHistory + [filteredPos];
      this.tremorType := tremorType;
      this.frequency := frequency;
      this.amplitude := amplitude;

      if |movementHistory| > HistoryCapacity {
        movementHistory := movementHistory[1..];
        filteredHistory := filteredHistory[1..];
      }
    }
  }
}
