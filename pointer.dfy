/**
 * The pointer record that mouse and touch events update and that the frame
 * driver consumes.
 */
module Input {

  /** The input-to-impulse gain of `updateMousePosition`. */
  const Gain: real := 5.0

  datatype PointerState = PointerState(x: real, y: real, dx: real, dy: real, moved: bool)

  /** The pointer state after a motion event at (x, y) reaches a pointer in state `p`. */
  function Moved(p: PointerState, x: real, y: real): PointerState
  {
    PointerState(x, y, Gain * (x - p.x), Gain * (y - p.y), true)
  }

  /**
   * Of several events before a frame only the last two positions matter:
   * whatever state the pointer was in before, two events at (x1, y1) and
   * then (x2, y2) leave it in the same state.
   */
  lemma LastEventsCount(p: PointerState, q: PointerState, x1: real, y1: real, x2: real, y2: real)
    ensures Moved(Moved(p, x1, y1), x2, y2) == Moved(Moved(q, x1, y1), x2, y2)
    ensures Moved(Moved(p, x1, y1), x2, y2).dx == Gain * (x2 - x1)
    ensures Moved(Moved(p, x1, y1), x2, y2).dy == Gain * (y2 - y1)
  {
  }

  /** The global `pointer` object. */
  class Pointer {
    var x: real
    var y: real
    var dx: real
    var dy: real
    /** Motion not yet consumed by a frame. */
    var moved: bool

    constructor ()
      ensures State() == PointerState(0.0, 0.0, 0.0, 0.0, false)
    {
      x, y, dx, dy, moved := 0.0, 0.0, 0.0, 0.0, false;
    }

    function State(): PointerState
      reads this
    {
      PointerState(x, y, dx, dy, moved)
    }

    /**
     * `updateMousePosition(x, y)`: mark the motion unconsumed, keep the
     * displacement from the previous event scaled by the gain, and move to
     * the new position. Only the last event before a frame counts.
     */
    method Update(x': real, y': real)
      modifies this
      ensures State() == Moved(old(State()), x', y')
    {
      moved := true;
      dx := Gain * (x' - x);
      dy := Gain * (y' - y);
      x := x';
      y := y';
    }
  }
}
