/**
 The small enumerations shared by every part of the cube: the faces of a piece,
 the sticker colours and the three turning axes.
 */
module Faces {

  /** The six faces of a piece, in the row order of the relabelling table, and a
      `None` value returned by a failed colour search. */
  datatype Face = Top | Front | Right | Back | Left | Bottom | None

  /** Sticker colours. `None` marks a sticker that was never set. */
  datatype FaceColor = White | Yellow | Green | Blue | Red | Orange | Black | None

  /** The three turning axes (the cube's `LayerType`). */
  datatype Direction = Horizontal | Vertical | Depthical

  /** The slot of a real face in a six-colour array. */
  function Slot(f: Face): (i: nat)
    requires f != Face.None
    ensures i < 6
  {
    match f
    case Top => 0
    case Front => 1
    case Right => 2
    case Back => 3
    case Left => 4
    case Bottom => 5
  }

  /** The face stored in slot `i`; the inverse of `Slot`. */
  function FaceAt(i: nat): (f: Face)
    requires i < 6
    ensures f != Face.None && Slot(f) == i
  {
    [Top, Front, Right, Back, Left, Bottom][i]
  }

  /** The axis index used to select the middle dimension of the relabelling table. */
  function AxisIndex(d: Direction): (i: nat)
    ensures i < 3
  {
    match d
    case Horizontal => 0
    case Vertical => 1
    case Depthical => 2
  }
}
