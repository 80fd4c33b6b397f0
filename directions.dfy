/**
 * The three heading transforms a placed tool or a force tile applies, exactly
 * as the step engine writes them out: clockwise (dx, dy) -> (-dy, dx),
 * counter-clockwise (dx, dy) -> (dy, -dx), mirror (dx, dy) -> (-dx, -dy).
 * "Clockwise" is as seen on screen, where y grows downward: east turns south.
 */
module Directions {
  import opened Types

  /** Position on the compass counted clockwise on screen from east: east 0, south 1, west 2, north 3. */
  function CompassIndex(d: Direction): int
    requires Cardinal(d)
  {
    if d == East then 0 else if d == South then 1 else if d == West then 2 else 3
  }

  function RotateCw(d: Direction): (r: Direction)
    ensures Cardinal(d) ==> Cardinal(r) && CompassIndex(r) == (CompassIndex(d) + 1) % 4
  {
    Direction(-d.dy, d.dx)
  }

  function RotateCcw(d: Direction): (r: Direction)
    ensures Cardinal(d) ==> Cardinal(r) && CompassIndex(r) == (CompassIndex(d) + 3) % 4
  {
    Direction(d.dy, -d.dx)
  }

  function Reverse(d: Direction): (r: Direction)
    ensures Cardinal(d) ==> Cardinal(r) && CompassIndex(r) == (CompassIndex(d) + 2) % 4
  {
    Direction(-d.dx, -d.dy)
  }

  /** The transform a tool kind (or a force tile's action) stands for. */
  function Apply(kind: ToolType, d: Direction): (r: Direction)
    ensures Cardinal(d) ==> Cardinal(r)
  {
    match kind
    case RotatorCw => RotateCw(d)
    case RotatorCcw => RotateCcw(d)
    case Mirror => Reverse(d)
  }

  lemma RotationsAreMutualInverses(d: Direction)
    ensures RotateCcw(RotateCw(d)) == d && RotateCw(RotateCcw(d)) == d
  {
  }

  lemma FourQuarterTurnsAreIdentity(d: Direction)
    ensures RotateCw(RotateCw(RotateCw(RotateCw(d)))) == d
    ensures RotateCcw(RotateCcw(RotateCcw(RotateCcw(d)))) == d
  {
  }

  lemma ReverseIsHalfTurn(d: Direction)
    ensures Reverse(Reverse(d)) == d
    ensures Reverse(d) == RotateCw(RotateCw(d)) == RotateCcw(RotateCcw(d))
  {
  }

  /**
   * All three transforms are powers of the clockwise quarter turn, so any two
   * of them commute: applying a placed tool and then a force tile on the same
   * cell gives the same heading as the opposite order would.
   */
  lemma TransformsCommute(a: ToolType, b: ToolType, d: Direction)
    ensures Apply(a, Apply(b, d)) == Apply(b, Apply(a, d))
  {
  }

  /** No transform leaves a cardinal heading unchanged. */
  lemma TransformsMove(kind: ToolType, d: Direction)
    requires Cardinal(d)
    ensures Apply(kind, d) != d
  {
  }
}
