/**
 * The orientation a block can face: the sixteen points of the compass rose.
 * Index counts them clockwise from north in steps of 22.5 degrees, which gives
 * an arithmetic reference for the hand-written tables of the sign block.
 */
module Compass {

  datatype Direction = N | NNE | NE | ENE | E | ESE | SE | SSE | S | SSW | SW | WSW | W | WNW | NW | NNW

  /** Position on the compass rose, clockwise from north. */
  function Index(d: Direction): (i: nat)
    ensures i < 16
  {
    match d
    case N => 0
    case NNE => 1
    case NE => 2
    case ENE => 3
    case E => 4
    case ESE => 5
    case SE => 6
    case SSE => 7
    case S => 8
    case SSW => 9
    case SW => 10
    case WSW => 11
    case W => 12
    case WNW => 13
    case NW => 14
    case NNW => 15
  }

  /** The direction at a given position of the compass rose. */
  function FromIndex(i: nat): (d: Direction)
    requires i < 16
    ensures Index(d) == i
  {
    match i
    case 0 => N
    case 1 => NNE
    case 2 => NE
    case 3 => ENE
    case 4 => E
    case 5 => ESE
    case 6 => SE
    case 7 => SSE
    case 8 => S
    case 9 => SSW
    case 10 => SW
    case 11 => WSW
    case 12 => W
    case 13 => WNW
    case 14 => NW
    case _ => NNW
  }

  lemma IndexInjective(d: Direction)
    ensures FromIndex(Index(d)) == d
  {
  }

  /** Two directions at the same position of the rose are the same. */
  lemma SameIndex(a: Direction, b: Direction)
    requires Index(a) == Index(b)
    ensures a == b
  {
    IndexInjective(a);
    IndexInjective(b);
  }

  /** The four directions a wall sign can face. */
  predicate IsCardinal(d: Direction) {
    d == N || d == E || d == S || d == W
  }

  /** A quarter turn: four compass points clockwise, or twelve (that is, four back). */
  function Rotated(d: Direction, clockwise: bool): (r: Direction)
    ensures IsCardinal(r) <==> IsCardinal(d)
  {
    FromIndex((Index(d) + (if clockwise then 4 else 12)) % 16)
  }

  /** The point of the compass diametrically opposite d. */
  function Opposite(d: Direction): (r: Direction)
    ensures IsCardinal(r) <==> IsCardinal(d)
    ensures r != d
  {
    FromIndex((Index(d) + 8) % 16)
  }

  /** A quarter turn one way is undone by a quarter turn the other way. */
  lemma RotatedUndone(d: Direction, clockwise: bool)
    ensures Rotated(Rotated(d, clockwise), !clockwise) == d
  {
  }

  /** Four quarter turns the same way are a full turn. */
  lemma RotatedFourTimes(d: Direction, clockwise: bool)
    ensures Rotated(Rotated(Rotated(Rotated(d, clockwise), clockwise), clockwise), clockwise) == d
  {
    var d2 := Rotated(Rotated(d, clockwise), clockwise);
    HalfTurn(d, clockwise);
    HalfTurn(d2, clockwise);
    OppositeTwice(d);
  }

  /** Two quarter turns the same way face the opposite direction. */
  lemma HalfTurn(d: Direction, clockwise: bool)
    ensures Rotated(Rotated(d, clockwise), clockwise) == Opposite(d)
  {
    var d2 := Rotated(Rotated(d, clockwise), clockwise);
    TwoQuarterSteps(Index(d), clockwise);
    assert Index(d2) == Index(Opposite(d));
    SameIndex(d2, Opposite(d));
  }

  /** Two quarter steps on the rose are half of it. */
  lemma TwoQuarterSteps(i: nat, clockwise: bool)
    requires i < 16
    ensures var step := if clockwise then 4 else 12; ((i + step) % 16 + step) % 16 == (i + 8) % 16
  {
  }

  /** Opposite is an involution. */
  lemma OppositeTwice(d: Direction)
    ensures Opposite(Opposite(d)) == d
  {
    IndexInjective(d);
  }
}
