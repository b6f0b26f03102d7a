/**
 * The sign block's data byte and its orientation tables: the switch statements
 * of Sign.setDirectionByCurData, Sign.setDirection, Sign.turn and Sign.getImage,
 * lifted into functions. A wall sign (block id 68) uses data 2..5; a
 * freestanding sign (block id 63) uses data 0..15.
 */
module SignCodec {
  import opened Wrappers
  import opened Compass

  /** Java's signed 8-bit byte. */
  type Byte = x: int | -128 <= x < 128

  /** Java's signed 16-bit short, the type of a block id. */
  type Short = x: int | -32768 <= x < 32768

  const WallSignId: Short := 68
  const StandingSignId: Short := 63

  /** The block id that selects a placement mode. */
  function ModeId(isWallSign: bool): (id: Short)
    ensures id == WallSignId <==> isWallSign
    ensures id == WallSignId || id == StandingSignId
  {
    if isWallSign then WallSignId else StandingSignId
  }

  /** What the sign block throws; the Java message text is reduced to its argument. */
  datatype Error =
    | InvalidSignId(id: int)              // IllegalArgumentException "Invalid sign id"
    | TooManyLines(count: nat)            // IllegalArgumentException "up to 4 lines of text"
    | TextNotFourLines                    // IllegalArgumentException "exactly 4 items long"
    | IllegalDirectionalState(data: int)  // IllegalArgumentException "illegal directional state"
    | IllegalWallDirection(d: Direction)  // IllegalArgumentException "illegal direction for wall sign"
    | AssertionFault(d: Direction)        // AssertionError on a state that "should never happen"

  /** Wall mode decoding: 2, 3, 4, 5 face north, south, west, east. */
  function DecodeWall(data: int): (r: Option<Direction>)
    ensures r.Some? <==> 2 <= data <= 5
    ensures r.Some? ==> IsCardinal(r.value)
  {
    match data
    case 2 => Some(N)
    case 3 => Some(S)
    case 4 => Some(W)
    case 5 => Some(E)
    case _ => None
  }

  /**
   * Freestanding decoding: data 0 faces south and each step of the data value
   * moves one compass point on, so data d faces compass point d + 8 (mod 16).
   */
  function DecodeFree(data: int): (r: Option<Direction>)
    ensures r.Some? <==> 0 <= data < 16
    ensures r.Some? ==> Index(r.value) == (data + 8) % 16
  {
    match data
    case 0 => Some(S)
    case 1 => Some(SSW)
    case 2 => Some(SW)
    case 3 => Some(WSW)
    case 4 => Some(W)
    case 5 => Some(WNW)
    case 6 => Some(NW)
    case 7 => Some(NNW)
    case 8 => Some(N)
    case 9 => Some(NNE)
    case 10 => Some(NE)
    case 11 => Some(ENE)
    case 12 => Some(E)
    case 13 => Some(ESE)
    case 14 => Some(SE)
    case 15 => Some(SSE)
    case _ => None
  }

  /** The mode's decoding table (the switch of setDirectionByCurData). */
  function Decode(isWallSign: bool, data: int): (r: Option<Direction>)
    ensures r.Some? <==> (if isWallSign then 2 <= data <= 5 else 0 <= data < 16)
    ensures r.Some? && isWallSign ==> IsCardinal(r.value)
  {
    if isWallSign then DecodeWall(data) else DecodeFree(data)
  }

  /** Wall mode encoding: only the four cardinal directions have a data value. */
  function EncodeWall(d: Direction): (r: Option<Byte>)
    ensures r.Some? <==> IsCardinal(d)
    ensures r.Some? ==> DecodeWall(r.value) == Some(d)
  {
    match d
    case N => Some(2)
    case E => Some(5)
    case S => Some(3)
    case W => Some(4)
    case _ => None
  }

  /** Freestanding encoding: every direction has a data value, and it decodes back. */
  function EncodeFree(d: Direction): (r: Byte)
    ensures 0 <= r < 16
    ensures DecodeFree(r) == Some(d)
  {
    match d
    case N => 8
    case NNE => 9
    case NE => 10
    case ENE => 11
    case E => 12
    case ESE => 13
    case SE => 14
    case SSE => 15
    case S => 0
    case SSW => 1
    case SW => 2
    case WSW => 3
    case W => 4
    case WNW => 5
    case NW => 6
    case NNW => 7
  }

  /** The mode's encoding table (the switch of setDirection); None where it throws. */
  function Encode(isWallSign: bool, d: Direction): (r: Option<Byte>)
    ensures r.Some? <==> (isWallSign ==> IsCardinal(d))
    ensures r.Some? ==> Decode(isWallSign, r.value) == Some(d)
  {
    if isWallSign then EncodeWall(d) else Some(EncodeFree(d))
  }

  /** Every legal data value of a mode is the encoding of what it decodes to. */
  lemma DecodeThenEncode(isWallSign: bool, data: int)
    requires Decode(isWallSign, data).Some?
    ensures Encode(isWallSign, Decode(isWallSign, data).value) == Some(data)
  {
  }

  /**
   * The wall-mode table of Sign.turn, keyed by the current direction: the data
   * value a quarter turn leads to, None where the Java code raises an AssertionError.
   */
  function WallTurnData(d: Direction, clockwise: bool): (r: Option<Byte>)
    ensures r.Some? <==> IsCardinal(d)
    ensures r.Some? ==> DecodeWall(r.value) == Some(Rotated(d, clockwise))
  {
    match d
    case E => Some(if clockwise then 3 else 2)
    case W => Some(if clockwise then 2 else 3)
    case N => Some(if clockwise then 5 else 4)
    case S => Some(if clockwise then 4 else 5)
    case _ => None
  }

  /**
   * The freestanding arithmetic of Sign.turn: four data steps on, wrapping by
   * twelve. On a legal data value it is a step of 4 (or 12) modulo 16.
   */
  function FreeTurnData(data: Byte, clockwise: bool): (r: Byte)
    ensures 0 <= data < 16 ==> r == (data + (if clockwise then 4 else 12)) % 16
  {
    if clockwise then
      if data <= 11 then data + 4 else data - 12
    else
      if data >= 4 then data - 4 else data + 12
  }

  /** On a legal freestanding value, the data arithmetic is a quarter turn of the direction. */
  lemma FreeTurnRotates(data: Byte, clockwise: bool)
    requires 0 <= data < 16
    ensures DecodeFree(FreeTurnData(data, clockwise)) == Some(Rotated(DecodeFree(data).value, clockwise))
  {
  }

  /**
   * The wall-sign remap of Sign.getImage: the picture shows the wall the sign
   * hangs on, the side opposite the way it faces. None where it raises an AssertionError.
   */
  function WallFlip(d: Direction): (r: Option<Direction>)
    ensures r.Some? <==> IsCardinal(d)
    ensures r.Some? ==> r.value == Opposite(d)
  {
    match d
    case N => Some(S)
    case E => Some(W)
    case S => Some(N)
    case W => Some(E)
    case _ => None
  }
}
