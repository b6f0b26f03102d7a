/**
 * The state of a sign as a value, and each operation of the sign as a step
 * from one state to the next. Java exceptions do not roll back the writes made
 * before them, so a step yields the state left behind together with the
 * failure, if any. The class Signs.Sign is specified by these steps.
 */
module SignBlock {
  import opened Wrappers
  import opened Compass
  import opened SignCodec
  import opened SignText

  /** The fields of a sign: id, data and direction of its DirectionalBlock base, and its own. */
  datatype Block = Block(id: Short, data: Byte, direction: Direction, isWallSign: bool, text: seq<string>)

  /** The state a call leaves behind, and what it threw. */
  datatype Attempt = Attempt(after: Block, failure: Option<Error>)

  /**
   * What every sign keeps however it is used: an id of 63 or 68 that agrees
   * with the placement mode, and exactly four lines of text.
   */
  predicate WellFormed(b: Block) {
    (b.id == WallSignId || b.id == StandingSignId) && b.isWallSign == (b.id == WallSignId) && |b.text| == LineCount
  }

  /** The direction is the one the data value decodes to in the current mode. */
  predicate Synced(b: Block) {
    Decode(b.isWallSign, b.data) == Some(b.direction)
  }

  /** Sign.setDirectionByCurData: decode the data, or throw leaving the direction as it was. */
  function Redecoded(b: Block): (a: Attempt)
    ensures a.after.(direction := b.direction) == b
    ensures a.failure.None? <==> Decode(b.isWallSign, b.data).Some?
    ensures a.failure.None? ==> Synced(a.after)
    ensures a.failure.Some? ==> a.after == b && a.failure.value == IllegalDirectionalState(b.data)
  {
    match Decode(b.isWallSign, b.data)
    case Some(d) => Attempt(b.(direction := d), None)
    case None => Attempt(b, Some(IllegalDirectionalState(b.data)))
  }

  /**
   * Sign.turn: a wall sign steps by its direction through the wall table, a
   * freestanding one steps its data value by four; then the direction is
   * decoded from the new data.
   */
  function Turned(b: Block, clockwise: bool): (a: Attempt)
    ensures a.after.(data := b.data, direction := b.direction) == b
    ensures WellFormed(b) ==> WellFormed(a.after)
    ensures b.isWallSign && !IsCardinal(b.direction) ==> a == Attempt(b, Some(AssertionFault(b.direction)))
  {
    if b.isWallSign then
      match WallTurnData(b.direction, clockwise)
      case None => Attempt(b, Some(AssertionFault(b.direction)))
      case Some(next) => Redecoded(b.(data := next))
    else
      Redecoded(b.(data := FreeTurnData(b.data, clockwise)))
  }

  /** n turns the same way, stopping at the first failure. */
  function TurnedN(b: Block, clockwise: bool, n: nat): (a: Attempt)
    ensures WellFormed(b) ==> WellFormed(a.after)
    decreases n
  {
    if n == 0 then Attempt(b, None)
    else
      var first := Turned(b, clockwise);
      if first.failure.Some? then first else TurnedN(first.after, clockwise, n - 1)
  }

  /** Sign.setData: the data is written before it is decoded, so a bad value stays written. */
  function DataSet(b: Block, data: Byte): (a: Attempt)
    ensures a.after.data == data
    ensures a.after.(data := b.data, direction := b.direction) == b
    ensures a.failure.None? <==> Decode(b.isWallSign, data).Some?
    ensures a.failure.None? ==> Synced(a.after)
    ensures a.failure.Some? ==> a.after.direction == b.direction
    ensures WellFormed(b) ==> WellFormed(a.after)
  {
    Redecoded(b.(data := data))
  }

  /**
   * Sign.setDirection: encode the direction in the current mode. A wall sign
   * rejects a non-cardinal direction before anything is written.
   */
  function DirectionSet(b: Block, d: Direction): (a: Attempt)
    ensures a.failure.None? <==> (b.isWallSign ==> IsCardinal(d))
    ensures a.failure.Some? ==> a == Attempt(b, Some(IllegalWallDirection(d)))
    ensures a.failure.None? ==> a.after.direction == d && Synced(a.after)
    ensures a.after.(data := b.data, direction := b.direction) == b
    ensures WellFormed(b) ==> WellFormed(a.after)
  {
    match Encode(b.isWallSign, d)
    case None => Attempt(b, Some(IllegalWallDirection(d)))
    case Some(data) => Attempt(b.(data := data, direction := d), None)
  }

  /** Sign.setWallSign: changes the id and the mode flag, and re-derives nothing. */
  function WallModeSet(b: Block, isWallSign: bool): (r: Block)
    ensures r.isWallSign == isWallSign
    ensures r.data == b.data && r.direction == b.direction && r.text == b.text
    ensures |b.text| == LineCount ==> WellFormed(r)
  {
    b.(id := ModeId(isWallSign), isWallSign := isWallSign)
  }

  /** Sign.setText: only four lines are accepted; otherwise nothing changes. */
  function TextSet(b: Block, text: Option<seq<string>>): (a: Attempt)
    ensures a.failure.None? <==> text.Some? && |text.value| == LineCount
    ensures a.failure.None? ==> a.after == b.(text := text.value)
    ensures a.failure.Some? ==> a == Attempt(b, Some(TextNotFourLines))
    ensures WellFormed(b) ==> WellFormed(a.after)
  {
    match ReplacementText(text)
    case Failure(e) => Attempt(b, Some(e))
    case Success(lines) => Attempt(b.(text := lines), None)
  }

  /**
   * Sign(String[] text, short id, byte data): the id is checked first, then
   * the text, then the data is decoded.
   */
  function CreatedById(text: Option<seq<string>>, id: Short, data: Byte): (r: Result<Block, Error>)
    ensures r.Success? <==>
      (id == WallSignId || id == StandingSignId) && NormalizedText(text).Success? && Decode(id == WallSignId, data).Some?
    ensures id != WallSignId && id != StandingSignId ==> r == Failure(InvalidSignId(id))
    ensures r.Success? ==> WellFormed(r.value) && Synced(r.value)
    ensures r.Success? ==> r.value.id == id && r.value.data == data && r.value.text == NormalizedText(text).value
  {
    if id != WallSignId && id != StandingSignId then Failure(InvalidSignId(id))
    else
      match NormalizedText(text)
      case Failure(e) => Failure(e)
      case Success(lines) =>
        match Decode(id == WallSignId, data)
        case None => Failure(IllegalDirectionalState(data))
        case Some(d) => Success(Block(id, data, d, id == WallSignId, lines))
  }

  /** Sign(String[] text, boolean isWallSign, byte data): the id follows from the mode. */
  function CreatedByMode(text: Option<seq<string>>, isWallSign: bool, data: Byte): (r: Result<Block, Error>)
    ensures r.Success? <==> NormalizedText(text).Success? && Decode(isWallSign, data).Some?
    ensures r.Success? ==> WellFormed(r.value) && Synced(r.value)
    ensures r.Success? ==> r.value.isWallSign == isWallSign && r.value.data == data && r.value.text == NormalizedText(text).value
  {
    match NormalizedText(text)
    case Failure(e) => Failure(e)
    case Success(lines) =>
      match Decode(isWallSign, data)
      case None => Failure(IllegalDirectionalState(data))
      case Some(d) => Success(Block(ModeId(isWallSign), data, d, isWallSign, lines))
  }

  /**
   * Sign(String[] text, boolean isWallSign, Direction direction): built with
   * data 2, legal in both modes, then given the direction.
   */
  function CreatedByDirection(text: Option<seq<string>>, isWallSign: bool, d: Direction): (r: Result<Block, Error>)
    ensures r.Success? <==> NormalizedText(text).Success? && (isWallSign ==> IsCardinal(d))
    ensures r.Success? ==> WellFormed(r.value) && Synced(r.value)
    ensures r.Success? ==> r.value.isWallSign == isWallSign && r.value.direction == d && r.value.text == NormalizedText(text).value
  {
    match CreatedByMode(text, isWallSign, 2)
    case Failure(e) => Failure(e)
    case Success(b) =>
      var a := DirectionSet(b, d);
      if a.failure.Some? then Failure(a.failure.value) else Success(a.after)
  }

  /** In a given mode the direction determines the data value. */
  lemma SyncedDataDetermined(b1: Block, b2: Block)
    requires Synced(b1) && Synced(b2)
    requires b1.isWallSign == b2.isWallSign && b1.direction == b2.direction
    ensures b1.data == b2.data
  {
  }

  /**
   * A turn of a consistent sign never fails, keeps it consistent, keeps the
   * data in the mode's legal range and turns the direction by a quarter.
   */
  lemma TurnSynced(b: Block, clockwise: bool)
    requires Synced(b)
    ensures Turned(b, clockwise).failure.None?
    ensures Synced(Turned(b, clockwise).after)
    ensures Turned(b, clockwise).after.direction == Rotated(b.direction, clockwise)
    ensures b.isWallSign ==> 2 <= Turned(b, clockwise).after.data <= 5
    ensures !b.isWallSign ==> Turned(b, clockwise).after.data == (b.data + (if clockwise then 4 else 12)) % 16
  {
    if !b.isWallSign {
      FreeTurnRotates(b.data, clockwise);
    }
  }

  /**
   * What Sign.turn actually reads: the direction of a wall sign, the data of a
   * freestanding one. A sign is turnable when that field is legal, whether or
   * not the other field agrees with it.
   */
  predicate Turnable(b: Block) {
    if b.isWallSign then IsCardinal(b.direction) else 0 <= b.data < 16
  }

  /**
   * A turnable sign, consistent or not, turns without failure and comes out
   * consistent: a wall sign by a quarter turn of its direction, a freestanding
   * one by a quarter turn of what its data decodes to.
   */
  lemma TurnResyncs(b: Block, clockwise: bool)
    requires Turnable(b)
    ensures Turned(b, clockwise).failure.None?
    ensures Synced(Turned(b, clockwise).after)
    ensures b.isWallSign ==> Turned(b, clockwise).after.direction == Rotated(b.direction, clockwise)
    ensures !b.isWallSign ==>
      Turned(b, clockwise).after.data == (b.data + (if clockwise then 4 else 12)) % 16 &&
      Turned(b, clockwise).after.direction == Rotated(DecodeFree(b.data).value, clockwise)
  {
    if !b.isWallSign {
      FreeTurnRotates(b.data, clockwise);
    }
  }

  /**
   * Turning after setWallSign reads only the field of the new mode. A wall
   * sign facing north (data 2) switched to freestanding and turned clockwise
   * ends at data 6, facing north-west, not east; a freestanding sign facing
   * north-north-east (data 9) switched to wall mode cannot be turned at all.
   */
  lemma SwitchThenTurn()
    ensures var b := Block(WallSignId, 2, N, true, ["", "", "", ""]);
      var a := Turned(WallModeSet(b, false), true);
      Synced(b) && a.failure.None? && a.after.data == 6 && a.after.direction == NW && Rotated(N, true) == E
    ensures var b := Block(StandingSignId, 9, NNE, false, ["", "", "", ""]);
      Synced(b) && Turned(WallModeSet(b, true), true).failure == Some(AssertionFault(NNE))
  {
  }

  /** A turn one way followed by a turn the other way restores data and direction. */
  lemma TurnThenTurnBack(b: Block, clockwise: bool)
    requires Synced(b)
    ensures Turned(Turned(b, clockwise).after, !clockwise) == Attempt(b, None)
  {
  }

  /** Four turns the same way restore data and direction. */
  lemma FourTurns(b: Block, clockwise: bool)
    requires Synced(b)
    ensures TurnedN(b, clockwise, 4) == Attempt(b, None)
  {
    var b1 := Turned(b, clockwise).after;
    TurnSynced(b, clockwise);
    var b2 := Turned(b1, clockwise).after;
    TurnSynced(b1, clockwise);
    var b3 := Turned(b2, clockwise).after;
    TurnSynced(b2, clockwise);
    var b4 := Turned(b3, clockwise).after;
    TurnSynced(b3, clockwise);
    RotatedFourTimes(b.direction, clockwise);
    SyncedDataDetermined(b, b4);
    assert TurnedN(b4, clockwise, 0) == Attempt(b, None);
    assert TurnedN(b3, clockwise, 1) == Attempt(b, None);
    assert TurnedN(b2, clockwise, 2) == Attempt(b, None);
    assert TurnedN(b1, clockwise, 3) == Attempt(b, None);
  }

  /** Turning is periodic with period four. */
  lemma {:induction false} TurnsPeriodic(b: Block, clockwise: bool, n: nat)
    requires Synced(b)
    ensures TurnedN(b, clockwise, n + 4) == TurnedN(b, clockwise, n)
    decreases n
  {
    if n == 0 {
      FourTurns(b, clockwise);
    } else {
      TurnSynced(b, clockwise);
      TurnsPeriodic(Turned(b, clockwise).after, clockwise, n - 1);
    }
  }

  /**
   * A consistent freestanding sign facing south (data 0) switched to wall mode
   * keeps data 0, which no wall sign can decode: setWallSign does not repair
   * the pairing.
   */
  lemma ModeSwitchLeavesUnsynced()
    ensures var b := Block(StandingSignId, 0, S, false, ["", "", "", ""]);
      WellFormed(b) && Synced(b) && WellFormed(WallModeSet(b, true)) && !Synced(WallModeSet(b, true))
  {
  }

  /**
   * A consistent wall sign facing north given data 7 throws, but keeps data 7
   * and the stale direction: setData does not validate before writing.
   */
  lemma BadDataLeavesUnsynced()
    ensures var b := Block(WallSignId, 2, N, true, ["", "", "", ""]);
      var a := DataSet(b, 7);
      Synced(b) && a.failure == Some(IllegalDirectionalState(7)) && a.after.data == 7 &&
      a.after.direction == N && !Synced(a.after)
  {
  }
}
