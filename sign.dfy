/**
 * The sign block as an object: the fields of Sign and of its DirectionalBlock
 * base, updated in place by its methods. Each method is specified by the step
 * of SignBlock it performs; the Java constructors, which may throw, are static
 * methods that return the new sign or the failure.
 */
module Signs {
  import opened Wrappers
  import opened Compass
  import opened SignCodec
  import opened SignText
  import opened SignBlock
  import opened SignImages

  class Sign {
    var id: Short
    var data: Byte
    var direction: Direction
    var isWallSign: bool
    var text: seq<string>

    /** The sign's fields as a value. */
    function State(): Block
      reads this
    {
      Block(id, data, direction, isWallSign, text)
    }

    /** Id and mode agree, and there are four lines of text. */
    ghost predicate Valid()
      reads this
    {
      WellFormed(State())
    }

    /**
     * DirectionalBlock(id, data), the super call: only the first step of
     * NewById, NewByMode and NewByDirection. The sign it leaves has no text
     * and is not Valid; it is not to be used on its own.
     */
    constructor Base(id: Short, data: Byte)
      ensures this.id == id && this.data == data && !isWallSign && text == []
    {
      this.id := id;
      this.data := data;
      direction := N;
      isWallSign := false;
      text := [];
    }

    /** Sign(String[] text, short id, byte data). */
    static method NewById(text: Option<seq<string>>, id: Short, data: Byte) returns (r: Result<Sign, Error>)
      ensures r.Success? ==> fresh(r.value) && r.value.Valid() && Synced(r.value.State())
      ensures match r
        case Success(s) => CreatedById(text, id, data) == Success(s.State())
        case Failure(e) => CreatedById(text, id, data) == Failure(e)
    {
      var s := new Sign.Base(id, data);
      if id != StandingSignId && id != WallSignId {
        return Failure(InvalidSignId(id));
      }
      s.isWallSign := id == WallSignId;
      var lines := NewText(text);
      if lines.Failure? {
        return Failure(lines.error);
      }
      s.text := lines.value;
      var failure := s.SetDirectionByCurData();
      if failure.Some? {
        return Failure(failure.value);
      }
      return Success(s);
    }

    /** Sign(String[] text, boolean isWallSign, byte data). */
    static method NewByMode(text: Option<seq<string>>, isWallSign: bool, data: Byte) returns (r: Result<Sign, Error>)
      ensures r.Success? ==> fresh(r.value) && r.value.Valid() && Synced(r.value.State())
      ensures match r
        case Success(s) => CreatedByMode(text, isWallSign, data) == Success(s.State())
        case Failure(e) => CreatedByMode(text, isWallSign, data) == Failure(e)
    {
      var s := new Sign.Base(ModeId(isWallSign), data);
      s.isWallSign := isWallSign;
      var lines := NewText(text);
      if lines.Failure? {
        return Failure(lines.error);
      }
      s.text := lines.value;
      var failure := s.SetDirectionByCurData();
      if failure.Some? {
        return Failure(failure.value);
      }
      return Success(s);
    }

    /** Sign(String[] text, boolean isWallSign, Direction direction): data 2, then setDirection. */
    static method NewByDirection(text: Option<seq<string>>, isWallSign: bool, d: Direction) returns (r: Result<Sign, Error>)
      ensures r.Success? ==> fresh(r.value) && r.value.Valid() && Synced(r.value.State())
      ensures match r
        case Success(s) => CreatedByDirection(text, isWallSign, d) == Success(s.State())
        case Failure(e) => CreatedByDirection(text, isWallSign, d) == Failure(e)
    {
      r := NewByMode(text, isWallSign, 2);
      if r.Failure? {
        return;
      }
      var s := r.value;
      var failure := s.SetDirection(d);
      if failure.Some? {
        return Failure(failure.value);
      }
    }

    /** Sign.setText. */
    method SetText(text: Option<seq<string>>) returns (failure: Option<Error>)
      modifies this
      ensures Attempt(State(), failure) == TextSet(old(State()), text)
      ensures old(Valid()) ==> Valid()
    {
      if text.None? || |text.value| != LineCount {
        return Some(TextNotFourLines);
      }
      this.text := text.value;
      return None;
    }

    /** Sign.setWallSign: the id and the flag change, data and direction stay. */
    method SetWallSign(isWallSign: bool)
      modifies this
      ensures State() == WallModeSet(old(State()), isWallSign)
      ensures old(Valid()) ==> Valid()
    {
      id := if isWallSign then WallSignId else StandingSignId;
      this.isWallSign := isWallSign;
    }

    /** Sign.setDirectionByCurData. */
    method SetDirectionByCurData() returns (failure: Option<Error>)
      modifies this
      ensures Attempt(State(), failure) == Redecoded(old(State()))
    {
      var decoded := Decode(isWallSign, data);
      if decoded.None? {
        return Some(IllegalDirectionalState(data));
      }
      direction := decoded.value;
      return None;
    }

    /** Sign.turn. */
    method Turn(clockwise: bool) returns (failure: Option<Error>)
      modifies this
      ensures Attempt(State(), failure) == Turned(old(State()), clockwise)
      ensures old(Valid()) ==> Valid()
      ensures old(Synced(State())) ==> failure.None? && Synced(State()) && direction == Rotated(old(direction), clockwise)
      ensures old(Turnable(State())) ==> failure.None? && Synced(State())
      ensures old(Turnable(State())) && isWallSign ==> direction == Rotated(old(direction), clockwise)
      ensures old(Turnable(State())) && !isWallSign ==>
        data == (old(data) + (if clockwise then 4 else 12)) % 16 && direction == Rotated(DecodeFree(old(data)).value, clockwise)
    {
      ghost var before := State();
      if isWallSign {
        var next := WallTurnData(direction, clockwise);
        if next.None? {
          return Some(AssertionFault(direction));
        }
        data := next.value;
      } else if clockwise {
        if data <= 11 {
          data := data + 4;
        } else {
          data := data - 12;
        }
      } else {
        if data >= 4 {
          data := data - 4;
        } else {
          data := data + 12;
        }
      }
      failure := SetDirectionByCurData();
      if Synced(before) {
        TurnSynced(before, clockwise);
      }
      if Turnable(before) {
        TurnResyncs(before, clockwise);
      }
    }

    /** Sign.setData: the value is stored before it is decoded. */
    method SetData(data: Byte) returns (failure: Option<Error>)
      modifies this
      ensures Attempt(State(), failure) == DataSet(old(State()), data)
      ensures old(Valid()) ==> Valid()
    {
      this.data := data;
      failure := SetDirectionByCurData();
    }

    /** Sign.setDirection. */
    method SetDirection(d: Direction) returns (failure: Option<Error>)
      modifies this
      ensures Attempt(State(), failure) == DirectionSet(old(State()), d)
      ensures old(Valid()) ==> Valid()
    {
      if isWallSign {
        var encoded := EncodeWall(d);
        if encoded.None? {
          return Some(IllegalWallDirection(d));
        }
        data := encoded.value;
      } else {
        data := EncodeFree(d);
      }
      direction := d;
      return None;
    }

    /** Sign.getImage, over the explicit cache object. */
    method GetImage(cache: ImageCache, p: ImageProvider, zoom: real) returns (r: Result<Option<Image>, Error>)
      modifies cache
      ensures Lookup(r, cache.State()) == CachedImage(old(cache.State()), isWallSign, id, direction, p, zoom)
      ensures Valid() && old(Consistent(cache.State(), p)) ==>
        r == Uncached(p, isWallSign, id, direction, zoom) && Consistent(cache.State(), p)
    {
      ghost var before := cache.State();
      if Valid() && Consistent(before, p) {
        CacheTransparent(before, isWallSign, direction, p, zoom);
      }
      if !p.activated {
        return Success(None);
      }
      if zoom <= 0.0 {
        return Success(None);
      }
      var cached: Option<Image> := None;
      if cache.zoom != zoom {
        cache.freeImages := map[];
        cache.wallImages := map[];
        cache.zoom := zoom;
      } else {
        if isWallSign {
          cached := if direction in cache.wallImages then Some(cache.wallImages[direction]) else None;
        } else {
          cached := if direction in cache.freeImages then Some(cache.freeImages[direction]) else None;
        }
        if cached.Some? {
          return Success(cached);
        }
      }
      var sprite := SpriteFor(p, id);
      if sprite.None? {
        return Success(None);
      }
      var facing := direction;
      if isWallSign {
        var flipped := WallFlip(direction);
        if flipped.None? {
          return Failure(AssertionFault(direction));
        }
        facing := flipped.value;
      }
      var picture := WithArrow(facing, sprite.value);
      if zoom != 1.0 {
        picture := Zoomed(zoom, picture);
      }
      if isWallSign {
        cache.wallImages := cache.wallImages[direction := picture];
      } else {
        cache.freeImages := cache.freeImages[direction := picture];
      }
      return Success(Some(picture));
    }
  }
}
