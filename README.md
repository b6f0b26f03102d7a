# Sign block of MCArchitect, in Dafny

This project models the sign block of the MCArchitect schematic editor
(`klaue.mcschematictool.blocktypes.Sign`). A sign is a directional block with
four parts:

- **Orientation.** A Minecraft data byte holds the orientation, and a compass
  `direction` is derived from it.
- **Placement mode.** A wall sign has block id 68 and uses data 2..5. A
  freestanding sign has block id 63 and uses data 0..15.
- **Text.** A sign carries exactly four lines of text.
- **Picture cache.** All signs share one picture cache, which holds pictures for
  the last zoom requested and is emptied when a different zoom is requested.

Modules, leaf first:

- `Compass` (compass.dfy): the sixteen compass points. `Index` counts them
  clockwise from north. It gives an arithmetic reference (`Rotated`,
  `Opposite`) for the hand-written tables of the sign.
- `SignCodec` (codec.dfy): the Java `byte`/`short` ranges, the thrown
  exceptions as an `Error` datatype, and the sign's switch tables as functions.
  The tables are decode, encode, the wall turn table, the freestanding turn
  arithmetic and the wall picture flip.
- `SignText` (text.dfy): the text normalisation of the constructors (the fill
  and copy loop is `PadLines`) and the check made by `setText`.
- `SignBlock` (block.dfy): the sign's fields as a value `Block`, and each
  operation as a step from one state to the next. A Java exception does not
  roll back the writes made before it. So every step yields an `Attempt`: the
  state left behind and the failure, if any. The lemmas about turning,
  round trips and consistency live here.
- `SignImages` (images.dfy): pictures as a symbolic datatype, the image
  provider as a value, the two static picture maps and the recorded zoom as
  `CacheState`, the `getImage` step, and the proof that the cache is invisible.
  The static fields become an explicit `ImageCache` object.
- `Signs` (sign.dfy): the class `Sign`. Its fields are `id`, `data` and
  `direction` from the `DirectionalBlock` base, plus `isWallSign` and `text`.
  Its methods update them in place. Each method's postcondition is the
  `SignBlock` step it performs. The three Java constructors can throw, so they
  are static methods that return the new sign or the error.

Two invariants recur:

- `WellFormed`: id 63 or 68, agreeing with the mode flag, and four lines of
  text. Every operation keeps it, failing ones included.
- `Synced`: the direction is what the data decodes to in the current mode.
  Successful construction establishes it, and `turn`, a successful
  `setData` and a successful `setDirection` keep it. `setWallSign` and a
  failing `setData` can break it (`ModeSwitchLeavesUnsynced`,
  `BadDataLeavesUnsynced`).

The model keeps the code's behaviour of `setWallSign`: the data byte is not
re-encoded for the new mode. A caller has to follow the switch with
`setDirection` or `setData`. A `turn` also restores `Synced` when the field
the new mode reads is legal, but from that field alone (`TurnResyncs`,
`SwitchThenTurn`).

Two behaviours of the code are kept as written:

- `setData` stores the byte before decoding it. A bad byte therefore stays
  stored and the direction goes stale (`DataSet`, `BadDataLeavesUnsynced`).
- `turn` on a freestanding sign applies its arithmetic to any byte and throws
  only when the result does not decode (`Turned`). For example, data 20 turned
  clockwise becomes 8, which decodes to north.

## Model

| member | source | states |
|---|---|---|
| SignCodec.ModeId | MCArchitect/src/klaue/mcschematictool/blocktypes/Sign.java:146-149 | the id is 68 exactly for a wall sign, and otherwise 63 |
| SignCodec.DecodeWall | MCArchitect/src/klaue/mcschematictool/blocktypes/Sign.java:155-171 | wall data decodes exactly when it is 2..5, and always to a cardinal direction |
| SignCodec.DecodeFree | MCArchitect/src/klaue/mcschematictool/blocktypes/Sign.java:172-224 | freestanding data decodes exactly when it is 0..15, to compass point data+8 mod 16 (0 is south, each step one point clockwise) |
| SignCodec.Decode | MCArchitect/src/klaue/mcschematictool/blocktypes/Sign.java:154-226 | the legal data set of each mode; wall signs decode only to cardinal directions |
| SignCodec.EncodeWall | MCArchitect/src/klaue/mcschematictool/blocktypes/Sign.java:280-296 | a wall sign encodes exactly the four cardinal directions, to a byte that decodes back to the direction |
| SignCodec.EncodeFree | MCArchitect/src/klaue/mcschematictool/blocktypes/Sign.java:297-350 | every direction encodes to a byte in 0..15 that decodes back to it |
| SignCodec.Encode | MCArchitect/src/klaue/mcschematictool/blocktypes/Sign.java:279-353 | encoding fails only for a non-cardinal wall direction; decoding undoes encoding |
| SignCodec.DecodeThenEncode | MCArchitect/src/klaue/mcschematictool/blocktypes/Sign.java:154-226 | every legal data value of a mode is the encoding of what it decodes to |
| SignCodec.WallTurnData | MCArchitect/src/klaue/mcschematictool/blocktypes/Sign.java:236-253 | the wall turn table is defined exactly on N, E, S and W, and leads to the data of the quarter-turned direction (N to E to S to W clockwise) |
| SignCodec.FreeTurnData | MCArchitect/src/klaue/mcschematictool/blocktypes/Sign.java:255-267 | on data 0..15 the freestanding turn is data+4 mod 16 clockwise and data+12 mod 16 counter-clockwise |
| SignCodec.FreeTurnRotates | MCArchitect/src/klaue/mcschematictool/blocktypes/Sign.java:255-269 | on a legal freestanding byte, the turn arithmetic turns the decoded direction by a quarter |
| SignCodec.WallFlip | MCArchitect/src/klaue/mcschematictool/blocktypes/Sign.java:432-452 | the wall picture flip is defined exactly on cardinal directions and gives the opposite one |
| Compass.Rotated | MCArchitect/src/klaue/mcschematictool/blocktypes/Sign.java:234-270 | a quarter turn maps cardinal directions to cardinal ones and no others |
| Compass.RotatedUndone | MCArchitect/src/klaue/mcschematictool/blocktypes/Sign.java:234-270 | a quarter turn one way is undone by one the other way |
| Compass.RotatedFourTimes | MCArchitect/src/klaue/mcschematictool/blocktypes/Sign.java:234-270 | four quarter turns the same way are the identity |
| Compass.HalfTurn | MCArchitect/src/klaue/mcschematictool/blocktypes/Sign.java:432-452 | two quarter turns the same way give the opposite direction |
| Compass.OppositeTwice | MCArchitect/src/klaue/mcschematictool/blocktypes/Sign.java:432-452 | flipping twice gives the direction back |
| SignText.NormalizedText | MCArchitect/src/klaue/mcschematictool/blocktypes/Sign.java:47-61 | null or empty text becomes four empty lines; up to four lines are kept in order and padded with ""; more than four fail |
| SignText.PadLines | MCArchitect/src/klaue/mcschematictool/blocktypes/Sign.java:56-60 | the fill-and-copy loop yields four lines: the given ones first, then "" |
| SignText.NewText | MCArchitect/src/klaue/mcschematictool/blocktypes/Sign.java:79-93 | the constructors' branches compute exactly the normalised text or the error |
| SignText.ReplacementText | MCArchitect/src/klaue/mcschematictool/blocktypes/Sign.java:125-130 | setText accepts exactly a non-null array of four lines, unchanged |
| SignBlock.Redecoded | MCArchitect/src/klaue/mcschematictool/blocktypes/Sign.java:154-226 | decoding changes only the direction; it fails exactly on an illegal byte and then changes nothing |
| SignBlock.Turned | MCArchitect/src/klaue/mcschematictool/blocktypes/Sign.java:234-270 | a turn changes only data and direction, keeps WellFormed, and is an AssertionError on a non-cardinal wall sign |
| SignBlock.DataSet | MCArchitect/src/klaue/mcschematictool/blocktypes/Sign.java:272-276 | the byte is stored even when it fails to decode; on failure the direction is stale; on success the sign is Synced |
| SignBlock.DirectionSet | MCArchitect/src/klaue/mcschematictool/blocktypes/Sign.java:278-353 | fails exactly for a non-cardinal wall direction, then changing nothing; otherwise the direction is the argument and the sign is Synced |
| SignBlock.WallModeSet | MCArchitect/src/klaue/mcschematictool/blocktypes/Sign.java:146-149 | only id and mode flag change; data, direction and text stay |
| SignBlock.TextSet | MCArchitect/src/klaue/mcschematictool/blocktypes/Sign.java:125-130 | text is replaced exactly when four lines are given; otherwise nothing changes |
| SignBlock.CreatedById | MCArchitect/src/klaue/mcschematictool/blocktypes/Sign.java:38-64 | succeeds exactly for id 63/68, at most four lines and decodable data; an invalid id is reported first; the result is WellFormed and Synced |
| SignBlock.CreatedByMode | MCArchitect/src/klaue/mcschematictool/blocktypes/Sign.java:73-96 | succeeds exactly for at most four lines and decodable data; the result is WellFormed and Synced |
| SignBlock.CreatedByDirection | MCArchitect/src/klaue/mcschematictool/blocktypes/Sign.java:105-109 | succeeds exactly for at most four lines and a direction legal in the mode; the result faces it, WellFormed and Synced |
| SignBlock.SyncedDataDetermined | MCArchitect/src/klaue/mcschematictool/blocktypes/Sign.java:279-353 | in one mode, the direction determines the data byte of a Synced sign |
| SignBlock.TurnSynced | MCArchitect/src/klaue/mcschematictool/blocktypes/Sign.java:234-270 | turning a Synced sign never fails, stays Synced, turns the direction by a quarter, keeps wall data in 2..5 and steps freestanding data by 4 (or 12) mod 16 |
| SignBlock.TurnThenTurnBack | MCArchitect/src/klaue/mcschematictool/blocktypes/Sign.java:234-270 | a turn followed by a turn the other way restores data and direction |
| SignBlock.FourTurns | MCArchitect/src/klaue/mcschematictool/blocktypes/Sign.java:234-270 | four turns the same way restore data and direction, in both modes |
| SignBlock.TurnsPeriodic | MCArchitect/src/klaue/mcschematictool/blocktypes/Sign.java:234-270 | n+4 turns give the same state as n turns |
| SignBlock.TurnResyncs | MCArchitect/src/klaue/mcschematictool/blocktypes/Sign.java:234-270 | turn reads only the direction of a wall sign and only the data of a freestanding one: with that field legal (cardinal, or 0..15) the turn never fails and leaves the sign Synced, even when it was not; a wall sign's direction turns by a quarter, a freestanding sign's data steps by 4 (or 12) mod 16 and its direction is the quarter turn of what the old data decodes to |
| SignBlock.SwitchThenTurn | MCArchitect/src/klaue/mcschematictool/blocktypes/Sign.java:234-270 | after setWallSign, turn follows the field of the new mode: a north wall sign (data 2) made freestanding turns clockwise to data 6, north-west, not east; a freestanding sign facing north-north-east made a wall sign throws the AssertionError |
| SignBlock.ModeSwitchLeavesUnsynced | MCArchitect/src/klaue/mcschematictool/blocktypes/Sign.java:146-149 | a Synced freestanding sign facing south becomes an unsynced wall sign: setWallSign repairs nothing |
| SignBlock.BadDataLeavesUnsynced | MCArchitect/src/klaue/mcschematictool/blocktypes/Sign.java:272-276 | setData(7) on a wall sign throws, keeps data 7 and the old direction |
| SignImages.Facing | MCArchitect/src/klaue/mcschematictool/blocktypes/Sign.java:430-452 | the arrow of a wall sign points opposite its facing; a non-cardinal wall sign is an AssertionError; freestanding signs keep their direction |
| SignImages.Rendered | MCArchitect/src/klaue/mcschematictool/blocktypes/Sign.java:454-459 | the picture is the sprite with an arrow facing the given direction, scaled by the zoom exactly when the zoom is not 1 |
| SignImages.Uncached | MCArchitect/src/klaue/mcschematictool/blocktypes/Sign.java:396-459 | no picture exactly when the provider is inactive, the zoom is not positive or the provider has no sprite; otherwise an AssertionError exactly for a non-cardinal wall sign, and else the sprite rendered at the opposite direction for a wall sign or at the sign's own direction for a freestanding one |
| SignImages.CachedImage | MCArchitect/src/klaue/mcschematictool/blocktypes/Sign.java:396-469 | inactive provider or zoom <= 0 leaves the cache alone; a new zoom empties both maps and records it; a hit at the recorded zoom is returned unchanged; a miss (new zoom or no cached picture) returns exactly the uncached render; a null sprite or a failure stores nothing, and after a new zoom leaves both maps empty; a new zoom also empties the other mode's map; a new picture is stored only under the sign's own direction in its mode's map; at an unchanged zoom the other mode's map and every other cached picture stay as they were |
| SignImages.CacheTransparent | MCArchitect/src/klaue/mcschematictool/blocktypes/Sign.java:404-469 | from a consistent cache, getImage returns exactly what an uncached render returns at the requested zoom, and the cache stays consistent |
| SignImages.InitialCacheConsistent | MCArchitect/src/klaue/mcschematictool/blocktypes/Sign.java:20-22 | the initial cache (empty maps, zoom -1) is consistent |
| SignImages.ImageCache.constructor | MCArchitect/src/klaue/mcschematictool/blocktypes/Sign.java:20-22 | the cache starts with both maps empty and zoom -1 |
| Signs.Sign.Base | MCArchitect/src/klaue/mcschematictool/blocktypes/Sign.java:39 | the base part of a new sign holds the given id and data |
| Signs.Sign.NewById | MCArchitect/src/klaue/mcschematictool/blocktypes/Sign.java:38-64 | returns a fresh, Valid, Synced sign whose state is CreatedById, or CreatedById's error |
| Signs.Sign.NewByMode | MCArchitect/src/klaue/mcschematictool/blocktypes/Sign.java:73-96 | returns a fresh, Valid, Synced sign whose state is CreatedByMode, or its error |
| Signs.Sign.NewByDirection | MCArchitect/src/klaue/mcschematictool/blocktypes/Sign.java:105-109 | returns a fresh, Valid, Synced sign whose state is CreatedByDirection, or its error |
| Signs.Sign.SetText | MCArchitect/src/klaue/mcschematictool/blocktypes/Sign.java:125-130 | performs TextSet and keeps Valid |
| Signs.Sign.SetWallSign | MCArchitect/src/klaue/mcschematictool/blocktypes/Sign.java:146-149 | performs WallModeSet and keeps Valid |
| Signs.Sign.SetDirectionByCurData | MCArchitect/src/klaue/mcschematictool/blocktypes/Sign.java:154-226 | performs Redecoded |
| Signs.Sign.Turn | MCArchitect/src/klaue/mcschematictool/blocktypes/Sign.java:234-270 | performs Turned, keeps Valid; on a Synced sign it cannot fail, stays Synced and turns the direction by a quarter; on any turnable sign (cardinal wall direction, or freestanding data 0..15) it cannot fail and leaves the sign Synced, with the result TurnResyncs states |
| Signs.Sign.SetData | MCArchitect/src/klaue/mcschematictool/blocktypes/Sign.java:272-276 | performs DataSet and keeps Valid |
| Signs.Sign.SetDirection | MCArchitect/src/klaue/mcschematictool/blocktypes/Sign.java:278-353 | performs DirectionSet and keeps Valid |
| Signs.Sign.GetImage | MCArchitect/src/klaue/mcschematictool/blocktypes/Sign.java:395-469 | performs CachedImage on the shared cache; for a Valid sign and a consistent cache it returns the uncached render and keeps the cache consistent |

## Left out

- `equals` and `hashCode`: they rest on `DirectionalBlock.equals`, which is not part of this model, and `hashCode` on Java `int` overflow.
- `toString` and `getCustomToolTip`: string formatting, and glyph drawing onto the sign plate.
- Pixels: `addArrowToImage` and `ImageProvider.zoom` are recorded symbolically (`WithArrow`, `Zoomed`), not drawn.
- The image provider: `ImageProvider.isActivated` and `getImageByBlockOrItemID` become a value with an activation flag and a map from block id to picture.
- Zoom is a `real`. Java's `double` rounding and NaN are not modelled. A NaN zoom would never equal the recorded zoom.
- The `synchronized` lock on `getImage`: the cache is single-threaded state. The static fields become one `ImageCache` object that the caller passes in.
- Array aliasing: the constructors and `setText` keep the caller's four-element array by reference. Text here is an immutable sequence, so later writes through the caller's array are not modelled, and neither are null entries inside it.
- The `DirectionalBlock` base and the `Direction` enum are not part of this model beyond the fields `id`, `data` and `direction` and the sixteen compass points. The `type = Type.SIGN` assignment is left out. So is `setId`, whose effect is taken to be assigning `id`. A null direction passed to `setDirection` is left out too.
- The getters `getText` and `isWallSign` are reads of the fields `text` and `isWallSign`.
- `IconFactory` and `Application`: resource loading and window start-up.
