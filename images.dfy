/**
 * The picture of a sign and the per-zoom picture cache shared by all signs.
 * Pictures are described by how they are composed, so that which arrow was
 * drawn and which zoom was applied stay visible; the image provider is a value
 * saying whether it is activated and which picture it has for each block id.
 */
module SignImages {
  import opened Wrappers
  import opened Compass
  import opened SignCodec

  /** A picture, by its composition. */
  datatype Image =
    | Sprite(key: nat)                          // a picture the provider supplies
    | WithArrow(facing: Direction, base: Image) // Sign.addArrowToImage
    | Zoomed(factor: real, base: Image)         // ImageProvider.zoom

  /** The image provider: activated or not, and the picture it has per block id. */
  datatype ImageProvider = ImageProvider(activated: bool, sprites: map<int, Image>)

  /** ImageProvider.getImageByBlockOrItemID: null where it has no picture. */
  function SpriteFor(p: ImageProvider, id: int): Option<Image> {
    if id in p.sprites then Some(p.sprites[id]) else None
  }

  /**
   * The direction the arrow is drawn in: a wall sign shows the wall it hangs
   * on, the side opposite its facing; a non-cardinal wall sign is an AssertionError.
   */
  function Facing(isWallSign: bool, d: Direction): (r: Result<Direction, Error>)
    ensures r.Success? <==> (isWallSign ==> IsCardinal(d))
    ensures r.Success? ==> r.value == if isWallSign then Opposite(d) else d
    ensures r.Failure? ==> r.error == AssertionFault(d)
  {
    if !isWallSign then Success(d)
    else
      match WallFlip(d)
      case None => Failure(AssertionFault(d))
      case Some(f) => Success(f)
  }

  /** The sprite with an arrow drawn facing `facing`, scaled unless the zoom is 1. */
  function Rendered(sprite: Image, facing: Direction, zoom: real): (img: Image)
    ensures img.Zoomed? <==> zoom != 1.0
    ensures img.Zoomed? ==> img.factor == zoom && img.base == WithArrow(facing, sprite)
    ensures !img.Zoomed? ==> img == WithArrow(facing, sprite)
  {
    var arrowed := WithArrow(facing, sprite);
    if zoom != 1.0 then Zoomed(zoom, arrowed) else arrowed
  }

  /** What Sign.getImage returns when nothing is cached: the reference the cache must agree with. */
  function Uncached(p: ImageProvider, isWallSign: bool, id: int, d: Direction, zoom: real): (r: Result<Option<Image>, Error>)
    ensures r == Success(None) <==> !p.activated || zoom <= 0.0 || id !in p.sprites
    ensures p.activated && zoom > 0.0 && id in p.sprites ==> (r.Failure? <==> isWallSign && !IsCardinal(d))
    ensures r.Failure? ==> isWallSign && !IsCardinal(d) && r.error == AssertionFault(d)
    ensures r.Success? && r.value.Some? ==>
      (id in p.sprites && r.value.value == Rendered(p.sprites[id], if isWallSign then Opposite(d) else d, zoom))
  {
    if !p.activated || zoom <= 0.0 then Success(None)
    else
      match SpriteFor(p, id)
      case None => Success(None)
      case Some(sprite) =>
        match Facing(isWallSign, d)
        case Failure(e) => Failure(e)
        case Success(f) => Success(Some(Rendered(sprite, f, zoom)))
  }

  /** The two static maps of Sign (wall and freestanding pictures) and the recorded zoom. */
  datatype CacheState = CacheState(wallImages: map<Direction, Image>, freeImages: map<Direction, Image>, zoom: real)

  /** The cache Sign starts with: both maps empty, zoom -1. */
  const InitialCache := CacheState(map[], map[], -1.0)

  /** The map a sign of the given mode uses. */
  function ModeImages(c: CacheState, isWallSign: bool): map<Direction, Image> {
    if isWallSign then c.wallImages else c.freeImages
  }

  /** The result of Sign.getImage and the cache it leaves. */
  datatype Lookup = Lookup(result: Result<Option<Image>, Error>, cache: CacheState)

  /**
   * Sign.getImage for a sign of the given mode, id and direction. A change of
   * zoom empties both maps and records the new zoom; at the recorded zoom a
   * picture cached for the direction is returned as it is; otherwise the
   * picture is rendered and stored under the sign's own direction.
   */
  function CachedImage(c: CacheState, isWallSign: bool, id: int, d: Direction, p: ImageProvider, zoom: real): (l: Lookup)
    ensures !p.activated || zoom <= 0.0 ==> l == Lookup(Success(None), c)
    ensures p.activated && zoom > 0.0 ==> l.cache.zoom == zoom
    ensures p.activated && zoom > 0.0 && zoom != c.zoom ==>
      l.cache.wallImages.Keys + l.cache.freeImages.Keys <= {d}
    ensures p.activated && zoom > 0.0 && zoom == c.zoom && d in ModeImages(c, isWallSign) ==>
      l == Lookup(Success(Some(ModeImages(c, isWallSign)[d])), c)
    ensures l.result.Failure? || l.result.value.None? ==>
      l.cache.wallImages.Keys <= c.wallImages.Keys && l.cache.freeImages.Keys <= c.freeImages.Keys
    ensures ModeImages(l.cache, !isWallSign).Keys <= ModeImages(c, !isWallSign).Keys
    ensures p.activated && zoom > 0.0 && zoom == c.zoom ==> ModeImages(l.cache, !isWallSign) == ModeImages(c, !isWallSign)
    ensures p.activated && zoom > 0.0 && zoom == c.zoom ==>
      forall k :: k in ModeImages(c, isWallSign) && k != d ==>
        k in ModeImages(l.cache, isWallSign) && ModeImages(l.cache, isWallSign)[k] == ModeImages(c, isWallSign)[k]
    ensures p.activated && zoom > 0.0 && zoom != c.zoom ==>
      ModeImages(l.cache, !isWallSign) == map[] &&
      (l.result.Failure? || l.result.value.None? ==> ModeImages(l.cache, isWallSign) == map[])
    ensures p.activated && zoom > 0.0 && !(zoom == c.zoom && d in ModeImages(c, isWallSign)) ==>
      l.result == Uncached(p, isWallSign, id, d, zoom)
    ensures ModeImages(l.cache, isWallSign).Keys <= ModeImages(c, isWallSign).Keys + {d}
    ensures l.result.Success? && l.result.value.Some? ==>
      (d in ModeImages(l.cache, isWallSign) && ModeImages(l.cache, isWallSign)[d] == l.result.value.value)
  {
    if !p.activated || zoom <= 0.0 then Lookup(Success(None), c)
    else if zoom == c.zoom && d in ModeImages(c, isWallSign) then
      Lookup(Success(Some(ModeImages(c, isWallSign)[d])), c)
    else
      var c1 := if zoom != c.zoom then CacheState(map[], map[], zoom) else c;
      match SpriteFor(p, id)
      case None => Lookup(Success(None), c1)
      case Some(sprite) =>
        match Facing(isWallSign, d)
        case Failure(e) => Lookup(Failure(e), c1)
        case Success(f) =>
          var img := Rendered(sprite, f, zoom);
          Lookup(Success(Some(img)),
                 if isWallSign then c1.(wallImages := c1.wallImages[d := img])
                 else c1.(freeImages := c1.freeImages[d := img]))
  }

  /**
   * Every cached picture is the one an uncached render would give for its
   * direction at the recorded zoom (wall pictures from id 68, freestanding ones from id 63).
   */
  ghost predicate Consistent(c: CacheState, p: ImageProvider) {
    (forall d :: d in c.wallImages ==> Uncached(p, true, WallSignId, d, c.zoom) == Success(Some(c.wallImages[d]))) &&
    (forall d :: d in c.freeImages ==> Uncached(p, false, StandingSignId, d, c.zoom) == Success(Some(c.freeImages[d])))
  }

  /** The cache is invisible: getImage returns what an uncached render returns, and stays consistent. */
  lemma CacheTransparent(c: CacheState, isWallSign: bool, d: Direction, p: ImageProvider, zoom: real)
    requires Consistent(c, p)
    ensures CachedImage(c, isWallSign, ModeId(isWallSign), d, p, zoom).result == Uncached(p, isWallSign, ModeId(isWallSign), d, zoom)
    ensures Consistent(CachedImage(c, isWallSign, ModeId(isWallSign), d, p, zoom).cache, p)
  {
  }

  /** The cache Sign starts with is consistent with any provider. */
  lemma InitialCacheConsistent(p: ImageProvider)
    ensures Consistent(InitialCache, p)
  {
  }

  /** The static cache of Sign, made an explicit object. */
  class ImageCache {
    var wallImages: map<Direction, Image>
    var freeImages: map<Direction, Image>
    var zoom: real

    function State(): CacheState
      reads this
    {
      CacheState(wallImages, freeImages, zoom)
    }

    constructor ()
      ensures State() == InitialCache
    {
      wallImages, freeImages, zoom := map[], map[], -1.0;
    }
  }
}
