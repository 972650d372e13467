/** Axis-aligned extents and points in projected space (mapnik's Box2d and Coord). */
module Geometry {

  datatype Coord = Coord(x: real, y: real)

  datatype Box = Box(minx: real, miny: real, maxx: real, maxy: real) {
    /** min <= max on both axes */
    predicate Normalized() {
      minx <= maxx && miny <= maxy
    }

    function Width(): real {
      maxx - minx
    }

    function Height(): real {
      maxy - miny
    }
  }

  function Min(a: real, b: real): real {
    if a <= b then a else b
  }

  function Max(a: real, b: real): real {
    if a <= b then b else a
  }

  function Abs(a: real): real {
    if a < 0.0 then -a else a
  }

  /** The box spanned by two opposite corners, whatever their order
      (Box2d built from Math.min and Math.max of the corners). */
  function Spanned(a: Coord, b: Coord): (r: Box)
    ensures r.Normalized()
    ensures r.minx == a.x || r.minx == b.x
    ensures r.maxx == a.x || r.maxx == b.x
    ensures r.miny == a.y || r.miny == b.y
    ensures r.maxy == a.y || r.maxy == b.y
    ensures r.Width() == Abs(b.x - a.x) && r.Height() == Abs(b.y - a.y)
  {
    Box(Min(a.x, b.x), Min(a.y, b.y), Max(a.x, b.x), Max(a.y, b.y))
  }
}

/** Tile and extent arithmetic of the render projections
    (Proj4RenderProjection, WebMercatorRenderProjection,
    WebMercatorTileProjection and the RenderProjection factory). */
module Projection {
  import opened Common
  import opened Geometry

  const MERCATOR_SRS: string := "+proj=merc +a=6378137 +b=6378137 +lat_ts=0.0 +lon_0=0.0 +x_0=0.0 +y_0=0 +k=1.0 +units=m +nadgrids=@null +no_defs +over"
  const WGS84_SRS: string := "+proj=longlat +ellps=WGS84 +datum=WGS84 +no_defs"

  /** Resolution (projected units per pixel) of web-mercator level 1. */
  const HIGHEST_RES: real := 78271.5170
  /** Reference resolution a Proj4 projection starts with. */
  const DEFAULT_REFERENCE_RESOLUTION: real := 100000.0
  /** Geographic point whose projection is the web-mercator tile origin. */
  const MERCATOR_GEOGRAPHIC_ORIGIN: Coord := Coord(-180.0, 85.05112878)
  /** Geographic extent whose projection is the web-mercator tile extent. */
  const GLOBAL_EXTENT: Box := Box(-180.0, -85.05112878, 180.0, 85.05112878)

  // ---------------------------------------------------------------- Java int

  const INT32_MIN: int := -0x8000_0000
  const INT32_MAX: int := 0x7fff_ffff

  predicate IsInt32(v: int) {
    INT32_MIN <= v <= INT32_MAX
  }

  /** The value a Java int holds after an arithmetic result v wraps around. */
  function Int32Wrap(v: int): (r: int)
    ensures IsInt32(r)
    ensures IsInt32(v) ==> r == v
    ensures (r - v) % 0x1_0000_0000 == 0
  {
    (v - INT32_MIN) % 0x1_0000_0000 + INT32_MIN
  }

  // ------------------------------------------------------------ resolution

  /** 2 raised to an integer power, as Math.pow(2, k) computes it. */
  function Pow2(k: int): (r: real)
    ensures r > 0.0
    decreases if k < 0 then -k else k
  {
    if k == 0 then 1.0
    else if k > 0 then 2.0 * Pow2(k - 1)
    else Pow2(k + 1) / 2.0
  }

  lemma Pow2Step(k: int)
    ensures Pow2(k + 1) == 2.0 * Pow2(k)
  {
  }

  /** referenceResolution / 2^(level-1): the resolution of a zoom level. */
  function LevelResolution(reference: real, level: int): (r: real)
    ensures r * Pow2(level - 1) == reference
  {
    reference / Pow2(level - 1)
  }

  lemma ProductNonNegative(a: real, b: real)
    requires a >= 0.0 && b >= 0.0
    ensures a * b >= 0.0
  {
  }

  /** A non-zero factor can be cancelled from both sides. */
  lemma CancelFactor(a: real, b: real, w: real)
    requires w != 0.0 && a * w == b * w
    ensures a == b
  {
    assert (a - b) * w == a * w - b * w;
  }

  /** A quotient by a positive size whose product with that size is the
      size times a non-negative resolution is that resolution. */
  lemma PerPixel(q: real, size: real, res: real)
    requires size > 0.0 && res >= 0.0 && q * size == Abs(size * res)
    ensures q == res
  {
    assert size * res >= 0.0;
    assert q * size == size * res;
    assert (q - res) * size == 0.0;
  }

  /** A non-negative reference resolution gives non-negative resolutions. */
  lemma {:induction false} ResolutionNonNegative(reference: real, level: int)
    requires reference >= 0.0
    ensures LevelResolution(reference, level) >= 0.0
  {
    var r := LevelResolution(reference, level);
    var p := Pow2(level - 1);
    assert r == reference / p;
  }

  /** Level 1 has the reference resolution. */
  lemma LevelOneIsReference(reference: real)
    ensures LevelResolution(reference, 1) == reference
  {
  }

  /** Each level halves the resolution of the one before. */
  lemma {:induction false} NextLevelHalves(reference: real, level: int)
    ensures 2.0 * LevelResolution(reference, level + 1) == LevelResolution(reference, level)
  {
    var p := Pow2(level - 1);
    Pow2Step(level - 1);
    var r0 := LevelResolution(reference, level);
    var r1 := LevelResolution(reference, level + 1);
    assert r1 * (2.0 * p) == reference;
    assert r0 * p == reference;
    assert (2.0 * r1) * p == r0 * p;
  }

  // ------------------------------------------------------------------ tiles

  /** Upper-left corner of tile (x, y): the tile offset is computed in Java
      int arithmetic (x*tileWidth wraps at 32 bits) before it is scaled. */
  function TileCorner(origin: Coord, resolution: real, x: int, y: int, tileWidth: int, tileHeight: int): Coord {
    Coord((Int32Wrap(x * tileWidth) as real) * resolution + origin.x,
          origin.y - (Int32Wrap(y * tileHeight) as real) * resolution)
  }

  /** The extent of tile (x, y): the box between its upper-left corner and
      the corner tileWidth*res to the right and tileHeight*res below it. */
  function TileBox(origin: Coord, resolution: real, x: int, y: int, tileWidth: int, tileHeight: int): (r: Box)
    ensures r.Normalized()
    ensures r.Width() == Abs((tileWidth as real) * resolution)
    ensures r.Height() == Abs((tileHeight as real) * resolution)
    ensures var c := TileCorner(origin, resolution, x, y, tileWidth, tileHeight);
      && (r.minx == c.x || r.maxx == c.x)
      && (r.miny == c.y || r.maxy == c.y)
      && ((tileWidth as real) * resolution >= 0.0 ==> r.minx == c.x)
      && ((tileHeight as real) * resolution >= 0.0 ==> r.maxy == c.y)
  {
    var ul := TileCorner(origin, resolution, x, y, tileWidth, tileHeight);
    var lr := Coord(ul.x + (tileWidth as real) * resolution, ul.y - (tileHeight as real) * resolution);
    Spanned(ul, lr)
  }

  /** With a non-negative resolution and tile size the tile hangs right of
      and below its corner. */
  lemma TileBoxAnchored(origin: Coord, resolution: real, x: int, y: int, tileWidth: int, tileHeight: int)
    requires resolution >= 0.0 && tileWidth >= 0 && tileHeight >= 0
    ensures TileBox(origin, resolution, x, y, tileWidth, tileHeight).minx == (Int32Wrap(x * tileWidth) as real) * resolution + origin.x
    ensures TileBox(origin, resolution, x, y, tileWidth, tileHeight).maxy == origin.y - (Int32Wrap(y * tileHeight) as real) * resolution
  {
    ProductNonNegative(tileWidth as real, resolution);
    ProductNonNegative(tileHeight as real, resolution);
  }

  /** Horizontally adjacent tiles share their vertical edge, provided the
      pixel offsets of both fit in a Java int. */
  lemma {:induction false} HorizontalNeighboursAbut(origin: Coord, resolution: real, x: int, y: int, w: int, h: int)
    requires resolution >= 0.0 && w >= 0
    requires IsInt32(x * w) && IsInt32((x + 1) * w)
    ensures TileBox(origin, resolution, x, y, w, h).maxx == TileBox(origin, resolution, x + 1, y, w, h).minx
    ensures TileBox(origin, resolution, x, y, w, h).miny == TileBox(origin, resolution, x + 1, y, w, h).miny
    ensures TileBox(origin, resolution, x, y, w, h).maxy == TileBox(origin, resolution, x + 1, y, w, h).maxy
  {
    var a := TileBox(origin, resolution, x, y, w, h);
    var b := TileBox(origin, resolution, x + 1, y, w, h);
    assert (x + 1) * w == x * w + w;
    assert ((x * w + w) as real) * resolution == (x * w) as real * resolution + (w as real) * resolution;
    assert (w as real) * resolution >= 0.0;
    assert a.minx == (x * w) as real * resolution + origin.x;
    assert a.maxx == a.minx + (w as real) * resolution;
    assert b.minx == ((x + 1) * w) as real * resolution + origin.x;
  }

  /** Vertically adjacent tiles share their horizontal edge, provided the
      pixel offsets of both fit in a Java int. */
  lemma {:induction false} VerticalNeighboursAbut(origin: Coord, resolution: real, x: int, y: int, w: int, h: int)
    requires resolution >= 0.0 && h >= 0
    requires IsInt32(y * h) && IsInt32((y + 1) * h)
    ensures TileBox(origin, resolution, x, y, w, h).miny == TileBox(origin, resolution, x, y + 1, w, h).maxy
    ensures TileBox(origin, resolution, x, y, w, h).minx == TileBox(origin, resolution, x, y + 1, w, h).minx
  {
    var a := TileBox(origin, resolution, x, y, w, h);
    var b := TileBox(origin, resolution, x, y + 1, w, h);
    assert (y + 1) * h == y * h + h;
    assert ((y * h + h) as real) * resolution == (y * h) as real * resolution + (h as real) * resolution;
    assert (h as real) * resolution >= 0.0;
    assert a.maxy == origin.y - (y * h) as real * resolution;
    assert a.miny == a.maxy - (h as real) * resolution;
    assert b.maxy == origin.y - ((y + 1) * h) as real * resolution;
  }

  /** Where x*tileWidth leaves the Java int range the neighbouring tiles no
      longer abut: tile 8388608 of 256-pixel tiles wraps to the far left. */
  lemma OverflowedNeighboursDoNotAbut()
    ensures TileBox(Coord(0.0, 0.0), 1.0, 8388607, 0, 256, 256).maxx == 2147483648.0
    ensures TileBox(Coord(0.0, 0.0), 1.0, 8388608, 0, 256, 256).minx == -2147483648.0
  {
    assert 8388608 * 256 == 0x8000_0000;
    assert Int32Wrap(8388608 * 256) == INT32_MIN;
    assert IsInt32(8388607 * 256);
  }

  // -------------------------------------------------------- Proj4 projection

  /** A render projection backed by a Proj4 definition; the native
      transform itself is not part of this model. */
  class Proj4RenderProjection {
    const srs: string
    var referenceResolution: real
    var origin: Coord

    constructor (srs: string)
      ensures this.srs == srs
      ensures referenceResolution == DEFAULT_REFERENCE_RESOLUTION
      ensures origin == Coord(0.0, 0.0)
    {
      this.srs := srs;
      referenceResolution := DEFAULT_REFERENCE_RESOLUTION;
      origin := Coord(0.0, 0.0);
    }

    /** WebMercatorRenderProjection: the mercator definition, the level-1
        resolution 78271.5170 and, as origin, the projection of
        (-180, 85.05112878) under the native forward transform. */
    constructor WebMercator(forward: Coord -> Coord)
      ensures IsWebMercator(this, forward)
    {
      srs := MERCATOR_SRS;
      referenceResolution := HIGHEST_RES;
      origin := forward(MERCATOR_GEOGRAPHIC_ORIGIN);
    }

    function ResolutionFromLevel(level: int): (r: real)
      reads this
      ensures r * Pow2(level - 1) == referenceResolution
    {
      LevelResolution(referenceResolution, level)
    }

    /** The extent of a tile, offset from the projected origin (y grows
        downwards in tile space and upwards in projected space); where its
        corner lies is ProjectTileCorner. */
    function ProjectTile(level: int, x: int, y: int, tileWidth: int, tileHeight: int): (r: Box)
      reads this
      ensures r.Normalized()
      ensures r.Width() == Abs((tileWidth as real) * ResolutionFromLevel(level))
      ensures r.Height() == Abs((tileHeight as real) * ResolutionFromLevel(level))
    {
      TileBox(origin, ResolutionFromLevel(level), x, y, tileWidth, tileHeight)
    }

    /** Copies the coordinates of the given point. */
    method SetProjectedOrigin(originCoord: Coord)
      modifies this
      ensures origin == originCoord
      ensures referenceResolution == old(referenceResolution)
    {
      origin := Coord(originCoord.x, originCoord.y);
    }

    method SetReferenceResolution(resolution: real)
      modifies this
      ensures referenceResolution == resolution
      ensures origin == old(origin)
    {
      referenceResolution := resolution;
    }
  }

  /** The configuration WebMercatorRenderProjection sets up. */
  predicate IsWebMercator(p: Proj4RenderProjection, forward: Coord -> Coord)
    reads p
  {
    && p.srs == MERCATOR_SRS
    && p.referenceResolution == HIGHEST_RES
    && p.origin == forward(MERCATOR_GEOGRAPHIC_ORIGIN)
  }

  // ------------------------------------------------------------- factory

  /** What an EPSG code selects: web mercator, a fixed Proj4 definition, or nothing. */
  datatype EpsgChoice = MercatorAlias | Proj4Definition(srs: string) | Unrecognized

  function EpsgChoiceOf(epsgCode: int): (r: EpsgChoice)
    ensures r == MercatorAlias <==> epsgCode == 900913 || epsgCode == 3785 || epsgCode == 3857
    ensures r == Proj4Definition(WGS84_SRS) <==> epsgCode == 4326
    ensures r.Proj4Definition? ==> r.srs == WGS84_SRS
  {
    if epsgCode == 900913 || epsgCode == 3785 || epsgCode == 3857 then MercatorAlias
    else if epsgCode == 4326 then Proj4Definition(WGS84_SRS)
    else Unrecognized
  }

  /** RenderProjection.createDefaultProjection: web mercator. */
  method CreateDefaultProjection(forward: Coord -> Coord) returns (p: Proj4RenderProjection)
    ensures fresh(p) && IsWebMercator(p, forward)
  {
    p := new Proj4RenderProjection.WebMercator(forward);
  }

  /** RenderProjection.createFromEpsgCode: the three mercator aliases, WGS84
      long/lat for 4326, IllegalArgumentException for anything else. */
  method CreateFromEpsgCode(epsgCode: int, forward: Coord -> Coord) returns (r: Result<Proj4RenderProjection, string>)
    ensures r.Ok? <==> EpsgChoiceOf(epsgCode) != Unrecognized
    ensures r.Ok? ==> fresh(r.value)
    ensures EpsgChoiceOf(epsgCode) == MercatorAlias ==> r.Ok? && IsWebMercator(r.value, forward)
    ensures epsgCode == 4326 ==>
      (r.Ok? && r.value.srs == WGS84_SRS
       && r.value.referenceResolution == DEFAULT_REFERENCE_RESOLUTION && r.value.origin == Coord(0.0, 0.0))
    ensures r.Err? ==> r.error == "Unrecognized EPSG code"
  {
    var choice := EpsgChoiceOf(epsgCode);
    if choice.MercatorAlias? {
      var p := new Proj4RenderProjection.WebMercator(forward);
      r := Ok(p);
    } else if choice.Proj4Definition? {
      var p := new Proj4RenderProjection(choice.srs);
      r := Ok(p);
    } else {
      r := Err("Unrecognized EPSG code");
    }
  }

  /** RenderProjection.createFromProj4Params: any failure of the native
      projection to accept the definition becomes IllegalArgumentException. */
  method CreateFromProj4Params(srsDefn: string, accepts: string -> bool) returns (r: Result<Proj4RenderProjection, string>)
    ensures r.Ok? <==> accepts(srsDefn)
    ensures r.Ok? ==>
      (fresh(r.value) && r.value.srs == srsDefn
       && r.value.referenceResolution == DEFAULT_REFERENCE_RESOLUTION && r.value.origin == Coord(0.0, 0.0))
    ensures r.Err? ==> r.error == "Illegal proj4 init '" + srsDefn + "'"
  {
    if accepts(srsDefn) {
      var p := new Proj4RenderProjection(srsDefn);
      r := Ok(p);
    } else {
      r := Err("Illegal proj4 init '" + srsDefn + "'");
    }
  }

  // ------------------------------------------------- web-mercator tiling

  /** WebMercatorTileProjection, given the projected extent that the native
      forward transform computes from the global extent. */
  datatype WebMercatorTileProjection = WebMercatorTileProjection(projectedExtent: Box) {

    function ResolutionFromLevel(level: int): (r: real)
      ensures r * Pow2(level - 1) == HIGHEST_RES
    {
      LevelResolution(HIGHEST_RES, level)
    }

    /** Tiles are laid out from the (minx, maxy) corner of the projected
        extent; where its corner lies is MercatorTileCorner. */
    function ProjectTile(level: int, x: int, y: int, tileWidth: int, tileHeight: int): (r: Box)
      ensures r.Normalized()
      ensures r.Width() == Abs((tileWidth as real) * ResolutionFromLevel(level))
      ensures r.Height() == Abs((tileHeight as real) * ResolutionFromLevel(level))
    {
      TileBox(Coord(projectedExtent.minx, projectedExtent.maxy), ResolutionFromLevel(level), x, y, tileWidth, tileHeight)
    }

    /** Width of the extent as a fraction of the width of the whole projected extent. */
    function GetCostFactor(extent: Box): (r: real)
      requires projectedExtent.Width() != 0.0
      ensures r * projectedExtent.Width() == extent.Width()
    {
      extent.Width() / projectedExtent.Width()
    }
  }

  function CreateWebMercatorTileProjection(forward: Box -> Box): (p: WebMercatorTileProjection)
    ensures p.projectedExtent == forward(GLOBAL_EXTENT)
  {
    WebMercatorTileProjection(forward(GLOBAL_EXTENT))
  }

  /** A tile of non-negative size starts x*tileWidth pixels (in Java int
      arithmetic) right of the projected origin and y*tileHeight below it,
      given a non-negative reference resolution. */
  lemma ProjectTileCorner(p: Proj4RenderProjection, level: int, x: int, y: int, tileWidth: int, tileHeight: int)
    requires p.referenceResolution >= 0.0 && tileWidth >= 0 && tileHeight >= 0
    ensures p.ProjectTile(level, x, y, tileWidth, tileHeight).minx
      == (Int32Wrap(x * tileWidth) as real) * p.ResolutionFromLevel(level) + p.origin.x
    ensures p.ProjectTile(level, x, y, tileWidth, tileHeight).maxy
      == p.origin.y - (Int32Wrap(y * tileHeight) as real) * p.ResolutionFromLevel(level)
  {
    ResolutionNonNegative(p.referenceResolution, level);
    TileBoxAnchored(p.origin, p.ResolutionFromLevel(level), x, y, tileWidth, tileHeight);
  }

  /** A tile of non-negative size starts x*tileWidth pixels (in Java int
      arithmetic) right of the extent's left edge and y*tileHeight below its top. */
  lemma MercatorTileCorner(p: WebMercatorTileProjection, level: int, x: int, y: int, tileWidth: int, tileHeight: int)
    requires tileWidth >= 0 && tileHeight >= 0
    ensures p.ProjectTile(level, x, y, tileWidth, tileHeight).minx
      == (Int32Wrap(x * tileWidth) as real) * p.ResolutionFromLevel(level) + p.projectedExtent.minx
    ensures p.ProjectTile(level, x, y, tileWidth, tileHeight).maxy
      == p.projectedExtent.maxy - (Int32Wrap(y * tileHeight) as real) * p.ResolutionFromLevel(level)
  {
    ResolutionNonNegative(HIGHEST_RES, level);
    TileBoxAnchored(Coord(p.projectedExtent.minx, p.projectedExtent.maxy), p.ResolutionFromLevel(level), x, y, tileWidth, tileHeight);
  }

  /** Tile (0,0) starts at the upper-left corner of the projected extent. */
  lemma FirstTileAtExtentCorner(p: WebMercatorTileProjection, level: int, w: int, h: int)
    requires w >= 0 && h >= 0
    ensures p.ProjectTile(level, 0, 0, w, h).minx == p.projectedExtent.minx
    ensures p.ProjectTile(level, 0, 0, w, h).maxy == p.projectedExtent.maxy
  {
    MercatorTileCorner(p, level, 0, 0, w, h);
  }

  /** The whole projected extent costs 1. */
  lemma FullExtentCostsOne(p: WebMercatorTileProjection)
    requires p.projectedExtent.Width() != 0.0
    ensures p.GetCostFactor(p.projectedExtent) == 1.0
  {
    var w := p.projectedExtent.Width();
    assert p.GetCostFactor(p.projectedExtent) == w / w;
  }

  /** A normalized extent no wider than the projected extent costs between 0 and 1. */
  lemma {:induction false} CostFactorInUnitRange(p: WebMercatorTileProjection, extent: Box)
    requires p.projectedExtent.Width() > 0.0
    requires extent.Normalized() && extent.Width() <= p.projectedExtent.Width()
    ensures 0.0 <= p.GetCostFactor(extent) <= 1.0
  {
    var w := p.projectedExtent.Width();
    assert p.GetCostFactor(extent) == extent.Width() / w;
  }
}
