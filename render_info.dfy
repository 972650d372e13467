/** The parameters of one render (RenderInfo) and the resolutions derived
    from its bounds and pixel size. */
module RenderInfos {
  import opened Common
  import opened Geometry
  import opened Projection

  /** mapnik's AspectFixMode: how a map reconciles the aspect ratio of its
      bounds with that of its canvas. */
  datatype AspectFixMode =
    | GrowBbox | GrowCanvas | ShrinkBbox | ShrinkCanvas
    | AdjustBboxWidth | AdjustBboxHeight | AdjustCanvasWidth | AdjustCanvasHeight

  /** The Java constant name of each mode. */
  function ModeName(m: AspectFixMode): string {
    match m
    case GrowBbox => "GROW_BBOX"
    case GrowCanvas => "GROW_CANVAS"
    case ShrinkBbox => "SHRINK_BBOX"
    case ShrinkCanvas => "SHRINK_CANVAS"
    case AdjustBboxWidth => "ADJUST_BBOX_WIDTH"
    case AdjustBboxHeight => "ADJUST_BBOX_HEIGHT"
    case AdjustCanvasWidth => "ADJUST_CANVAS_WIDTH"
    case AdjustCanvasHeight => "ADJUST_CANVAS_HEIGHT"
  }

  /** AspectFixMode.valueOf: the mode whose constant name is exactly the
      given string; None where valueOf throws IllegalArgumentException. */
  function ModeValueOf(name: string): (r: Option<AspectFixMode>)
    ensures r.Some? ==> ModeName(r.value) == name
    ensures forall m :: ModeName(m) == name ==> r == Some(m)
  {
    if name == "GROW_BBOX" then Some(GrowBbox)
    else if name == "GROW_CANVAS" then Some(GrowCanvas)
    else if name == "SHRINK_BBOX" then Some(ShrinkBbox)
    else if name == "SHRINK_CANVAS" then Some(ShrinkCanvas)
    else if name == "ADJUST_BBOX_WIDTH" then Some(AdjustBboxWidth)
    else if name == "ADJUST_BBOX_HEIGHT" then Some(AdjustBboxHeight)
    else if name == "ADJUST_CANVAS_WIDTH" then Some(AdjustCanvasWidth)
    else if name == "ADJUST_CANVAS_HEIGHT" then Some(AdjustCanvasHeight)
    else None
  }

  /** Every constant name is read back as its own mode. */
  lemma ModeNamesRoundTrip(m: AspectFixMode)
    ensures ModeValueOf(ModeName(m)) == Some(m)
  {
  }

  /** Everything a render needs: projection, bounds and output format.
      None stands for a field that is still null. */
  datatype RenderInfo = RenderInfo(
    projection: Option<Proj4RenderProjection>,
    coordinatesAreGlobal: bool,
    bounds: Option<Box>,
    aspectFixMode: Option<AspectFixMode>,
    bufferPixels: int,
    pixelRatio: real,
    width: int,
    height: int,
    format: Option<string>)
  {
    /** Projected units per pixel across the width. */
    function ResolutionX(): (r: real)
      requires bounds.Some? && width != 0
      ensures r * (width as real) == bounds.value.Width()
    {
      bounds.value.Width() / (width as real)
    }

    /** Projected units per pixel down the height. */
    function ResolutionY(): (r: real)
      requires bounds.Some? && height != 0
      ensures r * (height as real) == bounds.value.Height()
    {
      bounds.value.Height() / (height as real)
    }

    /** The coarser of the two resolutions (Math.max). */
    function Resolution(): (r: real)
      requires bounds.Some? && width != 0 && height != 0
      ensures r >= ResolutionX() && r >= ResolutionY()
      ensures r == ResolutionX() || r == ResolutionY()
    {
      Max(ResolutionX(), ResolutionY())
    }
  }

  /** A RenderInfo as `new RenderInfo()` leaves it: no projection or bounds,
      a 128 pixel buffer, pixel ratio 1 and a 0 x 0 canvas. */
  const NewRenderInfo: RenderInfo :=
    RenderInfo(None, false, None, None, 128, 1.0, 0, 0, None)

  /** A canvas whose bounds are its size times a non-negative resolution
      has that resolution both ways. */
  lemma ResolutionOfScaledCanvas(info: RenderInfo, res: real)
    requires info.width > 0 && info.height > 0 && res >= 0.0 && info.bounds.Some?
    requires info.bounds.value.Width() == Abs((info.width as real) * res)
    requires info.bounds.value.Height() == Abs((info.height as real) * res)
    ensures info.ResolutionX() == res && info.ResolutionY() == res && info.Resolution() == res
  {
    PerPixel(info.ResolutionX(), info.width as real, res);
    PerPixel(info.ResolutionY(), info.height as real, res);
  }

  /** For a tile whose bounds came from projectTile with the canvas size as
      tile size, both resolutions are the resolution of the tile's level. */
  lemma TileResolutionIsLevelResolution(info: RenderInfo, p: Proj4RenderProjection, level: int, x: int, y: int)
    requires info.width > 0 && info.height > 0 && p.referenceResolution >= 0.0
    requires info.bounds == Some(p.ProjectTile(level, x, y, info.width, info.height))
    ensures info.ResolutionX() == p.ResolutionFromLevel(level)
    ensures info.ResolutionY() == p.ResolutionFromLevel(level)
    ensures info.Resolution() == p.ResolutionFromLevel(level)
  {
    ResolutionNonNegative(p.referenceResolution, level);
    ResolutionOfScaledCanvas(info, p.ResolutionFromLevel(level));
  }
}
