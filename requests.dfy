/** One request for rendered output, as it travels from the handler through
    the render queue (RenderRequest). */
module Requests {
  import opened Common
  import opened RenderInfos
  import opened Maps

  const DEFAULT_COST: real := 1.0
  const DEFAULT_TILE_SIZE: int := 256

  /** Double.compare for two costs that are not NaN: -1, 0 or 1. */
  function CompareCosts(a: real, b: real): (r: int)
    ensures r == -1 || r == 0 || r == 1
    ensures r < 0 <==> a < b
    ensures r == 0 <==> a == b
    ensures r > 0 <==> a > b
  {
    if a < b then -1 else if a > b then 1 else 0
  }

  /** Swapping the operands negates the comparison. */
  lemma CompareCostsAntisymmetric(a: real, b: real)
    ensures CompareCosts(a, b) == -CompareCosts(b, a)
  {
  }

  /** The comparison is transitive, so it orders the queue consistently. */
  lemma CompareCostsTransitive(a: real, b: real, c: real)
    requires CompareCosts(a, b) <= 0 && CompareCosts(b, c) <= 0
    ensures CompareCosts(a, c) <= 0
  {
  }

  class RenderRequest {
    /** Requests of lower cost are rendered first. */
    var cost: real
    /** When the request was created (System.currentTimeMillis), given by the caller. */
    const time: int
    var error: bool
    var cancelled: bool
    var tileWidth: int
    var tileHeight: int
    var mapName: Option<string>
    var level: Option<int>
    var x: Option<int>
    var y: Option<int>
    /** Set by the handler before the request is resolved and queued. */
    var renderInfo: Option<RenderInfo>
    var resource: Option<Resource>

    constructor (time: int)
      ensures this.time == time
      ensures cost == DEFAULT_COST && !error && !cancelled
      ensures tileWidth == DEFAULT_TILE_SIZE && tileHeight == DEFAULT_TILE_SIZE
      ensures mapName.None? && level.None? && x.None? && y.None?
      ensures renderInfo.None? && resource.None?
    {
      this.time := time;
      cost := DEFAULT_COST;
      error := false;
      cancelled := false;
      tileWidth := DEFAULT_TILE_SIZE;
      tileHeight := DEFAULT_TILE_SIZE;
      mapName := None;
      level := None;
      x := None;
      y := None;
      renderInfo := None;
      resource := None;
    }

    /** Not in error, and map name and tile coordinates all present. */
    predicate IsValid()
      reads this
    {
      !error && mapName.Some? && level.Some? && x.Some? && y.Some?
    }

    /** Orders requests by cost. */
    function CompareTo(o: RenderRequest): (r: int)
      reads this, o
      ensures r < 0 <==> cost < o.cost
      ensures r == 0 <==> cost == o.cost
      ensures r > 0 <==> cost > o.cost
    {
      CompareCosts(cost, o.cost)
    }
  }

  /** Comparing two requests either way round gives opposite signs, and a
      request compares equal to itself. */
  lemma CompareToAntisymmetric(a: RenderRequest, b: RenderRequest)
    ensures a.CompareTo(b) == -b.CompareTo(a)
    ensures a.CompareTo(a) == 0
  {
    CompareCostsAntisymmetric(a.cost, b.cost);
  }
}
