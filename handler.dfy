/** The handler for /map requests (MapRequestHandler). It decodes the path
    and query, picks the map, turns the query into render parameters, and
    then either answers at once or queues a render whose callbacks answer
    later. */
module Handler {
  import opened Common
  import opened Geometry
  import opened Projection
  import opened RenderInfos
  import opened Scripting
  import opened Maps
  import opened Requests
  import opened Scheduling

  // ------------------------------------------------------------ constants

  const OK: int := 200
  const NOT_MODIFIED: int := 304
  const BAD_REQUEST: int := 400
  const NOT_FOUND: int := 404
  const REQUEST_TIMEOUT: int := 408
  const INTERNAL_SERVER_ERROR: int := 500

  /** The Cache-Control value sent with tags: cacheMaxAge is 5 seconds. */
  const CACHE_CONTROL: string := "max-age=5"
  /** doRender always labels the image as PNG, whatever format it was saved in. */
  const IMAGE_CONTENT_TYPE: string := "image/png"
  /** The recycle tag doRender hands createMap and recycleMap: the handler's class. */
  const HANDLER_TAG: RecycleTag := "net.rcode.nanomaps.server.MapRequestHandler"

  // ---------------------------------------------------------- environment

  /** What the handler gets from outside: the number parsers, the native
      forward transforms by Proj4 definition, whether Proj4 accepts a
      definition, URL decoding, the select function of each script, how a
      nested locator resolves, the clock, and what the native render
      throws, if anything. A script sees the request through its render
      info, the only field the handler sets before resolving. */
  datatype Environment = Environment(
    parseInt: string -> Option<int>,           // Integer.parseInt; None for NumberFormatException
    parseDouble: string -> Option<real>,       // Double.parseDouble; None for NumberFormatException
    forward: (string, Coord) -> Coord,
    forwardBox: (string, Box) -> Box,
    proj4Accepts: string -> bool,
    uriDecode: string -> Result<string, Exception>,  // URLDecoder.decode; Err for its IllegalArgumentException
    select: (ScriptMapLocator, ScriptView) -> Result<Value, Exception>,
    nested: (ScriptMapLocator, ScriptView) -> Result<Option<Resource>, Exception>,
    now: int,
    renderFailure: Option<Exception>)

  /** The responses the handler sends. */
  datatype Response =
    | TocListing(entries: map<string, map<string, string>>)   // 200: each announced map's properties, as JSON
    | TocEntry(mapName: string, properties: map<string, string>)  // 200: one map's entry, as JSON
    | ErrorResponse(status: int, message: string)
    | NotModified(maxAge: string)            // 304, with this Cache-Control
    | Image(contentType: string, format: string, etag: Option<string>, cacheControl: Option<string>)

  // ----------------------------------------------------- path and query

  /** The path with one leading and then one trailing slash removed. */
  function TrimSlashes(path: string): (r: string)
    ensures |r| <= |path|
  {
    var p := if |path| > 0 && path[0] == '/' then path[1..] else path;
    if |p| > 0 && p[|p| - 1] == '/' then p[..|p| - 1] else p
  }

  /** The raw path components: none for an empty path, else the pieces between slashes. */
  function RawComponents(path: string): (r: seq<string>)
    ensures forall i :: 0 <= i < |r| ==> '/' !in r[i]
  {
    var p := TrimSlashes(path);
    if p == "" then [] else JavaSplit(p, '/')
  }

  /** The raw components, each URL-decoded; the first component the
      decoder rejects (a malformed escape) is the exception thrown. */
  function DecodedComponents(raw: seq<string>, uriDecode: string -> Result<string, Exception>): (r: Result<seq<string>, Exception>)
    ensures r.Ok? <==> forall i :: 0 <= i < |raw| ==> uriDecode(raw[i]).Ok?
    ensures r.Ok? ==> |r.value| == |raw| && forall i :: 0 <= i < |raw| ==> r.value[i] == uriDecode(raw[i]).value
    ensures r.Err? ==> exists k :: 0 <= k < |raw| && uriDecode(raw[k]) == Err(r.error)
                                  && forall j :: 0 <= j < k ==> uriDecode(raw[j]).Ok?
  {
    if raw == [] then Ok([])
    else match uriDecode(raw[0])
      case Err(e) => Err(e)
      case Ok(first) =>
        match DecodedComponents(raw[1..], uriDecode)
        case Err(e) =>
          ghost var k :| 0 <= k < |raw| - 1 && uriDecode(raw[1..][k]) == Err(e)
                         && forall j :: 0 <= j < k ==> uriDecode(raw[1..][j]).Ok?;
          assert uriDecode(raw[k + 1]) == Err(e);
          Err(e)
        case Ok(rest) => Ok([first] + rest)
  }

  /** The last piece of a join is a suffix of it. */
  lemma {:induction false} JoinEndsWithLast(parts: seq<string>, sep: char)
    requires |parts| >= 1
    ensures var j := Join(parts, sep); var last := parts[|parts| - 1];
      |last| <= |j| && j[|j| - |last|..] == last
  {
    if |parts| > 1 {
      JoinEndsWithLast(parts[1..], sep);
      var rest := Join(parts[1..], sep);
      assert Join(parts, sep) == (parts[0] + [sep]) + rest;
    }
  }

  /** The root and the root with a slash have no components. */
  lemma RootHasNoComponents()
    ensures RawComponents("") == [] && RawComponents("/") == [] && RawComponents("//") == []
  {
  }

  /** The slash before a path that does not end in one is removed. */
  lemma TrimLeadingSlash(j: string)
    requires j != "" && j[|j| - 1] != '/'
    ensures TrimSlashes("/" + j) == j
  {
    assert ("/" + j)[1..] == j;
  }

  /** The slashes around a path are removed. */
  lemma TrimSurroundingSlashes(j: string)
    ensures TrimSlashes("/" + j + "/") == j
  {
    assert ("/" + j + "/")[1..] == j + "/";
    assert (j + "/")[..|j|] == j;
  }

  /** The join of slash-free components ending in a non-empty one is not
      empty, does not end in a slash, and splits back into the components. */
  lemma JoinedComponents(cs: seq<string>)
    requires |cs| >= 1 && cs[|cs| - 1] != ""
    requires forall i :: 0 <= i < |cs| ==> '/' !in cs[i]
    ensures var j := Join(cs, '/'); j != "" && j[|j| - 1] != '/' && JavaSplit(j, '/') == cs
  {
    var j := Join(cs, '/');
    JoinEndsWithLast(cs, '/');
    var last := cs[|cs| - 1];
    assert j[|j| - 1] == last[|last| - 1];
    assert last[|last| - 1] in last;
    JavaSplitOfJoin(cs, '/');
  }

  /** Components free of slashes, the last not empty, come back from the
      path written with them, with or without a trailing slash. */
  lemma ComponentsRoundTrip(cs: seq<string>)
    requires |cs| >= 1 && cs[|cs| - 1] != ""
    requires forall i :: 0 <= i < |cs| ==> '/' !in cs[i]
    ensures RawComponents("/" + Join(cs, '/')) == cs
    ensures RawComponents("/" + Join(cs, '/') + "/") == cs
  {
    var j := Join(cs, '/');
    JoinedComponents(cs);
    TrimLeadingSlash(j);
    assert RawComponents("/" + j) == JavaSplit(j, '/');
    TrimSurroundingSlashes(j);
    assert RawComponents("/" + j + "/") == JavaSplit(j, '/');
  }

  /** The names the decoded query contributes: lower-cased, and only those
      that came with at least one value. */
  function QueryNames(parameters: map<string, seq<string>>): set<string> {
    set k | k in parameters && parameters[k] != [] :: Lower(k)
  }

  /** value is the first value of some parameter whose lower-cased name is n. */
  ghost predicate FirstValueOf(parameters: map<string, seq<string>>, n: string, value: string) {
    exists k :: k in parameters && parameters[k] != [] && Lower(k) == n && parameters[k][0] == value
  }

  /** The value of a query parameter; None is Java's null from get. */
  function Param(q: map<string, string>, name: string): (r: Option<string>)
    ensures r.Some? <==> name in q
    ensures r.Some? ==> r.value == q[name]
  {
    if name in q then Some(q[name]) else None
  }

  // --------------------------------------------------- render parameters

  /** An optional number parameter: absent is None, a value that does not
      parse is IllegalArgumentException naming the parameter. */
  function ParseOptional<T>(param: Option<string>, parse: string -> Option<T>, name: string): (r: Result<Option<T>, Exception>)
    ensures param.None? ==> r == Ok(None)
    ensures param.Some? && parse(param.value).Some? ==> r == Ok(parse(param.value))
    ensures param.Some? && parse(param.value).None? ==> r == Err(IllegalArgument("Illegal value for " + name + " parameter"))
  {
    if param.None? then Ok(None)
    else match parse(param.value)
      case None => Err(IllegalArgument("Illegal value for " + name + " parameter"))
      case Some(v) => Ok(Some(v))
  }

  /** The cm parameter: absent or "map" is map coordinates, "global" is
      geographic coordinates, both in any case. */
  function CoordinateMode(cm: Option<string>): (r: Result<bool, Exception>) {
    if cm.None? || EqualsIgnoreCase("map", cm.value) then Ok(false)
    else if EqualsIgnoreCase("global", cm.value) then Ok(true)
    else Err(IllegalArgument("Illegal value for cm parameter"))
  }

  /** Only "map" and "global", in any case, are accepted. */
  lemma CoordinateModeCases(cm: string)
    ensures CoordinateMode(Some(cm)) == Ok(true) <==> Lower(cm) == "global"
    ensures CoordinateMode(Some(cm)) == Ok(false) <==> Lower(cm) == "map"
    ensures CoordinateMode(Some(cm)).Err? <==> Lower(cm) != "global" && Lower(cm) != "map"
  {
  }

  /** What an srs parameter names. */
  datatype SrsSpec = EpsgSrs(code: string) | Proj4Srs(definition: string)

  /** The line terminators `.` does not match. */
  predicate IsLineTerminator(c: char) {
    c == '\n' || c == '\r' || c == '\U{0085}' || c == '\U{2028}' || c == '\U{2029}'
  }

  /** What `(.+)$` matches at the end of a whole-string match: at least one
      character and no line terminator. */
  predicate IsRestOfLine(s: string) {
    |s| > 0 && forall i :: 0 <= i < |s| ==> !IsLineTerminator(s[i])
  }

  /** The whole value against ^(epsg|proj4)\:(.+)$, ignoring ASCII case. */
  function MatchSrs(srs: string): (r: Option<SrsSpec>) {
    if |srs| > 5 && Lower(srs[..4]) == "epsg" && srs[4] == ':' && IsRestOfLine(srs[5..]) then
      Some(EpsgSrs(srs[5..]))
    else if |srs| > 6 && Lower(srs[..5]) == "proj4" && srs[5] == ':' && IsRestOfLine(srs[6..]) then
      Some(Proj4Srs(srs[6..]))
    else None
  }

  /** A qualifier in any case, a colon and a one-line rest match, with the
      rest as the code or definition. */
  lemma MatchSrsRoundTrip(qualifier: string, rest: string)
    requires IsRestOfLine(rest)
    ensures Lower(qualifier) == "epsg" ==> MatchSrs(qualifier + ":" + rest) == Some(EpsgSrs(rest))
    ensures Lower(qualifier) == "proj4" ==> MatchSrs(qualifier + ":" + rest) == Some(Proj4Srs(rest))
  {
    var s := qualifier + ":" + rest;
    assert s[..|qualifier|] == qualifier;
    assert s[|qualifier| + 1..] == rest;
  }

  /** Every match is a qualifier, a colon and a one-line rest. */
  lemma MatchSrsShape(srs: string)
    requires MatchSrs(srs).Some?
    ensures var m := MatchSrs(srs).value;
      m.EpsgSrs? ==> |srs| > 5 && Lower(srs[..4]) == "epsg" && srs == srs[..4] + ":" + m.code && IsRestOfLine(m.code)
    ensures var m := MatchSrs(srs).value;
      m.Proj4Srs? ==> |srs| > 6 && Lower(srs[..5]) == "proj4" && srs == srs[..5] + ":" + m.definition && IsRestOfLine(m.definition)
  {
  }

  /** The projection a request asks for, as values. */
  datatype ProjectionSpec = ProjectionSpec(srs: string, referenceResolution: real, origin: Coord)

  /** The native forward transform of web mercator. */
  function MercatorForward(env: Environment): Coord -> Coord {
    c => env.forward(MERCATOR_SRS, c)
  }

  function WebMercatorSpec(env: Environment): ProjectionSpec {
    ProjectionSpec(MERCATOR_SRS, HIGHEST_RES, env.forward(MERCATOR_SRS, MERCATOR_GEOGRAPHIC_ORIGIN))
  }

  function Proj4Spec(srsDefn: string): ProjectionSpec {
    ProjectionSpec(srsDefn, DEFAULT_REFERENCE_RESOLUTION, Coord(0.0, 0.0))
  }

  /** Whether a projection object is configured as the spec says. */
  predicate HasSpec(p: Proj4RenderProjection, s: ProjectionSpec)
    reads p
  {
    p.srs == s.srs && p.referenceResolution == s.referenceResolution && p.origin == s.origin
  }

  /** The projection the srs parameter selects: web mercator when absent,
      an EPSG code through the factory, a Proj4 definition when Proj4
      accepts it. The factory's failures become IllegalArgumentException.
      The "Illegal srs qualifier" branch cannot be reached: the pattern
      admits only the two qualifiers. */
  function ProjectionFor(srsParam: Option<string>, env: Environment): (r: Result<ProjectionSpec, Exception>) {
    if srsParam.None? then Ok(WebMercatorSpec(env))
    else match MatchSrs(srsParam.value)
      case None => Err(IllegalArgument("Illegal syntax for srs parameter"))
      case Some(EpsgSrs(code)) =>
        (match env.parseInt(code)
         case None => Err(IllegalArgument("Illegal syntax for epsg code"))
         case Some(n) =>
           match EpsgChoiceOf(n)
           case MercatorAlias => Ok(WebMercatorSpec(env))
           case Proj4Definition(d) => Ok(Proj4Spec(d))
           case Unrecognized => Err(IllegalArgument("Unrecognized EPSG code")))
      case Some(Proj4Srs(d)) =>
        if env.proj4Accepts(d) then Ok(Proj4Spec(d))
        else Err(IllegalArgument("Illegal proj4 init '" + d + "'"))
  }

  /** The three mercator aliases give the default projection, 4326 gives
      WGS84 long/lat with the Proj4 defaults. */
  lemma EpsgAliasesAgree(code: string, env: Environment)
    requires env.parseInt(code).Some? && IsRestOfLine(code)
    ensures var n := env.parseInt(code).value;
      (n == 900913 || n == 3785 || n == 3857) ==> ProjectionFor(Some("EPSG:" + code), env) == ProjectionFor(None, env)
    ensures env.parseInt(code).value == 4326 ==> ProjectionFor(Some("epsg:" + code), env) == Ok(Proj4Spec(WGS84_SRS))
  {
    MatchSrsRoundTrip("EPSG", code);
    MatchSrsRoundTrip("epsg", code);
  }

  /** translateFormat: a value without '/' is used as it is, four image
      MIME types map to mapnik's names, anything else is refused. */
  function TranslateFormat(formatMimeType: Option<string>): (r: Result<string, Exception>)
  {
    if formatMimeType.None? then Ok("png")
    else
      var f := formatMimeType.value;
      if '/' !in f then Ok(f)
      else if EqualsIgnoreCase("image/png", f) then Ok("png")
      else if EqualsIgnoreCase("image/jpeg", f) then Ok("jpg")
      else if EqualsIgnoreCase("image/tiff", f) then Ok("tiff")
      else if EqualsIgnoreCase("image/gif", f) then Ok("gif")
      else Err(IllegalArgument("Unknown output format " + f))
  }

  /** The format handed to the encoder never holds a '/', and a value with
      one is accepted exactly when it is one of the four known types. */
  lemma TranslateFormatCases(f: string)
    ensures TranslateFormat(Some(f)).Ok? ==> '/' !in TranslateFormat(Some(f)).value
    ensures '/' in f ==>
      (TranslateFormat(Some(f)).Ok? <==> Lower(f) in {"image/png", "image/jpeg", "image/tiff", "image/gif"})
    ensures '/' !in f ==> TranslateFormat(Some(f)) == Ok(f)
  {
    LowerKeepsLowercase("image/png");
    LowerKeepsLowercase("image/jpeg");
    LowerKeepsLowercase("image/tiff");
    LowerKeepsLowercase("image/gif");
  }

  /** The srsorigin parameter: two comma-separated numbers, projected when
      coordinates are global. */
  function ParseOrigin(param: Option<string>, env: Environment, global: bool, srs: string): (r: Result<Option<Coord>, Exception>) {
    if param.None? then Ok(None)
    else
      var comps := JavaSplit(param.value, ',');
      if |comps| != 2 then Err(IllegalArgument("Illegal value for srsorigin parameter"))
      else match (env.parseDouble(comps[0]), env.parseDouble(comps[1]))
        case (Some(x), Some(y)) =>
          Ok(Some(if global then env.forward(srs, Coord(x, y)) else Coord(x, y)))
        case _ => Err(IllegalArgument("Illegal value for srsorigin parameter"))
  }

  /** "x,y" with two numbers gives the point. */
  lemma OriginOfTwoNumbers(sx: string, sy: string, env: Environment, srs: string)
    requires ',' !in sx && ',' !in sy && sy != ""
    requires env.parseDouble(sx).Some? && env.parseDouble(sy).Some?
    ensures ParseOrigin(Some(sx + "," + sy), env, false, srs)
      == Ok(Some(Coord(env.parseDouble(sx).value, env.parseDouble(sy).value)))
  {
    assert Join([sx, sy], ',') == sx + "," + sy;
    JavaSplitOfJoin([sx, sy], ',');
  }

  /** The render parameters setupRenderInfo derives from the query. */
  datatype Settings = Settings(
    global: bool,
    projection: ProjectionSpec,
    pixelRatio: real,
    bufferPixels: int,
    format: string,
    width: int,
    height: int)

  /** setupRenderInfo as a function of the query, checking the parameters in its order. */
  function ParseSettings(q: map<string, string>, env: Environment): (r: Result<Settings, Exception>) {
    match CoordinateMode(Param(q, "cm"))
    case Err(e) => Err(e)
    case Ok(global) =>
    match ProjectionFor(Param(q, "srs"), env)
    case Err(e) => Err(e)
    case Ok(proj) =>
    match ParseOptional(Param(q, "pixelratio"), env.parseDouble, "pixelratio")
    case Err(e) => Err(e)
    case Ok(ratio) =>
    match ParseOptional(Param(q, "buffer"), env.parseInt, "buffer")
    case Err(e) => Err(e)
    case Ok(buffer) =>
    match TranslateFormat(Param(q, "format"))
    case Err(e) => Err(e)
    case Ok(format) =>
    match ParseOrigin(Param(q, "srsorigin"), env, global, proj.srs)
    case Err(e) => Err(e)
    case Ok(origin) =>
    match ParseOptional(Param(q, "srsdefres"), env.parseDouble, "srsdefres")
    case Err(e) => Err(e)
    case Ok(defres) =>
    match ParseOptional(Param(q, "width"), env.parseInt, "width")
    case Err(e) => Err(e)
    case Ok(width) =>
    match ParseOptional(Param(q, "height"), env.parseInt, "height")
    case Err(e) => Err(e)
    case Ok(height) =>
      var proj' := proj.(origin := origin.GetOr(proj.origin),
                         referenceResolution := defres.GetOr(proj.referenceResolution));
      Ok(Settings(global, proj', ratio.GetOr(NewRenderInfo.pixelRatio), buffer.GetOr(NewRenderInfo.bufferPixels),
                  format, width.GetOr(NewRenderInfo.width), height.GetOr(NewRenderInfo.height)))
  }

  /** An empty query gives map coordinates, web mercator, pixel ratio 1, a
      128 pixel buffer, PNG and a 0 x 0 canvas. */
  lemma EmptyQueryDefaults(env: Environment)
    ensures ParseSettings(map[], env) == Ok(Settings(false, WebMercatorSpec(env), 1.0, 128, "png", 0, 0))
  {
  }

  /** setupRenderInfo throws only IllegalArgumentException. */
  lemma SettingsFailOnlyWithIllegalArgument(q: map<string, string>, env: Environment)
    ensures ParseSettings(q, env).Err? ==> ParseSettings(q, env).error.IllegalArgument?
  {
  }

  /** A render info carries the settings, with no bounds or aspect fix mode yet. */
  predicate Describes(info: RenderInfo, s: Settings)
    reads if info.projection.Some? then {info.projection.value} else {}
  {
    && info.projection.Some? && HasSpec(info.projection.value, s.projection)
    && info.coordinatesAreGlobal == s.global
    && info.bounds.None? && info.aspectFixMode.None?
    && info.bufferPixels == s.bufferPixels && info.pixelRatio == s.pixelRatio
    && info.width == s.width && info.height == s.height
    && info.format == Some(s.format)
  }

  // ------------------------------------------------------------------ WMS

  /** The bbox parameter: four comma-separated numbers, lower corner first. */
  function ParseBbox(param: Option<string>, parse: string -> Option<real>): (r: Result<Box, Exception>) {
    if param.None? then Err(IllegalArgument("Parameter bbox is required"))
    else
      var comps := JavaSplit(param.value, ',');
      if |comps| != 4 then Err(IllegalArgument("Illegal value for bbox parameter"))
      else match ParsedAll(comps, parse)
        case None => Err(IllegalArgument("Illegal value for bbox parameter"))
        case Some(v) =>
          var b := Box(v[0], v[1], v[2], v[3]);
          if b.minx > b.maxx || b.miny > b.maxy then
            Err(IllegalArgument("Bbox parameter is not organized as minx,miny,maxx,maxy"))
          else Ok(b)
  }

  /** Every piece parsed, or None when one does not parse. */
  function ParsedAll(comps: seq<string>, parse: string -> Option<real>): (r: Option<seq<real>>)
    ensures r.Some? ==> |r.value| == |comps| && forall i :: 0 <= i < |comps| ==> parse(comps[i]) == Some(r.value[i])
    ensures r.None? ==> exists i :: 0 <= i < |comps| && parse(comps[i]).None?
  {
    if forall i :: 0 <= i < |comps| ==> parse(comps[i]).Some? then
      Some(seq(|comps|, i requires 0 <= i < |comps| => parse(comps[i]).value))
    else None
  }

  /** An accepted bbox is normalized and is the four numbers written in it. */
  lemma AcceptedBboxIsNormalized(param: string, parse: string -> Option<real>)
    requires ParseBbox(Some(param), parse).Ok?
    ensures var b := ParseBbox(Some(param), parse).value;
      var comps := JavaSplit(param, ',');
      && b.Normalized() && |comps| == 4
      && parse(comps[0]) == Some(b.minx) && parse(comps[1]) == Some(b.miny)
      && parse(comps[2]) == Some(b.maxx) && parse(comps[3]) == Some(b.maxy)
  {
  }

  /** The loop of handleWmsRequest that parses the four bbox numbers into
      an array, stopping at the first that does not parse. */
  method ParseBboxValues(comps: seq<string>, parse: string -> Option<real>) returns (r: Option<seq<real>>)
    requires |comps| == 4
    ensures r == ParsedAll(comps, parse)
  {
    var values := new real[4];
    for i := 0 to 4
      invariant forall j :: 0 <= j < i ==> parse(comps[j]) == Some(values[j])
    {
      var v := parse(comps[i]);
      if v.None? {
        return None;
      }
      values[i] := v.value;
    }
    r := Some(values[..]);
    assert r.value == seq(|comps|, i requires 0 <= i < |comps| => parse(comps[i]).value);
  }

  /** The bbox steps of handleWmsRequest: present, four comma-separated
      numbers, minimum before maximum on both axes. */
  method ReadBbox(param: Option<string>, parse: string -> Option<real>) returns (r: Result<Box, Exception>)
    ensures r == ParseBbox(param, parse)
  {
    if param.None? {
      return Err(IllegalArgument("Parameter bbox is required"));
    }
    var comps := JavaSplit(param.value, ',');
    if |comps| != 4 {
      return Err(IllegalArgument("Illegal value for bbox parameter"));
    }
    var values := ParseBboxValues(comps, parse);
    if values.None? {
      return Err(IllegalArgument("Illegal value for bbox parameter"));
    }
    var v := values.value;
    if v[0] > v[2] || v[1] > v[3] {
      return Err(IllegalArgument("Bbox parameter is not organized as minx,miny,maxx,maxy"));
    }
    r := Ok(Box(v[0], v[1], v[2], v[3]));
  }

  /** The aspectfixmode parameter, upper-cased and read as a mode constant. */
  function AspectParam(param: Option<string>): (r: Result<Option<AspectFixMode>, Exception>) {
    if param.None? then Ok(None)
    else match ModeValueOf(Upper(param.value))
      case None => Err(IllegalArgument("Illegal value for aspectfixmode parameter"))
      case Some(m) => Ok(Some(m))
  }

  /** Every mode is accepted under its constant name in any case. */
  lemma AspectParamAcceptsAnyCase(m: AspectFixMode, written: string)
    requires Upper(written) == ModeName(m)
    ensures AspectParam(Some(written)) == Ok(Some(m))
  {
    ModeNamesRoundTrip(m);
  }

  /** What a render is asked for: the settings, the bounds in projected
      coordinates and the aspect fix mode. */
  datatype Plan = Plan(settings: Settings, bounds: Box, aspectFixMode: Option<AspectFixMode>)

  /** handleWmsRequest up to handleRenderRequest, as a function of the query. */
  function WmsPlan(q: map<string, string>, env: Environment): (r: Result<Plan, Exception>) {
    match ParseSettings(q, env)
    case Err(e) => Err(e)
    case Ok(s) =>
      if s.width == 0 || s.height == 0 then
        Err(IllegalArgument("WMS request must have width and height parameters"))
      else match ParseBbox(Param(q, "bbox"), env.parseDouble)
        case Err(e) => Err(e)
        case Ok(b) =>
          var bounds := if s.global then env.forwardBox(s.projection.srs, b) else b;
          match AspectParam(Param(q, "aspectfixmode"))
          case Err(e) => Err(e)
          case Ok(m) => Ok(Plan(s, bounds, m))
  }

  /** A WMS render always has a canvas of non-zero size, and in map
      coordinates the bounds are normalized. */
  lemma WmsPlanHasCanvas(q: map<string, string>, env: Environment)
    requires WmsPlan(q, env).Ok?
    ensures WmsPlan(q, env).value.settings.width != 0 && WmsPlan(q, env).value.settings.height != 0
    ensures !WmsPlan(q, env).value.settings.global ==> WmsPlan(q, env).value.bounds.Normalized()
  {
  }

  // ----------------------------------------------------------------- tiles

  /** The first three remaining components as level, x and y; None as soon
      as one is missing or does not parse. */
  function TileCoordinates(comps: seq<string>, parseInt: string -> Option<int>): (r: Option<(int, int, int)>) {
    if |comps| < 3 then None
    else match (parseInt(comps[0]), parseInt(comps[1]), parseInt(comps[2]))
      case (Some(level), Some(x), Some(y)) => Some((level, x, y))
      case _ => None
  }

  /** How many components the three removeFirst calls take before parsing
      stops: the one that failed to parse is already taken. */
  function TileConsumed(comps: seq<string>, parseInt: string -> Option<int>): (n: nat)
    ensures n <= |comps| && n <= 3
  {
    if |comps| == 0 then 0
    else if parseInt(comps[0]).None? || |comps| == 1 then 1
    else if parseInt(comps[1]).None? || |comps| == 2 then 2
    else 3
  }

  /** A tile canvas of 0 means the 256 pixel default. */
  function TileSize(n: int): int {
    if n == 0 then DEFAULT_TILE_SIZE else n
  }

  /** handleTileRequest up to handleRenderRequest: the settings with the
      default tile size, and the tile's extent from the projection. */
  function TilePlan(q: map<string, string>, comps: seq<string>, env: Environment): (r: Result<Plan, Exception>) {
    match ParseSettings(q, env)
    case Err(e) => Err(e)
    case Ok(s) =>
      var s' := s.(width := TileSize(s.width), height := TileSize(s.height));
      match TileCoordinates(comps, env.parseInt)
      case None => Err(IllegalArgument("Illegal values for tile coordinates"))
      case Some((level, x, y)) =>
        var res := LevelResolution(s'.projection.referenceResolution, level);
        Ok(Plan(s', TileBox(s'.projection.origin, res, x, y, s'.width, s'.height), None))
  }

  /** Extra components after level, x and y are ignored. */
  lemma TileIgnoresExtraComponents(comps: seq<string>, extra: seq<string>, parseInt: string -> Option<int>)
    requires |comps| == 3
    ensures TileCoordinates(comps + extra, parseInt) == TileCoordinates(comps, parseInt)
  {
  }

  /** A tile render has a canvas of non-zero size and normalized bounds. */
  lemma TilePlanHasCanvas(q: map<string, string>, comps: seq<string>, env: Environment)
    requires TilePlan(q, comps, env).Ok?
    ensures TilePlan(q, comps, env).value.settings.width != 0 && TilePlan(q, comps, env).value.settings.height != 0
    ensures TilePlan(q, comps, env).value.bounds.Normalized()
  {
  }

  /** A render info carries the plan. */
  predicate Realizes(info: RenderInfo, plan: Plan)
    reads if info.projection.Some? then {info.projection.value} else {}
  {
    Describes(info.(bounds := None, aspectFixMode := None), plan.settings)
    && info.bounds == Some(plan.bounds) && info.aspectFixMode == plan.aspectFixMode
  }

  // --------------------------------------------------------- table of contents

  /** isAnnounced: a map is hidden only by the property announced=false, exactly so written. */
  predicate IsAnnounced(properties: map<string, string>) {
    !("announced" in properties && properties["announced"] == "false")
  }

  /** Only the exact value "false" hides a map; "FALSE" does not. */
  lemma AnnouncedUnlessFalse(properties: map<string, string>, v: string)
    ensures IsAnnounced(properties["announced" := v]) <==> v != "false"
    ensures "announced" !in properties ==> IsAnnounced(properties)
    ensures IsAnnounced(properties["announced" := "FALSE"])
  {
  }

  /** MapRepository.listMaps. */
  function ListIn(repo: Repository): (r: Result<set<string>, Exception>)
    reads RepoFrame(repo)
    ensures r.Ok? ==> forall n :: n in r.value <==> LookupIn(repo, n).Some?
    ensures r.Err? ==> repo.FileSystem? && repo.fs.managedMaps.None?
  {
    match repo
    case FileSystem(fs) => fs.ListMaps()
    case Frozen(st) => Ok(st.ListMaps())
  }

  /** The property maps of the listed maps, which the listing reads. */
  function ListingFrame(repo: Repository): set<object>
    reads RepoFrame(repo)
  {
    var names := if ListIn(repo).Ok? then ListIn(repo).value else {};
    RepoFrame(repo) + set n | n in names && LookupIn(repo, n).Some? :: PropertiesOf(LookupIn(repo, n).value) as object
  }

  /** The listed maps that are announced, with their properties. */
  function AnnouncedEntries(repo: Repository): map<string, map<string, string>>
    reads RepoFrame(repo), ListingFrame(repo)
  {
    var names := if ListIn(repo).Ok? then ListIn(repo).value else {};
    map n | n in names && LookupIn(repo, n).Some? && IsAnnounced(PropertiesOf(LookupIn(repo, n).value).entries)
      :: PropertiesOf(LookupIn(repo, n).value).entries
  }

  /** The projection object the srs parameter selects, through the factory. */
  method CreateProjection(srsParam: Option<string>, env: Environment) returns (r: Result<Proj4RenderProjection, Exception>)
    ensures r.Ok? <==> ProjectionFor(srsParam, env).Ok?
    ensures r.Err? ==> r.error == ProjectionFor(srsParam, env).error
    ensures r.Ok? ==> fresh(r.value) && HasSpec(r.value, ProjectionFor(srsParam, env).value)
  {
    if srsParam.None? {
      var p := CreateDefaultProjection(MercatorForward(env));
      return Ok(p);
    }
    var m := MatchSrs(srsParam.value);
    if m.None? {
      return Err(IllegalArgument("Illegal syntax for srs parameter"));
    }
    if m.value.EpsgSrs? {
      var code := env.parseInt(m.value.code);
      if code.None? {
        return Err(IllegalArgument("Illegal syntax for epsg code"));
      }
      var created := CreateFromEpsgCode(code.value, MercatorForward(env));
      if created.Err? {
        return Err(IllegalArgument(created.error));
      }
      return Ok(created.value);
    }
    var created := CreateFromProj4Params(m.value.definition, env.proj4Accepts);
    if created.Err? {
      return Err(IllegalArgument(created.error));
    }
    r := Ok(created.value);
  }

  // ----------------------------------------------------------- routing

  /** Where the decoded path leads. */
  datatype Route =
    | TableOfContents
    | UnknownMap(name: string)
    | MapEntry(name: string, locator: Locator)
    | TileRoute(name: string, locator: Locator, coordinates: seq<string>)
    | WmsRoute(name: string, locator: Locator)
    | UnknownClass(name: string, requestClass: string)

  /** The objects routing reads: the repository and the named locator. */
  function RouteFrame(comps: seq<string>, repo: Repository): set<object>
    reads RepoFrame(repo)
  {
    RepoFrame(repo)
      + if comps != [] && LookupIn(repo, comps[0]).Some? then LocatorFrame(LookupIn(repo, comps[0]).value) else {}
  }

  /** The map the first path component names, when the repository has it
      and it is valid. */
  function ValidMapOf(comps: seq<string>, repo: Repository): (r: Option<Locator>)
    reads RouteFrame(comps, repo)
    ensures r.Some? <==> comps != [] && LookupIn(repo, comps[0]).Some? && LocatorIsValid(LookupIn(repo, comps[0]).value)
    ensures r.Some? ==> r == LookupIn(repo, comps[0])
  {
    if comps == [] then None
    else
      var l := LookupIn(repo, comps[0]);
      if l.None? || !LocatorIsValid(l.value) then None else l
  }

  /** The dispatch of a path whose named map, if valid, is given. */
  function RouteFor(comps: seq<string>, found: Option<Locator>): Route {
    if comps == [] then TableOfContents
    else if found.None? then UnknownMap(comps[0])
    else RouteAfter(comps[0], found.value, comps[1..])
  }

  /** handleInThread's dispatch: an empty path is the table of contents;
      the first component names the map, which must exist and be valid; the
      second, if any, is the request class. */
  function RouteOf(comps: seq<string>, repo: Repository): (r: Route)
    reads RouteFrame(comps, repo)
    ensures r.TableOfContents? <==> comps == []
  {
    RouteFor(comps, ValidMapOf(comps, repo))
  }

  /** The dispatch once the map is known: no further component is the
      map's own entry, else the next one is the request class. */
  function RouteAfter(name: string, l: Locator, rest: seq<string>): Route {
    if rest == [] then MapEntry(name, l)
    else if rest[0] == "tile" then TileRoute(name, l, rest[1..])
    else if rest[0] == "wms" then WmsRoute(name, l)
    else UnknownClass(name, rest[0])
  }

  /** A route to a map carries the map the repository has under that name, and it is valid. */
  lemma RoutesOnlyToValidMaps(comps: seq<string>, repo: Repository)
    requires RouteOf(comps, repo).MapEntry? || RouteOf(comps, repo).TileRoute? || RouteOf(comps, repo).WmsRoute?
    ensures |comps| >= 1 && LookupIn(repo, comps[0]) == Some(RouteOf(comps, repo).locator)
    ensures LocatorIsValid(RouteOf(comps, repo).locator)
    ensures RouteOf(comps, repo).name == comps[0]
  {
  }

  /** The components the dispatch takes from the front of the path. */
  function RoutePops(comps: seq<string>, route: Route): nat {
    match route
    case TableOfContents => 0
    case UnknownMap(_) => 1
    case MapEntry(_, _) => 1
    case _ => 2
  }

  // ----------------------------------------------------------- resolving

  /** The engine pools a locator's resolve may change. */
  function ResolvePools(l: Locator): set<ScriptPool> {
    if l.ScriptLoc? then {l.script.pool} else {}
  }

  /** The engines idle in a script locator's pool. */
  function Idle(l: Locator): seq<ScriptEngine>
    reads ResolvePools(l)
  {
    if l.ScriptLoc? then l.script.pool.pool else []
  }

  function PoolsIn(m: map<string, Locator>): set<ScriptPool> {
    set n | n in m && m[n].ScriptLoc? :: m[n].script.pool
  }

  /** The pools of every script locator the repository can hand out. */
  function RepositoryPools(repo: Repository): set<ScriptPool>
    reads RepoFrame(repo)
  {
    match repo
    case FileSystem(fs) => PoolsIn(fs.staticMaps) + (if fs.managedMaps.Some? then PoolsIn(fs.managedMaps.value) else {})
    case Frozen(st) => PoolsIn(st.contents)
  }

  /** A locator the repository hands out has its pool among the repository's pools. */
  lemma LookedUpPoolsAreRepositoryPools(repo: Repository, name: string)
    requires LookupIn(repo, name).Some?
    ensures ResolvePools(LookupIn(repo, name).value) <= RepositoryPools(repo)
  {
    var l := LookupIn(repo, name).value;
    if l.ScriptLoc? {
      match repo
      case FileSystem(fs) =>
        if fs.managedMaps.Some? && name in fs.managedMaps.value {
          assert l.script.pool in PoolsIn(fs.managedMaps.value);
        } else {
          assert l.script.pool in PoolsIn(fs.staticMaps);
        }
      case Frozen(st) =>
        assert l.script.pool in PoolsIn(st.contents);
    }
  }

  /** What a script sees of the request it resolves: the settings of the
      render info, without the projection object. */
  datatype ScriptView = ScriptView(
    coordinatesAreGlobal: bool,
    bounds: Option<Box>,
    aspectFixMode: Option<AspectFixMode>,
    bufferPixels: int,
    pixelRatio: real,
    width: int,
    height: int,
    format: Option<string>)

  function Visible(info: RenderInfo): ScriptView {
    ScriptView(info.coordinatesAreGlobal, info.bounds, info.aspectFixMode, info.bufferPixels,
               info.pixelRatio, info.width, info.height, info.format)
  }

  /** The view of the render info, if there is one. */
  function ViewOf(info: Option<RenderInfo>): ScriptView {
    if info.Some? then Visible(info.value) else ScriptView(false, None, None, 0, 0.0, 0, 0, None)
  }

  /** The select function of one script. */
  function SelectOf(env: Environment, s: ScriptMapLocator): ScriptView -> Result<Value, Exception> {
    view => env.select(s, view)
  }

  /** What resolve reads of a script locator for this request. */
  function ScriptReads(s: ScriptMapLocator, view: ScriptView, env: Environment): set<object>
    reads s, if s.repository.Some? then RepoFrame(s.repository.value) else {}
  {
    var sel := env.select(s, view);
    {s} + (if s.repository.Some? then RepoFrame(s.repository.value) else {})
      + (if sel.Ok? then s.SettleFrame(sel.value) else {})
  }

  /** What locator.resolve gives for a request the script sees as view,
      the script's pool holding the given idle engines. */
  function ResolveOf(l: Locator, view: ScriptView, env: Environment, idle: seq<ScriptEngine>): Result<Option<Resource>, Exception>
    reads if l.ScriptLoc? then {l.script} else {},
      if l.ScriptLoc? && l.script.repository.Some? then RepoFrame(l.script.repository.value) else {},
      if l.ScriptLoc? then ScriptReads(l.script, view, env) else {}
  {
    match l
    case MapnikLoc(m) => Ok(Some(MapnikRes(m)))
    case ExternalLoc(e) => Ok(Some(ExternalRes(e)))
    case ScriptLoc(s) => s.ResolveResult(view, SelectOf(env, s), env.nested, idle)
  }

  /** locator.resolve for a request the script sees as view. */
  method ResolveFor(locator: Locator, view: ScriptView, env: Environment) returns (r: Result<Option<Resource>, Exception>)
    requires locator.ScriptLoc? ==> allocated(env.select(locator.script, view))
    modifies ResolvePools(locator)
    ensures r == old(ResolveOf(locator, view, env, Idle(locator)))
    ensures r == ResolveOf(locator, view, env, old(Idle(locator)))
  {
    var select := if locator.ScriptLoc? then SelectOf(env, locator.script) else (v: ScriptView) => Ok(VNull);
    ghost var sel := if locator.ScriptLoc? then env.select(locator.script, view) else Ok(VNull);
    r := ResolveLocator(locator, view, select, env.nested);
    if locator.ScriptLoc? && sel.Ok? {
      // the pool is all that changed, and resolve does not read it
      var sc := locator.script;
      assert sc.SettleFrame(sel.value) == old(sc.SettleFrame(sel.value));
      if sel.value.VString? && sc.repository.Some? {
        var named := LocatorValue(LookupIn(sc.repository.value, sel.value.s));
        assert named == old(LocatorValue(LookupIn(sc.repository.value, sel.value.s)));
        assert sc.Settle(named, view, env.nested) == old(sc.Settle(named, view, env.nested));
      }
      assert sc.Settle(sel.value, view, env.nested) == old(sc.Settle(sel.value, view, env.nested));
    }
  }

  /** What handleRenderRequest does with what resolve gave. */
  datatype Admission = Failed(error: Exception) | Invalid | Unmodified | Admitted(resource: Resource)

  function Admit(resolved: Result<Option<Resource>, Exception>, ifNoneMatch: Option<string>): Admission
    reads if resolved.Ok? && resolved.value.Some? then LocatorFrame(ResourceLocator(resolved.value.value)) else {}
  {
    if resolved.Err? then Failed(resolved.error)
    else if resolved.value.None? || !ResourceIsValid(resolved.value.value) then Invalid
    else if ResourceTag(resolved.value.value).Some? && ifNoneMatch == ResourceTag(resolved.value.value) then Unmodified
    else Admitted(resolved.value.value)
  }

  /** Only a valid resource is rendered, and never one whose tag the client already has. */
  lemma AdmittedOnlyIfValidAndChanged(resolved: Result<Option<Resource>, Exception>, ifNoneMatch: Option<string>)
    ensures Admit(resolved, ifNoneMatch).Admitted? <==>
      resolved.Ok? && resolved.value.Some? && ResourceIsValid(resolved.value.value)
      && !(ResourceTag(resolved.value.value).Some? && ifNoneMatch == ResourceTag(resolved.value.value))
    ensures Admit(resolved, ifNoneMatch).Admitted? ==> resolved == Ok(Some(Admit(resolved, ifNoneMatch).resource))
    ensures Admit(resolved, ifNoneMatch).Unmodified? ==> ifNoneMatch.Some?
  {
  }

  /** The handler's state after handleRenderRequest, given the admission
      and the state before: an error passes on, an invalid map is 404, a
      matching tag is 304, and an admitted request is recorded as pending
      and queued once with this handler as its callback. */
  predicate AnswersResolved(adm: Admission, r: Result<(), Exception>, mapName: string, info: RenderInfo, now: int,
                     oldResponse: Option<Response>, oldPending: Option<RenderRequest>, oldQueue: seq<Ticket>,
                     response: Option<Response>, pending: Option<RenderRequest>, queue: seq<Ticket>, handler: object)
    reads if pending.Some? then {pending.value} else {}
  {
    match adm
    case Failed(e) =>
      r == Err(e) && response == oldResponse && pending == oldPending && queue == oldQueue
    case Invalid =>
      && r == Ok(()) && response == Some(ErrorResponse(NOT_FOUND, "Map '" + mapName + "' is not valid"))
      && pending == oldPending && queue == oldQueue
    case Unmodified =>
      r == Ok(()) && response == Some(NotModified(CACHE_CONTROL)) && pending == oldPending && queue == oldQueue
    case Admitted(res) =>
      && r == Ok(()) && response == oldResponse
      && pending.Some? && pending.value.renderInfo == Some(info) && pending.value.resource == Some(res)
      && pending.value.time == now && !pending.value.cancelled && pending.value.cost == DEFAULT_COST
      && |queue| == |oldQueue| + 1 && queue[..|oldQueue|] == oldQueue
      && queue[|oldQueue|].request == pending.value && queue[|oldQueue|].callback == handler
  }

  /** The outcome of a tile or WMS request: a plan that fails is the
      exception; otherwise a render info carrying the plan goes through
      handleRenderRequest, resolve giving resolved. */
  ghost predicate RenderOutcome(plan: Result<Plan, Exception>, info: Option<RenderInfo>, r: Result<(), Exception>,
                                mapName: string, resolved: Result<Option<Resource>, Exception>,
                                ifNoneMatch: Option<string>, now: int,
                                oldResponse: Option<Response>, oldPending: Option<RenderRequest>,
                                oldQueue: seq<Ticket>, h: MapRequestHandler)
    reads h, h.renderService, if h.pendingRenderRequest.Some? then {h.pendingRenderRequest.value} else {},
      if info.Some? && info.value.projection.Some? then {info.value.projection.value} else {},
      if resolved.Ok? && resolved.value.Some? then LocatorFrame(ResourceLocator(resolved.value.value)) else {}
  {
    && (plan.Err? ==>
          r == Err(plan.error) && h.response == oldResponse && h.pendingRenderRequest == oldPending
          && h.renderService.queue == oldQueue)
    && (plan.Ok? ==>
          && info.Some? && Realizes(info.value, plan.value)
          && AnswersResolved(Admit(resolved, ifNoneMatch), r, mapName, info.value, now,
                      oldResponse, oldPending, oldQueue, h.response, h.pendingRenderRequest, h.renderService.queue, h))
  }
  /** The table of contents: the announced entries of the listing, or the
      exception listing threw with no response sent. */
  ghost predicate TocAnswered(r: Result<(), Exception>, oldResponse: Option<Response>, h: MapRequestHandler)
    reads h, RepoFrame(h.repository), ListingFrame(h.repository)
  {
    && (r.Err? <==> ListIn(h.repository).Err?)
    && (r.Err? ==> r.error == ListIn(h.repository).error && h.response == oldResponse)
    && (r.Ok? ==> h.response == Some(TocListing(AnnouncedEntries(h.repository))))
  }

  /** What handleInThread leaves behind for each route: the response it
      sent or the exception it threw, and for tile and WMS requests the
      outcome of rendering with what resolve gave. On every other route
      nothing is queued and the pending render stays as it was. The old*
      values are taken when the request starts. */
  ghost predicate Answered(route: Route, r: Result<(), Exception>, info: Option<RenderInfo>,
                           ifNoneMatch: Option<string>, env: Environment, resolved: Result<Option<Resource>, Exception>,
                           oldResponse: Option<Response>, oldPending: Option<RenderRequest>,
                           oldQueue: seq<Ticket>, h: MapRequestHandler)
    reads h, h.renderService, if h.pendingRenderRequest.Some? then {h.pendingRenderRequest.value} else {},
      if info.Some? && info.value.projection.Some? then {info.value.projection.value} else {},
      if resolved.Ok? && resolved.value.Some? then LocatorFrame(ResourceLocator(resolved.value.value)) else {},
      RepoFrame(h.repository), ListingFrame(h.repository),
      if route.MapEntry? then {PropertiesOf(route.locator)} else {}
  {
    && (route.TableOfContents? ==> TocAnswered(r, oldResponse, h))
    && (route.UnknownMap? ==>
          r == Ok(()) && h.response == Some(ErrorResponse(BAD_REQUEST, "Map name " + route.name + " is not valid")))
    && (route.MapEntry? ==>
          r == Ok(()) && h.response == Some(TocEntry(route.name, PropertiesOf(route.locator).entries)))
    && (route.UnknownClass? ==>
          r == Err(IllegalArgument("Request class '" + route.requestClass + " is invalid")) && h.response == oldResponse)
    && (route.TileRoute? ==>
          RenderOutcome(TilePlan(h.queryParams, route.coordinates, env), info, r, route.name, resolved,
                        ifNoneMatch, env.now, oldResponse, oldPending, oldQueue, h))
    && (route.WmsRoute? ==>
          RenderOutcome(WmsPlan(h.queryParams, env), info, r, route.name, resolved,
                        ifNoneMatch, env.now, oldResponse, oldPending, oldQueue, h))
    && (!(route.TileRoute? || route.WmsRoute?) ==> h.pendingRenderRequest == oldPending && h.renderService.queue == oldQueue)
  }

  /** Whether the route renders its map. */
  predicate Renders(route: Route) {
    route.TileRoute? || route.WmsRoute?
  }

  /** What resolve gives for a route that renders its map, the script
      seeing view and its pool holding the given idle engines. */
  function RouteResolve(route: Route, view: ScriptView, env: Environment, idle: seq<ScriptEngine>): Result<Option<Resource>, Exception>
    reads if Renders(route) && route.locator.ScriptLoc? then {route.locator.script} else {},
      if Renders(route) && route.locator.ScriptLoc? && route.locator.script.repository.Some?
      then RepoFrame(route.locator.script.repository.value) else {},
      if Renders(route) && route.locator.ScriptLoc? then ScriptReads(route.locator.script, view, env) else {}
  {
    if Renders(route) then ResolveOf(route.locator, view, env, idle) else Ok(None)
  }

  /** The engines idle for the route's map, if it renders one. */
  function RouteIdle(route: Route): seq<ScriptEngine>
    reads if Renders(route) then ResolvePools(route.locator) else {}
  {
    if Renders(route) then Idle(route.locator) else []
  }

  /** The script locator the first path component names, if it is one. */
  function NamedScript(comps: seq<string>, repo: Repository): Option<ScriptMapLocator>
    reads RepoFrame(repo)
  {
    if comps != [] && LookupIn(repo, comps[0]).Some? && LookupIn(repo, comps[0]).value.ScriptLoc?
    then Some(LookupIn(repo, comps[0]).value.script) else None
  }

  // ------------------------------------------------------------ rendering

  /** The maps pooled under the handler's tag. */
  function Pooled(m: MapnikMapResource): set<MapDefinition>
    reads m
  {
    if Some(HANDLER_TAG) in m.buckets then m.buckets[Some(HANDLER_TAG)] else {}
  }

  /** What doRender may change: the resource and its pooled maps. */
  function RenderObjects(rr: RenderRequest): set<object>
    reads rr, if rr.resource.Some? && rr.resource.value.MapnikRes? then {rr.resource.value.mapnik} else {}
  {
    if rr.resource.Some? && rr.resource.value.MapnikRes? then
      {rr.resource.value.mapnik as object} + Pooled(rr.resource.value.mapnik)
    else {}
  }

  /** The buckets once createMap took m from the handler's bucket, if it was there. */
  function Taken(buckets: Buckets, m: MapDefinition): Buckets {
    var tag := Some(HANDLER_TAG);
    if tag in buckets && m in buckets[tag] then buckets[tag := buckets[tag] - {m}] else buckets
  }

  /** The pixel buffer mapnik gets: the requested buffer scaled by the pixel ratio, cast to int. */
  function BufferSize(info: RenderInfo): int {
    DoubleToInt((info.bufferPixels as real) * info.pixelRatio)
  }

  /** At pixel ratio 1 the buffer is the requested one; at 2 it doubles. */
  lemma BufferScalesWithRatio(info: RenderInfo)
    requires -0x4000_0000 <= info.bufferPixels < 0x4000_0000
    ensures info.pixelRatio == 1.0 ==> BufferSize(info) == info.bufferPixels
    ensures info.pixelRatio == 2.0 ==> BufferSize(info) == 2 * info.bufferPixels
  {
    DoubleToIntKeepsInts(info.bufferPixels);
    if info.pixelRatio == 2.0 {
      assert (info.bufferPixels as real) * 2.0 == (2 * info.bufferPixels) as real;
      DoubleToIntKeepsInts(2 * info.bufferPixels);
    }
  }

  /** The settings doRender gives the map before rendering. */
  predicate ConfiguredFor(m: MapDefinition, info: RenderInfo)
    reads m, if info.projection.Some? then {info.projection.value} else {}
  {
    && info.projection.Some?
    && m.aspectFixMode == Some(info.aspectFixMode.GetOr(GrowBbox))
    && m.srs == info.projection.value.srs
    && m.width == info.width && m.height == info.height
    && m.bounds == info.bounds
    && m.bufferSize == BufferSize(info)
  }

  /** What doRender throws once it holds a map: null where it dereferences
      the render info, its projection or its bounds, then whatever native
      rendering throws, then null for a missing format. */
  function ConfigureFailure(info: Option<RenderInfo>, renderFailure: Option<Exception>): Option<Exception> {
    if info.None? || info.value.projection.None? || info.value.bounds.None? then Some(NullPointer)
    else if renderFailure.Some? then renderFailure
    else if info.value.format.None? then Some(NullPointer)
    else None
  }

  /** Whether createMap can hand out a map: a pooled one, or a new one from
      map file contents mapnik loads. */
  predicate MapAvailable(res: MapnikMapResource)
    reads res
  {
    Pooled(res) != {} || (res.mapFileContents.Some? && res.natives.mapLoads(res.mapFileContents.value))
  }

  /** What doRender throws for a request, if anything: null for a missing
      or non-mapnik resource (createMap of any other resource gives null),
      the native failure of createMap, or what ConfigureFailure says. */
  function RenderError(rr: RenderRequest, renderFailure: Option<Exception>): Option<Exception>
    reads rr, if rr.resource.Some? && rr.resource.value.MapnikRes? then {rr.resource.value.mapnik} else {}
  {
    if !(rr.resource.Some? && rr.resource.value.MapnikRes?) then Some(NullPointer)
    else if !MapAvailable(rr.resource.value.mapnik) then Some(NativeFailure)
    else ConfigureFailure(rr.renderInfo, renderFailure)
  }

  /** The image response: PNG, with the identity tag as etag and a cache
      lifetime when the resource has one. */
  function ImageResponse(format: string, tag: Option<string>): (r: Response)
    ensures r.Image? && r.contentType == IMAGE_CONTENT_TYPE && r.etag == tag
    ensures r.cacheControl.Some? <==> tag.Some?
  {
    Image(IMAGE_CONTENT_TYPE, format, tag, if tag.Some? then Some(CACHE_CONTROL) else None)
  }

  /** The decoder's first rejection is the exception of the whole path. */
  lemma {:induction false} DecodeStopsAtFirstFailure(raw: seq<string>, uriDecode: string -> Result<string, Exception>, i: nat)
    requires i < |raw| && uriDecode(raw[i]).Err?
    requires forall j :: 0 <= j < i ==> uriDecode(raw[j]).Ok?
    ensures DecodedComponents(raw, uriDecode) == Err(uriDecode(raw[i]).error)
  {
    if i > 0 {
      assert forall j :: 0 <= j < i - 1 ==> raw[1..][j] == raw[j + 1];
      DecodeStopsAtFirstFailure(raw[1..], uriDecode, i - 1);
    }
  }

  /** decodePath, first half: each raw component URI-decoded in turn; the
      decoder's exception ends the loop. */
  method DecodeComponents(raw: seq<string>, uriDecode: string -> Result<string, Exception>)
    returns (r: Result<seq<string>, Exception>)
    ensures r == DecodedComponents(raw, uriDecode)
  {
    var comps := [];
    for i := 0 to |raw|
      invariant |comps| == i
      invariant forall j :: 0 <= j < i ==> uriDecode(raw[j]).Ok? && comps[j] == uriDecode(raw[j]).value
    {
      var decoded := uriDecode(raw[i]);
      if decoded.Err? {
        DecodeStopsAtFirstFailure(raw, uriDecode, i);
        return Err(decoded.error);
      }
      comps := comps + [decoded.value];
    }
    assert DecodedComponents(raw, uriDecode).Ok?;
    assert DecodedComponents(raw, uriDecode).value == comps;
    r := Ok(comps);
  }

  /** decodePath, second half: for every query parameter with a value, its
      first value under its lower-cased name. When two names lower-case
      alike, which one wins is the hash map's iteration order, so only "one
      of them" is stated. */
  method DecodeQuery(parameters: map<string, seq<string>>) returns (q: map<string, string>)
    ensures q.Keys == QueryNames(parameters)
    ensures forall n :: n in q ==> FirstValueOf(parameters, n, q[n])
  {
    q := map[];
    var pending := parameters.Keys;
    ghost var origin: map<string, string> := map[];
    while pending != {}
      invariant pending <= parameters.Keys
      invariant q.Keys == QueryNames(parameters - pending)
      invariant origin.Keys == q.Keys
      invariant forall n :: n in q ==>
        origin[n] in parameters && parameters[origin[n]] != [] && Lower(origin[n]) == n
        && parameters[origin[n]][0] == q[n]
      decreases pending
    {
      var key :| key in pending;
      if parameters[key] != [] {
        var name := Lower(key);
        q := q[name := parameters[key][0]];
        origin := origin[name := key];
      }
      pending := pending - {key};
    }
    assert parameters - pending == parameters;
  }

  class MapRequestHandler {
    const repository: Repository
    const renderService: RenderService
    /** The decoded path components not yet taken. */
    var pathComponents: seq<string>
    /** The query parameters, names lower-cased. */
    var queryParams: map<string, string>
    /** The request handed to the render service, kept for cleanup. */
    var pendingRenderRequest: Option<RenderRequest>
    /** The response sent, once one is. */
    var response: Option<Response>

    constructor (repository: Repository, renderService: RenderService)
      ensures this.repository == repository && this.renderService == renderService
      ensures pathComponents == [] && queryParams == map[] && pendingRenderRequest.None? && response.None?
    {
      this.repository := repository;
      this.renderService := renderService;
      pathComponents := [];
      queryParams := map[];
      pendingRenderRequest := None;
      response := None;
    }


    /** pathComponents.removeFirst, with None where the list is empty. */
    method TakeComponent() returns (c: Option<string>)
      modifies this`pathComponents
      ensures old(pathComponents) == [] ==> c.None? && pathComponents == []
      ensures old(pathComponents) != [] ==> c == Some(old(pathComponents)[0]) && pathComponents == old(pathComponents)[1..]
      ensures queryParams == old(queryParams) && pendingRenderRequest == old(pendingRenderRequest)
      ensures response == old(response)
    {
      if pathComponents == [] {
        return None;
      }
      c := Some(pathComponents[0]);
      pathComponents := pathComponents[1..];
    }

    /** The announced maps for the table of contents, in a loop over listMaps. */
    method ListAnnounced() returns (r: Result<map<string, map<string, string>>, Exception>)
      ensures r.Err? <==> ListIn(repository).Err?
      ensures r.Err? ==> r.error == ListIn(repository).error
      ensures r.Ok? ==> r.value == AnnouncedEntries(repository)
    {
      var listed := ListIn(repository);
      if listed.Err? {
        return Err(listed.error);
      }
      var entries: map<string, map<string, string>> := map[];
      var pending := listed.value;
      while pending != {}
        invariant pending <= listed.value
        invariant entries.Keys <= listed.value - pending
        invariant forall n :: n in listed.value - pending ==>
          (n in entries <==> LookupIn(repository, n).Some? && IsAnnounced(PropertiesOf(LookupIn(repository, n).value).entries))
        invariant forall n :: n in entries ==> entries[n] == PropertiesOf(LookupIn(repository, n).value).entries
        decreases pending
      {
        var n :| n in pending;
        var found := LookupIn(repository, n);
        if found.Some? && IsAnnounced(PropertiesOf(found.value).entries) {
          entries := entries[n := PropertiesOf(found.value).entries];
        }
        pending := pending - {n};
      }
      return Ok(entries);
    }

    /** setupRenderInfo: the render info the query describes, with a fresh projection. */
    method SetupRenderInfo(env: Environment) returns (r: Result<RenderInfo, Exception>)
      ensures r.Ok? <==> ParseSettings(queryParams, env).Ok?
      ensures r.Err? ==> r.error == ParseSettings(queryParams, env).error
      ensures r.Ok? ==>
        && r.value.projection.Some? && fresh(r.value.projection.value)
        && Describes(r.value, ParseSettings(queryParams, env).value)
    {
      var q := queryParams;
      var cm := CoordinateMode(Param(q, "cm"));
      if cm.Err? {
        return Err(cm.error);
      }
      var created := CreateProjection(Param(q, "srs"), env);
      if created.Err? {
        return Err(created.error);
      }
      var p := created.value;
      var ratio := ParseOptional(Param(q, "pixelratio"), env.parseDouble, "pixelratio");
      if ratio.Err? {
        return Err(ratio.error);
      }
      var buffer := ParseOptional(Param(q, "buffer"), env.parseInt, "buffer");
      if buffer.Err? {
        return Err(buffer.error);
      }
      var format := TranslateFormat(Param(q, "format"));
      if format.Err? {
        return Err(format.error);
      }
      var origin := ParseOrigin(Param(q, "srsorigin"), env, cm.value, p.srs);
      if origin.Err? {
        return Err(origin.error);
      }
      if origin.value.Some? {
        p.SetProjectedOrigin(origin.value.value);
      }
      var defres := ParseOptional(Param(q, "srsdefres"), env.parseDouble, "srsdefres");
      if defres.Err? {
        return Err(defres.error);
      }
      if defres.value.Some? {
        p.SetReferenceResolution(defres.value.value);
      }
      var width := ParseOptional(Param(q, "width"), env.parseInt, "width");
      if width.Err? {
        return Err(width.error);
      }
      var height := ParseOptional(Param(q, "height"), env.parseInt, "height");
      if height.Err? {
        return Err(height.error);
      }
      r := Ok(RenderInfo(Some(p), cm.value, None, None,
                         buffer.value.GetOr(NewRenderInfo.bufferPixels), ratio.value.GetOr(NewRenderInfo.pixelRatio),
                         width.value.GetOr(NewRenderInfo.width), height.value.GetOr(NewRenderInfo.height),
                         Some(format.value)));
    }

    /** handleWmsRequest up to handleRenderRequest: the render info of the
        query with the bbox (in projected units, or forwarded from lon/lat
        when cm=global) and the aspect fix mode. */
    method WmsRenderInfo(env: Environment) returns (r: Result<RenderInfo, Exception>)
      ensures r.Ok? <==> WmsPlan(queryParams, env).Ok?
      ensures r.Err? ==> r.error == WmsPlan(queryParams, env).error
      ensures r.Ok? ==>
        && r.value.projection.Some? && fresh(r.value.projection.value)
        && Realizes(r.value, WmsPlan(queryParams, env).value)
    {
      var setup := SetupRenderInfo(env);
      if setup.Err? {
        return Err(setup.error);
      }
      var ri := setup.value;
      if ri.width == 0 || ri.height == 0 {
        return Err(IllegalArgument("WMS request must have width and height parameters"));
      }
      var bbox := ReadBbox(Param(queryParams, "bbox"), env.parseDouble);
      if bbox.Err? {
        return Err(bbox.error);
      }
      var bounds := bbox.value;
      if ri.coordinatesAreGlobal {
        bounds := env.forwardBox(ri.projection.value.srs, bounds);
      }
      var aspect := AspectParam(Param(queryParams, "aspectfixmode"));
      if aspect.Err? {
        return Err(aspect.error);
      }
      r := Ok(ri.(bounds := Some(bounds), aspectFixMode := aspect.value));
    }

    /** handleTileRequest up to handleRenderRequest: the render info of the
        query, 256 pixels where no size is given, and the bounds of the tile
        at the level, x and y taken from the path. */
    method TileRenderInfo(env: Environment) returns (r: Result<RenderInfo, Exception>)
      modifies this
      ensures queryParams == old(queryParams) && response == old(response)
      ensures pendingRenderRequest == old(pendingRenderRequest)
      ensures ParseSettings(queryParams, env).Err? ==> pathComponents == old(pathComponents)
      ensures ParseSettings(queryParams, env).Ok? ==>
        pathComponents == old(pathComponents)[TileConsumed(old(pathComponents), env.parseInt)..]
      ensures r.Ok? <==> TilePlan(queryParams, old(pathComponents), env).Ok?
      ensures r.Err? ==> r.error == TilePlan(queryParams, old(pathComponents), env).error
      ensures r.Ok? ==>
        && r.value.projection.Some? && fresh(r.value.projection.value)
        && Realizes(r.value, TilePlan(queryParams, old(pathComponents), env).value)
    {
      var setup := SetupRenderInfo(env);
      if setup.Err? {
        return Err(setup.error);
      }
      var ri := setup.value;
      if ri.width == 0 {
        ri := ri.(width := DEFAULT_TILE_SIZE);
      }
      if ri.height == 0 {
        ri := ri.(height := DEFAULT_TILE_SIZE);
      }
      var invalid := IllegalArgument("Illegal values for tile coordinates");
      var c0 := TakeComponent();
      var level := if c0.Some? then env.parseInt(c0.value) else None;
      if level.None? {
        return Err(invalid);
      }
      var c1 := TakeComponent();
      var x := if c1.Some? then env.parseInt(c1.value) else None;
      if x.None? {
        return Err(invalid);
      }
      var c2 := TakeComponent();
      var y := if c2.Some? then env.parseInt(c2.value) else None;
      if y.None? {
        return Err(invalid);
      }
      var p := ri.projection.value;
      r := Ok(ri.(bounds := Some(p.ProjectTile(level.value, x.value, y.value, ri.width, ri.height))));
    }

    /** handleWmsRequest. */
    method HandleWmsRequest(mapName: string, locator: Locator, ifNoneMatch: Option<string>, env: Environment)
      returns (r: Result<(), Exception>, ghost info: Option<RenderInfo>)
      requires locator.ScriptLoc? ==> forall v :: allocated(env.select(locator.script, v))
      modifies this, renderService, ResolvePools(locator)
      ensures pathComponents == old(pathComponents) && queryParams == old(queryParams)
      ensures renderService.runners == old(renderService.runners)
      ensures var view := ViewOf(info);
        RenderOutcome(WmsPlan(queryParams, env), info, r, mapName, ResolveOf(locator, view, env, old(Idle(locator))),
                      ifNoneMatch, env.now, old(response), old(pendingRenderRequest), old(renderService.queue), this)
      ensures info.Some? ==> info.value.projection.Some? && fresh(info.value.projection.value)
      ensures pendingRenderRequest != old(pendingRenderRequest) ==> pendingRenderRequest.Some? && fresh(pendingRenderRequest.value)
    {
      var planned := WmsRenderInfo(env);
      if planned.Err? {
        return Err(planned.error), None;
      }
      info := Some(planned.value);
      ghost var view := Visible(planned.value);
      if locator.ScriptLoc? {
        // what the script returns existed before, so resolve reads nothing planning changed
        assert old(allocated(env.select(locator.script, view)));
        assert locator.script.pool.pool == old(locator.script.pool.pool);
      }
      // planning changed nothing the outcome depends on
      assert Idle(locator) == old(Idle(locator));
      assert response == old(response) && pendingRenderRequest == old(pendingRenderRequest);
      assert renderService.queue == old(renderService.queue);
      r := HandleRenderRequest(planned.value, mapName, locator, ifNoneMatch, env);
      assert Realizes(planned.value, WmsPlan(queryParams, env).value);
    }

    /** handleTileRequest. */
    method HandleTileRequest(mapName: string, locator: Locator, ifNoneMatch: Option<string>, env: Environment)
      returns (r: Result<(), Exception>, ghost info: Option<RenderInfo>)
      requires locator.ScriptLoc? ==> forall v :: allocated(env.select(locator.script, v))
      modifies this, renderService, ResolvePools(locator)
      ensures queryParams == old(queryParams)
      ensures ParseSettings(queryParams, env).Err? ==> pathComponents == old(pathComponents)
      ensures ParseSettings(queryParams, env).Ok? ==>
        pathComponents == old(pathComponents)[TileConsumed(old(pathComponents), env.parseInt)..]
      ensures renderService.runners == old(renderService.runners)
      ensures var view := ViewOf(info);
        RenderOutcome(TilePlan(queryParams, old(pathComponents), env), info, r, mapName,
                      ResolveOf(locator, view, env, old(Idle(locator))),
                      ifNoneMatch, env.now, old(response), old(pendingRenderRequest), old(renderService.queue), this)
      ensures info.Some? ==> info.value.projection.Some? && fresh(info.value.projection.value)
      ensures pendingRenderRequest != old(pendingRenderRequest) ==> pendingRenderRequest.Some? && fresh(pendingRenderRequest.value)
    {
      var planned := TileRenderInfo(env);
      if planned.Err? {
        return Err(planned.error), None;
      }
      info := Some(planned.value);
      ghost var view := Visible(planned.value);
      if locator.ScriptLoc? {
        // what the script returns existed before, so resolve reads nothing planning changed
        assert old(allocated(env.select(locator.script, view)));
        assert locator.script.pool.pool == old(locator.script.pool.pool);
      }
      // planning changed nothing the outcome depends on
      assert Idle(locator) == old(Idle(locator));
      assert response == old(response) && pendingRenderRequest == old(pendingRenderRequest);
      assert renderService.queue == old(renderService.queue);
      r := HandleRenderRequest(planned.value, mapName, locator, ifNoneMatch, env);
      assert Realizes(planned.value, TilePlan(queryParams, old(pathComponents), env).value);
    }

    /** handleInThread: decodes the request, then answers the table of
        contents for the root and dispatches any other path. A component
        the decoder rejects ends the request with the decoder's exception,
        before the query is read. Each script returns only objects that
        exist when the request starts. Only a tile or WMS route may queue a
        render or touch a script pool; the runners never change. */
    method HandleInThread(path: string, parameters: map<string, seq<string>>, ifNoneMatch: Option<string>, env: Environment)
      returns (r: Result<(), Exception>, ghost route: Route, ghost info: Option<RenderInfo>)
      requires forall sc, v :: allocated(env.select(sc, v))
      modifies this, renderService, RepositoryPools(repository)
      ensures renderService.runners == old(renderService.runners)
      ensures !Renders(route) ==> unchanged(old(RepositoryPools(repository)))
      ensures var decoded := DecodedComponents(RawComponents(path), env.uriDecode);
        decoded.Err? ==>
          && r == Err(decoded.error) && queryParams == old(queryParams) && response == old(response)
          && pendingRenderRequest == old(pendingRenderRequest) && renderService.queue == old(renderService.queue)
      ensures var decoded := DecodedComponents(RawComponents(path), env.uriDecode);
        decoded.Ok? ==>
          && queryParams.Keys == QueryNames(parameters)
          && (forall n :: n in queryParams ==> FirstValueOf(parameters, n, queryParams[n]))
          && route == old(RouteOf(decoded.value, repository))
          && var view := ViewOf(info);
             Answered(route, r, info, ifNoneMatch, env, RouteResolve(route, view, env, old(RouteIdle(route))),
                      old(response), old(pendingRenderRequest), old(renderService.queue), this)
    {
      ghost var d0 := DecodedComponents(RawComponents(path), env.uriDecode);
      ghost var comps0 := if d0.Ok? then d0.value else [];
      ghost var script := NamedScript(comps0, repository);
      ghost var route0 := RouteOf(comps0, repository);
      ghost var idle0 := RouteIdle(route0);
      ghost var pools := RepositoryPools(repository);
      assert forall o :: o in pools ==> allocated(o);
      var decoded := DecodePath(path, parameters, env);
      if decoded.Err? {
        return Err(decoded.error), TableOfContents, None;
      }
      var (comps, q) := decoded.value;
      assert comps == comps0;
      if script.Some? {
        forall v ensures allocated(env.select(script.value, v)) {
          assert old(allocated(env.select(script.value, v)));
        }
      }
      r, route, info := AdoptPath(comps, q, ifNoneMatch, env, route0, idle0, pools);
    }

    /** decodePath: the decoded path components and the query parameters,
        first value per lower-cased name; a component the decoder rejects is
        its exception. Decoding changes nothing the routing reads. */
    method DecodePath(path: string, parameters: map<string, seq<string>>, env: Environment)
      returns (r: Result<(seq<string>, map<string, string>), Exception>)
      ensures var decoded := DecodedComponents(RawComponents(path), env.uriDecode);
        decoded.Err? ==> r == Err(decoded.error)
      ensures var decoded := DecodedComponents(RawComponents(path), env.uriDecode);
        decoded.Ok? ==>
          && r.Ok? && r.value.0 == decoded.value
          && r.value.1.Keys == QueryNames(parameters)
          && (forall n :: n in r.value.1 ==> FirstValueOf(parameters, n, r.value.1[n]))
      // decoding changes neither the routing, the idle engines nor the pools
      ensures r.Ok? ==>
        && RouteOf(r.value.0, repository) == old(RouteOf(r.value.0, repository))
        && RouteIdle(RouteOf(r.value.0, repository)) == old(RouteIdle(RouteOf(r.value.0, repository)))
        && NamedScript(r.value.0, repository) == old(NamedScript(r.value.0, repository))
      ensures RepositoryPools(repository) == old(RepositoryPools(repository))
    {
      ghost var d0 := DecodedComponents(RawComponents(path), env.uriDecode);
      ghost var comps0 := if d0.Ok? then d0.value else [];
      ghost var script := NamedScript(comps0, repository);
      ghost var found := if comps0 == [] then None else LookupIn(repository, comps0[0]);
      ghost var route0 := RouteOf(comps0, repository);
      ghost var idle0 := RouteIdle(route0);
      ghost var pools := RepositoryPools(repository);
      var decoded := DecodeComponents(RawComponents(path), env.uriDecode);
      var q := DecodeQuery(parameters);
      assert unchanged(RepoFrame(repository));
      assert RepositoryPools(repository) == pools;
      if decoded.Err? {
        return Err(decoded.error);
      }
      if comps0 != [] {
        assert LookupIn(repository, comps0[0]) == found;
        if found.Some? {
          assert LocatorIsValid(found.value) == old(LocatorIsValid(found.value));
        }
      }
      assert RouteOf(comps0, repository) == route0;
      if Renders(route0) && route0.locator.ScriptLoc? {
        assert route0.locator.script.pool.pool == old(route0.locator.script.pool.pool);
      }
      assert RouteIdle(route0) == idle0;
      assert NamedScript(comps0, repository) == script;
      r := Ok((decoded.value, q));
    }

    /** The end of decodePath and the rest of handleInThread: the decoded
        path and query become the handler's, and the request is dispatched. */
    method AdoptPath(comps: seq<string>, q: map<string, string>, ifNoneMatch: Option<string>, env: Environment,
                     ghost route0: Route, ghost idle0: seq<ScriptEngine>, ghost pools: set<ScriptPool>)
      returns (r: Result<(), Exception>, ghost route: Route, ghost info: Option<RenderInfo>)
      requires route0 == RouteOf(comps, repository) && idle0 == RouteIdle(route0) && pools == RepositoryPools(repository)
      requires NamedScript(comps, repository).Some? ==>
        forall v :: allocated(env.select(NamedScript(comps, repository).value, v))
      modifies this, renderService, RepositoryPools(repository)
      ensures queryParams == q
      ensures renderService.runners == old(renderService.runners)
      ensures !Renders(route) ==> unchanged(pools)
      ensures route == route0
      ensures var view := ViewOf(info);
        Answered(route, r, info, ifNoneMatch, env, RouteResolve(route, view, env, idle0),
                 old(response), old(pendingRenderRequest), old(renderService.queue), this)
    {
      ghost var script := NamedScript(comps, repository);
      ghost var found := if comps == [] then None else LookupIn(repository, comps[0]);
      pathComponents, queryParams := comps, q;
      assert RepositoryPools(repository) == pools;
      // the assignment changes neither the routing nor the idle engines
      if comps != [] {
        assert LookupIn(repository, comps[0]) == found;
        if found.Some? {
          assert LocatorIsValid(found.value) == old(LocatorIsValid(found.value));
        }
      }
      assert RouteOf(pathComponents, repository) == route0;
      if Renders(route0) && route0.locator.ScriptLoc? {
        assert route0.locator.script.pool.pool == old(route0.locator.script.pool.pool);
      }
      assert RouteIdle(route0) == idle0;
      if script.Some? {
        forall v ensures allocated(env.select(script.value, v)) {
          assert old(allocated(env.select(script.value, v)));
        }
      }
      assert response == old(response) && pendingRenderRequest == old(pendingRenderRequest);
      assert renderService.queue == old(renderService.queue);
      r, route, info := DispatchPath(ifNoneMatch, env, route0, idle0, pools);
    }

    /** The dispatch of handleInThread on the decoded path. */
    method DispatchPath(ifNoneMatch: Option<string>, env: Environment,
                        ghost route0: Route, ghost idle0: seq<ScriptEngine>, ghost pools: set<ScriptPool>)
      returns (r: Result<(), Exception>, ghost route: Route, ghost info: Option<RenderInfo>)
      requires route0 == RouteOf(pathComponents, repository) && idle0 == RouteIdle(route0)
      requires pools == RepositoryPools(repository)
      requires NamedScript(pathComponents, repository).Some? ==>
        forall v :: allocated(env.select(NamedScript(pathComponents, repository).value, v))
      modifies this, renderService, RepositoryPools(repository)
      ensures queryParams == old(queryParams)
      ensures route == route0
      ensures renderService.runners == old(renderService.runners)
      ensures !Renders(route) ==> unchanged(pools)
      ensures var view := ViewOf(info);
        Answered(route, r, info, ifNoneMatch, env, RouteResolve(route, view, env, idle0),
                 old(response), old(pendingRenderRequest), old(renderService.queue), this)
    {
      if pathComponents == [] {
        route, info := TableOfContents, None;
        r := HandleTocRequest();
      } else {
        r, route, info := HandleMapRequest(ifNoneMatch, env, pools);
      }
    }

    /** handleTOCRequest for the root: every announced map of the listing. */
    method HandleTocRequest() returns (r: Result<(), Exception>)
      modifies this
      ensures pathComponents == old(pathComponents) && queryParams == old(queryParams)
      ensures pendingRenderRequest == old(pendingRenderRequest)
      ensures TocAnswered(r, old(response), this)
    {
      var listed := ListAnnounced();
      if listed.Err? {
        return Err(listed.error);
      }
      assert this !in ListingFrame(repository);
      response := Some(TocListing(listed.value));
      r := Ok(());
    }

    /** handleInThread past the root: takes the map name from the path; an
        unknown or invalid map is a bad request. */
    method HandleMapRequest(ifNoneMatch: Option<string>, env: Environment, ghost pools: set<ScriptPool>)
      returns (r: Result<(), Exception>, ghost route: Route, ghost info: Option<RenderInfo>)
      requires pathComponents != [] && pools == RepositoryPools(repository)
      requires NamedScript(pathComponents, repository).Some? ==>
        forall v :: allocated(env.select(NamedScript(pathComponents, repository).value, v))
      modifies this, renderService, RepositoryPools(repository)
      ensures queryParams == old(queryParams)
      ensures route == old(RouteOf(pathComponents, repository))
      ensures renderService.runners == old(renderService.runners)
      ensures !Renders(route) ==> unchanged(pools)
      ensures var view := ViewOf(info);
        Answered(route, r, info, ifNoneMatch, env, RouteResolve(route, view, env, old(RouteIdle(route))),
                 old(response), old(pendingRenderRequest), old(renderService.queue), this)
    {
      ghost var route0 := RouteOf(pathComponents, repository);
      ghost var script := NamedScript(pathComponents, repository);
      var first := TakeComponent();
      var name := first.value;
      var found := LookupIn(repository, name);
      if found.None? || !LocatorIsValid(found.value) {
        response := Some(ErrorResponse(BAD_REQUEST, "Map name " + name + " is not valid"));
        return Ok(()), UnknownMap(name), None;
      }
      var locator := found.value;
      route := RouteAfter(name, locator, pathComponents);
      assert route == route0;
      LookedUpPoolsAreRepositoryPools(repository, name);
      if locator.ScriptLoc? {
        assert script == Some(locator.script);
        forall v ensures allocated(env.select(locator.script, v)) {
          assert old(allocated(env.select(script.value, v)));
        }
      }
      // taking the map name changed nothing the answer depends on
      ghost var idle0 := old(RouteIdle(route));
      if locator.ScriptLoc? {
        assert locator.script.pool.pool == old(locator.script.pool.pool);
      }
      assert RouteIdle(route) == idle0;
      assert response == old(response) && pendingRenderRequest == old(pendingRenderRequest);
      assert renderService.queue == old(renderService.queue);
      label Classed:
      r, info := HandleClassRequest(name, locator, ifNoneMatch, env);
      assert old@Classed(RouteIdle(route)) == idle0;
    }

    /** handleInThread once the map is known: its entry when the path ends,
        else the tile or WMS request the next component names. */
    method HandleClassRequest(name: string, locator: Locator, ifNoneMatch: Option<string>, env: Environment)
      returns (r: Result<(), Exception>, ghost info: Option<RenderInfo>)
      requires locator.ScriptLoc? ==> forall v :: allocated(env.select(locator.script, v))
      modifies this, renderService, ResolvePools(locator)
      ensures queryParams == old(queryParams)
      ensures renderService.runners == old(renderService.runners)
      ensures !Renders(RouteAfter(name, locator, old(pathComponents))) ==> unchanged(ResolvePools(locator))
      ensures var view := ViewOf(info);
        Answered(RouteAfter(name, locator, old(pathComponents)), r, info, ifNoneMatch, env,
                 RouteResolve(RouteAfter(name, locator, old(pathComponents)), view, env,
                              old(RouteIdle(RouteAfter(name, locator, pathComponents)))),
                 old(response), old(pendingRenderRequest), old(renderService.queue), this)
    {
      info := None;
      var requestClass := TakeComponent();
      if requestClass.None? {
        response := Some(TocEntry(name, PropertiesOf(locator).entries));
        return Ok(()), None;
      }
      if locator.ScriptLoc? {
        forall v ensures allocated(env.select(locator.script, v)) {
          assert old(allocated(env.select(locator.script, v)));
        }
      }
      if requestClass.value == "tile" {
        r, info := HandleTileRequest(name, locator, ifNoneMatch, env);
      } else if requestClass.value == "wms" {
        r, info := HandleWmsRequest(name, locator, ifNoneMatch, env);
      } else {
        r := Err(IllegalArgument("Request class '" + requestClass.value + " is invalid"));
      }
    }

    /** doRender: takes a map from the resource's pool for this handler,
        configures it from the render info, renders, recycles the map and
        sends the image. A map taken and then abandoned by an exception is
        not recycled. */
    method DoRender(rr: RenderRequest, renderFailure: Option<Exception>) returns (r: Result<(), Exception>, ghost used: Option<MapDefinition>)
      modifies this, RenderObjects(rr)
      ensures pathComponents == old(pathComponents) && queryParams == old(queryParams)
      ensures pendingRenderRequest == old(pendingRenderRequest)
      ensures r.Err? <==> old(RenderError(rr, renderFailure)).Some?
      ensures r.Err? ==> r.error == old(RenderError(rr, renderFailure)).value && response == old(response)
      ensures !(rr.resource.Some? && rr.resource.value.MapnikRes?) ==> used.None?
      ensures rr.resource.Some? && rr.resource.value.MapnikRes? ==>
        var res := rr.resource.value.mapnik;
        && res.mapFileContents == old(res.mapFileContents) && res.identityTag == old(res.identityTag)
        && res.repository == old(res.repository)
        && (used.Some? <==> old(MapAvailable(res)))
        && (old(Pooled(res)) != {} ==> used.Some? && used.value in old(Pooled(res)))
        && (old(Pooled(res)) == {} && used.Some? ==> fresh(used.value))
        && (used.None? ==> res.buckets == old(res.buckets))
        && (used.Some? && r.Err? ==> res.buckets == Taken(old(res.buckets), used.value))
        && (r.Ok? ==>
              && used.Some? && ConfiguredFor(used.value, rr.renderInfo.value)
              && res.buckets == Recycled(Taken(old(res.buckets), used.value), Some(HANDLER_TAG), used.value)
              && response == Some(ImageResponse(rr.renderInfo.value.format.value, res.identityTag)))
    {
      used := None;
      if rr.resource.None? || !rr.resource.value.MapnikRes? {
        return Err(NullPointer), None;
      }
      var res := rr.resource.value.mapnik;
      var created := res.CreateMap(Some(HANDLER_TAG));
      if created.Err? {
        return Err(created.error), None;
      }
      var m := created.value;
      used := Some(m);
      if rr.renderInfo.None? {
        return Err(NullPointer), used;
      }
      var info := rr.renderInfo.value;
      m.aspectFixMode := Some(info.aspectFixMode.GetOr(GrowBbox));
      if info.projection.None? {
        return Err(NullPointer), used;
      }
      m.srs := info.projection.value.srs;
      m.width := info.width;
      m.height := info.height;
      if info.bounds.None? {
        return Err(NullPointer), used;
      }
      m.bounds := info.bounds;
      m.bufferSize := BufferSize(info);
      if renderFailure.Some? {
        return Err(renderFailure.value), used;
      }
      if info.format.None? {
        return Err(NullPointer), used;
      }
      var tag := res.identityTag;
      assert ConfiguredFor(m, info);
      ghost var taken := res.buckets;
      res.RecycleMap(Some(HANDLER_TAG), m);
      response := Some(ImageResponse(info.format.value, tag));
      r := Ok(());
      assert ConfiguredFor(m, info) && rr.renderInfo == Some(info);
      assert res.buckets == Recycled(taken, Some(HANDLER_TAG), m);
    }

    /** handleRenderError: 500. */
    method HandleRenderError(failure: Exception)
      modifies this
      ensures response == Some(ErrorResponse(INTERNAL_SERVER_ERROR, "Error rendering tile"))
      ensures pathComponents == old(pathComponents) && queryParams == old(queryParams)
      ensures pendingRenderRequest == old(pendingRenderRequest)
    {
      response := Some(ErrorResponse(INTERNAL_SERVER_ERROR, "Error rendering tile"));
    }

    /** handleCancelled: 408. */
    method HandleCancelled()
      modifies this
      ensures response == Some(ErrorResponse(REQUEST_TIMEOUT, "Request cancelled"))
      ensures pathComponents == old(pathComponents) && queryParams == old(queryParams)
      ensures pendingRenderRequest == old(pendingRenderRequest)
    {
      response := Some(ErrorResponse(REQUEST_TIMEOUT, "Request cancelled"));
    }

    /** The callbacks a runner makes for this handler's dequeued request:
        the calls are the ones the render service dispatches, and the
        response is 408 for a cancelled request, 500 for a render that
        threw, and the image otherwise. */
    method Serve(rr: RenderRequest, renderFailure: Option<Exception>) returns (calls: seq<Call>, ghost used: Option<MapDefinition>)
      modifies this, RenderObjects(rr)
      ensures calls == Dispatch(rr.cancelled, Outcomes(None, old(RenderError(rr, renderFailure))))
      ensures rr.cancelled ==> response == Some(ErrorResponse(REQUEST_TIMEOUT, "Request cancelled"))
      ensures !rr.cancelled && old(RenderError(rr, renderFailure)).Some? ==>
        response == Some(ErrorResponse(INTERNAL_SERVER_ERROR, "Error rendering tile"))
      ensures !rr.cancelled && old(RenderError(rr, renderFailure)).None? ==>
        response.Some? && response.value.Image? && response.value.etag == ResourceTag(rr.resource.value)
    {
      if rr.cancelled {
        HandleCancelled();
        return [Call.HandleCancelled], None;
      }
      var r;
      r, used := DoRender(rr, renderFailure);
      if r.Err? {
        HandleRenderError(r.error);
        calls := [Call.DoRender, Call.HandleRenderError(r.error)];
      } else {
        calls := [Call.DoRender];
      }
    }

    /** handleRenderRequest: resolves the locator for a new request carrying
        the render info, then answers 404 or 304 or queues the request. */
    method HandleRenderRequest(info: RenderInfo, mapName: string, locator: Locator, ifNoneMatch: Option<string>, env: Environment)
      returns (r: Result<(), Exception>)
      requires locator.ScriptLoc? ==> allocated(env.select(locator.script, Visible(info)))
      modifies this, renderService, ResolvePools(locator)
      ensures pathComponents == old(pathComponents) && queryParams == old(queryParams)
      ensures renderService.runners == old(renderService.runners)
      ensures AnswersResolved(Admit(ResolveOf(locator, Visible(info), env, old(Idle(locator))), ifNoneMatch), r, mapName, info, env.now,
                 old(response), old(pendingRenderRequest), old(renderService.queue),
                 response, pendingRenderRequest, renderService.queue, this)
      ensures pendingRenderRequest != old(pendingRenderRequest) ==> pendingRenderRequest.Some? && fresh(pendingRenderRequest.value)
    {
      var view := Visible(info);
      ghost var sel := if locator.ScriptLoc? then env.select(locator.script, view) else Ok(VNull);
      var resolved := ResolveFor(locator, view, env);
      ghost var frame := if locator.ScriptLoc? then ScriptReads(locator.script, view, env) else {};
      assert this !in frame && renderService !in frame;
      label Resolved:
      r := AnswerResolved(resolved, info, mapName, ifNoneMatch, env.now);
      if locator.ScriptLoc? && sel.Ok? {
        // resolve reads nothing AnswerResolved changes
        var sc := locator.script;
        assert sc.repository == old@Resolved(sc.repository);
        assert sc.SettleFrame(sel.value) == old@Resolved(sc.SettleFrame(sel.value));
        if sel.value.VString? && sc.repository.Some? {
          var named := LocatorValue(LookupIn(sc.repository.value, sel.value.s));
          assert named == old@Resolved(LocatorValue(LookupIn(sc.repository.value, sel.value.s)));
          assert sc.Settle(named, view, env.nested) == old@Resolved(sc.Settle(named, view, env.nested));
        }
        assert sc.Settle(sel.value, view, env.nested) == old@Resolved(sc.Settle(sel.value, view, env.nested));
      }
    }

    /** The part of handleRenderRequest after resolve: a new request
        carrying the render info and the resource, answered 404 or 304 or
        recorded as pending and queued. */
    method AnswerResolved(resolved: Result<Option<Resource>, Exception>, info: RenderInfo, mapName: string,
                   ifNoneMatch: Option<string>, now: int) returns (r: Result<(), Exception>)
      modifies this, renderService
      ensures pathComponents == old(pathComponents) && queryParams == old(queryParams)
      ensures renderService.runners == old(renderService.runners)
      ensures AnswersResolved(Admit(resolved, ifNoneMatch), r, mapName, info, now,
                       old(response), old(pendingRenderRequest), old(renderService.queue),
                       response, pendingRenderRequest, renderService.queue, this)
      ensures pendingRenderRequest != old(pendingRenderRequest) ==> pendingRenderRequest.Some? && fresh(pendingRenderRequest.value)
    {
      var rr := new RenderRequest(now);
      rr.renderInfo := Some(info);
      if resolved.Err? {
        return Err(resolved.error);
      }
      if resolved.value.None? || !ResourceIsValid(resolved.value.value) {
        response := Some(ErrorResponse(NOT_FOUND, "Map '" + mapName + "' is not valid"));
        return Ok(());
      }
      var resource := resolved.value.value;
      rr.resource := Some(resource);
      var tag := ResourceTag(resource);
      if tag.Some? && ifNoneMatch.Some? && tag.value == ifNoneMatch.value {
        response := Some(NotModified(CACHE_CONTROL));
        return Ok(());
      }
      pendingRenderRequest := Some(rr);
      var ticket := renderService.Submit(rr, this);
      r := Ok(());
    }
  }
}
