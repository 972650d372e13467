# nanomaps-server core, modelled in Dafny

nanomaps-server is a Java map-tile server. An HTTP request under `/map/` names
a map and then asks for one of three things: the table of contents, a tile
(`/map/{name}/tile/{level}/{x}/{y}`) or a WMS GetMap image (`/map/{name}/wms?...`).
The handler (`MapRequestHandler`) works in these steps:

- it decodes the path and the query;
- it looks the map up in a repository;
- it turns the query into render parameters (`RenderInfo`), using one of the
  render projections;
- it resolves the map's locator into a resource. A script locator runs the
  `select` function of its JavaScript;
- it answers 304 when the client already holds the resource's identity tag;
- otherwise it queues a `RenderRequest` with the render service. A render
  worker later takes the cheapest request and calls back into the handler
  to render or to report.

The repository (`FileSystemMapRepository`) publishes two kinds of map, each
under its base name:

- every `*.mapnik.xml` file of a directory, as a Mapnik map;
- every `*.select.js` file, as a script locator.

Maps registered statically sit beneath the scanned ones.

The model has one module per part of the system. All files are verified together.

| file | module | models |
|---|---|---|
| common.dfy | `Common` | Java's null and exceptions as `Option`/`Result`; `indexOf`, the one-character `Pattern.split`, ASCII case mapping and the `(int)` cast of a double |
| projection.dfy | `Geometry`, `Projection` | `Box2d`/`Coord`; `Proj4RenderProjection`, `WebMercatorRenderProjection`, `WebMercatorTileProjection`, the `RenderProjection` factory |
| render_info.dfy | `RenderInfos` | `RenderInfo` and its resolutions; mapnik's `AspectFixMode` |
| script_pool.dfy | `Scripting` | `ScriptPool` and its engines |
| maps.dfy | `Maps` | `MapnikMapResource`, `ScriptMapLocator`, `StaticMapRepository`, `FileSystemMapRepository` |
| requests.dfy | `Requests` | `RenderRequest` |
| render_service.dfy | `Scheduling` | `RenderService`, its tickets and one turn of a render worker |
| handler.dfy | `Handler` | `MapRequestHandler` |

Objects whose fields the Java code updates in place are classes:

- the engine pool, the map-definition buckets and the two repositories;
- the locators and their property maps;
- the render request and the render service's queue;
- the projection and the handler.

Their methods are proved against functions of the old state, for example
`ScriptMapLocator.Resolve` against `ResolveResult`. Java interfaces implemented
by several classes become datatypes over the class references:

- `Locator` stands for `MapLocator`;
- `Resource` stands for `MapResource`;
- `Repository` stands for `MapRepository`;
- `Value` stands for what a script returns.

The world outside the core is given as parameters:

- the native Mapnik library: whether it loads a map, and its forward transforms;
- the JavaScript engine: whether a script evaluates, and what `select` returns;
- the identity hasher;
- the number parsers and URL decoding;
- the directory listing, the file contents and the companion properties files;
- the clock.

## Model

| member | source | states |
|---|---|---|
| Common.IndexOf | sources/nanomaps-server/src/net/rcode/nanomaps/server/FileSystemMapRepository.java:183-184 | `indexOf`: a found position holds the character and none before it does; None exactly when the character does not occur |
| Common.IndexOfIsFirst | sources/nanomaps-server/src/net/rcode/nanomaps/server/FileSystemMapRepository.java:183 | conversely, the first position holding the character is the one found |
| Common.SplitAll | sources/nanomaps-server/src/net/rcode/nanomaps/server/MapRequestHandler.java:110 | splitting gives at least one piece and no piece holds the separator |
| Common.SplitThenJoin | sources/nanomaps-server/src/net/rcode/nanomaps/server/MapRequestHandler.java:110 | joining the pieces with the separator gives back the string |
| Common.JoinThenSplit | sources/nanomaps-server/src/net/rcode/nanomaps/server/MapRequestHandler.java:110 | separator-free pieces, joined and split again, come back unchanged |
| Common.DropTrailingEmpty | sources/nanomaps-server/src/net/rcode/nanomaps/server/MapRequestHandler.java:110 | the result is a prefix of the pieces, does not end in an empty piece, and only empty pieces were dropped |
| Common.JavaSplit | sources/nanomaps-server/src/net/rcode/nanomaps/server/MapRequestHandler.java:66-67 | `Pattern.split` on a one-character pattern: no piece holds the separator; without a separator the input is the only piece |
| Common.JavaSplitOfJoin | sources/nanomaps-server/src/net/rcode/nanomaps/server/MapRequestHandler.java:110 | separator-free pieces whose last one is not empty are exactly what `Pattern.split` returns for their join |
| Common.Lower | sources/nanomaps-server/src/net/rcode/nanomaps/server/MapRequestHandler.java:120 | `toLowerCase`: same length, and each character is lower-cased on its own |
| Common.LowerKeepsLowercase | sources/nanomaps-server/src/net/rcode/nanomaps/server/MapRequestHandler.java:540-543 | a string without capitals is its own lower case, so the four MIME constants compare as themselves |
| Common.Upper | sources/nanomaps-server/src/net/rcode/nanomaps/server/MapRequestHandler.java:376 | `toUpperCase`: same length, and each character is upper-cased on its own |
| Common.DoubleToInt | sources/nanomaps-server/src/net/rcode/nanomaps/server/MapRequestHandler.java:485 | the `(int)` cast of a double always lies in the range of int |
| Common.DoubleToIntKeepsInts | sources/nanomaps-server/src/net/rcode/nanomaps/server/MapRequestHandler.java:485 | an int converted to double and cast back is unchanged |
| Common.DoubleToIntTruncates | sources/nanomaps-server/src/net/rcode/nanomaps/server/MapRequestHandler.java:485 | inside the int range the cast drops the fraction toward zero, for either sign |
| Geometry.Spanned | sources/nanomaps-server/src/net/rcode/nanomaps/server/projection/Proj4RenderProjection.java:46 | the box built from Math.min/Math.max of two corners is normalized, takes each edge from one of the corners, and spans their distance on both axes |
| Projection.Int32Wrap | sources/nanomaps-server/src/net/rcode/nanomaps/server/projection/Proj4RenderProjection.java:41-42 | the int that `x*tileWidth` leaves: in int range, equal to the product when that fits, and congruent to it modulo 2^32 |
| Projection.Pow2 | sources/nanomaps-server/src/net/rcode/nanomaps/server/projection/Proj4RenderProjection.java:52 | `Math.pow(2, k)` for an integer k is positive |
| Projection.LevelResolution | sources/nanomaps-server/src/net/rcode/nanomaps/server/projection/Proj4RenderProjection.java:51-53 | the resolution of a level, multiplied by 2^(level-1), is the reference resolution |
| Projection.LevelOneIsReference | sources/nanomaps-server/src/net/rcode/nanomaps/server/projection/Proj4RenderProjection.java:51-53 | level 1 has exactly the reference resolution |
| Projection.NextLevelHalves | sources/nanomaps-server/src/net/rcode/nanomaps/server/projection/Proj4RenderProjection.java:51-53 | each level has half the resolution of the level before it |
| Projection.TileBox | sources/nanomaps-server/src/net/rcode/nanomaps/server/projection/Proj4RenderProjection.java:39-46 | the tile box is normalized, is `|w·res|` wide and `|h·res|` high, and has the upper-left corner at its (minx, maxy) when sizes and resolution are non-negative |
| Projection.TileBoxAnchored | sources/nanomaps-server/src/net/rcode/nanomaps/server/projection/Proj4RenderProjection.java:41-44 | for a non-negative resolution and tile size, minx is `origin.x + (x·w)·res` and maxy is `origin.y − (y·h)·res`, with the products wrapped to int |
| Projection.HorizontalNeighboursAbut | sources/nanomaps-server/src/net/rcode/nanomaps/server/projection/Proj4RenderProjection.java:41-43 | tiles (x,y) and (x+1,y) share their vertical edge and their vertical span, while the pixel offsets fit in an int |
| Projection.VerticalNeighboursAbut | sources/nanomaps-server/src/net/rcode/nanomaps/server/projection/Proj4RenderProjection.java:42-44 | tiles (x,y) and (x,y+1) share their horizontal edge, while the pixel offsets fit in an int |
| Projection.OverflowedNeighboursDoNotAbut | sources/nanomaps-server/src/net/rcode/nanomaps/server/projection/Proj4RenderProjection.java:41 | at 256-pixel tiles, tile x = 8388608 wraps to −2^31 pixels, so it does not abut tile 8388607 |
| Projection.Proj4RenderProjection.constructor | sources/nanomaps-server/src/net/rcode/nanomaps/server/projection/Proj4RenderProjection.java:17-24 | a new projection keeps its definition, has reference resolution 100000 and origin (0,0) |
| Projection.Proj4RenderProjection.WebMercator | sources/nanomaps-server/src/net/rcode/nanomaps/server/projection/WebMercatorRenderProjection.java:13-19 | web mercator: the mercator definition, reference resolution 78271.5170, and the forward projection of (−180, 85.05112878) as origin |
| Projection.Proj4RenderProjection.ResolutionFromLevel | sources/nanomaps-server/src/net/rcode/nanomaps/server/projection/Proj4RenderProjection.java:51-53 | the level's resolution times 2^(level−1) is the current reference resolution |
| Projection.Proj4RenderProjection.ProjectTile | sources/nanomaps-server/src/net/rcode/nanomaps/server/projection/Proj4RenderProjection.java:37-48 | the tile's envelope is normalized and is tileWidth and tileHeight times the level's resolution in size |
| Projection.ProjectTileCorner | sources/nanomaps-server/src/net/rcode/nanomaps/server/projection/Proj4RenderProjection.java:39-44 | the envelope starts x·tileWidth pixels right of the projected origin and y·tileHeight pixels below it, in int arithmetic, for a non-negative reference resolution |
| Projection.Proj4RenderProjection.SetProjectedOrigin | sources/nanomaps-server/src/net/rcode/nanomaps/server/projection/Proj4RenderProjection.java:71-74 | the origin takes the point's coordinates and the reference resolution stays |
| Projection.Proj4RenderProjection.SetReferenceResolution | sources/nanomaps-server/src/net/rcode/nanomaps/server/projection/Proj4RenderProjection.java:77-79 | the reference resolution is replaced and the origin stays |
| Projection.EpsgChoiceOf | sources/nanomaps-server/src/net/rcode/nanomaps/server/projection/RenderProjection.java:15-24 | mercator exactly for 900913, 3785 and 3857; WGS84 long/lat exactly for 4326; nothing for any other code |
| Projection.CreateDefaultProjection | sources/nanomaps-server/src/net/rcode/nanomaps/server/projection/RenderProjection.java:11-13 | the default projection is a new web-mercator projection |
| Projection.CreateFromEpsgCode | sources/nanomaps-server/src/net/rcode/nanomaps/server/projection/RenderProjection.java:15-24 | succeeds exactly for the recognised codes: the aliases give web mercator, 4326 gives WGS84 with the Proj4 defaults, any other code gives "Unrecognized EPSG code" |
| Projection.CreateFromProj4Params | sources/nanomaps-server/src/net/rcode/nanomaps/server/projection/RenderProjection.java:26-32 | succeeds exactly when Proj4 accepts the definition, with the Proj4 defaults; otherwise "Illegal proj4 init '…'" |
| Projection.WebMercatorTileProjection.ResolutionFromLevel | sources/nanomaps-server/src/net/rcode/nanomaps/server/projection/WebMercatorTileProjection.java:63-65 | the level's resolution times 2^(level−1) is 78271.5170 |
| Projection.WebMercatorTileProjection.ProjectTile | sources/nanomaps-server/src/net/rcode/nanomaps/server/projection/WebMercatorTileProjection.java:47-57 | the tile's envelope is normalized and is tileWidth and tileHeight times the level's resolution in size |
| Projection.MercatorTileCorner | sources/nanomaps-server/src/net/rcode/nanomaps/server/projection/WebMercatorTileProjection.java:48-53 | the envelope starts x·tileWidth pixels right of the extent's minx and y·tileHeight pixels below its maxy, in int arithmetic |
| Projection.FirstTileAtExtentCorner | sources/nanomaps-server/src/net/rcode/nanomaps/server/projection/WebMercatorTileProjection.java:50-51 | tile (0,0) has its upper-left corner at the projected extent's (minx, maxy) |
| Projection.WebMercatorTileProjection.GetCostFactor | sources/nanomaps-server/src/net/rcode/nanomaps/server/projection/WebMercatorTileProjection.java:68-71 | the cost factor times the projected extent's width is the extent's width |
| Projection.CreateWebMercatorTileProjection | sources/nanomaps-server/src/net/rcode/nanomaps/server/projection/WebMercatorTileProjection.java:19-23 | the projected extent is the forward projection of the global lon/lat extent |
| Projection.FullExtentCostsOne | sources/nanomaps-server/src/net/rcode/nanomaps/server/projection/WebMercatorTileProjection.java:68-70 | the whole projected extent costs exactly 1 |
| Projection.CostFactorInUnitRange | sources/nanomaps-server/src/net/rcode/nanomaps/server/projection/TileProjection.java:43-48 | a normalized extent no wider than the projected extent costs between 0 and 1 |
| RenderInfos.ModeValueOf | sources/nanomaps-server/src/net/rcode/nanomaps/server/MapRequestHandler.java:376-381 | `AspectFixMode.valueOf`: a mode is found only under its own constant name, and every constant name finds its mode |
| RenderInfos.ModeNamesRoundTrip | sources/nanomaps-server/src/net/rcode/nanomaps/server/MapRequestHandler.java:46 | each of the eight modes reads back from its constant name |
| RenderInfos.RenderInfo.ResolutionX | sources/nanomaps-server/src/net/rcode/nanomaps/server/RenderInfo.java:26-28 | the X resolution times the width is the width of the bounds |
| RenderInfos.RenderInfo.ResolutionY | sources/nanomaps-server/src/net/rcode/nanomaps/server/RenderInfo.java:30-32 | the Y resolution times the height is the height of the bounds |
| RenderInfos.RenderInfo.Resolution | sources/nanomaps-server/src/net/rcode/nanomaps/server/RenderInfo.java:34-36 | the resolution is at least each axis resolution and equals one of them |
| RenderInfos.ResolutionOfScaledCanvas | sources/nanomaps-server/src/net/rcode/nanomaps/server/RenderInfo.java:26-36 | bounds that are the canvas size times a non-negative resolution give that resolution on both axes and overall |
| RenderInfos.TileResolutionIsLevelResolution | sources/nanomaps-server/src/net/rcode/nanomaps/server/RenderInfo.java:26-36 | a tile render info, with bounds from projectTile at its canvas size, has exactly the level's resolution |
| Scripting.ScriptPool.constructor | sources/nanomaps-server/src/net/rcode/nanomaps/server/util/ScriptPool.java:34-39 | a new pool stores engine name, script text and script name, and holds no engine |
| Scripting.ScriptPool.CreateInstance | sources/nanomaps-server/src/net/rcode/nanomaps/server/util/ScriptPool.java:81-85 | gives a fresh engine with the pool's script exactly when the script evaluates, else a ScriptException |
| Scripting.ScriptPool.Initialize | sources/nanomaps-server/src/net/rcode/nanomaps/server/util/ScriptPool.java:57-60 | on success exactly one fresh engine is appended after the existing ones; on failure the pool is unchanged |
| Scripting.ScriptPool.GetEngine | sources/nanomaps-server/src/net/rcode/nanomaps/server/util/ScriptPool.java:62-71 | a non-empty pool hands out and drops its first engine; an empty pool stays empty and creates a fresh engine |
| Scripting.ScriptPool.Recycle | sources/nanomaps-server/src/net/rcode/nanomaps/server/util/ScriptPool.java:73-79 | the engine is appended at the back and the others stay in order |
| Scripting.RecycleScenario | sources/nanomaps-server/test/net/rcode/nanomaps/server/util/ScriptPoolTest.java:28-41 | after initialize, two check-outs give distinct engines, and an engine recycled into the empty pool is the next one handed out |
| Maps.PropertyMap.AddAbsent | sources/nanomaps-server/src/net/rcode/nanomaps/server/FileSystemMapRepository.java:198-205 | the new properties are the loaded ones overridden by the existing ones |
| Maps.AddAbsentKeepsExisting | sources/nanomaps-server/src/net/rcode/nanomaps/server/FileSystemMapRepository.java:200-205 | the merge has the names of both maps; an existing name keeps its value; a new name takes the loaded one |
| Maps.Recycled | sources/nanomaps-server/src/net/rcode/nanomaps/server/MapnikMapResource.java:129-138 | after recycling, the tag's bucket exists and holds the map; every other bucket is as it was |
| Maps.RecycleTwiceKeepsOneCopy | sources/nanomaps-server/src/net/rcode/nanomaps/server/MapnikMapResource.java:133-136 | recycling the same map twice is the same as recycling it once |
| Maps.RecycledIntoEmptyBucket | sources/nanomaps-server/src/net/rcode/nanomaps/server/MapnikMapResource.java:131-136 | a map recycled into an absent or empty bucket is the only map in it |
| Maps.MapnikMapResource.constructor | sources/nanomaps-server/src/net/rcode/nanomaps/server/MapnikMapResource.java:39-42 | a new resource has no contents, no identity tag, no repository (so it is not valid) and no pooled maps |
| Maps.MapnikMapResource.Initialize | sources/nanomaps-server/src/net/rcode/nanomaps/server/MapnikMapResource.java:44-59 | succeeds exactly when the file reads, its debug copy is written and mapnik loads it; then it sets the tag to the digest of "mapnik:", the canonical path and the contents, and records the repository; a failure leaves tag and repository as they were |
| Maps.MapnikMapResource.NewMap | sources/nanomaps-server/src/net/rcode/nanomaps/server/MapnikMapResource.java:78-83 | a fresh map loaded from the stored contents, or a native failure when mapnik does not load them |
| Maps.MapnikMapResource.CreateMap | sources/nanomaps-server/src/net/rcode/nanomaps/server/MapnikMapResource.java:112-127 | with a non-null tag and a non-empty bucket, hands out a member of that bucket and removes only it; otherwise builds a new map and leaves every bucket as it was |
| Maps.MapnikMapResource.RecycleMap | sources/nanomaps-server/src/net/rcode/nanomaps/server/MapnikMapResource.java:129-138 | the buckets become `Recycled(old buckets, tag, m)`; contents, tag and repository stay |
| Maps.ExternalResource.constructor | sources/nanomaps-server/test/net/rcode/nanomaps/server/ScriptMapLocatorTest.java:16-40 | a resource of fixed validity and identity tag, with empty properties |
| Maps.InitializeLocator | sources/nanomaps-server/src/net/rcode/nanomaps/server/FileSystemMapRepository.java:123-125 | `MapRepositoryManaged.initialize` succeeds exactly when the locator's own initialize does; success records the repository, failure keeps the old one |
| Maps.ResolveLocator | sources/nanomaps-server/src/net/rcode/nanomaps/server/MapnikMapResource.java:140-143 | a resource resolves to itself; a script locator gives what its resolve gives |
| Maps.ScriptMapLocator.constructor | sources/nanomaps-server/src/net/rcode/nanomaps/server/ScriptMapLocator.java:47-49 | a new locator has a fresh JavaScript pool over the script, no engine and no repository |
| Maps.ScriptMapLocator.Initialize | sources/nanomaps-server/src/net/rcode/nanomaps/server/ScriptMapLocator.java:56-62 | valid exactly when the pool primes: then the repository is recorded and one engine added; a script that fails leaves it invalid and the pool unchanged |
| Maps.ScriptMapLocator.Wrap | sources/nanomaps-server/src/net/rcode/nanomaps/server/ScriptMapLocator.java:90-91 | every exception comes back as a RuntimeException caused by it; an Error passes unchanged |
| Maps.ScriptMapLocator.Resolve | sources/nanomaps-server/src/net/rcode/nanomaps/server/ScriptMapLocator.java:64-95 | the result is `ResolveResult`, the reference dispatch without a loop. In it a name is looked up, a locator must be valid, a resource is taken without a validity check, and any other value is illegal. The engine taken from the pool goes back to its end on every path once it was checked out |
| Maps.StaticMapRepository.Empty | sources/nanomaps-server/src/net/rcode/nanomaps/server/StaticMapRepository.java:16-18 | the repository starts with no contents |
| Maps.StaticMapRepository.constructor | sources/nanomaps-server/src/net/rcode/nanomaps/server/StaticMapRepository.java:20-22 | the given map is the contents |
| Maps.StaticMapRepository.LookupMap | sources/nanomaps-server/src/net/rcode/nanomaps/server/StaticMapRepository.java:25-27 | finds a locator exactly for a stored name, and it is the stored one |
| Maps.StaticMapRepository.ListMaps | sources/nanomaps-server/src/net/rcode/nanomaps/server/StaticMapRepository.java:30-32 | the listed names are exactly those a lookup finds |
| Maps.EmptyRepositoryHasNoMaps | sources/nanomaps-server/src/net/rcode/nanomaps/server/StaticMapRepository.java:16-18 | an empty repository lists nothing and finds nothing |
| Maps.MatchBaseName | sources/nanomaps-server/src/net/rcode/nanomaps/server/FileSystemMapRepository.java:34-35 | a match splits the name into a non-empty base of `[a-z0-9_-]` (either case) and the suffix in any letter case |
| Maps.BaseNameRoundTrip | sources/nanomaps-server/src/net/rcode/nanomaps/server/FileSystemMapRepository.java:34-35 | conversely, every such base followed by the suffix in any case matches, with that base |
| Maps.RootName | sources/nanomaps-server/src/net/rcode/nanomaps/server/FileSystemMapRepository.java:182-186 | the part before the first dot, if there is a dot |
| Maps.CompanionIsNamedAfterBaseName | sources/nanomaps-server/src/net/rcode/nanomaps/server/FileSystemMapRepository.java:181-187 | a recognised file's companion properties are named after its base name |
| Maps.InitializeAll | sources/nanomaps-server/src/net/rcode/nanomaps/server/FileSystemMapRepository.java:120-133 | each child is valid against the frozen repository exactly when its initialize succeeds; a failure does not stop the others |
| Maps.FileSystemMapRepository.constructor | sources/nanomaps-server/src/net/rcode/nanomaps/server/FileSystemMapRepository.java:53-55 | no scan yet and no static maps |
| Maps.FileSystemMapRepository.LookupMap | sources/nanomaps-server/src/net/rcode/nanomaps/server/FileSystemMapRepository.java:64-72 | a scanned map wins over a static one of the same name; with no scan or no scanned entry, the static entry or null |
| Maps.FileSystemMapRepository.ListMaps | sources/nanomaps-server/src/net/rcode/nanomaps/server/FileSystemMapRepository.java:74-85 | before the first scan a NullPointerException; after one, exactly the names a lookup finds |
| Maps.FileSystemMapRepository.Add | sources/nanomaps-server/src/net/rcode/nanomaps/server/FileSystemMapRepository.java:93-98 | the static entry is overwritten and scanned maps stay; a managed locator is initialized against this repository; its failure is thrown after registration |
| Maps.FileSystemMapRepository.LoadCompanionProperties | sources/nanomaps-server/src/net/rcode/nanomaps/server/FileSystemMapRepository.java:181-206 | fails exactly when the companion exists and does not load; otherwise only absent names are added |
| Maps.FileSystemMapRepository.Build | sources/nanomaps-server/src/net/rcode/nanomaps/server/FileSystemMapRepository.java:142-177 | a file gives a fresh, uninitialized locator of the kind its name says, under its base name, exactly when `Recognise` accepts it |
| Maps.FileSystemMapRepository.BuildMapnik | sources/nanomaps-server/src/net/rcode/nanomaps/server/FileSystemMapRepository.java:146-160 | a `*.mapnik.xml` file gives a fresh Mapnik resource under its base name, carrying its companion properties, exactly when its canonical path resolves and the companion loads |
| Maps.FileSystemMapRepository.BuildScript | sources/nanomaps-server/src/net/rcode/nanomaps/server/FileSystemMapRepository.java:163-177 | a `*.select.js` file gives a fresh script locator under its base name, carrying its companion properties, exactly when its text reads and the companion loads |
| Maps.FileSystemMapRepository.ScanChildren | sources/nanomaps-server/src/net/rcode/nanomaps/server/FileSystemMapRepository.java:140-179 | the new generation has exactly the names the listing was recognised under, each with a fresh locator built from its file and carrying its companion properties, no two names sharing one |
| Maps.FileSystemMapRepository.Scan | sources/nanomaps-server/src/net/rcode/nanomaps/server/FileSystemMapRepository.java:104-138 | publishes exactly the new generation, including children whose initialize failed. Each child is initialized against a frozen copy holding the static maps overridden by the new ones. Static maps stay. Every new map carries the properties of its companion file, is freshly allocated, and no two names share a locator |
| Maps.FrozenCopyAgreesWithPublished | sources/nanomaps-server/src/net/rcode/nanomaps/server/FileSystemMapRepository.java:113-118 | the frozen copy finds what the published repository finds, name by name |
| Maps.ResolutionFixture | sources/nanomaps-server/test/net/rcode/nanomaps/server/ScriptMapLocatorTest.java:44-50 | two dummy resources and the script map are registered and found under their names; the script locator is initialized against the repository |
| Maps.StringResolutionScenario | sources/nanomaps-server/test/net/rcode/nanomaps/server/ScriptMapLocatorTest.java:43-62 | a script naming "dummy1"/"dummy2" resolves to exactly those instances, though they are not valid |
| Maps.DirectResolutionScenario | sources/nanomaps-server/test/net/rcode/nanomaps/server/ScriptMapLocatorTest.java:64-84 | a script returning the looked-up resource itself resolves to that instance |
| Requests.CompareCosts | sources/nanomaps-server/src/net/rcode/nanomaps/server/RenderRequest.java:36-40 | `Double.compare`: −1, 0 or 1, negative, zero or positive exactly as the first cost is less than, equal to or greater than the second |
| Requests.CompareCostsAntisymmetric | sources/nanomaps-server/src/net/rcode/nanomaps/server/RenderRequest.java:36-40 | swapping the costs negates the comparison |
| Requests.CompareCostsTransitive | sources/nanomaps-server/src/net/rcode/nanomaps/server/RenderRequest.java:36-40 | the ordering is transitive |
| Requests.RenderRequest.constructor | sources/nanomaps-server/src/net/rcode/nanomaps/server/RenderRequest.java:14-23 | a new request costs 1.0, is neither in error nor cancelled, has 256×256 tiles and no map name or coordinates |
| Requests.RenderRequest.CompareTo | sources/nanomaps-server/src/net/rcode/nanomaps/server/RenderRequest.java:36-40 | negative, zero or positive exactly as this request's cost is less than, equal to or greater than the other's |
| Requests.CompareToAntisymmetric | sources/nanomaps-server/src/net/rcode/nanomaps/server/RenderRequest.java:36-40 | comparing two requests either way gives opposite signs, and a request compares equal to itself |
| Scheduling.Ticket.constructor | sources/nanomaps-server/src/net/rcode/nanomaps/server/RenderService.java:33-36 | a ticket pairs the request with its callback |
| Scheduling.CancelledIsNeverRendered | sources/nanomaps-server/src/net/rcode/nanomaps/server/RenderService.java:69-73 | a cancelled request is first reported cancelled and is never rendered |
| Scheduling.LiveIsRenderedOnce | sources/nanomaps-server/src/net/rcode/nanomaps/server/RenderService.java:75 | a live request is rendered first and exactly once |
| Scheduling.ErrorHandlerIffFirstCallThrew | sources/nanomaps-server/src/net/rcode/nanomaps/server/RenderService.java:76-83 | handleRenderError is called exactly when the first callback threw, last and with what it threw; its own throw changes nothing |
| Scheduling.RemoveFirst | sources/nanomaps-server/src/net/rcode/nanomaps/server/RenderService.java:112 | `remove` takes out one copy of the ticket if it is queued and nothing else |
| Scheduling.RemoveFirstKeepsOrder | sources/nanomaps-server/src/net/rcode/nanomaps/server/RenderService.java:112 | the other tickets keep their order |
| Scheduling.CheapestExists | sources/nanomaps-server/src/net/rcode/nanomaps/server/RenderService.java:59 | a non-empty queue has a ticket no other ticket undercuts in `compareTo` |
| Scheduling.CancelledTicketLeavesQueue | sources/nanomaps-server/src/net/rcode/nanomaps/server/RenderService.java:109-113 | a cancelled ticket that was queued once is no longer queued |
| Scheduling.RenderService.constructor | sources/nanomaps-server/src/net/rcode/nanomaps/server/RenderService.java:94-101 | exactly maxConcurrency distinct runners and an empty queue |
| Scheduling.NewRenderService | sources/nanomaps-server/src/net/rcode/nanomaps/server/RenderService.java:94-95 | a service exists exactly for a positive thread count; otherwise IllegalArgumentException from the thread pool |
| Scheduling.RenderService.Submit | sources/nanomaps-server/src/net/rcode/nanomaps/server/RenderService.java:103-107 | one fresh ticket for (request, callback) joins the queue and is returned |
| Scheduling.RenderService.Cancel | sources/nanomaps-server/src/net/rcode/nanomaps/server/RenderService.java:109-113 | the request is marked cancelled and that ticket leaves the queue; the other tickets stay. Nothing else about the request changes |
| Scheduling.RenderService.ServiceQueue | sources/nanomaps-server/src/net/rcode/nanomaps/server/RenderService.java:56-83 | takes a single cheapest ticket out of the queue and makes the callback calls `Dispatch` gives for it |
| Handler.TrimSlashes | sources/nanomaps-server/src/net/rcode/nanomaps/server/MapRequestHandler.java:104-105 | trimming never lengthens the path |
| Handler.RawComponents | sources/nanomaps-server/src/net/rcode/nanomaps/server/MapRequestHandler.java:108-114 | no component holds a slash |
| Handler.RootHasNoComponents | sources/nanomaps-server/src/net/rcode/nanomaps/server/MapRequestHandler.java:104-109 | "", "/" and "//" have no components |
| Handler.ComponentsRoundTrip | sources/nanomaps-server/src/net/rcode/nanomaps/server/MapRequestHandler.java:103-114 | slash-free components, the last non-empty, come back from "/" + their join, with or without a trailing slash |
| Handler.DecodedComponents | sources/nanomaps-server/src/net/rcode/nanomaps/server/MapRequestHandler.java:108-114 | succeeds exactly when every raw component decodes, giving one decoded component per raw component, each decoded on its own; otherwise it is the exception of the first component the decoder rejects |
| Handler.DecodeComponents | sources/nanomaps-server/src/net/rcode/nanomaps/server/MapRequestHandler.java:107-114 | the loop gives exactly `DecodedComponents`: the decoded list, or the first decoder exception |
| Handler.DecodeQuery | sources/nanomaps-server/src/net/rcode/nanomaps/server/MapRequestHandler.java:116-122 | exactly the lower-cased names of parameters with a value, each mapped to the first value of a parameter of that name |
| Handler.Param | sources/nanomaps-server/src/net/rcode/nanomaps/server/MapRequestHandler.java:224 | `get`: a value exactly for a name present, and it is the stored one |
| Handler.ParseOptional | sources/nanomaps-server/src/net/rcode/nanomaps/server/MapRequestHandler.java:273-280 | absent is none; a value that parses is that number; one that does not is "Illegal value for … parameter" |
| Handler.CoordinateModeCases | sources/nanomaps-server/src/net/rcode/nanomaps/server/MapRequestHandler.java:224-231 | cm is global exactly for "global", map exactly for "map", in any case, and an error for anything else |
| Handler.MatchSrsRoundTrip | sources/nanomaps-server/src/net/rcode/nanomaps/server/MapRequestHandler.java:238-243 | "epsg" or "proj4" in any case, a colon and a one-line rest match, with the rest as code or definition |
| Handler.MatchSrsShape | sources/nanomaps-server/src/net/rcode/nanomaps/server/MapRequestHandler.java:68 | every srs value the pattern accepts is such a qualifier, colon and rest |
| Handler.EpsgAliasesAgree | sources/nanomaps-server/src/net/rcode/nanomaps/server/MapRequestHandler.java:245-252 | srs=EPSG:900913, 3785 or 3857 gives the same projection as no srs; srs=epsg:4326 gives WGS84 long/lat |
| Handler.TranslateFormatCases | sources/nanomaps-server/src/net/rcode/nanomaps/server/MapRequestHandler.java:536-546 | a value without '/' passes unchanged; one with '/' is accepted exactly when it is one of the four image types in any case; no accepted format holds a '/' |
| Handler.OriginOfTwoNumbers | sources/nanomaps-server/src/net/rcode/nanomaps/server/MapRequestHandler.java:287-300 | srsorigin "x,y" with two numbers gives the point (x, y) |
| Handler.EmptyQueryDefaults | sources/nanomaps-server/src/net/rcode/nanomaps/server/MapRequestHandler.java:220-336 | no parameters gives map coordinates, web mercator, ratio 1, a 128 pixel buffer, png and a 0×0 canvas |
| Handler.SettingsFailOnlyWithIllegalArgument | sources/nanomaps-server/src/net/rcode/nanomaps/server/MapRequestHandler.java:220-336 | setupRenderInfo throws nothing but IllegalArgumentException |
| Handler.ParsedAll | sources/nanomaps-server/src/net/rcode/nanomaps/server/MapRequestHandler.java:355-362 | all numbers, position by position, or none when some piece does not parse |
| Handler.ParseBboxValues | sources/nanomaps-server/src/net/rcode/nanomaps/server/MapRequestHandler.java:355-362 | the array loop gives exactly `ParsedAll` of the four pieces |
| Handler.ReadBbox | sources/nanomaps-server/src/net/rcode/nanomaps/server/MapRequestHandler.java:345-367 | the bbox steps give exactly `ParseBbox`: required, four pieces, all numbers, min before max |
| Handler.AcceptedBboxIsNormalized | sources/nanomaps-server/src/net/rcode/nanomaps/server/MapRequestHandler.java:345-367 | an accepted bbox has four pieces, is normalized and is the four numbers in order minx, miny, maxx, maxy |
| Handler.AspectParamAcceptsAnyCase | sources/nanomaps-server/src/net/rcode/nanomaps/server/MapRequestHandler.java:374-382 | every mode is accepted under its constant name written in any case |
| Handler.WmsPlanHasCanvas | sources/nanomaps-server/src/net/rcode/nanomaps/server/MapRequestHandler.java:338-367 | an accepted WMS request has a non-zero canvas, and normalized bounds in map coordinates |
| Handler.TileConsumed | sources/nanomaps-server/src/net/rcode/nanomaps/server/MapRequestHandler.java:397-403 | the three removeFirst calls take at most three components, and no more than there are |
| Handler.TileIgnoresExtraComponents | sources/nanomaps-server/src/net/rcode/nanomaps/server/MapRequestHandler.java:397-400 | components after level, x and y do not change the tile |
| Handler.TilePlanHasCanvas | sources/nanomaps-server/src/net/rcode/nanomaps/server/MapRequestHandler.java:387-411 | an accepted tile request has a non-zero canvas and normalized bounds |
| Handler.AnnouncedUnlessFalse | sources/nanomaps-server/src/net/rcode/nanomaps/server/MapRequestHandler.java:446-450 | a map is hidden exactly when announced is "false" as written; no property or "FALSE" leaves it announced |
| Handler.ListIn | sources/nanomaps-server/src/net/rcode/nanomaps/server/MapRequestHandler.java:173 | the listing names exactly what lookups find; it fails only for a file-system repository not yet scanned |
| Handler.CreateProjection | sources/nanomaps-server/src/net/rcode/nanomaps/server/MapRequestHandler.java:233-258 | a fresh projection configured as `ProjectionFor` says, or exactly its IllegalArgumentException |
| Handler.ValidMapOf | sources/nanomaps-server/src/net/rcode/nanomaps/server/MapRequestHandler.java:137-142 | a map exactly when the first component names one the repository has and it is valid, and it is that one |
| Handler.RouteOf | sources/nanomaps-server/src/net/rcode/nanomaps/server/MapRequestHandler.java:125-162 | the table of contents exactly for an empty path |
| Handler.RoutesOnlyToValidMaps | sources/nanomaps-server/src/net/rcode/nanomaps/server/MapRequestHandler.java:136-142 | a route to a map carries the valid locator the repository has under the first component |
| Handler.ResolveFor | sources/nanomaps-server/src/net/rcode/nanomaps/server/MapRequestHandler.java:421 | resolve gives `ResolveOf` of the locator as it was, and touches only its engine pool |
| Handler.AdmittedOnlyIfValidAndChanged | sources/nanomaps-server/src/net/rcode/nanomaps/server/MapRequestHandler.java:421-443 | a render is queued exactly for a resolved, valid resource whose tag is not the If-None-Match value; 304 only with an If-None-Match |
| Handler.BufferScalesWithRatio | sources/nanomaps-server/src/net/rcode/nanomaps/server/MapRequestHandler.java:485 | the mapnik buffer is the requested one at ratio 1 and twice it at ratio 2 |
| Handler.ImageResponse | sources/nanomaps-server/src/net/rcode/nanomaps/server/MapRequestHandler.java:498-504 | labelled image/png; etag and cache lifetime exactly when the resource has a tag |
| Handler.MapRequestHandler.constructor | sources/nanomaps-server/src/net/rcode/nanomaps/server/MapRequestHandler.java:96-99 | keeps repository and render service; no request state yet |
| Handler.MapRequestHandler.TakeComponent | sources/nanomaps-server/src/net/rcode/nanomaps/server/MapRequestHandler.java:147 | `removeFirst`: the first component is taken; nothing else changes |
| Handler.MapRequestHandler.ListAnnounced | sources/nanomaps-server/src/net/rcode/nanomaps/server/MapRequestHandler.java:173-177 | the loop over listMaps collects exactly the announced maps with their properties, or the listing's exception |
| Handler.MapRequestHandler.HandleTocRequest | sources/nanomaps-server/src/net/rcode/nanomaps/server/MapRequestHandler.java:164-188 | the root answers every announced map; a listing that throws sends nothing |
| Handler.MapRequestHandler.SetupRenderInfo | sources/nanomaps-server/src/net/rcode/nanomaps/server/MapRequestHandler.java:220-336 | the render info carries `ParseSettings` of the query, with a fresh projection; it fails exactly with that function's exception |
| Handler.MapRequestHandler.WmsRenderInfo | sources/nanomaps-server/src/net/rcode/nanomaps/server/MapRequestHandler.java:338-382 | the render info realizes `WmsPlan`: settings, bbox (forwarded for cm=global) and aspect fix mode, or exactly its exception |
| Handler.MapRequestHandler.TileRenderInfo | sources/nanomaps-server/src/net/rcode/nanomaps/server/MapRequestHandler.java:387-411 | the render info realizes `TilePlan`: 256 where no size is given and the tile's extent; the path loses the components the parsing took |
| Handler.MapRequestHandler.HandleWmsRequest | sources/nanomaps-server/src/net/rcode/nanomaps/server/MapRequestHandler.java:338-385 | a failed plan is its exception; otherwise the planned render goes through handleRenderRequest with what resolve gives |
| Handler.MapRequestHandler.HandleTileRequest | sources/nanomaps-server/src/net/rcode/nanomaps/server/MapRequestHandler.java:387-414 | as for WMS, with the tile plan and the path components it consumed |
| Handler.MapRequestHandler.DecodePath | sources/nanomaps-server/src/net/rcode/nanomaps/server/MapRequestHandler.java:100-122 | succeeds exactly when every component decodes, with the decoded components and `DecodeQuery`'s map; otherwise it is the exception of the first component the decoder rejects. Decoding changes nothing the routing reads: the route of the decoded path, its idle engines and the repository's script pools are as they were |
| Handler.MapRequestHandler.AdoptPath | sources/nanomaps-server/src/net/rcode/nanomaps/server/MapRequestHandler.java:125-162 | the decoded query becomes the handler's, and the request follows the route of the decoded path, with its answers as in `Answered`. On the table-of-contents, 400, map-entry and invalid-class routes the render queue, the pending render and every script pool of the repository are unchanged; the runners never change |
| Handler.MapRequestHandler.HandleInThread | sources/nanomaps-server/src/net/rcode/nanomaps/server/MapRequestHandler.java:100-162 | a path component the decoder rejects ends the request with the decoder's exception, before anything is answered or queued. Otherwise the request follows the route of its decoded path: table of contents, 400 for an unknown or invalid map, the map's entry, a tile or WMS render, or "Request class … is invalid". Only the tile and WMS routes may queue a render or change a script pool; the runners never change |
| Handler.MapRequestHandler.DispatchPath | sources/nanomaps-server/src/net/rcode/nanomaps/server/MapRequestHandler.java:129-162 | the answer `Answered` prescribes for the path's route; on a route that does not render, the render queue, the pending render and the repository's script pools are unchanged, and the runners never change |
| Handler.MapRequestHandler.HandleMapRequest | sources/nanomaps-server/src/net/rcode/nanomaps/server/MapRequestHandler.java:136-142 | 400 for an unknown or invalid map, else the answer its route prescribes; on the 400, map-entry and invalid-class routes the render queue, the pending render and the repository's script pools are unchanged, and the runners never change |
| Handler.MapRequestHandler.HandleClassRequest | sources/nanomaps-server/src/net/rcode/nanomaps/server/MapRequestHandler.java:144-161 | the map's entry when the path ends, else the tile or WMS request, else the invalid-class exception; for the entry and the invalid class the render queue, the pending render and the map's script pool are unchanged, and the runners never change |
| Handler.MapRequestHandler.HandleRenderRequest | sources/nanomaps-server/src/net/rcode/nanomaps/server/MapRequestHandler.java:416-444 | given what resolve gives: its exception, 404 for no or an invalid resource, 304 for a matching tag, else one new pending request of cost 1 queued with this handler |
| Handler.MapRequestHandler.AnswerResolved | sources/nanomaps-server/src/net/rcode/nanomaps/server/MapRequestHandler.java:417-443 | the same answers as a function of the resolved value |
| Handler.MapRequestHandler.DoRender | sources/nanomaps-server/src/net/rcode/nanomaps/server/MapRequestHandler.java:468-510 | fails exactly as `RenderError` says. It takes a pooled map of the handler's tag when there is one, else a fresh one. On success the map is configured from the render info (GROW_BBOX by default), recycled under the same tag, and the image is sent. A failure after the map was taken leaves it out of the pool |
| Handler.MapRequestHandler.HandleRenderError | sources/nanomaps-server/src/net/rcode/nanomaps/server/MapRequestHandler.java:512-515 | answers 500 "Error rendering tile" |
| Handler.MapRequestHandler.HandleCancelled | sources/nanomaps-server/src/net/rcode/nanomaps/server/MapRequestHandler.java:517-520 | answers 408 "Request cancelled" |
| Handler.MapRequestHandler.Serve | sources/nanomaps-server/src/net/rcode/nanomaps/server/RenderService.java:68-83 | the handler's callbacks for a dequeued request are the calls `Dispatch` gives: 408 if cancelled, 500 if rendering threw, else the image with the resource's tag |

## Left out

- Threads and locking: the executor, the blocking `take`, `InterruptedException`, `volatile` and `synchronized`. The queue, the pools and the repositories are sequential state.
- `RenderRunner.run`, the endless loop over `serviceQueue`: one turn is `ServiceQueue`.
- Scheduling.RenderService.ServiceQueue: on an empty queue it returns nothing, where `take` would block.
- Render timings and logging in `serviceQueue`: they carry no behaviour.
- Native Mapnik: loading, `setSrs`/`resize`/`zoomToBox`, `Image`, `renderAgg` and `saveToMemory`. The model keeps only the settings doRender gives the map, and whether the native steps fail.
- Native `Projection.forward`/`inverse`: they are parameters. So is what the web-mercator origin and extent come to.
- `levelFromResolution` and `RenderInfo.getLevel`: they use `Math.log`, and nothing calls them in the core.
- `dispose` of projections and of map images, and the `respond` override that disposes the pending projection: these release native memory only.
- javax.script:
  - `eval` becomes "the script evaluates or not";
  - `invokeFunction("select")` becomes a parameter, so the `repository` and `logger` globals are not modelled apart from it;
  - a nested locator's resolve is a parameter, so resolution through a chain of scripts is not unfolded.
- Handler.MapRequestHandler.HandleInThread: it requires that a script return only objects that already exist when the request starts. This is a framing assumption the Java code has no need of.
- Handler.ScriptView: a script sees the request's render info without its projection object, and no other request field. The handler sets no other field before resolving.
- `IdentityHasher`: the digest is an uninterpreted function of the appended parts.
- I/O, given as inputs: `IOUtil`, `loadXmlStandalone`, the `debugContents` write, `listFiles`, `getCanonicalFile`, reading a properties file, the unused `slurpMapFile`, and the `ScriptPool`/`ScriptMapLocator` constructors that read a `File` or `Reader`.
- HTTP: Netty messages are the `Response` datatype.
- The JSON of `buildMapTOCEntry`: the response carries each map's name and properties. The URI, tile spec and Host header are left out, and so is URL encoding.
- Handler.DecodedComponents: URL decoding is a parameter. It returns the decoded string or the exception `URLDecoder.decode` throws for a malformed escape.
- Handler.MapRequestHandler.DecodePath: when a component fails to decode, Java has already replaced `pathComponents` with the components decoded so far. In the model the fields are set only after decoding succeeds, so on failure they keep their values. The request ends with the exception in either case.
- Handler.ParseBbox / Handler.AcceptedBboxIsNormalized: parsed doubles are modelled as reals. So `Double.parseDouble` never yields NaN or an infinity here. In Java `bbox=NaN,0,NaN,1` passes the min-before-max check, because every comparison with NaN is false, and the box is then not normalized. The same holds for `pixelratio` (line 266), `srsorigin` (lines 296-297) and `srsdefres` (line 312).
- Handler.DecodeQuery: when two parameter names lower-case alike, the hash map's iteration order picks the winner. The contract says only that it is one of them.
- Common.Lower: ASCII letters only. Java's `toLowerCase` also maps other letters.
- Common.Upper: ASCII letters only. Java's `toUpperCase` also maps other letters, and some map to more than one character.
- Common.EqualsIgnoreCase: ASCII letters only, for the same reason.
- Requests.CompareCosts: costs are reals, so the ordering `Double.compare` gives NaN and −0.0 is not modelled.
- Common.DoubleToInt: the cast of NaN is not modelled.
- Projection.TileBox: the arithmetic is exact real arithmetic, not double rounding. The 32-bit wrap of `x*tileWidth` is modelled.
- Requests.RenderRequest.IsValid: the predicate is the source's expression itself. Nothing in the core sets `mapName`, `level`, `x` or `y`, so no contract builds on it.
- Maps.ScriptMapLocator.Resolve / Maps.ScriptMapLocator.Settle / Maps.ScriptMapLocator.IllegalValueMessage: the two IllegalStateException messages leave out the text of the offending object. Java puts the invalid locator's `toString()` into "Attempt to resolve locator … but it is not valid" (ScriptMapLocator.java:81), and appends ": " and the illegal value's `toString()` to "returned illegal value" (86). Script values and locators have no modelled string form.
- Maps.ScriptMapLocator.Resolve: the cycle check is in the loop, but the contract proves it never fires. A name becomes a locator or a resource, a locator becomes a resource, and so no value comes round twice.
- Bootstrap, statistics and tooling classes (`ServerMain`, `ProcessSetup`, `AdminStatsRequestHandler`, `DumpLevels`), and the browser UI in `instance/web/lib/main.js`.

## Code and documentation

Where the repository's description of its behaviour and the code disagree, the model follows the code.

- **Failed initialize.** A scanned child whose initialize fails stays published. It is simply invalid, so `lookupMap` finds it and the handler answers 400 (`FileSystemMapRepository.java:120-137`).
- **Cancel.** `cancel` sets the flag and then removes the ticket from the queue (`RenderService.java:109-113`). In Java a runner may already have taken the ticket (line 59) before the flag is set. That race is why the runner checks the flag again at line 69. The model runs one step at a time and leaves threads out, so there a ticket cancelled while it waits is never dequeued.
- **Recycling.** `doRender` recycles its map only when it reaches the end. A map taken and then abandoned by an exception leaves the pool (`MapRequestHandler.java:470-507`).
- **Cost.** The handler never sets a request's cost, so every queued request costs 1.0. The queue order among them is unspecified.
- **Add.** `add` initializes the locator against the live repository, not against a frozen copy.
- **RenderRequest fields.** `RenderRequest.java` as shown has no `renderInfo` or `resource` fields, but `MapRequestHandler` uses both. The model adds them.
- **Unreachable qualifier.** The "Illegal srs qualifier" branch of `setupRenderInfo` cannot be reached, because the pattern admits only `epsg` and `proj4`.
