/** Map locators, map resources and the repositories that publish them:
    MapnikMapResource, ScriptMapLocator, StaticMapRepository and
    FileSystemMapRepository. They refer to one another (a locator keeps the
    repository it was initialized against, a repository holds locators), so
    they live in one module. */
module Maps {
  import opened Common
  import opened Geometry
  import opened RenderInfos
  import opened Scripting

  // ------------------------------------------------------------- inputs

  /** A directory entry, with what reading it yields. */
  datatype FileEntry = FileEntry(
    name: string,                                // File.getName()
    path: string,                                // File.toString()
    isFile: bool,
    canonicalPath: Result<string, Exception>,    // File.getCanonicalFile()
    contents: Result<string, Exception>)         // the file's text, or the IOException reading it

  /** Behaviour of the native map library, the script engine and the hasher. */
  datatype Natives = Natives(
    mapLoads: string -> bool,          // mapnik loads a map from these contents
    scriptEvaluates: string -> bool,   // the JavaScript engine evaluates this script
    debugWritable: string -> bool,     // the debug copy of the named map file can be written
    hash: seq<string> -> string)       // IdentityHasher over the appended parts

  /** The properties files next to the map files, by file name: None if the
      file does not exist, else the loaded properties or the IOException. */
  type Companions = string -> Option<Result<map<string, string>, Exception>>

  // ------------------------------------------------------ property maps

  /** The mutable name/value map every locator carries (AbstractMapLocator). */
  class PropertyMap {
    var entries: map<string, string>

    constructor ()
      ensures entries == map[]
    {
      entries := map[];
    }

    /** Adds each loaded property whose name is not present yet; present
        names keep their value. */
    method AddAbsent(loaded: map<string, string>)
      modifies this
      ensures entries == loaded + old(entries)
    {
      var pending := loaded.Keys;
      while pending != {}
        invariant pending <= loaded.Keys
        invariant entries == (map k | k in loaded.Keys - pending :: loaded[k]) + old(entries)
        decreases pending
      {
        var name :| name in pending;
        if name !in entries {
          entries := entries[name := loaded[name]];
        }
        pending := pending - {name};
      }
      assert loaded.Keys - pending == loaded.Keys;
    }
  }

  /** What AddAbsent leaves: every name of either map, and the existing value wherever there was one. */
  lemma {:induction false} AddAbsentKeepsExisting(existing: map<string, string>, loaded: map<string, string>)
    ensures (loaded + existing).Keys == loaded.Keys + existing.Keys
    ensures forall k :: k in existing ==> (loaded + existing)[k] == existing[k]
    ensures forall k :: k in loaded && k !in existing ==> (loaded + existing)[k] == loaded[k]
  {
  }

  // ---------------------------------------------------------- map files

  /** A loaded mapnik map, with the settings a render gives it. */
  class MapDefinition {
    const source: string
    var aspectFixMode: Option<AspectFixMode>
    var srs: string
    var width: int
    var height: int
    var bounds: Option<Box>
    var bufferSize: int

    constructor (source: string)
      ensures this.source == source && aspectFixMode.None? && bounds.None?
    {
      this.source := source;
      aspectFixMode := None;
      srs := "";
      width := 0;
      height := 0;
      bounds := None;
      bufferSize := 0;
    }
  }

  /** Objects handed out by createMap are pooled per recycle tag; a tag is
      identified by name, and None is the null tag. */
  type RecycleTag = string

  type Buckets = map<Option<RecycleTag>, set<MapDefinition>>

  /** The buckets after recycleMap(tag, m): m joins the bucket of tag, which is created if absent. */
  function Recycled(buckets: Buckets, tag: Option<RecycleTag>, m: MapDefinition): (r: Buckets)
    ensures tag in r && m in r[tag]
    ensures forall t :: t != tag ==> (t in r <==> t in buckets) && (t in r ==> r[t] == buckets[t])
  {
    buckets[tag := (if tag in buckets then buckets[tag] else {}) + {m}]
  }

  /** Recycling the same map twice leaves one copy of it. */
  lemma RecycleTwiceKeepsOneCopy(buckets: Buckets, tag: Option<RecycleTag>, m: MapDefinition)
    ensures Recycled(Recycled(buckets, tag, m), tag, m) == Recycled(buckets, tag, m)
  {
  }

  /** A map recycled into an empty or absent bucket is the only one in it,
      so it is the one the next createMap with that tag hands out. */
  lemma RecycledIntoEmptyBucket(buckets: Buckets, tag: Option<RecycleTag>, m: MapDefinition)
    requires tag !in buckets || buckets[tag] == {}
    ensures Recycled(buckets, tag, m)[tag] == {m}
  {
  }

  /** A Mapnik map file published as a map resource (MapnikMapResource). */
  class MapnikMapResource {
    const file: FileEntry
    const canonicalPath: string
    const natives: Natives
    const properties: PropertyMap
    var mapFileContents: Option<string>
    var identityTag: Option<string>
    var repository: Option<Repository>
    var buckets: Buckets

    constructor (file: FileEntry, canonicalPath: string, natives: Natives)
      ensures this.file == file && this.canonicalPath == canonicalPath && this.natives == natives
      ensures fresh(properties) && properties.entries == map[]
      ensures mapFileContents.None? && identityTag.None? && repository.None? && buckets == map[]
    {
      this.file := file;
      this.canonicalPath := canonicalPath;
      this.natives := natives;
      properties := new PropertyMap();
      mapFileContents := None;
      identityTag := None;
      repository := None;
      buckets := map[];
    }

    /** Valid once initialize has run to its end. */
    predicate IsValid()
      reads this
    {
      repository.Some?
    }

    /** Whether initialize runs to its end: the file reads, its debug copy
        is written and mapnik loads it. */
    predicate InitializeSucceeds() {
      file.contents.Ok? && natives.debugWritable(file.name) && natives.mapLoads(file.contents.value)
    }

    /** The identity tag: a hash of "mapnik:", the canonical path and the contents. */
    function Digest(contents: string): string {
      natives.hash(["mapnik:", canonicalPath, contents])
    }

    /** Reads the map file, writes its debug copy, checks that mapnik can
        load it, computes the identity tag and only then records the
        repository: a failure at any step leaves the resource invalid. */
    method Initialize(repo: Repository) returns (r: Result<(), Exception>)
      modifies this
      ensures r.Ok? <==> InitializeSucceeds()
      ensures r.Ok? ==> identityTag == Some(Digest(file.contents.value)) && repository == Some(repo)
      ensures r.Err? ==> identityTag == old(identityTag) && repository == old(repository)
      ensures file.contents.Ok? ==> mapFileContents == Some(file.contents.value)
      ensures file.contents.Err? ==> mapFileContents == old(mapFileContents) && r == Err(file.contents.error)
      ensures buckets == old(buckets)
    {
      if file.contents.Err? {
        return Err(file.contents.error);
      }
      mapFileContents := Some(file.contents.value);
      if !natives.debugWritable(file.name) {
        return Err(IOFailure);
      }
      var probe := NewMap();
      if probe.Err? {
        return Err(probe.error);
      }
      identityTag := Some(Digest(file.contents.value));
      repository := Some(repo);
      r := Ok(());
    }

    /** Loads a new map from the contents read by initialize. */
    method NewMap() returns (r: Result<MapDefinition, Exception>)
      ensures r.Ok? <==> mapFileContents.Some? && natives.mapLoads(mapFileContents.value)
      ensures r.Ok? ==> fresh(r.value) && r.value.source == mapFileContents.value
      ensures r.Err? ==> r.error == NativeFailure
    {
      if mapFileContents.Some? && natives.mapLoads(mapFileContents.value) {
        var m := new MapDefinition(mapFileContents.value);
        r := Ok(m);
      } else {
        r := Err(NativeFailure);
      }
    }

    /** Hands out a pooled map of the tag's bucket when there is one, else a new map. */
    method CreateMap(tag: Option<RecycleTag>) returns (r: Result<MapDefinition, Exception>)
      modifies this
      ensures tag.Some? && tag in old(buckets) && old(buckets)[tag] != {} ==>
        (r.Ok? && r.value in old(buckets)[tag] && buckets == old(buckets)[tag := old(buckets)[tag] - {r.value}])
      ensures !(tag.Some? && tag in old(buckets) && old(buckets)[tag] != {}) ==>
        (buckets == old(buckets)
         && (r.Ok? <==> mapFileContents.Some? && natives.mapLoads(mapFileContents.value))
         && (r.Ok? ==> fresh(r.value) && r.value.source == mapFileContents.value))
      ensures r.Err? ==> r.error == NativeFailure
      ensures mapFileContents == old(mapFileContents) && identityTag == old(identityTag) && repository == old(repository)
    {
      if tag.Some? && tag in buckets && buckets[tag] != {} {
        var m :| m in buckets[tag];
        buckets := buckets[tag := buckets[tag] - {m}];
        return Ok(m);
      }
      r := NewMap();
    }

    /** Puts a map back into the bucket of its tag. */
    method RecycleMap(tag: Option<RecycleTag>, m: MapDefinition)
      modifies this
      ensures buckets == Recycled(old(buckets), tag, m)
      ensures mapFileContents == old(mapFileContents) && identityTag == old(identityTag) && repository == old(repository)
    {
      var bucket := if tag in buckets then buckets[tag] else {};
      buckets := buckets[tag := bucket + {m}];
    }
  }

  /** Any other object that is both a map resource and its own locator,
      such as the DummyResource the locator tests register: fixed validity
      and identity tag, createMap gives null and recycleMap does nothing. */
  class ExternalResource {
    const valid: bool
    const identityTag: Option<string>
    const properties: PropertyMap

    constructor (valid: bool, identityTag: Option<string>)
      ensures this.valid == valid && this.identityTag == identityTag
      ensures fresh(properties) && properties.entries == map[]
    {
      this.valid := valid;
      this.identityTag := identityTag;
      properties := new PropertyMap();
    }
  }

  // --------------------------------------------------- kinds of objects

  /** A MapResource. */
  datatype Resource = MapnikRes(mapnik: MapnikMapResource) | ExternalRes(external: ExternalResource)

  /** A MapLocator; mapnik and external resources are their own locators. */
  datatype Locator =
    | MapnikLoc(mapnik: MapnikMapResource)
    | ScriptLoc(script: ScriptMapLocator)
    | ExternalLoc(external: ExternalResource)
  {
    /** Implements MapRepositoryManaged, that is, has an initialize method. */
    predicate IsManaged() {
      !ExternalLoc?
    }
  }

  /** A MapRepository: the live file-system repository, or the frozen copy a scan hands its children. */
  datatype Repository = FileSystem(fs: FileSystemMapRepository) | Frozen(frozen: StaticMapRepository)

  /** What a select script returns, and what resolve works on. */
  datatype Value =
    | VNull
    | VString(s: string)
    | VResource(res: Resource)
    | VLocator(loc: ScriptMapLocator)   // a locator that is not itself a resource
    | VOther                            // any other object

  function ResourceLocator(r: Resource): Locator {
    match r
    case MapnikRes(m) => MapnikLoc(m)
    case ExternalRes(e) => ExternalLoc(e)
  }

  /** The Java object a lookup result is, as a script value. */
  function LocatorValue(l: Option<Locator>): (v: Value)
    ensures !v.VString? && !v.VOther?
  {
    match l
    case None => VNull
    case Some(MapnikLoc(m)) => VResource(MapnikRes(m))
    case Some(ExternalLoc(e)) => VResource(ExternalRes(e))
    case Some(ScriptLoc(s)) => VLocator(s)
  }

  function ResourceValue(r: Option<Resource>): (v: Value)
    ensures v.VNull? || v.VResource?
  {
    match r
    case None => VNull
    case Some(res) => VResource(res)
  }

  /** The objects whose fields decide a locator's validity. */
  function LocatorFrame(l: Locator): set<object> {
    match l
    case MapnikLoc(m) => {m}
    case ScriptLoc(s) => {s}
    case ExternalLoc(_) => {}
  }

  /** The objects a locator's initialize may change. */
  function LocatorObjects(l: Locator): set<object> {
    match l
    case MapnikLoc(m) => {m}
    case ScriptLoc(s) => {s, s.pool}
    case ExternalLoc(_) => {}
  }

  function PropertiesOf(l: Locator): PropertyMap {
    match l
    case MapnikLoc(m) => m.properties
    case ScriptLoc(s) => s.properties
    case ExternalLoc(e) => e.properties
  }

  predicate LocatorIsValid(l: Locator)
    reads LocatorFrame(l)
  {
    match l
    case MapnikLoc(m) => m.IsValid()
    case ScriptLoc(s) => s.IsValid()
    case ExternalLoc(e) => e.valid
  }

  predicate ResourceIsValid(r: Resource)
    reads LocatorFrame(ResourceLocator(r))
  {
    LocatorIsValid(ResourceLocator(r))
  }

  function ResourceTag(r: Resource): Option<string>
    reads LocatorFrame(ResourceLocator(r))
  {
    match r
    case MapnikRes(m) => m.identityTag
    case ExternalRes(e) => e.identityTag
  }

  /** The repository a managed locator was initialized against. */
  function RepositoryOf(l: Locator): Option<Repository>
    reads LocatorFrame(l)
  {
    match l
    case MapnikLoc(m) => m.repository
    case ScriptLoc(s) => s.repository
    case ExternalLoc(_) => None
  }

  /** Whether a managed locator's initialize runs to its end. */
  predicate InitializeSucceeds(l: Locator) {
    match l
    case MapnikLoc(m) => m.InitializeSucceeds()
    case ScriptLoc(s) => s.pool.evaluates
    case ExternalLoc(_) => true
  }

  /** MapRepositoryManaged.initialize on either kind of managed locator. */
  method InitializeLocator(l: Locator, repo: Repository) returns (r: Result<(), Exception>)
    requires l.IsManaged()
    modifies LocatorObjects(l)
    ensures r.Ok? <==> InitializeSucceeds(l)
    ensures r.Ok? ==> RepositoryOf(l) == Some(repo)
    ensures r.Err? ==> RepositoryOf(l) == old(RepositoryOf(l))
  {
    match l
    case MapnikLoc(m) =>
      r := m.Initialize(repo);
    case ScriptLoc(s) =>
      r := s.Initialize(repo);
  }

  /** MapLocator.resolve: a resource resolves to itself, a script locator runs its script. */
  method ResolveLocator<R>(l: Locator, request: R, select: R -> Result<Value, Exception>,
                           nested: (ScriptMapLocator, R) -> Result<Option<Resource>, Exception>)
    returns (r: Result<Option<Resource>, Exception>)
    modifies if l.ScriptLoc? then {l.script.pool} else {}
    ensures l.MapnikLoc? ==> r == Ok(Some(MapnikRes(l.mapnik)))
    ensures l.ExternalLoc? ==> r == Ok(Some(ExternalRes(l.external)))
    ensures l.ScriptLoc? ==> r == old(l.script.ResolveResult(request, select, nested, l.script.pool.pool))
  {
    match l
    case MapnikLoc(m) =>
      r := Ok(Some(MapnikRes(m)));
    case ExternalLoc(e) =>
      r := Ok(Some(ExternalRes(e)));
    case ScriptLoc(s) =>
      r := s.Resolve(request, select, nested);
  }

  /** The objects a lookup in the repository reads. */
  function RepoFrame(repo: Repository): set<object> {
    match repo
    case FileSystem(fs) => {fs}
    case Frozen(_) => {}
  }

  /** MapRepository.lookupMap. */
  function LookupIn(repo: Repository, name: string): Option<Locator>
    reads RepoFrame(repo)
  {
    match repo
    case FileSystem(fs) => fs.LookupMap(name)
    case Frozen(st) => st.LookupMap(name)
  }

  // ---------------------------------------------------- script locators

  /** Ranks the values resolve passes through: a name is looked up into a
      locator or resource, a locator is resolved into a resource. */
  function Rank(v: Value): nat {
    match v
    case VString(_) => 2
    case VLocator(_) => 1
    case _ => 0
  }

  /** A locator that runs the global `select` function of a script to pick a map (ScriptMapLocator). */
  class ScriptMapLocator {
    const pool: ScriptPool
    const properties: PropertyMap
    var repository: Option<Repository>

    /** A locator over the given script; evaluates says whether the script engine accepts it. */
    constructor (scriptText: string, scriptName: string, evaluates: bool)
      ensures fresh(pool) && fresh(properties) && pool != properties as object
      ensures pool.engineName == "JavaScript" && pool.scriptText == scriptText && pool.scriptName == scriptName
      ensures pool.evaluates == evaluates && pool.pool == []
      ensures properties.entries == map[] && repository.None?
    {
      pool := new ScriptPool("JavaScript", scriptText, scriptName, evaluates);
      properties := new PropertyMap();
      repository := None;
    }

    /** Valid once initialize has completed. */
    predicate IsValid()
      reads this
    {
      repository.Some?
    }

    /** Primes the engine pool and then records the repository; a script
        that does not evaluate leaves the locator invalid. */
    method Initialize(repo: Repository) returns (r: Result<(), Exception>)
      modifies this, pool
      ensures r.Ok? <==> pool.evaluates
      ensures r.Ok? ==> repository == Some(repo) && |pool.pool| == |old(pool.pool)| + 1
      ensures r.Err? ==> r.error == ScriptFailure && repository == old(repository) && pool.pool == old(pool.pool)
    {
      r := pool.Initialize();
      if r.Ok? {
        repository := Some(repo);
      }
    }

    function CycleMessage(): string {
      "Cycle detected using script to detect map resource: " + pool.scriptName
    }

    function IllegalValueMessage(): string {
      "Script locator " + pool.scriptName + " returned illegal value"
    }

    /** How resolve reports an exception: wrapped in a RuntimeException that
        names the script; an Error is not caught and passes unchanged. */
    function Wrap(e: Exception): (w: Exception)
      ensures e.IsException() ==> w.Runtime? && w.cause == e
      ensures !e.IsException() ==> w == e
    {
      if e.IsException() then Runtime("Exception while processing script " + pool.scriptName, e) else e
    }

    /** The objects Settle reads beyond this locator and its repository:
        the locator a value is or names, whose validity is checked. */
    function SettleFrame(v: Value): set<object>
      reads this, if repository.Some? then RepoFrame(repository.value) else {}
    {
      match v
      case VLocator(l) => {l}
      case VString(s) =>
        if repository.Some? then
          match LocatorValue(LookupIn(repository.value, s))
          case VLocator(l) => {l}
          case _ => {}
        else {}
      case _ => {}
    }

    /** Reference for resolve, written without its loop or cycle check:
        what a value the script produced comes to. A name is looked up in
        the repository and the result settled; a locator must be valid and
        is resolved by `nested`; a resource is the result as it is, valid
        or not; null is a null result; anything else is an illegal value. */
    function Settle<R>(v: Value, request: R, nested: (ScriptMapLocator, R) -> Result<Option<Resource>, Exception>): Result<Option<Resource>, Exception>
      reads this, if repository.Some? then RepoFrame(repository.value) else {}, SettleFrame(v)
      decreases Rank(v)
    {
      match v
      case VNull => Ok(None)
      case VResource(res) => Ok(Some(res))
      case VOther => Err(IllegalState(IllegalValueMessage()))
      case VLocator(l) =>
        if !l.IsValid() then Err(IllegalState("Attempt to resolve locator but it is not valid"))
        else nested(l, request)
      case VString(s) =>
        if repository.None? then Err(NullPointer)
        else Settle(LocatorValue(LookupIn(repository.value, s)), request, nested)
    }

    /** What resolve returns, given the engine pool it starts with. */
    function ResolveResult<R>(request: R, select: R -> Result<Value, Exception>,
                              nested: (ScriptMapLocator, R) -> Result<Option<Resource>, Exception>, idle: seq<ScriptEngine>): Result<Option<Resource>, Exception>
      reads this, if repository.Some? then RepoFrame(repository.value) else {},
        if select(request).Ok? then SettleFrame(select(request).value) else {}
    {
      if idle == [] && !pool.evaluates then Err(ScriptFailure)
      else match select(request)
        case Err(e) => Err(Wrap(e))
        case Ok(v) =>
          match Settle(v, request, nested)
          case Ok(res) => Ok(res)
          case Err(e) => Err(Wrap(e))
    }

    /** Checks out an engine, runs select and follows what it returns until
        a resource or null is reached, guarding against meeting the same
        value twice; every exception comes back wrapped and the engine goes
        back to the pool on every path once it was checked out. */
    method Resolve<R>(request: R, select: R -> Result<Value, Exception>,
                      nested: (ScriptMapLocator, R) -> Result<Option<Resource>, Exception>)
      returns (r: Result<Option<Resource>, Exception>)
      modifies pool
      ensures r == old(ResolveResult(request, select, nested, pool.pool))
      ensures old(pool.pool) != [] ==> pool.pool == old(pool.pool)[1..] + [old(pool.pool)[0]]
      ensures old(pool.pool) == [] && pool.evaluates ==> |pool.pool| == 1 && fresh(pool.pool[0])
      ensures old(pool.pool) == [] && !pool.evaluates ==> pool.pool == []
    {
      ghost var sel := select(request);
      ghost var settled := if sel.Ok? then Settle(sel.value, request, nested) else Err(sel.error);
      var checkedOut := pool.GetEngine();
      if checkedOut.Err? {
        return Err(checkedOut.error);
      }
      // checking out an engine touches only the pool, which Settle does not read
      assert unchanged(this);
      if repository.Some? {
        assert unchanged(RepoFrame(repository.value));
      }
      if sel.Ok? {
        assert unchanged(SettleFrame(sel.value));
      }
      assert sel.Ok? ==> Settle(sel.value, request, nested) == settled;
      var engine := checkedOut.value;
      var visited: set<Value> := {};
      var failure: Option<Exception> := None;
      var resolved := VNull;
      var selected := select(request);
      if selected.Err? {
        failure := Some(selected.error);
      } else {
        resolved := selected.value;
      }
      ghost var expected := if selected.Err? then Err(selected.error) else Settle(selected.value, request, nested);
      while failure.None? && !resolved.VNull? && !resolved.VResource?
        invariant failure.None? ==> Settle(resolved, request, nested) == expected
        invariant failure.Some? ==> expected == Err(failure.value)
        invariant failure.None? ==> forall v :: v in visited ==> Rank(v) > Rank(resolved)
        decreases if failure.None? then Rank(resolved) + 1 else 0
      {
        if resolved in visited {
          failure := Some(IllegalState(CycleMessage()));
        } else {
          visited := visited + {resolved};
          match resolved
          case VString(name) =>
            if repository.None? {
              failure := Some(NullPointer);
            } else {
              resolved := LocatorValue(LookupIn(repository.value, name));
            }
          case VLocator(l) =>
            if !l.IsValid() {
              failure := Some(IllegalState("Attempt to resolve locator but it is not valid"));
            } else {
              match nested(l, request)
              case Ok(res) => resolved := ResourceValue(res);
              case Err(e) => failure := Some(e);
            }
          case VOther =>
            failure := Some(IllegalState(IllegalValueMessage()));
        }
      }
      pool.Recycle(engine);
      if failure.Some? {
        r := Err(Wrap(failure.value));
      } else {
        r := Ok(if resolved.VNull? then None else Some(resolved.res));
      }
    }
  }

  // -------------------------------------------------------- repositories

  /** A repository over a fixed name to locator map (StaticMapRepository). */
  class StaticMapRepository {
    const contents: map<string, Locator>

    constructor Empty()
      ensures contents == map[]
    {
      contents := map[];
    }

    constructor (contents: map<string, Locator>)
      ensures this.contents == contents
    {
      this.contents := contents;
    }

    /** The locator stored under the name, or null. */
    function LookupMap(name: string): (r: Option<Locator>)
      ensures r.Some? <==> name in contents
      ensures r.Some? ==> r.value == contents[name]
    {
      if name in contents then Some(contents[name]) else None
    }

    /** The names of the contents. */
    function ListMaps(): (r: set<string>)
      ensures forall n :: n in r <==> LookupMap(n).Some?
    {
      contents.Keys
    }
  }

  /** The empty repository finds nothing and lists nothing. */
  lemma EmptyRepositoryHasNoMaps(st: StaticMapRepository)
    requires st.contents == map[]
    ensures st.ListMaps() == {}
    ensures forall n :: st.LookupMap(n).None?
  {
  }

  // ---------------------------------------------- file-name recognition

  const MAPNIK_SUFFIX: string := ".mapnik.xml"
  const SELECT_SUFFIX: string := ".select.js"

  /** [a-z0-9_-] under CASE_INSENSITIVE (ASCII letters of both cases). */
  predicate IsNameChar(c: char) {
    'a' <= c <= 'z' || 'A' <= c <= 'Z' || '0' <= c <= '9' || c == '_' || c == '-'
  }

  /** The group of ^([a-z0-9_-]+)<suffix>$ matched case-insensitively
      against a file name, for a lower-case suffix; None when it does not match. */
  function MatchBaseName(name: string, suffix: string): (r: Option<string>)
    ensures r.Some? ==> 0 < |r.value| <= |name| && name == r.value + name[|r.value|..]
    ensures r.Some? ==> Lower(name[|r.value|..]) == suffix
    ensures r.Some? ==> forall i :: 0 <= i < |r.value| ==> IsNameChar(r.value[i])
  {
    if |name| > |suffix| && Lower(name[|name| - |suffix|..]) == suffix
       && (forall i :: 0 <= i < |name| - |suffix| ==> IsNameChar(name[i]))
    then Some(name[..|name| - |suffix|])
    else None
  }

  /** Conversely, every base name of the right characters followed by the
      suffix in any letter case matches, with that base name. */
  lemma {:induction false} BaseNameRoundTrip(base: string, tail: string, suffix: string)
    requires |base| > 0 && forall i :: 0 <= i < |base| ==> IsNameChar(base[i])
    requires |tail| == |suffix| && Lower(tail) == suffix
    ensures MatchBaseName(base + tail, suffix) == Some(base)
  {
    var name := base + tail;
    assert name[|name| - |suffix|..] == tail;
    assert name[..|name| - |suffix|] == base;
    assert forall i :: 0 <= i < |name| - |suffix| ==> name[i] == base[i];
  }

  /** The name before the first dot (the root the companion properties file is named after). */
  function RootName(name: string): (r: Option<string>)
    ensures r.Some? ==> '.' !in r.value && |r.value| < |name| && name[|r.value|] == '.' && name[..|r.value|] == r.value
    ensures r.None? ==> '.' !in name
  {
    match IndexOf(name, '.')
    case None => None
    case Some(k) => Some(name[..k])
  }

  /** A recognised map file's companion properties file is named after its base name. */
  lemma {:induction false} CompanionIsNamedAfterBaseName(name: string, suffix: string)
    requires |suffix| > 0 && suffix[0] == '.'
    requires MatchBaseName(name, suffix).Some?
    ensures RootName(name) == MatchBaseName(name, suffix)
  {
    var b := MatchBaseName(name, suffix).value;
    assert Lower(name[|b|..])[0] == '.';
    assert name[|b|] == '.';
    assert name[..|b|] == b;
    assert '.' !in b by {
      forall i | 0 <= i < |b| ensures b[i] != '.' {
        assert IsNameChar(b[i]);
      }
    }
    IndexOfIsFirst(name, '.', |b|);
  }

  /** What a regular file in the map directory is published as. */
  datatype Origin = MapnikFile(file: FileEntry) | ScriptFile(file: FileEntry)

  /** The name of a file's companion properties file, if its name has a dot. */
  function CompanionName(f: FileEntry): Option<string> {
    match RootName(f.name)
    case None => None
    case Some(root) => Some(root + ".properties")
  }

  /** Whether loading the companion properties succeeds (no companion is a success). */
  predicate CompanionLoads(f: FileEntry, companions: Companions) {
    match CompanionName(f)
    case None => true
    case Some(p) => !(companions(p).Some? && companions(p).value.Err?)
  }

  /** The companion properties loaded for a file (none when absent). */
  function CompanionProperties(f: FileEntry, companions: Companions): map<string, string> {
    match CompanionName(f)
    case None => map[]
    case Some(p) => if companions(p).Some? && companions(p).value.Ok? then companions(p).value.value else map[]
  }

  /** What one directory entry contributes to a scan: non-files and
      unmatched names nothing; a mapnik file whose canonical path or
      companion fails, or a script whose text or companion fails, nothing. */
  function Recognise(f: FileEntry, companions: Companions): Option<(string, Origin)> {
    if !f.isFile then None
    else match MatchBaseName(f.name, MAPNIK_SUFFIX)
      case Some(base) =>
        if f.canonicalPath.Ok? && CompanionLoads(f, companions) then Some((base, MapnikFile(f))) else None
      case None =>
        match MatchBaseName(f.name, SELECT_SUFFIX)
        case Some(base) =>
          if f.contents.Ok? && CompanionLoads(f, companions) then Some((base, ScriptFile(f))) else None
        case None => None
  }

  /** The maps a scan of the given entries publishes, by name; a later
      entry under the same name replaces an earlier one. */
  function Discovered(files: seq<FileEntry>, companions: Companions): map<string, Origin>
    decreases |files|
  {
    if files == [] then map[]
    else
      var earlier := Discovered(files[..|files| - 1], companions);
      match Recognise(files[|files| - 1], companions)
      case None => earlier
      case Some((name, origin)) => earlier[name := origin]
  }

  /** Whether a locator was created from the given file with the given natives. */
  predicate BuiltFrom(l: Locator, o: Origin, natives: Natives) {
    match o
    case MapnikFile(f) =>
      && l.MapnikLoc? && l.mapnik.file == f
      && f.canonicalPath.Ok? && l.mapnik.canonicalPath == f.canonicalPath.value
      && (l.mapnik.InitializeSucceeds() <==> f.contents.Ok? && natives.debugWritable(f.name) && natives.mapLoads(f.contents.value))
    case ScriptFile(f) =>
      && l.ScriptLoc? && f.contents.Ok? && l.script.pool.scriptText == f.contents.value
      && l.script.pool.scriptName == f.path && l.script.pool.evaluates == natives.scriptEvaluates(f.contents.value)
  }

  /** A locator as a scan creates it, before initialize. */
  predicate Pristine(l: Locator)
    reads LocatorFrame(l)
  {
    match l
    case MapnikLoc(m) => m.repository.None? && m.identityTag.None?
    case ScriptLoc(s) => s.repository.None?
    case ExternalLoc(_) => true
  }

  /** A locator just as scanChildren leaves it for the given file. */
  predicate ScannedAs(l: Locator, o: Origin, companions: Companions, natives: Natives)
    reads LocatorFrame(l), PropertiesOf(l)
  {
    BuiltFrom(l, o, natives) && Pristine(l) && PropertiesOf(l).entries == CompanionProperties(o.file, companions)
  }

  /** The state a scan leaves a child in: valid, against the frozen
      repository, exactly when its initialize succeeded. */
  predicate InitializedAgainst(l: Locator, repo: Repository)
    reads LocatorFrame(l)
  {
    (LocatorIsValid(l) <==> InitializeSucceeds(l))
    && (InitializeSucceeds(l) ==> RepositoryOf(l) == Some(repo))
  }

  /** Every object belonging to a locator. */
  function Footprint(l: Locator): set<object> {
    LocatorObjects(l) + {PropertiesOf(l)}
  }

  /** No two names share a locator. */
  predicate Injective(contents: map<string, Locator>) {
    forall a, b :: a in contents && b in contents && a != b ==> contents[a] != contents[b]
  }

  /** The objects the locators of a map own and their initialize may change. */
  function AllLocatorObjects(contents: map<string, Locator>): set<object> {
    set n, o | n in contents && o in LocatorObjects(contents[n]) :: o
  }

  /** Initializing one locator leaves the validity of every other locator alone. */
  lemma FramesOfDistinctLocators(a: Locator, b: Locator)
    requires a != b
    ensures LocatorFrame(b) !! LocatorObjects(a)
  {
  }

  /** The property maps of the locators lie outside what their initialize may change. */
  lemma PropertiesAreNotLocatorObjects(contents: map<string, Locator>)
    ensures forall n :: n in contents ==> PropertiesOf(contents[n]) !in AllLocatorObjects(contents)
  {
  }

  /** Initializes every managed locator of the map against the repository,
      in any order; a failing initialize is logged and the rest go on. */
  method InitializeAll(contents: map<string, Locator>, repo: Repository)
    requires forall n :: n in contents ==> contents[n].IsManaged() && Pristine(contents[n])
    requires Injective(contents)
    modifies AllLocatorObjects(contents)
    ensures forall n :: n in contents ==> InitializedAgainst(contents[n], repo)
    ensures forall n :: n in contents ==> PropertiesOf(contents[n]).entries == old(PropertiesOf(contents[n]).entries)
  {
    PropertiesAreNotLocatorObjects(contents);
    var pending := contents.Keys;
    while pending != {}
      invariant pending <= contents.Keys
      invariant forall n :: n in contents && n !in pending ==> InitializedAgainst(contents[n], repo)
      invariant forall n :: n in pending ==> Pristine(contents[n])
      decreases pending
    {
      var name :| name in pending;
      forall n | n in contents && n != name
        ensures LocatorFrame(contents[n]) !! LocatorObjects(contents[name])
      {
        FramesOfDistinctLocators(contents[name], contents[n]);
      }
      var _ := InitializeLocator(contents[name], repo);
      pending := pending - {name};
    }
  }

  /** The repository over a directory of map files and scripts, with
      statically registered maps beneath the scanned ones (FileSystemMapRepository). */
  class FileSystemMapRepository {
    const basedir: string
    /** The maps published by the last scan; None before the first scan. */
    var managedMaps: Option<map<string, Locator>>
    var staticMaps: map<string, Locator>

    constructor (basedir: string)
      ensures this.basedir == basedir && managedMaps.None? && staticMaps == map[]
    {
      this.basedir := basedir;
      managedMaps := None;
      staticMaps := map[];
    }

    /** A scanned map wins over a static one of the same name. */
    function LookupMap(name: string): (r: Option<Locator>)
      reads this
      ensures managedMaps.Some? && name in managedMaps.value ==> r == Some(managedMaps.value[name])
      ensures (managedMaps.None? || name !in managedMaps.value) ==>
        r == (if name in staticMaps then Some(staticMaps[name]) else None)
    {
      if managedMaps.Some? && name in managedMaps.value then Some(managedMaps.value[name])
      else if name in staticMaps then Some(staticMaps[name])
      else None
    }

    /** The static and scanned names; before the first scan this is a NullPointerException. */
    function ListMaps(): (r: Result<set<string>, Exception>)
      reads this
      ensures r.Err? <==> managedMaps.None?
      ensures r.Err? ==> r.error == NullPointer
      ensures r.Ok? ==> forall n :: n in r.value <==> LookupMap(n).Some?
    {
      if managedMaps.None? then Err(NullPointer)
      else Ok(staticMaps.Keys + managedMaps.value.Keys)
    }

    /** Registers a map statically and initializes it against this
        repository if it is managed; an initialize failure is thrown after
        the map was registered. */
    method Add(name: string, locator: Locator) returns (r: Result<(), Exception>)
      modifies this, LocatorObjects(locator)
      ensures staticMaps == old(staticMaps)[name := locator] && managedMaps == old(managedMaps)
      ensures r.Ok? <==> InitializeSucceeds(locator)
      ensures locator.IsManaged() && r.Ok? ==> RepositoryOf(locator) == Some(FileSystem(this))
      ensures r.Err? ==> RepositoryOf(locator) == old(RepositoryOf(locator))
    {
      staticMaps := staticMaps[name := locator];
      if locator.IsManaged() {
        r := InitializeLocator(locator, FileSystem(this));
      } else {
        r := Ok(());
      }
    }

    /** Adds the companion properties of a file to a locator's properties. */
    static method LoadCompanionProperties(l: Locator, f: FileEntry, companions: Companions) returns (r: Result<(), Exception>)
      modifies PropertiesOf(l)
      ensures r.Ok? <==> CompanionLoads(f, companions)
      ensures r.Ok? ==> PropertiesOf(l).entries == CompanionProperties(f, companions) + old(PropertiesOf(l).entries)
      ensures r.Err? ==> PropertiesOf(l).entries == old(PropertiesOf(l).entries)
    {
      var propName := CompanionName(f);
      if propName.None? {
        return Ok(());
      }
      var loaded := companions(propName.value);
      if loaded.None? {
        return Ok(());
      }
      if loaded.value.Err? {
        return Err(loaded.value.error);
      }
      PropertiesOf(l).AddAbsent(loaded.value.value);
      r := Ok(());
    }

    /** The locator one directory entry becomes, under its map name: a
        mapnik map file, else a select script; an entry whose canonical
        path, script text or companion properties cannot be read becomes nothing. */
    static method Build(f: FileEntry, companions: Companions, natives: Natives) returns (r: Option<(string, Locator)>)
      ensures r.Some? <==> Recognise(f, companions).Some?
      ensures r.Some? ==> r.value.0 == Recognise(f, companions).value.0
      ensures r.Some? ==> ScannedAs(r.value.1, Recognise(f, companions).value.1, companions, natives)
      ensures r.Some? ==> fresh(Footprint(r.value.1))
    {
      if !f.isFile {
        return None;
      }
      var base := MatchBaseName(f.name, MAPNIK_SUFFIX);
      if base.Some? {
        r := BuildMapnik(f, base.value, companions, natives);
        return;
      }
      base := MatchBaseName(f.name, SELECT_SUFFIX);
      if base.None? {
        return None;
      }
      r := BuildScript(f, base.value, companions, natives);
    }

    /** A mapnik map file: a resource over its canonical path, unless that
        path or the companion properties cannot be read. */
    static method BuildMapnik(f: FileEntry, base: string, companions: Companions, natives: Natives)
      returns (r: Option<(string, Locator)>)
      requires f.isFile && MatchBaseName(f.name, MAPNIK_SUFFIX) == Some(base)
      ensures r.Some? <==> f.canonicalPath.Ok? && CompanionLoads(f, companions)
      ensures r.Some? ==> r.value.0 == base
      ensures r.Some? ==> ScannedAs(r.value.1, MapnikFile(f), companions, natives)
      ensures r.Some? ==> fresh(Footprint(r.value.1))
    {
      if f.canonicalPath.Err? {
        return None;
      }
      var m := new MapnikMapResource(f, f.canonicalPath.value, natives);
      var loaded := LoadCompanionProperties(MapnikLoc(m), f, companions);
      r := if loaded.Ok? then Some((base, MapnikLoc(m))) else None;
    }

    /** A select script: a locator over its text, unless the text or the
        companion properties cannot be read. */
    static method BuildScript(f: FileEntry, base: string, companions: Companions, natives: Natives)
      returns (r: Option<(string, Locator)>)
      requires f.isFile && MatchBaseName(f.name, MAPNIK_SUFFIX).None? && MatchBaseName(f.name, SELECT_SUFFIX) == Some(base)
      ensures r.Some? <==> f.contents.Ok? && CompanionLoads(f, companions)
      ensures r.Some? ==> r.value.0 == base
      ensures r.Some? ==> ScannedAs(r.value.1, ScriptFile(f), companions, natives)
      ensures r.Some? ==> fresh(Footprint(r.value.1))
    {
      if f.contents.Err? {
        return None;
      }
      var s := new ScriptMapLocator(f.contents.value, f.path, natives.scriptEvaluates(f.contents.value));
      var loaded := LoadCompanionProperties(ScriptLoc(s), f, companions);
      r := if loaded.Ok? then Some((base, ScriptLoc(s))) else None;
    }

    /** Creates a locator for every recognised file, in directory order. */
    static method ScanChildren(children: seq<FileEntry>, companions: Companions, natives: Natives)
      returns (contents: map<string, Locator>)
      ensures contents.Keys == Discovered(children, companions).Keys
      ensures forall n :: n in contents ==> ScannedAs(contents[n], Discovered(children, companions)[n], companions, natives)
      ensures forall n :: n in contents ==> fresh(Footprint(contents[n]))
      ensures Injective(contents)
    {
      contents := map[];
      for i := 0 to |children|
        invariant contents.Keys == Discovered(children[..i], companions).Keys
        invariant forall n :: n in contents ==> ScannedAs(contents[n], Discovered(children[..i], companions)[n], companions, natives)
        invariant forall n :: n in contents ==> fresh(Footprint(contents[n]))
        invariant Injective(contents)
      {
        assert children[..i + 1][..i] == children[..i];
        var built := Build(children[i], companions, natives);
        if built.Some? {
          contents := contents[built.value.0 := built.value.1];
        }
      }
      assert children[..|children|] == children;
    }

    /** Builds a new generation of scanned maps, initializes each child
        against a frozen copy (static maps overridden by the new ones),
        and publishes exactly the new generation, including children whose
        initialize failed. */
    method Scan(children: Option<seq<FileEntry>>, companions: Companions, natives: Natives)
      modifies this
      ensures staticMaps == old(staticMaps) && managedMaps.Some?
      ensures var files := if children.Some? then children.value else [];
        && managedMaps.value.Keys == Discovered(files, companions).Keys
        && forall n :: n in managedMaps.value ==> BuiltFrom(managedMaps.value[n], Discovered(files, companions)[n], natives)
      ensures var files := if children.Some? then children.value else [];
        forall n :: n in managedMaps.value ==>
          PropertiesOf(managedMaps.value[n]).entries == CompanionProperties(Discovered(files, companions)[n].file, companions)
      ensures forall n :: n in managedMaps.value ==> fresh(Footprint(managedMaps.value[n]))
      ensures Injective(managedMaps.value)
      ensures exists frozen: StaticMapRepository ::
        && frozen.contents == staticMaps + managedMaps.value
        && forall n :: n in managedMaps.value ==> InitializedAgainst(managedMaps.value[n], Frozen(frozen))
    {
      var files := if children.Some? then children.value else [];
      var newContents := ScanChildren(files, companions, natives);
      var frozen := new StaticMapRepository(staticMaps + newContents);
      InitializeAll(newContents, Frozen(frozen));
      managedMaps := Some(newContents);
    }
  }

  /** After a scan, the frozen copy the children were initialized against
      finds exactly what the live repository finds, as long as nothing is
      added statically afterwards. */
  lemma FrozenCopyAgreesWithPublished(fs: FileSystemMapRepository, frozen: StaticMapRepository, name: string)
    requires fs.managedMaps.Some? && frozen.contents == fs.staticMaps + fs.managedMaps.value
    ensures frozen.LookupMap(name) == fs.LookupMap(name)
  {
  }

  /** The scripts of the two resolution tests; their select functions are
      given to the scenarios below as values. */
  const STRING_SELECT := "function select(rr) { if (rr.level==1) return 'dummy1'; else return 'dummy2'; }"
  const DIRECT_SELECT := "function select(rr) { if (rr.level==1) return repository.lookupMap('dummy1'); else return 'dummy2'; }"

  /** The repository both resolution tests of ScriptMapLocatorTest build:
      two dummy resources, not valid, and a script map that picks one. */
  method ResolutionFixture(scriptText: string)
    returns (repos: FileSystemMapRepository, dummy1: ExternalResource, dummy2: ExternalResource, sloc: ScriptMapLocator)
    ensures fresh(repos) && fresh(sloc) && fresh(sloc.pool) && sloc.pool.evaluates
    ensures repos.LookupMap("dummy1") == Some(ExternalLoc(dummy1))
    ensures repos.LookupMap("dummy2") == Some(ExternalLoc(dummy2))
    ensures repos.LookupMap("map") == Some(ScriptLoc(sloc))
    ensures sloc.repository == Some(FileSystem(repos))
  {
    repos := new FileSystemMapRepository(".");
    dummy1 := new ExternalResource(false, None);
    dummy2 := new ExternalResource(false, None);
    var _ := repos.Add("dummy1", ExternalLoc(dummy1));
    var _ := repos.Add("dummy2", ExternalLoc(dummy2));
    sloc := new ScriptMapLocator(scriptText, "test.js", true);
    var _ := repos.Add("map", ScriptLoc(sloc));
  }

  /** The string-resolution test: a script that names a statically
      registered map resolves to that very resource, though the resource is
      not valid. */
  method StringResolutionScenario()
    returns (dummy1: ExternalResource, dummy2: ExternalResource,
             map1: Result<Option<Resource>, Exception>, map2: Result<Option<Resource>, Exception>)
    ensures map1 == Ok(Some(ExternalRes(dummy1))) && map2 == Ok(Some(ExternalRes(dummy2)))
  {
    var repos, sloc;
    repos, dummy1, dummy2, sloc := ResolutionFixture(STRING_SELECT);
    var select := (level: int) => if level == 1 then Ok(VString("dummy1")) else Ok(VString("dummy2"));
    var nested := (l: ScriptMapLocator, level: int) => Err(NullPointer);
    var found := repos.LookupMap("map");
    assert sloc.Settle(VString("dummy1"), 1, nested) == Ok(Some(ExternalRes(dummy1)));
    map1 := ResolveLocator(found.value, 1, select, nested);
    // resolving touched only the engine pool
    assert sloc.repository == Some(FileSystem(repos)) && repos.LookupMap("dummy2") == Some(ExternalLoc(dummy2));
    assert sloc.Settle(VString("dummy2"), 2, nested) == Ok(Some(ExternalRes(dummy2)));
    map2 := ResolveLocator(found.value, 2, select, nested);
  }

  /** The direct-resolution test: a script may also return the resource
      object itself, which is taken as it is. */
  method DirectResolutionScenario()
    returns (dummy1: ExternalResource, dummy2: ExternalResource,
             map1: Result<Option<Resource>, Exception>, map2: Result<Option<Resource>, Exception>)
    ensures map1 == Ok(Some(ExternalRes(dummy1))) && map2 == Ok(Some(ExternalRes(dummy2)))
  {
    var repos, sloc;
    repos, dummy1, dummy2, sloc := ResolutionFixture(DIRECT_SELECT);
    var direct := LocatorValue(repos.LookupMap("dummy1"));
    assert direct == VResource(ExternalRes(dummy1));
    var select := (level: int) => if level == 1 then Ok(direct) else Ok(VString("dummy2"));
    var nested := (l: ScriptMapLocator, level: int) => Err(NullPointer);
    var found := repos.LookupMap("map");
    map1 := ResolveLocator(found.value, 1, select, nested);
    // resolving touched only the engine pool
    assert sloc.repository == Some(FileSystem(repos)) && repos.LookupMap("dummy2") == Some(ExternalLoc(dummy2));
    assert sloc.Settle(VString("dummy2"), 2, nested) == Ok(Some(ExternalRes(dummy2)));
    map2 := ResolveLocator(found.value, 2, select, nested);
  }
}
