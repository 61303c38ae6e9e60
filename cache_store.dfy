/**
 * The cache server's two handlers over its data directory `/data/`:
 *  - lookup (GET /_apis/artifactcache/cache): stat the identifier's file and answer
 *    200 with its location, 204 when it does not exist, 400 on any other error;
 *  - reserve (POST /_apis/artifactcache/caches): check the JSON body's `key` and
 *    `version`, then create (or truncate) the identifier's file, empty.
 *
 * The directory is an in-memory store of file names and lengths. The volume refuses
 * names longer than NameMax bytes; on a fixed set of names it fails every call, and
 * on a second set it answers `os.Stat` but refuses to create (a read-only or
 * unwritable directory, say).
 */
module CacheServer {
  import opened Wrappers
  import opened Bytes
  import opened PayloadIds

  /** The longest file name the data volume stores (NAME_MAX on Linux file systems). */
  const NameMax: nat := 255

  /** Why a call into the volume failed. */
  datatype IoError =
    | NameTooLong   // ENAMETOOLONG
    | IoFailure     // any other error that is not "does not exist": permissions, I/O errors

  /** The outcome of `os.Stat`. */
  datatype StatResult = Found(size: nat) | NotExist | StatFailed(cause: IoError)

  /** What the lookup handler answers. */
  datatype LookupResponse =
    | Hit(archiveLocation: GoString, cacheKey: GoString)  // 200 with a JSON body
    | NoContent                                           // 204
    | LookupFailed                                        // 400

  /** A value of the JSON request body, as far as the handler tells them apart. */
  datatype JsonValue = JString(s: GoString) | JOther  // JOther: number, boolean, null, array, object

  /** The body bound as `map[string]interface{}`; a body that does not bind is the empty map. */
  type JsonObject = map<GoString, JsonValue>

  /** What the reserve handler answers. */
  datatype ReserveResponse =
    | Reserved                  // 200, no body
    | Rejected(error: GoString) // 400 with {"error": ...}
    | PlainBadRequest           // 400, no body
    | Fatal(cause: IoError)     // log.Fatal: the server process ends

  const DownloadPath: GoString := Ascii("/download/")
  const KeyField: GoString := Ascii("key")
  const VersionField: GoString := Ascii("version")
  const InvalidKey: GoString := Ascii("Invalid key value")
  const InvalidVersion: GoString := Ascii("Invalid version value")

  /** `body[name].(string)`: the value when it is present and a JSON string. */
  function StringField(body: JsonObject, name: GoString): (r: Option<GoString>)
    ensures r.Some? <==> name in body && body[name].JString?
    ensures r.Some? ==> body[name] == JString(r.value)
  {
    if name in body && body[name].JString? then Some(body[name].s) else None
  }

  /** The location a hit points the client to. */
  function ArchiveLocation(origin: GoString, id: GoString): (location: GoString)
    ensures |location| == |origin| + |DownloadPath| + |id|
    ensures location[..|origin|] == origin
    ensures location[|origin|..|origin| + |DownloadPath|] == DownloadPath
    ensures location[|origin| + |DownloadPath|..] == id
  {
    origin + DownloadPath + id
  }

  class CacheStore {
    /** The files in /data/: name to length in bytes. */
    var files: map<GoString, nat>
    /** Names on which every call into the volume fails. */
    const faults: set<GoString>
    /** Names that `os.Stat` answers for but `os.Create` refuses (EROFS, EACCES, a missing directory). */
    const createFaults: set<GoString>

    constructor (files: map<GoString, nat>, faults: set<GoString>, createFaults: set<GoString>)
      ensures this.files == files && this.faults == faults && this.createFaults == createFaults
    {
      this.files := files;
      this.faults := faults;
      this.createFaults := createFaults;
    }

    /** The error every call on `name` meets, if any. */
    function Failure(name: GoString): (r: Option<IoError>)
    {
      if |name| > NameMax then Some(NameTooLong)
      else if name in faults then Some(IoFailure)
      else None
    }

    /**
     * The error `os.Create` meets on `name`: every error a stat meets, and besides it
     * a refusal to write on the names in `createFaults`.
     */
    function CreateFailure(name: GoString): (r: Option<IoError>)
      ensures Failure(name).Some? ==> r == Failure(name)
      ensures r.None? <==> Failure(name).None? && name !in createFaults
    {
      match Failure(name)
      case Some(e) => Some(e)
      case None => if name in createFaults then Some(IoFailure) else None
    }

    /** `os.Stat("/data/" + name)` */
    function Stat(name: GoString): (r: StatResult)
      reads this
    {
      match Failure(name)
      case Some(e) => StatFailed(e)
      case None => if name in files then Found(files[name]) else NotExist
    }

    /**
     * `createEmptyFile`: `os.Create` makes the file empty, whether it existed or not,
     * unless the volume fails; the flag is true exactly when there is no error.
     */
    method CreateEmptyFile(target: GoString) returns (success: bool, err: Option<IoError>)
      modifies this
      ensures success <==> err.None?
      ensures err == CreateFailure(target)
      ensures files == if success then old(files)[target := 0] else old(files)
      ensures success ==> Stat(target) == Found(0)
    {
      err := CreateFailure(target);
      if err.None? {
        files := files[target := 0];
      }
      success := err.None?;
    }

    /** The lookup handler for the query parameters `keys` and `version` and the `Origin` header. */
    function Lookup(key: GoString, version: GoString, origin: GoString): (r: LookupResponse)
      reads this
      ensures var id := EncodePayloadId(key, version);
        && (r.Hit? <==> Failure(id).None? && id in files)
        && (r.NoContent? <==> Failure(id).None? && id !in files)
        && (r.LookupFailed? <==> Failure(id).Some?)
        && (r.Hit? ==> r.cacheKey == id && r.archiveLocation == ArchiveLocation(origin, id))
        && (r.Hit? ==> DecodePayloadId(r.cacheKey) == Some(Join(key, version)))
    {
      var id := EncodePayloadId(key, version);
      PayloadIdRoundTrip(key, version);
      match Stat(id)
      case Found(_) => Hit(ArchiveLocation(origin, id), id)
      case NotExist => NoContent
      case StatFailed(_) => LookupFailed
    }

    /** The reserve handler for a bound request body. */
    method Reserve(body: JsonObject) returns (r: ReserveResponse)
      modifies this
      ensures StringField(body, KeyField).None? ==> r == Rejected(InvalidKey) && files == old(files)
      ensures StringField(body, KeyField).Some? && StringField(body, VersionField).None? ==>
        r == Rejected(InvalidVersion) && files == old(files)
      ensures StringField(body, KeyField).Some? && StringField(body, VersionField).Some? ==>
        var key, version := StringField(body, KeyField).value, StringField(body, VersionField).value;
        var id := EncodePayloadId(key, version);
        match CreateFailure(id)
        case Some(e) => r == Fatal(e) && files == old(files)
        case None => r == Reserved && files == old(files)[id := 0]
      ensures r != PlainBadRequest
      ensures r == Reserved ==>
        var key, version := StringField(body, KeyField).value, StringField(body, VersionField).value;
        forall origin :: Lookup(key, version, origin).Hit?
    {
      var key := StringField(body, KeyField);
      if key.None? {
        return Rejected(InvalidKey);
      }
      var version := StringField(body, VersionField);
      if version.None? {
        return Rejected(InvalidVersion);
      }
      var cacheFile := EncodePayloadId(key.value, version.value);
      var success, err := CreateEmptyFile(cacheFile);
      if err.Some? {
        r := Fatal(err.value);
      } else if success {
        r := Reserved;
      } else {
        // never taken: CreateEmptyFile's flag is true exactly when there is no error
        r := PlainBadRequest;
      }
    }

    /** Pairs whose joins agree share one file, so every lookup answers them alike. */
    lemma CollidingPairsShareLookup(a: GoString, b: GoString, c: GoString, origin: GoString)
      ensures Lookup(a + [Separator] + b, c, origin) == Lookup(a, b + [Separator] + c, origin)
    {
      SeparatorCollision(a, b, c);
    }

    /** A key and version of 155 bytes or more yield an identifier too long for a file name: lookups fail with 400. */
    lemma LongPairsFailLookup(key: GoString, version: GoString, origin: GoString)
      requires |key| + |version| >= 155
      ensures Failure(EncodePayloadId(key, version)) == Some(NameTooLong)
      ensures Lookup(key, version, origin) == LookupFailed
    {
      IdLongerThanNameMax(key, version);
    }
  }

  /** The identifier outgrows NameMax exactly when key and version hold 155 bytes or more together. */
  lemma IdLongerThanNameMax(key: GoString, version: GoString)
    ensures |EncodePayloadId(key, version)| > NameMax <==> |key| + |version| >= 155
  {
  }

  /**
   * Reserve, then look up, on an empty directory: the lookup first answers 204; the
   * reserve creates the file, after which lookups hit; a second reserve of the same
   * pair succeeds again (creation is not exclusive).
   */
  method ReserveLookupScenario(key: GoString, version: GoString, origin: GoString)
    requires |key| + |version| < 155
  {
    var store := new CacheStore(map[], {}, {});
    var body := map[KeyField := JString(key), VersionField := JString(version)];
    assert KeyField != VersionField by { assert KeyField[0] != VersionField[0]; }
    assert StringField(body, KeyField) == Some(key);
    assert StringField(body, VersionField) == Some(version);
    var id := EncodePayloadId(key, version);
    IdLongerThanNameMax(key, version);
    assert store.Lookup(key, version, origin) == NoContent;
    var r := store.Reserve(body);
    assert r == Reserved && store.files == map[id := 0];
    assert store.Lookup(key, version, origin) == Hit(ArchiveLocation(origin, id), id);
    r := store.Reserve(body);
    assert r == Reserved && store.files == map[id := 0];
  }

  /**
   * A directory that cannot be written: the lookup of a pair finds no file and answers
   * 204, while reserving that pair fails to create the file and ends the server.
   */
  method ReadOnlyVolumeScenario(key: GoString, version: GoString, origin: GoString)
    requires |key| + |version| < 155
  {
    var id := EncodePayloadId(key, version);
    var store := new CacheStore(map[], {}, {id});
    var body := map[KeyField := JString(key), VersionField := JString(version)];
    assert KeyField != VersionField by { assert KeyField[0] != VersionField[0]; }
    assert StringField(body, KeyField) == Some(key);
    assert StringField(body, VersionField) == Some(version);
    IdLongerThanNameMax(key, version);
    assert store.Lookup(key, version, origin) == NoContent;
    var r := store.Reserve(body);
    assert r == Fatal(IoFailure) && store.files == map[];
  }
}
