/** The API cache of storage.py: one JSON file per key under `.cache/`,
    a 600-second time to live enforced lazily on read and by a sweep.

    The directory is a map from file name to file content; a file whose
    text is not JSON is `Corrupt`. The clock (`time.time()`) is the `now`
    parameter of the operations that read it. A value of `Null` returned by
    a read is Python's `None`. */
module Cache {
  import opened Json
  import opened Coordinates

  /** `CACHE_MAX_AGE_SECONDS`. */
  const MaxAgeSeconds: real := 600.0

  /** The three coordinate endpoints a location change evicts. */
  const UserEndpoints: seq<string> := ["weather", "forecast", "air_pollution"]

  /** One file of the cache directory. */
  datatype CacheFile =
    | Record(lat: int, lon: int, endpoint: string, cachedAt: real, data: Json)
    | Corrupt

  /** `_get_cache_path(key)`, relative to the cache directory. */
  function CachePath(key: string): string { key + ".json" }

  /** The file a (point, endpoint) pair is cached in. */
  function PathOf(lat: real, lon: real, endpoint: string): string {
    CachePath(CacheKey(lat, lon, endpoint))
  }

  predicate IsJsonName(name: string) {
    |name| >= 5 && name[|name| - 5..] == ".json"
  }

  predicate Expired(f: CacheFile, now: real) {
    f.Record? && now - f.cachedAt >= MaxAgeSeconds
  }

  /** What `get_cached_data` returns when the file is at `path`. */
  function Read(files: map<string, CacheFile>, path: string, now: real): Json {
    if path in files && files[path].Record? && now - files[path].cachedAt < MaxAgeSeconds
    then files[path].data
    else Null
  }

  /** The directory after `get_cached_data` looked at `path`. */
  function AfterRead(files: map<string, CacheFile>, path: string, now: real): map<string, CacheFile> {
    if path in files && Expired(files[path], now) then files - {path} else files
  }

  /** The directory after `save_cached_data`. */
  function Saved(files: map<string, CacheFile>, lat: real, lon: real, endpoint: string, data: Json, now: real)
    : map<string, CacheFile>
  {
    var c := Normalize(lat, lon);
    files[PathOf(lat, lon, endpoint) := Record(c.lat, c.lon, endpoint, now, data)]
  }

  /** The files `clear_user_cache(lat, lon)` removes when present. */
  function ClearedPaths(lat: real, lon: real): set<string> {
    ClearedUpTo(lat, lon, |UserEndpoints|)
  }

  /** The files of the first `i` user endpoints at a point. */
  function ClearedUpTo(lat: real, lon: real, i: nat): set<string>
    requires i <= |UserEndpoints|
  {
    set k | 0 <= k < i :: PathOf(lat, lon, UserEndpoints[k])
  }

  lemma ClearedStep(files: map<string, CacheFile>, lat: real, lon: real, i: nat)
    requires i < |UserEndpoints|
    ensures var path := PathOf(lat, lon, UserEndpoints[i]);
      && ClearedUpTo(lat, lon, i + 1) == ClearedUpTo(lat, lon, i) + {path}
      && files - ClearedUpTo(lat, lon, i + 1)
         == (if path in files then (files - ClearedUpTo(lat, lon, i)) - {path} else files - ClearedUpTo(lat, lon, i))
  {
    var path := PathOf(lat, lon, UserEndpoints[i]);
    assert ClearedUpTo(lat, lon, i + 1) == ClearedUpTo(lat, lon, i) + {path};
  }

  /** The sweep's deletion test for one `.json` file. */
  predicate Doomed(f: CacheFile, now: real) {
    f.Corrupt? || Expired(f, now)
  }

  /** The files the sweep at `now` deletes: expired or unparseable `.json` files. */
  function DoomedNames(files: map<string, CacheFile>, now: real): set<string> {
    set name | name in files && IsJsonName(name) && Doomed(files[name], now)
  }

  /** The directory after `cleanup_old_cache`. */
  function Swept(files: map<string, CacheFile>, now: real): map<string, CacheFile> {
    files - DoomedNames(files, now)
  }

  // ---------------------------------------------------------------------
  // The directory as the source mutates it
  // ---------------------------------------------------------------------

  class CacheDir {
    var files: map<string, CacheFile>

    constructor (initial: map<string, CacheFile>)
      ensures files == initial
    {
      files := initial;
    }

    /** `get_cached_data`: a fresh record's data, or `None`; an expired
        record is deleted on the way. */
    method GetCachedData(lat: real, lon: real, endpoint: string, now: real) returns (r: Json)
      modifies this
      ensures r == Read(old(files), PathOf(lat, lon, endpoint), now)
      ensures files == AfterRead(old(files), PathOf(lat, lon, endpoint), now)
    {
      var path := CachePath(CacheKey(lat, lon, endpoint));
      if path !in files {
        return Null;
      }
      match files[path]
      case Corrupt =>
        r := Null;
      case Record(_, _, _, cachedAt, data) =>
        var age := now - cachedAt;
        if age < MaxAgeSeconds {
          r := data;
        } else {
          files := files - {path};
          r := Null;
        }
    }

    /** `save_cached_data`: a blind overwrite of the record at the key. */
    method SaveCachedData(lat: real, lon: real, endpoint: string, data: Json, now: real)
      modifies this
      ensures files == Saved(old(files), lat, lon, endpoint, data, now)
    {
      var path := CachePath(CacheKey(lat, lon, endpoint));
      var c := Normalize(lat, lon);
      files := files[path := Record(c.lat, c.lon, endpoint, now, data)];
    }

    /** `clear_user_cache`: removes the three coordinate endpoints of the
        old cell, ignoring those that are absent. */
    method ClearUserCache(oldLat: real, oldLon: real)
      modifies this
      ensures files == old(files) - ClearedPaths(oldLat, oldLon)
    {
      for i := 0 to |UserEndpoints|
        invariant files == old(files) - ClearedUpTo(oldLat, oldLon, i)
      {
        var path := CachePath(CacheKey(oldLat, oldLon, UserEndpoints[i]));
        ClearedStep(old(files), oldLat, oldLon, i);
        if path in files {
          files := files - {path};
        }
      }
    }

    /** `cleanup_old_cache`: visits every file once, in whatever order the
        directory lists them, deleting expired and unparseable `.json`
        files, and returns how many it deleted. */
    method CleanupOldCache(now: real) returns (deleted: nat)
      modifies this
      ensures files == Swept(old(files), now)
      ensures deleted == |DoomedNames(old(files), now)|
    {
      var names := files.Keys;
      ghost var start := files;
      deleted := 0;
      while names != {}
        invariant names <= start.Keys
        invariant files == start - (DoomedNames(start, now) - names)
        invariant deleted == |DoomedNames(start, now) - names|
        decreases |names|
      {
        var name :| name in names;
        SweepStep(start, now, names, name);
        names := names - {name};
        if IsJsonName(name) && Doomed(files[name], now) {
          files := files - {name};
          deleted := deleted + 1;
        }
      }
    }
  }

  /** One file of the sweep: the deleted set grows by that file exactly
      when it is doomed. */
  lemma SweepStep(start: map<string, CacheFile>, now: real, names: set<string>, name: string)
    requires name in names && names <= start.Keys
    ensures var before := DoomedNames(start, now) - names;
            var after := DoomedNames(start, now) - (names - {name});
            name in start - before && (start - before)[name] == start[name]
            && (IsJsonName(name) && Doomed(start[name], now) ==>
                  after == before + {name} && |after| == |before| + 1
                  && start - after == (start - before) - {name})
            && (!(IsJsonName(name) && Doomed(start[name], now)) ==> after == before)
  {
  }

  // ---------------------------------------------------------------------
  // What the operations promise, stated over the directory
  // ---------------------------------------------------------------------

  lemma PathOfInjective(lat: real, lon: real, e: string, lat': real, lon': real, e': string)
    ensures PathOf(lat, lon, e) == PathOf(lat', lon', e')
        <==> Normalize(lat, lon) == Normalize(lat', lon') && e == e'
  {
    var k, k' := CacheKey(lat, lon, e), CacheKey(lat', lon', e');
    if CachePath(k) == CachePath(k') {
      assert k == CachePath(k)[..|k|] && k' == CachePath(k')[..|k'|];
    }
    KeyStringInjective(Normalize(lat, lon), e, Normalize(lat', lon'), e');
  }

  /** Saving and then reading from any point of the same cell, before the
      time to live runs out, gives back exactly the saved data and deletes
      nothing. */
  lemma {:induction false} SaveThenGet(files: map<string, CacheFile>, lat: real, lon: real, lat': real, lon': real,
                                       endpoint: string, data: Json, savedAt: real, now: real)
    requires Normalize(lat', lon') == Normalize(lat, lon)
    requires now - savedAt < MaxAgeSeconds
    ensures Read(Saved(files, lat, lon, endpoint, data, savedAt), PathOf(lat', lon', endpoint), now) == data
    ensures AfterRead(Saved(files, lat, lon, endpoint, data, savedAt), PathOf(lat', lon', endpoint), now)
         == Saved(files, lat, lon, endpoint, data, savedAt)
  {
    PathOfInjective(lat, lon, endpoint, lat', lon', endpoint);
  }

  /** A save touches no other (cell, endpoint) pair. */
  lemma {:induction false} SaveLeavesOthers(files: map<string, CacheFile>, lat: real, lon: real, endpoint: string,
                                            data: Json, savedAt: real, lat': real, lon': real, endpoint': string, now: real)
    requires Normalize(lat', lon') != Normalize(lat, lon) || endpoint' != endpoint
    ensures Read(Saved(files, lat, lon, endpoint, data, savedAt), PathOf(lat', lon', endpoint'), now)
         == Read(files, PathOf(lat', lon', endpoint'), now)
  {
    PathOfInjective(lat, lon, endpoint, lat', lon', endpoint');
  }

  /** Lazy expiry: a record at least 600 seconds old reads as `None` and is
      removed; a younger one is a hit; a missing or unparseable file reads
      as `None` and nothing changes. */
  lemma ReadOutcomes(files: map<string, CacheFile>, path: string, now: real)
    ensures path in files && Expired(files[path], now)
        ==> Read(files, path, now) == Null && AfterRead(files, path, now) == files - {path}
            && path !in AfterRead(files, path, now)
    ensures path in files && files[path].Record? && !Expired(files[path], now)
        ==> Read(files, path, now) == files[path].data && AfterRead(files, path, now) == files
    ensures (path !in files || files[path].Corrupt?)
        ==> Read(files, path, now) == Null && AfterRead(files, path, now) == files
  {
  }

  /** `clear_user_cache` removes exactly the weather, forecast and
      air-pollution files of the old cell: every other file, in particular
      every geocoding file and every file of another cell, stays as it was. */
  lemma {:induction false} ClearEvictsExactly(files: map<string, CacheFile>, oldLat: real, oldLon: real)
    ensures forall e :: e in UserEndpoints ==> PathOf(oldLat, oldLon, e) !in files - ClearedPaths(oldLat, oldLon)
    ensures forall p :: (p in files && p !in ClearedPaths(oldLat, oldLon)
        ==> p in files - ClearedPaths(oldLat, oldLon) && (files - ClearedPaths(oldLat, oldLon))[p] == files[p])
    ensures forall city :: PathOf(0.0, 0.0, "geocoding_" + city) !in ClearedPaths(oldLat, oldLon)
    ensures forall lat, lon, e :: (Normalize(lat, lon) != Normalize(oldLat, oldLon)
        ==> PathOf(lat, lon, e) !in ClearedPaths(oldLat, oldLon))
  {
    forall e | e in UserEndpoints
      ensures PathOf(oldLat, oldLon, e) in ClearedPaths(oldLat, oldLon)
    {
      var k :| 0 <= k < |UserEndpoints| && UserEndpoints[k] == e;
    }
    forall city ensures PathOf(0.0, 0.0, "geocoding_" + city) !in ClearedPaths(oldLat, oldLon) {
      var g := "geocoding_" + city;
      assert g[0] == 'g';
      forall k | 0 <= k < |UserEndpoints| ensures PathOf(oldLat, oldLon, UserEndpoints[k]) != PathOf(0.0, 0.0, g) {
        PathOfInjective(oldLat, oldLon, UserEndpoints[k], 0.0, 0.0, g);
      }
    }
    forall lat, lon, e | Normalize(lat, lon) != Normalize(oldLat, oldLon)
      ensures PathOf(lat, lon, e) !in ClearedPaths(oldLat, oldLon)
    {
      forall k | 0 <= k < |UserEndpoints| ensures PathOf(oldLat, oldLon, UserEndpoints[k]) != PathOf(lat, lon, e) {
        PathOfInjective(oldLat, oldLon, UserEndpoints[k], lat, lon, e);
      }
    }
  }

  /** The sweep deletes exactly the expired or unparseable `.json` files,
      keeps every fresh record and every other file, leaves reads at the
      same instant unchanged, and a second sweep at that instant deletes
      nothing. */
  lemma SweepProperties(files: map<string, CacheFile>, now: real)
    ensures forall name :: name in files ==>
      (name in Swept(files, now) <==> !(IsJsonName(name) && (files[name].Corrupt? || Expired(files[name], now))))
    ensures forall name :: name in Swept(files, now) ==> Swept(files, now)[name] == files[name]
    ensures forall p :: Read(Swept(files, now), p, now) == Read(files, p, now)
    ensures DoomedNames(Swept(files, now), now) == {}
    ensures Swept(Swept(files, now), now) == Swept(files, now)
  {
  }

  /** Right after a sweep, lazy expiry at the same instant finds nothing
      left to delete anywhere. */
  lemma {:induction false} SweptHasNothingExpired(files: map<string, CacheFile>, now: real, lat: real, lon: real, endpoint: string)
    ensures AfterRead(Swept(files, now), PathOf(lat, lon, endpoint), now) == Swept(files, now)
  {
    var p := PathOf(lat, lon, endpoint);
    assert p[|p| - 5..] == ".json";
  }
}
