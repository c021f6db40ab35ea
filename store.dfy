/** The key/value store that keeps the message of the day across restarts
    (store.py): an in-memory cache of strings mirrored to a JSON file. The
    file is modelled as a second map; reading and writing it are steps whose
    outcome is passed in. */
module Store {
  import opened Py

  /** A value found in the store's JSON file. Nested lists and dicts are not
      modelled. */
  datatype Scalar = SStr(s: string) | SInt(i: int) | SBool(b: bool) | SNull

  /** What is at the store's path: nothing, a JSON dict, or text that is not
      valid JSON (for instance a write that stopped part-way). */
  datatype FileState = Missing | Holds(data: map<string, Scalar>) | Corrupt

  /** How an attempt to rewrite the file ended: written, `open` failed (the
      file is untouched), or the dump failed after `open` truncated it. */
  datatype WriteOutcome = Written | OpenFailed | DumpFailed

  /** Python's `str()` of a loaded value. */
  function Str(v: Scalar): (r: string)
    ensures v.SStr? ==> r == v.s
  {
    match v
    case SStr(s) => s
    case SInt(i) => IntToString(i)
    case SBool(b) => if b then "True" else "False"
    case SNull => "None"
  }

  /** The cache a constructor builds from a file's dict: every key, with its
      value stringified. */
  ghost predicate LoadedFrom(cache: map<string, string>, data: map<string, Scalar>)
  {
    cache.Keys == data.Keys && forall k :: k in data ==> cache[k] == Str(data[k])
  }

  /** What `json.dump` writes for a cache: a dict of JSON strings. */
  function Dumped(cache: map<string, string>): (d: map<string, Scalar>)
    ensures d.Keys == cache.Keys
    ensures forall k :: k in cache ==> d[k] == SStr(cache[k])
  {
    map k | k in cache :: SStr(cache[k])
  }

  /** Loading what `set` dumped gives back the cache that was dumped: after a
      successful write, reopening the store restores the cache exactly. */
  lemma ReloadDumped(cache: map<string, string>, reloaded: map<string, string>)
    requires LoadedFrom(reloaded, Dumped(cache))
    ensures reloaded == cache
  {
    forall k | k in cache ensures reloaded[k] == cache[k] {
      assert Dumped(cache)[k] == SStr(cache[k]);
    }
  }

  /** The loop `for key in data: self.cache[key] = str(data[key])`. */
  method LoadCache(data: map<string, Scalar>) returns (cache: map<string, string>)
    ensures LoadedFrom(cache, data)
  {
    cache := map[];
    var pending := data.Keys;
    while pending != {}
      invariant pending <= data.Keys
      invariant cache.Keys == data.Keys - pending
      invariant forall k :: k in cache ==> cache[k] == Str(data[k])
      decreases pending
    {
      var key :| key in pending;
      cache := cache[key := Str(data[key])];
      pending := pending - {key};
    }
  }

  class FileStore {
    /** The in-memory dict `self.cache`. */
    var cache: map<string, string>
    /** What is on disk at `self.path`. */
    var file: FileState

    /** `FileStore.__init__` on a path whose file is readable: a missing file
        is first created holding `{}`. */
    constructor (disk: FileState)
      requires !disk.Corrupt?
      ensures file == (if disk.Missing? then Holds(map[]) else disk)
      ensures LoadedFrom(cache, file.data)
    {
      var data := if disk.Missing? then map[] else disk.data;
      var loaded := LoadCache(data);
      file := Holds(data);
      cache := loaded;
    }

    /** `get(key)`: the cached value, or KeyError when the key is absent
        (the method's `Optional` annotation notwithstanding). */
    function Get(key: string): (r: Result<string>)
      reads this
      ensures r.Ok? <==> key in cache
      ensures r.Ok? ==> r.value == cache[key]
      ensures r.Err? ==> r.error == KeyError(key)
    {
      if key in cache then Ok(cache[key]) else Err(KeyError(key))
    }

    /** The lookup the `Optional[str]` signature of `get` promises: absent
        keys give None. */
    function Find(key: string): (r: Option<string>)
      reads this
      ensures r.Some? <==> Get(key).Ok?
      ensures r.Some? ==> r.value == Get(key).value
    {
      if key in cache then Some(cache[key]) else None
    }

    /** `set(key, value)`: the cache is updated first, then the whole cache
        is dumped to the file; a failed write raises OSError but the cache
        keeps the new value. */
    method Set(key: string, value: string, write: WriteOutcome) returns (r: Outcome)
      modifies this
      ensures cache == old(cache)[key := value]
      ensures Get(key) == Ok(value)
      ensures forall k :: k != key ==> Get(k) == old(Get(k))
      ensures write.Written? ==> r == Pass && file == Holds(Dumped(cache))
      ensures write.OpenFailed? ==> r == Fail(OSError) && file == old(file)
      ensures write.DumpFailed? ==> r == Fail(OSError) && file == Corrupt
    {
      cache := cache[key := value];
      match write
      case Written =>
        file := Holds(Dumped(cache));
        r := Pass;
      case OpenFailed =>
        r := Fail(OSError);
      case DumpFailed =>
        file := Corrupt;
        r := Fail(OSError);
    }
  }

  /** Constructing a store: `FileStore(path)` raises JSONDecodeError when the
      file is not valid JSON, and otherwise loads it. */
  method Open(disk: FileState) returns (r: Result<FileStore>)
    ensures r.Ok? <==> !disk.Corrupt?
    ensures r.Err? ==> r.error == JSONDecodeError
    ensures r.Ok? ==> fresh(r.value)
    ensures r.Ok? && disk.Missing? ==> r.value.cache == map[] && r.value.file == Holds(map[])
    ensures r.Ok? && disk.Holds? ==> LoadedFrom(r.value.cache, disk.data) && r.value.file == disk
  {
    if disk.Corrupt? {
      r := Err(JSONDecodeError);
    } else {
      var s := new FileStore(disk);
      r := Ok(s);
    }
  }
}
