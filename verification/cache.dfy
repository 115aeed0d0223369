/** The pickle-backed slot store of `custom_components/owm/cache.py`.

    The file system is a map from path to the state of a regular file at
    that path; a path not in the map has no file. A file either holds a
    value that deserialises (`Valid`) or bytes that do not (`Corrupt`).
    Directories are not modelled. */
module Cache {
  import opened Wrappers

  datatype FileState<V> = Valid(value: V) | Corrupt

  type Store<V> = map<string, FileState<V>>

  /** The class attribute `Cache.cache_path`, shared by every cache and
      `None` until `set_cache_path` runs. */
  datatype CacheClass = CacheClass(cachePath: Option<string>)

  const Unconfigured := CacheClass(None)

  /** A cache handle: only the path of its slot file. */
  datatype Cache = Cache(cacheFile: string)

  /** How writing a slot goes. The file opens (mode `'wb'` creates or
      truncates it) and then: the value is pickled and reaches the disk;
      pickling raises; or the value is pickled but flushing it on close
      raises (a full disk). Or the file does not open at all. */
  datatype WriteOutcome = Written | DumpFails | CloseFails | OpenFails

  /** Whether `update` returns its argument: the file opened and closed. */
  predicate Returns(io: WriteOutcome) { io == Written || io == DumpFails }

  predicate Absolute(p: string) { |p| > 0 && p[0] == '/' }

  /** The directory prefix `os.path.join(root, name)` puts before a relative
      name: the root itself when it is empty or ends in a separator. */
  function DirPrefix(root: string): string
  {
    if |root| == 0 || root[|root| - 1] == '/' then root else root + "/"
  }

  /** POSIX `os.path.join(root, name)`: an absolute name replaces the root;
      otherwise the name follows the root and exactly one separator. */
  function JoinPath(root: string, name: string): (p: string)
    ensures Absolute(name) ==> p == name
    ensures !Absolute(name) ==> p == DirPrefix(root) + name
    ensures !Absolute(name) && |root| > 0 ==> root <= p && p[|DirPrefix(root)| - 1] == '/'
  {
    if Absolute(name) then name else DirPrefix(root) + name
  }

  /** Two relative names under the same root give the same path exactly
      when they are the same name: caches alias iff their names agree. */
  lemma JoinPathInjective(root: string, a: string, b: string)
    requires !Absolute(a) && !Absolute(b)
    ensures JoinPath(root, a) == JoinPath(root, b) <==> a == b
  {
    var d := DirPrefix(root);
    if JoinPath(root, a) == JoinPath(root, b) {
      assert (d + a)[|d|..] == a;
      assert (d + b)[|d|..] == b;
    }
  }

  /** `Cache.set_cache_path(config_path)`: the class-wide root becomes the
      `cache` directory under `config_path`, whatever it was before. */
  function SetCachePath(cls: CacheClass, configPath: string): (cls': CacheClass)
    ensures cls'.cachePath.Some?
    ensures cls'.cachePath.value == configPath + "cache" || cls'.cachePath.value == configPath + "/cache"
  {
    CacheClass(Some(JoinPath(configPath, "cache")))
  }

  /** `Cache(object_name)`: computes the slot path from the class-wide root
      and touches no file. Before `set_cache_path` the root is `None` and
      `os.path.join(None, ...)` raises `TypeError`. */
  function NewCache(cls: CacheClass, objectName: string): (r: Result<Cache, Exception>)
    ensures r.Failure? <==> cls.cachePath.None?
    ensures r.Failure? ==> r.error == TypeError
    ensures r.Success? && !Absolute(objectName) ==> cls.cachePath.value <= r.value.cacheFile
  {
    match cls.cachePath
    case None => Failure(TypeError)
    case Some(root) => Success(Cache(JoinPath(root, objectName)))
  }

  /** `exists()`: whether a regular file is at the slot path, whatever its
      content. */
  predicate Exists<V>(store: Store<V>, c: Cache)
  {
    c.cacheFile in store
  }

  /** `get()`: the unpickled value; `None` when there is no file and also
      when the bytes do not unpickle (the error is printed, not raised). */
  function Get<V>(store: Store<V>, c: Cache): (r: Option<V>)
    ensures r.Some? <==> Exists(store, c) && store[c.cacheFile].Valid?
    ensures r.Some? ==> store[c.cacheFile] == Valid(r.value)
  {
    if c.cacheFile in store then
      match store[c.cacheFile]
      case Valid(v) => Some(v)
      case Corrupt => None
    else None
  }

  /** `update(x)`. Opening with mode `'wb'` creates or truncates the file;
      a pickling error is printed and the `finally: return object` hands `x`
      back anyway, leaving a truncated (corrupt) file. The `return` runs
      inside the `with`, so the file is closed afterwards, and an error
      while flushing on close replaces the return with `OSError`, again
      leaving a corrupt file. A failure to open escapes and touches no
      file. Every other path is unchanged. */
  function Update<V>(store: Store<V>, c: Cache, x: V, io: WriteOutcome): (r: (Result<V, Exception>, Store<V>))
    ensures r.0.Success? <==> Returns(io)
    ensures r.0.Success? ==> r.0.value == x
    ensures r.0.Failure? ==> r.0.error == OSError
    ensures io == OpenFails ==> r.1 == store
    ensures io != OpenFails ==> r.1.Keys == store.Keys + {c.cacheFile}
    ensures io == Written ==> Get(r.1, c) == Some(x)
    ensures io == DumpFails || io == CloseFails ==> Exists(r.1, c) && Get(r.1, c) == None
    ensures forall p :: p in store && p != c.cacheFile ==> r.1[p] == store[p]
  {
    match io
    case OpenFails => (Failure(OSError), store)
    case CloseFails => (Failure(OSError), store[c.cacheFile := Corrupt])
    case DumpFails => (Success(x), store[c.cacheFile := Corrupt])
    case Written => (Success(x), store[c.cacheFile := Valid(x)])
  }

  // ---------------------------------------------------------------------
  // Properties across calls

  /** A successful `update(x)` followed by `get()` gives back `x`. */
  lemma UpdateThenGet<V>(store: Store<V>, c: Cache, x: V)
    ensures Get(Update(store, c, x, Written).1, c) == Some(x)
  {
  }

  /** Of two successful updates only the later value is readable. */
  lemma LatestUpdateWins<V>(store: Store<V>, c: Cache, x: V, y: V)
    ensures Get(Update(Update(store, c, x, Written).1, c, y, Written).1, c) == Some(y)
  {
  }

  /** A failed dump turns any slot, empty or valid, into one that exists
      but reads as `None`: `exists()` does not mean readable. */
  lemma FailedDumpCorrupts<V>(store: Store<V>, c: Cache, x: V)
    ensures var s' := Update(store, c, x, DumpFails).1;
      Exists(s', c) && Get(s', c) == None && s'[c.cacheFile] == Corrupt
  {
  }

  /** A flush that fails on close raises instead of returning, and the
      slot it truncated is left existing but unreadable: a previously
      readable value is gone. */
  lemma FailedCloseRaisesAndCorrupts<V>(store: Store<V>, c: Cache, x: V)
    ensures var r := Update(store, c, x, CloseFails);
      r.0 == Failure(OSError) && Exists(r.1, c) && Get(r.1, c) == None && r.1[c.cacheFile] == Corrupt
  {
  }

  /** `exists()` is file presence, so it can hold while `get()` returns
      `None`: exactly when the slot file is corrupt. */
  lemma ExistsButUnreadableIffCorrupt<V>(store: Store<V>, c: Cache)
    ensures (Exists(store, c) && Get(store, c).None?)
        <==> (c.cacheFile in store && store[c.cacheFile] == Corrupt)
  {
  }

  /** Two caches built from the same root and the same name share one slot:
      what one writes, the other reads. */
  lemma SameNameAliases<V>(cls: CacheClass, name: string, store: Store<V>, x: V)
    requires cls.cachePath.Some?
    ensures var a := NewCache(cls, name).value; var b := NewCache(cls, name).value;
      Get(Update(store, a, x, Written).1, b) == Some(x)
  {
  }

  /** Caches with different relative names under the same root never
      interfere: writing one leaves the other's content as it was. */
  lemma DistinctNamesIndependent<V>(cls: CacheClass, n1: string, n2: string, store: Store<V>, x: V, io: WriteOutcome)
    requires cls.cachePath.Some?
    requires !Absolute(n1) && !Absolute(n2) && n1 != n2
    ensures var a := NewCache(cls, n1).value; var b := NewCache(cls, n2).value;
      Exists(Update(store, a, x, io).1, b) == Exists(store, b)
      && Get(Update(store, a, x, io).1, b) == Get(store, b)
  {
    JoinPathInjective(cls.cachePath.value, n1, n2);
  }

  /** A cache can be built only after `set_cache_path`; afterwards every
      cache is rooted at the new `cache` directory, whatever the previous
      root. (Handles are values, so one built earlier keeps its old path.) */
  lemma SetCachePathGovernsLaterCaches(cls: CacheClass, configPath: string, name: string)
    requires !Absolute(name)
    ensures NewCache(Unconfigured, name) == Failure(TypeError)
    ensures NewCache(SetCachePath(cls, configPath), name).Success?
    ensures NewCache(SetCachePath(cls, configPath), name).value.cacheFile
         == JoinPath(JoinPath(configPath, "cache"), name)
  {
  }
}
