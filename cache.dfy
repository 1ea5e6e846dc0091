/** `Cache<T>`: one value per cache name, stored as one JSON file in the
    `Cache` directory under the working directory.

    The file system is a pair of a directory set and a map from file path to
    file content. A content is either the empty placeholder file that a failed
    load creates, or the JSON encoding of a value; the JSON encoder itself is
    abstract, so a stored `Json(v)` decodes to `v`. I/O failures are inputs:
    `writeFails` says that opening the file for writing raised an
    `IOException`, `readFails` that reading an existing file did. */
module Caching {
  import opened Primitives

  /** What a cache file holds. */
  datatype Content<T> = Placeholder | Json(value: T)

  /** The part of the file system a cache touches. */
  datatype Disk<T> = Disk(dirs: set<string>, files: map<string, Content<T>>)

  /** What `LoadCached` returns, together with the file system after it. */
  datatype Loaded<T> = Loaded(value: Option<T>, disk: Disk<T>)

  /** The cache directory for working directory `root`. */
  function CacheDir(root: string): string {
    root + "/Cache/"
  }

  /** The file name for cache name `name`. */
  function FileName(name: string): string {
    "cache_" + name + ".json"
  }

  /** The one file that both saving and loading under `name` address. */
  function CachePath(root: string, name: string): (p: string)
    ensures p == root + "/Cache/cache_" + name + ".json"
  {
    CacheDir(root) + FileName(name)
  }

  /** Deserializing a file: an empty file yields `default`, a file written by
      a save yields the value saved. */
  function Decode<T>(c: Content<T>): (r: Option<T>)
    ensures r.Some? <==> c.Json?
    ensures c.Json? ==> r.value == c.value
  {
    match c
    case Placeholder => None
    case Json(v) => Some(v)
  }

  /** The file system after `SaveCached(v, name)`: the directory exists, and
      unless the write failed the file for `name` holds exactly `v`. */
  function Save<T>(d: Disk<T>, root: string, name: string, v: T, writeFails: bool): Disk<T> {
    Disk(d.dirs + {CacheDir(root)},
         if writeFails then d.files else d.files[CachePath(root, name) := Json(v)])
  }

  /** The result of `LoadCached(name)`. A missing file, or a read that raised
      an `IOException`, yields `default` and leaves the directory and an empty
      file for `name` behind; otherwise the file is decoded and nothing on
      disk changes. */
  function Load<T>(d: Disk<T>, root: string, name: string, readFails: bool): Loaded<T> {
    var path := CachePath(root, name);
    if path in d.files && !readFails then
      Loaded(Decode(d.files[path]), d)
    else
      Loaded(None, Disk(d.dirs + {CacheDir(root)}, d.files[path := Placeholder]))
  }

  /** Different cache names never share a file. */
  lemma CachePathInjective(root: string, a: string, b: string)
    requires CachePath(root, a) == CachePath(root, b)
    ensures a == b
  {
    var pa, pb := CachePath(root, a), CachePath(root, b);
    var n := |root + "/Cache/cache_"|;
    assert |a| == |b|;
    forall i | 0 <= i < |a|
      ensures a[i] == b[i]
    {
      assert pa[n + i] == a[i];
      assert pb[n + i] == b[i];
    }
  }

  /** Saving creates the cache directory, and a save whose write succeeds
      replaces the whole content of its file with the value saved. */
  lemma SaveWritesItsFile<T>(d: Disk<T>, root: string, name: string, v: T, writeFails: bool)
    ensures var d' := Save(d, root, name, v, writeFails);
      && d'.dirs == d.dirs + {CacheDir(root)}
      && (!writeFails ==> CachePath(root, name) in d'.files
                          && d'.files[CachePath(root, name)] == Json(v))
      && (writeFails ==> d'.files == d.files)
  {
  }

  /** Saving under `name` leaves the file of every other cache name as it
      was, present or absent. */
  lemma SaveLeavesOtherNames<T>(d: Disk<T>, root: string, name: string, other: string, v: T,
                                writeFails: bool)
    requires other != name
    ensures var d' := Save(d, root, name, v, writeFails);
      var p := CachePath(root, other);
      && (p in d'.files <==> p in d.files)
      && (p in d.files ==> d'.files[p] == d.files[p])
  {
    if CachePath(root, other) == CachePath(root, name) {
      CachePathInjective(root, other, name);
    }
  }

  /** Loading what was just saved gives back the value saved. */
  lemma SaveThenLoad<T>(d: Disk<T>, root: string, name: string, v: T)
    ensures Load(Save(d, root, name, v, false), root, name, false).value == Some(v)
  {
  }

  /** A save under another name does not disturb what a load under `name`
      returns. */
  lemma LoadIgnoresOtherSaves<T>(d: Disk<T>, root: string, name: string, other: string, v: T,
                                 writeFails: bool)
    requires other != name
    ensures Load(Save(d, root, other, v, writeFails), root, name, false).value
         == Load(d, root, name, false).value
  {
    SaveLeavesOtherNames(d, root, other, name, v, writeFails);
  }

  /** Loading a missing file returns `default`, creates the directory and an
      empty file for `name`, and touches no other file. */
  lemma LoadMissing<T>(d: Disk<T>, root: string, name: string, readFails: bool)
    requires CachePath(root, name) !in d.files
    ensures var l := Load(d, root, name, readFails);
      && l.value == None
      && CacheDir(root) in l.disk.dirs
      && l.disk.files == d.files[CachePath(root, name) := Placeholder]
  {
  }

  /** Loading an existing file changes nothing on disk. */
  lemma LoadExistingKeepsDisk<T>(d: Disk<T>, root: string, name: string)
    requires CachePath(root, name) in d.files
    ensures Load(d, root, name, false).disk == d
  {
  }

  /** Two loads with no save between them return the same value, and the
      second leaves the disk as the first did. */
  lemma LoadTwice<T>(d: Disk<T>, root: string, name: string, readFails: bool)
    ensures var l := Load(d, root, name, readFails);
      && Load(l.disk, root, name, false).value == l.value
      && Load(l.disk, root, name, false).disk == l.disk
  {
  }

  /** A read error on an existing file replaces it by an empty file: the
      stored value is lost and later loads return `default`. */
  lemma ReadErrorEmptiesFile<T>(d: Disk<T>, root: string, name: string)
    ensures var l := Load(d, root, name, true);
      && l.value == None
      && l.disk.files[CachePath(root, name)] == Placeholder
      && Load(l.disk, root, name, false).value == None
  {
  }

  /** The cache service. `cacheDirectory` is the process's working directory;
      `dirs` and `files` are the file system as this cache sees it. */
  class Cache<T> {
    const cacheDirectory: string
    var dirs: set<string>
    var files: map<string, Content<T>>

    /** The file system as one value. */
    function State(): Disk<T>
      reads this
    {
      Disk(dirs, files)
    }

    /** A cache rooted at working directory `cwd`, over the file system as it
        stands. */
    constructor (cwd: string, dirs0: set<string>, files0: map<string, Content<T>>)
      ensures cacheDirectory == cwd && State() == Disk(dirs0, files0)
    {
      cacheDirectory := cwd;
      dirs := dirs0;
      files := files0;
    }

    /** Serializes `cache` into the file for `cacheName`, creating the
        directory first; a failing write is swallowed. */
    method SaveCached(cache: T, cacheName: string, writeFails: bool)
      modifies this
      ensures State() == Save(old(State()), cacheDirectory, cacheName, cache, writeFails)
    {
      var filename := "cache_" + cacheName + ".json";
      var dir := cacheDirectory + "/Cache/";
      if dir !in dirs {
        dirs := dirs + {dir};
      }
      if !writeFails {
        files := files[dir + filename := Json(cache)];
      }
    }

    /** Reads and decodes the file for `cacheName`. When the file is missing
        or the read fails, creates the directory and an empty file and
        returns `default`. */
    method LoadCached(cacheName: string, readFails: bool) returns (r: Option<T>)
      modifies this
      ensures Loaded(r, State()) == Load(old(State()), cacheDirectory, cacheName, readFails)
    {
      var filename := "cache_" + cacheName + ".json";
      var dir := cacheDirectory + "/Cache/";
      if dir + filename !in files || readFails {
        if dir !in dirs {
          dirs := dirs + {dir};
        }
        files := files[dir + filename := Placeholder];
        return None;
      }
      var json := files[dir + filename];
      r := Decode(json);
    }
  }
}
