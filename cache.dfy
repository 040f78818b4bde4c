/** The path core of src/utils/cache.py: the directory layout a
    `CacheConfig` fixes once from its project root, and the file paths it
    hands out for caches, processed data, raw data and logs. A path is the
    sequence of its components; `p / name` appends one component. */
module Cache {
  import opened Text

  type Path = seq<string>

  /** `parent / name`, the name taken as one component (what `pathlib`
      does for a `PlainName`). */
  function Slash(parent: Path, name: string): (p: Path)
    ensures |p| == |parent| + 1 && p[..|parent|] == parent && p[|parent|] == name
  {
    parent + [name]
  }

  /** A name that `pathlib`'s `/` keeps as exactly one new component: no
      separator (which would split it, fold `.` and empty segments away, or
      restart the path when it leads), and none of the names `""` and `.`
      (which add no component) or `..` (which climbs out of the directory). */
  predicate PlainName(s: string) {
    s != "" && s != "." && s != ".." && '/' !in s
  }

  /** `p` lies directly inside the directory `dir`. */
  predicate Inside(p: Path, dir: Path) {
    |p| == |dir| + 1 && p[..|dir|] == dir
  }

  /** The fields `CacheConfig.__init__` sets. */
  datatype CacheConfig = CacheConfig(
    projectRoot: Path,
    dataDir: Path,
    logsDir: Path,
    cacheDir: Path,
    processedDir: Path,
    rawDataDir: Path)

  /** The directory structure under the project root. */
  function Configure(root: Path): (c: CacheConfig)
    ensures c.projectRoot == root
    ensures Inside(c.dataDir, root) && c.dataDir[|root|] == "data"
    ensures Inside(c.logsDir, root) && c.logsDir[|root|] == "logs"
    ensures Inside(c.cacheDir, c.dataDir) && c.cacheDir[|root| + 1] == "cache"
    ensures Inside(c.processedDir, c.dataDir) && c.processedDir[|root| + 1] == "processed"
    ensures Inside(c.rawDataDir, c.dataDir) && c.rawDataDir[|root| + 1] == "raw"
  {
    var data := Slash(root, "data");
    CacheConfig(root, data, Slash(root, "logs"), Slash(data, "cache"),
      Slash(data, "processed"), Slash(data, "raw"))
  }

  /** The conventional extension of each cache type. */
  const Extensions: map<string, string> :=
    map["json" := ".json", "db" := ".db", "sqlite" := ".db", "text" := ".txt", "txt" := ".txt"]

  /** The extension of a cache type: looked up on the lower-cased type, and
      `"." + cacheType` (not lower-cased) when the table has no entry. */
  function Extension(cacheType: string): (e: string)
    ensures |e| >= 1 && e[0] == '.'
  {
    var key := Lower(cacheType);
    if key in Extensions then Extensions[key] else "." + cacheType
  }

  /** The file name of a cache: `{cache_name}_cache{extension}`. */
  function CacheFileName(cacheName: string, cacheType: string): string {
    cacheName + "_cache" + Extension(cacheType)
  }

  /** `get_cache_path(cache_name, cache_type)`. */
  function CachePath(c: CacheConfig, cacheName: string, cacheType: string): Path {
    Slash(c.cacheDir, CacheFileName(cacheName, cacheType))
  }

  /** `get_cache_path(cache_name)`, with the default cache type. */
  function DefaultCachePath(c: CacheConfig, cacheName: string): (p: Path)
    ensures p == CachePath(c, cacheName, "json")
    ensures Inside(p, c.cacheDir) && p[|c.cacheDir|] == cacheName + "_cache.json"
  {
    assert Lower("json") == "json";
    CachePath(c, cacheName, "json")
  }

  /** `get_processed_data_path(filename)`. */
  function ProcessedDataPath(c: CacheConfig, filename: string): Path {
    Slash(c.processedDir, filename)
  }

  /** `get_raw_data_path(filename)`. */
  function RawDataPath(c: CacheConfig, filename: string): Path {
    Slash(c.rawDataDir, filename)
  }

  /** `get_log_path(log_name)`. */
  function LogPath(c: CacheConfig, logName: string): Path {
    Slash(c.logsDir, logName + ".log")
  }

  /** The table's keys are lower case, and its entries are `.json`, `.db`
      and `.txt`: "json", "db"/"sqlite" and "text"/"txt" in any letter case
      give those, whatever the case of the letters. */
  lemma KnownExtensions(cacheType: string)
    ensures Lower(cacheType) == "json" ==> Extension(cacheType) == ".json"
    ensures Lower(cacheType) in {"db", "sqlite"} ==> Extension(cacheType) == ".db"
    ensures Lower(cacheType) in {"text", "txt"} ==> Extension(cacheType) == ".txt"
    ensures Lower(cacheType) in Extensions ==> Extension(cacheType) in {".json", ".db", ".txt"}
  {
  }

  /** A type outside the table keeps its own spelling after the dot: the
      extension is not lower-cased. */
  lemma UnknownExtension(cacheType: string)
    requires Lower(cacheType) !in Extensions
    ensures Extension(cacheType)[1..] == cacheType
  {
  }

  /** Types in the table are looked up case-blind: a type and its lower-case
      form give the same extension. */
  lemma ExtensionCaseBlind(cacheType: string)
    requires Lower(cacheType) in Extensions
    ensures Extension(cacheType) == Extension(Lower(cacheType))
  {
    LowerIdempotent(cacheType);
  }

  /** A cache path lies directly in the cache directory and its file name is
      the cache name, `_cache`, a dot and the rest of the extension. */
  lemma CachePathShape(c: CacheConfig, cacheName: string, cacheType: string)
    ensures var p := CachePath(c, cacheName, cacheType);
      && Inside(p, c.cacheDir)
      && p[|c.cacheDir|][..|cacheName|] == cacheName
      && p[|c.cacheDir|][|cacheName|..|cacheName| + 7] == "_cache."
  {
    var f := CacheFileName(cacheName, cacheType);
    var e := Extension(cacheType);
    assert f == cacheName + ("_cache" + e);
    assert f[|cacheName|..|cacheName| + 7] == "_cache" + [e[0]];
  }

  /** Two cache names of one type, neither holding a separator, never share
      a cache file. (`./b` and `b` do: `pathlib` folds the `.` away.) */
  lemma CachePathInjective(c: CacheConfig, name1: string, name2: string, cacheType: string)
    requires '/' !in name1 && '/' !in name2
    requires CachePath(c, name1, cacheType) == CachePath(c, name2, cacheType)
    ensures name1 == name2
  {
    var p1 := CachePath(c, name1, cacheType);
    var p2 := CachePath(c, name2, cacheType);
    assert p1[|c.cacheDir|] == p2[|c.cacheDir|];
    var f1 := CacheFileName(name1, cacheType);
    var f2 := CacheFileName(name2, cacheType);
    assert f1 == f2;
    assert |name1| == |name2|;
    assert name1 == f1[..|name1|] == f2[..|name2|] == name2;
  }

  /** The four kinds of file never collide: under one configuration, a cache
      file, a processed file, a raw file and a log file are four different
      paths, as long as each name stays one component inside its directory
      (an absolute data file name such as `/tmp/x` would replace the
      directory, and `..` would climb out of it). */
  lemma KindsSeparate(root: Path, cacheName: string, cacheType: string, processed: string, raw: string, logName: string)
    requires '/' !in cacheName && '/' !in cacheType && '/' !in logName
    requires PlainName(processed) && PlainName(raw)
    ensures var c := Configure(root);
      && CachePath(c, cacheName, cacheType) != ProcessedDataPath(c, processed)
      && CachePath(c, cacheName, cacheType) != RawDataPath(c, raw)
      && ProcessedDataPath(c, processed) != RawDataPath(c, raw)
      && LogPath(c, logName) != CachePath(c, cacheName, cacheType)
      && LogPath(c, logName) != ProcessedDataPath(c, processed)
      && LogPath(c, logName) != RawDataPath(c, raw)
  {
    var c := Configure(root);
    var n := |root|;
    assert CachePath(c, cacheName, cacheType)[n] == "data" && CachePath(c, cacheName, cacheType)[n + 1] == "cache";
    assert ProcessedDataPath(c, processed)[n] == "data" && ProcessedDataPath(c, processed)[n + 1] == "processed";
    assert RawDataPath(c, raw)[n] == "data" && RawDataPath(c, raw)[n + 1] == "raw";
    assert LogPath(c, logName)[n] == "logs";
  }

  /** `get_log_path` puts `.log` after the name, in the logs directory, and
      two log names without a separator never share a file. */
  lemma LogPathLaws(c: CacheConfig, name1: string, name2: string)
    ensures Inside(LogPath(c, name1), c.logsDir)
    ensures LogPath(c, name1)[|c.logsDir|] == name1 + ".log"
    ensures '/' !in name1 && '/' !in name2 && LogPath(c, name1) == LogPath(c, name2) ==> name1 == name2
  {
    if LogPath(c, name1) == LogPath(c, name2) {
      assert LogPath(c, name1)[|c.logsDir|] == LogPath(c, name2)[|c.logsDir|];
      assert name1 == (name1 + ".log")[..|name1|];
      assert name2 == (name2 + ".log")[..|name2|];
    }
  }

  /** Data files keep their name unchanged in their directory, so two plain
      file names never share a data file. (`""` and `.` both name the
      directory itself.) */
  lemma DataPathLaws(c: CacheConfig, file1: string, file2: string)
    ensures Inside(ProcessedDataPath(c, file1), c.processedDir)
    ensures ProcessedDataPath(c, file1)[|c.processedDir|] == file1
    ensures Inside(RawDataPath(c, file1), c.rawDataDir)
    ensures RawDataPath(c, file1)[|c.rawDataDir|] == file1
    ensures PlainName(file1) && PlainName(file2) && ProcessedDataPath(c, file1) == ProcessedDataPath(c, file2) ==> file1 == file2
    ensures PlainName(file1) && PlainName(file2) && RawDataPath(c, file1) == RawDataPath(c, file2) ==> file1 == file2
  {
    if ProcessedDataPath(c, file1) == ProcessedDataPath(c, file2) {
      assert ProcessedDataPath(c, file1)[|c.processedDir|] == ProcessedDataPath(c, file2)[|c.processedDir|];
    }
    if RawDataPath(c, file1) == RawDataPath(c, file2) {
      assert RawDataPath(c, file1)[|c.rawDataDir|] == RawDataPath(c, file2)[|c.rawDataDir|];
    }
  }
}
