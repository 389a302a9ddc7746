/**
 * `CacheManager`: one JSON file per (platform, region, date, hour) in a
 * cache directory, valid while younger than a time-to-live.
 *
 * The directory is the map `files` from file name to what the file holds
 * and when it was last written.  The clock is the parameter `now` (whole
 * seconds), and whether a write succeeds is the parameter `writeOk`.  The
 * advisory `metadata.json` catalogue is not modelled.
 */
module Cache {
  import opened Wrappers
  import opened TimeText
  import opened Listings

  /**
   * One cache file: the listing it holds, or None when it no longer reads
   * back as JSON; and its modification time.
   */
  datatype CacheEntry = CacheEntry(payload: Option<seq<Channel>>, mtime: int)

  /** `str(n)` for a natural number. */
  function Digits(n: nat): (s: string)
    ensures |s| >= 1 && AllDigits(s) && Number(s) == n
    ensures '-' !in s
  {
    if n < 10 then [DigitChar(n)]
    else
      var s := Digits(n / 10) + [DigitChar(n % 10)];
      assert s[..|s| - 1] == Digits(n / 10);
      AllDigitsAppend(Digits(n / 10), [DigitChar(n % 10)]);
      s
  }

  /** `str(n)` for any integer. */
  function IntText(n: int): string {
    if n < 0 then "-" + Digits(-n) else Digits(n)
  }

  lemma IntTextInjective(a: int, b: int)
    requires IntText(a) == IntText(b)
    ensures a == b
  {
    var sa, sb := IntText(a), IntText(b);
    assert sa[0] == '-' <==> a < 0;
    assert sb[0] == '-' <==> b < 0;
    if a < 0 {
      assert Digits(-a) == sa[1..] == sb[1..] == Digits(-b);
    }
  }

  /** `f"{platform}_{region}_{date}_{hour}"`: the key, and the file's name without `.json`. */
  function CacheKey(platform: string, region: string, date: string, hour: int): string {
    platform + "_" + region + "_" + date + "_" + IntText(hour)
  }

  /** `os.path.join(dir, name)` on POSIX: an absolute `name` discards `dir`. */
  function PosixJoin(dir: string, name: string): string {
    if |name| > 0 && name[0] == '/' then name
    else if dir == "" || dir[|dir| - 1] == '/' then dir + name
    else dir + "/" + name
  }

  /**
   * `_get_cache_filename`: the key with `.json` appended, inside the cache
   * directory unless the key is itself an absolute path.
   */
  function FileName(cacheDir: string, platform: string, region: string, date: string, hour: int): (f: string)
    ensures var name := CacheKey(platform, region, date, hour) + ".json";
      && |name| <= |f| && f[|f| - |name|..] == name
      && (name[0] == '/' ==> f == name)
      && (name[0] != '/' ==> |cacheDir| <= |f| && f[..|cacheDir|] == cacheDir)
  {
    var name := CacheKey(platform, region, date, hour) + ".json";
    var f := PosixJoin(cacheDir, name);
    assert name[0] != '/' ==> f[..|cacheDir|] == cacheDir;
    f
  }

  /** `_is_cache_valid`: the file exists and its age is strictly below the TTL. */
  predicate IsCacheValid(files: map<string, CacheEntry>, file: string, ttl: int, now: int) {
    file in files && now - files[file].mtime < ttl
  }

  /**
   * Validity only decays: a file valid now was valid at every earlier moment
   * since it was written, and is invalid from `mtime + ttl` on.
   */
  lemma ValidityDecays(files: map<string, CacheEntry>, file: string, ttl: int, earlier: int, now: int)
    requires earlier <= now && IsCacheValid(files, file, ttl, now)
    ensures IsCacheValid(files, file, ttl, earlier)
    ensures forall later :: later >= files[file].mtime + ttl ==> !IsCacheValid(files, file, ttl, later)
  {
  }

  /** `get_cached_data` on a given directory: a valid file's listing, else None. */
  function Lookup(files: map<string, CacheEntry>, file: string, ttl: int, now: int): Option<seq<Channel>> {
    if IsCacheValid(files, file, ttl, now) then files[file].payload else None
  }

  /** The directory after `data` is written to `file` at time `now`. */
  function Store(files: map<string, CacheEntry>, file: string, data: seq<Channel>, now: int): map<string, CacheEntry> {
    files[file := CacheEntry(Some(data), now)]
  }

  class CacheManager {
    var cacheDir: string
    var files: map<string, CacheEntry>

    /** A manager over `cacheDir`, which already holds `existing`. */
    constructor(cacheDir: string, existing: map<string, CacheEntry>)
      ensures this.cacheDir == cacheDir && files == existing
    {
      this.cacheDir := cacheDir;
      files := existing;
    }

    method GetCachedData(platform: string, region: string, date: string, hour: int, ttl: int, now: int)
      returns (r: Option<seq<Channel>>)
      ensures r == Lookup(files, FileName(cacheDir, platform, region, date, hour), ttl, now)
    {
      var file := FileName(cacheDir, platform, region, date, hour);
      if IsCacheValid(files, file, ttl, now) {
        r := files[file].payload;
      } else {
        r := None;
      }
    }

    /** `save_cached_data`; a failed write is silently ignored. */
    method SaveCachedData(platform: string, region: string, date: string, hour: int, data: seq<Channel>, now: int, writeOk: bool)
      modifies this
      ensures cacheDir == old(cacheDir)
      ensures files == if writeOk then Store(old(files), FileName(cacheDir, platform, region, date, hour), data, now) else old(files)
    {
      var file := FileName(cacheDir, platform, region, date, hour);
      if writeOk {
        files := files[file := CacheEntry(Some(data), now)];
      }
    }
  }

  // ---------------------------------------------------------------------
  // Properties.

  /** What was saved is read back, unchanged, while it is younger than the TTL. */
  lemma SaveThenGet(files: map<string, CacheEntry>, file: string, data: seq<Channel>, saved: int, ttl: int, now: int)
    ensures Lookup(Store(files, file, data, saved), file, ttl, now) == if now - saved < ttl then Some(data) else None
  {
  }

  /** A missing, expired or unreadable file is a miss, never an error. */
  lemma MissWithoutError(files: map<string, CacheEntry>, file: string, ttl: int, now: int)
    ensures Lookup(files, file, ttl, now).Some? <==>
      file in files && now - files[file].mtime < ttl && files[file].payload.Some?
  {
  }

  /** Saving one file leaves what every other file reads as. */
  lemma SaveKeepsOthers(files: map<string, CacheEntry>, file: string, other: string, data: seq<Channel>, saved: int, ttl: int, now: int)
    requires other != file
    ensures Lookup(Store(files, file, data, saved), other, ttl, now) == Lookup(files, other, ttl, now)
  {
  }

  lemma {:induction false} SplitAtUnderscore(a: string, b: string, c: string, d: string)
    requires '_' !in a && '_' !in c && a + "_" + b == c + "_" + d
    ensures a == c && b == d
  {
    var s := a + "_" + b;
    assert s[|a|] == '_' && forall i :: 0 <= i < |a| ==> s[i] == a[i];
    assert s[|c|] == '_' && forall i :: 0 <= i < |c| ==> s[i] == c[i];
    assert |a| == |c|;
    assert a == s[..|a|] == c;
    assert b == s[|a| + 1..] == d;
  }

  lemma JoinInjective(dir: string, a: string, b: string)
    requires |a| > 0 && a[0] != '/' && |b| > 0 && b[0] != '/'
    requires PosixJoin(dir, a) == PosixJoin(dir, b)
    ensures a == b
  {
    var p := if dir == "" || dir[|dir| - 1] == '/' then dir else dir + "/";
    assert PosixJoin(dir, a) == p + a && PosixJoin(dir, b) == p + b;
    assert a == (p + a)[|p|..];
  }

  /** The key names the request when platform, region and date have no `_`. */
  lemma KeyInjective(p1: string, r1: string, d1: string, h1: int, p2: string, r2: string, d2: string, h2: int)
    requires '_' !in p1 && '_' !in r1 && '_' !in d1 && '_' !in p2 && '_' !in r2 && '_' !in d2
    requires CacheKey(p1, r1, d1, h1) == CacheKey(p2, r2, d2, h2)
    ensures p1 == p2 && r1 == r2 && d1 == d2 && h1 == h2
  {
    var t1, t2 := IntText(h1), IntText(h2);
    assert CacheKey(p1, r1, d1, h1) == p1 + "_" + (r1 + "_" + (d1 + "_" + t1));
    assert CacheKey(p2, r2, d2, h2) == p2 + "_" + (r2 + "_" + (d2 + "_" + t2));
    SplitAtUnderscore(p1, r1 + "_" + (d1 + "_" + t1), p2, r2 + "_" + (d2 + "_" + t2));
    SplitAtUnderscore(r1, d1 + "_" + t1, r2, d2 + "_" + t2);
    SplitAtUnderscore(d1, t1, d2, t2);
    IntTextInjective(h1, h2);
  }

  /**
   * Two requests share a cache file only when they are the same request,
   * provided the platform and region have no `_` and do not start with `/`
   * and the dates have no `_` (as `YYYY-MM-DD` dates do not).
   */
  lemma FileNameInjective(dir: string, p1: string, r1: string, d1: string, h1: int, p2: string, r2: string, d2: string, h2: int)
    requires '_' !in p1 && '_' !in r1 && '_' !in d1 && '_' !in p2 && '_' !in r2 && '_' !in d2
    requires (|p1| == 0 || p1[0] != '/') && (|p2| == 0 || p2[0] != '/')
    requires FileName(dir, p1, r1, d1, h1) == FileName(dir, p2, r2, d2, h2)
    ensures p1 == p2 && r1 == r2 && d1 == d2 && h1 == h2
  {
    var n1, n2 := CacheKey(p1, r1, d1, h1) + ".json", CacheKey(p2, r2, d2, h2) + ".json";
    assert n1[0] != '/' && n2[0] != '/' by {
      assert n1[0] == (p1 + "_")[0] && n2[0] == (p2 + "_")[0];
    }
    JoinInjective(dir, n1, n2);
    assert CacheKey(p1, r1, d1, h1) == n1[..|n1| - 5] == n2[..|n2| - 5] == CacheKey(p2, r2, d2, h2);
    KeyInjective(p1, r1, d1, h1, p2, r2, d2, h2);
  }

  /** Without that proviso they can collide: platform `sky_hd` in `london` is platform `sky` in `hd_london`. */
  lemma KeyCollision()
    ensures CacheKey("sky_hd", "london", "2025-01-15", 20) == CacheKey("sky", "hd_london", "2025-01-15", 20)
  {
  }
}
