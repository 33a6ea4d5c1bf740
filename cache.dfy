/**
 The key-value cache of utils/index.js: a flat JSON document on disk
 (`./cache.json`) that keeps the refresh token between runs.  The file is a
 `CacheFile` object whose `contents` is the parsed document, or `None` when
 the file cannot be read or parsed.
 */
module Cache {
  import opened Common

  /** What `readCache(key)` returns: the stored string, `undefined`, or `false`. */
  datatype CacheRead = Value(s: string) | Undefined | False

  /** JavaScript truthiness of a `readCache` result. */
  predicate TruthyRead(v: CacheRead)
  {
    v.Value? && v.s != ""
  }

  const CachePath := "./cache.json"

  class CacheFile {
    var contents: Option<map<string, string>>

    constructor (contents: Option<map<string, string>>)
      ensures this.contents == contents
    {
      this.contents := contents;
    }

    /**
     `readCache(key)`: `false` when the file cannot be read or parsed,
     otherwise the stored value, or `undefined` for a missing key.
     */
    function ReadCache(key: string): (v: CacheRead)
      reads this
      ensures v == False <==> contents.None?
      ensures v == Undefined <==> contents.Some? && key !in contents.value
      ensures v.Value? <==> contents.Some? && key in contents.value
      ensures v.Value? ==> v.s == contents.value[key]
    {
      match contents
      case None => False
      case Some(m) => if key in m then Value(m[key]) else Undefined
    }

    /**
     `cacheCode(key, value)`: parse the file, set `key`, write it back and
     return `true`.  An unreadable file makes the parse raise and nothing is
     written.
     */
    method CacheCode(key: string, value: string) returns (r: Result<bool>)
      modifies this
      ensures old(contents).None? ==> r == Raised(UnreadableFile(CachePath)) && contents == old(contents)
      ensures old(contents).Some? ==>
        && r == Ok(true)
        && contents == Some(old(contents).value[key := value])
        && contents.value.Keys == old(contents).value.Keys + {key}
        && contents.value[key] == value
        && forall k :: k in old(contents).value && k != key ==> contents.value[k] == old(contents).value[k]
      ensures ReadCache(key) == if old(contents).None? then False else Value(value)
      ensures forall k :: k != key ==> ReadCache(k) == old(ReadCache(k))
    {
      match contents
      case None =>
        r := Raised(UnreadableFile(CachePath));
      case Some(cache) =>
        var updated := cache[key := value];
        contents := Some(updated);
        r := Ok(true);
    }
  }
}
