/**
 * The report cache: one file holding the last serialized report, whose
 * modification time is its age, and the request that serves the report from
 * it or builds, stores and returns a new one.
 *
 * Times are whole seconds; the clock readings are parameters.
 */
module StatusCache {
  import opened Json
  import opened BackupStatus

  /** How a document is written to the cache file and parsed back from it. */
  datatype Codec = Codec(encode: Value -> string, decode: string -> Option<Value>)

  /** Parsing what was written for this document gives the document back. */
  predicate RoundTrips(c: Codec, v: Value) {
    c.decode(c.encode(v)) == Some(v)
  }

  /** The cache file is used only while it exists and is younger than the TTL. */
  predicate Fresh(present: bool, mtime: int, now: int, ttl: int) {
    present && now - mtime < ttl
  }

  /** What reading the cache gives: nothing, a parsed document, or a parse error. */
  datatype Loaded = Miss | Hit(doc: Value) | Unreadable

  /** What a request for the report answers. */
  datatype Response =
    | FromCache(doc: Value)      // the parsed cache file
    | Built(text: string)        // the report just built, as written to the cache
    | BuildFailed(error: Error)  // an exception escaped the builder
    | CacheUnreadable            // the cache file could not be parsed

  /** The reply to a cache flush. */
  const FlushReply: string := "{'status':'ok'}"

  /** The freshness boundary: a file exactly `ttl` seconds old is stale, one a
      second younger is fresh. */
  lemma TtlBoundary(mtime: int, ttl: int)
    ensures !Fresh(true, mtime, mtime + ttl, ttl)
    ensures Fresh(true, mtime, mtime + ttl - 1, ttl)
  {
  }

  class CacheFile {
    var present: bool   // the file exists
    var mtime: int      // its modification time
    var content: string // its text

    constructor (present: bool, mtime: int, content: string)
      ensures this.present == present && this.mtime == mtime && this.content == content
    {
      this.present := present;
      this.mtime := mtime;
      this.content := content;
    }

    /** Reads the cache: a miss unless the file is fresh; otherwise the parsed
        document, or a parse error. */
    function Load(now: int, ttl: int, codec: Codec): (r: Loaded)
      reads this
      ensures r != Miss <==> Fresh(present, mtime, now, ttl)
      ensures r.Hit? ==> codec.decode(content) == Some(r.doc)
      ensures r == Unreadable ==> codec.decode(content) == None
    {
      if present && now - mtime < ttl then
        match codec.decode(content)
        case Some(v) => Hit(v)
        case None => Unreadable
      else Miss
    }

    /** Writes the file, replacing any previous one; its mtime is the time of writing. */
    method Save(data: string, at: int)
      modifies this
      ensures present && mtime == at && content == data
    {
      present, mtime, content := true, at, data;
    }

    /** Removes the file if it exists, and answers ok either way. */
    method Invalidate() returns (reply: string)
      modifies this
      ensures !present && mtime == old(mtime) && content == old(content)
      ensures forall now, ttl, codec :: Load(now, ttl, codec) == Miss
      ensures reply == FlushReply
    {
      if present {
        present := false;
      }
      reply := FlushReply;
    }

    /** Builds the report, writes its serialization to the cache and returns it.
        An aborted build writes nothing. */
    method CreateBackupStatus(config: Dict<Dict<Value>>, backends: string -> Backend, clock: string,
                              savedAt: int, codec: Codec) returns (r: Result<string>)
      modifies this
      ensures match Build(config, backends, clock)
              case Err(e) => r == Err(e) && unchanged(this)
              case Ok(st) =>
                && r == Ok(codec.encode(ToJson(st)))
                && present && mtime == savedAt && content == r.value
    {
      var st := AssembleStatus(config, backends, clock);
      if st.Err? {
        return Err(st.error);
      }
      var text := codec.encode(ToJson(st.value));
      Save(text, savedAt);
      return Ok(text);
    }

    /** A request for the report: the cached document when the cache is fresh
        and holds a true document; otherwise a new report, built and stored. A
        cache file that cannot be parsed fails the request. */
    method GetBackups(now: int, ttl: int, config: Dict<Dict<Value>>, backends: string -> Backend,
                      clock: string, savedAt: int, codec: Codec) returns (r: Response)
      modifies this
      ensures var l := old(Load(now, ttl, codec));
              if l == Unreadable then r == CacheUnreadable && unchanged(this)
              else if l.Hit? && Truthy(l.doc) then r == FromCache(l.doc) && unchanged(this)
              else match Build(config, backends, clock)
                   case Err(e) => r == BuildFailed(e) && unchanged(this)
                   case Ok(st) =>
                     && r == Built(codec.encode(ToJson(st)))
                     && present && mtime == savedAt && content == r.text
    {
      var loaded := Load(now, ttl, codec);
      if loaded == Unreadable {
        return CacheUnreadable;
      }
      if loaded.Hit? && Truthy(loaded.doc) {
        return FromCache(loaded.doc);
      }
      var built := CreateBackupStatus(config, backends, clock, savedAt, codec);
      if built.Err? {
        return BuildFailed(built.error);
      }
      return Built(built.value);
    }
  }

  /** Two requests: when the first builds a report that parses back from its
      serialization, and the second comes within the TTL of its writing, the
      second is served from the cache with the very document that was built,
      whatever its configuration and collaborators. */
  method RequestTwice(cache: CacheFile, now1: int, now2: int, ttl: int,
                      config1: Dict<Dict<Value>>, backends1: string -> Backend, clock1: string, savedAt1: int,
                      config2: Dict<Dict<Value>>, backends2: string -> Backend, clock2: string, savedAt2: int,
                      codec: Codec) returns (r1: Response, r2: Response)
    requires Build(config1, backends1, clock1).Ok? ==> RoundTrips(codec, ToJson(Build(config1, backends1, clock1).value))
    modifies cache
    ensures r1.Built? && now2 - savedAt1 < ttl ==>
              && Build(config1, backends1, clock1).Ok?
              && r2 == FromCache(ToJson(Build(config1, backends1, clock1).value))
              && codec.decode(r1.text) == Some(r2.doc)
    ensures r1.FromCache? && Fresh(old(cache.present), old(cache.mtime), now2, ttl) ==> r2 == r1
  {
    r1 := cache.GetBackups(now1, ttl, config1, backends1, clock1, savedAt1, codec);
    r2 := cache.GetBackups(now2, ttl, config2, backends2, clock2, savedAt2, codec);
  }

  /** After a flush the next request builds a new report, however young the
      flushed file was. */
  method FlushThenRequest(cache: CacheFile, now: int, ttl: int, config: Dict<Dict<Value>>,
                          backends: string -> Backend, clock: string, savedAt: int, codec: Codec)
    returns (reply: string, r: Response)
    modifies cache
    ensures reply == FlushReply
    ensures match Build(config, backends, clock)
            case Err(e) => r == BuildFailed(e) && !cache.present
            case Ok(st) =>
              r == Built(codec.encode(ToJson(st))) && cache.present && cache.mtime == savedAt && cache.content == r.text
  {
    reply := cache.Invalidate();
    r := cache.GetBackups(now, ttl, config, backends, clock, savedAt, codec);
  }

  /** Flushing twice leaves the cache as flushing once does, with the same reply. */
  method FlushTwice(cache: CacheFile) returns (reply1: string, reply2: string)
    modifies cache
    ensures reply1 == reply2 == FlushReply
    ensures !cache.present && cache.mtime == old(cache.mtime) && cache.content == old(cache.content)
  {
    reply1 := cache.Invalidate();
    reply2 := cache.Invalidate();
  }
}
