/**
 * The service worker's decisions: the cache name and the clean-up of old caches on
 * activation, which requests the fetch handler answers and which responses it stores, and
 * the answer to a byte-range request from a cached body (the `bytes=first-last` form of
 * section 14.1.2 of RFC 9110 and the Content-Range field of its section 14.4). What the
 * Cache Storage and the network return is passed in as values.
 */
module ServiceWorker {
  import opened Wrappers
  import opened Strings

  newtype Byte = x: int | 0 <= x < 256

  /** `CACHE_PREFIX`: every cache this application creates has a name starting with it. */
  const CachePrefix: string := "ccbalance-"

  /** `` `${CACHE_PREFIX}v${version}` ``. */
  function CacheName(version: string): (name: string)
    ensures StartsWith(name, CachePrefix)
    ensures name[|CachePrefix|..] == "v" + version
  {
    CachePrefix + "v" + version
  }

  /** Different versions get different caches. */
  lemma CacheNameInjective(a: string, b: string)
    requires CacheName(a) == CacheName(b)
    ensures a == b
  {
    assert a == CacheName(a)[|CachePrefix| + 1..];
    assert b == CacheName(b)[|CachePrefix| + 1..];
  }

  /** What fetching app-version.json produced: nothing (it threw), or a status and a version. */
  datatype VersionFetch = FetchFailed | VersionFetched(ok: bool, version: Option<string>)

  /**
   * `getAppVersion`: the fetched version when the response is ok and names a non-empty
   * one, and "dev" otherwise; either way a non-empty name.
   */
  function AppVersion(f: VersionFetch): (v: string)
    ensures v != []
    ensures f.VersionFetched? && f.ok && f.version.Some? && f.version.value != [] ==> v == f.version.value
    ensures !(f.VersionFetched? && f.ok && f.version.Some? && f.version.value != []) ==> v == "dev"
  {
    match f
    case FetchFailed => "dev"
    case VersionFetched(ok, version) =>
      if ok && version.Some? && version.value != [] then version.value else "dev"
  }

  /** Activation deletes a cache when it is one of this application's and not the active one. */
  predicate Stale(name: string, active: string)
  {
    StartsWith(name, CachePrefix) && name != active
  }

  /** The caches `activate` deletes, in the order `caches.keys()` lists them. */
  function StaleCaches(names: seq<string>, active: string): (deleted: seq<string>)
    ensures |deleted| <= |names|
    ensures forall x :: x in deleted <==> x in names && Stale(x, active)
  {
    if names == [] then []
    else (if Stale(names[0], active) then [names[0]] else []) + StaleCaches(names[1..], active)
  }

  /** The caches left after activation. */
  function Remaining(names: seq<string>, active: string): (kept: seq<string>)
    ensures |kept| <= |names|
    ensures forall x :: x in kept <==> x in names && !Stale(x, active)
  {
    if names == [] then []
    else (if Stale(names[0], active) then [] else [names[0]]) + Remaining(names[1..], active)
  }

  /** Every cache is either deleted or kept, never both. */
  lemma {:induction false} ActivationPartitions(names: seq<string>, active: string)
    ensures |StaleCaches(names, active)| + |Remaining(names, active)| == |names|
  {
    if names != [] {
      ActivationPartitions(names[1..], active);
    }
  }

  /**
   * After activating version `v`, the active cache and the caches of other applications are
   * still there, and the only cache of this application left is the active one; a cache of
   * any other version is deleted.
   */
  lemma ActivationKeepsOnlyActive(names: seq<string>, v: string, w: string)
    ensures CacheName(v) in names ==> CacheName(v) in Remaining(names, CacheName(v))
    ensures forall x :: x in Remaining(names, CacheName(v)) && StartsWith(x, CachePrefix) ==> x == CacheName(v)
    ensures forall x :: x in names && !StartsWith(x, CachePrefix) ==> x in Remaining(names, CacheName(v))
    ensures w != v && CacheName(w) in names ==> CacheName(w) in StaleCaches(names, CacheName(v))
  {
    if w != v && CacheName(w) == CacheName(v) {
      CacheNameInjective(w, v);
    }
  }

  /** The shape `/^bytes=(\d+)-(\d+)?$/i` captures: a first position and an optional last. */
  datatype ByteRange = ByteRange(first: nat, last: Option<nat>)

  const Unit: string := "bytes="

  /** The unit prefix "bytes=", matched without regard to the case of its letters. */
  predicate IsUnitPrefix(s: string)
  {
    |s| == |Unit| && forall i :: 0 <= i < |Unit| ==> ToLowerChar(s[i]) == Unit[i]
  }

  /**
   * `/^bytes=(\d+)-(\d+)?$/i.exec(header)`: the unit in any case, one or more digits, a
   * dash, then digits to the end or nothing; anything else does not match.
   */
  function ParseRange(header: string): (r: Option<ByteRange>)
  {
    if |header| < |Unit| || !IsUnitPrefix(header[..|Unit|]) then None
    else
      var rest := header[|Unit|..];
      var n := DigitRun(rest);
      if n == 0 || n == |rest| || rest[n] != '-' || !AllDigits(rest[n + 1..]) then None
      else
        var tail := rest[n + 1..];
        Some(ByteRange(DigitsValue(rest[..n]), if tail == [] then None else Some(DigitsValue(tail))))
  }

  /** A header the pattern accepts, with the two digit strings it captures. */
  predicate RangeForm(header: string, first: string, last: string)
  {
    && |header| >= |Unit| && IsUnitPrefix(header[..|Unit|])
    && header[|Unit|..] == first + "-" + last
    && first != [] && AllDigits(first) && AllDigits(last)
  }

  /** The range two captured digit strings denote; an empty last capture is an absent end. */
  function Denoted(first: string, last: string): ByteRange
    requires AllDigits(first) && AllDigits(last)
  {
    ByteRange(DigitsValue(first), if last == [] then None else Some(DigitsValue(last)))
  }

  /** Every header of the accepted shape parses to the range its digits denote. */
  lemma ParseRangeComplete(header: string, first: string, last: string)
    requires RangeForm(header, first, last)
    ensures ParseRange(header) == Some(Denoted(first, last))
  {
    var rest := header[|Unit|..];
    assert rest[..|first|] == first;
    AllDigitsRun(first);
    assert rest == first + ("-" + last);
    DigitRunPrefix(first, "-" + last);
    assert rest[|first|] == '-';
    assert rest[|first| + 1..] == last;
  }

  /** The digit run of digits followed by a non-digit is exactly those digits. */
  lemma {:induction false} DigitRunPrefix(d: string, s: string)
    requires AllDigits(d) && s != [] && !IsDigit(s[0])
    ensures DigitRun(d + s) == |d|
  {
    if d != [] {
      assert (d + s)[1..] == d[1..] + s;
      DigitRunPrefix(d[1..], s);
    }
  }

  /** Only headers of the accepted shape parse. */
  lemma ParseRangeSound(header: string)
    requires ParseRange(header).Some?
    ensures exists first, last :: RangeForm(header, first, last) && ParseRange(header) == Some(Denoted(first, last))
  {
    var rest := header[|Unit|..];
    var n := DigitRun(rest);
    var first, last := rest[..n], rest[n + 1..];
    assert rest == first + "-" + last;
    assert RangeForm(header, first, last);
  }

  /** `bytes=` followed by rendered numbers: what a client writes. */
  function RangeHeader(first: nat, last: Option<nat>): string
  {
    Unit + NatToString(first) + "-" + (if last.Some? then NatToString(last.value) else "")
  }

  /** Parsing a rendered header gives its numbers back. */
  lemma ParseRangeHeader(first: nat, last: Option<nat>)
    ensures ParseRange(RangeHeader(first, last)) == Some(ByteRange(first, last))
  {
    var l := if last.Some? then NatToString(last.value) else "";
    var h := RangeHeader(first, last);
    assert h[..|Unit|] == Unit;
    assert h[|Unit|..] == NatToString(first) + "-" + l;
    NatToStringValue(first);
    if last.Some? {
      NatToStringValue(last.value);
    }
    ParseRangeComplete(h, NatToString(first), l);
  }

  /** A position given to `ArrayBuffer.prototype.slice`: from the end when negative, clamped to the buffer. */
  function SlicePos(rel: int, len: nat): (p: nat)
    ensures p <= len
    ensures 0 <= rel <= len ==> p == rel
  {
    if rel < 0 then (if len + rel < 0 then 0 else len + rel)
    else if rel > len then len
    else rel
  }

  /** `buf.slice(begin, end)`: an end at or before the begin gives nothing. */
  function Slice<T>(buf: seq<T>, begin: int, end: int): (r: seq<T>)
    ensures 0 <= begin <= end <= |buf| ==> r == buf[begin..end]
    ensures begin >= |buf| ==> r == []
    ensures |r| <= |buf|
  {
    var b, e := SlicePos(begin, |buf|), SlicePos(end, |buf|);
    if e <= b then [] else buf[b..e]
  }

  /** A cached response: its body and the Content-Type it was stored with. */
  datatype Cached = Cached(body: seq<Byte>, contentType: Option<string>)

  /** The 206 response built from a cached body. */
  datatype Partial = Partial(status: int, body: seq<Byte>, contentRange: string, acceptRanges: string,
                             contentLength: nat, contentType: string)

  /** A range request answered from the cache: the whole cached response, or a part of it. */
  datatype RangeAnswer = WholeCached | PartialContent(part: Partial)

  /** The end position: the given last, or the last byte of the body when it is absent. */
  function EndOf(range: ByteRange, total: nat): int
  {
    if range.last.Some? then range.last.value else total - 1
  }

  /** `Math.min(end, total - 1)`. */
  function SafeEnd(range: ByteRange, total: nat): (e: int)
    ensures e <= EndOf(range, total) && e <= total - 1
    ensures e == EndOf(range, total) || e == total - 1
  {
    if EndOf(range, total) < total - 1 then EndOf(range, total) else total - 1
  }

  /** `` `bytes ${start}-${safeEnd}/${total}` ``. */
  function ContentRange(start: nat, safeEnd: int, total: nat): string
  {
    "bytes " + NatToString(start) + "-" + IntToString(safeEnd) + "/" + NatToString(total)
  }

  /**
   * The range branch of the fetch handler when the cache holds the path: a header that does
   * not match, or a start after the end, gets the whole cached response; otherwise a 206 with
   * the bytes from start to the safe end, its length, its Content-Range, byte ranges
   * advertised, and the stored Content-Type or 'audio/mpeg' when there is none.
   */
  function ServeRange(entry: Cached, header: string): (answer: RangeAnswer)
  {
    var total := |entry.body|;
    match ParseRange(header)
    case None => WholeCached
    case Some(range) =>
      if range.first > EndOf(range, total) then WholeCached
      else
        var safeEnd := SafeEnd(range, total);
        var chunk := Slice(entry.body, range.first, safeEnd + 1);
        var contentType := if entry.contentType.Some? && entry.contentType.value != [] then entry.contentType.value else "audio/mpeg";
        PartialContent(Partial(206, chunk, ContentRange(range.first, safeEnd, total), "bytes", |chunk|, contentType))
  }

  /** The whole cached response comes back exactly when the header does not parse or start > end. */
  lemma ServeRangeWhole(entry: Cached, header: string)
    ensures ServeRange(entry, header).WholeCached? <==>
      ParseRange(header).None? || ParseRange(header).value.first > EndOf(ParseRange(header).value, |entry.body|)
  {
  }

  /**
   * A 206 carries the bytes from the start to the safe end (nothing when the start is at or
   * past the end of the body), a Content-Length equal to their number, the Content-Range of
   * start, safe end and total, and a Content-Type that is never empty.
   */
  lemma ServeRangePartial(entry: Cached, header: string)
    requires ServeRange(entry, header).PartialContent?
    ensures var range, total, p := ParseRange(header).value, |entry.body|, ServeRange(entry, header).part;
      && p.status == 206 && p.acceptRanges == "bytes"
      && p.contentLength == |p.body|
      && p.contentRange == ContentRange(range.first, SafeEnd(range, total), total)
      && (range.first < total ==> p.body == entry.body[range.first..SafeEnd(range, total) + 1])
      && (range.first < total ==> |p.body| == SafeEnd(range, total) - range.first + 1)
      && (range.first >= total ==> p.body == [])
      && p.contentType != []
      && (entry.contentType.Some? && entry.contentType.value != [] ==> p.contentType == entry.contentType.value)
  {
  }

  /**
   * A satisfiable `bytes=a-b` (a <= b < total) gets exactly bytes a through b, b - a + 1 of
   * them, under Content-Range `bytes a-b/total`; an open `bytes=a-` gets every byte from a
   * on.
   */
  lemma ServeSatisfiable(entry: Cached, a: nat, b: nat)
    requires a <= b < |entry.body|
    ensures ServeRange(entry, RangeHeader(a, Some(b))).PartialContent?
    ensures var p := ServeRange(entry, RangeHeader(a, Some(b))).part;
      p.body == entry.body[a..b + 1] && p.contentLength == b - a + 1
      && p.contentRange == ContentRange(a, b, |entry.body|)
    ensures ServeRange(entry, RangeHeader(a, None)).PartialContent?
    ensures ServeRange(entry, RangeHeader(a, None)).part.body == entry.body[a..]
  {
    ParseRangeHeader(a, Some(b));
    ParseRangeHeader(a, None);
  }

  /**
   * A start at or past the end with an explicit end no smaller gets an empty 206, not the
   * 416 of section 15.5.17 of RFC 9110, under a Content-Range whose last position is below
   * its first; an open range past the end gets the whole cached response.
   */
  lemma ServePastEnd(entry: Cached, a: nat, b: nat)
    requires |entry.body| <= a <= b
    ensures ServeRange(entry, RangeHeader(a, Some(b))).PartialContent?
    ensures var p := ServeRange(entry, RangeHeader(a, Some(b))).part;
      p.status == 206 && p.body == [] && p.contentLength == 0
      && p.contentRange == ContentRange(a, |entry.body| - 1, |entry.body|)
    ensures ServeRange(entry, RangeHeader(a, None)) == WholeCached
  {
    ParseRangeHeader(a, Some(b));
    ParseRangeHeader(a, None);
  }

  /** The parts of a request URL the handler looks at. */
  datatype Url = Url(protocol: string, origin: string, pathname: string)

  /** A request: its method, its URL (`None` when it does not parse), its Range header, and whether it is a navigation. */
  datatype Request = Request(httpMethod: string, url: Option<Url>, range: Option<string>, navigate: bool)

  /** A network response: `ok`, `status` and `type`. */
  datatype NetResponse = NetResponse(ok: bool, status: int, kind: string)

  /** The handler answers same-origin GET requests over http or https and leaves the rest to the browser. */
  predicate Handled(req: Request, selfOrigin: string)
  {
    && req.httpMethod == "GET"
    && req.url.Some?
    && (req.url.value.protocol == "http:" || req.url.value.protocol == "https:")
    && req.url.value.origin == selfOrigin
  }

  /** Only a complete, successful, readable response is written to the cache. */
  predicate Cacheable(r: NetResponse)
  {
    r.ok && r.status == 200 && r.kind != "opaque"
  }

  /** A range request takes the range branch when its header is present and not empty. */
  predicate IsRangeRequest(req: Request)
  {
    req.range.Some? && req.range.value != []
  }

  /** What the handler looks up or fetches, as the Cache Storage and the network return it. */
  datatype World = World(
    atPath: Option<Cached>,                 // caches.match(url.pathname)
    network: Option<NetResponse>,           // fetch(req); None when it rejects
    fullFetch: Option<NetResponse>,         // the background fetch(url.pathname) of the range branch
    cachedForRequest: bool,                 // caches.match(req) found a response
    offlinePage: bool)                      // caches.match('/index.html') found a response

  /** The response the handler gives. */
  datatype Reply =
    | Unhandled
    | Ranged(answer: RangeAnswer)
    | Network(response: NetResponse)
    | NetworkError
    | CachedCopy
    | OfflinePage
    | Unavailable(status: int)

  /** A cache write: under the path (range branch) or under the request (network-first branch). */
  datatype Store = StoreAtPath(path: string, response: NetResponse) | StoreForRequest(response: NetResponse)

  datatype Outcome = Outcome(reply: Reply, store: Option<Store>)

  /**
   * The fetch handler. A range request with the path cached is answered from the cache;
   * without it the request goes to the network while the full resource is fetched and
   * stored if cacheable. Any other request goes to the network first, storing a cacheable
   * response, and falls back to the cached copy, then to the offline page for navigations,
   * then to a 503.
   */
  function Respond(req: Request, selfOrigin: string, world: World): (out: Outcome)
    ensures out.reply.Unhandled? <==> !Handled(req, selfOrigin)
    ensures out.store.Some? ==> Cacheable(out.store.value.response)
    ensures out.reply.Ranged? ==> out.store.None?
  {
    if !Handled(req, selfOrigin) then Outcome(Unhandled, None)
    else if IsRangeRequest(req) then
      if world.atPath.Some? then Outcome(Ranged(ServeRange(world.atPath.value, req.range.value)), None)
      else
        var store := if world.fullFetch.Some? && Cacheable(world.fullFetch.value)
                     then Some(StoreAtPath(req.url.value.pathname, world.fullFetch.value)) else None;
        Outcome(if world.network.Some? then Network(world.network.value) else NetworkError, store)
    else if world.network.Some? then
      Outcome(Network(world.network.value),
              if Cacheable(world.network.value) then Some(StoreForRequest(world.network.value)) else None)
    else if world.cachedForRequest then Outcome(CachedCopy, None)
    else if req.navigate && world.offlinePage then Outcome(OfflinePage, None)
    else Outcome(Unavailable(503), None)
  }

  /**
   * The range branch: with the path cached, the answer comes from the cache and nothing is
   * stored (a 206 is never cached); without it, the reply is the network's and only the
   * full resource fetched in the background is stored, under the path, when cacheable.
   */
  lemma RespondRange(req: Request, selfOrigin: string, world: World)
    requires Handled(req, selfOrigin) && IsRangeRequest(req)
    ensures world.atPath.Some? ==>
      Respond(req, selfOrigin, world) == Outcome(Ranged(ServeRange(world.atPath.value, req.range.value)), None)
    ensures world.atPath.None? ==> var out := Respond(req, selfOrigin, world);
      && out.reply == (if world.network.Some? then Network(world.network.value) else NetworkError)
      && (out.store.Some? <==> world.fullFetch.Some? && Cacheable(world.fullFetch.value))
      && (out.store.Some? ==> out.store.value == StoreAtPath(req.url.value.pathname, world.fullFetch.value))
  {
  }

  /**
   * The network-first branch: a network response is the reply and is stored exactly when
   * cacheable; when the network fails nothing is stored and the fall-backs are tried in
   * order: the cached copy, the offline page for a navigation, a 503.
   */
  lemma RespondNetworkFirst(req: Request, selfOrigin: string, world: World)
    requires Handled(req, selfOrigin) && !IsRangeRequest(req)
    ensures world.network.Some? ==> var out := Respond(req, selfOrigin, world);
      && out.reply == Network(world.network.value)
      && (out.store.Some? <==> Cacheable(world.network.value))
      && (out.store.Some? ==> out.store.value == StoreForRequest(world.network.value))
    ensures world.network.None? ==> var out := Respond(req, selfOrigin, world);
      && out.store.None?
      && out.reply == (if world.cachedForRequest then CachedCopy
                       else if req.navigate && world.offlinePage then OfflinePage
                       else Unavailable(503))
  {
  }
}
