/**
 * What every provider shares: the Channel and VOD records, the two TTL caches
 * (`_cache` for fetched content, `_link_cache` for resolved stream URLs), the
 * default headers, and the extended-M3U text built from channels.
 *
 * Python's `time.time()` is the integer parameter `now`. The abstract
 * `resolve_url`, `get_channels` and `get_headers` of the Python base class are
 * parameters of the playlist specification below; each provider module
 * instantiates them with its own definitions.
 */
module BaseProvider {
  import opened Wrappers
  import opened PyStr

  const USER_AGENT: string :=
    "Mozilla/5.0 (Windows NT 10.0; Win64; x64) "
    + "AppleWebKit/537.36 (KHTML, like Gecko) Chrome/122.0.0.0 Safari/537.36"

  /** Time to live of a link-cache entry, and the default for content lookups. */
  const LINK_CACHE_TIME: int := 10 * 60

  datatype Channel = Channel(
    id: string, name: string, url: string, logo: string, provider: string, groupTitle: string)

  datatype Vod = Vod(
    id: string, name: string, url: string, poster: string, provider: string, description: string)

  /**
   * A cache record as the Python dictionaries hold it: the stored value
   * (`'data'` in the content cache, `'url'` in the link cache) and the
   * timestamp `'t'`. Either key may be missing from a dictionary, so both are
   * optional here.
   */
  datatype Entry = Entry(value: Option<string>, t: Option<int>)

  type Cache = map<string, Entry>

  /** The record the setters write: the value stamped with the current time. */
  function Stamp(value: string, now: int): Entry {
    Entry(Some(value), Some(now))
  }

  /** `_is_cache_valid`: a missing record or one without `'t'` is stale; otherwise fresh while `now - t < ttl`. */
  predicate IsCacheValid(entry: Option<Entry>, ttl: int, now: int) {
    entry.Some? && entry.value.t.Some? && now - entry.value.t.value < ttl
  }

  /** A lookup in either cache: the stored value only while the record is fresh. */
  function Lookup(m: Cache, key: string, ttl: int, now: int): (r: Option<string>)
    ensures r.Some? <==> key in m && IsCacheValid(Some(m[key]), ttl, now) && m[key].value.Some?
    ensures r.Some? ==> r == m[key].value
  {
    if key in m && IsCacheValid(Some(m[key]), ttl, now) then m[key].value else None
  }

  /** A value stored at `t0` is returned at `t1` exactly while `t1 - t0 < ttl`. */
  lemma StoreThenLookup(m: Cache, key: string, data: string, t0: int, ttl: int, t1: int)
    ensures Lookup(m[key := Stamp(data, t0)], key, ttl, t1) == if t1 - t0 < ttl then Some(data) else None
  {
  }

  /** Storing under one key does not change what any other key returns. */
  lemma StoreKeepsOtherKeys(m: Cache, key: string, data: string, t0: int, other: string, ttl: int, t1: int)
    requires other != key
    ensures Lookup(m[key := Stamp(data, t0)], other, ttl, t1) == Lookup(m, other, ttl, t1)
  {
  }

  /** An empty cache misses every key, whatever the ttl and the time. */
  lemma EmptyCacheMisses(key: string, ttl: int, now: int)
    ensures Lookup(map[], key, ttl, now) == None
  {
  }

  /** The base `get_headers`: only the user agent. */
  function BaseHeaders(): (h: map<string, string>)
    ensures h.Keys == {"User-Agent"} && h["User-Agent"] == USER_AGENT
  {
    map["User-Agent" := USER_AGENT]
  }

  /**
   * A provider's mutable state: its name and its two caches. The Python
   * subclasses inherit this state; here each provider class holds one of these
   * objects.
   */
  class Provider {
    const name: string
    var cache: Cache
    var linkCache: Cache

    constructor (name: string)
      ensures this.name == name && cache == map[] && linkCache == map[]
    {
      this.name := name;
      cache := map[];
      linkCache := map[];
    }

    /** `_get_from_cache`: an omitted ttl means LINK_CACHE_TIME. */
    function GetFromCache(key: string, ttl: Option<int>, now: int): (r: Option<string>)
      reads this
      ensures r == Lookup(cache, key, ttl.GetOr(LINK_CACHE_TIME), now)
      ensures ttl.None? ==> r == Lookup(cache, key, 600, now)
    {
      Lookup(cache, key, ttl.GetOr(LINK_CACHE_TIME), now)
    }

    /** `_set_cache`: only `key` of the content cache changes. */
    method SetCache(key: string, data: string, now: int)
      modifies this
      ensures cache == old(cache)[key := Stamp(data, now)]
      ensures linkCache == old(linkCache)
    {
      cache := cache[key := Stamp(data, now)];
    }

    /** `_get_from_link_cache`: always judged against LINK_CACHE_TIME. */
    function GetFromLinkCache(key: string, now: int): (r: Option<string>)
      reads this
      ensures r == Lookup(linkCache, key, LINK_CACHE_TIME, now)
    {
      Lookup(linkCache, key, LINK_CACHE_TIME, now)
    }

    /** `_set_link_cache`: only `key` of the link cache changes. */
    method SetLinkCache(key: string, url: string, now: int)
      modifies this
      ensures linkCache == old(linkCache)[key := Stamp(url, now)]
      ensures cache == old(cache)
    {
      linkCache := linkCache[key := Stamp(url, now)];
    }

    /** `clear_cache`: both caches become empty. */
    method ClearCache()
      modifies this
      ensures cache == map[] && linkCache == map[]
      ensures forall key, ttl, now :: GetFromCache(key, ttl, now) == None && GetFromLinkCache(key, now) == None
    {
      cache := map[];
      linkCache := map[];
      forall key: string, ttl: Option<int>, now: int
        ensures GetFromCache(key, ttl, now) == None && GetFromLinkCache(key, now) == None
      {
        EmptyCacheMisses(key, ttl.GetOr(LINK_CACHE_TIME), now);
        EmptyCacheMisses(key, LINK_CACHE_TIME, now);
      }
    }
  }

  // ---------------------------------------------------------------------------
  // Extended-M3U entries
  // ---------------------------------------------------------------------------

  /** One `key="value"` attribute of an `#EXTINF` line. */
  datatype Attribute = Attribute(key: string, value: string)

  function RenderAttribute(a: Attribute): string {
    a.key + "=\"" + a.value + "\""
  }

  /** The `group-title` of an entry: the channel's own, else the provider name in title case. */
  function GroupTitle(providerName: string, c: Channel): (g: Option<string>)
    ensures g.None? <==> c.groupTitle == "" && providerName == ""
    ensures c.groupTitle != "" ==> g == Some(c.groupTitle)
  {
    if c.groupTitle != "" then Some(c.groupTitle)
    else if providerName != "" then Some(Title(providerName))
    else None
  }

  predicate HasAttribute(attrs: seq<Attribute>, key: string) {
    exists a :: a in attrs && a.key == key
  }

  /** The attributes `generate_m3u8_entry` puts after `#EXTINF:-1`, in order. */
  function ExtInfAttributes(providerName: string, c: Channel): (attrs: seq<Attribute>)
    ensures HasAttribute(attrs, "tvg-id") <==> c.id != ""
    ensures HasAttribute(attrs, "tvg-logo") <==> c.logo != ""
    ensures HasAttribute(attrs, "group-title") <==> GroupTitle(providerName, c).Some?
    ensures forall a :: a in attrs ==>
      (a.key == "tvg-id" && a.value == c.id)
      || (a.key == "tvg-logo" && a.value == c.logo)
      || (a.key == "group-title" && Some(a.value) == GroupTitle(providerName, c))
  {
    (if c.id != "" then [Attribute("tvg-id", c.id)] else [])
    + (if c.logo != "" then [Attribute("tvg-logo", c.logo)] else [])
    + (match GroupTitle(providerName, c) case Some(g) => [Attribute("group-title", g)] case None => [])
  }

  /** The `#EXTINF:-1 ...,name` line (without its newline). */
  function ExtInfLine(providerName: string, c: Channel): (line: string)
    ensures StartsWith(line, "#EXTINF:-1")
    ensures EndsWith(line, "," + c.name)
  {
    var attrs := ExtInfAttributes(providerName, c);
    var parts := ["#EXTINF:-1"] + seq(|attrs|, i requires 0 <= i < |attrs| => RenderAttribute(attrs[i]));
    var line := Join(" ", parts) + "," + c.name;
    ExtInfLineShape(Join(" ", parts), c.name);
    line
  }

  /** The `#EXTVLCOPT` lines for the headers that are present. */
  function HeaderLines(headers: map<string, string>, useHeaders: bool): (h: string)
    ensures h == "" <==> !useHeaders || ("User-Agent" !in headers && "Referer" !in headers)
    ensures h == "" || h[|h| - 1] == '\n'
  {
    (if useHeaders && "User-Agent" in headers
     then "#EXTVLCOPT:http-user-agent=" + headers["User-Agent"] + "\n" else "")
    + (if useHeaders && "Referer" in headers
       then "#EXTVLCOPT:http-referrer=" + headers["Referer"] + "\n" else "")
  }

  /**
   * `generate_m3u8_entry`: the `#EXTINF` line, then a user-agent line and a
   * referrer line when those headers exist, then the URL; every line ends in
   * a newline. `headers` is what the provider's `get_headers(channel.id)`
   * returns.
   */
  function M3u8Entry(providerName: string, c: Channel, headers: map<string, string>, useHeaders: bool): (e: string)
    ensures e == ExtInfLine(providerName, c) + "\n" + HeaderLines(headers, useHeaders) + c.url + "\n"
    ensures StartsWith(e, "#EXTINF:-1")
    ensures EndsWith(e, "\n" + c.url + "\n")
  {
    var line := ExtInfLine(providerName, c);
    var h := HeaderLines(headers, useHeaders);
    EntryShape(line, h, c.url);
    line + "\n" + h + c.url + "\n"
  }

  /** The `#EXTINF` line of `joined` attributes ends in the comma and the name. */
  lemma ExtInfLineShape(joined: string, name: string)
    requires StartsWith(joined, "#EXTINF:-1")
    ensures StartsWith(joined + "," + name, "#EXTINF:-1")
    ensures EndsWith(joined + "," + name, "," + name)
  {
    StartsWithExtend(joined, "," + name, "#EXTINF:-1");
    ConcatAssoc(joined, ",", name);
    EndsWithAppended(joined, "," + name);
  }

  /** An entry begins with its `#EXTINF` line and ends with its URL line, whatever header lines lie between. */
  lemma EntryShape(line: string, h: string, url: string)
    requires StartsWith(line, "#EXTINF:-1")
    requires h == "" || h[|h| - 1] == '\n'
    ensures StartsWith(line + "\n" + h + url + "\n", "#EXTINF:-1")
    ensures EndsWith(line + "\n" + h + url + "\n", "\n" + url + "\n")
  {
    var x := line + "\n" + h;
    assert x[|x| - 1] == '\n';
    var y := x[..|x| - 1];
    assert x == y + "\n";
    StartsWithExtend(line, "\n" + h + url + "\n", "#EXTINF:-1");
    assert line + "\n" + h + url + "\n" == line + ("\n" + h + url + "\n");
    assert x + url + "\n" == y + ("\n" + url + "\n");
    EndsWithAppended(y, "\n" + url + "\n");
  }

  // ---------------------------------------------------------------------------
  // generate_playlist
  // ---------------------------------------------------------------------------

  /** The opaque reference prefix a provider resolves, such as `reshet13://`. */
  function SchemeOf(providerName: string): string {
    providerName + "://"
  }

  /**
   * What one iteration of the loop in `generate_playlist` appends for item
   * `c`, and the resolver state afterwards. An item whose URL starts with the
   * provider's scheme is resolved first and dropped when that gives nothing;
   * any other item is emitted as it is.
   */
  function EntryStep<S>(
    providerName: string, c: Channel,
    resolve: (S, string) -> (Option<string>, S), headersOf: string -> map<string, string>, s: S): (r: (string, S))
    ensures r.0 == "" || StartsWith(r.0, "#EXTINF:-1")
    ensures !StartsWith(c.url, SchemeOf(providerName)) ==> r.1 == s && r.0 != ""
    ensures StartsWith(c.url, SchemeOf(providerName)) ==>
      r.1 == resolve(s, c.url).1 && (r.0 == "" <==> !Truthy(resolve(s, c.url).0))
  {
    if StartsWith(c.url, SchemeOf(providerName)) then
      var (r, s1) := resolve(s, c.url);
      if Truthy(r) then (M3u8Entry(providerName, c.(url := r.value), headersOf(c.id), true), s1)
      else ("", s1)
    else (M3u8Entry(providerName, c, headersOf(c.id), true), s)
  }

  /**
   * The text a loop appends when each item contributes the text `step` gives
   * it in the current state, and the state after the last item.
   */
  function Fold<S>(step: (Channel, S) -> (string, S), items: seq<Channel>, s: S): (string, S)
    decreases |items|
  {
    if items == [] then ("", s)
    else
      var first := step(items[0], s);
      var rest := Fold(step, items[1..], first.1);
      (first.0 + rest.0, rest.1)
  }

  /** One iteration of the loop in `generate_playlist`, as a function of the item and the state. */
  function EntryStepOf<S>(
    providerName: string, resolve: (S, string) -> (Option<string>, S), headersOf: string -> map<string, string>)
    : (Channel, S) -> (string, S)
  {
    (c: Channel, t: S) => EntryStep(providerName, c, resolve, headersOf, t)
  }

  /** The text the loop in `generate_playlist` appends for `items`, and the resolver state afterwards. */
  function Entries<S>(
    providerName: string, items: seq<Channel>,
    resolve: (S, string) -> (Option<string>, S), headersOf: string -> map<string, string>, s: S): (string, S)
  {
    Fold(EntryStepOf(providerName, resolve, headersOf), items, s)
  }

  /** The channel record `generate_playlist` builds for a VOD item. */
  function VodChannel(providerName: string, v: Vod): (c: Channel)
    ensures c.id == providerName + "-vod-" + v.id
    ensures c.url == v.url && c.name == v.name && c.logo == v.poster
  {
    Channel(providerName + "-vod-" + v.id, v.name, v.url, v.poster,
            if v.provider != "" then v.provider else providerName,
            Title(providerName) + " VOD")
  }

  function VodChannels(providerName: string, vods: seq<Vod>): (cs: seq<Channel>)
    ensures |cs| == |vods|
    ensures forall i :: 0 <= i < |vods| ==> cs[i] == VodChannel(providerName, vods[i])
  {
    seq(|vods|, i requires 0 <= i < |vods| => VodChannel(providerName, vods[i]))
  }

  /** `generate_playlist`: the header line, the channel entries, then the VOD entries when asked for. */
  function Playlist<S>(
    providerName: string, channels: seq<Channel>, vods: seq<Vod>, includeVods: bool,
    resolve: (S, string) -> (Option<string>, S), headersOf: string -> map<string, string>, s: S): (r: (string, S))
    ensures StartsWith(r.0, "#EXTM3U\n")
  {
    var (a, s1) := Entries(providerName, channels, resolve, headersOf, s);
    if includeVods then
      var (b, s2) := Entries(providerName, VodChannels(providerName, vods), resolve, headersOf, s1);
      ("#EXTM3U\n" + a + b, s2)
    else ("#EXTM3U\n" + a, s1)
  }

  /** The text for a concatenation is the text for each part, in order, the second part starting where the first left off. */
  lemma {:induction false} FoldAppend<S>(step: (Channel, S) -> (string, S), xs: seq<Channel>, ys: seq<Channel>, s: S)
    ensures var (a, s1) := Fold(step, xs, s);
      var (b, s2) := Fold(step, ys, s1);
      Fold(step, xs + ys, s) == (a + b, s2)
  {
    if xs == [] {
      assert xs + ys == ys;
      var b := Fold(step, ys, s);
      assert "" + b.0 == b.0;
    } else {
      assert (xs + ys)[0] == xs[0];
      assert (xs + ys)[1..] == xs[1..] + ys;
      var first := step(xs[0], s);
      FoldAppend(step, xs[1..], ys, first.1);
      var tail := Fold(step, xs[1..], first.1);
      var rest := Fold(step, ys, tail.1);
      assert Fold(step, xs + ys, s) == (first.0 + (tail.0 + rest.0), rest.1);
      ConcatAssoc(first.0, tail.0, rest.0);
    }
  }

  /** Appending one item appends exactly that item's text, taken in the state the earlier items left. */
  lemma FoldSnoc<S>(step: (Channel, S) -> (string, S), xs: seq<Channel>, c: Channel, s: S)
    ensures var (a, s1) := Fold(step, xs, s);
      var (e, s2) := step(c, s1);
      Fold(step, xs + [c], s) == (a + e, s2)
  {
    var (a, s1) := Fold(step, xs, s);
    var (e, s2) := step(c, s1);
    FoldAppend(step, xs, [c], s);
    assert [c][1..] == [];
    assert Fold(step, [c], s1) == (e + "", s2);
    assert e + "" == e;
  }

  /**
   * The step a loop over `items` takes at index `i`: text accumulated after
   * `prefix` plus the text for `items[i]` is the text for `items[..i + 1]`.
   */
  lemma FoldLoopStep<S>(step: (Channel, S) -> (string, S), items: seq<Channel>, i: nat, s: S,
                        prefix: string, e: string, s1: S)
    requires i < |items|
    requires (e, s1) == step(items[i], Fold(step, items[..i], s).1)
    ensures prefix + Fold(step, items[..i], s).0 + e == prefix + Fold(step, items[..i + 1], s).0
    ensures s1 == Fold(step, items[..i + 1], s).1
  {
    assert items[..i + 1] == items[..i] + [items[i]];
    FoldSnoc(step, items[..i], items[i], s);
    ConcatAssoc(prefix, Fold(step, items[..i], s).0, e);
  }

  /** The loop step of `generate_playlist`. */
  lemma EntriesLoopStep<S>(
    providerName: string, items: seq<Channel>, i: nat,
    resolve: (S, string) -> (Option<string>, S), headersOf: string -> map<string, string>, s: S,
    prefix: string, e: string, s1: S)
    requires i < |items|
    requires (e, s1) == EntryStep(providerName, items[i], resolve, headersOf,
                                  Entries(providerName, items[..i], resolve, headersOf, s).1)
    ensures prefix + Entries(providerName, items[..i], resolve, headersOf, s).0 + e
         == prefix + Entries(providerName, items[..i + 1], resolve, headersOf, s).0
    ensures s1 == Entries(providerName, items[..i + 1], resolve, headersOf, s).1
  {
    FoldLoopStep(EntryStepOf(providerName, resolve, headersOf), items, i, s, prefix, e, s1);
  }

  /** A channel that needs resolving and resolves to nothing contributes no text. */
  lemma FailedChannelIsSkipped<S>(
    providerName: string, xs: seq<Channel>, c: Channel, ys: seq<Channel>,
    resolve: (S, string) -> (Option<string>, S), headersOf: string -> map<string, string>, s: S)
    requires StartsWith(c.url, SchemeOf(providerName))
    requires !Truthy(resolve(Entries(providerName, xs, resolve, headersOf, s).1, c.url).0)
    ensures var (a, s1) := Entries(providerName, xs, resolve, headersOf, s);
            var (b, s3) := Entries(providerName, ys, resolve, headersOf, resolve(s1, c.url).1);
            Entries(providerName, xs + [c] + ys, resolve, headersOf, s) == (a + b, s3)
  {
    var step := EntryStepOf(providerName, resolve, headersOf);
    var (a, s1) := Fold(step, xs, s);
    assert step(c, s1) == ("", resolve(s1, c.url).1);
    FoldSnoc(step, xs, c, s);
    FoldAppend(step, xs + [c], ys, s);
    assert a + "" == a;
  }

  /** The entries written for channels that need no resolving, in order. */
  function PlainEntries(providerName: string, items: seq<Channel>, headersOf: string -> map<string, string>): string
    decreases |items|
  {
    if items == [] then ""
    else M3u8Entry(providerName, items[0], headersOf(items[0].id), true) + PlainEntries(providerName, items[1..], headersOf)
  }

  /** Items that are not opaque references are emitted verbatim, in order, and the resolver is never consulted. */
  lemma {:induction false} EntriesWithoutReferences<S>(
    providerName: string, items: seq<Channel>,
    resolve: (S, string) -> (Option<string>, S), headersOf: string -> map<string, string>, s: S)
    requires forall i :: 0 <= i < |items| ==> !StartsWith(items[i].url, SchemeOf(providerName))
    ensures Entries(providerName, items, resolve, headersOf, s) == (PlainEntries(providerName, items, headersOf), s)
  {
    if items != [] {
      EntriesWithoutReferences(providerName, items[1..], resolve, headersOf, s);
    }
  }
}
