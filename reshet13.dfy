/**
 * The Reshet 13 provider: a constant table of stream links, resolution of
 * `reshet13://<id>` references through that table with an optional downgrade
 * to plain `http://`, the link cache in front of it, per-channel Referer
 * headers, and the channel and VOD lists built from fixed id lists.
 */
module Reshet13 {
  import opened Wrappers
  import opened PyStr
  import opened BaseProvider

  const NAME: string := "reshet13"
  const SCHEME: string := "reshet13://"

  /** One row of the stream table: the stream link and, when the row has one, its referer. */
  datatype StreamData = StreamData(link: string, referer: Option<string>)

  /**
   * `CHANNEL_13_STREAMS`. Each link is written as scheme, host, directory and
   * file name so that its pieces stay short enough for the verifier to
   * inspect; the keys `klt`, `brv` and `cst` of some rows are never read and
   * are not kept.
   */
  const STREAMS: map<string, StreamData> := map[
    "13b" := StreamData(
      HttpsUrl(REST_13B),
      Some("https://13tv.co.il/live/")),
    "13b2" := StreamData(
      HttpsUrl("d2xg1g9o5vns8m.cloudfront.net" + "/out/v1/0855d703f7d5436fae6a9c7ce8ca5075" + "/index.m3u8"),
      Some("https://13tv.co.il/allshows/2010263/")),
    "13c" := StreamData(
      HttpsUrl("reshet.g-mana.live" + "/media/4607e158-e4d4-4e18-9160-3dc3ea9bc677" + "/mainManifest.m3u8"),
      Some("https://13tv.co.il/live/")),
    "bb" := StreamData(
      HttpsUrl("d2lckchr9cxrss.cloudfront.net" + "/out/v1/c73af7694cce4767888c08a7534b503c" + "/index.m3u8"),
      Some("https://13tv.co.il/home/bb-livestream/")),
    "13comedy" := StreamData(
      HttpsUrl("d15ds134q59udk.cloudfront.net" + "/out/v1/fbba879221d045598540ee783b140fe2" + "/index.m3u8"),
      Some("https://13tv.co.il/allshows/2605018/")),
    "13nofesh" := StreamData(
      HttpsUrl("d1yd8hohnldm33.cloudfront.net" + "/out/v1/19dee23c2cc24f689bd4e1288661ee0c" + "/index.m3u8"),
      Some("https://13tv.co.il/allshows/2395628/")),
    "13reality" := StreamData(
      HttpsUrl("d2dffl3588mvfk.cloudfront.net" + "/out/v1/d8e15050ca4148aab0ee387a5e2eb46b" + "/index.m3u8"),
      Some("https://13tv.co.il/allshows/2395629/"))
  ]

  /** The 13B link after its scheme. */
  const REST_13B: string :=
    "d18b0e6mopany4" + ".cloudfront.net" + "/out/v1/" + "2f2bc414a3db4698" + "a8e94b89eaf2da2a" + "/index.m3u8"

  /** An `https://` URL with the given host and path. */
  function HttpsUrl(rest: string): (u: string)
    ensures StartsWith(u, "https://") && u[8..] == rest
  {
    "https://" + rest
  }

  const RESHET_LOGO: string :=
    "https://upload.wikimedia.org/wikipedia/he/thumb/2/2e/Reshet_13_logo.svg/1200px-Reshet_13_logo.svg.png"

  const LOGOS: map<string, string> := map[
    "13" := RESHET_LOGO,
    "13b" := RESHET_LOGO,
    "13c" := RESHET_LOGO,
    "bb" := "https://img.mako.co.il/2023/01/15/bigblogo_aa.png",
    "13comedy" := "https://img.mako.co.il/2020/08/04/COMEDY_LOGO0_a.jpg",
    "13nofesh" := "https://img.mako.co.il/2020/08/04/ADVENTURE_LOGO_a.jpg",
    "13reality" := "https://img.mako.co.il/2020/08/04/REALITY_LOGO0_a.jpg",
    "13b2" := RESHET_LOGO
  ]

  const NAMES: map<string, string> := map[
    "13" := "Channel 13",
    "13b" := "Channel 13B",
    "13c" := "Channel 13C",
    "bb" := "Big Brother",
    "13comedy" := "13 Comedy",
    "13nofesh" := "13 Nofesh",
    "13reality" := "13 Reality",
    "13b2" := "13B2"
  ]

  /** The ids `get_channels` and `get_vods` walk through, in order. */
  const MAIN_IDS: seq<string> := ["13", "13b", "13c", "bb"]
  const VOD_IDS: seq<string> := ["13comedy", "13nofesh", "13reality", "13b2"]

  // ---------------------------------------------------------------------------
  // Resolution through a stream table
  //
  // The specification functions take the table as a parameter (`table`); the
  // provider object holds `CHANNEL_13_STREAMS` as its `streams` field, and
  // the lemmas about concrete ids instantiate `table` with STREAMS.
  // ---------------------------------------------------------------------------

  type Table = map<string, StreamData>

  /** Every link of the table is an `https://` URL, as every row of STREAMS is. */
  predicate HttpsLinks(table: Table) {
    forall id :: id in table ==> StartsWith(table[id].link, "https://")
  }

  /** The link-cache key: the reference with the protocol preference appended. */
  function LinkCacheKey(url: string, preferHttp: bool): (k: string)
    ensures StartsWith(k, url)
    ensures EndsWith(k, if preferHttp then "_http" else "_https")
  {
    url + (if preferHttp then "_http" else "_https")
  }

  /** The channel id of a reference: every `reshet13://` removed. */
  function ChannelIdOf(url: string): string {
    ReplaceAll(url, SCHEME, "")
  }

  /** The protocol preference applied to a table link. */
  function PreferProtocol(link: string, preferHttp: bool): (r: string)
    ensures !preferHttp || !StartsWith(link, "https://") ==> r == link
    ensures preferHttp ==> !StartsWith(r, "https://")
    ensures preferHttp && StartsWith(link, "https://") ==>
      r == "http://" + ReplaceAll(link[8..], "https://", "http://")
  {
    if preferHttp && StartsWith(link, "https://") then
      ReplaceAllLeading(link, "https://", "http://");
      var r := ReplaceAll(link, "https://", "http://");
      assert r[4] == ':';
      r
    else link
  }

  /** What `resolve_url` computes when the link cache does not answer. */
  function Resolved(table: Table, url: string, preferHttp: bool): (r: Option<string>)
    ensures r.Some? <==> StartsWith(url, SCHEME) && ChannelIdOf(url) in table
    ensures r.Some? ==> r.value == PreferProtocol(table[ChannelIdOf(url)].link, preferHttp)
  {
    if StartsWith(url, SCHEME) && ChannelIdOf(url) in table
    then Some(PreferProtocol(table[ChannelIdOf(url)].link, preferHttp))
    else None
  }

  /**
   * `resolve_url` on the link cache `lc` at time `now`: the resolved link and
   * the link cache afterwards. A fresh, non-empty cached value is returned as
   * it is; otherwise the table answers and a success is cached.
   */
  function ResolveSpec(table: Table, lc: Cache, url: string, preferHttp: bool, now: int): (res: (Option<string>, Cache))
    ensures Truthy(Lookup(lc, LinkCacheKey(url, preferHttp), LINK_CACHE_TIME, now)) ==>
      res == (Lookup(lc, LinkCacheKey(url, preferHttp), LINK_CACHE_TIME, now), lc)
    ensures !Truthy(Lookup(lc, LinkCacheKey(url, preferHttp), LINK_CACHE_TIME, now)) ==>
      res.0 == Resolved(table, url, preferHttp)
    ensures !Truthy(Lookup(lc, LinkCacheKey(url, preferHttp), LINK_CACHE_TIME, now)) && res.0.Some? ==>
      res.1 == lc[LinkCacheKey(url, preferHttp) := Stamp(res.0.value, now)]
    ensures res.0.None? ==> res.1 == lc
  {
    var key := LinkCacheKey(url, preferHttp);
    var hit := Lookup(lc, key, LINK_CACHE_TIME, now);
    if Truthy(hit) then (hit, lc)
    else match Resolved(table, url, preferHttp)
      case None => (None, lc)
      case Some(link) => (Some(link), lc[key := Stamp(link, now)])
  }

  /** `resolve_url` as the resolver `generate_playlist` calls, for one preference and one instant. */
  function Resolver(table: Table, preferHttp: bool, now: int): (Cache, string) -> (Option<string>, Cache) {
    (lc: Cache, url: string) => ResolveSpec(table, lc, url, preferHttp, now)
  }

  /** A resolved link of a table of `https://` links is never empty, so Python's truthiness test on it succeeds. */
  lemma ResolvedIsTruthy(table: Table, url: string, preferHttp: bool)
    requires HttpsLinks(table)
    ensures Resolved(table, url, preferHttp).Some? ==> Truthy(Resolved(table, url, preferHttp))
  {
  }

  // ---------------------------------------------------------------------------
  // The link cache never changes an answer
  // ---------------------------------------------------------------------------

  /** A cached value `v` under `key` is what the table gives for the reference and preference the key encodes. */
  predicate CachedCorrectly(table: Table, key: string, v: string) {
    (EndsWith(key, "_http") && Resolved(table, key[..|key| - 5], true) == Some(v))
    || (EndsWith(key, "_https") && Resolved(table, key[..|key| - 6], false) == Some(v))
  }

  /** Every non-empty value in the link cache is the table's answer for its key. */
  predicate Sound(table: Table, lc: Cache) {
    forall key :: key in lc && Truthy(lc[key].value) ==> CachedCorrectly(table, key, lc[key].value.value)
  }

  /** A key is read back as the reference and preference it was built from. */
  lemma KeyDecodes(url: string, preferHttp: bool)
    ensures var key := LinkCacheKey(url, preferHttp);
      if preferHttp then EndsWith(key, "_http") && key[..|key| - 5] == url && !EndsWith(key, "_https")
      else EndsWith(key, "_https") && key[..|key| - 6] == url && !EndsWith(key, "_http")
  {
    var key := LinkCacheKey(url, preferHttp);
    if preferHttp {
      assert key[|key| - 5..] == "_http";
      assert key[..|key| - 5] == url;
      assert key[|key| - 1] == 'p';
    } else {
      assert key[|key| - 6..] == "_https";
      assert key[..|key| - 6] == url;
      assert key[|key| - 1] == 's';
    }
  }

  /**
   * Under a sound link cache, `resolve_url` gives exactly the table's answer,
   * whatever the cache holds and whatever the time, and the cache stays sound.
   */
  lemma ResolveIsTransparent(table: Table, lc: Cache, url: string, preferHttp: bool, now: int)
    requires Sound(table, lc)
    ensures ResolveSpec(table, lc, url, preferHttp, now).0 == Resolved(table, url, preferHttp)
    ensures Sound(table, ResolveSpec(table, lc, url, preferHttp, now).1)
  {
    var key := LinkCacheKey(url, preferHttp);
    KeyDecodes(url, preferHttp);
    var hit := Lookup(lc, key, LINK_CACHE_TIME, now);
    if Truthy(hit) {
      assert key in lc && Truthy(lc[key].value);
      assert CachedCorrectly(table, key, hit.value);
    } else if Resolved(table, url, preferHttp).Some? {
      var lc2 := ResolveSpec(table, lc, url, preferHttp, now).1;
      assert lc2 == lc[key := Stamp(Resolved(table, url, preferHttp).value, now)];
      forall k | k in lc2 && Truthy(lc2[k].value)
        ensures CachedCorrectly(table, k, lc2[k].value.value)
      {
        if k == key {
          assert lc2[k].value.value == Resolved(table, url, preferHttp).value;
        } else {
          assert lc2[k] == lc[k];
        }
      }
    }
  }

  /** The empty cache a provider starts with is sound. */
  lemma EmptyCacheIsSound(table: Table)
    ensures Sound(table, map[])
  {
  }

  /** A success is a cache hit for the same reference and preference while it is fresh. */
  lemma RepeatWithinTtl(table: Table, lc: Cache, url: string, preferHttp: bool, t0: int, t1: int)
    requires HttpsLinks(table)
    requires !Truthy(Lookup(lc, LinkCacheKey(url, preferHttp), LINK_CACHE_TIME, t0))
    requires ResolveSpec(table, lc, url, preferHttp, t0).0.Some?
    requires t1 - t0 < LINK_CACHE_TIME
    ensures var (r, lc1) := ResolveSpec(table, lc, url, preferHttp, t0);
      ResolveSpec(table, lc1, url, preferHttp, t1) == (r, lc1)
  {
    var (r, lc1) := ResolveSpec(table, lc, url, preferHttp, t0);
    ResolvedIsTruthy(table, url, preferHttp);
    StoreThenLookup(lc, LinkCacheKey(url, preferHttp), r.value, t0, LINK_CACHE_TIME, t1);
  }

  // ---------------------------------------------------------------------------
  // Headers and stream details
  // ---------------------------------------------------------------------------

  /** `get_headers(channel_id)`: the base headers plus the table's referer, when there is one. */
  function Headers(table: Table, channelId: string): (h: map<string, string>)
    ensures "User-Agent" in h && h["User-Agent"] == USER_AGENT
    ensures "Referer" in h <==> channelId in table && table[channelId].referer.Some?
    ensures "Referer" in h ==> h["Referer"] == table[channelId].referer.value
    ensures h.Keys <= {"User-Agent", "Referer"}
  {
    var base := BaseHeaders();
    if channelId in table && table[channelId].referer.Some?
    then base["Referer" := table[channelId].referer.value]
    else base
  }

  /** `get_headers` as the function `generate_m3u8_entry` calls. */
  function HeadersOf(table: Table): string -> map<string, string> {
    (channelId: string) => Headers(table, channelId)
  }

  /** The dictionary `get_stream_details` returns. */
  datatype StreamDetails = StreamDetails(url: string, headers: map<string, string>)

  /** `get_stream_details`: the raw table link and the channel's headers, or None for an unknown id. */
  function GetStreamDetails(table: Table, channelId: string): (d: Option<StreamDetails>)
    ensures d.None? <==> channelId !in table
    ensures d.Some? ==> d.value.url == table[channelId].link && d.value.headers == Headers(table, channelId)
  {
    if channelId !in table then None
    else Some(StreamDetails(table[channelId].link, Headers(table, channelId)))
  }

  /** The details keep the scheme of the table link, where `resolve_url` with the http preference downgrades it. */
  lemma DetailsAreRaw(table: Table, channelId: string)
    requires HttpsLinks(table) && channelId in table
    ensures StartsWith(GetStreamDetails(table, channelId).value.url, "https://")
    ensures !StartsWith(PreferProtocol(GetStreamDetails(table, channelId).value.url, true), "https://")
  {
  }

  // ---------------------------------------------------------------------------
  // Channel and VOD lists
  // ---------------------------------------------------------------------------

  function NameOf(id: string): string {
    if id in NAMES then NAMES[id] else "Channel " + id
  }

  function LogoOf(id: string): string {
    if id in LOGOS then LOGOS[id] else ""
  }

  /** The channel record `get_channels` builds for a table id. */
  function ChannelFor(id: string): (c: Channel)
    ensures c.id == id && c.url == SCHEME + id && c.provider == NAME && c.groupTitle == ""
  {
    Channel(id, NameOf(id), SCHEME + id, LogoOf(id), NAME, "")
  }

  /** The VOD record `get_vods` builds for a table id. */
  function VodFor(id: string): (v: Vod)
    ensures v.id == id && v.url == SCHEME + id && v.provider == NAME && v.description == ""
  {
    Vod(id, NameOf(id), SCHEME + id, LogoOf(id), NAME, "")
  }

  /** The channels for the ids of `ids` that the table has, in order. */
  function ChannelsFor(table: Table, ids: seq<string>): (cs: seq<Channel>)
    ensures |cs| <= |ids|
    decreases |ids|
  {
    if ids == [] then []
    else
      var init := ChannelsFor(table, ids[..|ids| - 1]);
      var last := ids[|ids| - 1];
      init + (if last in table then [ChannelFor(last)] else [])
  }

  /** Every channel listed was built for an id of the list that the table has. */
  lemma {:induction false} ChannelsForMembers(table: Table, ids: seq<string>, c: Channel)
    requires c in ChannelsFor(table, ids)
    ensures c.id in ids && c.id in table && c == ChannelFor(c.id)
    decreases |ids|
  {
    var init := ChannelsFor(table, ids[..|ids| - 1]);
    if c in init {
      ChannelsForMembers(table, ids[..|ids| - 1], c);
    } else {
      assert c == ChannelFor(ids[|ids| - 1]);
    }
  }

  /** The VODs for the ids of `ids` that the table has, in order. */
  function VodsFor(table: Table, ids: seq<string>): (vs: seq<Vod>)
    ensures |vs| <= |ids|
    decreases |ids|
  {
    if ids == [] then []
    else
      var init := VodsFor(table, ids[..|ids| - 1]);
      var last := ids[|ids| - 1];
      init + (if last in table then [VodFor(last)] else [])
  }

  /** Every VOD listed was built for an id of the list that the table has. */
  lemma {:induction false} VodsForMembers(table: Table, ids: seq<string>, v: Vod)
    requires v in VodsFor(table, ids)
    ensures v.id in ids && v.id in table && v == VodFor(v.id)
    decreases |ids|
  {
    var init := VodsFor(table, ids[..|ids| - 1]);
    if v in init {
      VodsForMembers(table, ids[..|ids| - 1], v);
    } else {
      assert v == VodFor(ids[|ids| - 1]);
    }
  }

  /** The id a listed reference carries is read back by `resolve_url`. */
  lemma ChannelIdOfReference(id: string)
    requires |id| < |SCHEME|
    ensures ChannelIdOf(SCHEME + id) == id
  {
    ReplaceAllLeading(SCHEME + id, SCHEME, "");
    assert (SCHEME + id)[|SCHEME|..] == id;
    assert Find(id, SCHEME) == -1;
    ReplaceAllAbsent(id, SCHEME, "");
  }

  /** Every listed channel resolves, so a playlist skips none of them. */
  lemma ListedChannelsResolve(table: Table, ids: seq<string>, c: Channel, preferHttp: bool)
    requires forall id :: id in ids ==> |id| < |SCHEME|
    requires c in ChannelsFor(table, ids)
    ensures c.id in table && Resolved(table, c.url, preferHttp) == Some(PreferProtocol(table[c.id].link, preferHttp))
  {
    ChannelsForMembers(table, ids, c);
    ChannelIdOfReference(c.id);
    assert StartsWith(c.url, SCHEME);
  }

  /** The playlist text does not depend on the link cache it starts from, as long as that cache is sound. */
  lemma {:induction false} EntriesIgnoreSoundCache(
    table: Table, items: seq<Channel>, preferHttp: bool, now: int, lc1: Cache, lc2: Cache)
    requires Sound(table, lc1) && Sound(table, lc2)
    ensures Entries(NAME, items, Resolver(table, preferHttp, now), HeadersOf(table), lc1).0
         == Entries(NAME, items, Resolver(table, preferHttp, now), HeadersOf(table), lc2).0
    ensures Sound(table, Entries(NAME, items, Resolver(table, preferHttp, now), HeadersOf(table), lc1).1)
    decreases |items|
  {
    if items != [] {
      var c := items[0];
      var R := Resolver(table, preferHttp, now);
      ResolveIsTransparent(table, lc1, c.url, preferHttp, now);
      ResolveIsTransparent(table, lc2, c.url, preferHttp, now);
      var st1 := EntryStep(NAME, c, R, HeadersOf(table), lc1);
      var st2 := EntryStep(NAME, c, R, HeadersOf(table), lc2);
      assert st1.0 == st2.0;
      assert Sound(table, st1.1) && Sound(table, st2.1);
      EntriesIgnoreSoundCache(table, items[1..], preferHttp, now, st1.1, st2.1);
    }
  }

  // ---------------------------------------------------------------------------
  // The concrete table
  // ---------------------------------------------------------------------------

  /** Every row of STREAMS links to an `https://` URL. */
  lemma StreamsAreHttps()
    ensures HttpsLinks(STREAMS)
  {
    forall id | id in STREAMS
      ensures StartsWith(STREAMS[id].link, "https://")
    {
    }
  }

  /** Listing one more id adds its channel at the end when the table has it, and nothing otherwise. */
  lemma ChannelsForSnoc(table: Table, ids: seq<string>, id: string)
    ensures ChannelsFor(table, ids + [id]) == ChannelsFor(table, ids) + (if id in table then [ChannelFor(id)] else [])
  {
    assert (ids + [id])[..|ids|] == ids;
  }

  /** Of four ids, the first missing from the table and the rest present, the channels of the last three remain, in order. */
  lemma ChannelsOfFour(table: Table, a: string, b: string, c: string, d: string)
    requires a !in table && b in table && c in table && d in table
    ensures ChannelsFor(table, [a, b, c, d]) == [ChannelFor(b), ChannelFor(c), ChannelFor(d)]
  {
    ChannelsForSnoc(table, [], a);
    assert [] + [a] == [a];
    ChannelsForSnoc(table, [a], b);
    assert [a] + [b] == [a, b];
    ChannelsForSnoc(table, [a, b], c);
    assert [a, b] + [c] == [a, b, c];
    ChannelsForSnoc(table, [a, b, c], d);
    assert [a, b, c] + [d] == [a, b, c, d];
  }

  /** `get_channels` drops `13`, which has a name and a logo but no stream, and keeps the rest in order. */
  lemma MainChannels()
    ensures ChannelsFor(STREAMS, MAIN_IDS) == [ChannelFor("13b"), ChannelFor("13c"), ChannelFor("bb")]
  {
    assert "13" !in STREAMS;
    assert "13b" in STREAMS && "13c" in STREAMS && "bb" in STREAMS;
    ChannelsOfFour(STREAMS, "13", "13b", "13c", "bb");
  }

  /** Listing one more id adds its VOD at the end when the table has it, and nothing otherwise. */
  lemma VodsForSnoc(table: Table, ids: seq<string>, id: string)
    ensures VodsFor(table, ids + [id]) == VodsFor(table, ids) + (if id in table then [VodFor(id)] else [])
  {
    assert (ids + [id])[..|ids|] == ids;
  }

  /** Four ids that the table all has give their four VODs, in order. */
  lemma VodsOfFour(table: Table, a: string, b: string, c: string, d: string)
    requires a in table && b in table && c in table && d in table
    ensures VodsFor(table, [a, b, c, d]) == [VodFor(a), VodFor(b), VodFor(c), VodFor(d)]
  {
    VodsForSnoc(table, [], a);
    assert [] + [a] == [a];
    VodsForSnoc(table, [a], b);
    assert [a] + [b] == [a, b];
    VodsForSnoc(table, [a, b], c);
    assert [a, b] + [c] == [a, b, c];
    VodsForSnoc(table, [a, b, c], d);
    assert [a, b, c] + [d] == [a, b, c, d];
  }

  /** `get_vods` keeps all four of its ids, in order. */
  lemma VodList()
    ensures VodsFor(STREAMS, VOD_IDS) == [VodFor("13comedy"), VodFor("13nofesh"), VodFor("13reality"), VodFor("13b2")]
  {
    assert "13comedy" in STREAMS && "13nofesh" in STREAMS;
    assert "13reality" in STREAMS && "13b2" in STREAMS;
    VodsOfFour(STREAMS, "13comedy", "13nofesh", "13reality", "13b2");
  }

  /** A character of `p` that never occurs in `s` rules out every occurrence of `p`. */
  lemma MissingCharRulesOut(s: string, p: string, j: nat)
    requires j < |p| && p[j] !in s
    ensures !Contains(s, p)
  {
  }


  /** The 13B link holds no second `https://` (it has no `:` after its scheme). */
  lemma Rest13bHasNoScheme()
    ensures !Contains(REST_13B, "https://")
  {
    assert ':' !in "d18b0e6mopany4" && ':' !in ".cloudfront.net";
    assert ':' !in "/out/v1/" && ':' !in "2f2bc414a3db4698";
    assert ':' !in "a8e94b89eaf2da2a" && ':' !in "/index.m3u8";
    assert "https://"[5] == ':';
    MissingCharRulesOut(REST_13B, "https://", 5);
  }

  /** `reshet13://13b` with the http preference, on a cache that does not answer. */
  lemma Resolve13bPreferHttp(lc: Cache, now: int)
    requires !Truthy(Lookup(lc, "reshet13://13b_http", LINK_CACHE_TIME, now))
    ensures ResolveSpec(STREAMS, lc, "reshet13://13b", true, now).0 == Some("http://" + REST_13B)
  {
    var url := "reshet13://13b";
    assert url == SCHEME + "13b";
    ChannelIdOfReference("13b");
    assert LinkCacheKey(url, true) == "reshet13://13b_http";
    var link := STREAMS["13b"].link;
    assert link == HttpsUrl(REST_13B);
    assert link[8..] == REST_13B;
    Rest13bHasNoScheme();
    ReplaceAllAbsent(REST_13B, "https://", "http://");
    assert PreferProtocol(link, true) == "http://" + REST_13B;
  }

  // ---------------------------------------------------------------------------
  // The provider object
  // ---------------------------------------------------------------------------

  class Reshet13Provider {
    /** The state inherited from the base provider: its name and its two caches. */
    const base: Provider
    /** `CHANNEL_13_STREAMS` */
    const streams: Table

    constructor ()
      ensures fresh(base) && base.name == NAME && base.cache == map[] && base.linkCache == map[]
      ensures streams == STREAMS
    {
      base := new Provider(NAME);
      streams := STREAMS;
    }

    /** `get_channels` */
    method GetChannels() returns (channels: seq<Channel>)
      ensures channels == ChannelsFor(streams, MAIN_IDS)
    {
      channels := [];
      var i := 0;
      while i < |MAIN_IDS|
        invariant 0 <= i <= |MAIN_IDS|
        invariant channels == ChannelsFor(streams, MAIN_IDS[..i])
      {
        var id := MAIN_IDS[i];
        assert MAIN_IDS[..i + 1][..i] == MAIN_IDS[..i];
        if id in streams {
          channels := channels + [ChannelFor(id)];
        }
        i := i + 1;
      }
      assert MAIN_IDS[..i] == MAIN_IDS;
    }

    /** `get_vods` */
    method GetVods() returns (vods: seq<Vod>)
      ensures vods == VodsFor(streams, VOD_IDS)
    {
      vods := [];
      var i := 0;
      while i < |VOD_IDS|
        invariant 0 <= i <= |VOD_IDS|
        invariant vods == VodsFor(streams, VOD_IDS[..i])
      {
        var id := VOD_IDS[i];
        assert VOD_IDS[..i + 1][..i] == VOD_IDS[..i];
        if id in streams {
          vods := vods + [VodFor(id)];
        }
        i := i + 1;
      }
      assert VOD_IDS[..i] == VOD_IDS;
    }

    /** `resolve_url`: reads and writes the link cache of `base`, and nothing else. */
    method ResolveUrl(url: string, preferHttp: bool, now: int) returns (r: Option<string>)
      modifies base
      ensures (r, base.linkCache) == ResolveSpec(streams, old(base.linkCache), url, preferHttp, now)
      ensures base.cache == old(base.cache)
    {
      var key := LinkCacheKey(url, preferHttp);
      var cached := base.GetFromLinkCache(key, now);
      if Truthy(cached) {
        return cached;
      }
      if StartsWith(url, SCHEME) {
        var channelId := ReplaceAll(url, SCHEME, "");
        if channelId !in streams {
          return None;
        }
        var streamUrl := streams[channelId].link;
        if preferHttp && StartsWith(streamUrl, "https://") {
          streamUrl := ReplaceAll(streamUrl, "https://", "http://");
        }
        base.SetLinkCache(key, streamUrl, now);
        return Some(streamUrl);
      } else {
        return None;
      }
    }

    /** One iteration of the loop of `generate_playlist`: the text it appends for `c`. */
    method EntryFor(c: Channel, preferHttp: bool, now: int) returns (e: string)
      modifies base
      ensures (e, base.linkCache)
           == EntryStep(NAME, c, Resolver(streams, preferHttp, now), HeadersOf(streams), old(base.linkCache))
      ensures base.cache == old(base.cache)
    {
      e := "";
      if StartsWith(c.url, SchemeOf(NAME)) {
        var r := ResolveUrl(c.url, preferHttp, now);
        if Truthy(r) {
          e := M3u8Entry(NAME, c.(url := r.value), Headers(streams, c.id), true);
        }
      } else {
        e := M3u8Entry(NAME, c, Headers(streams, c.id), true);
      }
    }

    /** The loop of `generate_playlist` over `items`, appending to `playlist`. */
    method AppendEntries(items: seq<Channel>, preferHttp: bool, now: int, playlist: string) returns (out: string)
      modifies base
      ensures var (text, lc) := Entries(NAME, items, Resolver(streams, preferHttp, now), HeadersOf(streams), old(base.linkCache));
        out == playlist + text && base.linkCache == lc
      ensures base.cache == old(base.cache)
    {
      ghost var lc0 := base.linkCache;
      ghost var R := Resolver(streams, preferHttp, now);
      ghost var H := HeadersOf(streams);
      out := playlist;
      var i := 0;
      while i < |items|
        invariant 0 <= i <= |items|
        invariant out == playlist + Entries(NAME, items[..i], R, H, lc0).0
        invariant base.linkCache == Entries(NAME, items[..i], R, H, lc0).1
        invariant base.cache == old(base.cache)
      {
        var e := EntryFor(items[i], preferHttp, now);
        EntriesLoopStep(NAME, items, i, R, H, lc0, playlist, e, base.linkCache);
        out := out + e;
        i := i + 1;
      }
      assert items[..i] == items;
    }

    /** `generate_playlist` for this provider: its channels, then its VODs when asked for. */
    method GeneratePlaylist(preferHttp: bool, includeVods: bool, now: int) returns (playlist: string)
      modifies base
      ensures (playlist, base.linkCache)
           == Playlist(NAME, ChannelsFor(streams, MAIN_IDS), VodsFor(streams, VOD_IDS), includeVods,
                       Resolver(streams, preferHttp, now), HeadersOf(streams), old(base.linkCache))
      ensures base.cache == old(base.cache)
    {
      var channels := GetChannels();
      playlist := AppendEntries(channels, preferHttp, now, "#EXTM3U\n");
      if includeVods {
        var vods := GetVods();
        playlist := AppendEntries(VodChannels(NAME, vods), preferHttp, now, playlist);
      }
    }
  }
}
