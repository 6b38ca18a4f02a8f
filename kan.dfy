/**
 * The Kan provider: a page URL is normalised, its text fetched through the
 * content cache, and four extractors run over the text in a fixed order,
 * each later one only while nothing usable has been found and some only for
 * certain URLs; the protocol preference is applied to the result and a
 * success is stored in the link cache under the original page URL.
 *
 * The extractors follow the regular expressions of the source, read as
 * leftmost-match searches: a literal key, optional whitespace, a quoted or
 * braced capture that stops at the first closing delimiter. The Kaltura
 * package is JSON; decoding it and reading its stream field is the parameter
 * `kalturaHls`. The network is the map `net` from URL to the body of a
 * successful reply.
 */
module Kan {
  import opened Wrappers
  import opened PyStr
  import opened BaseProvider

  const NAME: string := "kan"
  const DAILYMOTION_EMBED: string := "https://www.dailymotion.com/embed/video/"

  // ---------------------------------------------------------------------------
  // Normalisation of the page URL
  // ---------------------------------------------------------------------------

  /** With the http preference, every `https` becomes `http`. */
  function DowngradeScheme(pageUrl: string, preferHttp: bool): (r: string)
    ensures !preferHttp ==> r == pageUrl
  {
    if preferHttp then ReplaceAll(pageUrl, "https", "http") else pageUrl
  }

  /** When the last `http://` is not at the start, the URL is cut to begin there. */
  function CutAtLastHttp(url: string): (r: string)
    ensures RFind(url, "http://") <= 0 ==> r == url
    ensures RFind(url, "http://") > 0 ==> r == url[RFind(url, "http://")..]
  {
    var i := RFind(url, "http://");
    if i > 0 then url[i..] else url
  }

  /** The normalised URL: downgrade, cut, then every `HLS/HLS` collapsed to `HLS`. */
  function Normalise(pageUrl: string, preferHttp: bool): string {
    ReplaceAll(CutAtLastHttp(DowngradeScheme(pageUrl, preferHttp)), "HLS/HLS", "HLS")
  }

  /** A URL that needs no cut and holds no `HLS/HLS` is already normal without the http preference. */
  lemma NormalUrlUnchanged(pageUrl: string)
    requires RFind(pageUrl, "http://") <= 0 && !Contains(pageUrl, "HLS/HLS")
    ensures Normalise(pageUrl, false) == pageUrl
  {
    ReplaceAllAbsent(pageUrl, "HLS/HLS", "HLS");
  }

  /** After the cut, a URL that held `http://` past its start begins with it and holds no other. */
  lemma CutKeepsOnlyLastHttp(url: string)
    requires RFind(url, "http://") > 0
    ensures StartsWith(CutAtLastHttp(url), "http://")
    ensures RFind(CutAtLastHttp(url), "http://") == 0
    ensures EndsWith(url, CutAtLastHttp(url))
  {
    var i := RFind(url, "http://");
    var r := url[i..];
    assert r[..7] == url[i..i + 7];
    assert OccursAt(r, "http://", 0);
    forall k | 0 < k
      ensures !OccursAt(r, "http://", k)
    {
      if OccursAt(r, "http://", k) {
        assert r[k..k + 7] == url[i + k..i + k + 7];
        assert OccursAt(url, "http://", i + k);
        assert false;
      }
    }
    assert url[|url| - |r|..] == r;
  }

  // ---------------------------------------------------------------------------
  // Leftmost-match extraction
  // ---------------------------------------------------------------------------

  /**
   * What follows the literal key of a pattern:
   *  - Quoted: optional whitespace (when `allowSpace`), `"`, the capture, `"`;
   *    without `dotAll` the capture cannot cross a newline;
   *  - Assignment: whitespace, `=`, whitespace, `{`, the capture, `};`,
   *    the capture not crossing a newline.
   */
  datatype Pattern = Quoted(allowSpace: bool, dotAll: bool) | Assignment

  /** The capture of `pat` when its key occurs at `p`, or None when the rest of the pattern fails there. */
  function MatchAt(text: string, p: nat, key: string, pat: Pattern): (r: Option<string>)
    ensures r.Some? && pat.Quoted? ==> '"' !in r.value
    ensures r.Some? && (pat.Assignment? || !pat.dotAll) ==> '\n' !in r.value
  {
    match pat
    case Quoted(allowSpace, dotAll) =>
      var q := if allowSpace then SkipSpace(text, p + |key|) else p + |key|;
      if q < |text| && text[q] == '"' then
        var e := FindFrom(text, "\"", q + 1);
        if e >= 0 && (dotAll || '\n' !in text[q + 1..e]) then
          NoCharBeforeFirst(text, '"', q + 1, e);
          Some(text[q + 1..e])
        else None
      else None
    case Assignment =>
      var q1 := SkipSpace(text, p + |key|);
      if q1 < |text| && text[q1] == '=' then
        var q2 := SkipSpace(text, q1 + 1);
        if q2 < |text| && text[q2] == '{' then
          var e := FindFrom(text, "};", q2 + 1);
          if e >= 0 && '\n' !in text[q2 + 1..e] then Some(text[q2 + 1..e]) else None
        else None
      else None
  }

  /** The whole pattern matches at `k`: its key occurs there and the rest of it follows. */
  predicate MatchesAt(text: string, key: string, pat: Pattern, k: nat) {
    OccursAt(text, key, k) && MatchAt(text, k, key, pat).Some?
  }

  /** The lazy capture up to the first `c` after `from` holds no `c`. */
  lemma NoCharBeforeFirst(text: string, c: char, from: nat, e: int)
    requires e >= 0 && e == FindFrom(text, [c], from)
    ensures from <= e <= |text| && c !in text[from..e]
  {
    forall k | from <= k < e
      ensures text[k] != c
    {
      assert !OccursAt(text, [c], k);
      assert text[k..k + 1] == [text[k]];
    }
  }

  /** The position where the leftmost match at or after `from` starts, or -1. */
  function SearchFrom(text: string, key: string, pat: Pattern, from: nat): (r: int)
    requires key != ""
    decreases |text| - from
    ensures r == -1 || (from <= r && MatchesAt(text, key, pat, r))
    ensures forall k: nat :: from <= k && (r == -1 || k < r) ==> !MatchesAt(text, key, pat, k)
  {
    var p := FindFrom(text, key, from);
    if p < 0 then -1
    else if MatchAt(text, p, key, pat).Some? then p
    else
      NoMatchUpTo(text, key, pat, from, p);
      SearchFrom(text, key, pat, p + 1)
  }

  /** When the first occurrence of the key at or after `from` is at `p` and fails to match, nothing up to `p` matches. */
  lemma NoMatchUpTo(text: string, key: string, pat: Pattern, from: nat, p: nat)
    requires p == FindFrom(text, key, from) && MatchAt(text, p, key, pat).None?
    ensures forall k: nat :: from <= k <= p ==> !MatchesAt(text, key, pat, k)
  {
    forall k: nat | from <= k <= p
      ensures !MatchesAt(text, key, pat, k)
    {
      if k < p {
        assert !OccursAt(text, key, k);
      }
    }
  }

  /** `re.search` of the pattern over `text` from `from`: the capture of the leftmost match. */
  function Search(text: string, key: string, pat: Pattern, from: nat): (r: Option<string>)
    requires key != ""
    ensures r.Some? <==> exists k: nat :: from <= k && MatchesAt(text, key, pat, k)
    ensures r.Some? && pat.Quoted? ==> '"' !in r.value
    ensures r.Some? && (pat.Assignment? || !pat.dotAll) ==> '\n' !in r.value
  {
    var p := SearchFrom(text, key, pat, from);
    if p < 0 then None else MatchAt(text, p, key, pat)
  }

  /** A match at `p` with no match before it is what the search returns. */
  lemma SearchFindsLeftmost(text: string, key: string, pat: Pattern, from: nat, p: nat)
    requires key != "" && from <= p
    requires MatchesAt(text, key, pat, p)
    requires forall k: nat :: from <= k < p ==> !MatchesAt(text, key, pat, k)
    ensures Search(text, key, pat, from) == MatchAt(text, p, key, pat)
  {
    var r := SearchFrom(text, key, pat, from);
    assert r != -1;
    assert !(r < p);
    assert !(p < r);
  }

  /** `dailymotion.*?video:\s*?"(.*?)"` with `re.S`: the id after the first `video:` past the first `dailymotion`. */
  function Dailymotion(text: string): (r: Option<string>)
    ensures !Contains(text, "dailymotion") ==> r.None?
    ensures r.Some? ==> '"' !in r.value
  {
    var d := Find(text, "dailymotion");
    if d < 0 then None else Search(text, "video:", Quoted(true, true), d + 11)
  }

  /** The Bynet replacements: every `https` becomes `http`, every literal `\u0026` becomes `&`. */
  function CleanBynet(v: string): string {
    ReplaceAll(ReplaceAll(v, "https", "http"), "\\u0026", "&")
  }

  /** A value with neither `https` nor a literal `\u0026` is left as it is. */
  lemma CleanBynetKeepsClean(v: string)
    requires !Contains(v, "https") && !Contains(v, "\\u0026")
    ensures CleanBynet(v) == v
  {
    ReplaceAllAbsent(v, "https", "http");
    ReplaceAllAbsent(v, "\\u0026", "&");
  }

  /** `bynetURL:\s*"(.*?)"`, else `"UrlRedirector":"(.*?)"`, then the replacements. */
  function Bynet(text: string): (r: Option<string>)
    ensures r.Some? ==> Contains(text, "bynetURL:") || Contains(text, "\"UrlRedirector\":")
  {
    match Search(text, "bynetURL:", Quoted(true, false), 0)
    case Some(v) => Some(CleanBynet(v))
    case None =>
      match Search(text, "\"UrlRedirector\":", Quoted(false, false), 0)
      case Some(v) => Some(CleanBynet(v))
      case None => None
  }

  /** `hls:\s*?"(.*?)"` */
  function DirectHls(text: string): (r: Option<string>)
    ensures !Contains(text, "hls:") ==> r.None?
    ensures r.Some? ==> '"' !in r.value && '\n' !in r.value
  {
    Search(text, "hls:", Quoted(true, false), 0)
  }

  /** `window\.kalturaIframePackageData\s*=\s*\{(.*?)\};`, then the stream field of the decoded package. */
  function Kaltura(text: string, kalturaHls: string -> Option<string>): (r: Option<string>)
    ensures !Contains(text, "window.kalturaIframePackageData") ==> r.None?
  {
    match Search(text, "window.kalturaIframePackageData", Assignment, 0)
    case Some(blob) => kalturaHls(blob)
    case None => None
  }

  /** `media\.(ma)?kan\.org\.il` occurs in the URL. */
  predicate IsKanMediaHost(url: string) {
    Contains(url, "media.kan.org.il") || Contains(url, "media.makan.org.il")
  }

  // ---------------------------------------------------------------------------
  // The ordered cascade
  // ---------------------------------------------------------------------------

  /**
   * One guarded stage: run only while `cur` is falsy and the gate holds;
   * a match replaces `cur` (even an empty one), no match keeps it.
   */
  function Stage(cur: Option<string>, gate: bool, found: Option<string>): (r: Option<string>)
    ensures Truthy(cur) || !gate || found.None? ==> r == cur
    ensures !Truthy(cur) && gate && found.Some? ==> r == found
  {
    if !Truthy(cur) && gate && found.Some? then found else cur
  }

  /** The Dailymotion stage, which always runs first. */
  function DailymotionStage(text: string): (r: Option<string>)
    ensures r.Some? <==> Dailymotion(text).Some?
    ensures r.Some? ==> r == Some(DAILYMOTION_EMBED + Dailymotion(text).value)
  {
    match Dailymotion(text)
    case Some(id) => Some(DAILYMOTION_EMBED + id)
    case None => None
  }

  /** What each extractor offers for the normalised `url`: None where it does not run or does not match. */
  function Candidates(url: string, text: string, kalturaHls: string -> Option<string>): (cs: seq<Option<string>>)
    ensures |cs| == 4
    ensures cs[0] == DailymotionStage(text)
    ensures Contains(url, "ByPlayer") ==> cs[1] == Bynet(text)
    ensures !Contains(url, "ByPlayer") ==> cs[1].None?
    ensures IsKanMediaHost(url) ==> cs[2] == DirectHls(text)
    ensures !IsKanMediaHost(url) ==> cs[2].None?
    ensures Contains(url, "kaltura") ==> cs[3] == Kaltura(text, kalturaHls)
    ensures !Contains(url, "kaltura") ==> cs[3].None?
  {
    var bynet := if Contains(url, "ByPlayer") then Bynet(text) else None;
    var hls := if IsKanMediaHost(url) then DirectHls(text) else None;
    var kaltura := if Contains(url, "kaltura") then Kaltura(text, kalturaHls) else None;
    [DailymotionStage(text), bynet, hls, kaltura]
  }

  /** The four stages in order: the value of `resolved` before the protocol preference. */
  function Extract(url: string, text: string, kalturaHls: string -> Option<string>): Option<string> {
    var cs := Candidates(url, text, kalturaHls);
    Stage(Stage(Stage(cs[0], true, cs[1]), true, cs[2]), true, cs[3])
  }

  /** The first truthy value of `cs`, or None. */
  function FirstTruthy(cs: seq<Option<string>>): (r: Option<string>)
    ensures r.None? || Truthy(r)
    ensures r.Some? ==> r in cs
    ensures r.Some? ==> exists i :: 0 <= i < |cs| && cs[i] == r && forall j :: 0 <= j < i ==> !Truthy(cs[j])
    ensures r.None? <==> forall i :: 0 <= i < |cs| ==> !Truthy(cs[i])
  {
    if cs == [] then None
    else if Truthy(cs[0]) then cs[0]
    else FirstTruthy(cs[1..])
  }

  /** Three guarded stages after a first value pick the first truthy of the four values. */
  lemma StagesPickFirstTruthy(c0: Option<string>, c1: Option<string>, c2: Option<string>, c3: Option<string>)
    ensures var r := Stage(Stage(Stage(c0, true, c1), true, c2), true, c3);
      (FirstTruthy([c0, c1, c2, c3]).Some? ==> r == FirstTruthy([c0, c1, c2, c3]))
      && (FirstTruthy([c0, c1, c2, c3]).None? ==> !Truthy(r))
  {
    assert [c0, c1, c2, c3][1..] == [c1, c2, c3];
    assert [c1, c2, c3][1..] == [c2, c3];
    assert [c2, c3][1..] == [c3];
    assert [c3][1..] == [];
    assert FirstTruthy([c3]) == if Truthy(c3) then c3 else None;
    assert FirstTruthy([c2, c3]) == if Truthy(c2) then c2 else FirstTruthy([c3]);
    assert FirstTruthy([c1, c2, c3]) == if Truthy(c1) then c1 else FirstTruthy([c2, c3]);
    assert FirstTruthy([c0, c1, c2, c3]) == if Truthy(c0) then c0 else FirstTruthy([c1, c2, c3]);
  }

  /**
   * The cascade picks the first extractor that offers something truthy; when
   * none does, its result is falsy (None, or the empty string one of them
   * matched).
   */
  lemma ExtractIsFirstTruthy(url: string, text: string, kalturaHls: string -> Option<string>)
    ensures var cs := Candidates(url, text, kalturaHls);
      (FirstTruthy(cs).Some? ==> Extract(url, text, kalturaHls) == FirstTruthy(cs))
      && (FirstTruthy(cs).None? ==> !Truthy(Extract(url, text, kalturaHls)))
  {
    var cs := Candidates(url, text, kalturaHls);
    assert cs == [cs[0], cs[1], cs[2], cs[3]];
    StagesPickFirstTruthy(cs[0], cs[1], cs[2], cs[3]);
  }

  /** Without `kaltura` in the URL the Kaltura decoder is never consulted: any two decoders give the same result. */
  lemma KalturaGateClosed(url: string, text: string, k1: string -> Option<string>, k2: string -> Option<string>)
    requires !Contains(url, "kaltura")
    ensures Extract(url, text, k1) == Extract(url, text, k2)
  {
    var cs1 := Candidates(url, text, k1);
    var cs2 := Candidates(url, text, k2);
    assert cs1 == cs2;
  }

  /** Without `ByPlayer` in the URL the Bynet patterns are not searched: the result is that of the other stages. */
  lemma BynetGateClosed(url: string, text: string, kalturaHls: string -> Option<string>)
    requires !Contains(url, "ByPlayer")
    ensures var cs := Candidates(url, text, kalturaHls);
      Extract(url, text, kalturaHls) == Stage(Stage(cs[0], true, cs[2]), true, cs[3])
  {
  }

  /** Off the Kan media hosts the direct `hls:` pattern is not searched: the result is that of the other stages. */
  lemma HlsGateClosed(url: string, text: string, kalturaHls: string -> Option<string>)
    requires !IsKanMediaHost(url)
    ensures var cs := Candidates(url, text, kalturaHls);
      Extract(url, text, kalturaHls) == Stage(Stage(cs[0], true, cs[1]), true, cs[3])
  {
  }

  /** A Dailymotion match decides the result, whatever the later extractors would find. */
  lemma DailymotionWins(url: string, text: string, kalturaHls: string -> Option<string>)
    requires Dailymotion(text).Some?
    ensures Extract(url, text, kalturaHls) == Some(DAILYMOTION_EMBED + Dailymotion(text).value)
  {
  }

  /** With none of the gates open, only Dailymotion is consulted. */
  lemma UngatedExtractorsDoNotRun(url: string, text: string, kalturaHls: string -> Option<string>)
    requires !Contains(url, "ByPlayer") && !IsKanMediaHost(url) && !Contains(url, "kaltura")
    ensures Extract(url, text, kalturaHls) == DailymotionStage(text)
  {
  }

  /** A Kaltura package that does not decode leaves the result as the earlier stages left it. */
  lemma KalturaFailureIsSwallowed(url: string, text: string, kalturaHls: string -> Option<string>)
    requires Kaltura(text, kalturaHls).None?
    ensures var cs := Candidates(url, text, kalturaHls);
      Extract(url, text, kalturaHls) == Stage(Stage(cs[0], true, cs[1]), true, cs[2])
  {
  }

  /** `dailymotion video:"X"` yields the embed URL of X. */
  lemma DailymotionEmbed(x: string)
    requires '"' !in x
    ensures Dailymotion("dailymotion" + "video:" + "\"" + x + "\"") == Some(x)
  {
    var text := "dailymotion" + "video:" + "\"" + x + "\"";
    assert OccursAt(text, "dailymotion", 0);
    assert Find(text, "dailymotion") == 0;
    assert OccursAt(text, "video:", 11);
    assert text[17] == '"';
    assert SkipSpace(text, 17) == 17;
    var e := FindFrom(text, "\"", 18);
    assert OccursAt(text, "\"", 18 + |x|);
    forall k | 18 <= k < 18 + |x|
      ensures !OccursAt(text, "\"", k)
    {
      assert text[k] == x[k - 18];
    }
    assert e == 18 + |x|;
    assert text[18..e] == x;
    assert MatchAt(text, 11, "video:", Quoted(true, true)) == Some(x);
    SearchFindsLeftmost(text, "video:", Quoted(true, true), 11, 11);
  }

  // ---------------------------------------------------------------------------
  // Protocol preference, content cache, resolution
  // ---------------------------------------------------------------------------

  /** With the http preference, a truthy `https://` result is downgraded; nothing else changes. */
  function ApplyPreference(r: Option<string>, preferHttp: bool): (out: Option<string>)
    ensures Truthy(out) <==> Truthy(r)
    ensures !preferHttp || !Truthy(r) || !StartsWith(r.value, "https://") ==> out == r
    ensures preferHttp && Truthy(out) ==> !StartsWith(out.value, "https://")
    ensures preferHttp && Truthy(r) && StartsWith(r.value, "https://") ==>
      out == Some("http://" + ReplaceAll(r.value[8..], "https://", "http://"))
  {
    if Truthy(r) && preferHttp && StartsWith(r.value, "https://") then
      ReplaceAllLeading(r.value, "https://", "http://");
      var s := ReplaceAll(r.value, "https://", "http://");
      assert s[4] == ':';
      Some(s)
    else r
  }

  /** `_get_cf`: the body of a successful reply, or the empty string. */
  function Fetch(net: map<string, string>, url: string): string {
    if url in net then net[url] else ""
  }

  /**
   * `_get_cached(url, ttl)`: a fresh cached body is returned without a fetch;
   * otherwise the page is fetched and a non-empty body is cached.
   */
  function GetCachedSpec(ttl: int, net: map<string, string>, cache: Cache, url: string, now: int): (res: (string, Cache))
    ensures Lookup(cache, url, ttl, now).Some? ==> res == (Lookup(cache, url, ttl, now).value, cache)
    ensures Lookup(cache, url, ttl, now).None? ==> res.0 == Fetch(net, url)
    ensures Lookup(cache, url, ttl, now).None? ==>
      res.1 == if res.0 != "" then cache[url := Stamp(res.0, now)] else cache
  {
    match Lookup(cache, url, ttl, now)
    case Some(body) => (body, cache)
    case None =>
      var body := Fetch(net, url);
      (body, if body != "" then cache[url := Stamp(body, now)] else cache)
  }

  /** A fetched body is served from the cache while it is fresh, whatever the network then says. */
  lemma FetchedBodyIsReused(ttl: int, net: map<string, string>, net2: map<string, string>,
                            cache: Cache, url: string, t0: int, t1: int)
    requires Lookup(cache, url, ttl, t0).None? && Fetch(net, url) != ""
    requires t1 - t0 < ttl
    ensures var (body, cache1) := GetCachedSpec(ttl, net, cache, url, t0);
      GetCachedSpec(ttl, net2, cache1, url, t1) == (body, cache1)
  {
    StoreThenLookup(cache, url, Fetch(net, url), t0, ttl, t1);
  }

  /**
   * `resolve_url` with the content TTL `contentTtl`: the result, the content
   * cache and the link cache afterwards.
   */
  function ResolveSpec(
    contentTtl: int, net: map<string, string>, kalturaHls: string -> Option<string>,
    cache: Cache, lc: Cache, pageUrl: string, preferHttp: bool, now: int): (res: (Option<string>, Cache, Cache))
  {
    var hit := Lookup(lc, pageUrl, LINK_CACHE_TIME, now);
    if Truthy(hit) then (hit, cache, lc)
    else
      var url := Normalise(pageUrl, preferHttp);
      var fetched := GetCachedSpec(contentTtl, net, cache, url, now);
      var resolved := ApplyPreference(Extract(url, fetched.0, kalturaHls), preferHttp);
      (resolved, fetched.1, if Truthy(resolved) then lc[pageUrl := Stamp(resolved.value, now)] else lc)
  }

  /** A link-cache hit on the page URL answers before any fetch, and the preference plays no part. */
  lemma LinkCacheHitShortCircuits(
    contentTtl: int, net: map<string, string>, kalturaHls: string -> Option<string>,
    cache: Cache, lc: Cache, pageUrl: string, preferHttp: bool, now: int)
    requires Truthy(Lookup(lc, pageUrl, LINK_CACHE_TIME, now))
    ensures ResolveSpec(contentTtl, net, kalturaHls, cache, lc, pageUrl, preferHttp, now)
         == (Lookup(lc, pageUrl, LINK_CACHE_TIME, now), cache, lc)
    ensures ResolveSpec(contentTtl, net, kalturaHls, cache, lc, pageUrl, preferHttp, now)
         == ResolveSpec(contentTtl, map[], kalturaHls, cache, lc, pageUrl, !preferHttp, now)
  {
  }

  /**
   * On a link-cache miss, the link cache changes exactly when the result is
   * truthy, and then only at the original page URL (not the normalised one).
   */
  lemma LinkCachedOnlyOnSuccess(
    contentTtl: int, net: map<string, string>, kalturaHls: string -> Option<string>,
    cache: Cache, lc: Cache, pageUrl: string, preferHttp: bool, now: int)
    requires !Truthy(Lookup(lc, pageUrl, LINK_CACHE_TIME, now))
    ensures var (r, _, lc1) := ResolveSpec(contentTtl, net, kalturaHls, cache, lc, pageUrl, preferHttp, now);
      lc1 == if Truthy(r) then lc[pageUrl := Stamp(r.value, now)] else lc
  {
  }

  /**
   * The link cache is keyed by the page URL alone: a link resolved with the
   * http preference is what a later call without it returns, while fresh.
   */
  lemma PreferenceNotInLinkKey(
    contentTtl: int, net: map<string, string>, kalturaHls: string -> Option<string>,
    cache: Cache, lc: Cache, pageUrl: string, t0: int, t1: int)
    requires !Truthy(Lookup(lc, pageUrl, LINK_CACHE_TIME, t0))
    requires Truthy(ResolveSpec(contentTtl, net, kalturaHls, cache, lc, pageUrl, true, t0).0)
    requires t1 - t0 < LINK_CACHE_TIME
    ensures var (r, cache1, lc1) := ResolveSpec(contentTtl, net, kalturaHls, cache, lc, pageUrl, true, t0);
      ResolveSpec(contentTtl, net, kalturaHls, cache1, lc1, pageUrl, false, t1).0 == r
      && !StartsWith(r.value, "https://")
  {
    var (r, cache1, lc1) := ResolveSpec(contentTtl, net, kalturaHls, cache, lc, pageUrl, true, t0);
    StoreThenLookup(lc, pageUrl, r.value, t0, LINK_CACHE_TIME, t1);
  }

  // ---------------------------------------------------------------------------
  // `_get_cached` as written
  // ---------------------------------------------------------------------------

  /** A Python call that either returns or raises `AttributeError`. */
  datatype Attempt<T> = AttributeError | Returned(value: T)

  /**
   * `_get_cached(url, ttl)` as the source has it: an omitted ttl is read
   * from the class attribute `CACHE_TIME`; `attr` is that attribute, None
   * when the class does not define it.
   */
  function GetCachedAsWritten(ttl: Option<int>, attr: Option<int>, net: map<string, string>,
                              cache: Cache, url: string, now: int): (res: Attempt<(string, Cache)>)
    ensures res.AttributeError? <==> ttl.None? && attr.None?
    ensures ttl.Some? ==> res == Returned(GetCachedSpec(ttl.value, net, cache, url, now))
    ensures ttl.None? && attr.Some? ==> res == Returned(GetCachedSpec(attr.value, net, cache, url, now))
  {
    match ttl
    case Some(t) => Returned(GetCachedSpec(t, net, cache, url, now))
    case None =>
      match attr
      case None => AttributeError
      case Some(t) => Returned(GetCachedSpec(t, net, cache, url, now))
  }

  /** `resolve_url` as the source has it: its `_get_cached(url)` call passes no ttl. */
  function ResolveAsWritten(
    attr: Option<int>, net: map<string, string>, kalturaHls: string -> Option<string>,
    cache: Cache, lc: Cache, pageUrl: string, preferHttp: bool, now: int): Attempt<(Option<string>, Cache, Cache)>
  {
    var hit := Lookup(lc, pageUrl, LINK_CACHE_TIME, now);
    if Truthy(hit) then Returned((hit, cache, lc))
    else
      var url := Normalise(pageUrl, preferHttp);
      match GetCachedAsWritten(None, attr, net, cache, url, now)
      case AttributeError => AttributeError
      case Returned(fetched) =>
        var resolved := ApplyPreference(Extract(url, fetched.0, kalturaHls), preferHttp);
        Returned((resolved, fetched.1, if Truthy(resolved) then lc[pageUrl := Stamp(resolved.value, now)] else lc))
  }

  /**
   * Kan defines no `CACHE_TIME`, so as written every link-cache miss raises
   * before anything is fetched and only link-cache hits return.
   */
  lemma AsWrittenMissRaises(
    net: map<string, string>, kalturaHls: string -> Option<string>,
    cache: Cache, lc: Cache, pageUrl: string, preferHttp: bool, now: int)
    ensures ResolveAsWritten(None, net, kalturaHls, cache, lc, pageUrl, preferHttp, now).AttributeError?
        <==> !Truthy(Lookup(lc, pageUrl, LINK_CACHE_TIME, now))
  {
  }

  /** With the attribute defined, the code as written is the corrected resolution with that TTL. */
  lemma DefinedAttributeIsCorrected(
    t: int, net: map<string, string>, kalturaHls: string -> Option<string>,
    cache: Cache, lc: Cache, pageUrl: string, preferHttp: bool, now: int)
    ensures ResolveAsWritten(Some(t), net, kalturaHls, cache, lc, pageUrl, preferHttp, now)
         == Returned(ResolveSpec(t, net, kalturaHls, cache, lc, pageUrl, preferHttp, now))
  {
  }

  // ---------------------------------------------------------------------------
  // Static channels
  // ---------------------------------------------------------------------------

  /** `get_channels`: the three live channels, whose URLs are already playable. */
  function KanChannels(): (cs: seq<Channel>)
    ensures |cs| == 3
    ensures forall c :: c in cs ==> StartsWith(c.url, "https://") && c.provider == NAME
  {
    [ Channel("kan11", "כאן 11",
              "https://" + "kan11.media.kan.org.il" + "/hls/live/2024514/2024514/master.m3u8",
              "https://www.kan.org.il/images/logo_kan.jpg", NAME, ""),
      Channel("makan", "מכאן",
              "https://" + "makan.media.kan.org.il" + "/hls/live/2024680/2024680/master.m3u8",
              "https://www.kan.org.il/images/logo_makan.jpg", NAME, ""),
      Channel("kan_educational", "כאן חינוכית",
              "https://" + "kan23.media.kan.org.il" + "/hls/live/2024691/2024691/master.m3u8",
              "https://www.kan.org.il/media/1749/23tv.jpg", NAME, "") ]
  }

  /** An `https://` URL is never a `kan://` reference. */
  lemma HttpsIsNotKanReference(url: string)
    requires StartsWith(url, "https://")
    ensures !StartsWith(url, SchemeOf(NAME))
  {
    assert url[0] == 'h';
  }

  /**
   * The channel part of Kan's playlist never calls `resolve_url`: every
   * channel is written as it is, in order, and the resolver state is untouched.
   */
  lemma ChannelPlaylistNeedsNoResolving<S>(
    resolve: (S, string) -> (Option<string>, S), headersOf: string -> map<string, string>, s: S)
    ensures Entries(NAME, KanChannels(), resolve, headersOf, s) == (PlainEntries(NAME, KanChannels(), headersOf), s)
  {
    var cs := KanChannels();
    forall i | 0 <= i < |cs|
      ensures !StartsWith(cs[i].url, SchemeOf(NAME))
    {
      assert cs[i] in cs;
      HttpsIsNotKanReference(cs[i].url);
    }
    EntriesWithoutReferences(NAME, cs, resolve, headersOf, s);
  }

  // ---------------------------------------------------------------------------
  // The provider object
  // ---------------------------------------------------------------------------

  class KanProvider {
    /** The state inherited from the base provider: its name and its two caches. */
    const base: Provider
    /** How long fetched page bodies stay fresh; the source leaves this undefined. */
    const contentTtl: int

    constructor (contentTtl: int)
      ensures fresh(base) && base.name == NAME && base.cache == map[] && base.linkCache == map[]
      ensures this.contentTtl == contentTtl
    {
      base := new Provider(NAME);
      this.contentTtl := contentTtl;
    }

    /** `_get_cached(url)` with the content TTL: reads and writes the content cache only. */
    method GetCached(url: string, net: map<string, string>, now: int) returns (body: string)
      modifies base
      ensures (body, base.cache) == GetCachedSpec(contentTtl, net, old(base.cache), url, now)
      ensures base.linkCache == old(base.linkCache)
    {
      var cached := base.GetFromCache(url, Some(contentTtl), now);
      if cached.Some? {
        return cached.value;
      }
      body := Fetch(net, url);
      if body != "" {
        base.SetCache(url, body, now);
      }
    }

    /** `resolve_url`, step by step as the source reassigns `url` and `resolved`. */
    method ResolveUrl(pageUrl: string, preferHttp: bool, net: map<string, string>,
                      kalturaHls: string -> Option<string>, now: int) returns (resolved: Option<string>)
      modifies base
      ensures (resolved, base.cache, base.linkCache)
           == ResolveSpec(contentTtl, net, kalturaHls, old(base.cache), old(base.linkCache), pageUrl, preferHttp, now)
    {
      var cachedUrl := base.GetFromLinkCache(pageUrl, now);
      if Truthy(cachedUrl) {
        return cachedUrl;
      }

      var url := if preferHttp then ReplaceAll(pageUrl, "https", "http") else pageUrl;
      var i := RFind(url, "http://");
      if i > 0 {
        url := url[i..];
      }
      url := ReplaceAll(url, "HLS/HLS", "HLS");
      assert url == Normalise(pageUrl, preferHttp);

      var text := GetCached(url, net, now);
      resolved := RunExtractors(url, text, kalturaHls);

      if Truthy(resolved) && preferHttp && StartsWith(resolved.value, "https://") {
        resolved := Some(ReplaceAll(resolved.value, "https://", "http://"));
      }
      if Truthy(resolved) {
        base.SetLinkCache(pageUrl, resolved.value, now);
      }
    }

    /** The four extractors in the order of `resolve_url`, each only while nothing truthy was found. */
    method RunExtractors(url: string, text: string, kalturaHls: string -> Option<string>)
      returns (resolved: Option<string>)
      ensures resolved == Extract(url, text, kalturaHls)
    {
      resolved := None;
      var m := Dailymotion(text);
      if m.Some? {
        resolved := Some(DAILYMOTION_EMBED + m.value);
      }
      if !Truthy(resolved) && Contains(url, "ByPlayer") {
        var b := Bynet(text);
        if b.Some? {
          resolved := b;
        }
      }
      if !Truthy(resolved) && IsKanMediaHost(url) {
        var h := DirectHls(text);
        if h.Some? {
          resolved := h;
        }
      }
      if !Truthy(resolved) && Contains(url, "kaltura") {
        var k := Kaltura(text, kalturaHls);
        if k.Some? {
          resolved := k;
        }
      }
    }
  }
}
