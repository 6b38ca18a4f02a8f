/**
 * The Keshet (Mako) resolver. A VOD page URL is turned into its parameters
 * document, whose two ids name a playlist of media items; a candidate stream
 * URL is picked for a CDN, a ticket for it is obtained from the entitlement
 * service (logging in and retrying once when the service asks for it), and
 * the ticket is appended to the candidate after the protocol preference is
 * applied. AKAMAI is tried first and AWS only when AKAMAI gives nothing.
 * Successful results are cached under the page URL and the preference.
 *
 * The module-level state of the source (the `_link_cache` dictionary and the
 * credentials read from the environment) is the class `KeshetModule`. Every
 * reply of the network is an entry of the maps in `Network`; a URL missing
 * from its map is a failed request. The `urllib.parse` helpers and the
 * random device id are the fields of `Env`. Each specification function
 * returns, besides its result, the URLs it requests in order.
 */
module Keshet {
  import opened Wrappers
  import opened PyStr
  import BaseProvider

  const MAKO_BASE_URL: string := "https://www.mako.co.il"
  const MAKO_ENDINGS: string := "platform=responsive"
  const MAKO_ENTITLEMENTS_SERVICES: string :=
    "https://mass.mako.co.il" + "/ClicksStatistics" + "/entitlementsServicesV2.jsp"
  /** The fixed `da` value of every entitlement request. */
  const DA: string := "6gkr2ks9-4610-392g" + "-f4s8-d743gg4623k2"

  /** The module's own user agent, the same text as the base provider's. */
  const USER_AGENT: string := BaseProvider.USER_AGENT
  /** Time to live of the content cache, which no modelled operation reads. */
  const CACHE_TIME: int := 60 * 60 * 4
  /** Time to live of a link-cache entry. */
  const LINK_CACHE_TIME: int := 60 * 60

  // ---------------------------------------------------------------------------
  // The environment and the network
  // ---------------------------------------------------------------------------

  /**
   * What the code takes from outside: the credentials `MAKO_USERNAME` and
   * `MAKO_PASSWORD` (empty when unset), the device id generated for a ticket
   * request for a stream URL and CDN, `unquote_plus`, `quote_plus`, and the
   * first value `parse_qs` gives a key (empty when it gives none).
   */
  datatype Env = Env(
    username: string,
    password: string,
    deviceId: (string, string) -> string,
    unquotePlus: string -> string,
    quotePlus: string -> string,
    queryValue: (string, string) -> string)

  /** A media item of the playlist reply: its `cdn` and `url` keys, either of which may be absent. */
  datatype MediaItem = MediaItem(cdn: Option<string>, url: Option<string>)

  /** The `vod` object of a parameters document, with its two ids when present. */
  datatype VodRef = VodRef(channelId: Option<string>, itemVcmId: Option<string>)

  /** A parameters document: whether it has no keys, and its `vod` object when present. */
  datatype PageDoc = PageDoc(isEmpty: bool, vod: Option<VodRef>)

  /** The reply to a parameters request: not JSON, or a document with or without a `root` key. */
  datatype PageReply = PageNotJson | PageJson(doc: PageDoc, root: Option<PageDoc>)

  /** The reply to a playlist request: not JSON, no `media` key, or the media items. */
  datatype MediaReply = MediaNotJson | NoMedia | Media(items: seq<MediaItem>)

  /** The reply of the entitlement service: not JSON, or its `caseId` and `tickets[0].ticket` when present. */
  datatype TicketReply = TicketNotJson | TicketJson(caseId: Option<string>, ticket: Option<string>)

  /**
   * The replies of every successful request. The entitlement service is
   * asked the same URL before and after a login, so it has two maps.
   */
  datatype Network = Network(
    pages: map<string, PageReply>,
    playlists: map<string, MediaReply>,
    tickets: map<string, TicketReply>,
    ticketsAfterLogin: map<string, TicketReply>)

  /** What a call that may raise gives its caller. */
  datatype Outcome = Raised | Returned(link: Option<string>)

  // ---------------------------------------------------------------------------
  // Tickets
  // ---------------------------------------------------------------------------

  /** The ticket request: with credentials it identifies the device, without them it is anonymous. */
  function TicketUrl(username: string, device: string, cdn: string, streamUrl: string): (u: string)
    ensures username != "" ==> StartsWith(u, MAKO_ENTITLEMENTS_SERVICES + "?et=gt&na=2.0&da=")
    ensures username == "" ==> StartsWith(u, MAKO_ENTITLEMENTS_SERVICES + "?et=gt&lp=")
  {
    if username != "" then
      ConcatAssoc(MAKO_ENTITLEMENTS_SERVICES + "?et=gt&na=2.0&da=",
                  DA + "&du=" + device + "&dv=&rv=" + cdn, "&lp=" + streamUrl);
      MAKO_ENTITLEMENTS_SERVICES + "?et=gt&na=2.0&da=" + (DA + "&du=" + device + "&dv=&rv=" + cdn + "&lp=" + streamUrl)
    else
      MAKO_ENTITLEMENTS_SERVICES + "?et=gt&lp=" + (streamUrl + "&rv=" + cdn)
  }

  /** The login request of `_mako_login`. */
  function LoginUrl(env: Env, device: string): string {
    MAKO_ENTITLEMENTS_SERVICES + "?eu=" + env.quotePlus(env.username) + "&da=" + DA
    + "&dwp=" + env.quotePlus(env.password) + "&et=ln&du=" + device
  }

  /** The session validation request of `_mako_login`. */
  function ValidateUrl(device: string): string {
    MAKO_ENTITLEMENTS_SERVICES + "?da=" + DA + "&et=gds&du=" + device
  }

  /** A reply that grants a ticket: caseId `1` and a first ticket, which is returned unquoted. */
  function Granted(env: Env, replies: map<string, TicketReply>, url: string): (t: Option<string>)
    ensures t.Some? <==> url in replies && replies[url].TicketJson?
                         && replies[url].caseId == Some("1") && replies[url].ticket.Some?
  {
    if url in replies && replies[url].TicketJson? && replies[url].caseId == Some("1") && replies[url].ticket.Some?
    then Some(env.unquotePlus(replies[url].ticket.value))
    else None
  }

  /** The service asks for a login (caseId `4`) and the module has a user name. */
  predicate NeedsLogin(env: Env, replies: map<string, TicketReply>, url: string) {
    env.username != "" && url in replies && replies[url].TicketJson? && replies[url].caseId == Some("4")
  }

  /** `_get_ticket(stream_url, cdn)`: the ticket, and the requests made. */
  function GetTicket(env: Env, net: Network, streamUrl: string, cdn: string): (r: (Option<string>, seq<string>))
    ensures var device := env.deviceId(streamUrl, cdn);
      var url := TicketUrl(env.username, device, cdn, streamUrl);
      |r.1| >= 1 && r.1[0] == url
      && (NeedsLogin(env, net.tickets, url) ==>
            r == (Granted(env, net.ticketsAfterLogin, url), [url, LoginUrl(env, device), ValidateUrl(device), url]))
      && (!NeedsLogin(env, net.tickets, url) ==> r == (Granted(env, net.tickets, url), [url]))
  {
    var device := env.deviceId(streamUrl, cdn);
    var url := TicketUrl(env.username, device, cdn, streamUrl);
    if url !in net.tickets then (None, [url])
    else match net.tickets[url]
      case TicketNotJson => (None, [url])
      case TicketJson(caseId, ticket) =>
        if caseId == Some("1") then
          (if ticket.Some? then Some(env.unquotePlus(ticket.value)) else None, [url])
        else if caseId == Some("4") && env.username != "" then
          (Granted(env, net.ticketsAfterLogin, url), [url, LoginUrl(env, device), ValidateUrl(device), url])
        else (None, [url])
  }

  /**
   * A ticket comes only from a reply with caseId `1`; the login is sent at
   * most once and is followed by exactly one retry of the same request, and
   * an anonymous module never logs in.
   */
  lemma TicketNeedsCaseOne(env: Env, net: Network, streamUrl: string, cdn: string)
    ensures var device := env.deviceId(streamUrl, cdn);
      var url := TicketUrl(env.username, device, cdn, streamUrl);
      var (t, log) := GetTicket(env, net, streamUrl, cdn);
      (t.Some? ==> Granted(env, net.tickets, url).Some? || (|log| == 4 && Granted(env, net.ticketsAfterLogin, url).Some?))
      && (|log| == 1 || |log| == 4)
      && (|log| == 4 ==> env.username != "" && log[1] == LoginUrl(env, device) && log[3] == url)
      && (env.username == "" ==> |log| == 1)
  {
  }

  // ---------------------------------------------------------------------------
  // Candidate selection and link composition
  // ---------------------------------------------------------------------------

  /** The result of the loop of `_get_link`: a missing key raised, or the chosen URL (empty when none). */
  datatype Scan = KeyError | Candidate(url: string)

  /** The AKAMAI candidate loses its query string when its first `?` is past the start. */
  function StripQuery(url: string): (r: string)
    ensures Find(url, "?") > 0 ==> r == url[..Find(url, "?")] && !Contains(r, "?")
    ensures Find(url, "?") <= 0 ==> r == url
    ensures StartsWith(url, r)
  {
    var pos := Find(url, "?");
    if pos > 0 then
      PrefixBeforeFirst(url, "?");
      url[..pos]
    else url
  }

  /** The text before the first occurrence of `p` does not contain `p`. */
  lemma PrefixBeforeFirst(s: string, p: string)
    requires p != "" && Find(s, p) >= 0
    ensures !Contains(s[..Find(s, p)], p)
  {
    var pos := Find(s, p);
    var r := s[..pos];
    forall k | 0 <= k
      ensures !OccursAt(r, p, k)
    {
      if k + |p| <= |r| {
        assert r[k..k + |p|] == s[k..k + |p|];
        assert k < pos;
        assert !OccursAt(s, p, k);
      }
    }
  }

  /** The URL the loop settles on for a matching item. */
  function CandidateUrl(u: string, key: string): string {
    if key == "AKAMAI" then StripQuery(u) else u
  }

  /** The loop over `media` for the upper-cased CDN name `key`, item by item. */
  function CandidateOf(media: seq<MediaItem>, key: string): Scan
    decreases |media|
  {
    if media == [] then Candidate("")
    else match media[0].cdn
      case None => KeyError
      case Some(c) =>
        if c == key then
          match media[0].url
          case None => KeyError
          case Some(u) => Candidate(CandidateUrl(u, key))
        else CandidateOf(media[1..], key)
  }

  /** Every item before index `i` names a CDN, and not this one. */
  predicate OthersBefore(media: seq<MediaItem>, key: string, i: nat)
    requires i <= |media|
  {
    forall j :: 0 <= j < i ==> media[j].cdn.Some? && media[j].cdn.value != key
  }

  /** The loop stops at the first item for the CDN and takes its URL. */
  lemma {:induction false} CandidateIsFirstMatch(media: seq<MediaItem>, key: string, i: nat)
    requires i < |media| && OthersBefore(media, key, i) && media[i].cdn == Some(key)
    ensures CandidateOf(media, key)
         == if media[i].url.Some? then Candidate(CandidateUrl(media[i].url.value, key)) else KeyError
  {
    if i > 0 {
      assert media[0].cdn.Some? && media[0].cdn.value != key;
      assert OthersBefore(media[1..], key, i - 1) by {
        forall j | 0 <= j < i - 1
          ensures media[1..][j].cdn.Some? && media[1..][j].cdn.value != key
        {
          assert media[1..][j] == media[j + 1];
        }
      }
      CandidateIsFirstMatch(media[1..], key, i - 1);
    }
  }

  /** With no item for the CDN, and none without a `cdn` key, the loop finds nothing and raises nothing. */
  lemma {:induction false} NoMatchingItem(media: seq<MediaItem>, key: string)
    requires OthersBefore(media, key, |media|)
    ensures CandidateOf(media, key) == Candidate("")
  {
    if media != [] {
      assert media[0].cdn.Some? && media[0].cdn.value != key;
      assert OthersBefore(media[1..], key, |media| - 1) by {
        forall j | 0 <= j < |media| - 1
          ensures media[1..][j].cdn.Some? && media[1..][j].cdn.value != key
        {
          assert media[1..][j] == media[j + 1];
        }
      }
      NoMatchingItem(media[1..], key);
    }
  }

  /** The protocol rule: `//` gets the preferred scheme, `https://` is downgraded only when http is preferred. */
  function ApplyScheme(url: string, preferHttp: bool): (r: string)
    ensures StartsWith(url, "//") ==> r == (if preferHttp then "http:" else "https:") + url
    ensures !StartsWith(url, "//") && preferHttp && StartsWith(url, "https://") ==>
      r == "http://" + ReplaceAll(url[8..], "https://", "http://")
    ensures !StartsWith(url, "//") && !(preferHttp && StartsWith(url, "https://")) ==> r == url
  {
    if StartsWith(url, "//") then (if preferHttp then "http:" else "https:") + url
    else if StartsWith(url, "https://") && preferHttp then
      ReplaceAllLeading(url, "https://", "http://");
      ReplaceAll(url, "https://", "http://")
    else url
  }

  /** With the http preference the link never starts with `https://`; without it nothing is downgraded. */
  lemma SchemeFollowsPreference(url: string, preferHttp: bool)
    ensures preferHttp ==> !StartsWith(ApplyScheme(url, preferHttp), "https://")
    ensures !preferHttp ==> ApplyScheme(url, preferHttp) == url
                            || ApplyScheme(url, preferHttp) == "https:" + url
  {
    var r := ApplyScheme(url, preferHttp);
    if preferHttp {
      if StartsWith(url, "//") {
        assert r[4] == ':';
      } else if StartsWith(url, "https://") {
        assert r[4] == ':';
      } else {
        assert r == url;
      }
    }
  }

  /** The ticket joins the URL with `&` when it already has a query string, with `?` otherwise. */
  function JoinTicket(url: string, ticket: string): (r: string)
    ensures StartsWith(r, url) && EndsWith(r, ticket) && |r| == |url| + 1 + |ticket|
    ensures r[|url|] == if Contains(url, "?") then '&' else '?'
  {
    if Contains(url, "?") then url + "&" + ticket else url + "?" + ticket
  }

  /** A URL without `?` and its ticket are recovered by splitting the link at its first `?`. */
  lemma JoinTicketSplits(url: string, ticket: string)
    requires !Contains(url, "?")
    ensures var r := JoinTicket(url, ticket);
      Find(r, "?") == |url| && r[..Find(r, "?")] == url && r[Find(r, "?") + 1..] == ticket
  {
    var r := JoinTicket(url, ticket);
    assert r == url + "?" + ticket;
    assert OccursAt(r, "?", |url|);
    forall k | 0 <= k < |url|
      ensures !OccursAt(r, "?", k)
    {
      if OccursAt(r, "?", k) {
        assert url[k..k + 1] == r[k..k + 1];
        assert OccursAt(url, "?", k);
        assert false;
      }
    }
    assert r[..|url|] == url;
    assert r[|url| + 1..] == ticket;
  }

  /**
   * `_get_link(media, cdn, prefer_http)`: a missing key raises; no candidate
   * or no ticket gives None; otherwise the ticket is requested for the
   * candidate as chosen and appended to it after the scheme rule.
   */
  function LinkFor(env: Env, net: Network, media: seq<MediaItem>, cdn: string, preferHttp: bool): (r: (Outcome, seq<string>))
    ensures CandidateOf(media, Upper(cdn)) == KeyError ==> r == (Raised, [])
    ensures CandidateOf(media, Upper(cdn)) == Candidate("") ==> r == (Returned(None), [])
    ensures r.0.Returned? && r.0.link.Some? ==>
      var url := CandidateOf(media, Upper(cdn)).url;
      var ticket := GetTicket(env, net, url, cdn);
      url != "" && Truthy(ticket.0) && r == (Returned(Some(JoinTicket(ApplyScheme(url, preferHttp), ticket.0.value))), ticket.1)
    ensures CandidateOf(media, Upper(cdn)).Candidate? && CandidateOf(media, Upper(cdn)).url != "" ==>
      var url := CandidateOf(media, Upper(cdn)).url;
      var ticket := GetTicket(env, net, url, cdn);
      r == (if Truthy(ticket.0) then Returned(Some(JoinTicket(ApplyScheme(url, preferHttp), ticket.0.value)))
            else Returned(None), ticket.1)
  {
    match CandidateOf(media, Upper(cdn))
    case KeyError => (Raised, [])
    case Candidate(url) =>
      if url == "" then (Returned(None), [])
      else
        var (ticket, log) := GetTicket(env, net, url, cdn);
        if !Truthy(ticket) then (Returned(None), log)
        else (Returned(Some(JoinTicket(ApplyScheme(url, preferHttp), ticket.value))), log)
  }

  /** A link never comes back empty: `play` treats None and a returned link as the only cases. */
  lemma LinkIsNonEmpty(env: Env, net: Network, media: seq<MediaItem>, cdn: string, preferHttp: bool)
    ensures var (o, _) := LinkFor(env, net, media, cdn, preferHttp);
      o.Returned? && o.link.Some? ==> o.link.value != ""
  {
    var (o, _) := LinkFor(env, net, media, cdn, preferHttp);
    if o.Returned? && o.link.Some? {
      var url := CandidateOf(media, Upper(cdn)).url;
      var ticket := GetTicket(env, net, url, cdn);
      assert o.link.value == JoinTicket(ApplyScheme(url, preferHttp), ticket.0.value);
    }
  }

  // ---------------------------------------------------------------------------
  // play
  // ---------------------------------------------------------------------------

  /** The marker between the two ids, and what follows the start marker. */
  const CHANNEL_MARKER: string := "&videoChannelId="

  /** The id fallback when the query parse gives nothing: the text between the markers. */
  function FallbackVcmid(s: string): string {
    Slice(s, Find(s, "vcmid=") + 6, Find(s, CHANNEL_MARKER))
  }

  /** The channel-id fallback: everything after `&videoChannelId=`. */
  function FallbackChannelId(s: string): string {
    SliceFrom(s, Find(s, CHANNEL_MARKER) + 16)
  }

  /** The two ids `play` reads from its parameter string. */
  function ExtractIds(env: Env, s: string): (ids: (string, string))
    ensures env.queryValue(s, "vcmid") != "" ==> ids.0 == env.queryValue(s, "vcmid")
    ensures env.queryValue(s, "videoChannelId") != "" ==> ids.1 == env.queryValue(s, "videoChannelId")
  {
    var v0 := env.queryValue(s, "vcmid");
    var v := if v0 == "" && Contains(s, "vcmid=") then FallbackVcmid(s) else v0;
    var c0 := env.queryValue(s, "videoChannelId");
    var c := if c0 == "" && Contains(s, "videoChannelId=") then FallbackChannelId(s) else c0;
    (v, c)
  }

  /** The parameter string `play_item` hands to `play`. */
  function UrlParams(vcmid: string, channelId: string): string {
    "vcmid=" + vcmid + CHANNEL_MARKER + channelId
  }

  /** Where the markers sit in a parameter string built from an id without `&`. */
  lemma MarkersOfUrlParams(v: string, c: string)
    requires '&' !in v
    ensures var s := UrlParams(v, c);
      Find(s, "vcmid=") == 0 && Find(s, CHANNEL_MARKER) == 6 + |v| && Contains(s, "videoChannelId=")
  {
    var s := UrlParams(v, c);
    assert s[..6] == "vcmid=";
    assert OccursAt(s, "vcmid=", 0);
    assert s[6 + |v|..6 + |v| + 16] == CHANNEL_MARKER;
    assert OccursAt(s, CHANNEL_MARKER, 6 + |v|);
    forall k | 0 <= k < 6 + |v|
      ensures !OccursAt(s, CHANNEL_MARKER, k)
    {
      if k < 6 {
        assert s[k] != '&';
      } else {
        assert s[k] == v[k - 6];
      }
    }
    assert s[7 + |v|..7 + |v| + 15] == "videoChannelId=";
    assert OccursAt(s, "videoChannelId=", 7 + |v|);
  }

  /**
   * When the query parse yields nothing, the substring fallback reads back
   * exactly the ids `play_item` put into the parameter string.
   */
  lemma FallbackRoundTrip(env: Env, v: string, c: string)
    requires '&' !in v
    requires env.queryValue(UrlParams(v, c), "vcmid") == ""
    requires env.queryValue(UrlParams(v, c), "videoChannelId") == ""
    ensures ExtractIds(env, UrlParams(v, c)) == (v, c)
  {
    var s := UrlParams(v, c);
    MarkersOfUrlParams(v, c);
    assert Contains(s, "vcmid=");
    assert s[6..6 + |v|] == v;
    assert s[6 + |v| + 16..] == c;
  }

  /** The playlist request for the two ids. */
  function AjaxUrl(vcmid: string, channelId: string): string {
    MAKO_BASE_URL + "/AjaxPage?jspName=playlist.jsp" + "&vcmid=" + vcmid + CHANNEL_MARKER + channelId
    + "&galleryChannelId=" + vcmid + "&isGallery=false" + "&consumer=web_html5&encryption=no"
  }

  /** AKAMAI first; AWS only when AKAMAI returns None; a raise in either gives None. */
  function CdnFallback(env: Env, net: Network, media: seq<MediaItem>, preferHttp: bool): (r: (Option<string>, seq<string>))
  {
    var (a, logA) := LinkFor(env, net, media, "AKAMAI", preferHttp);
    match a
    case Raised => (None, logA)
    case Returned(Some(link)) => (Some(link), logA)
    case Returned(None) =>
      var (b, logB) := LinkFor(env, net, media, "AWS", preferHttp);
      match b
      case Raised => (None, logA + logB)
      case Returned(link) => (link, logA + logB)
  }

  /** `play(url_params, prefer_http)`: the link, and the requests made. */
  function PlayResult(env: Env, net: Network, urlParams: string, preferHttp: bool): (r: (Option<string>, seq<string>))
    ensures var (v, c) := ExtractIds(env, urlParams);
      (v == "" || c == "" ==> r == (None, []))
      && (v != "" && c != "" ==> |r.1| >= 1 && r.1[0] == AjaxUrl(v, c))
  {
    var (v, c) := ExtractIds(env, urlParams);
    if v == "" || c == "" then (None, [])
    else
      var ajax := AjaxUrl(v, c);
      if ajax !in net.playlists then (None, [ajax])
      else match net.playlists[ajax]
        case MediaNotJson => (None, [ajax])
        case NoMedia => (None, [ajax])
        case Media(items) =>
          var (link, log) := CdnFallback(env, net, items, preferHttp);
          (link, [ajax] + log)
  }

  /** The upper-case CDN names are their own upper-case forms. */
  lemma CdnNames()
    ensures Upper("AKAMAI") == "AKAMAI" && Upper("AWS") == "AWS"
  {
    UpperIdentity("AKAMAI");
    UpperIdentity("AWS");
  }

  /**
   * The CDN order: a link from AKAMAI is final and AWS is never asked;
   * otherwise the result is AWS's, unless AKAMAI raised.
   */
  lemma AkamaiBeforeAws(env: Env, net: Network, media: seq<MediaItem>, preferHttp: bool)
    ensures var (a, logA) := LinkFor(env, net, media, "AKAMAI", preferHttp);
      var (b, logB) := LinkFor(env, net, media, "AWS", preferHttp);
      var (r, log) := CdnFallback(env, net, media, preferHttp);
      (a.Returned? && a.link.Some? ==> r == a.link && log == logA)
      && (a == Returned(None) ==> log == logA + logB && (r.Some? <==> b.Returned? && b.link.Some?))
      && (a == Returned(None) && b.Returned? ==> r == b.link)
      && (a.Raised? ==> r.None?)
  {
  }

  /** A granted ticket for a non-empty AKAMAI candidate is used: `play` returns that candidate with the ticket joined. */
  lemma GrantedAkamaiIsUsed(env: Env, net: Network, media: seq<MediaItem>, preferHttp: bool, u: string)
    requires CandidateOf(media, "AKAMAI") == Candidate(u) && u != ""
    requires Truthy(GetTicket(env, net, u, "AKAMAI").0)
    ensures CdnFallback(env, net, media, preferHttp).0
         == Some(JoinTicket(ApplyScheme(u, preferHttp), GetTicket(env, net, u, "AKAMAI").0.value))
  {
    CdnNames();
  }

  /** An AKAMAI link is a ticketed AKAMAI candidate, stripped of its own query string. */
  lemma AkamaiLinkIsStripped(env: Env, net: Network, media: seq<MediaItem>, preferHttp: bool, i: nat)
    requires i < |media| && OthersBefore(media, "AKAMAI", i) && media[i].cdn == Some("AKAMAI")
    requires media[i].url.Some?
    ensures CandidateOf(media, Upper("AKAMAI")) == Candidate(StripQuery(media[i].url.value))
  {
    CdnNames();
    CandidateIsFirstMatch(media, "AKAMAI", i);
  }

  // ---------------------------------------------------------------------------
  // play_item
  // ---------------------------------------------------------------------------

  /** The link-cache key: the page URL and the preference. */
  function CacheKey(url: string, preferHttp: bool): (k: string)
    ensures StartsWith(k, url)
  {
    url + (if preferHttp then "_http" else "_https")
  }

  /** The two preferences never share a cache entry. */
  lemma CacheKeysDiffer(url: string)
    ensures CacheKey(url, true) != CacheKey(url, false)
  {
    assert |CacheKey(url, true)| != |CacheKey(url, false)|;
  }

  /** The parameters request: the page URL with `platform=responsive` joined by `?` or `&`. */
  function ParamsUrl(url: string): (r: string)
    ensures StartsWith(r, url) && EndsWith(r, MAKO_ENDINGS) && |r| == |url| + 1 + |MAKO_ENDINGS|
    ensures r[|url|] == if Contains(url, "?") then '&' else '?'
  {
    if Contains(url, "?") then url + "&" + MAKO_ENDINGS else url + "?" + MAKO_ENDINGS
  }

  /** `_get_json`: a failed request or a reply that is not JSON gives None; a `root` key is unwrapped. */
  function GetJson(net: Network, url: string): (r: Option<PageDoc>)
    ensures url !in net.pages || net.pages[url].PageNotJson? ==> r.None?
    ensures url in net.pages && net.pages[url].PageJson? ==>
      r == Some(net.pages[url].root.GetOr(net.pages[url].doc))
  {
    if url !in net.pages then None
    else match net.pages[url]
      case PageNotJson => None
      case PageJson(doc, root) =>
        match root
        case Some(inner) => Some(inner)
        case None => Some(doc)
  }

  /** The ids of a parameters document, when it has both. */
  function VodIds(doc: Option<PageDoc>): (r: Option<(string, string)>)
    ensures r.Some? <==> doc.Some? && !doc.value.isEmpty && doc.value.vod.Some?
                         && doc.value.vod.value.itemVcmId.Some? && doc.value.vod.value.channelId.Some?
    ensures r.Some? ==> r.value == (doc.value.vod.value.itemVcmId.value, doc.value.vod.value.channelId.value)
  {
    if doc.None? || doc.value.isEmpty then None
    else match doc.value.vod
      case None => None
      case Some(ref) =>
        if ref.itemVcmId.Some? && ref.channelId.Some? then Some((ref.itemVcmId.value, ref.channelId.value)) else None
  }

  /** `play_item(url, prefer_http)`: the link, the link cache afterwards, and the requests made. */
  function PlayItemResult(env: Env, net: Network, lc: BaseProvider.Cache, url: string, preferHttp: bool, now: int)
    : (res: (Option<string>, BaseProvider.Cache, seq<string>))
  {
    var key := CacheKey(url, preferHttp);
    var hit := BaseProvider.Lookup(lc, key, LINK_CACHE_TIME, now);
    if hit.Some? then (hit, lc, [])
    else
      var pu := ParamsUrl(url);
      match VodIds(GetJson(net, pu))
      case None => (None, lc, [pu])
      case Some((vcmid, channelId)) =>
        var (r, log) := PlayResult(env, net, UrlParams(vcmid, channelId), preferHttp);
        (r, if Truthy(r) then lc[key := BaseProvider.Stamp(r.value, now)] else lc, [pu] + log)
  }

  /** A fresh entry for the page and preference answers at once, with no request. */
  lemma CacheHitShortCircuits(env: Env, net: Network, lc: BaseProvider.Cache, url: string, preferHttp: bool, now: int)
    requires BaseProvider.Lookup(lc, CacheKey(url, preferHttp), LINK_CACHE_TIME, now).Some?
    ensures PlayItemResult(env, net, lc, url, preferHttp, now)
         == (BaseProvider.Lookup(lc, CacheKey(url, preferHttp), LINK_CACHE_TIME, now), lc, [])
  {
  }

  /**
   * On a miss the parameters page is requested first; the cache changes
   * exactly when the result is truthy, and then only under this page's key.
   */
  lemma CachedOnlyOnSuccess(env: Env, net: Network, lc: BaseProvider.Cache, url: string, preferHttp: bool, now: int)
    requires BaseProvider.Lookup(lc, CacheKey(url, preferHttp), LINK_CACHE_TIME, now).None?
    ensures var (r, lc1, log) := PlayItemResult(env, net, lc, url, preferHttp, now);
      lc1 == (if Truthy(r) then lc[CacheKey(url, preferHttp) := BaseProvider.Stamp(r.value, now)] else lc)
      && |log| >= 1 && log[0] == ParamsUrl(url)
  {
  }

  /**
   * A link resolved with one preference is served again within the hour
   * without any request, and is never served for the other preference.
   */
  lemma RepeatWithinTtl(env: Env, net: Network, net2: Network, lc: BaseProvider.Cache,
                        url: string, preferHttp: bool, t0: int, t1: int)
    requires BaseProvider.Lookup(lc, CacheKey(url, preferHttp), LINK_CACHE_TIME, t0).None?
    requires Truthy(PlayItemResult(env, net, lc, url, preferHttp, t0).0)
    requires t1 - t0 < LINK_CACHE_TIME
    ensures var (r, lc1, _) := PlayItemResult(env, net, lc, url, preferHttp, t0);
      PlayItemResult(env, net2, lc1, url, preferHttp, t1) == (r, lc1, [])
      && BaseProvider.Lookup(lc1, CacheKey(url, !preferHttp), LINK_CACHE_TIME, t1)
         == BaseProvider.Lookup(lc, CacheKey(url, !preferHttp), LINK_CACHE_TIME, t1)
  {
    var (r, lc1, _) := PlayItemResult(env, net, lc, url, preferHttp, t0);
    BaseProvider.StoreThenLookup(lc, CacheKey(url, preferHttp), r.value, t0, LINK_CACHE_TIME, t1);
    CacheKeysDiffer(url);
    BaseProvider.StoreKeepsOtherKeys(lc, CacheKey(url, preferHttp), r.value, t0,
                                     CacheKey(url, !preferHttp), LINK_CACHE_TIME, t1);
  }

  // ---------------------------------------------------------------------------
  // M3U8 output
  // ---------------------------------------------------------------------------

  /** One ` key="value"` attribute, present only for a non-empty value. */
  function TvgAttribute(key: string, value: string): (a: string)
    ensures value == "" <==> a == ""
    ensures value != "" ==> a == " " + key + "=\"" + value + "\""
  {
    if value != "" then " " + key + "=\"" + value + "\"" else ""
  }

  /** The entry of `resolve_channel_to_m3u8` for a resolved stream URL. */
  function ChannelEntry(name: string, id: string, logo: string, stream: string): (e: string)
    ensures StartsWith(e, "#EXTINF:-1")
    ensures EndsWith(e, "\n" + stream + "\n")
  {
    var title := if name != "" then name else "Keshet Channel";
    var head := "#EXTINF:-1" + (TvgAttribute("tvg-id", id) + TvgAttribute("tvg-name", name)
                + TvgAttribute("tvg-logo", logo) + "," + title + "\n"
                + "#EXTVLCOPT:http-user-agent=" + USER_AGENT);
    assert (head + ("\n" + stream + "\n"))[..10] == head[..10];
    ConcatAssoc(head, "\n" + stream, "\n");
    head + ("\n" + stream + "\n")
  }

  /** The static live channels of `get_channels`. */
  function KeshetChannels(): (cs: seq<BaseProvider.Channel>)
    ensures |cs| == 2
    ensures forall c :: c in cs ==> c.provider == "keshet" && c.logo != "" && c.id != ""
  {
    [ BaseProvider.Channel("keshet12", "קשת 12",
        MAKO_BASE_URL + "/mako-vod-live-tv" + "/VOD-6540b8dcb64fd31006.htm",
        "https://img.mako.co.il" + "/2017/06/21/keshet_2017_logo_a.jpg", "keshet", ""),
      BaseProvider.Channel("traitors", "traitors",
        MAKO_BASE_URL + "/mako-vod-keshet/the_traitors-s1" + "/VOD-c901dc765866691027.htm",
        "https://img.mako.co.il" + "/2017/06/21/keshet_2017_logo_a.jpg", "keshet", "") ]
  }

  /** `resolve_channel_to_m3u8`: the entry (empty when the channel does not resolve) and the link cache afterwards. */
  function ChannelStep(env: Env, net: Network, lc: BaseProvider.Cache, c: BaseProvider.Channel, preferHttp: bool, now: int)
    : (res: (string, BaseProvider.Cache))
    ensures res.0 == "" || StartsWith(res.0, "#EXTINF:-1")
    ensures res.1 == PlayItemResult(env, net, lc, c.url, preferHttp, now).1
    ensures res.0 == "" <==> !Truthy(PlayItemResult(env, net, lc, c.url, preferHttp, now).0)
  {
    var (r, lc1, _) := PlayItemResult(env, net, lc, c.url, preferHttp, now);
    (if Truthy(r) then ChannelEntry(c.name, c.id, c.logo, r.value) else "", lc1)
  }

  /** One iteration of the loop of `generate_m3u8_playlist`, as a function of the channel and the link cache. */
  function ChannelStepOf(env: Env, net: Network, preferHttp: bool, now: int)
    : (BaseProvider.Channel, BaseProvider.Cache) -> (string, BaseProvider.Cache)
  {
    (c: BaseProvider.Channel, lc: BaseProvider.Cache) => ChannelStep(env, net, lc, c, preferHttp, now)
  }

  /** The entries the loop of `generate_m3u8_playlist` appends for `cs`, and the link cache afterwards. */
  function PlaylistEntries(env: Env, net: Network, lc: BaseProvider.Cache, cs: seq<BaseProvider.Channel>,
                           preferHttp: bool, now: int): (string, BaseProvider.Cache)
  {
    BaseProvider.Fold(ChannelStepOf(env, net, preferHttp, now), cs, lc)
  }

  /** The playlist text for a non-empty list: the first channel's entry, then the rest from the cache it leaves. */
  lemma PlaylistEntriesCons(env: Env, net: Network, lc: BaseProvider.Cache, cs: seq<BaseProvider.Channel>,
                            preferHttp: bool, now: int)
    requires cs != []
    ensures var (e, lc1) := ChannelStep(env, net, lc, cs[0], preferHttp, now);
      var (b, lc2) := PlaylistEntries(env, net, lc1, cs[1..], preferHttp, now);
      PlaylistEntries(env, net, lc, cs, preferHttp, now) == (e + b, lc2)
  {
    assert ChannelStepOf(env, net, preferHttp, now)(cs[0], lc) == ChannelStep(env, net, lc, cs[0], preferHttp, now);
  }

  /** One iteration of the playlist loop: the entry for `cs[i]` extends the text for `cs[..i]` to `cs[..i + 1]`. */
  lemma PlaylistLoopStep(env: Env, net: Network, lc0: BaseProvider.Cache, cs: seq<BaseProvider.Channel>, i: nat,
                         preferHttp: bool, now: int, prefix: string, e: string, lc2: BaseProvider.Cache)
    requires i < |cs|
    requires (e, lc2) == ChannelStep(env, net, PlaylistEntries(env, net, lc0, cs[..i], preferHttp, now).1, cs[i], preferHttp, now)
    ensures prefix + PlaylistEntries(env, net, lc0, cs[..i], preferHttp, now).0 + e
         == prefix + PlaylistEntries(env, net, lc0, cs[..i + 1], preferHttp, now).0
    ensures lc2 == PlaylistEntries(env, net, lc0, cs[..i + 1], preferHttp, now).1
  {
    var step := ChannelStepOf(env, net, preferHttp, now);
    var lc1 := BaseProvider.Fold(step, cs[..i], lc0).1;
    assert step(cs[i], lc1) == ChannelStep(env, net, lc1, cs[i], preferHttp, now);
    BaseProvider.FoldLoopStep(step, cs, i, lc0, prefix, e, lc2);
  }

  /** Every piece of the playlist is a complete entry: the text is empty or starts with `#EXTINF`. */
  lemma {:induction false} EntriesAreWhole(env: Env, net: Network, lc: BaseProvider.Cache,
                                           cs: seq<BaseProvider.Channel>, preferHttp: bool, now: int)
    ensures var text := PlaylistEntries(env, net, lc, cs, preferHttp, now).0;
      text == "" || StartsWith(text, "#EXTINF:-1")
    decreases |cs|
  {
    if cs != [] {
      var (e, lc1) := ChannelStep(env, net, lc, cs[0], preferHttp, now);
      var (b, lc2) := PlaylistEntries(env, net, lc1, cs[1..], preferHttp, now);
      PlaylistEntriesCons(env, net, lc, cs, preferHttp, now);
      EntriesAreWhole(env, net, lc1, cs[1..], preferHttp, now);
      if e == "" {
        assert e + b == b;
      } else {
        StartsWithExtend(e, b, "#EXTINF:-1");
      }
    }
  }

  /** When no channel resolves, the playlist holds the header alone and the cache is untouched. */
  lemma {:induction false} NothingResolvesEmptyPlaylist(env: Env, net: Network, lc: BaseProvider.Cache,
                                                        cs: seq<BaseProvider.Channel>, preferHttp: bool, now: int)
    requires forall c :: c in cs ==> PlayItemResult(env, net, lc, c.url, preferHttp, now).0.None?
    ensures PlaylistEntries(env, net, lc, cs, preferHttp, now) == ("", lc)
    decreases |cs|
  {
    if cs != [] {
      var first := cs[0];
      assert first in cs;
      if BaseProvider.Lookup(lc, CacheKey(first.url, preferHttp), LINK_CACHE_TIME, now).None? {
        CachedOnlyOnSuccess(env, net, lc, first.url, preferHttp, now);
      } else {
        CacheHitShortCircuits(env, net, lc, first.url, preferHttp, now);
      }
      assert ChannelStep(env, net, lc, first, preferHttp, now) == ("", lc);
      var rest := cs[1..];
      forall c | c in rest
        ensures c in cs
      {
        var j :| 0 <= j < |rest| && rest[j] == c;
        assert cs[j + 1] == c;
      }
      NothingResolvesEmptyPlaylist(env, net, lc, rest, preferHttp, now);
      PlaylistEntriesCons(env, net, lc, cs, preferHttp, now);
      assert "" + "" == "";
    }
  }

  // ---------------------------------------------------------------------------
  // The module state
  // ---------------------------------------------------------------------------

  class KeshetModule {
    /** The credentials read at import, and the helpers from outside. */
    const env: Env
    /** `_link_cache`: resolved links keyed by `CacheKey`. */
    var linkCache: BaseProvider.Cache

    constructor (env: Env)
      ensures this.env == env && linkCache == map[]
    {
      this.env := env;
      linkCache := map[];
    }

    /** The loop of `_get_link`: the first item for the CDN, with its URL; a missing key raises. */
    method SelectCandidate(media: seq<MediaItem>, cdn: string) returns (scan: Scan)
      ensures scan == CandidateOf(media, Upper(cdn))
    {
      var key := Upper(cdn);
      var url := "";
      var i := 0;
      while i < |media|
        invariant 0 <= i <= |media|
        invariant CandidateOf(media, key) == CandidateOf(media[i..], key)
      {
        var item := media[i];
        if item.cdn.None? {
          return KeyError;
        }
        if item.cdn.value == key {
          if item.url.None? {
            return KeyError;
          }
          url := item.url.value;
          if key == "AKAMAI" {
            var pos := Find(url, "?");
            if pos > 0 {
              url := url[..pos];
            }
          }
          return Candidate(url);
        }
        assert media[i..][1..] == media[i + 1..];
        i := i + 1;
      }
      return Candidate(url);
    }

    /** `_get_link`. */
    method GetLink(net: Network, media: seq<MediaItem>, cdn: string, preferHttp: bool)
      returns (outcome: Outcome, requested: seq<string>)
      ensures (outcome, requested) == LinkFor(env, net, media, cdn, preferHttp)
    {
      var scan := SelectCandidate(media, cdn);
      if scan.KeyError? {
        return Raised, [];
      }
      var url := scan.url;
      if url == "" {
        return Returned(None), [];
      }
      var (ticket, log) := GetTicket(env, net, url, cdn);
      requested := log;
      if !Truthy(ticket) {
        return Returned(None), requested;
      }
      if StartsWith(url, "//") {
        url := (if preferHttp then "http:" else "https:") + url;
      } else if StartsWith(url, "https://") && preferHttp {
        url := ReplaceAll(url, "https://", "http://");
      }
      var final := if Contains(url, "?") then url + "&" + ticket.value else url + "?" + ticket.value;
      return Returned(Some(final)), requested;
    }

    /** `play`: the ids, the playlist request, then AKAMAI and, failing that, AWS. */
    method Play(net: Network, urlParams: string, preferHttp: bool) returns (link: Option<string>, requested: seq<string>)
      ensures (link, requested) == PlayResult(env, net, urlParams, preferHttp)
    {
      var (vcmid, channelId) := ExtractIds(env, urlParams);
      if vcmid == "" || channelId == "" {
        return None, [];
      }
      var ajax := AjaxUrl(vcmid, channelId);
      requested := [ajax];
      if ajax !in net.playlists || !net.playlists[ajax].Media? {
        return None, requested;
      }
      var media := net.playlists[ajax].items;
      var log;
      link, log := TryCdns(net, media, preferHttp);
      requested := requested + log;
    }

    /** The CDN part of `play`: AKAMAI, then AWS when AKAMAI gives no link; a KeyError gives up. */
    method TryCdns(net: Network, media: seq<MediaItem>, preferHttp: bool) returns (link: Option<string>, requested: seq<string>)
      ensures (link, requested) == CdnFallback(env, net, media, preferHttp)
    {
      var a, logA := GetLink(net, media, "AKAMAI", preferHttp);
      requested := logA;
      if a.Raised? {
        return None, requested;
      }
      if a.link.Some? {
        return a.link, requested;
      }
      var b, logB := GetLink(net, media, "AWS", preferHttp);
      requested := requested + logB;
      if b.Raised? {
        return None, requested;
      }
      return b.link, requested;
    }

    /** `play_item`, which `resolve_url` calls: the cached link, or a fresh one cached on success. */
    method PlayItem(net: Network, url: string, preferHttp: bool, now: int) returns (result: Option<string>, requested: seq<string>)
      modifies this
      ensures (result, linkCache, requested) == PlayItemResult(env, net, old(linkCache), url, preferHttp, now)
    {
      var key := CacheKey(url, preferHttp);
      var hit := BaseProvider.Lookup(linkCache, key, LINK_CACHE_TIME, now);
      if hit.Some? {
        return hit, [];
      }
      var paramsUrl := ParamsUrl(url);
      var ids := VodIds(GetJson(net, paramsUrl));
      if ids.None? {
        return None, [paramsUrl];
      }
      var (vcmid, channelId) := ids.value;
      var log;
      result, log := Play(net, UrlParams(vcmid, channelId), preferHttp);
      if Truthy(result) {
        linkCache := linkCache[key := BaseProvider.Stamp(result.value, now)];
      }
      requested := [paramsUrl] + log;
    }

    /** `resolve_channel_to_m3u8`: the entry for a channel, empty when it does not resolve. */
    method ResolveChannelToM3u8(net: Network, c: BaseProvider.Channel, preferHttp: bool, now: int) returns (entry: string)
      modifies this
      ensures (entry, linkCache) == ChannelStep(env, net, old(linkCache), c, preferHttp, now)
    {
      var stream, _ := PlayItem(net, c.url, preferHttp, now);
      if !Truthy(stream) {
        return "";
      }
      entry := ChannelEntry(c.name, c.id, c.logo, stream.value);
    }

    /** The loop of `generate_m3u8_playlist` over `channels`, appending every non-empty entry to `playlist`. */
    method AppendEntries(net: Network, channels: seq<BaseProvider.Channel>, preferHttp: bool, now: int, playlist: string)
      returns (out: string)
      modifies this
      ensures out == playlist + PlaylistEntries(env, net, old(linkCache), channels, preferHttp, now).0
      ensures linkCache == PlaylistEntries(env, net, old(linkCache), channels, preferHttp, now).1
    {
      ghost var lc0 := linkCache;
      out := playlist;
      var i := 0;
      while i < |channels|
        invariant 0 <= i <= |channels|
        invariant out == playlist + PlaylistEntries(env, net, lc0, channels[..i], preferHttp, now).0
        invariant linkCache == PlaylistEntries(env, net, lc0, channels[..i], preferHttp, now).1
      {
        out := AppendChannel(net, channels, i, preferHttp, now, playlist, lc0, out);
        i := i + 1;
      }
      assert channels[..i] == channels;
    }

    /** The body of the loop of `generate_m3u8_playlist` at `channels[i]`: its entry, when it has one, is appended. */
    method AppendChannel(net: Network, channels: seq<BaseProvider.Channel>, i: nat, preferHttp: bool, now: int,
                         playlist: string, ghost lc0: BaseProvider.Cache, out: string)
      returns (out2: string)
      requires i < |channels|
      requires out == playlist + PlaylistEntries(env, net, lc0, channels[..i], preferHttp, now).0
      requires linkCache == PlaylistEntries(env, net, lc0, channels[..i], preferHttp, now).1
      modifies this
      ensures out2 == playlist + PlaylistEntries(env, net, lc0, channels[..i + 1], preferHttp, now).0
      ensures linkCache == PlaylistEntries(env, net, lc0, channels[..i + 1], preferHttp, now).1
    {
      ghost var text := PlaylistEntries(env, net, lc0, channels[..i], preferHttp, now).0;
      var entry := ResolveChannelToM3u8(net, channels[i], preferHttp, now);
      PlaylistLoopStep(env, net, lc0, channels, i, preferHttp, now, playlist, entry, linkCache);
      if entry != "" {
        out2 := out + entry;
      } else {
        assert playlist + text + entry == out;
        out2 := out;
      }
    }

    /** `generate_m3u8_playlist`: the header, then the entry of every channel that resolves, in order. */
    method GenerateM3u8Playlist(net: Network, preferHttp: bool, now: int) returns (playlist: string)
      modifies this
      ensures var (text, lc) := PlaylistEntries(env, net, old(linkCache), KeshetChannels(), preferHttp, now);
        playlist == "#EXTM3U\n" + text && linkCache == lc
    {
      var channels := KeshetChannels();
      playlist := AppendEntries(net, channels, preferHttp, now, "#EXTM3U\n");
    }
  }
}
