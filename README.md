# israeli-iptv: a verified model of the stream-URL resolvers

This project models the core of israeli-iptv, a small service that builds
extended-M3U playlists of Israeli television channels. Three providers
resolve a channel reference or web page into a playable HLS URL:

- **Reshet 13** looks up a `reshet13://<id>` reference in a fixed table of
  stream links.
- **Kan** fetches a page and runs four extractors over its text, in a fixed
  priority.
- **Keshet (Mako)** reads a parameters document and a playlist of media items.
  It then asks the entitlement service for a ticket for an AKAMAI or AWS
  candidate.

All providers share a base object with two TTL caches and the playlist
builder. The model is written in the source's own shape. Provider objects
are classes whose methods update their caches, and loops are `while` loops
with invariants. Every method is proved equal to a specification function,
and the lemmas state what the source promises about those functions.

Files and modules:

- `wrappers.dfy` (`Wrappers`): `Option`.
- `pystr.dfy` (`PyStr`): the Python `str` operations the providers rely on,
  on the inputs the providers give them (whitespace is ASCII only; see "Left out").
  - `find` and `rfind` return -1 on a miss.
  - `replace` replaces every occurrence.
  - Slicing accepts negative and out-of-range bounds.
  - Also modelled: ASCII `upper`/`title`, `\s`, and the truthiness of `Optional[str]`.
- `base_provider.dfy` (`BaseProvider`), for `base_provider.py`: the Channel and VOD records,
  cache records and lookups, and the class `Provider` holding `_cache` and
  `_link_cache`. Also the `#EXTINF` entry and the `generate_playlist` specification, generic
  in the provider's resolver and headers.
- `reshet13.dfy` (`Reshet13`), for `reshet13_module.py`.
- `kan.dfy` (`Kan`), for `kan_module.py`.
- `keshet.dfy` (`Keshet`), for `keshet_module.py`. The source keeps its
  link cache in module-level state; here that state is the class `KeshetModule`.

What comes from outside is a parameter:

- The clock is an integer `now`; one call uses one instant.
- The network is a map from URL to reply; a URL outside the map is a failed request.
- `parse_qs`, `unquote_plus` and `quote_plus` are function parameters, and so are the uuid device id
  and the JSON decoding of a Kaltura package (`kalturaHls`).
- The Keshet credentials are the `username` and `password` fields of `Keshet.Env`.

Python's inheritance becomes composition: each provider class holds its base
`Provider` in the field `base`.

## Model

| member | source | states |
|---|---|---|
| PyStr.FindFrom | keshet_module.py:126 | the result is -1 exactly when the pattern does not occur at or after the start; otherwise it is an occurrence with none before it |
| PyStr.RFind | kan_module.py:168 | the last occurrence, or -1 exactly when the pattern does not occur at all |
| PyStr.ReplaceAllAbsent | reshet13_module.py:142 | `replace` leaves a string without the pattern unchanged |
| PyStr.ReplaceAllLeading | reshet13_module.py:154-155 | replacing in a string that begins with the pattern begins the result with the replacement |
| PyStr.Slice | keshet_module.py:206 | a Python slice with in-range bounds is the plain subsequence |
| PyStr.SkipSpace | kan_module.py:177 | the characters `\s*` consumes are all whitespace, and the next one is not |
| BaseProvider.Lookup | base_provider.py:206-219 | a value comes back exactly when the record exists, has `t`, is fresh (`now - t < ttl`) and has a value |
| BaseProvider.StoreThenLookup | base_provider.py:240-251 | a value stored at t0 is read back at t1 exactly when t1 - t0 < ttl |
| BaseProvider.StoreKeepsOtherKeys | base_provider.py:248-251 | storing under one key does not change any lookup of another key |
| BaseProvider.EmptyCacheMisses | base_provider.py:282-285 | every lookup in an empty cache misses |
| BaseProvider.IsCacheValid | base_provider.py:206-219 | no contract of its own: an entry is valid when it exists, has `t` and `now - t < ttl`; Lookup and StoreThenLookup state what that means for a read |
| BaseProvider.BaseHeaders | base_provider.py:102-114 | the headers are exactly `{"User-Agent": USER_AGENT}` |
| BaseProvider.Provider.constructor | base_provider.py:50-62 | a new provider has its name and two empty caches |
| BaseProvider.Provider.GetFromCache | base_provider.py:221-238 | the content-cache lookup with the given TTL, defaulting to 600 seconds |
| BaseProvider.Provider.SetCache | base_provider.py:240-251 | only key k of the content cache changes, stamped with now; the link cache is untouched |
| BaseProvider.Provider.GetFromLinkCache | base_provider.py:253-267 | the link-cache lookup always uses the fixed 600-second TTL |
| BaseProvider.Provider.SetLinkCache | base_provider.py:269-280 | only key k of the link cache changes; the content cache is untouched |
| BaseProvider.Provider.ClearCache | base_provider.py:282-285 | both caches are empty and every later lookup misses |
| BaseProvider.ExtInfAttributes | base_provider.py:128-137 | `tvg-id` appears iff the id is non-empty and `tvg-logo` iff the logo is; `group-title` is the channel's own, else the title-cased provider name; no other attribute appears |
| BaseProvider.GroupTitle | base_provider.py:134-137 | there is no group title exactly when the channel's own and the provider name are both empty; a non-empty channel group title is used as it is |
| BaseProvider.HeaderLines | base_provider.py:142-147 | no header lines exactly when headers are off or neither `User-Agent` nor `Referer` is present; otherwise the text ends in a newline |
| BaseProvider.ExtInfLine | base_provider.py:127-139 | the line starts with `#EXTINF:-1` and ends with `,name` |
| BaseProvider.M3u8Entry | base_provider.py:116-152 | the entry is the EXTINF line, the user-agent and referrer lines for the headers present, then the URL, each line ending in a newline |
| BaseProvider.VodChannel | base_provider.py:184-191 | a VOD becomes a channel with id `provider-vod-id`, keeping its URL, name and poster |
| BaseProvider.VodChannels | base_provider.py:182-191 | one channel per VOD, in order |
| BaseProvider.Playlist | base_provider.py:154-204 | the playlist starts with `#EXTM3U\n` |
| BaseProvider.FoldAppend | base_provider.py:168-178 | the text of a concatenation is the text of each part in order, with the state threaded through |
| BaseProvider.FoldSnoc | base_provider.py:168-178 | appending an item appends exactly its own text, taken in the state the earlier items left |
| BaseProvider.FoldLoopStep | base_provider.py:168-178 | a loop that has text for `items[..i]` and appends the text of `items[i]` has the text for `items[..i+1]` |
| BaseProvider.EntryStep | base_provider.py:169-178 | a channel that is not a `provider://` reference always gives text and leaves the state alone; a reference gives text exactly when it resolves to something truthy, in the state the resolver leaves; any text starts with `#EXTINF:-1` |
| BaseProvider.Entries | base_provider.py:168-178 | no contract of its own: the fold of the entry step over the channels; FoldSnoc, EntriesLoopStep and FailedChannelIsSkipped state what it produces |
| BaseProvider.EntriesLoopStep | base_provider.py:168-178 | one loop iteration extends the text for `items[..i]` to the text for `items[..i+1]` |
| BaseProvider.FailedChannelIsSkipped | base_provider.py:170-176 | a `provider://` channel that resolves to nothing contributes no text; the others are emitted in order |
| BaseProvider.EntriesWithoutReferences | base_provider.py:168-178 | channels that are not references are emitted verbatim and the resolver is never consulted |
| Reshet13.PreferProtocol | reshet13_module.py:153-155 | with the http preference an `https://` link becomes `http://` and no result starts with `https://`; otherwise the link is unchanged |
| Reshet13.LinkCacheKey | reshet13_module.py:135 | the key starts with the URL and ends with `_http` or `_https` by preference |
| Reshet13.ChannelIdOf | reshet13_module.py:142 | no contract of its own: `url.replace("reshet13://", "")`; ChannelIdOfReference states that it reads back the id of a reference |
| Reshet13.Resolved | reshet13_module.py:141-165 | a link comes back iff the URL starts with `reshet13://` and its id is in the table, and it is the table link after the protocol rule |
| Reshet13.ResolveSpec | reshet13_module.py:121-169 | a fresh cached value under `url_http`/`url_https` is returned as it is; otherwise the table answers and only a success is cached |
| Reshet13.ResolvedIsTruthy | reshet13_module.py:137-162 | with a table of `https://` links every resolved link is non-empty |
| Reshet13.KeyDecodes | reshet13_module.py:135 | a cache key determines the reference and the preference it was built from |
| Reshet13.ResolveIsTransparent | reshet13_module.py:133-165 | under a sound link cache the result is the table's answer whatever the cache holds, and the cache stays sound |
| Reshet13.EmptyCacheIsSound | base_provider.py:57-62 | the empty link cache a provider starts with is sound |
| Reshet13.RepeatWithinTtl | reshet13_module.py:135-160 | a success is served from the link cache for the same reference and preference while it is fresh |
| Reshet13.Headers | reshet13_module.py:171-189 | the User-Agent is always present; a Referer is present iff the table row has one, with its value; no other header |
| Reshet13.GetStreamDetails | reshet13_module.py:195-215 | None exactly for an unknown id; otherwise the raw table link and the channel's headers |
| Reshet13.DetailsAreRaw | reshet13_module.py:205-215 | the details keep `https://`, unlike `resolve_url` with the http preference |
| Reshet13.ChannelFor | reshet13_module.py:92-100 | the channel for an id is the `reshet13://id` reference of this provider |
| Reshet13.VodFor | reshet13_module.py:109-117 | the VOD for an id is the `reshet13://id` reference of this provider |
| Reshet13.ChannelsFor | reshet13_module.py:92-100 | at most one channel per id; ChannelsForMembers and ChannelsForSnoc state which ones, in which order |
| Reshet13.VodsFor | reshet13_module.py:109-117 | at most one VOD per id; VodsForMembers and VodsForSnoc state which ones, in which order |
| Reshet13.ChannelsForMembers | reshet13_module.py:87-102 | every listed channel was built for an id of the list that the table has |
| Reshet13.ChannelsForSnoc | reshet13_module.py:87-102 | one more id adds its channel at the end exactly when the table has it |
| Reshet13.VodsForMembers | reshet13_module.py:104-119 | every listed VOD was built for an id of the list that the table has |
| Reshet13.VodsForSnoc | reshet13_module.py:104-119 | one more id adds its VOD at the end exactly when the table has it |
| Reshet13.ChannelIdOfReference | reshet13_module.py:141-142 | the id of reference `reshet13://id` reads back as id |
| Reshet13.ListedChannelsResolve | reshet13_module.py:141-155 | every listed channel resolves to its table link after the protocol rule |
| Reshet13.EntriesIgnoreSoundCache | base_provider.py:168-178 | the playlist text is the same for any two sound link caches |
| Reshet13.StreamsAreHttps | reshet13_module.py:19-55 | every link of the stream table is an `https://` URL |
| Reshet13.ChannelsOfFour | reshet13_module.py:87-102 | of four ids with only the first missing from the table, the other three give channels, in order |
| Reshet13.VodsOfFour | reshet13_module.py:104-119 | four ids all in the table give their four VODs, in order |
| Reshet13.MainChannels | reshet13_module.py:92-100 | `get_channels` lists 13B, 13C and Big Brother; id 13 has no stream and is dropped |
| Reshet13.VodList | reshet13_module.py:109-117 | `get_vods` lists the four VOD ids in order |
| Reshet13.Rest13bHasNoScheme | reshet13_module.py:22-25 | the 13B link holds no second `https://` |
| Reshet13.Resolve13bPreferHttp | reshet13_module.py:141-162 | `reshet13://13b` with the http preference resolves to the `http://` form of its CloudFront link |
| Reshet13.Reshet13Provider.constructor | reshet13_module.py:80-85 | a new provider named `reshet13` with empty caches and the stream table |
| Reshet13.Reshet13Provider.GetChannels | reshet13_module.py:87-102 | the loop builds exactly the channels for the main ids in the table |
| Reshet13.Reshet13Provider.GetVods | reshet13_module.py:104-119 | the loop builds exactly the VODs for the VOD ids in the table |
| Reshet13.Reshet13Provider.ResolveUrl | reshet13_module.py:121-169 | the result and the new link cache are those of the specification; the content cache is untouched |
| Reshet13.Reshet13Provider.EntryFor | base_provider.py:168-178 | one playlist iteration for a channel, against the specification step |
| Reshet13.Reshet13Provider.AppendEntries | base_provider.py:168-178 | the loop appends exactly the specification entries and leaves the link cache as they do |
| Reshet13.Reshet13Provider.GeneratePlaylist | base_provider.py:154-204 | the playlist and the new link cache are those of the playlist specification for this provider |
| Kan.DowngradeScheme | kan_module.py:167 | without the http preference the page URL is unchanged |
| Kan.CutAtLastHttp | kan_module.py:168-170 | the URL is cut at the last `http://` only when that is past the start |
| Kan.CutKeepsOnlyLastHttp | kan_module.py:168-170 | after the cut, the URL starts with its only `http://` and is a suffix of the original |
| Kan.Normalise | kan_module.py:167-171 | no contract of its own: the downgrade, the cut and the `HLS/HLS` collapse in turn; DowngradeScheme, CutAtLastHttp and NormalUrlUnchanged state them |
| Kan.NormalUrlUnchanged | kan_module.py:167-171 | without the http preference, a URL with no `http://` past its start and no `HLS/HLS` is fetched as it is |
| Kan.MatchAt | kan_module.py:177-197 | a quoted capture holds no `"`; without `re.S`, and in the Kaltura pattern, a capture holds no newline |
| Kan.SearchFrom | kan_module.py:177-197 | the leftmost position where the key and the rest of the pattern match; none earlier matches |
| Kan.SearchFindsLeftmost | kan_module.py:177-197 | a match with none before it is the capture `re.search` returns |
| Kan.Search | kan_module.py:177-197 | a capture comes back exactly when the pattern matches at some position at or after the start; a quoted capture holds no `"`, and without `re.S` no newline |
| Kan.Stage | kan_module.py:182-198 | a later extractor runs only while nothing truthy is resolved and its gate holds; a match replaces the current value |
| Kan.DailymotionStage | kan_module.py:177-179 | a Dailymotion id gives the embed URL `https://www.dailymotion.com/embed/video/<id>` |
| Kan.Dailymotion | kan_module.py:177 | there is no id when the page lacks `dailymotion`; an id holds no `"` |
| Kan.CleanBynet | kan_module.py:187 | no contract of its own: the two replacements; CleanBynetKeepsClean states when they change nothing |
| Kan.CleanBynetKeepsClean | kan_module.py:187 | a value with neither `https` nor a literal `\u0026` is returned unchanged |
| Kan.Bynet | kan_module.py:183-187 | a value comes back only when the page holds `bynetURL:` or `"UrlRedirector":` |
| Kan.DirectHls | kan_module.py:191-193 | there is no link when the page lacks `hls:`; a link lies within one line and holds no `"` |
| Kan.Kaltura | kan_module.py:197-201 | there is no link when the page lacks `window.kalturaIframePackageData` |
| Kan.Candidates | kan_module.py:176-203 | the Dailymotion candidate always; the Bynet one only with `ByPlayer` in the URL, the direct HLS one only on `media.(ma)kan.org.il`, the Kaltura one only with `kaltura`; each closed gate gives None |
| Kan.FirstTruthy | kan_module.py:176-203 | a truthy candidate with no truthy candidate before it, or None exactly when none is truthy |
| Kan.StagesPickFirstTruthy | kan_module.py:176-203 | the guarded stages pick the first truthy value, and are falsy when there is none |
| Kan.ExtractIsFirstTruthy | kan_module.py:176-203 | the extraction result is the first truthy candidate in priority order |
| Kan.Extract | kan_module.py:176-203 | no contract of its own: the four stages in order; ExtractIsFirstTruthy, DailymotionWins and the three gate lemmas state its result |
| Kan.KalturaGateClosed | kan_module.py:196-201 | without `kaltura` in the URL the Kaltura decoder never affects the result |
| Kan.BynetGateClosed | kan_module.py:182-187 | without `ByPlayer` in the URL the result is that of the other three stages |
| Kan.HlsGateClosed | kan_module.py:190-193 | off the Kan media hosts the result is that of the other three stages |
| Kan.DailymotionWins | kan_module.py:177-182 | a Dailymotion match decides the result, whatever the later extractors find |
| Kan.UngatedExtractorsDoNotRun | kan_module.py:182-196 | with no gate open only Dailymotion is consulted |
| Kan.KalturaFailureIsSwallowed | kan_module.py:196-203 | a package that does not decode leaves the earlier result |
| Kan.DailymotionEmbed | kan_module.py:177-179 | the text `dailymotionvideo:"X"` yields X as the Dailymotion id |
| Kan.ApplyPreference | kan_module.py:206-207 | with the http preference a truthy result never starts with `https://`; truthiness is kept; otherwise nothing changes |
| Kan.Fetch | kan_module.py:44-55 | no contract of its own: the network is a map from URL to the body of a 200 reply, and any other outcome reads as the empty string |
| Kan.GetCachedSpec | kan_module.py:57-71 | a fresh cached body is returned without a fetch; otherwise the fetched body is returned and cached only when non-empty |
| Kan.FetchedBodyIsReused | kan_module.py:63-70 | a fetched body is served from the cache while fresh, whatever the network then says |
| Kan.LinkCacheHitShortCircuits | kan_module.py:162-164 | a link-cache hit returns before any fetch, whatever the preference |
| Kan.LinkCachedOnlyOnSuccess | kan_module.py:209-213 | the link cache changes iff the result is truthy, and then only at the original page URL |
| Kan.PreferenceNotInLinkKey | kan_module.py:162-164 | a link resolved with the http preference is what a later call without it returns while fresh |
| Kan.ResolveSpec | kan_module.py:159-213 | no contract of its own: the corrected resolution; LinkCacheHitShortCircuits, LinkCachedOnlyOnSuccess and PreferenceNotInLinkKey state its behaviour |
| Kan.GetCachedAsWritten | kan_module.py:57-61 | an omitted ttl reads `CACHE_TIME`; it raises exactly when that attribute is undefined |
| Kan.ResolveAsWritten | kan_module.py:159-173 | no contract of its own: the resolution as written; AsWrittenMissRaises and DefinedAttributeIsCorrected state its behaviour |
| Kan.AsWrittenMissRaises | kan_module.py:60 | as written, every link-cache miss raises and only cache hits return |
| Kan.DefinedAttributeIsCorrected | kan_module.py:57-71 | with the attribute defined, the code as written is the corrected resolution with that TTL |
| Kan.KanChannels | kan_module.py:101-125 | three live Kan channels with `https://` URLs |
| Kan.HttpsIsNotKanReference | base_provider.py:170 | an `https://` URL is never a `kan://` reference |
| Kan.ChannelPlaylistNeedsNoResolving | base_provider.py:168-178 | Kan's channel entries are written verbatim and `resolve_url` is never called |
| Kan.KanProvider.constructor | kan_module.py:32-42 | a new provider named `kan` with empty caches and the given content TTL |
| Kan.KanProvider.GetCached | kan_module.py:57-71 | the body and new content cache are those of the specification; the link cache is untouched |
| Kan.KanProvider.ResolveUrl | kan_module.py:159-213 | the result and both new caches are those of the resolution specification |
| Kan.KanProvider.RunExtractors | kan_module.py:174-203 | the statements compute exactly the priority cascade |
| Keshet.TicketUrl | keshet_module.py:76-83 | with credentials the request carries `na=2.0&da=...`; without them it is the anonymous `et=gt&lp=` form |
| Keshet.Granted | keshet_module.py:90-91 | a ticket is read only from a reply with caseId `1` and a first ticket |
| Keshet.GetTicket | keshet_module.py:74-104 | the ticket request comes first; caseId `4` with credentials adds one login, one validation and one retry; otherwise exactly one request |
| Keshet.TicketNeedsCaseOne | keshet_module.py:89-101 | a ticket comes only from a caseId `1` reply; at most one login and one retry; an anonymous module never logs in |
| Keshet.StripQuery | keshet_module.py:125-128 | the AKAMAI candidate is cut before its first `?` when that is past the start, so no `?` remains |
| Keshet.CandidateOf | keshet_module.py:121-129 | no contract of its own: the scan of the media items; CandidateIsFirstMatch, NoMatchingItem and AkamaiLinkIsStripped state its result |
| Keshet.CandidateIsFirstMatch | keshet_module.py:122-129 | the loop stops at the first item whose `cdn` is the CDN and takes its URL, or raises if that item has no `url` |
| Keshet.NoMatchingItem | keshet_module.py:121-133 | with no item for the CDN the loop finds nothing and raises nothing |
| Keshet.ApplyScheme | keshet_module.py:141-144 | `//` gets `http:` or `https:` by preference; `https://` is downgraded only with the http preference; otherwise unchanged |
| Keshet.SchemeFollowsPreference | keshet_module.py:141-144 | with the http preference the link never starts with `https://`; without it nothing is downgraded |
| Keshet.JoinTicket | keshet_module.py:147-150 | the ticket is joined by `&` when the URL has a `?`, and by `?` otherwise |
| Keshet.JoinTicketSplits | keshet_module.py:147-150 | splitting the link at its first `?` gives back a `?`-free URL and its ticket |
| Keshet.LinkFor | keshet_module.py:119-152 | a missing key raises; no candidate means no request and None; otherwise the ticket is requested for the candidate, and a truthy ticket gives the candidate after the scheme rule joined with it, a falsy one None |
| Keshet.LinkIsNonEmpty | keshet_module.py:146-152 | a returned link is never empty |
| Keshet.ExtractIds | keshet_module.py:203-210 | a non-empty query-parse value is used as it is |
| Keshet.FallbackVcmid | keshet_module.py:206 | no contract of its own: the text between `vcmid=` and `&videoChannelId=`; FallbackRoundTrip states what it reads back |
| Keshet.FallbackChannelId | keshet_module.py:210 | no contract of its own: the text after `&videoChannelId=`; FallbackRoundTrip states what it reads back |
| Keshet.MarkersOfUrlParams | keshet_module.py:185 | in `vcmid=v&videoChannelId=c` with no `&` in v, the markers sit right after each id |
| Keshet.AjaxUrl | keshet_module.py:219-223 | no contract of its own: the playlist request for the two ids; PlayResult states that it is the first request made |
| Keshet.FallbackRoundTrip | keshet_module.py:205-210 | when the query parse yields nothing, the substring fallback reads back the ids `play_item` wrote |
| Keshet.PlayResult | keshet_module.py:197-254 | an empty id gives None with no request; otherwise the playlist request comes first |
| Keshet.CdnNames | keshet_module.py:123-125 | `AKAMAI` and `AWS` are already upper case |
| Keshet.CdnFallback | keshet_module.py:239-251 | no contract of its own: the AKAMAI then AWS attempt; AkamaiBeforeAws and GrantedAkamaiIsUsed state its result |
| Keshet.AkamaiBeforeAws | keshet_module.py:239-248 | an AKAMAI link is final and AWS is never asked; otherwise AWS decides; if AKAMAI raises, the result is None |
| Keshet.GrantedAkamaiIsUsed | keshet_module.py:239-251 | a granted ticket for a non-empty AKAMAI candidate makes `play` return that candidate, after the scheme rule, joined with the ticket |
| Keshet.AkamaiLinkIsStripped | keshet_module.py:122-129 | the AKAMAI candidate is the first AKAMAI item's URL without its query string |
| Keshet.CacheKey | keshet_module.py:163 | the cache key starts with the page URL |
| Keshet.CacheKeysDiffer | keshet_module.py:163 | the two preferences never share a cache key |
| Keshet.ParamsUrl | keshet_module.py:171 | `platform=responsive` is joined by `&` when the URL has a `?`, else by `?` |
| Keshet.GetJson | keshet_module.py:52-66 | a failed request or a non-JSON reply gives None; a `root` key is unwrapped |
| Keshet.VodIds | keshet_module.py:174-180 | the ids come back iff the document is non-empty and has `vod.itemVcmId` and `vod.channelId`, and they are that pair, vcmid first |
| Keshet.PlayItemResult | keshet_module.py:158-194 | no contract of its own: `play_item` with its link cache; CacheHitShortCircuits, CachedOnlyOnSuccess and RepeatWithinTtl state its behaviour |
| Keshet.CacheHitShortCircuits | keshet_module.py:166-168 | a fresh entry answers with no request and no cache change |
| Keshet.CachedOnlyOnSuccess | keshet_module.py:171-191 | on a miss the parameters page is requested first; the cache changes iff the result is truthy, and only at this key |
| Keshet.RepeatWithinTtl | keshet_module.py:163-189 | a success is served again within the hour with no request, and never for the other preference |
| Keshet.TvgAttribute | keshet_module.py:341-343 | the attribute is present iff its value is non-empty |
| Keshet.ChannelEntry | keshet_module.py:345-349 | an entry starts with `#EXTINF:-1` and ends with the stream URL line |
| Keshet.KeshetChannels | keshet_module.py:298-314 | two static Keshet channels, each with an id and a logo |
| Keshet.ChannelStep | keshet_module.py:336-351 | the entry is empty exactly when `play_item` gives nothing truthy, and otherwise starts with `#EXTINF:-1`; the link cache is the one `play_item` leaves |
| Keshet.PlaylistEntries | keshet_module.py:361-370 | no contract of its own: the fold of the channel step; PlaylistEntriesCons, PlaylistLoopStep, EntriesAreWhole and NothingResolvesEmptyPlaylist state it |
| Keshet.PlaylistEntriesCons | keshet_module.py:361-370 | the body for a non-empty list is the first channel's entry, then the rest from the link cache it leaves |
| Keshet.PlaylistLoopStep | keshet_module.py:361-370 | one iteration extends the body for `cs[..i]` to the body for `cs[..i+1]` |
| Keshet.EntriesAreWhole | keshet_module.py:362-370 | the playlist body is empty or starts with an `#EXTINF` line |
| Keshet.NothingResolvesEmptyPlaylist | keshet_module.py:354-372 | when no channel resolves, the body is empty and the cache is untouched |
| Keshet.KeshetModule.constructor | keshet_module.py:35 | the module starts with an empty link cache |
| Keshet.KeshetModule.SelectCandidate | keshet_module.py:121-129 | the `for` loop with `break` computes the candidate of the specification |
| Keshet.KeshetModule.GetLink | keshet_module.py:119-152 | the outcome and the requests are those of the `_get_link` specification |
| Keshet.KeshetModule.Play | keshet_module.py:197-254 | the link and the requests are those of the `play` specification |
| Keshet.KeshetModule.TryCdns | keshet_module.py:239-251 | AKAMAI is tried first and AWS only when AKAMAI gives no link; the requests are those of the specification |
| Keshet.KeshetModule.PlayItem | keshet_module.py:158-194 | the result, the new link cache and the requests are those of the `play_item` specification |
| Keshet.KeshetModule.ResolveChannelToM3u8 | keshet_module.py:332-351 | the entry and the new link cache are those of the channel step |
| Keshet.KeshetModule.AppendChannel | keshet_module.py:361-370 | one loop iteration appends the channel's entry when it has one and keeps the body and the link cache equal to the specification |
| Keshet.KeshetModule.AppendEntries | keshet_module.py:361-370 | the loop appends exactly the specification body and leaves the link cache as it does |
| Keshet.KeshetModule.GenerateM3u8Playlist | keshet_module.py:354-372 | the playlist is `#EXTM3U\n` plus the entries of the resolving channels in order; the link cache matches the specification |

## Left out

- HTTP requests (`requests.get` in `_get`, `_get_cf`, `_get_json`) are left out as I/O. Replies are map entries. `_mako_login` appears only as the two URLs it requests.
- The regular-expression and JSON engines are left out.
  - Kan's extractors are leftmost-match searches for the literal key, optional whitespace and the delimited capture.
  - The Kaltura JSON decoding and field lookup is the parameter `kalturaHls`.
  - Keshet's decoded replies are datatypes.
- `urllib.parse`, the uuid device id and `time.time()` are parameters. The clock is an integer, not a float.
- Kan.Kaltura: a JSON `null` stream field counts as no match, so an earlier empty match survives. Python would set None here; both are falsy, so the outcome is the same.
- Kan `get_vods` (an HTML scrape) and `_get_json_script` are left out as regex and JSON work. As written, `get_vods` also calls `_get_cached` without a TTL.
- Keshet `get_vods` always returns an empty list and is left out.
- Keshet's module-level `_cache` and `_build_id_cache`, and its `CACHE_TIME`, are never read by the modelled operations. `CACHE_TIME` is kept as a constant only.
- Left out as thin wrappers: the Flask and Jellyfin helpers of `keshet_module.py` (`get_jellyfin_stream_info`, `get_required_headers`, `resolve_custom_url_to_m3u8`, `get_stream_response`, `get_redirect_response`), the module-level backward-compatible functions of each provider module, and the `__main__`/`test()` blocks.
- `server.py` (Flask routing) is not part of this model.
- Logging and the unused `quality` and `switch_cdn` parameters are left out.
- The keys `klt`, `brv` and `cst` of the Reshet 13 table are never read and are not kept.
- PyStr.IsSpace: only the ASCII whitespace characters count. Python's `\s` and `str.isspace` on `str` also match Unicode spaces such as `\x85`, `\xa0`, `\u2000`-`\u200a` and `\u3000`, so a page that puts one of those between a key and its quote matches in Python but not here.
- Long string constants are written as concatenations of shorter pieces with the same text.
- BaseProvider.Playlist: its own contract states only the header line. The rest of `generate_playlist` is covered by the lemmas about `Entries`.
- Keshet.PlayItemResult: a cache record whose `url` key is missing would raise `KeyError` in Python. Here it is a miss. The module never writes such a record.
- Keshet.GenerateM3u8Playlist: every channel is resolved at the same instant `now`.
- A reply whose JSON has an unexpected shape is left out: one whose top level is not an object, or whose `caseId` or ids are not strings. Such replies raise or behave like a missing key, and the model gives no separate case for them.

## Findings

| source | as written | input that shows it | evidently intended | confidence | as-written member | corrected member |
|---|---|---|---|---|---|---|
| kan_module.py:60 | `_get_cached(url)` without a TTL reads `self.CACHE_TIME`, which neither `KanProvider` nor `BaseProvider` defines, so it raises `AttributeError` | any `resolve_url(page_url)` whose `page_url` is not in the link cache | a content TTL defined on the provider, as `keshet_module.py:28` defines `CACHE_TIME` for its own content cache | not executed | Kan.AsWrittenMissRaises | Kan.KanProvider.ResolveUrl |
