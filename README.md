# ChannelsService: cached innertube key and channel lookup

A Dafny model of `ChannelsService` from the ViewTube server
(server/core/channels/channels.service.ts). The service answers
`getChannel(channelId)` by calling YouTube's internal browse endpoint, which
needs an API key. The key is kept in the single `{version: 1}` record of the
`general` collection. When that record holds no usable key, `refreshApiKey`
fetches a public channel page, pulls the key out of it with the regular
expression `/"INNERTUBE_API_KEY":"(.*?)",/im`, upserts it into the record and
returns it. With a key, the lookup sends two browse requests, the featured
section and then the about section, and hands both payloads to the channel
mapper.

Files:

- `wrappers.dfy`: `Option`, standing for the source's `null`/`undefined`.
- `key_extraction.dfy` (module `KeyExtraction`): the regular expression as a
  pure function. It is defined by a scan (`ScanCapture`, `FindMatch`) and
  proved against a declarative statement of the match the ECMAScript engine
  reports (`MatchAt`, `IsFirstMatch`: leftmost start, then shortest capture).
- `channels_service.dfy` (module `Channels`): the class `ChannelsService`
  with its `storedKey` field and the methods `RefreshApiKey` and `GetChannel`.
  Each method is proved to follow a specification function (`RefreshOf`,
  `AfterRefresh`, `RefreshEffects`, `Lookup`).
- `channels_properties.dfy` (module `ChannelsProperties`): lemmas about `Lookup`.

How the outside world is modelled:

- The record is `storedKey: Option<string>`. `None` means there is no record
  or the record has no key. The upsert sets it to `Some(key)`.
- The page fetch is an input `PageResult`: `FetchFailed` (the `.catch` that
  logs) or `Text(body)`. `fetch` does not reject on an HTTP error status, so
  such a response is also `Text`.
- The browse endpoint is a function `upstream` from `BrowseRequest` to
  `Payload(json) | Failed`. `Failed` stands for any rejection of the fetch or
  of `response.json()`.
- `ChannelMapper.mapChannel` is a function parameter `mapChannel`.
- Each call returns its effects in order: `FetchPage`, `UpsertKey`, `Browse`.
  Ordering properties are stated over this trace.
- The lookup's rejections are `ChannelError`. `ErrorFetchingChannel` and
  `BrowseFailed` are `InternalServerErrorException`s (lines 79, 82).
  `KeyPatternMissing` is the `TypeError` raised by reading `[1]` of the null
  result of `match` (line 100). It escapes `getChannel` unwrapped, because the
  refresh at line 39 runs before the `try` at line 44.

Regular-expression semantics modelled (ECMAScript, flags `i` and `m`, no `u`):

- For this pattern only ASCII case variants match under `i`. Without `u`, a
  non-ASCII character never canonicalises to an ASCII one, and every letter
  of the pattern is ASCII. Non-ASCII letters still fold among themselves, but
  none occurs in the pattern.
- `.` refuses LF, CR, U+2028 and U+2029.
- `m` does not matter: the pattern has no `^` or `$`.
- A start position whose literal is found, but which has no `",` before the
  next line terminator, fails. The search then moves on to the next position.

Behaviour of the code worth noting:

- The two browse calls run one after the other. The about request is sent
  only after the featured one has succeeded.
- A page without the pattern raises a `TypeError` (line 100) that escapes
  `getChannel` unwrapped.
- An empty page text (`""`, falsy at line 99) resolves to no key without any
  extraction, just like a failed fetch.
- An extracted empty key (`"INNERTUBE_API_KEY":"",`) is upserted. The lookup
  then rejects with 'Error fetching channel' (lines 43 and 82), leaving the
  record holding the empty key.
- A browse failure after a refresh leaves the freshly upserted key in the
  record. A failed lookup that did not refresh, or whose refresh wrote
  nothing, leaves the record as it was.

## Model

`Lookup` and `BrowseBoth` (in `channels_service.dfy`) are the specification
functions of `getChannel` and of its two browse calls. `GetChannel` is proved
equal to `Lookup`; the lemmas of `ChannelsProperties` below state what they
compute.

| member | source | states |
|---|---|---|
| KeyExtraction.ScanCapture | server/core/channels/channels.service.ts:100 | the lazy `(.*?)",`: returns the first position of `",` after the literal when no line terminator precedes it, and it is the shortest such end; None exactly when no end exists |
| KeyExtraction.FindMatch | server/core/channels/channels.service.ts:100 | the engine's search over start positions: the pair returned is the leftmost match with its shortest capture; None exactly when no start position matches |
| KeyExtraction.FirstMatchUnique | server/core/channels/channels.service.ts:100 | the reported match (leftmost start, shortest capture) is unique |
| KeyExtraction.ExtractKey | server/core/channels/channels.service.ts:100 | `match(...)[1]`: None exactly when the pattern matches nowhere; otherwise the capture of the leftmost, shortest match; the key never holds a line terminator or `",` |
| KeyExtraction.ExtractEmbedded | server/core/channels/channels.service.ts:100 | text in which no match starts, then any case variant of `"INNERTUBE_API_KEY":"`, then a key free of line terminators and `",`, then `",`: the exact key is extracted, whatever follows |
| Channels.RefreshOf | server/core/channels/channels.service.ts:86-107 | a failed fetch or empty text gives no key; a key exactly when the text matches, and it is the capture of the first match; the TypeError exactly when non-empty text has no match |
| Channels.ChannelsService.constructor | server/core/channels/channels.service.ts:11-14 | the service starts from a given state of the version-1 record |
| Channels.ChannelsService.RefreshApiKey | server/core/channels/channels.service.ts:86-107 | resolves as `RefreshOf` says; the record is upserted with the key only when one was extracted; the trace is the page fetch, then that upsert |
| Channels.ChannelsService.GetChannel | server/core/channels/channels.service.ts:35-84 | result, new record and effects are those of `Lookup` for the old record, which the lemmas below characterise |
| ChannelsProperties.BrowsesAppend | server/core/channels/channels.service.ts:45-75 | the browse requests of a concatenated trace are those of each part, in order |
| ChannelsProperties.BrowsesMembers | server/core/channels/channels.service.ts:45-75 | the browse requests listed for a trace are exactly the requests of its browse effects |
| ChannelsProperties.RefreshHasNoBrowse | server/core/channels/channels.service.ts:86-107 | `refreshApiKey` sends no browse request |
| ChannelsProperties.BrowseBothShape | server/core/channels/channels.service.ts:44-80 | featured request first; about request only when featured succeeded; mapped result exactly when both succeeded; otherwise a wrapped browse failure |
| ChannelsProperties.CachedKeyIsUsed | server/core/channels/channels.service.ts:36-42 | a non-empty stored key: no page fetch, no write, every request a browse with exactly that key, featured first |
| ChannelsProperties.RefreshRunsOnceFirst | server/core/channels/channels.service.ts:38-45 | no usable stored key: exactly one page fetch, at the head of the trace; the key is upserted before any browse request, and it is the key the browses use |
| ChannelsProperties.FailedFetchWritesNothing | server/core/channels/channels.service.ts:88-106 | failed fetch or empty text: no key, no write, only the page fetch; a lookup that needed it rejects with 'Error fetching channel' and browses nothing |
| ChannelsProperties.RefreshUpsertsExtractedKey | server/core/channels/channels.service.ts:100-104 | with a match, the refresh upserts exactly the extracted key and resolves to that same key |
| ChannelsProperties.RefreshIdempotent | server/core/channels/channels.service.ts:101-103 | refreshing twice from the same page leaves the record as refreshing once |
| ChannelsProperties.MissingPatternEscapes | server/core/channels/channels.service.ts:39-44 | non-empty page text without a match: the lookup rejects with the unwrapped TypeError, the record is unchanged and nothing is browsed |
| ChannelsProperties.LookupStages | server/core/channels/channels.service.ts:36-83 | a lookup is the key selection and then the browse stage with the selected key; without a non-empty key it rejects without browsing and with no browse failure |
| ChannelsProperties.BrowseRequestsAgree | server/core/channels/channels.service.ts:29-75 | at most two browse requests: featured, then about, with the same URL, key, channel id and client params; videos never requested; the key is non-empty and is the stored key afterwards |
| ChannelsProperties.LookupSucceedsExactly | server/core/channels/channels.service.ts:43-80 | the mapped pair of payloads exactly when two browse requests were sent and both succeeded; no partial result |
| ChannelsProperties.LookupFailures | server/core/channels/channels.service.ts:43-83 | 'Error fetching channel' and the escaping TypeError come without any browse request (the TypeError also without a write); a wrapped browse failure follows a failed last request |
| ChannelsProperties.StoreFollowsTrace | server/core/channels/channels.service.ts:36-104 | the record changes only through the upsert in the trace, and afterwards holds the key of every upsert in it |
| ChannelsProperties.FailureCauses | server/core/channels/channels.service.ts:36-43 | 'Error fetching channel' exactly when a needed refresh gave no key or an empty one (lines 43, 82); the escaping TypeError exactly when a needed refresh found no match (lines 39, 100) |
| ChannelsProperties.EmptyKeyPersisted | server/core/channels/channels.service.ts:99-104 | an extracted empty key is upserted, then the lookup rejects with 'Error fetching channel' after only the page fetch and that upsert |
| ChannelsProperties.FailedLookupStore | server/core/channels/channels.service.ts:39-83 | a failed lookup leaves the record as it was, or holding the key its refresh just upserted (a browse failure does not undo it) |
| ChannelsProperties.ScenarioPageKey | server/core/channels/channels.service.ts:100 | a page with markup before `"INNERTUBE_API_KEY":"ABC123",` yields exactly ABC123 |
| ChannelsProperties.ScenarioFirstLookup | server/core/channels/channels.service.ts:36-104 | empty record, page with markup and then `"INNERTUBE_API_KEY":"ABC123",`, both browses succeed: the mapped result is returned and the record holds ABC123 |
| ChannelsProperties.ScenarioAboutFails | server/core/channels/channels.service.ts:61-80 | record holds XYZ and the about call fails: wrapped internal-server error, record still XYZ |

## Left out

- HTTP details: URLs with their query string, the request headers and the JSON serialisation of the body. The model keeps the browse request's fields (URL, key, client params, browse id, section) and the page URL.
- Failures of the database calls. A rejection of `findOne` (line 36) or of `findOneAndUpdate` (lines 101-103) would reject `getChannel` unwrapped. The store is modelled as always available.
- `ChannelMapper.mapChannel` is a function parameter. A mapper that throws (wrapped at line 79) is not modelled.
- `console.log` at line 97 is a logging side effect.
- server/core/channels/channels.module.ts is dependency-injection wiring and response-cache configuration (TTL 1200, at most 200 entries). The cache itself belongs to the framework.
- Concurrent `getChannel` calls, which may each refresh and upsert, are not modelled. Each call is modelled as running alone.
- `None` for the stored key stands both for "no record" and for "record without a key". The source treats the two the same way (line 38).
- The redundant `else if` test at line 40 is modelled as a plain `else`: it always holds there.
- UTF-16 code units are modelled as Dafny characters.
