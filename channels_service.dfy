/**
 * `ChannelsService` of server/core/channels/channels.service.ts: the cached
 * innertube API key, its refresh from a scraped page, and the two browse calls
 * of a channel lookup.
 *
 * Network and database are abstracted: the page fetch is an input
 * `PageResult`, the browse endpoint a function `upstream` from request to
 * result, the `{version: 1}` record of the general collection the field
 * `storedKey`, and `ChannelMapper.mapChannel` a function parameter. Every
 * outside effect a call has is listed, in order, in an effect trace.
 */
module Channels {
  import opened Wrappers
  import opened KeyExtraction

  /** The parsed body of a browse response (`response.json()`); the service forwards it untouched. */
  type Json = string

  /** The `context.client` object sent with every browse request. */
  datatype ClientParams = ClientParams(
    hl: string,
    userAgent: string,
    clientName: string,
    clientVersion: string,
    osName: string,
    browserName: string,
    browserVersion: string,
    screenHeightPoints: int,
    screenPixelDensity: int,
    screenWidthPoints: int)

  const YoutubeClientParams: ClientParams := ClientParams(
    "en",
    "Mozilla/5.0 (Windows NT 10.0; Win64; x64) AppleWebKit/537.36 (KHTML, like Gecko) Chrome/85.0.4183.102 Safari/537.36",
    "WEB",
    "2.20200922.02.00",
    "Windows",
    "Chrome",
    "85.0.4183.102",
    767,
    1,
    1536)

  /** The section codes of the browse endpoint. */
  const FeaturedParam: string := "EghmZWF0dXJlZA%3D%3D"
  const VideosParam: string := "EgZ2aWRlb3M%3D"
  const AboutParam: string := "EgVhYm91dA%3D%3D"

  const ChannelApiUrl: string := "https://www.youtube.com/youtubei/v1/browse"
  /** The page the key is scraped from. */
  const KeyPageUrl: string := "https://www.youtube.com/channel/UCGkmcEne_L9uynfi44aW4Fw"

  /** A POST to `url?key=key` whose JSON body is `{context: {client}, browseId, params}`. */
  datatype BrowseRequest = BrowseRequest(url: string, key: string, client: ClientParams, browseId: string, params: string)

  /** What the page fetch yields: a transport failure (caught and logged), or the response text. */
  datatype PageResult = FetchFailed | Text(body: string)

  /** What one browse call yields: the parsed body, or a failure of the fetch or of `response.json()`. */
  datatype BrowseResult = Payload(json: Json) | Failed

  /** The outside effects of the service, in the order it causes them. */
  datatype Effect =
    | FetchPage(url: string)          // the GET of the key page
    | UpsertKey(key: string)          // findOneAndUpdate({version: 1}, {innertubeApiKey: key}, {upsert: true})
    | Browse(request: BrowseRequest)  // one POST to the browse endpoint

  /** What `refreshApiKey` settles to. */
  datatype Refresh =
    | NoKey             // resolves to null or undefined: the fetch failed or the text was empty
    | Key(key: string)  // resolves to the extracted key
    | MatchMissing      // rejects: `match` returned null and reading `[1]` of it threw a TypeError

  /** The exceptions `getChannel` rejects with. */
  datatype ChannelError =
    | KeyPatternMissing     // the TypeError of `refreshApiKey`, escaping unwrapped
    | ErrorFetchingChannel  // InternalServerErrorException('Error fetching channel')
    | BrowseFailed          // InternalServerErrorException wrapping a browse failure

  datatype Outcome<Dto> = Channel(dto: Dto) | Thrown(error: ChannelError)

  /** Whether a rejection of `getChannel` is an `InternalServerErrorException`. */
  predicate IsInternalServerError(e: ChannelError) {
    e != KeyPatternMissing
  }

  /** `generalRecord && generalRecord.innertubeApiKey` is truthy. */
  predicate HasUsableKey(stored: Option<string>) {
    stored.Some? && stored.value != ""
  }

  /** The browse request of one section, with the key, channel and client of the lookup. */
  function BrowseFor(key: string, channelId: string, section: string): BrowseRequest {
    BrowseRequest(ChannelApiUrl, key, YoutubeClientParams, channelId, section)
  }

  /** What `refreshApiKey` settles to for a given page fetch. */
  function RefreshOf(page: PageResult): (r: Refresh)
    ensures page.FetchFailed? || page == Text("") ==> r == NoKey
    ensures r.Key? <==> page.Text? && exists i: nat :: MatchAt(page.body, i)
    ensures r.Key? ==> forall i: nat, j: nat :: IsFirstMatch(page.body, i, j) ==> r.key == page.body[i + |KeyPrefix|..j]
    ensures r == MatchMissing <==> page.Text? && page.body != "" && forall i: nat :: !MatchAt(page.body, i)
  {
    match page
    case FetchFailed => NoKey
    case Text(body) =>
      if body == "" then NoKey
      else
        match ExtractKey(body)
        case None => MatchMissing
        case Some(key) => Key(key)
  }

  /** The stored key after a refresh: an upsert of the key when one was extracted, untouched otherwise. */
  function AfterRefresh(stored: Option<string>, r: Refresh): Option<string> {
    if r.Key? then Some(r.key) else stored
  }

  /** The effects of one `refreshApiKey`: the page fetch, then the upsert when a key was extracted. */
  function RefreshEffects(r: Refresh): seq<Effect> {
    [FetchPage(KeyPageUrl)] + (if r.Key? then [UpsertKey(r.key)] else [])
  }

  /** The result of a lookup: what `getChannel` settles to, the stored key afterwards, and the effects in order. */
  datatype LookupResult<Dto> = LookupResult(outcome: Outcome<Dto>, stored: Option<string>, effects: seq<Effect>)

  /**
   * The featured request, then (when that succeeded) the about request, then the
   * mapper applied to both payloads; any failure rejects the whole lookup.
   */
  function BrowseBoth<Dto>(key: string, channelId: string, upstream: BrowseRequest -> BrowseResult,
                           mapChannel: (Json, Json) -> Dto): (Outcome<Dto>, seq<Effect>)
  {
    var featured := BrowseFor(key, channelId, FeaturedParam);
    var about := BrowseFor(key, channelId, AboutParam);
    match upstream(featured)
    case Failed => (Thrown(BrowseFailed), [Browse(featured)])
    case Payload(rawChannelData) =>
      match upstream(about)
      case Failed => (Thrown(BrowseFailed), [Browse(featured), Browse(about)])
      case Payload(rawAboutData) => (Channel(mapChannel(rawChannelData, rawAboutData)), [Browse(featured), Browse(about)])
  }

  /** `getChannel(channelId)` started with `stored` as the version-1 record's key. */
  function Lookup<Dto>(stored: Option<string>, channelId: string, page: PageResult,
                       upstream: BrowseRequest -> BrowseResult, mapChannel: (Json, Json) -> Dto): LookupResult<Dto>
  {
    if HasUsableKey(stored) then
      var (outcome, browses) := BrowseBoth(stored.value, channelId, upstream, mapChannel);
      LookupResult(outcome, stored, browses)
    else
      var refreshed := RefreshOf(page);
      var after := AfterRefresh(stored, refreshed);
      var refreshEffects := RefreshEffects(refreshed);
      match refreshed
      case MatchMissing => LookupResult(Thrown(KeyPatternMissing), after, refreshEffects)
      case NoKey => LookupResult(Thrown(ErrorFetchingChannel), after, refreshEffects)
      case Key(key) =>
        if key == "" then LookupResult(Thrown(ErrorFetchingChannel), after, refreshEffects)
        else
          var (outcome, browses) := BrowseBoth(key, channelId, upstream, mapChannel);
          LookupResult(outcome, after, refreshEffects + browses)
  }

  /** The browse requests among a trace of effects, in order. */
  function Browses(effects: seq<Effect>): seq<BrowseRequest>
  {
    if effects == [] then []
    else (if effects[0].Browse? then [effects[0].request] else []) + Browses(effects[1..])
  }

  class ChannelsService {
    /** `innertubeApiKey` of the `{version: 1}` record; None when there is no record or no key in it. */
    var storedKey: Option<string>

    constructor (initial: Option<string>)
      ensures storedKey == initial
    {
      storedKey := initial;
    }

    /** `refreshApiKey()`, given what the page fetch yields. */
    method RefreshApiKey(page: PageResult) returns (apiKey: Refresh, effects: seq<Effect>)
      modifies this
      ensures apiKey == RefreshOf(page)
      ensures storedKey == AfterRefresh(old(storedKey), apiKey)
      ensures effects == RefreshEffects(apiKey)
    {
      effects := [FetchPage(KeyPageUrl)];
      var rawSite: Option<string> := if page.Text? then Some(page.body) else None;
      if rawSite.Some? && rawSite.value != "" {
        var matched := ExtractKey(rawSite.value);
        if matched.None? {
          apiKey := MatchMissing;
          return;
        }
        storedKey := Some(matched.value);
        effects := effects + [UpsertKey(matched.value)];
        apiKey := Key(matched.value);
      } else {
        apiKey := NoKey;
      }
    }

    /** `getChannel(channelId)`, given the page fetch a refresh would see and the browse endpoint. */
    method GetChannel<Dto>(channelId: string, page: PageResult, upstream: BrowseRequest -> BrowseResult,
                           mapChannel: (Json, Json) -> Dto) returns (result: Outcome<Dto>, effects: seq<Effect>)
      modifies this
      ensures var l := Lookup(old(storedKey), channelId, page, upstream, mapChannel);
              result == l.outcome && storedKey == l.stored && effects == l.effects
    {
      var generalRecord := storedKey;
      var apiKey: Option<string>;
      effects := [];
      if !HasUsableKey(generalRecord) {
        var refreshed, refreshEffects := RefreshApiKey(page);
        effects := refreshEffects;
        if refreshed.MatchMissing? {
          result := Thrown(KeyPatternMissing);
          return;
        }
        apiKey := if refreshed.Key? then Some(refreshed.key) else None;
      } else {
        apiKey := generalRecord;
      }
      if apiKey.Some? && apiKey.value != "" {
        var featured := BrowseFor(apiKey.value, channelId, FeaturedParam);
        effects := effects + [Browse(featured)];
        var rawChannelData := upstream(featured);
        if rawChannelData.Failed? {
          result := Thrown(BrowseFailed);
          return;
        }
        var about := BrowseFor(apiKey.value, channelId, AboutParam);
        effects := effects + [Browse(about)];
        var rawAboutData := upstream(about);
        if rawAboutData.Failed? {
          result := Thrown(BrowseFailed);
          return;
        }
        result := Channel(mapChannel(rawChannelData.json, rawAboutData.json));
      } else {
        result := Thrown(ErrorFetchingChannel);
      }
    }
  }
}
