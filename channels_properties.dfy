/**
 * What a lookup of `ChannelsService.getChannel` guarantees, stated over the
 * specification `Lookup` that the method is proved to follow.
 */
module ChannelsProperties {
  import opened Wrappers
  import opened KeyExtraction
  import opened Channels

  /** The browse requests of a concatenated trace are those of each part, in order. */
  lemma {:induction false} BrowsesAppend(a: seq<Effect>, b: seq<Effect>)
    ensures Browses(a + b) == Browses(a) + Browses(b)
    decreases |a|
  {
    if a == [] {
      assert a + b == b;
    } else {
      var head := if a[0].Browse? then [a[0].request] else [];
      assert (a + b)[0] == a[0];
      assert (a + b)[1..] == a[1..] + b;
      BrowsesAppend(a[1..], b);
      calc {
        Browses(a + b);
        head + Browses(a[1..] + b);
        head + (Browses(a[1..]) + Browses(b));
        (head + Browses(a[1..])) + Browses(b);
      }
    }
  }

  /** The browse requests of a trace are exactly the requests of its `Browse` effects. */
  lemma {:induction false} BrowsesMembers(effects: seq<Effect>)
    ensures forall x :: x in Browses(effects) <==> Browse(x) in effects
    decreases |effects|
  {
    if effects != [] {
      BrowsesMembers(effects[1..]);
      assert effects == [effects[0]] + effects[1..];
    }
  }

  /** The refresh part of a trace holds no browse request. */
  lemma RefreshHasNoBrowse(r: Refresh)
    ensures Browses(RefreshEffects(r)) == []
  {
    var effects := RefreshEffects(r);
    var tail := effects[1..];
    if r.Key? {
      assert tail == [UpsertKey(r.key)] && tail[1..] == [];
      assert Browses(tail) == [] + Browses(tail[1..]);
    } else {
      assert tail == [];
    }
    assert Browses(effects) == [] + Browses(tail);
  }

  /**
   * The browse stage: the featured request, then the about request only when the
   * featured one succeeded; a result only when both succeeded.
   */
  lemma BrowseBothShape<Dto>(key: string, channelId: string, upstream: BrowseRequest -> BrowseResult,
                             mapChannel: (Json, Json) -> Dto)
    ensures var (outcome, effects) := BrowseBoth(key, channelId, upstream, mapChannel);
            var featured := BrowseFor(key, channelId, FeaturedParam);
            var about := BrowseFor(key, channelId, AboutParam);
            && (effects == [Browse(featured)] || effects == [Browse(featured), Browse(about)])
            && Browses(effects) == (if |effects| == 1 then [featured] else [featured, about])
            && (|effects| == 1 <==> upstream(featured).Failed?)
            && (outcome.Channel? <==> upstream(featured).Payload? && upstream(about).Payload?)
            && (outcome.Channel? ==> outcome.dto == mapChannel(upstream(featured).json, upstream(about).json))
            && (outcome.Thrown? ==> outcome.error == BrowseFailed)
  {
    var (outcome, effects) := BrowseBoth(key, channelId, upstream, mapChannel);
    var tail := effects[1..];
    if |effects| == 2 {
      assert tail == [effects[1]] && tail[1..] == [];
      assert Browses(tail) == [tail[0].request] + Browses(tail[1..]);
    } else {
      assert tail == [];
    }
    assert Browses(effects) == [effects[0].request] + Browses(tail);
  }

  /**
   * A usable cached key is used as it is: no page fetch, no write, and every
   * request of the lookup is a browse request with exactly that key.
   */
  lemma CachedKeyIsUsed<Dto>(stored: Option<string>, channelId: string, page: PageResult,
                             upstream: BrowseRequest -> BrowseResult, mapChannel: (Json, Json) -> Dto)
    requires HasUsableKey(stored)
    ensures var l := Lookup(stored, channelId, page, upstream, mapChannel);
            && l.stored == stored
            && l.effects != []
            && l.effects[0] == Browse(BrowseFor(stored.value, channelId, FeaturedParam))
            && forall k :: 0 <= k < |l.effects| ==> l.effects[k].Browse? && l.effects[k].request.key == stored.value
  {
  }

  /**
   * Without a usable cached key, `refreshApiKey` runs exactly once and first:
   * one page fetch at the head of the trace, none after it, and the key it
   * extracted is written before any browse request is sent.
   */
  lemma RefreshRunsOnceFirst<Dto>(stored: Option<string>, channelId: string, page: PageResult,
                                  upstream: BrowseRequest -> BrowseResult, mapChannel: (Json, Json) -> Dto)
    requires !HasUsableKey(stored)
    ensures var l := Lookup(stored, channelId, page, upstream, mapChannel);
            && l.effects != []
            && l.effects[0] == FetchPage(KeyPageUrl)
            && (forall k :: 1 <= k < |l.effects| ==> !l.effects[k].FetchPage?)
            && (Browses(l.effects) != [] ==> |l.effects| >= 2 && l.effects[1] == UpsertKey(Browses(l.effects)[0].key))
  {
    var l := Lookup(stored, channelId, page, upstream, mapChannel);
    var r := RefreshOf(page);
    LookupStages(stored, channelId, page, upstream, mapChannel);
    if r.Key? && r.key != "" {
      var (outcome, browses) := BrowseBoth(r.key, channelId, upstream, mapChannel);
      BrowseBothShape(r.key, channelId, upstream, mapChannel);
      assert l.effects == [FetchPage(KeyPageUrl), UpsertKey(r.key)] + browses;
      assert Browses(l.effects)[0].key == r.key;
    } else {
      assert l.effects == RefreshEffects(r) && Browses(l.effects) == [];
    }
  }

  /**
   * A page fetch that fails, or that yields empty text, gives no key and writes
   * nothing; a lookup that needed it rejects with 'Error fetching channel'
   * without any browse request.
   */
  lemma FailedFetchWritesNothing<Dto>(stored: Option<string>, channelId: string, page: PageResult,
                                      upstream: BrowseRequest -> BrowseResult, mapChannel: (Json, Json) -> Dto)
    requires page.FetchFailed? || page == Text("")
    ensures RefreshOf(page) == NoKey
    ensures AfterRefresh(stored, RefreshOf(page)) == stored
    ensures RefreshEffects(RefreshOf(page)) == [FetchPage(KeyPageUrl)]
    ensures !HasUsableKey(stored) ==>
              Lookup(stored, channelId, page, upstream, mapChannel)
              == LookupResult(Thrown(ErrorFetchingChannel), stored, [FetchPage(KeyPageUrl)])
  {
  }

  /**
   * A page whose text holds the pattern: `refreshApiKey` upserts exactly the
   * extracted key and resolves to that same key.
   */
  lemma RefreshUpsertsExtractedKey(stored: Option<string>, page: PageResult, key: string)
    requires page.Text? && ExtractKey(page.body) == Some(key)
    ensures RefreshOf(page) == Key(key)
    ensures AfterRefresh(stored, RefreshOf(page)) == Some(key)
    ensures RefreshEffects(RefreshOf(page)) == [FetchPage(KeyPageUrl), UpsertKey(key)]
  {
  }

  /** Refreshing twice from the same page leaves the same single record as refreshing once. */
  lemma RefreshIdempotent(stored: Option<string>, page: PageResult)
    ensures var once := AfterRefresh(stored, RefreshOf(page));
            AfterRefresh(once, RefreshOf(page)) == once
  {
  }

  /**
   * A non-empty page without the pattern: the lookup rejects with the TypeError
   * of `refreshApiKey`, which is not wrapped into an InternalServerErrorException,
   * after the page fetch alone: nothing is written and nothing is browsed.
   */
  lemma MissingPatternEscapes<Dto>(stored: Option<string>, channelId: string, body: string,
                                   upstream: BrowseRequest -> BrowseResult, mapChannel: (Json, Json) -> Dto)
    requires !HasUsableKey(stored)
    requires body != "" && forall i: nat :: !MatchAt(body, i)
    ensures var l := Lookup(stored, channelId, Text(body), upstream, mapChannel);
            && l.outcome == Thrown(KeyPatternMissing)
            && !IsInternalServerError(l.outcome.error)
            && l.stored == stored
            && l.effects == [FetchPage(KeyPageUrl)]
  {
  }

  /**
   * A lookup is the key selection followed by the browse stage: with a usable
   * cached key it is the browse stage alone; with a freshly extracted non-empty
   * key it is the refresh trace followed by the browse stage; otherwise it
   * sends no browse request.
   */
  lemma LookupStages<Dto>(stored: Option<string>, channelId: string, page: PageResult,
                          upstream: BrowseRequest -> BrowseResult, mapChannel: (Json, Json) -> Dto)
    ensures var l := Lookup(stored, channelId, page, upstream, mapChannel);
            var r := RefreshOf(page);
            && (HasUsableKey(stored) ==>
                  var (outcome, browses) := BrowseBoth(stored.value, channelId, upstream, mapChannel);
                  l == LookupResult(outcome, stored, browses) && Browses(l.effects) == Browses(browses))
            && (!HasUsableKey(stored) && r.Key? && r.key != "" ==>
                  var (outcome, browses) := BrowseBoth(r.key, channelId, upstream, mapChannel);
                  l == LookupResult(outcome, Some(r.key), RefreshEffects(r) + browses)
                  && Browses(l.effects) == Browses(browses))
            && (!HasUsableKey(stored) && !(r.Key? && r.key != "") ==>
                  l.outcome.Thrown? && l.outcome.error != BrowseFailed
                  && l.effects == RefreshEffects(r) && Browses(l.effects) == []
                  && l.stored == AfterRefresh(stored, r))
  {
    var r := RefreshOf(page);
    RefreshHasNoBrowse(r);
    if !HasUsableKey(stored) && r.Key? && r.key != "" {
      var (outcome, browses) := BrowseBoth(r.key, channelId, upstream, mapChannel);
      BrowsesAppend(RefreshEffects(r), browses);
    }
  }

  /**
   * Every lookup sends at most two browse requests, the featured section first
   * and the about section second, both with the same key, channel id and client
   * parameters; the videos section is never requested; and the key is non-empty
   * and the one held in the store afterwards.
   */
  lemma BrowseRequestsAgree<Dto>(stored: Option<string>, channelId: string, page: PageResult,
                                 upstream: BrowseRequest -> BrowseResult, mapChannel: (Json, Json) -> Dto)
    ensures var l := Lookup(stored, channelId, page, upstream, mapChannel);
            var requests := Browses(l.effects);
            && |requests| <= 2
            && (forall k :: 0 <= k < |requests| ==>
                  requests[k] == BrowseFor(requests[0].key, channelId, if k == 0 then FeaturedParam else AboutParam))
            && (forall k :: 0 <= k < |requests| ==> requests[k].params != VideosParam)
            && (requests != [] ==> requests[0].key != "" && l.stored == Some(requests[0].key))
  {
    LookupStages(stored, channelId, page, upstream, mapChannel);
    var r := RefreshOf(page);
    if HasUsableKey(stored) {
      BrowseBothShape(stored.value, channelId, upstream, mapChannel);
    } else if r.Key? && r.key != "" {
      BrowseBothShape(r.key, channelId, upstream, mapChannel);
    }
  }

  /**
   * A lookup returns the mapped pair of payloads exactly when two browse
   * requests were sent and both succeeded; there is no partial result.
   */
  lemma LookupSucceedsExactly<Dto>(stored: Option<string>, channelId: string, page: PageResult,
                              upstream: BrowseRequest -> BrowseResult, mapChannel: (Json, Json) -> Dto)
    ensures var l := Lookup(stored, channelId, page, upstream, mapChannel);
            var requests := Browses(l.effects);
            && (l.outcome.Channel? <==>
                  |requests| == 2 && upstream(requests[0]).Payload? && upstream(requests[1]).Payload?)
            && (l.outcome.Channel? ==>
                  l.outcome.dto == mapChannel(upstream(requests[0]).json, upstream(requests[1]).json))
  {
    LookupStages(stored, channelId, page, upstream, mapChannel);
    var r := RefreshOf(page);
    if HasUsableKey(stored) {
      BrowseBothShape(stored.value, channelId, upstream, mapChannel);
    } else if r.Key? && r.key != "" {
      BrowseBothShape(r.key, channelId, upstream, mapChannel);
    }
  }

  /**
   * How a lookup fails: 'Error fetching channel' and the escaping TypeError come
   * without any browse request; a wrapped browse failure comes right after the
   * request that failed.
   */
  lemma LookupFailures<Dto>(stored: Option<string>, channelId: string, page: PageResult,
                              upstream: BrowseRequest -> BrowseResult, mapChannel: (Json, Json) -> Dto)
    ensures var l := Lookup(stored, channelId, page, upstream, mapChannel);
            var requests := Browses(l.effects);
            && (l.outcome == Thrown(ErrorFetchingChannel) ==> requests == [])
            && (l.outcome == Thrown(KeyPatternMissing) ==> requests == [] && l.stored == stored)
            && (l.outcome == Thrown(BrowseFailed) ==>
                  requests != [] && upstream(requests[|requests| - 1]).Failed?)
  {
    LookupStages(stored, channelId, page, upstream, mapChannel);
    var r := RefreshOf(page);
    if HasUsableKey(stored) {
      BrowseBothShape(stored.value, channelId, upstream, mapChannel);
    } else if r.Key? && r.key != "" {
      BrowseBothShape(r.key, channelId, upstream, mapChannel);
    }
  }

  /**
   * When each key-selection failure arises: 'Error fetching channel' exactly
   * when a needed refresh gave no key or an empty one; the escaping TypeError
   * exactly when a needed refresh found no match.
   */
  lemma FailureCauses<Dto>(stored: Option<string>, channelId: string, page: PageResult,
                           upstream: BrowseRequest -> BrowseResult, mapChannel: (Json, Json) -> Dto)
    ensures var l := Lookup(stored, channelId, page, upstream, mapChannel);
            && (l.outcome == Thrown(ErrorFetchingChannel) <==>
                  !HasUsableKey(stored) && (RefreshOf(page) == NoKey || RefreshOf(page) == Key("")))
            && (l.outcome == Thrown(KeyPatternMissing) <==>
                  !HasUsableKey(stored) && RefreshOf(page) == MatchMissing)
  {
  }

  /**
   * An extracted empty key is upserted, and the lookup then rejects with
   * 'Error fetching channel' without browsing: the one failure that leaves the
   * record holding an empty key.
   */
  lemma EmptyKeyPersisted<Dto>(stored: Option<string>, channelId: string, page: PageResult,
                               upstream: BrowseRequest -> BrowseResult, mapChannel: (Json, Json) -> Dto)
    requires !HasUsableKey(stored) && RefreshOf(page) == Key("")
    ensures var l := Lookup(stored, channelId, page, upstream, mapChannel);
            && l.outcome == Thrown(ErrorFetchingChannel)
            && l.stored == Some("")
            && l.effects == [FetchPage(KeyPageUrl), UpsertKey("")]
  {
  }

  /**
   * A failed lookup leaves the record as it was, or holding the key its refresh
   * just upserted: a browse failure does not undo that upsert.
   */
  lemma FailedLookupStore<Dto>(stored: Option<string>, channelId: string, page: PageResult,
                               upstream: BrowseRequest -> BrowseResult, mapChannel: (Json, Json) -> Dto)
    ensures var l := Lookup(stored, channelId, page, upstream, mapChannel);
            l.outcome.Thrown? ==>
              l.stored == stored
              || (!HasUsableKey(stored) && RefreshOf(page).Key? && l.stored == Some(RefreshOf(page).key))
  {
  }

  /**
   * The record changes only through the upsert in the trace, and after the
   * lookup holds the key of every upsert in it.
   */
  lemma StoreFollowsTrace<Dto>(stored: Option<string>, channelId: string, page: PageResult,
                              upstream: BrowseRequest -> BrowseResult, mapChannel: (Json, Json) -> Dto)
    ensures var l := Lookup(stored, channelId, page, upstream, mapChannel);
            && (l.stored != stored ==> l.stored.Some? && UpsertKey(l.stored.value) in l.effects)
            && (forall e :: e in l.effects && e.UpsertKey? ==> l.stored == Some(e.key))
  {
  }

  /** Markup that precedes the key on the scenario page. */
  const ScenarioMarkup: string := "<script>ytcfg.set({"

  /** The scenario page yields ABC123, although the literal is not at its start. */
  lemma ScenarioPageKey(rest: string)
    ensures ExtractKey(ScenarioMarkup + KeyPrefix + "ABC123" + KeySuffix + rest) == Some("ABC123")
  {
    var body := ScenarioMarkup + KeyPrefix + "ABC123" + KeySuffix + rest;
    forall i: nat | i < |ScenarioMarkup| ensures !MatchAt(body, i) {
      assert body[i] == ScenarioMarkup[i];
      assert !SameIgnoringCase(body[i], KeyPrefix[0]);
    }
    ExtractEmbedded(ScenarioMarkup, KeyPrefix, "ABC123", rest);
  }

  /**
   * An empty store, a page whose markup is followed by
   * `"INNERTUBE_API_KEY":"ABC123",` and two successful browse calls: the lookup
   * returns the mapped payloads and the store now holds ABC123.
   */
  lemma ScenarioFirstLookup<Dto>(channelId: string, rest: string, featured: Json, about: Json,
                                 mapChannel: (Json, Json) -> Dto)
    ensures var upstream := (req: BrowseRequest) => if req.params == FeaturedParam then Payload(featured) else Payload(about);
            var l := Lookup(None, channelId, Text(ScenarioMarkup + KeyPrefix + "ABC123" + KeySuffix + rest), upstream, mapChannel);
            l.outcome == Channel(mapChannel(featured, about)) && l.stored == Some("ABC123")
  {
    ScenarioPageKey(rest);
  }

  /**
   * The store holds XYZ and the about call fails: the lookup rejects with a
   * wrapped browse failure and the store still holds XYZ.
   */
  lemma ScenarioAboutFails<Dto>(channelId: string, page: PageResult, featured: Json, mapChannel: (Json, Json) -> Dto)
    ensures var upstream := (req: BrowseRequest) => if req.params == AboutParam then Failed else Payload(featured);
            var l := Lookup(Some("XYZ"), channelId, page, upstream, mapChannel);
            l.outcome == Thrown(BrowseFailed) && IsInternalServerError(l.outcome.error) && l.stored == Some("XYZ")
  {
  }
}
