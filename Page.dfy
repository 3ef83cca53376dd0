/**
 * The home page's market list: one list shown for the active feed, replaced
 * wholesale by a snapshot fetch, extended at its head by `NEW_MINT` push
 * events (deduplicated by url, live feed only) and patched by trade results
 * (matched by id). The list rules are pure functions; `HomePage` holds the
 * component state and assigns their results.
 */
module Page {
  import opened Env
  import opened ActivityFeed

  datatype FeedType = Top | Live

  /**
   * A push-channel message: either text that `JSON.parse` rejects (the
   * handler catches that and ignores the message), or a parsed event with
   * its `type` and its `market`. A `NEW_MINT` event without a `market` object
   * is not a value of this type: its `market.url` is read inside the state
   * updater, which React runs outside the handler's `try`.
   */
  datatype PushMessage = Unparseable | Event(kind: string, market: Market)

  /** The snapshot request's result: the decoded array, or a non-2xx/throw. */
  datatype FetchOutcome = Fetched(markets: seq<Market>) | FetchFailed

  const NewMint := "NEW_MINT"
  const DefaultApiBaseUrl := "http://localhost:3000"

  // ---------------------------------------------------------------------------
  // Endpoints
  // ---------------------------------------------------------------------------

  /** `NEXT_PUBLIC_API_BASE_URL || 'http://localhost:3000'`. */
  function ApiBaseUrl(env: Option<string>): (base: string)
    ensures base != ""
    ensures Present(env) ==> base == env.value
    ensures !Present(env) ==> base == DefaultApiBaseUrl
  {
    if Present(env) then env.value else DefaultApiBaseUrl
  }

  /** The snapshot path of each feed. */
  function EndpointPath(feed: FeedType): (path: string)
    ensures path == "markets/top" <==> feed.Top?
    ensures path == "markets" <==> feed.Live?
  {
    match feed
    case Top => "markets/top"
    case Live => "markets"
  }

  /** `${apiBaseUrl}/${endpointPath}`: the snapshot URL of a feed. */
  function SnapshotEndpoint(env: Option<string>, feed: FeedType): (endpoint: string)
    ensures StartsWith(endpoint, ApiBaseUrl(env) + "/")
    // what follows the origin and its slash is exactly the feed's own path
    ensures endpoint[|ApiBaseUrl(env)| + 1..] == EndpointPath(feed)
  {
    var b := ApiBaseUrl(env) + "/";
    var e := b + EndpointPath(feed);
    assert e[..|b|] == b;
    assert e[|b|..] == EndpointPath(feed);
    e
  }

  /** The two feeds never read their snapshot from the same endpoint. */
  lemma SnapshotEndpointsDiffer(env: Option<string>)
    ensures SnapshotEndpoint(env, Top) != SnapshotEndpoint(env, Live)
  {
    assert |SnapshotEndpoint(env, Top)| != |SnapshotEndpoint(env, Live)|;
  }

  // ---------------------------------------------------------------------------
  // List rules
  // ---------------------------------------------------------------------------

  predicate HasUrl(list: seq<Market>, url: string)
  {
    exists i :: 0 <= i < |list| && list[i].url == url
  }

  /** The feed invariant: no two entries share a url. */
  predicate UrlsUnique(list: seq<Market>)
  {
    forall i, j :: 0 <= i < j < |list| ==> list[i].url != list[j].url
  }

  /** `list.find(m => m.url === url)`: the first entry with that url, if any. */
  function FindByUrl(list: seq<Market>, url: string): (r: Option<Market>)
    ensures r.None? <==> !HasUrl(list, url)
    ensures r.Some? ==> r.value.url == url && r.value in list
    ensures r.Some? ==>
              exists i :: 0 <= i < |list| && list[i] == r.value && forall j :: 0 <= j < i ==> list[j].url != url
  {
    if list == [] then None
    else if list[0].url == url then Some(list[0])
    else
      var r := FindByUrl(list[1..], url);
      assert r.Some? ==>
               exists i :: 0 <= i < |list| && list[i] == r.value && forall j :: 0 <= j < i ==> list[j].url != url
      by {
        if r.Some? {
          var k :| 0 <= k < |list[1..]| && list[1..][k] == r.value && forall j :: 0 <= j < k ==> list[1..][j].url != url;
          assert list[k + 1] == r.value;
          forall j | 0 <= j < k + 1
            ensures list[j].url != url
          {
            if j > 0 {
              assert list[j] == list[1..][j - 1];
            }
          }
        }
      }
      assert HasUrl(list, url) ==> HasUrl(list[1..], url) by {
        if HasUrl(list, url) {
          var i :| 0 <= i < |list| && list[i].url == url;
          assert list[1..][i - 1].url == url;
        }
      }
      assert HasUrl(list[1..], url) ==> HasUrl(list, url) by {
        if HasUrl(list[1..], url) {
          var i :| 0 <= i < |list[1..]| && list[1..][i].url == url;
          assert list[i + 1].url == url;
        }
      }
      r
  }

  /**
   * The `NEW_MINT` update: prepend the market unless an entry with its url is
   * already present, in which case the list is returned as it was.
   */
  function InsertStreamed(list: seq<Market>, m: Market): (r: seq<Market>)
    ensures HasUrl(list, m.url) ==> r == list
    ensures !HasUrl(list, m.url) ==> r == [m] + list
    ensures HasUrl(r, m.url)
    ensures UrlsUnique(list) ==> UrlsUnique(r)
  {
    if FindByUrl(list, m.url).Some? then list
    else
      assert ([m] + list)[0].url == m.url;
      [m] + list
  }

  /**
   * The websocket effect: only a parsed `NEW_MINT` event received while the
   * live feed is active changes the list.
   */
  function ApplyMessage(list: seq<Market>, feed: FeedType, msg: PushMessage): (r: seq<Market>)
    ensures msg.Unparseable? || feed.Top? || msg.kind != NewMint ==> r == list
    ensures msg.Event? && feed.Live? && msg.kind == NewMint ==>
              r == InsertStreamed(list, msg.market) && HasUrl(r, msg.market.url)
    // nothing is dropped or reordered: the old list is always the tail of the new one
    ensures |list| <= |r| <= |list| + 1 && r[|r| - |list|..] == list
    ensures UrlsUnique(list) ==> UrlsUnique(r)
  {
    if msg.Event? && msg.kind == NewMint && feed.Live? then InsertStreamed(list, msg.market) else list
  }

  /** Delivering the same message twice has the effect of delivering it once. */
  lemma ApplyMessageIdempotent(list: seq<Market>, feed: FeedType, msg: PushMessage)
    ensures ApplyMessage(ApplyMessage(list, feed, msg), feed, msg) == ApplyMessage(list, feed, msg)
  {
  }

  /** The list after a run of messages delivered in order on one feed. */
  function ApplyAll(list: seq<Market>, feed: FeedType, msgs: seq<PushMessage>): (r: seq<Market>)
    decreases |msgs|
  {
    if msgs == [] then list else ApplyAll(ApplyMessage(list, feed, msgs[0]), feed, msgs[1..])
  }

  /** A message is absorbed by a list when applying it changes nothing. */
  predicate Absorbed(list: seq<Market>, feed: FeedType, msg: PushMessage)
  {
    ApplyMessage(list, feed, msg) == list
  }

  /** Urls are never removed by stream events. */
  lemma {:induction false} ApplyAllKeepsUrls(list: seq<Market>, feed: FeedType, msgs: seq<PushMessage>, url: string)
    requires HasUrl(list, url)
    ensures HasUrl(ApplyAll(list, feed, msgs), url)
    decreases |msgs|
  {
    if msgs != [] {
      var next := ApplyMessage(list, feed, msgs[0]);
      var i :| 0 <= i < |list| && list[i].url == url;
      assert next[|next| - |list| + i] == list[i];
      ApplyAllKeepsUrls(next, feed, msgs[1..], url);
    }
  }

  /** Once absorbed, a message stays absorbed whatever else is streamed. */
  lemma AbsorbedAfterAll(list: seq<Market>, feed: FeedType, msgs: seq<PushMessage>, msg: PushMessage)
    requires Absorbed(list, feed, msg)
    ensures Absorbed(ApplyAll(list, feed, msgs), feed, msg)
  {
    if msg.Event? && feed.Live? && msg.kind == NewMint {
      assert HasUrl(list, msg.market.url);
      ApplyAllKeepsUrls(list, feed, msgs, msg.market.url);
    }
  }

  /** Every message of a run is absorbed by the list the run produces. */
  lemma {:induction false} ApplyAllAbsorbs(list: seq<Market>, feed: FeedType, msgs: seq<PushMessage>, k: nat)
    requires k < |msgs|
    ensures Absorbed(ApplyAll(list, feed, msgs), feed, msgs[k])
    decreases |msgs|
  {
    var next := ApplyMessage(list, feed, msgs[0]);
    if k == 0 {
      ApplyMessageIdempotent(list, feed, msgs[0]);
      AbsorbedAfterAll(next, feed, msgs[1..], msgs[0]);
    } else {
      ApplyAllAbsorbs(next, feed, msgs[1..], k - 1);
    }
  }

  /** Replaying absorbed messages leaves the list as it is. */
  lemma {:induction false} ApplyAllAbsorbedIsNoOp(list: seq<Market>, feed: FeedType, msgs: seq<PushMessage>)
    requires forall k :: 0 <= k < |msgs| ==> Absorbed(list, feed, msgs[k])
    ensures ApplyAll(list, feed, msgs) == list
    decreases |msgs|
  {
    if msgs != [] {
      ApplyAllAbsorbedIsNoOp(list, feed, msgs[1..]);
    }
  }

  /**
   * Duplicate delivery after a reconnect is harmless: re-sending any
   * selection of already delivered messages leaves the feed unchanged.
   */
  lemma RedeliveryIsNoOp(list: seq<Market>, feed: FeedType, msgs: seq<PushMessage>, again: seq<PushMessage>)
    requires forall k :: 0 <= k < |again| ==> again[k] in msgs
    ensures ApplyAll(ApplyAll(list, feed, msgs), feed, again) == ApplyAll(list, feed, msgs)
  {
    var after := ApplyAll(list, feed, msgs);
    forall k | 0 <= k < |again|
      ensures Absorbed(after, feed, again[k])
    {
      var j :| 0 <= j < |msgs| && msgs[j] == again[k];
      ApplyAllAbsorbs(list, feed, msgs, j);
    }
    ApplyAllAbsorbedIsNoOp(after, feed, again);
  }

  /** Stream processing keeps urls unique over any run of messages. */
  lemma {:induction false} ApplyAllKeepsUnique(list: seq<Market>, feed: FeedType, msgs: seq<PushMessage>)
    requires UrlsUnique(list)
    ensures UrlsUnique(ApplyAll(list, feed, msgs))
    decreases |msgs|
  {
    if msgs != [] {
      ApplyAllKeepsUnique(ApplyMessage(list, feed, msgs[0]), feed, msgs[1..]);
    }
  }

  /**
   * `handleTradeSuccess`'s list update: every entry whose id equals the
   * returned market's id becomes that market; all others stay as they were.
   */
  function ReplaceById(list: seq<Market>, updated: Market): (r: seq<Market>)
    ensures |r| == |list|
    ensures forall i :: 0 <= i < |list| && list[i].id == updated.id ==> r[i] == updated
    ensures forall i :: 0 <= i < |list| && list[i].id != updated.id ==> r[i] == list[i]
  {
    if list == [] then []
    else [if list[0].id == updated.id then updated else list[0]] + ReplaceById(list[1..], updated)
  }

  /** A result for a market not in the list changes nothing. */
  lemma ReplaceByIdNoMatch(list: seq<Market>, updated: Market)
    requires forall i :: 0 <= i < |list| ==> list[i].id != updated.id
    ensures ReplaceById(list, updated) == list
  {
  }

  /** Applying the same trade result twice is the same as applying it once. */
  lemma ReplaceByIdIdempotent(list: seq<Market>, updated: Market)
    ensures ReplaceById(ReplaceById(list, updated), updated) == ReplaceById(list, updated)
  {
  }

  /**
   * A trade result keeps the feed's urls unique as long as the server returns
   * the market under the url it already had.
   */
  lemma ReplaceByIdKeepsUnique(list: seq<Market>, updated: Market)
    requires UrlsUnique(list)
    requires forall i :: 0 <= i < |list| && list[i].id == updated.id ==> list[i].url == updated.url
    ensures UrlsUnique(ReplaceById(list, updated))
  {
    var r := ReplaceById(list, updated);
    forall i, j | 0 <= i < j < |r|
      ensures r[i].url != r[j].url
    {
      assert r[i].url == list[i].url && r[j].url == list[j].url;
    }
  }

  // ---------------------------------------------------------------------------
  // Component state
  // ---------------------------------------------------------------------------

  /** `HomePage`: the list, the market open in the trade modal and the active feed. */
  class HomePage {
    const apiEnv: Option<string>
    var markets: seq<Market>
    var selectedMarket: Option<Market>
    var activeFeed: FeedType
    /** The websocket hook's most recent message, which its effect re-reads when the feed changes. */
    var lastMessage: Option<PushMessage>

    constructor (apiEnv: Option<string>)
      ensures this.apiEnv == apiEnv
      ensures markets == [] && selectedMarket == None && activeFeed == Top && lastMessage == None
    {
      this.apiEnv := apiEnv;
      markets := [];
      selectedMarket := None;
      activeFeed := Top;
      lastMessage := None;
    }

    /**
     * `fetchMarkets` up to its `await`: the request goes to the endpoint of
     * the feed active now. Also the callback run after a successful mint.
     */
    method StartFetch() returns (endpoint: string)
      ensures endpoint == SnapshotEndpoint(apiEnv, activeFeed)
      ensures StartsWith(endpoint, ApiBaseUrl(apiEnv) + "/")
    {
      endpoint := SnapshotEndpoint(apiEnv, activeFeed);
      assert endpoint[..|ApiBaseUrl(apiEnv) + "/"|] == ApiBaseUrl(apiEnv) + "/";
    }

    /**
     * The rest of `fetchMarkets`: a decoded snapshot replaces the list
     * entirely; a failure leaves it untouched. The response is applied
     * whatever feed is active by the time it arrives.
     */
    method CompleteFetch(outcome: FetchOutcome)
      modifies this
      ensures markets == (if outcome.Fetched? then outcome.markets else old(markets))
      ensures selectedMarket == old(selectedMarket) && activeFeed == old(activeFeed)
      ensures lastMessage == old(lastMessage)
    {
      if outcome.Fetched? {
        markets := outcome.markets;
      }
    }

    /** A new websocket message and the effect it triggers. */
    method ReceiveMessage(msg: PushMessage)
      modifies this
      ensures lastMessage == Some(msg)
      ensures markets == ApplyMessage(old(markets), activeFeed, msg)
      ensures UrlsUnique(old(markets)) ==> UrlsUnique(markets)
      ensures selectedMarket == old(selectedMarket) && activeFeed == old(activeFeed)
    {
      lastMessage := Some(msg);
      markets := ApplyMessage(markets, activeFeed, msg);
    }

    /**
     * A feed tab click. Setting the same feed is no change at all; a new
     * feed re-runs both effects that depend on it: a snapshot fetch for the
     * new feed, and the websocket effect on the message last received.
     */
    method SetActiveFeed(feed: FeedType) returns (fetch: Option<string>)
      modifies this
      ensures activeFeed == feed
      ensures feed == old(activeFeed) ==> fetch == None && markets == old(markets)
      ensures feed != old(activeFeed) ==> fetch == Some(SnapshotEndpoint(apiEnv, feed))
      ensures feed != old(activeFeed) && old(lastMessage).Some? ==>
                markets == ApplyMessage(old(markets), feed, old(lastMessage).value)
      ensures old(lastMessage).None? ==> markets == old(markets)
      ensures UrlsUnique(old(markets)) ==> UrlsUnique(markets)
      ensures selectedMarket == old(selectedMarket) && lastMessage == old(lastMessage)
    {
      if feed == activeFeed {
        return None;
      }
      activeFeed := feed;
      fetch := Some(SnapshotEndpoint(apiEnv, feed));
      if lastMessage.Some? {
        markets := ApplyMessage(markets, feed, lastMessage.value);
      }
    }

    /** `handleTradeSuccess`: patch the list by id and show the returned market. */
    method HandleTradeSuccess(updated: Market)
      modifies this
      ensures markets == ReplaceById(old(markets), updated)
      ensures selectedMarket == Some(updated)
      ensures activeFeed == old(activeFeed) && lastMessage == old(lastMessage)
    {
      markets := ReplaceById(markets, updated);
      selectedMarket := Some(updated);
    }

    /** A card's Trade button, or a market picked in the portfolio: open the trade modal on it. */
    method OpenTradeModal(m: Market)
      modifies this
      ensures selectedMarket == Some(m)
      ensures markets == old(markets) && activeFeed == old(activeFeed) && lastMessage == old(lastMessage)
    {
      selectedMarket := Some(m);
    }

    /** The trade modal's close handler. */
    method CloseTradeModal()
      modifies this
      ensures selectedMarket == None
      ensures markets == old(markets) && activeFeed == old(activeFeed) && lastMessage == old(lastMessage)
    {
      selectedMarket := None;
    }
  }

  /** Scenario: an event delivered twice to an empty live feed yields one entry. */
  lemma DuplicateEventScenario(m: Market)
    ensures ApplyAll([], Live, [Event(NewMint, m), Event(NewMint, m)]) == [m]
  {
    var e := Event(NewMint, m);
    assert ApplyMessage([], Live, e) == [m];
    assert [e, e][1..] == [e];
    assert ApplyMessage([m], Live, e) == [m] by {
      assert [m][0].url == m.url;
    }
    assert ApplyAll([m], Live, [e]) == ApplyAll([m], Live, []);
  }
}
