/**
 * The market data model and the presentation rules of the activity feed:
 * classification of extracted content into one of six variants, resolution of
 * relative media paths, the sparkline's "enough data" and colour rules, and the
 * per-card state of a market card (write-once AI analysis, price history).
 */
module ActivityFeed {
  import opened Env

  // ---------------------------------------------------------------------------
  // Content variants
  // ---------------------------------------------------------------------------

  datatype TweetMedia = TweetMedia(image: Option<string>, video: Option<string>)
  datatype TweetContent = TweetContent(authorName: string, authorHandle: string, text: string, media: Option<TweetMedia>)
  datatype ArticleContent = ArticleContent(title: string, author: string)
  datatype TikTokVideoContent = TikTokVideoContent(videoUrl: string, authorHandle: string, text: string)
  datatype InstagramImageContent = InstagramImageContent(imageUrl: string, text: string)
  datatype InstagramReelContent = InstagramReelContent(videoUrl: string, text: string)
  datatype GenericLinkContent = GenericLinkContent(title: string, description: Option<string>, imageUrl: Option<string>)

  /**
   * Extracted content as it arrives from the server: a JSON object whose key
   * names the variant. Nothing stops several known keys (or none) from being
   * present, so each key is optional here.
   */
  datatype Envelope = Envelope(
    tweet: Option<TweetContent>,
    article: Option<ArticleContent>,
    tikTokVideo: Option<TikTokVideoContent>,
    instagramImage: Option<InstagramImageContent>,
    instagramReel: Option<InstagramReelContent>,
    genericLink: Option<GenericLinkContent>)

  /** The variant the feed renders, with the explicit fallback. */
  datatype Content =
    | Tweet(tweet: TweetContent)
    | Article(article: ArticleContent)
    | TikTokVideo(tikTok: TikTokVideoContent)
    | InstagramImage(instagramImage: InstagramImageContent)
    | InstagramReel(instagramReel: InstagramReelContent)
    | GenericLink(genericLink: GenericLinkContent)
    | Unsupported

  /** A market entity; `url` is the key the live feed deduplicates by. */
  datatype Market = Market(
    id: int,
    url: string,
    creator: string,
    supply: int,
    content: Envelope,
    aiAnalysis: Option<string>)

  /** True when none of the six known keys is present. */
  predicate NoKnownKey(e: Envelope)
  {
    e.tweet.None? && e.article.None? && e.tikTokVideo.None?
    && e.instagramImage.None? && e.instagramReel.None? && e.genericLink.None?
  }

  /**
   * `renderContent`: the keys are tested in the order Tweet, Article,
   * TikTokVideo, InstagramImage, InstagramReel, GenericLink; the first one
   * present decides the variant, and an object with none of them is
   * Unsupported (never an error).
   */
  function Classify(e: Envelope): (c: Content)
    ensures c.Tweet? <==> e.tweet.Some?
    ensures c.Article? <==> e.tweet.None? && e.article.Some?
    ensures c.TikTokVideo? <==> e.tweet.None? && e.article.None? && e.tikTokVideo.Some?
    ensures c.InstagramImage? <==>
              e.tweet.None? && e.article.None? && e.tikTokVideo.None? && e.instagramImage.Some?
    ensures c.InstagramReel? <==>
              e.tweet.None? && e.article.None? && e.tikTokVideo.None? && e.instagramImage.None?
              && e.instagramReel.Some?
    ensures c.GenericLink? <==>
              e.tweet.None? && e.article.None? && e.tikTokVideo.None? && e.instagramImage.None?
              && e.instagramReel.None? && e.genericLink.Some?
    ensures c.Unsupported? <==> NoKnownKey(e)
    // the payload rendered is the one stored under the winning key
    ensures c.Tweet? ==> c.tweet == e.tweet.value
    ensures c.Article? ==> c.article == e.article.value
    ensures c.TikTokVideo? ==> c.tikTok == e.tikTokVideo.value
    ensures c.InstagramImage? ==> c.instagramImage == e.instagramImage.value
    ensures c.InstagramReel? ==> c.instagramReel == e.instagramReel.value
    ensures c.GenericLink? ==> c.genericLink == e.genericLink.value
  {
    if e.tweet.Some? then Tweet(e.tweet.value)
    else if e.article.Some? then Article(e.article.value)
    else if e.tikTokVideo.Some? then TikTokVideo(e.tikTokVideo.value)
    else if e.instagramImage.Some? then InstagramImage(e.instagramImage.value)
    else if e.instagramReel.Some? then InstagramReel(e.instagramReel.value)
    else if e.genericLink.Some? then GenericLink(e.genericLink.value)
    else Unsupported
  }

  const EmptyEnvelope := Envelope(None, None, None, None, None, None)

  /** The well-formed envelope of a variant: exactly its own key is present. */
  function Wrap(c: Content): (e: Envelope)
    ensures c.Unsupported? <==> NoKnownKey(e)
    ensures c.Tweet? ==> e == EmptyEnvelope.(tweet := Some(c.tweet))
    ensures c.Article? ==> e == EmptyEnvelope.(article := Some(c.article))
    ensures c.TikTokVideo? ==> e == EmptyEnvelope.(tikTokVideo := Some(c.tikTok))
    ensures c.InstagramImage? ==> e == EmptyEnvelope.(instagramImage := Some(c.instagramImage))
    ensures c.InstagramReel? ==> e == EmptyEnvelope.(instagramReel := Some(c.instagramReel))
    ensures c.GenericLink? ==> e == EmptyEnvelope.(genericLink := Some(c.genericLink))
  {
    match c
    case Tweet(t) => EmptyEnvelope.(tweet := Some(t))
    case Article(a) => EmptyEnvelope.(article := Some(a))
    case TikTokVideo(v) => EmptyEnvelope.(tikTokVideo := Some(v))
    case InstagramImage(i) => EmptyEnvelope.(instagramImage := Some(i))
    case InstagramReel(r) => EmptyEnvelope.(instagramReel := Some(r))
    case GenericLink(g) => EmptyEnvelope.(genericLink := Some(g))
    case Unsupported => EmptyEnvelope
  }

  /** Classification inverts wrapping: a single-key envelope renders as its own variant. */
  lemma ClassifyWrap(c: Content)
    ensures Classify(Wrap(c)) == c
  {
    match c
    case Tweet(_) =>
    case Article(_) =>
    case TikTokVideo(_) =>
    case InstagramImage(_) =>
    case InstagramReel(_) =>
    case GenericLink(_) =>
    case Unsupported =>
  }

  /**
   * Keys after the first present one never influence the variant: two
   * envelopes that agree on every key up to and including the first one
   * present in either classify alike, whatever their later keys hold.
   */
  lemma ClassifyFirstKeyWins(e: Envelope, f: Envelope)
    requires e.tweet == f.tweet
    requires e.tweet.None? ==> e.article == f.article
    requires e.tweet.None? && e.article.None? ==> e.tikTokVideo == f.tikTokVideo
    requires e.tweet.None? && e.article.None? && e.tikTokVideo.None? ==> e.instagramImage == f.instagramImage
    requires e.tweet.None? && e.article.None? && e.tikTokVideo.None? && e.instagramImage.None? ==>
               e.instagramReel == f.instagramReel
    requires NoKnownKey(e.(genericLink := None)) ==> e.genericLink == f.genericLink
    ensures Classify(e) == Classify(f)
  {
  }

  // ---------------------------------------------------------------------------
  // Media URLs
  // ---------------------------------------------------------------------------

  const MediaPrefix := "/media/"

  /** A possibly undefined string interpolated into a template literal. */
  function TemplateText(s: Option<string>): (t: string)
    ensures s.Some? ==> t == s.value
    ensures s.None? ==> t == "undefined"
    // only an origin set to the empty string leaves a media path root-relative
    ensures t == "" <==> s == Some("")
  {
    if s.Some? then s.value else "undefined"
  }

  /**
   * `resolveMediaUrl`: no URL for an absent or empty path; a path under the
   * server's media directory is prefixed with the API origin; any other path
   * is taken to be absolute already and passes through.
   */
  function ResolveMediaUrl(path: Option<string>, apiBaseUrl: Option<string>): (r: Option<string>)
    ensures r.None? <==> !Present(path)
    ensures r.Some? && !StartsWith(path.value, MediaPrefix) ==> r == path
    ensures r.Some? && StartsWith(path.value, MediaPrefix) ==> r.value == TemplateText(apiBaseUrl) + path.value
    // resolution only ever prepends: the stored path is always the tail of the URL
    ensures r.Some? ==> EndsWith(r.value, path.value) && |r.value| >= |path.value|
  {
    if !Present(path) then None
    else if StartsWith(path.value, MediaPrefix) then
      var u := TemplateText(apiBaseUrl) + path.value;
      assert u[|u| - |path.value|..] == path.value;
      Some(u)
    else path
  }

  /**
   * Resolving an already resolved URL changes nothing, provided the API origin
   * is not itself a root-relative path (an absolute origin, an empty one, or
   * an undefined one all qualify).
   */
  lemma ResolveMediaUrlIdempotent(path: Option<string>, apiBaseUrl: Option<string>)
    requires apiBaseUrl.None? || apiBaseUrl.value == "" || apiBaseUrl.value[0] != '/'
    ensures ResolveMediaUrl(ResolveMediaUrl(path, apiBaseUrl), apiBaseUrl) == ResolveMediaUrl(path, apiBaseUrl)
  {
    var r := ResolveMediaUrl(path, apiBaseUrl);
    if r.Some? && StartsWith(path.value, MediaPrefix) {
      var b := TemplateText(apiBaseUrl);
      if b != "" {
        assert r.value[0] == b[0];
        assert !StartsWith(r.value, MediaPrefix) by {
          assert MediaPrefix[0] == '/';
        }
      } else {
        assert r.value == path.value;
      }
    }
  }

  // ---------------------------------------------------------------------------
  // Sparkline
  // ---------------------------------------------------------------------------

  datatype PricePoint = PricePoint(timestamp: int, price: real)

  datatype Trend = Up | Down

  /**
   * `SparklineChart`: no chart for fewer than two points; otherwise the trend
   * compares the last price with the first.
   */
  function SparklineTrend(data: seq<PricePoint>): (t: Option<Trend>)
    ensures t.None? <==> |data| < 2
    ensures t == Some(Up) <==> |data| >= 2 && data[|data| - 1].price >= data[0].price
    ensures t == Some(Down) <==> |data| >= 2 && data[|data| - 1].price < data[0].price
  {
    if |data| < 2 then None
    else if data[|data| - 1].price >= data[0].price then Some(Up)
    else Some(Down)
  }

  const Green := "#22c55e"
  const Red := "#ef4444"

  /** Stroke colour of the sparkline: green-500 up, red-500 down. */
  function StrokeColor(t: Trend): (color: string)
    ensures color == Green <==> t.Up?
    ensures color == Red <==> t.Down?
  {
    assert Green[1] != Red[1];
    match t
    case Up => Green
    case Down => Red
  }

  /** Appending a point at or above the first price of a series makes it trend up. */
  lemma {:induction false} TrendAfterHigherClose(data: seq<PricePoint>, p: PricePoint)
    requires |data| >= 1 && p.price >= data[0].price
    ensures SparklineTrend(data + [p]) == Some(Up)
  {
    assert (data + [p])[0] == data[0];
    assert (data + [p])[|data + [p]| - 1] == p;
  }

  // ---------------------------------------------------------------------------
  // Market card
  // ---------------------------------------------------------------------------

  datatype HistoryOutcome = HistoryLoaded(points: seq<PricePoint>) | HistoryFailed

  /**
   * What the analysis request produced: a reply with a 2xx status carrying
   * `analysis` (possibly missing), a non-2xx reply carrying `message` ("" when
   * missing), or a thrown transport/parse error with its message.
   */
  datatype AnalysisOutcome =
    | AnalysisReturned(analysis: Option<string>)
    | AnalysisRejected(message: string)
    | AnalysisThrew(message: string)

  /** What the price-history area of a card shows. */
  datatype ChartView = LoadingChart | Sparkline(trend: Option<Trend>)

  const DefaultAnalysisError := "Failed to fetch analysis"

  /** The error text a failed analysis request leaves on the card. */
  function AnalysisErrorText(outcome: AnalysisOutcome): (msg: string)
    requires !outcome.AnalysisReturned?
    ensures outcome.AnalysisRejected? && outcome.message == "" ==> msg == DefaultAnalysisError
    ensures outcome.AnalysisRejected? && outcome.message != "" ==> msg == outcome.message
    ensures outcome.AnalysisThrew? ==> msg == outcome.message
  {
    if outcome.AnalysisRejected? then Or(outcome.message, DefaultAnalysisError) else outcome.message
  }

  /** The card's initial analysis: `market.ai_analysis || null`. */
  function InitialAnalysis(m: Market): (a: Option<string>)
    ensures Present(a) <==> Present(m.aiAnalysis)
    ensures a.Some? ==> a == m.aiAnalysis
  {
    if Present(m.aiAnalysis) then m.aiAnalysis else None
  }

  /**
   * `MarketCard`: per-card state layered over one market. The market itself
   * is never written here.
   */
  class MarketCard {
    const market: Market
    const apiBaseUrl: Option<string>
    var analysis: Option<string>
    var isLoadingAnalysis: bool
    var analysisError: Option<string>
    var history: seq<PricePoint>
    var isLoadingHistory: bool

    constructor (market: Market, apiBaseUrl: Option<string>)
      ensures this.market == market && this.apiBaseUrl == apiBaseUrl
      ensures analysis == InitialAnalysis(market)
      ensures !isLoadingAnalysis && analysisError == None
      ensures history == [] && isLoadingHistory
    {
      this.market := market;
      this.apiBaseUrl := apiBaseUrl;
      analysis := InitialAnalysis(market);
      isLoadingAnalysis := false;
      analysisError := None;
      history := [];
      isLoadingHistory := true;
    }

    /** An analysis is shown (and the trigger is spent) once it is a non-empty string. */
    predicate HasAnalysis()
      reads this
    {
      Present(analysis)
    }

    /** The Analyze button is enabled neither while loading nor once analysed. */
    function AnalyzeEnabled(): (enabled: bool)
      reads this
      ensures enabled ==> !isLoadingAnalysis && !Present(analysis)
      ensures !enabled ==> isLoadingAnalysis || Present(analysis)
    {
      !(isLoadingAnalysis || HasAnalysis())
    }

    /** The chart area: a loading notice until the history attempt finished. */
    function Chart(): (view: ChartView)
      reads this
      ensures isLoadingHistory <==> view == LoadingChart
      ensures view.Sparkline? ==> (view.trend.None? <==> |history| < 2)
      ensures !isLoadingHistory ==> view == Sparkline(SparklineTrend(history))
    {
      if isLoadingHistory then LoadingChart else Sparkline(SparklineTrend(history))
    }

    /**
     * Start of the history effect, run when the card mounts. Without an API
     * origin it returns before the `try`, so the loading flag is never cleared.
     */
    method StartHistory() returns (request: Option<int>)
      ensures request.Some? <==> Present(apiBaseUrl)
      ensures request.Some? ==> request.value == market.id
    {
      request := if Present(apiBaseUrl) then Some(market.id) else None;
    }

    /** Completion of the history fetch (the `finally` always clears the flag). */
    method CompleteHistory(outcome: HistoryOutcome)
      modifies this
      ensures history == (if outcome.HistoryLoaded? then outcome.points else old(history))
      ensures !isLoadingHistory
      ensures analysis == old(analysis) && isLoadingAnalysis == old(isLoadingAnalysis)
      ensures analysisError == old(analysisError)
    {
      if outcome.HistoryLoaded? {
        history := outcome.points;
      }
      isLoadingHistory := false;
    }

    /**
     * `handleFetchAnalysis` up to its `await`: a no-op once an analysis is
     * present or without an API origin; otherwise it raises the loading flag,
     * clears the previous error and issues the request for this market.
     */
    method StartAnalysis() returns (request: Option<int>)
      modifies this
      ensures request.None? <==> old(HasAnalysis()) || !Present(apiBaseUrl)
      ensures request.None? ==>
                analysis == old(analysis) && isLoadingAnalysis == old(isLoadingAnalysis)
                && analysisError == old(analysisError)
      ensures request.Some? ==>
                request.value == market.id && analysis == old(analysis)
                && isLoadingAnalysis && analysisError == None
      ensures history == old(history) && isLoadingHistory == old(isLoadingHistory)
    {
      if HasAnalysis() || !Present(apiBaseUrl) {
        return None;
      }
      isLoadingAnalysis := true;
      analysisError := None;
      request := Some(market.id);
    }

    /**
     * The rest of `handleFetchAnalysis`: a reply stores its analysis, a
     * failure records its message and leaves the analysis as it was, and
     * either way loading ends.
     */
    method CompleteAnalysis(outcome: AnalysisOutcome)
      modifies this
      ensures outcome.AnalysisReturned? ==>
                analysis == outcome.analysis && analysisError == old(analysisError)
      ensures !outcome.AnalysisReturned? ==>
                analysis == old(analysis) && analysisError == Some(AnalysisErrorText(outcome))
      ensures !isLoadingAnalysis
      ensures history == old(history) && isLoadingHistory == old(isLoadingHistory)
    {
      if outcome.AnalysisReturned? {
        analysis := outcome.analysis;
      } else {
        analysisError := Some(AnalysisErrorText(outcome));
      }
      isLoadingAnalysis := false;
    }
  }
}
