# Market feed and workflows of the socialbuzz front end, in Dafny

This project models the stateful core of a Next.js front end. The front end shows a live list of
"markets". Each market wraps a piece of content extracted from a web page. Users mint new markets
from a URL and buy or sell shares in existing ones. Four parts are modelled:

- **Feed reconciliation** (`Page.dfy`, from `src/app/page.tsx`). There is one market list and an active
  feed, `Top` or `Live`. A snapshot fetch replaces the list wholesale. A failed fetch leaves the list
  alone. A `NEW_MINT` push event, received while the feed is `Live`, is put at the head of the list.
  It is dropped when an entry with the same `url` is already there. A trade result replaces every entry
  with the same `id`. The list rules are pure functions. The `HomePage` class holds the component state
  and assigns their results.
- **Content and cards** (`ActivityFeed.dfy`, from `src/app/ActivityFeed.tsx`). This part covers four
  rules:
  - first-match classification of the content envelope into six variants, with an `Unsupported`
    fallback;
  - media-path resolution;
  - the sparkline rules: no chart for fewer than two points, and "up" iff last price ≥ first;
  - the `MarketCard` state: write-once AI analysis, and the history-loading flags.
- **Mint workflow** (`MintModal.dfy`, from `src/app/MintModal.tsx`). A six-stage machine
  (`Idle, Previewing, ReadyToMint, Submitting, Success, Error`) over the url and the preview.
- **Trade workflow** (`TradeModal.dfy`, from `src/app/TradeModal.tsx`). Buy and sell inputs share one
  in-flight flag. Validation happens before any request. A success clears only the acting input. A
  failure keeps both amounts.

Each `async` handler is split at its `await` into a `Start…` method and a `Complete…(outcome)` method.
`Start…` returns the request it would send, or `None` when it sends none. The outcome datatype stands
for the network result. Configuration comes from environment variables, and each one is a parameter of
the class that reads it. The wallet's connection and address are parameters of the calls that use
them. In JavaScript, both `undefined` and `""` are falsy. `Env.Present` captures this rule, and fields
of server replies use `""` for "missing".

Where the intended design (one list per feed, late replies discarded, unknown messages ignored) and
the code disagree, the model follows the code:

- The code keeps one list, not one per feed.
- A snapshot reply is applied whatever feed is active when it arrives.
- No asynchronous result is checked against the current market or url. The exception is the two
  corrected members listed under Findings.
- `handleMint` does not check the stage itself. Only the disabled Mint button keeps it out of other
  stages.
- A refused preview or mint does change the stage, to `Error`.
- Switching the feed re-runs the websocket effect on the last message received, because that effect
  depends on `activeFeed`. `HomePage.SetActiveFeed` models this.
- `resolveMediaUrl` with no API origin interpolates the text `undefined`, as the template literal does.

`Session.dfy` holds runs across components. They exhibit the two findings below.

## Model

| member | source | states |
|---|---|---|
| `ActivityFeed.Classify` | src/app/ActivityFeed.tsx:174-181 | each variant is chosen iff its key is present and no earlier key in the order Tweet, Article, TikTokVideo, InstagramImage, InstagramReel, GenericLink is; no key at all gives `Unsupported`; the payload is the winning key's |
| `ActivityFeed.Wrap` | src/app/ActivityFeed.tsx:36-42 | the envelope of each variant is the empty envelope with exactly that variant's key set to its payload; only `Unsupported` maps to an envelope with no known key |
| `ActivityFeed.ClassifyWrap` | src/app/ActivityFeed.tsx:36-42 | classifying a well-formed single-key envelope gives back its variant (round trip) |
| `ActivityFeed.ClassifyFirstKeyWins` | src/app/ActivityFeed.tsx:174-181 | two envelopes that agree on every key up to and including the first one present classify alike, whatever their later keys hold |
| `ActivityFeed.TemplateText` | src/app/ActivityFeed.tsx:86 | a set origin is interpolated as itself and an undefined one as `undefined`; the text is empty only for an origin set to `""` |
| `ActivityFeed.ResolveMediaUrl` | src/app/ActivityFeed.tsx:83-89 | absent or empty path gives no URL; a `/media/` path gets the API origin prepended; any other path is returned unchanged; the path is always the tail of the result |
| `ActivityFeed.ResolveMediaUrlIdempotent` | src/app/ActivityFeed.tsx:83-89 | resolving a resolved URL changes nothing, provided the origin is not itself root-relative |
| `ActivityFeed.SparklineTrend` | src/app/ActivityFeed.tsx:61-66 | no chart iff fewer than 2 points; `Up` iff last price ≥ first, `Down` iff last < first |
| `ActivityFeed.StrokeColor` | src/app/ActivityFeed.tsx:66 | green `#22c55e` iff up, red `#ef4444` iff down |
| `ActivityFeed.TrendAfterHigherClose` | src/app/ActivityFeed.tsx:64-66 | appending a point priced at or above the first makes the series trend up |
| `ActivityFeed.AnalysisErrorText` | src/app/ActivityFeed.tsx:221-229 | a rejected request shows its `message`, or "Failed to fetch analysis" when it has none; a thrown error shows its own message |
| `ActivityFeed.InitialAnalysis` | src/app/ActivityFeed.tsx:191 | the card starts with the market's `ai_analysis` when it is a non-empty string, else with none |
| `ActivityFeed.MarketCard.constructor` | src/app/ActivityFeed.tsx:190-196 | initial card state: analysis from the market, not loading, no error, empty history, history loading |
| `ActivityFeed.MarketCard.AnalyzeEnabled` | src/app/ActivityFeed.tsx:284 | the Analyze button is enabled iff no analysis is loading and none is present |
| `ActivityFeed.MarketCard.Chart` | src/app/ActivityFeed.tsx:252-257 | a loading notice iff history is still loading; otherwise the sparkline of the loaded history, with its trend and colour, empty iff fewer than 2 points |
| `ActivityFeed.MarketCard.StartHistory` | src/app/ActivityFeed.tsx:198-202 | a history request for this market's id is issued iff an API origin is configured |
| `ActivityFeed.MarketCard.CompleteHistory` | src/app/ActivityFeed.tsx:201-210 | a loaded history replaces the old one; a failure keeps it; loading ends either way; the analysis state is untouched |
| `ActivityFeed.MarketCard.StartAnalysis` | src/app/ActivityFeed.tsx:215-220 | no request and no change once a non-empty analysis exists or the origin is missing; otherwise loading starts, the old error is cleared and the request is for this market |
| `ActivityFeed.MarketCard.CompleteAnalysis` | src/app/ActivityFeed.tsx:219-232 | a reply stores its analysis; a failure records the error and leaves the analysis as it was, so a retry stays possible; loading ends either way |
| `Page.ApiBaseUrl` | src/app/page.tsx:15 | the configured origin when set and non-empty, else `http://localhost:3000`; never empty |
| `Page.EndpointPath` | src/app/page.tsx:28 | `markets/top` iff the feed is Top, `markets` iff Live |
| `Page.SnapshotEndpoint` | src/app/page.tsx:28-29 | the URL is the API origin and `/`, followed by exactly the feed's own path (so `markets/top` iff Top, `markets` iff Live) |
| `Page.SnapshotEndpointsDiffer` | src/app/page.tsx:28-29 | the two feeds never fetch their snapshot from the same endpoint |
| `Page.FindByUrl` | src/app/page.tsx:55 | finds nothing iff no entry has the url; what it finds is the first entry of the list with that url |
| `Page.InsertStreamed` | src/app/page.tsx:54-57 | a url already present leaves the list unchanged, otherwise the market is prepended; afterwards the url is present; unique urls stay unique |
| `Page.ApplyMessage` | src/app/page.tsx:49-62 | an unparseable message, a non-`NEW_MINT` type or the Top feed leaves the list unchanged; otherwise it is the dedup insert; the old list is always the tail of the new one; unique urls stay unique |
| `Page.ApplyMessageIdempotent` | src/app/page.tsx:53-58 | applying the same message twice equals applying it once |
| `Page.ApplyAllKeepsUrls` | src/app/page.tsx:54-57 | no run of push events removes a url from the list |
| `Page.RedeliveryIsNoOp` | src/app/page.tsx:45-62 | after a run of messages, redelivering any of them (as after a reconnect) leaves the list unchanged |
| `Page.ApplyAllKeepsUnique` | src/app/page.tsx:53-58 | a run of push events keeps the list's urls unique |
| `Page.DuplicateEventScenario` | src/app/page.tsx:53-58 | an event delivered twice to an empty live feed leaves exactly one entry |
| `Page.ReplaceById` | src/app/page.tsx:65-67 | same length; every entry with the updated id becomes the updated market; every other entry is unchanged |
| `Page.ReplaceByIdNoMatch` | src/app/page.tsx:66 | a result for an id not in the list changes nothing |
| `Page.ReplaceByIdIdempotent` | src/app/page.tsx:65-67 | applying the same trade result twice equals applying it once |
| `Page.ReplaceByIdKeepsUnique` | src/app/page.tsx:65-67 | url uniqueness survives a trade result that keeps the market's url |
| `Page.HomePage.constructor` | src/app/page.tsx:19-21 | empty list, no selected market, Top feed, no message yet |
| `Page.HomePage.StartFetch` | src/app/page.tsx:27-29 | the snapshot request goes to the endpoint of the feed active now, under the API origin |
| `Page.HomePage.CompleteFetch` | src/app/page.tsx:30-37 | a fetched snapshot replaces the list entirely; a failure leaves it untouched; nothing else changes |
| `Page.HomePage.ReceiveMessage` | src/app/page.tsx:49-62 | the list becomes `ApplyMessage` of the old list under the active feed; the message is remembered; url uniqueness is kept |
| `Page.HomePage.SetActiveFeed` | src/app/page.tsx:40-42 | the same feed changes nothing and fetches nothing; a new feed fetches its own snapshot and re-applies the last message under the new feed |
| `Page.HomePage.HandleTradeSuccess` | src/app/page.tsx:64-69 | the list is patched by id and the returned market becomes the selected one |
| `Page.HomePage.OpenTradeModal` | src/app/page.tsx:103-106 | the chosen market becomes the selected one; the list and feed are untouched |
| `Page.HomePage.CloseTradeModal` | src/app/page.tsx:88 | no market is selected; the list and feed are untouched |
| `Mint.PreviewFailureMessage` | src/app/MintModal.tsx:46-54 | a failed preview shows `Error: ` followed by the service's `error`, or by "Failed to get preview.", or by the thrown message |
| `Mint.MintFailureMessage` | src/app/MintModal.tsx:76-86 | a failed mint shows `Error: ` followed by the reply's `message`, or by "Minting failed.", or by the thrown message |
| `Mint.MintModal.constructor` | src/app/MintModal.tsx:26-28 | empty url, Idle with no message, no preview, dialog closed; the invariant holds |
| `Mint.MintModal.IsProcessing` | src/app/MintModal.tsx:99 | a request is in flight iff the stage is Previewing or Submitting; the other four stages are at rest |
| `Mint.MintModal.InputEnabled` | src/app/MintModal.tsx:139 | the url input takes edits iff the dialog is shown and the stage is neither previewing nor submitting |
| `Mint.MintModal.PreviewEnabled` | src/app/MintModal.tsx:144 | Preview is clickable iff input is enabled and the url is non-empty |
| `Mint.MintModal.MintShown` | src/app/MintModal.tsx:162 | the Mint button exists iff a preview and a wallet address exist |
| `Mint.MintModal.MintEnabled` | src/app/MintModal.tsx:162-167 | the Mint button is enabled iff it is shown and the stage is ReadyToMint; then, under the invariant, the preview came from the url on screen |
| `Mint.MintModal.Open` | src/app/page.tsx:139-141 | the dialog is shown; its workflow state is untouched |
| `Mint.MintModal.EditUrl` | src/app/MintModal.tsx:130-136 | the url is stored and the preview always dropped; Error and ReadyToMint return to Idle, every other stage is kept; the invariant is re-established |
| `Mint.MintModal.StartPreview` | src/app/MintModal.tsx:31-44 | an empty url or missing extraction service gives Error with the configuration message and no request; otherwise Previewing, the preview is cleared and the current url is requested |
| `Mint.MintModal.CompletePreview` | src/app/MintModal.tsx:45-55 | as written: extracted content becomes the preview and the stage ReadyToMint; a failure gives Error with its message and leaves the preview; the url is not consulted |
| `Mint.MintModal.CompletePreviewCurrent` | src/app/MintModal.tsx:45-55 | a reply for anything but the url still awaited is discarded; otherwise as above; the invariant is preserved |
| `Mint.MintModal.StartMint` | src/app/MintModal.tsx:58-73 | no url, no connected wallet, no address or no API origin gives Error with no request; otherwise Submitting and a create request for this address and url |
| `Mint.MintModal.CompleteMint` | src/app/MintModal.tsx:75-87 | success gives Success and tells the caller to run `onMintSuccess` and close; failure gives Error with its message |
| `Mint.MintModal.Close` | src/app/MintModal.tsx:90-95 | back to empty url, no preview, Idle with no message, and hidden |
| `Trade.IsSuccess` | src/app/TradeModal.tsx:87 | a trade succeeded iff the reply is 2xx and its `status` is `success`; a thrown request or any non-2xx reply is a failure |
| `Trade.ValidTrade` | src/app/TradeModal.tsx:70 | a trade is refused iff there is no market, no wallet address, a blank, zero or negative amount, or no API origin |
| `Trade.FailureMessage` | src/app/TradeModal.tsx:87-102 | a failed trade shows `Error: ` followed by the reply's `message`, or by "BUY failed."/"SELL failed.", or by the thrown message |
| `Trade.TradeModal.constructor` | src/app/TradeModal.tsx:29-36 | no market, empty chart, both inputs blank, not trading, no message |
| `Trade.TradeModal.InputsEnabled` | src/app/TradeModal.tsx:164 | both inputs are enabled iff no trade is in flight |
| `Trade.TradeModal.TradeEnabled` | src/app/TradeModal.tsx:167 | a side's button is enabled iff no trade is in flight and its input is not blank |
| `Trade.TradeModal.MarketChanged` | src/app/TradeModal.tsx:39-47 | as written: any new market prop resets both inputs and the message, raises history loading, and requests its history iff an API origin is set |
| `Trade.TradeModal.MarketSwitched` | src/app/TradeModal.tsx:39-47 | inputs and message reset only for a market with a different id; the history is refreshed for any market |
| `Trade.TradeModal.CompleteHistory` | src/app/TradeModal.tsx:48-63 | loaded points replace the chart; a failure empties it; loading ends either way |
| `Trade.TradeModal.SetAmount` | src/app/TradeModal.tsx:163 | only the edited side's amount changes |
| `Trade.TradeModal.StartTrade` | src/app/TradeModal.tsx:69-85 | without a market, an address, a positive amount or an API origin: "Please enter a valid amount.", no request, the flag untouched; otherwise the flag is raised and the request carries the market id, address and amount |
| `Trade.TradeModal.CompleteTrade` | src/app/TradeModal.tsx:86-105 | success iff the reply is 2xx with `status` "success": the returned market is handed back, only the acting input is cleared; any failure keeps both amounts and hands back nothing; the flag drops either way |
| `Session.StalePreviewAccepted` | src/app/MintModal.tsx:45-55 | a concrete run in which a late preview of url A is taken as the preview of url B, and url B is then submitted |
| `Session.StalePreviewDiscarded` | src/app/MintModal.tsx:45-55 | the same run with the identity check ends Idle with no preview and Mint disabled |
| `Session.TradeSuccessErased` | src/app/TradeModal.tsx:39-44 | a concrete successful buy after which the success message and the sell amount are gone |
| `Session.TradeSuccessKept` | src/app/TradeModal.tsx:39-44 | the same run with the id-keyed reset keeps the success message and the sell amount, and clears only the buy input |

## Left out

- Network and transport: `fetch`, `response.json()`, the websocket client and its reconnection. Each
  reply is an input datatype; a reply whose JSON has an unexpected shape is not modelled beyond the
  fields named there.
- Push events of type `NEW_MINT` without a `market` object are not modelled. Such an event does not
  count as unparseable and is not ignored. Its `market.url` is read inside the `setMarkets` updater
  (src/app/page.tsx:54-57), which React runs outside the handler's `try`.
  - On a non-empty Live list the access throws out of rendering.
  - On an empty list `undefined` is inserted, and the feed's `key={market.id}`
    (src/app/ActivityFeed.tsx:338) then fails while rendering.

  Either way the page breaks, although the intended design ignores unknown messages. `PushMessage`
  has no value for such an event.
- The "unknown error" branches for thrown non-`Error` values are not modelled. `fetch` and `json()` only
  throw `Error` objects.
- Rendering and styling: all JSX, card layouts, `toLocaleString`, creator-address slicing, and the
  `ActivityFeed` list and preview components.
- The trade chart's point formatting (`parseFloat`, `toLocaleTimeString`). History points arrive
  already formatted.
- The 1500 ms timer after a mint. `CompleteMint` tells its caller to close, and the caller runs `Close`.
- React scheduling. The synchronous part of each handler or effect is one atomic method. Two requests
  in flight at once are modelled by their `Complete…` calls in any order.
- Wallet and provider setup (`providers.tsx`, `layout.tsx`, `CustomQRCode.tsx`), `next.config.mjs`, and
  the portfolio modal. These are configuration or I/O display with no rules of their own.
- Numbers: `supply` is an unbounded integer and its non-negativity is not enforced. Prices and trade
  amounts are reals, used only in comparisons. A number input is either blank or holds a number.
- `ActivityFeed.SparklineTrend` compares prices as numbers. The trade dialog reads the same
  `/markets/{id}/history` reply with `price` as a string and parses it (src/app/TradeModal.tsx:16-19,
  55). If the wire value is a string, the card's `>=` (src/app/ActivityFeed.tsx:64-66) compares text
  lexicographically, and the trend can differ from the one modelled.
- `MarketCard`'s history effect runs once per card. Cards are keyed by market id, so the id never
  changes under a card.

## Findings

| source | as written | input that shows it | evidently intended | confidence | as-written member | corrected member |
|---|---|---|---|---|---|---|
| src/app/MintModal.tsx:45-55 | the preview reply is applied without checking that the dialog still awaits a preview of the url it was requested for | preview url A; close the dialog while the request is in flight (the close button stays enabled); reopen and type url B; the reply for A arrives. The dialog is now ReadyToMint for url B showing A's content, and Mint submits B | a ready dialog always holds the preview of the url it would mint, so a late reply for another url is discarded | medium, not executed | `Session.StalePreviewAccepted` (on `Mint.MintModal.CompletePreview`) | `Mint.MintModal.CompletePreviewCurrent` (run in `Session.StalePreviewDiscarded`) |
| src/app/TradeModal.tsx:39-44 | the reset effect depends on the `market` object, and `handleTradeSuccess` (src/app/page.tsx:68) passes the freshly decoded market back as the selected one | open a market, enter buy 10 and sell 5, buy successfully. The page selects the returned copy and the effect runs again, so "Success! Shares bought." and the sell amount 5 are wiped | a successful trade shows its success message and clears only the acting input (src/app/TradeModal.tsx:91-95); the reset happens only when another market is opened | medium, not executed | `Session.TradeSuccessErased` (on `Trade.TradeModal.MarketChanged`) | `Trade.TradeModal.MarketSwitched` (run in `Session.TradeSuccessKept`) |
