/**
 * The mint dialog: a six-stage workflow that turns a URL into a previewed
 * piece of extracted content and then into a new market. Each handler that
 * awaits a request is split into a Start method (up to the request) and a
 * Complete method (what happens when the reply, or the failure, arrives).
 */
module Mint {
  import opened Env
  import opened ActivityFeed

  datatype Stage = Idle | Previewing | ReadyToMint | Submitting | Success | Error

  /**
   * The extraction reply: 2xx with the envelope, non-2xx with its `error`
   * field ("" when missing), or a thrown transport or JSON error.
   */
  datatype PreviewOutcome = Extracted(content: Envelope) | PreviewRejected(error: string) | PreviewThrew(message: string)

  /** The create reply: 2xx, non-2xx with its `message` ("" when missing), or a thrown error. */
  datatype MintOutcome = Created | MintRejected(message: string) | MintThrew(message: string)

  /** The body posted to `/markets/create`. */
  datatype MintRequest = MintRequest(user: string, url: string)

  const PreviewNotConfigured := "Scraper API URL is not configured."
  const MintNotConfigured := "API URL is not configured or wallet not connected."
  const GeneratingPreview := "Generating preview..."
  const PreviewReady := "Preview generated. Ready to mint."
  const SubmittingToSequencer := "Submitting to sequencer..."
  const MintCreated := "Success! Market created."

  /** The message shown when a preview request fails. */
  function PreviewFailureMessage(outcome: PreviewOutcome): (msg: string)
    requires !outcome.Extracted?
    ensures StartsWith(msg, "Error: ")
    ensures outcome.PreviewRejected? ==> msg == "Error: " + Or(outcome.error, "Failed to get preview.")
    ensures outcome.PreviewThrew? ==> msg == "Error: " + outcome.message
  {
    var detail := if outcome.PreviewRejected? then Or(outcome.error, "Failed to get preview.") else outcome.message;
    assert ("Error: " + detail)[..7] == "Error: ";
    "Error: " + detail
  }

  /** The message shown when a create request fails. */
  function MintFailureMessage(outcome: MintOutcome): (msg: string)
    requires !outcome.Created?
    ensures StartsWith(msg, "Error: ")
    ensures outcome.MintRejected? ==> msg == "Error: " + Or(outcome.message, "Minting failed.")
    ensures outcome.MintThrew? ==> msg == "Error: " + outcome.message
  {
    var detail := if outcome.MintRejected? then Or(outcome.message, "Minting failed.") else outcome.message;
    assert ("Error: " + detail)[..7] == "Error: ";
    "Error: " + detail
  }

  class MintModal {
    const scraperApiUrl: Option<string>
    const apiBaseUrl: Option<string>
    /** The page's `isMintModalOpen`; the dialog renders (and takes input) only while it is set. */
    var isOpen: bool
    var url: string
    var stage: Stage
    var message: string
    var previewContent: Option<Envelope>
    /** The url whose extraction produced `previewContent`. */
    ghost var previewSource: string

    constructor (scraperApiUrl: Option<string>, apiBaseUrl: Option<string>)
      ensures this.scraperApiUrl == scraperApiUrl && this.apiBaseUrl == apiBaseUrl
      ensures !isOpen && url == "" && stage == Idle && message == "" && previewContent == None
      ensures PreviewMatchesUrl()
    {
      this.scraperApiUrl := scraperApiUrl;
      this.apiBaseUrl := apiBaseUrl;
      isOpen := false;
      url := "";
      stage := Idle;
      message := "";
      previewContent := None;
      previewSource := "";
    }

    /**
     * The workflow's safety invariant: a dialog ready to mint holds a preview
     * extracted from exactly the url it would mint.
     */
    ghost predicate PreviewMatchesUrl()
      reads this
    {
      stage == ReadyToMint ==> previewContent.Some? && previewSource == url
    }

    /** `isProcessing`: a request is in flight; every other stage is at rest. */
    function IsProcessing(): (processing: bool)
      reads this
      ensures !processing <==> stage in {Idle, ReadyToMint, Success, Error}
    {
      stage == Previewing || stage == Submitting
    }

    /** The url input takes edits only while shown and not processing. */
    function InputEnabled(): (enabled: bool)
      reads this
      ensures enabled <==> isOpen && stage != Previewing && stage != Submitting
    {
      isOpen && !IsProcessing()
    }

    /** The Preview button. */
    function PreviewEnabled(): (enabled: bool)
      reads this
      ensures enabled <==> InputEnabled() && url != ""
    {
      isOpen && !IsProcessing() && url != ""
    }

    /** The Mint button is rendered only with a preview and a wallet address. */
    function MintShown(address: Option<string>): (shown: bool)
      reads this
      ensures shown <==> isOpen && previewContent.Some? && Present(address)
    {
      isOpen && previewContent.Some? && Present(address)
    }

    /** ... and enabled only when ready to mint, which then refers to the url on screen. */
    function MintEnabled(address: Option<string>): (enabled: bool)
      reads this
      ensures enabled ==> stage == ReadyToMint && previewContent.Some? && Present(address)
      ensures enabled <==> MintShown(address) && stage == ReadyToMint
      ensures enabled && PreviewMatchesUrl() ==> previewSource == url
    {
      MintShown(address) && stage == ReadyToMint
    }

    /** The page's Mint button: show the dialog. */
    method Open()
      modifies this
      ensures isOpen
      ensures url == old(url) && stage == old(stage) && message == old(message)
      ensures previewContent == old(previewContent) && previewSource == old(previewSource)
    {
      isOpen := true;
    }

    /**
     * The url input's `onChange`: store the text, drop any preview, and leave
     * a failed or ready state for the initial one.
     */
    method EditUrl(newUrl: string)
      modifies this
      ensures url == newUrl && previewContent == None
      ensures old(stage) == Error || old(stage) == ReadyToMint ==> stage == Idle && message == ""
      ensures old(stage) != Error && old(stage) != ReadyToMint ==>
                stage == old(stage) && message == old(message)
      ensures isOpen == old(isOpen)
      ensures PreviewMatchesUrl()
    {
      url := newUrl;
      previewContent := None;
      if stage == Error || stage == ReadyToMint {
        stage, message := Idle, "";
      }
    }

    /**
     * `handlePreview` up to its `await`. An empty url or a missing extraction
     * service is refused with the configuration message and no request;
     * otherwise the preview is cleared and the url is sent for extraction.
     */
    method StartPreview() returns (request: Option<string>)
      modifies this
      ensures request.None? <==> old(url) == "" || !Present(scraperApiUrl)
      ensures request.None? ==>
                stage == Error && message == PreviewNotConfigured && previewContent == old(previewContent)
      ensures request.Some? ==>
                request.value == url && stage == Previewing && message == GeneratingPreview
                && previewContent == None
      ensures url == old(url) && isOpen == old(isOpen) && previewSource == old(previewSource)
      ensures PreviewMatchesUrl()
    {
      if url == "" || !Present(scraperApiUrl) {
        stage, message := Error, PreviewNotConfigured;
        return None;
      }
      stage, message := Previewing, GeneratingPreview;
      previewContent := None;
      request := Some(url);
    }

    /**
     * The rest of `handlePreview`, as written: whatever the dialog shows by
     * now, an extracted envelope becomes the preview and the dialog becomes
     * ready to mint; a failure moves to Error with its message.
     */
    method CompletePreview(request: string, outcome: PreviewOutcome)
      modifies this
      ensures outcome.Extracted? ==>
                previewContent == Some(outcome.content) && previewSource == request
                && stage == ReadyToMint && message == PreviewReady
      ensures !outcome.Extracted? ==>
                stage == Error && message == PreviewFailureMessage(outcome)
                && previewContent == old(previewContent) && previewSource == old(previewSource)
      ensures url == old(url) && isOpen == old(isOpen)
    {
      if outcome.Extracted? {
        previewContent := Some(outcome.content);
        previewSource := request;
        stage, message := ReadyToMint, PreviewReady;
      } else {
        stage, message := Error, PreviewFailureMessage(outcome);
      }
    }

    /**
     * The completion with the staleness check the workflow needs: a reply is
     * applied only while the dialog still waits for a preview of that very
     * url; any other reply is discarded. This keeps `PreviewMatchesUrl`.
     */
    method CompletePreviewCurrent(request: string, outcome: PreviewOutcome)
      modifies this
      ensures old(stage) != Previewing || request != old(url) ==>
                stage == old(stage) && message == old(message)
                && previewContent == old(previewContent) && previewSource == old(previewSource)
      ensures old(stage) == Previewing && request == old(url) && outcome.Extracted? ==>
                previewContent == Some(outcome.content) && stage == ReadyToMint && message == PreviewReady
      ensures old(stage) == Previewing && request == old(url) && !outcome.Extracted? ==>
                stage == Error && message == PreviewFailureMessage(outcome)
                && previewContent == old(previewContent)
      ensures url == old(url) && isOpen == old(isOpen)
      ensures old(PreviewMatchesUrl()) ==> PreviewMatchesUrl()
    {
      if stage == Previewing && request == url {
        CompletePreview(request, outcome);
      }
    }

    /**
     * `handleMint` up to its `await`. Without a url, a connected wallet with
     * an address, or an API origin it moves to Error with no request;
     * otherwise it submits the url on behalf of the address.
     */
    method StartMint(isConnected: bool, address: Option<string>) returns (request: Option<MintRequest>)
      modifies this
      ensures request.None? <==> old(url) == "" || !isConnected || !Present(address) || !Present(apiBaseUrl)
      ensures request.None? ==> stage == Error && message == MintNotConfigured
      ensures request.Some? ==>
                request.value == MintRequest(address.value, url) && stage == Submitting && message == SubmittingToSequencer
      ensures url == old(url) && isOpen == old(isOpen)
      ensures previewContent == old(previewContent) && previewSource == old(previewSource)
      ensures PreviewMatchesUrl()
    {
      if url == "" || !isConnected || !Present(address) || !Present(apiBaseUrl) {
        stage, message := Error, MintNotConfigured;
        return None;
      }
      stage, message := Submitting, SubmittingToSequencer;
      request := Some(MintRequest(address.value, url));
    }

    /**
     * The rest of `handleMint`. On success the caller is told to run
     * `onMintSuccess` (the page's snapshot fetch) and to close the dialog
     * after the delay; on failure the dialog shows the error.
     */
    method CompleteMint(outcome: MintOutcome) returns (succeeded: bool)
      modifies this
      ensures succeeded <==> outcome.Created?
      ensures succeeded ==> stage == Success && message == MintCreated
      ensures !succeeded ==> stage == Error && message == MintFailureMessage(outcome)
      ensures url == old(url) && isOpen == old(isOpen)
      ensures previewContent == old(previewContent) && previewSource == old(previewSource)
      ensures PreviewMatchesUrl()
    {
      succeeded := outcome.Created?;
      if succeeded {
        stage, message := Success, MintCreated;
      } else {
        stage, message := Error, MintFailureMessage(outcome);
      }
    }

    /** `handleClose`: back to the initial state, and the page hides the dialog. */
    method Close()
      modifies this
      ensures url == "" && previewContent == None && stage == Idle && message == ""
      ensures !isOpen
      ensures PreviewMatchesUrl()
    {
      url := "";
      previewContent := None;
      stage, message := Idle, "";
      isOpen := false;
    }
  }
}
