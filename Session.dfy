/**
 * Runs across the components that exhibit the two places where the front end
 * does not keep its own promises, each beside the same run on the corrected
 * member.
 */
module Session {
  import opened Env
  import opened ActivityFeed
  import Page
  import Mint
  import Trade

  const UrlA := "https://x.com/a"
  const UrlB := "https://x.com/b"
  const Wallet := "0x00000000000000000000000000000000000000aa"

  /**
   * A preview reply that arrives after the dialog was closed, reopened and
   * given another url is installed as that url's preview: the dialog is
   * ready to mint url B while showing the content extracted from url A, and
   * the mint request it then sends is for url B.
   */
  method StalePreviewAccepted(content: Envelope) returns (modal: Mint.MintModal, mint: Option<Mint.MintRequest>)
    ensures modal.stage == Mint.Submitting && modal.url == UrlB
    ensures modal.previewContent == Some(content) && modal.previewSource == UrlA
    ensures mint == Some(Mint.MintRequest(Wallet, UrlB))
  {
    modal := new Mint.MintModal(Some("https://scraper.example"), Some("https://api.example"));
    modal.Open();
    modal.EditUrl(UrlA);
    var request := modal.StartPreview();
    // the close button stays enabled while the preview is in flight
    modal.Close();
    modal.Open();
    assert modal.InputEnabled();
    modal.EditUrl(UrlB);
    modal.CompletePreview(request.value, Mint.Extracted(content));
    assert modal.stage == Mint.ReadyToMint && !modal.PreviewMatchesUrl();
    assert modal.MintEnabled(Some(Wallet));
    mint := modal.StartMint(true, Some(Wallet));
  }

  /** The same run with the identity check: the late reply is dropped. */
  method StalePreviewDiscarded(content: Envelope) returns (modal: Mint.MintModal)
    ensures modal.stage == Mint.Idle && modal.url == UrlB && modal.previewContent == None
    ensures modal.PreviewMatchesUrl()
    ensures !modal.MintEnabled(Some(Wallet))
  {
    modal := new Mint.MintModal(Some("https://scraper.example"), Some("https://api.example"));
    modal.Open();
    modal.EditUrl(UrlA);
    var request := modal.StartPreview();
    modal.Close();
    modal.Open();
    modal.EditUrl(UrlB);
    modal.CompletePreviewCurrent(request.value, Mint.Extracted(content));
  }

  /**
   * A successful buy, as the page and the dialog run it: the page stores the
   * returned market as the selected one, which hands the dialog a new
   * `market` object, and the dialog's reset effect then erases the success
   * message and the untouched sell amount.
   */
  method TradeSuccessErased(m: Market, updated: Market)
    returns (page: Page.HomePage, modal: Trade.TradeModal)
    ensures page.selectedMarket == Some(updated)
    ensures modal.statusMessage == "" && modal.buyAmount == Trade.Blank && modal.sellAmount == Trade.Blank
  {
    page := new Page.HomePage(None);
    modal := new Trade.TradeModal(Some("https://api.example"));
    page.OpenTradeModal(m);
    var h0 := modal.MarketChanged(page.selectedMarket);
    modal.SetAmount(Trade.Buy, Trade.Entered(10.0));
    modal.SetAmount(Trade.Sell, Trade.Entered(5.0));
    var request := modal.StartTrade(Trade.Buy, Some(Wallet));
    var result := modal.CompleteTrade(request.value, Trade.Replied(true, "success", updated, ""));
    assert modal.statusMessage == Trade.SuccessMessage(Trade.Buy) && modal.sellAmount == Trade.Entered(5.0);
    page.HandleTradeSuccess(result.value);
    var h1 := modal.MarketChanged(page.selectedMarket);
  }

  /**
   * The same run with the effect keyed on the market id: the success message
   * stays, the buy input is cleared and the sell input keeps its amount.
   */
  method TradeSuccessKept(m: Market, updated: Market)
    returns (page: Page.HomePage, modal: Trade.TradeModal)
    requires updated.id == m.id
    ensures page.selectedMarket == Some(updated) && modal.market == Some(updated)
    ensures modal.statusMessage == Trade.SuccessMessage(Trade.Buy)
    ensures modal.buyAmount == Trade.Blank && modal.sellAmount == Trade.Entered(5.0)
  {
    page := new Page.HomePage(None);
    modal := new Trade.TradeModal(Some("https://api.example"));
    page.OpenTradeModal(m);
    var h0 := modal.MarketSwitched(page.selectedMarket);
    modal.SetAmount(Trade.Buy, Trade.Entered(10.0));
    modal.SetAmount(Trade.Sell, Trade.Entered(5.0));
    var request := modal.StartTrade(Trade.Buy, Some(Wallet));
    var result := modal.CompleteTrade(request.value, Trade.Replied(true, "success", updated, ""));
    page.HandleTradeSuccess(result.value);
    var h1 := modal.MarketSwitched(page.selectedMarket);
  }
}
