/**
 * The trade dialog for one open market: a buy and a sell input sharing one
 * in-flight flag. A trade is validated before any request; on success the
 * returned market goes back to the page and only the acting input is cleared;
 * on failure both inputs keep their amounts.
 */
module Trade {
  import opened Env
  import opened ActivityFeed

  datatype Side = Buy | Sell

  /** The value of a number input: blank, or the number it holds. */
  datatype Amount = Blank | Entered(value: real)

  /** The body posted to `/markets/buy` or `/markets/sell`. */
  datatype TradeRequest = TradeRequest(side: Side, marketId: int, userAddress: string, amount: real)

  /**
   * The trade reply: a decoded body with the HTTP ok flag, its `status`, its
   * `market` and its `message` ("" when missing), or a thrown transport or
   * JSON error.
   */
  datatype TradeResponse =
    | Replied(ok: bool, status: string, market: Market, message: string)
    | Threw(message: string)

  /** A chart point after the (unmodelled) time and price formatting. */
  datatype ChartPoint = ChartPoint(time: string, price: real)

  datatype ChartOutcome = ChartLoaded(points: seq<ChartPoint>) | ChartFailed

  const InvalidAmount := "Please enter a valid amount."

  function ProcessingMessage(side: Side): string
  {
    if side == Buy then "Processing buy..." else "Processing sell..."
  }

  function SuccessMessage(side: Side): string
  {
    if side == Buy then "Success! Shares bought." else "Success! Shares sold."
  }

  /** The other input. */
  function Other(side: Side): (o: Side)
    ensures o != side
  {
    if side == Buy then Sell else Buy
  }

  /** A trade went through only when the reply is 2xx and says `status: "success"`. */
  function IsSuccess(response: TradeResponse): (success: bool)
    ensures success ==> response.Replied? && response.status == "success"
    // a thrown request, or any non-2xx reply whatever its status, is a failure
    ensures response.Threw? || !response.ok ==> !success
    ensures response.Replied? && response.ok && response.status == "success" ==> success
  {
    response.Replied? && response.ok && response.status == "success"
  }

  /** The message shown for a failed trade. */
  function FailureMessage(side: Side, response: TradeResponse): (msg: string)
    requires !IsSuccess(response)
    ensures StartsWith(msg, "Error: ")
    ensures response.Replied? ==>
              msg == "Error: " + Or(response.message, if side == Buy then "BUY failed." else "SELL failed.")
    ensures response.Threw? ==> msg == "Error: " + response.message
  {
    var detail := if response.Threw? then response.message
                  else Or(response.message, if side == Buy then "BUY failed." else "SELL failed.");
    assert ("Error: " + detail)[..7] == "Error: ";
    "Error: " + detail
  }

  /**
   * `executeTrade`'s guard: a trade is refused without an open market, without
   * a wallet address, with a blank, zero or negative amount, or without an API
   * origin.
   */
  function ValidTrade(market: Option<Market>, address: Option<string>, amount: Amount, apiBaseUrl: Option<string>): (valid: bool)
    ensures valid ==> market.Some? && amount.Entered? && amount.value > 0.0
    ensures !valid <==>
              market.None? || !Present(address) || amount.Blank? || amount.value <= 0.0 || !Present(apiBaseUrl)
  {
    market.Some? && Present(address) && amount.Entered? && amount.value > 0.0 && Present(apiBaseUrl)
  }

  class TradeModal {
    const apiBaseUrl: Option<string>
    /** The `market` prop: the page's selected market. */
    var market: Option<Market>
    var history: seq<ChartPoint>
    var isLoadingHistory: bool
    var buyAmount: Amount
    var sellAmount: Amount
    var isTrading: bool
    var statusMessage: string

    constructor (apiBaseUrl: Option<string>)
      ensures this.apiBaseUrl == apiBaseUrl && market == None
      ensures history == [] && !isLoadingHistory
      ensures buyAmount == Blank && sellAmount == Blank && !isTrading && statusMessage == ""
    {
      this.apiBaseUrl := apiBaseUrl;
      market := None;
      history := [];
      isLoadingHistory := false;
      buyAmount, sellAmount := Blank, Blank;
      isTrading := false;
      statusMessage := "";
    }

    function AmountOf(side: Side): Amount
      reads this
    {
      if side == Buy then buyAmount else sellAmount
    }

    /** Both inputs are disabled while a trade is in flight. */
    function InputsEnabled(): (enabled: bool)
      reads this
      ensures enabled <==> !isTrading
    {
      !isTrading
    }

    /** A side's button: disabled while trading or while its input is blank. */
    function TradeEnabled(side: Side): (enabled: bool)
      reads this
      ensures enabled ==> !isTrading
      ensures enabled <==> !isTrading && (if side == Buy then buyAmount else sellAmount) != Blank
    {
      !isTrading && AmountOf(side).Entered?
    }

    /**
     * The effect on the `market` prop, as written: it runs whenever the prop
     * is a different object, and for a market it resets both inputs and the
     * status message and refetches the history (without an API origin it
     * returns before the `try`, leaving the loading flag raised).
     */
    method MarketChanged(m: Option<Market>) returns (historyRequest: Option<int>)
      modifies this
      ensures market == m
      ensures m.Some? ==> isLoadingHistory && buyAmount == Blank && sellAmount == Blank && statusMessage == ""
      ensures m.None? ==>
                isLoadingHistory == old(isLoadingHistory) && buyAmount == old(buyAmount)
                && sellAmount == old(sellAmount) && statusMessage == old(statusMessage)
      ensures historyRequest.Some? <==> m.Some? && Present(apiBaseUrl)
      ensures historyRequest.Some? ==> historyRequest.value == m.value.id
      ensures history == old(history) && isTrading == old(isTrading)
    {
      market := m;
      historyRequest := None;
      if m.Some? {
        isLoadingHistory := true;
        buyAmount, sellAmount := Blank, Blank;
        statusMessage := "";
        if Present(apiBaseUrl) {
          historyRequest := Some(m.value.id);
        }
      }
    }

    /**
     * The same effect keyed on the market's identity: the inputs and the
     * status message are reset only when a different market (by id) is
     * opened; a new copy of the open market, as a trade result delivers,
     * only refreshes the history.
     */
    method MarketSwitched(m: Option<Market>) returns (historyRequest: Option<int>)
      modifies this
      ensures market == m
      ensures m.Some? ==> isLoadingHistory
      ensures m.Some? && (old(market).None? || old(market).value.id != m.value.id) ==>
                buyAmount == Blank && sellAmount == Blank && statusMessage == ""
      ensures m.None? || (old(market).Some? && old(market).value.id == m.value.id) ==>
                buyAmount == old(buyAmount) && sellAmount == old(sellAmount) && statusMessage == old(statusMessage)
      ensures m.None? ==> isLoadingHistory == old(isLoadingHistory)
      ensures historyRequest.Some? <==> m.Some? && Present(apiBaseUrl)
      ensures historyRequest.Some? ==> historyRequest.value == m.value.id
      ensures history == old(history) && isTrading == old(isTrading)
    {
      var sameMarket := m.Some? && market.Some? && market.value.id == m.value.id;
      market := m;
      historyRequest := None;
      if m.Some? {
        isLoadingHistory := true;
        if !sameMarket {
          buyAmount, sellAmount := Blank, Blank;
          statusMessage := "";
        }
        if Present(apiBaseUrl) {
          historyRequest := Some(m.value.id);
        }
      }
    }

    /** The history fetch's completion: a failure empties the chart; loading ends either way. */
    method CompleteHistory(outcome: ChartOutcome)
      modifies this
      ensures history == (if outcome.ChartLoaded? then outcome.points else [])
      ensures !isLoadingHistory
      ensures market == old(market) && buyAmount == old(buyAmount) && sellAmount == old(sellAmount)
      ensures isTrading == old(isTrading) && statusMessage == old(statusMessage)
    {
      history := if outcome.ChartLoaded? then outcome.points else [];
      isLoadingHistory := false;
    }

    /** An input's `onChange`. */
    method SetAmount(side: Side, amount: Amount)
      modifies this
      ensures AmountOf(side) == amount && AmountOf(Other(side)) == old(AmountOf(Other(side)))
      ensures market == old(market) && isTrading == old(isTrading) && statusMessage == old(statusMessage)
      ensures history == old(history) && isLoadingHistory == old(isLoadingHistory)
    {
      if side == Buy {
        buyAmount := amount;
      } else {
        sellAmount := amount;
      }
    }

    /**
     * `executeTrade` up to its `await`: without a market, a wallet address,
     * a positive amount or an API origin it only sets the validation message;
     * otherwise it raises the shared in-flight flag and sends the request.
     */
    method StartTrade(side: Side, address: Option<string>) returns (request: Option<TradeRequest>)
      modifies this
      ensures request.None? <==> !ValidTrade(market, address, AmountOf(side), apiBaseUrl)
      ensures request.None? ==> statusMessage == InvalidAmount && isTrading == old(isTrading)
      ensures request.Some? ==>
                request.value == TradeRequest(side, market.value.id, address.value, AmountOf(side).value)
                && request.value.amount > 0.0
                && isTrading && statusMessage == ProcessingMessage(side)
      ensures market == old(market) && buyAmount == old(buyAmount) && sellAmount == old(sellAmount)
      ensures history == old(history) && isLoadingHistory == old(isLoadingHistory)
    {
      if !ValidTrade(market, address, AmountOf(side), apiBaseUrl) {
        statusMessage := InvalidAmount;
        return None;
      }
      isTrading := true;
      statusMessage := ProcessingMessage(side);
      request := Some(TradeRequest(side, market.value.id, address.value, AmountOf(side).value));
    }

    /**
     * The rest of `executeTrade`. A successful reply hands the returned market
     * to the page and clears only the acting input; any failure sets an
     * `Error: ` message and keeps both amounts. The flag drops either way.
     */
    method CompleteTrade(request: TradeRequest, response: TradeResponse) returns (updated: Option<Market>)
      modifies this
      ensures !isTrading
      ensures updated.Some? <==> IsSuccess(response)
      ensures IsSuccess(response) ==>
                updated.value == response.market && statusMessage == SuccessMessage(request.side)
                && AmountOf(request.side) == Blank
                && AmountOf(Other(request.side)) == old(AmountOf(Other(request.side)))
      ensures !IsSuccess(response) ==>
                statusMessage == FailureMessage(request.side, response)
                && buyAmount == old(buyAmount) && sellAmount == old(sellAmount)
      ensures market == old(market) && history == old(history) && isLoadingHistory == old(isLoadingHistory)
    {
      if IsSuccess(response) {
        statusMessage := SuccessMessage(request.side);
        updated := Some(response.market);
        if request.side == Buy {
          buyAmount := Blank;
        } else {
          sellAmount := Blank;
        }
      } else {
        statusMessage := FailureMessage(request.side, response);
        updated := None;
      }
      isTrading := false;
    }
  }
}
