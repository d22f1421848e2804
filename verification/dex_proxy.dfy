/**
 The decisions `DexProxy` takes around calls to the exchange aggregator and
 to ERC-20 token contracts: the gas-limit margin, how a trade request is
 turned into a quote request and the quote into a trade, whether an
 approval transaction is needed, and the token-list lookup.

 Every network or contract call is a parameter: the aggregator's quote
 (`quote`), the token's current allowance, the gas estimate of `approve`,
 and the decimal/base-unit conversions `amountToInt` / `amountToDecimal`.
 */
module DexProxy {
  import opened JsSemantics
  import opened TradingTypes

  // ---------------------------------------------------------------------------
  // Gas margin
  // ---------------------------------------------------------------------------

  /**
   `calculatedGasMargin`: the estimate plus `estimate * 1000 / 10000`, in the
   integer arithmetic of `BigNumber` (division rounds down for non-negative values).
   */
  function GasMargin(gas: nat): (limit: nat)
    ensures gas <= limit
    ensures 10 * limit <= 11 * gas
  {
    gas + gas * 1000 / 10000
  }

  /** The margin is exactly ten percent of the estimate, rounded down. */
  lemma GasMarginIsTenPercentFloor(gas: nat)
    ensures 10 * (GasMargin(gas) - gas) <= gas < 10 * (GasMargin(gas) - gas + 1)
    ensures GasMargin(gas) > gas <==> gas >= 10
  {
    var q := gas / 10;
    var r := gas % 10;
    assert gas * 1000 == 10000 * q + 1000 * r;
    assert 0 <= 1000 * r < 10000;
    assert gas * 1000 / 10000 == q;
  }

  // ---------------------------------------------------------------------------
  // Rates
  // ---------------------------------------------------------------------------

  /** The aggregator's direction: SELL fixes the source amount, BUY the destination amount. */
  datatype SwapSide = SELL | BUY

  /** What `getRate` asks the aggregator for. */
  datatype QuoteRequest = QuoteRequest(srcToken: string, destToken: string, amount: nat, side: SwapSide)

  function SwapSideOf(tradeExact: TradeExact): (side: SwapSide)
    ensures side == SELL <==> tradeExact == INPUT
  {
    if tradeExact == INPUT then SELL else BUY
  }

  /** The currency whose decimals scale the typed amount. */
  function AmountCurrency(req: TradeRequest): (c: Currency)
    ensures req.tradeExact == INPUT ==> c == req.inputCurrency
    ensures req.tradeExact == OUTPUT ==> c == req.outputCurrency
  {
    if req.tradeExact == INPUT then req.inputCurrency else req.outputCurrency
  }

  /**
   The quote request `getRate` builds: the typed amount goes to the side the
   user fixed, and the aggregator is told to hold that same side fixed.
   */
  function RateQuery(req: TradeRequest, amountToInt: (string, nat) -> nat): (q: QuoteRequest)
    ensures q.srcToken == req.inputCurrency.symbol
    ensures q.destToken == req.outputCurrency.symbol
    ensures q.side == SELL <==> req.tradeExact == INPUT
    ensures q.side == SELL ==> q.amount == amountToInt(req.amount, req.inputCurrency.decimals)
    ensures q.side == BUY ==> q.amount == amountToInt(req.amount, req.outputCurrency.decimals)
  {
    var swapSide := SwapSideOf(req.tradeExact);
    var amountCurrency := AmountCurrency(req);
    var intAmount := amountToInt(req.amount, amountCurrency.decimals);
    QuoteRequest(req.inputCurrency.symbol, req.outputCurrency.symbol, intAmount, swapSide)
  }

  /** The trade `getRate` returns for a quote: both amounts come from the quote. */
  function DexTradeOf(req: TradeRequest, route: PriceRoute, amountToDecimal: (nat, nat) -> string): (t: Trade)
    ensures t.tradeType == DEX
    ensures t.tradeRequest == req
    ensures t.dexMetadata == Some(route) && t.bityOrderResponse.None?
    ensures t.inputAmount == amountToDecimal(route.srcAmount, req.inputCurrency.decimals)
    ensures t.outputAmount == amountToDecimal(route.destAmount, req.outputCurrency.decimals)
  {
    var inputAmount := amountToDecimal(route.srcAmount, req.inputCurrency.decimals);
    var outputAmount := amountToDecimal(route.destAmount, req.outputCurrency.decimals);
    Trade(req, inputAmount, outputAmount, DEX, Some(route), None)
  }

  /** `getRate`; a quote that fails (`None`) makes the whole call fail. */
  function GetRate(
    req: TradeRequest,
    amountToInt: (string, nat) -> nat,
    amountToDecimal: (nat, nat) -> string,
    quote: QuoteRequest -> Option<PriceRoute>): (r: Option<Trade>)
    ensures r.None? <==> quote(RateQuery(req, amountToInt)).None?
    ensures r.Some? ==> r.value.tradeType == DEX && r.value.tradeRequest == req
    ensures r.Some? ==> r.value.dexMetadata == quote(RateQuery(req, amountToInt))
    ensures r.Some? ==> r.value == DexTradeOf(req, quote(RateQuery(req, amountToInt)).value, amountToDecimal)
  {
    match quote(RateQuery(req, amountToInt))
    case None => None
    case Some(route) => Some(DexTradeOf(req, route, amountToDecimal))
  }

  // ---------------------------------------------------------------------------
  // Allowance
  // ---------------------------------------------------------------------------

  /** The ERC-20 `approve(spender, amount)` transaction sent from `owner`. */
  datatype ApproveTx = ApproveTx(token: string, owner: string, spender: string, amount: nat, gasLimit: nat)

  /** The base-unit amount of input token the trade needs to move. */
  function RequiredAllowance(trade: Trade, amountToInt: (string, nat) -> nat): nat
  {
    amountToInt(trade.inputAmount, trade.tradeRequest.inputCurrency.decimals)
  }

  /**
   `checkAndApproveAllowance`: approve exactly the required amount when the
   current allowance is strictly smaller, otherwise send nothing (`null`).
   `estimateGas` is the token contract's gas estimate for `approve`.
   The input currency must be a token, as the source's cast to `Token` assumes.
   */
  function CheckAndApproveAllowance(
    trade: Trade,
    sender: string,
    spender: string,
    allowance: nat,
    amountToInt: (string, nat) -> nat,
    estimateGas: (string, nat) -> nat): (r: Option<ApproveTx>)
    requires trade.tradeRequest.inputCurrency.address.Some?
    ensures r.Some? <==> RequiredAllowance(trade, amountToInt) > allowance
    ensures r.Some? ==> r.value.amount == RequiredAllowance(trade, amountToInt)
    ensures r.Some? ==> r.value.token == trade.tradeRequest.inputCurrency.address.value
    ensures r.Some? ==> r.value.owner == sender && r.value.spender == spender
    ensures r.Some? ==> r.value.gasLimit == GasMargin(estimateGas(spender, r.value.amount))
  {
    var tokenAddress := trade.tradeRequest.inputCurrency.address.value;
    var intAmount := RequiredAllowance(trade, amountToInt);
    if intAmount > allowance then
      Some(ApproveTx(tokenAddress, sender, spender, intAmount, GasMargin(estimateGas(spender, intAmount))))
    else
      None
  }

  /**
   The spender's allowance once the decision has been carried out: under
   EIP-20, `approve` overwrites the allowance with the approved amount.
   It is the larger of the old allowance and the required amount, and a
   second check against it sends nothing.
   */
  function AllowanceAfterCheck(
    trade: Trade,
    sender: string,
    spender: string,
    allowance: nat,
    amountToInt: (string, nat) -> nat,
    estimateGas: (string, nat) -> nat): (after: nat)
    requires trade.tradeRequest.inputCurrency.address.Some?
    ensures after == if allowance < RequiredAllowance(trade, amountToInt)
                     then RequiredAllowance(trade, amountToInt) else allowance
    ensures CheckAndApproveAllowance(trade, sender, spender, after, amountToInt, estimateGas).None?
  {
    match CheckAndApproveAllowance(trade, sender, spender, allowance, amountToInt, estimateGas)
    case None => allowance
    case Some(tx) => tx.amount
  }

  /**
   When decimal formatting and parsing are inverse, the amount checked
   against the allowance is exactly the source amount of the quote `getRate`
   turned into the trade.
   */
  lemma ApprovalCoversQuotedSource(
    req: TradeRequest,
    route: PriceRoute,
    amountToInt: (string, nat) -> nat,
    amountToDecimal: (nat, nat) -> string)
    requires forall a: nat, d: nat :: amountToInt(amountToDecimal(a, d), d) == a
    ensures RequiredAllowance(DexTradeOf(req, route, amountToDecimal), amountToInt) == route.srcAmount
  {
    var t := DexTradeOf(req, route, amountToDecimal);
    assert t.inputAmount == amountToDecimal(route.srcAmount, req.inputCurrency.decimals);
  }

  // ---------------------------------------------------------------------------
  // Token list
  // ---------------------------------------------------------------------------

  /**
   `isTokenExchangeable`: the first token of the aggregator's list whose
   address equals the query up to letter case, or `null` (`None`).
   `EqualsIgnoringCaseCharwise` states that comparison position by position.
   */
  function IsTokenExchangeable(tokens: seq<Token>, tokenAddress: string): (r: Option<Token>)
    ensures r.Some? ==> r.value in tokens && EqualsIgnoringCase(r.value.address, tokenAddress)
    ensures r.Some? ==> exists i :: 0 <= i < |tokens| && tokens[i] == r.value
                                    && forall j :: 0 <= j < i ==> !EqualsIgnoringCase(tokens[j].address, tokenAddress)
    ensures r.None? <==> forall t :: t in tokens ==> !EqualsIgnoringCase(t.address, tokenAddress)
  {
    Find(tokens, (t: Token) => EqualsIgnoringCase(t.address, tokenAddress))
  }

  /** Queries that differ only in letter case find the same token. */
  lemma IsTokenExchangeableIgnoresQueryCase(tokens: seq<Token>, a: string, b: string)
    requires EqualsIgnoringCase(a, b)
    ensures IsTokenExchangeable(tokens, a) == IsTokenExchangeable(tokens, b)
  {
    var p := (t: Token) => EqualsIgnoringCase(t.address, a);
    var q := (t: Token) => EqualsIgnoringCase(t.address, b);
    FindIndexCongruent(tokens, p, q);
  }
}
