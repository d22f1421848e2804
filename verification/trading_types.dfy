/**
 The records that flow between the trading helpers, the payment screens and
 the order endpoint. Only the fields the modelled code reads are kept; the
 shapes follow how the code uses them.
 */
module TradingTypes {
  import opened JsSemantics

  /** Which side of a trade request holds the amount the user typed. */
  datatype TradeExact = INPUT | OUTPUT

  datatype TradeType = DEX | BITY

  /** A currency; ERC-20 tokens also carry their contract address. */
  datatype Currency = Currency(symbol: string, decimals: nat, address: Option<string>)

  /** An entry of the exchange aggregator's token list. */
  datatype Token = Token(symbol: string, address: string, decimals: nat)

  /** `amount` is a decimal string in units of the `tradeExact` side's currency. */
  datatype TradeRequest = TradeRequest(
    inputCurrency: Currency,
    outputCurrency: Currency,
    amount: string,
    tradeExact: TradeExact)

  /** The part of an aggregator quote the code reads: integer base-unit amounts. */
  datatype PriceRoute = PriceRoute(srcAmount: nat, destAmount: nat)

  datatype BityOrderResponse = BityOrderResponse(orderId: string, timestampPriceGuaranteed: string)

  /**
   One trade of a payment; `tradeType` tells which of the two optional
   payloads a well-formed trade carries.
   */
  datatype Trade = Trade(
    tradeRequest: TradeRequest,
    inputAmount: string,
    outputAmount: string,
    tradeType: TradeType,
    dexMetadata: Option<PriceRoute>,
    bityOrderResponse: Option<BityOrderResponse>)

  datatype Owner = Owner(
    name: string,
    address: Option<string>,
    zip: Option<string>,
    city: Option<string>,
    country: Option<string>)

  datatype Recipient = Recipient(
    owner: Option<Owner>,
    iban: string,
    bicSwift: Option<string>,
    email: Option<string>)

  datatype BankInfo = BankInfo(recipient: Recipient, reference: Option<string>)

  datatype MultiTradeRequest = MultiTradeRequest(tradeRequest: TradeRequest, bankInfo: Option<BankInfo>)

  datatype MultiTrade = MultiTrade(
    multiTradeRequest: MultiTradeRequest,
    trades: seq<Trade>,
    inputAmount: string,
    outputAmount: string)
}
