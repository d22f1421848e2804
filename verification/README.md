# Mooni trading and payment decisions, modelled in Dafny

Mooni converts crypto held in a browser wallet into a fiat bank transfer: an
optional token swap through a DEX aggregator (Paraswap), then a fiat order with
the settlement provider (Bity). This project models the small pure decisions
inside that flow and proves what they promise:

- `DexProxy` (`dex_proxy.dfy`): the 10 % gas-limit margin, how a trade request
  becomes an aggregator quote request (swap side and which currency's decimals
  scale the amount), how a quote becomes a DEX trade, the ERC-20 allowance
  decision (approve exactly the required amount, only when the allowance is
  strictly smaller), and the case-insensitive token-list lookup.
- `PaymentStatusView` (`payment_status.dfy`): the payment-status screen, with
  error code to message, step labels and status sub-labels, the mining notice
  and the "bank transfer being sent" hint, the list of failed steps, and the
  single panel shown for each payment status.
- `OrderRecapView` (`order_recap.dfy`): the order summary, with the
  one-line recipient address (including its leading ", " when the street is
  missing), the optional recipient rows, the BITY trade it reads, and the
  ways it throws.
- `CreateOrderHandler` (`create_order.dfy`): `POST /api/bity/createOrder`,
  from request body and provider outcome to HTTP status and payload.

Two shared modules support them. `JsSemantics` (`js_semantics.dfy`) holds the
JavaScript behaviour the code relies on: `undefined` as `Option`, `find`,
`findIndex`, `filter`, ASCII `toLowerCase`, truthiness, and JSX `{cond && child}`
rendering. `TradingTypes` (`trading_types.dfy`) holds the records the code
passes around. `lib/trading/types` is not part of this model, so the record
fields are taken from how the modelled code reads them.

Every call to the network, to a contract or to code outside this model becomes
a parameter:

- the aggregator quote (`quote`);
- the conversions `amountToInt` and `amountToDecimal`;
- the token's allowance and the gas estimate of `approve`;
- the provider's authentication and order creation.

Two behaviours of the order endpoint are easy to misread:

- An incomplete body gets a plain-text 400 `wrong body`. The structured
  `{message, _orderError, errors}` payload is only for orders the provider
  rejects.
- A well-formed body gets a 200 only when the provider creates the order.

## Model

| member | source | states |
|---|---|---|
| DexProxy.GasMargin | app/src/lib/trading/dexProxy.ts:10-13 | The gas limit is never below the estimate and never above 11/10 of it |
| DexProxy.GasMarginIsTenPercentFloor | app/src/lib/trading/dexProxy.ts:10-13 | The added margin is exactly the estimate divided by ten, rounded down; the limit is strictly larger than the estimate iff the estimate is at least 10 |
| DexProxy.RateQuery | app/src/lib/trading/dexProxy.ts:34-38 | The quote asks for input → output symbols. It fixes the same side the user fixed, and the amount is converted with that side's decimals |
| DexProxy.DexTradeOf | app/src/lib/trading/dexProxy.ts:40-49 | The returned trade has type DEX, carries the request unchanged and the quote as metadata, and takes its amounts from the quote's source and destination amounts in each currency's decimals |
| DexProxy.GetRate | app/src/lib/trading/dexProxy.ts:33-50 | A rate exists exactly when the quote for the built request exists. It is then the DEX trade built from that quote: the unchanged request, the quote as metadata, and the quote's source and destination amounts in each currency's decimals |
| DexProxy.CheckAndApproveAllowance | app/src/lib/trading/dexProxy.ts:63-94 | An approval is sent iff the required amount is strictly greater than the allowance. It approves exactly that amount of the input token, from the sender to the spender, with the margined gas limit. Otherwise nothing is sent |
| DexProxy.AllowanceAfterCheck | app/src/lib/trading/dexProxy.ts:88-93 | Once the decision takes effect (EIP-20 `approve` overwrites), the allowance is the larger of the old allowance and the required amount. Checking again sends nothing |
| DexProxy.ApprovalCoversQuotedSource | app/src/lib/trading/dexProxy.ts:85 | If decimal formatting and parsing are inverse, the amount checked against the allowance is the quote's source amount |
| DexProxy.IsTokenExchangeable | app/src/lib/trading/dexProxy.ts:27-31 | The result is the first listed token whose address equals the query ignoring case. It is null exactly when no token matches |
| DexProxy.IsTokenExchangeableIgnoresQueryCase | app/src/lib/trading/dexProxy.ts:29 | Queries that differ only in letter case find the same token |
| JsSemantics.EqualsIgnoringCaseCharwise | app/src/lib/trading/dexProxy.ts:29 | Two addresses compare equal after lower-casing iff they have the same length and agree position by position up to ASCII letter case |
| PaymentStatusView.StepMessage | app/src/components/Payment/PaymentStatus.jsx:135-146 | Each of the five known error codes gets its fixed text. Any other code, or none, gets 'Unknown error.' |
| PaymentStatusView.StepMessagesDistinct | app/src/components/Payment/PaymentStatus.jsx:138-143 | Known codes never give the fallback text, and different codes give different texts |
| PaymentStatusView.StepLabel | app/src/components/Payment/PaymentStatus.jsx:263-268 | Of the four guarded label children, exactly one renders for each step id |
| PaymentStatusView.StepLabelsDistinct | app/src/components/Payment/PaymentStatus.jsx:264-267 | Different step ids get different labels |
| PaymentStatusView.SubLabel | app/src/components/Payment/PaymentStatus.jsx:270-276 | MINING, WAITING, RECEIVED, ERROR and APPROVAL each render exactly their sub-label; QUEUED and DONE render none |
| PaymentStatusView.StatusRow | app/src/components/Payment/PaymentStatus.jsx:263-287 | A row shows its step's one label and its sub-label, if any. It has a transaction link iff the tx hash is truthy, and an order link iff the order id is truthy |
| PaymentStatusView.BityStep | app/src/components/Payment/PaymentStatus.jsx:69 | The consulted step is the first with id BITY; there is none iff no step has that id |
| PaymentStatusView.MiningNoticeIffMiningStep | app/src/components/Payment/PaymentStatus.jsx:71-75 | The mining notice appears iff some step is MINING |
| PaymentStatusView.WaitingForBankTransferIff | app/src/components/Payment/PaymentStatus.jsx:68-70 | With one step per id, the bank-transfer hint applies iff the payment is ONGOING and the BITY step is RECEIVED |
| PaymentStatusView.OngoingInfo | app/src/components/Payment/PaymentStatus.jsx:67-91 | The ongoing panel has the mining notice iff some step is MINING. It shows the bank-transfer hint exactly when waiting for the bank transfer, and otherwise the "do not close this tab" warning |
| PaymentStatusView.StepsWithError | app/src/components/Payment/PaymentStatus.jsx:157 | The failed steps are exactly the steps carrying an error. The list equals all steps iff every step carries one |
| PaymentStatusView.StepsWithErrorConcat | app/src/components/Payment/PaymentStatus.jsx:157 | The failed steps keep their original order: filtering a concatenation concatenates the filtered parts |
| PaymentStatusView.ErrorEntries | app/src/components/Payment/PaymentStatus.jsx:167-180 | The error panel lists one entry per failed step, in order, each with the step's label and the message for its error |
| PaymentStatusView.TerminalPanel | app/src/components/Payment/PaymentStatus.jsx:310-312 | Exactly one panel renders: the ongoing, error or success panel, matching the payment status |
| PaymentStatusView.PaymentScreen | app/src/components/Payment/PaymentStatus.jsx:293-315 | The screen has one row per step, in step order, followed by the single status panel |
| OrderRecapView.AppendPartsPrefixes | app/src/components/OrderRecap.tsx:119-127 | Appending the zip, city and country in turn adds each truthy part with a ", " prefix, in order |
| OrderRecapView.FullAddressJoins | app/src/components/OrderRecap.tsx:115-127 | With a street, the address is the present parts joined by ", ". Without a street but with later parts, it is ", " followed by the later parts joined by ", " |
| OrderRecapView.FullAddressEmptyOrLeadingComma | app/src/components/OrderRecap.tsx:115-127 | The address is empty iff every part is absent. Whenever the street is missing and the address is not empty, it starts with ", " |
| OrderRecapView.RecipientRows | app/src/components/OrderRecap.tsx:142-148 | The name row comes first and the IBAN row is always shown |
| OrderRecapView.RecipientRowsInOrder | app/src/components/OrderRecap.tsx:142-148 | The recipient rows are exactly, in this order: Name, Address when the full address is not empty, IBAN, then BIC, Reference and Contact email when truthy. No other row appears and none appears twice |
| OrderRecapView.AddressRowShown | app/src/components/OrderRecap.tsx:143 | The Address row appears iff the full address is non-empty, and then shows it |
| OrderRecapView.BicRowShown | app/src/components/OrderRecap.tsx:146 | The BIC row appears iff the BIC is truthy, and then shows it |
| OrderRecapView.ReferenceRowShown | app/src/components/OrderRecap.tsx:147 | The Reference row appears iff the reference is truthy, and then shows it |
| OrderRecapView.EmailRowShown | app/src/components/OrderRecap.tsx:148 | The Contact email row appears iff the email is truthy, and then shows it |
| OrderRecapView.BityTrade | app/src/components/OrderRecap.tsx:136 | The recap reads the first trade of type BITY; there is none iff no trade has that type |
| OrderRecapView.OrderRecap | app/src/components/OrderRecap.tsx:110-152 | A missing bankInfo throws 'missing bank info in OrderRecap'. A missing BITY trade or order response fails next (a TypeError). A missing recipient owner fails after that (a TypeError at the name row). The recap renders exactly when bankInfo, a BITY order response and an owner are all present, and then shows the recipient rows, both amounts with their symbols, and the BITY order's price-guarantee deadline |
| CreateOrderHandler.ErrorPayload | app/api/bity/createOrder.ts:30-35 | The rejection payload holds exactly the defined fields among message, _orderError and errors, copied unchanged from the error |
| CreateOrderHandler.Handle | app/api/bity/createOrder.ts:9-41 | No body gives 400 'no body' and an incomplete body gives 400 'wrong body'. The status is 200 iff the body is complete, authentication succeeds and the order is created, and then the payload is the created order. Only an authentication failure escapes. Every status is 200, 400 or 500 |
| CreateOrderHandler.FailureClassification | app/api/bity/createOrder.ts:29-39 | A failed creation gives 400 with the error's payload iff the error carries a truthy _orderError, and otherwise 500 'Unexpected server error' |
| CreateOrderHandler.ValidationPrecedesService | app/api/bity/createOrder.ts:10-24 | For a missing or incomplete body the answer is a 400 that does not depend on authentication or on the provider |

## Left out

- Sending transactions, `executeTrade`, `getSpender`, `getAllowance` and the signer: these are wallet and RPC calls. Their results (allowance, spender, sender, gas estimate) are parameters.
- The Paraswap and Bity client wrappers and the provider authentication: these are HTTP clients whose code is not part of this model. Their outcomes are parameters.
- `amountToInt`, `amountToDecimal`, significant-digit and decimal-place rounding, and the rate shown in the recap: this is decimal display formatting whose code is not part of this model.
- DexProxy.CheckAndApproveAllowance: returns the approval transaction it would send rather than that transaction's hash, which the wallet assigns. It also requires the input currency to be a token with an address, as the unchecked `as Token` cast assumes. An input currency without an address would make the allowance read reject, and that path is not modelled.
- DexProxy.AllowanceAfterCheck: requires the input currency to have an address, for the same reason as `CheckAndApproveAllowance`.
- DexProxy.GasMargin: takes a non-negative estimate; `BigNumber`'s truncating division of negative values is not modelled, because gas estimates are never negative.
- DexProxy.IsTokenExchangeable: folds only ASCII letters, while `toLowerCase` folds all of Unicode. Token addresses are hexadecimal.
- DexProxy.GetRate: a failed quote is `None` rather than a rejected promise with its error.
- PaymentStatusView.WaitingForBankTransferIff: assumes one step per id. Without that assumption only the first BITY step counts, which is what `BityStep` and `WaitingForBankTransfer` state.
- Colours, icons, tooltips, button sizes, the success panel's share and referral links, and navigation on restart or close: these are styling and routing.
- Watching and unwatching a Bity order from a row (`watchBityOrder`, `unwatch`): code that is not part of this model.
- The executor's step transitions, monotone step statuses, and the rule that a payment's status follows its steps: the payment executor is not part of this model.
- OrderRecapView.OrderRecap: assumes `bankInfo.recipient` is present. Otherwise reading it would throw a TypeError, which is not modelled. The price-guarantee timestamp stays a string, not a parsed `Date`.
- CreateOrderHandler.Handle: what the hosting platform answers when authentication throws is not modelled (`Unhandled`).
- JSON numbers are integers in `Json`. Truthiness of `NaN` and of fractional numbers is not modelled, since no modelled decision depends on it.
- `api/user/profitshare.ts`, routes, wallet modal, account and home pages, rate form, Redux contacts and selectors: these are I/O, rendering and store wiring outside the core.
