/**
 The order summary shown before a payment: the recipient's rows (with the
 owner's postal address flattened into one string), the two amounts, and
 the price-guarantee deadline of the fiat order. Decimal display rounding
 and the rate shown are formatting and are left out.
 */
module OrderRecapView {
  import opened JsSemantics
  import opened TradingTypes

  // ---------------------------------------------------------------------------
  // Full address
  // ---------------------------------------------------------------------------

  /** `fullAddress += ', ' + part` when `part` is truthy. */
  function AppendPart(acc: string, part: Option<string>): string
  {
    if Truthy(part) then acc + ", " + part.value else acc
  }

  /** The address parts after the street, in display order. */
  function LaterParts(owner: Option<Owner>): seq<Option<string>>
  {
    match owner
    case None => [None, None, None]
    case Some(o) => [o.zip, o.city, o.country]
  }

  function Street(owner: Option<Owner>): Option<string>
  {
    match owner
    case None => None
    case Some(o) => o.address
  }

  /** The `fullAddress += ', ' + part` statements for `parts`, in order. */
  function AppendParts(acc: string, parts: seq<Option<string>>): string
    decreases |parts|
  {
    if |parts| == 0 then acc else AppendParts(AppendPart(acc, parts[0]), parts[1..])
  }

  /**
   `fullAddress`: the street when truthy, then zip, city and country, each
   appended with a ", " prefix when truthy.
   */
  function FullAddress(owner: Option<Owner>): string
  {
    var street := Street(owner);
    AppendParts(if Truthy(street) then street.value else "", LaterParts(owner))
  }

  /** A truthy part's value, as a list of zero or one strings. */
  function PresentOne(part: Option<string>): seq<string>
  {
    if Truthy(part) then [part.value] else []
  }

  /** The values of the truthy parts, in order. */
  function Present(parts: seq<Option<string>>): seq<string>
  {
    if |parts| == 0 then [] else PresentOne(parts[0]) + Present(parts[1..])
  }

  /** The parts separated by ", ". */
  function Join(xs: seq<string>): string
  {
    if |xs| == 0 then ""
    else if |xs| == 1 then xs[0]
    else xs[0] + ", " + Join(xs[1..])
  }

  /** Each part preceded by ", ". */
  function Prefixed(xs: seq<string>): string
  {
    if |xs| == 0 then "" else ", " + xs[0] + Prefixed(xs[1..])
  }

  lemma {:induction false} PresentEmptyIff(parts: seq<Option<string>>)
    ensures Present(parts) == [] <==> forall i :: 0 <= i < |parts| ==> !Truthy(parts[i])
    decreases |parts|
  {
    if |parts| > 0 {
      PresentEmptyIff(parts[1..]);
      assert forall i :: 1 <= i < |parts| ==> parts[i] == parts[1..][i - 1];
    }
  }

  lemma {:induction false} PrefixedConcat(xs: seq<string>, ys: seq<string>)
    ensures Prefixed(xs + ys) == Prefixed(xs) + Prefixed(ys)
    decreases |xs|
  {
    if |xs| == 0 {
      assert xs + ys == ys;
    } else {
      assert (xs + ys)[1..] == xs[1..] + ys;
      PrefixedConcat(xs[1..], ys);
    }
  }

  /** Prefixed parts start with ", " unless there are none. */
  lemma PrefixedStart(xs: seq<string>)
    ensures xs == [] <==> Prefixed(xs) == ""
    ensures xs != [] ==> |Prefixed(xs)| >= 2 && Prefixed(xs)[..2] == ", "
  {
  }

  /** One append adds the part's value with its prefix, or nothing. */
  lemma AppendPartPrefixes(acc: string, part: Option<string>)
    ensures AppendPart(acc, part) == acc + Prefixed(PresentOne(part))
  {
    if Truthy(part) {
      assert Prefixed([part.value]) == ", " + part.value + Prefixed([]);
    }
  }

  /** Appending parts one by one adds each present part with its prefix. */
  lemma {:induction false} AppendPartsPrefixes(acc: string, parts: seq<Option<string>>)
    ensures AppendParts(acc, parts) == acc + Prefixed(Present(parts))
    decreases |parts|
  {
    if |parts| > 0 {
      var first := PresentOne(parts[0]);
      var rest := Present(parts[1..]);
      var acc' := AppendPart(acc, parts[0]);
      AppendPartsPrefixes(acc', parts[1..]);
      assert AppendParts(acc, parts) == acc' + Prefixed(rest);
      assert acc' + Prefixed(rest) == acc + Prefixed(Present(parts)) by {
        AppendPartPrefixes(acc, parts[0]);
        PrefixedConcat(first, rest);
        assert Present(parts) == first + rest;
      }
    }
  }

  /** A first part followed by prefixed parts is the joined list. */
  lemma {:induction false} JoinCons(x: string, xs: seq<string>)
    ensures Join([x] + xs) == x + Prefixed(xs)
    decreases |xs|
  {
    if |xs| > 0 {
      assert ([x] + xs)[1..] == xs;
      assert xs == [xs[0]] + xs[1..];
      JoinCons(xs[0], xs[1..]);
    }
  }

  /**
   With a street, the address is the present parts joined by ", "; without
   one, the first later part keeps its ", " prefix.
   */
  lemma FullAddressJoins(owner: Option<Owner>)
    ensures Truthy(Street(owner)) ==>
              FullAddress(owner) == Join([Street(owner).value] + Present(LaterParts(owner)))
    ensures !Truthy(Street(owner)) && Present(LaterParts(owner)) != [] ==>
              FullAddress(owner) == ", " + Join(Present(LaterParts(owner)))
  {
    var street := Street(owner);
    var present := Present(LaterParts(owner));
    if Truthy(street) {
      assert FullAddress(owner) == street.value + Prefixed(present) by {
        AppendPartsPrefixes(street.value, LaterParts(owner));
      }
      JoinCons(street.value, present);
    } else if present != [] {
      assert FullAddress(owner) == Prefixed(present) by {
        AppendPartsPrefixes("", LaterParts(owner));
      }
      assert Join(present) == present[0] + Prefixed(present[1..]) by {
        JoinCons(present[0], present[1..]);
        assert [present[0]] + present[1..] == present;
      }
    }
  }

  /**
   The address is empty exactly when every part is absent, and without a
   street a non-empty address starts with ", ".
   */
  lemma FullAddressEmptyOrLeadingComma(owner: Option<Owner>)
    ensures FullAddress(owner) == "" <==>
              !Truthy(Street(owner)) && forall i :: 0 <= i < 3 ==> !Truthy(LaterParts(owner)[i])
    ensures !Truthy(Street(owner)) && FullAddress(owner) != "" ==>
              |FullAddress(owner)| >= 2 && FullAddress(owner)[..2] == ", "
  {
    var street := Street(owner);
    var present := Present(LaterParts(owner));
    AppendPartsPrefixes(if Truthy(street) then street.value else "", LaterParts(owner));
    PresentEmptyIff(LaterParts(owner));
    PrefixedStart(present);
  }

  // ---------------------------------------------------------------------------
  // Recipient rows
  // ---------------------------------------------------------------------------

  datatype Row = Row(title: string, value: string)

  /** A row titled `title` is shown exactly when `value` is truthy, and then with that value. */
  predicate ShowsRowIffTruthy(rows: seq<Row>, title: string, value: Option<string>)
  {
    && (forall row :: row in rows && row.title == title ==> Truthy(value) && row.value == value.value)
    && (Truthy(value) ==> Row(title, value.value) in rows)
  }

  /** The recipient `RecipientRow` children in their JSX order, each behind its guard. */
  function RecipientParts(bankInfo: BankInfo, owner: Owner, fullAddress: string): seq<(bool, Row)>
  {
    var recipient := bankInfo.recipient;
    [ (true, Row("Name", owner.name)),
      GuardedRow("Address", Some(fullAddress)),
      (true, Row("IBAN", recipient.iban)),
      GuardedRow("BIC", recipient.bicSwift),
      GuardedRow("Reference", bankInfo.reference),
      GuardedRow("Contact email", recipient.email) ]
  }

  /** The recipient rows shown: the name first, the IBAN always. */
  function RecipientRows(bankInfo: BankInfo, owner: Owner): (rows: seq<Row>)
    ensures |rows| > 0 && rows[0] == Row("Name", owner.name)
    ensures Row("IBAN", bankInfo.recipient.iban) in rows
  {
    var parts := RecipientParts(bankInfo, owner, FullAddress(Some(owner)));
    assert parts[2].0 && parts[2].1 == Row("IBAN", bankInfo.recipient.iban);
    Rendered(parts)
  }

  /** The Address row is shown exactly when the full address is not empty, and then shows it. */
  lemma AddressRowShown(bankInfo: BankInfo, owner: Owner)
    ensures ShowsRowIffTruthy(RecipientRows(bankInfo, owner), "Address", Some(FullAddress(Some(owner))))
  {
    RowShownIffGuard(RecipientParts(bankInfo, owner, FullAddress(Some(owner))), 1, "Address", Some(FullAddress(Some(owner))));
  }

  /** The BIC row is shown exactly when the BIC is truthy, and then shows it. */
  lemma BicRowShown(bankInfo: BankInfo, owner: Owner)
    ensures ShowsRowIffTruthy(RecipientRows(bankInfo, owner), "BIC", bankInfo.recipient.bicSwift)
  {
    RowShownIffGuard(RecipientParts(bankInfo, owner, FullAddress(Some(owner))), 3, "BIC", bankInfo.recipient.bicSwift);
  }

  /** The Reference row is shown exactly when the reference is truthy, and then shows it. */
  lemma ReferenceRowShown(bankInfo: BankInfo, owner: Owner)
    ensures ShowsRowIffTruthy(RecipientRows(bankInfo, owner), "Reference", bankInfo.reference)
  {
    RowShownIffGuard(RecipientParts(bankInfo, owner, FullAddress(Some(owner))), 4, "Reference", bankInfo.reference);
  }

  /** The Contact email row is shown exactly when the email is truthy, and then shows it. */
  lemma EmailRowShown(bankInfo: BankInfo, owner: Owner)
    ensures ShowsRowIffTruthy(RecipientRows(bankInfo, owner), "Contact email", bankInfo.recipient.email)
  {
    RowShownIffGuard(RecipientParts(bankInfo, owner, FullAddress(Some(owner))), 5, "Contact email", bankInfo.recipient.email);
  }

  /** `{value && <RecipientRow label={title} value={value}/>}` */
  function GuardedRow(title: string, value: Option<string>): (bool, Row)
  {
    (Truthy(value), Row(title, if Truthy(value) then value.value else ""))
  }

  /** A guarded row whose title no other child uses is shown exactly when its value is truthy. */
  lemma RowShownIffGuard(parts: seq<(bool, Row)>, k: nat, title: string, value: Option<string>)
    requires k < |parts| && parts[k] == GuardedRow(title, value)
    requires forall i :: 0 <= i < |parts| && i != k ==> parts[i].1.title != title
    ensures ShowsRowIffTruthy(Rendered(parts), title, value)
  {
    var rows := Rendered(parts);
    forall row | row in rows && row.title == title
      ensures Truthy(value) && row.value == value.value
    {
      assert (true, row) in parts;
      var i :| 0 <= i < |parts| && parts[i] == (true, row);
      assert i == k;
    }
  }

  /** The row a `{value && <RecipientRow …/>}` child contributes: one row when truthy, none otherwise. */
  function ShownRow(title: string, value: Option<string>): seq<Row>
  {
    if Truthy(value) then [Row(title, value.value)] else []
  }

  /**
   The recipient rows are exactly, in this order: Name, Address when the full
   address is not empty, IBAN, then BIC, Reference and Contact email when truthy.
   No other row appears and none appears twice.
   */
  lemma RecipientRowsInOrder(bankInfo: BankInfo, owner: Owner)
    ensures RecipientRows(bankInfo, owner)
            == [Row("Name", owner.name)]
               + (ShownRow("Address", Some(FullAddress(Some(owner))))
               + ([Row("IBAN", bankInfo.recipient.iban)]
               + (ShownRow("BIC", bankInfo.recipient.bicSwift)
               + (ShownRow("Reference", bankInfo.reference)
               + ShownRow("Contact email", bankInfo.recipient.email)))))
  {
    RecipientPartsInOrder(bankInfo, owner, FullAddress(Some(owner)));
  }

  /** The rendering of the recipient children, for any full address. */
  lemma RecipientPartsInOrder(bankInfo: BankInfo, owner: Owner, fullAddress: string)
    ensures Rendered(RecipientParts(bankInfo, owner, fullAddress))
            == [Row("Name", owner.name)]
               + (ShownRow("Address", Some(fullAddress))
               + ([Row("IBAN", bankInfo.recipient.iban)]
               + (ShownRow("BIC", bankInfo.recipient.bicSwift)
               + (ShownRow("Reference", bankInfo.reference)
               + ShownRow("Contact email", bankInfo.recipient.email)))))
  {
    var recipient := bankInfo.recipient;
    RenderedSix((true, Row("Name", owner.name)),
                GuardedRow("Address", Some(fullAddress)),
                (true, Row("IBAN", recipient.iban)),
                GuardedRow("BIC", recipient.bicSwift),
                GuardedRow("Reference", bankInfo.reference),
                GuardedRow("Contact email", recipient.email));
  }

  // ---------------------------------------------------------------------------
  // The recap
  // ---------------------------------------------------------------------------

  /** What rendering the recap throws. */
  datatype RecapError =
    | MissingBankInfo   // thrown explicitly
    | NoBityOrder       // no BITY trade, or one without an order response: reading its timestamp fails
    | MissingOwner      // reading the owner's name fails
  {
    function Message(): string
    {
      match this
      case MissingBankInfo => "missing bank info in OrderRecap"
      case NoBityOrder => "TypeError"
      case MissingOwner => "TypeError"
    }
  }

  datatype AmountView = AmountView(value: string, symbol: string)

  datatype Recap = Recap(rows: seq<Row>, youSend: AmountView, youReceive: AmountView, priceGuaranteedUntil: string)

  /** The trade the recap reads the fiat order from: the first one of type BITY. */
  function BityTrade(trades: seq<Trade>): (r: Option<Trade>)
    ensures r.Some? ==> r.value.tradeType == BITY
    ensures r.Some? ==> exists i: nat :: IsFirstMatch(trades, (t: Trade) => t.tradeType == BITY, i) && trades[i] == r.value
    ensures r.None? <==> forall i :: 0 <= i < |trades| ==> trades[i].tradeType != BITY
  {
    Find(trades, (t: Trade) => t.tradeType == BITY)
  }

  /** `OrderRecap`, failing the way the component throws. */
  function OrderRecap(m: MultiTrade): (r: Result<Recap, RecapError>)
    ensures r == Err(MissingBankInfo) <==> m.multiTradeRequest.bankInfo.None?
    ensures m.multiTradeRequest.bankInfo.None? ==> r.Err? && r.error.Message() == "missing bank info in OrderRecap"
    ensures r == Err(NoBityOrder) <==>
              m.multiTradeRequest.bankInfo.Some? &&
              (BityTrade(m.trades).None? || BityTrade(m.trades).value.bityOrderResponse.None?)
    ensures r == Err(MissingOwner) <==>
              m.multiTradeRequest.bankInfo.Some? &&
              BityTrade(m.trades).Some? && BityTrade(m.trades).value.bityOrderResponse.Some? &&
              m.multiTradeRequest.bankInfo.value.recipient.owner.None?
    ensures r.Ok? <==>
              m.multiTradeRequest.bankInfo.Some? &&
              BityTrade(m.trades).Some? && BityTrade(m.trades).value.bityOrderResponse.Some? &&
              m.multiTradeRequest.bankInfo.value.recipient.owner.Some?
    ensures r.Ok? ==> r.value.rows == RecipientRows(m.multiTradeRequest.bankInfo.value,
                                                    m.multiTradeRequest.bankInfo.value.recipient.owner.value)
    ensures r.Ok? ==> BityTrade(m.trades).Some? && BityTrade(m.trades).value.bityOrderResponse.Some?
                      && r.value.priceGuaranteedUntil
                         == BityTrade(m.trades).value.bityOrderResponse.value.timestampPriceGuaranteed
    ensures r.Ok? ==> r.value.youSend == AmountView(m.inputAmount, m.multiTradeRequest.tradeRequest.inputCurrency.symbol)
    ensures r.Ok? ==> r.value.youReceive == AmountView(m.outputAmount, m.multiTradeRequest.tradeRequest.outputCurrency.symbol)
  {
    match m.multiTradeRequest.bankInfo
    case None => Err(MissingBankInfo)
    case Some(bankInfo) =>
      var tradeRequest := m.multiTradeRequest.tradeRequest;
      match BityTrade(m.trades)
      case None => Err(NoBityOrder)
      case Some(bityTrade) =>
        match bityTrade.bityOrderResponse
        case None => Err(NoBityOrder)
        case Some(order) =>
          match bankInfo.recipient.owner
          case None => Err(MissingOwner)
          case Some(owner) =>
            Ok(Recap(
              RecipientRows(bankInfo, owner),
              AmountView(m.inputAmount, tradeRequest.inputCurrency.symbol),
              AmountView(m.outputAmount, tradeRequest.outputCurrency.symbol),
              order.timestampPriceGuaranteed))
  }
}
