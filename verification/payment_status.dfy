/**
 What the payment-status screen shows for a payment: one row per step with a
 label and a status sub-label, and below the rows exactly one panel chosen by
 the payment's overall status (ongoing notices, the error list, or success).
 Colours, icons and links to block explorers are styling and are left out.
 */
module PaymentStatusView {
  import opened JsSemantics

  datatype StepId = ALLOWANCE | TRADE | PAYMENT | BITY

  datatype StepStatus = QUEUED | APPROVAL | MINING | WAITING | RECEIVED | DONE | ERROR

  datatype PaymentStatus = ONGOING | DONE | ERROR

  /** The error object a failed step carries; `message` holds an error code. */
  datatype StepError = StepError(message: Option<string>)

  datatype PaymentStep = PaymentStep(
    id: StepId,
    status: StepStatus,
    txHash: Option<string>,
    bityOrderId: Option<string>,
    error: Option<StepError>)

  datatype Payment = Payment(status: PaymentStatus, steps: seq<PaymentStep>)

  // ---------------------------------------------------------------------------
  // Error messages
  // ---------------------------------------------------------------------------

  const UnknownError := "Unknown error."

  /** The error codes the screen knows, with the text it shows for each. */
  const KnownErrors: map<string, string> := map[
    "user-rejected-transaction" := "You refused the transaction in your wallet.",
    "token-balance-too-low" := "Your token balance is too low.",
    "bity-order-cancelled" := "The order has been cancelled.",
    "low-balance-for-gas" := "You do not have enough ETH to pay for gas.",
    "order_canceled_not_paying" := "Order is expired or has been cancelled, not sending payment. Please retry."
  ]

  /**
   `getPaymentStepMessage`: the text for a known code, and the fallback for
   any other code or a missing one, so every error gets a message.
   */
  function StepMessage(error: StepError): (m: string)
    ensures error.message.Some? && error.message.value in KnownErrors ==> m == KnownErrors[error.message.value]
    ensures !(error.message.Some? && error.message.value in KnownErrors) ==> m == UnknownError
  {
    var code := error.message;
    if code == Some("user-rejected-transaction") then "You refused the transaction in your wallet."
    else if code == Some("token-balance-too-low") then "Your token balance is too low."
    else if code == Some("bity-order-cancelled") then "The order has been cancelled."
    else if code == Some("low-balance-for-gas") then "You do not have enough ETH to pay for gas."
    else if code == Some("order_canceled_not_paying") then
      "Order is expired or has been cancelled, not sending payment. Please retry."
    else UnknownError
  }

  /** Different known codes give different texts, and none of them is the fallback. */
  lemma StepMessagesDistinct(e1: StepError, e2: StepError)
    requires e1.message.Some? && e1.message.value in KnownErrors
    ensures StepMessage(e1) != UnknownError
    ensures StepMessage(e1) == StepMessage(e2) ==> e1.message == e2.message
  {
  }

  // ---------------------------------------------------------------------------
  // Step rows
  // ---------------------------------------------------------------------------

  /** The four `{id === X && label}` children of a row's label. */
  function LabelParts(id: StepId): seq<(bool, string)>
  {
    [ (id == ALLOWANCE, "Token allowance"),
      (id == TRADE, "Token exchange"),
      (id == PAYMENT, "Payment"),
      (id == BITY, "Fiat exchange") ]
  }

  /** Which of the four label children belongs to a step. */
  function LabelIndex(id: StepId): nat
  {
    match id
    case ALLOWANCE => 0
    case TRADE => 1
    case PAYMENT => 2
    case BITY => 3
  }

  /** The label text rendered for a step: of the four children, exactly this one appears. */
  function StepLabel(id: StepId): (text: string)
    ensures Rendered(LabelParts(id)) == [text]
  {
    RenderedSingle(LabelParts(id), LabelIndex(id));
    match id
    case ALLOWANCE => "Token allowance"
    case TRADE => "Token exchange"
    case PAYMENT => "Payment"
    case BITY => "Fiat exchange"
  }

  /** Distinct steps get distinct labels. */
  lemma StepLabelsDistinct(a: StepId, b: StepId)
    requires a != b
    ensures StepLabel(a) != StepLabel(b)
  {
  }

  /** The five `{status === X && text}` children of a row's sub-label. */
  function SubLabelParts(status: StepStatus): seq<(bool, string)>
  {
    [ (status == MINING, "Mining"),
      (status == WAITING, "Confirming"),
      (status == RECEIVED, "Sending"),
      (status == StepStatus.ERROR, "Error"),
      (status == APPROVAL, "Approval") ]
  }

  /** The sub-label rendered for a status; queued and finished steps get none. */
  function SubLabel(status: StepStatus): (sub: Option<string>)
    ensures sub.None? <==> status == QUEUED || status == StepStatus.DONE
    ensures sub.None? ==> Rendered(SubLabelParts(status)) == []
    ensures sub.Some? ==> Rendered(SubLabelParts(status)) == [sub.value]
  {
    var parts := SubLabelParts(status);
    if status == QUEUED || status == StepStatus.DONE then
      None
    else
      var k := match status
        case MINING => 0
        case WAITING => 1
        case RECEIVED => 2
        case ERROR => 3
        case _ => 4;
      RenderedSingle(parts, k);
      match status
      case MINING => Some("Mining")
      case WAITING => Some("Confirming")
      case RECEIVED => Some("Sending")
      case ERROR => Some("Error")
      case APPROVAL => Some("Approval")
      case _ => None
  }

  datatype StatusRowView = StatusRowView(title: seq<string>, subLabel: seq<string>, transactionLink: bool, orderLink: bool)

  /** `StatusRow`: the rendered label and sub-label, and which external links appear. */
  function StatusRow(step: PaymentStep): (row: StatusRowView)
    ensures row.title == [StepLabel(step.id)]
    ensures row.subLabel == if SubLabel(step.status).Some? then [SubLabel(step.status).value] else []
    ensures row.transactionLink <==> Truthy(step.txHash)
    ensures row.orderLink <==> Truthy(step.bityOrderId)
  {
    StatusRowView(
      Rendered(LabelParts(step.id)),
      Rendered(SubLabelParts(step.status)),
      Truthy(step.txHash),
      Truthy(step.bityOrderId))
  }

  // ---------------------------------------------------------------------------
  // Ongoing panel
  // ---------------------------------------------------------------------------

  /** The step `PaymentOngoingInfo` consults: the first one with the BITY id. */
  function BityStep(p: Payment): (s: Option<PaymentStep>)
    ensures s.Some? ==> exists i: nat :: IsFirstMatch(p.steps, (t: PaymentStep) => t.id == BITY, i) && p.steps[i] == s.value
    ensures s.None? <==> forall i :: 0 <= i < |p.steps| ==> p.steps[i].id != BITY
  {
    Find(p.steps, (t: PaymentStep) => t.id == BITY)
  }

  /** Whether the screen says the bank transfer is being sent. */
  predicate WaitingForBankTransfer(p: Payment)
  {
    var bityStep := BityStep(p);
    p.status == ONGOING && bityStep.Some? && bityStep.value.status == RECEIVED
  }

  /** Whether the "do not speed up" mining notice is shown. */
  predicate MiningNotice(p: Payment)
  {
    Find(p.steps, (t: PaymentStep) => t.status == MINING).Some?
  }

  lemma MiningNoticeIffMiningStep(p: Payment)
    ensures MiningNotice(p) <==> exists i :: 0 <= i < |p.steps| && p.steps[i].status == MINING
  {
    if MiningNotice(p) {
      var s := Find(p.steps, (t: PaymentStep) => t.status == MINING).value;
      var i :| 0 <= i < |p.steps| && p.steps[i] == s;
    }
  }

  predicate UniqueStepIds(steps: seq<PaymentStep>)
  {
    forall i, j :: 0 <= i < j < |steps| ==> steps[i].id != steps[j].id
  }

  /**
   With one step per id, the bank-transfer message is shown exactly when the
   payment is ongoing and the BITY step has received the payment.
   */
  lemma WaitingForBankTransferIff(p: Payment)
    requires UniqueStepIds(p.steps)
    ensures WaitingForBankTransfer(p) <==>
              p.status == ONGOING && exists i :: 0 <= i < |p.steps| && p.steps[i].id == BITY && p.steps[i].status == RECEIVED
  {
    var isBity := (t: PaymentStep) => t.id == BITY;
    if exists i :: 0 <= i < |p.steps| && p.steps[i].id == BITY && p.steps[i].status == RECEIVED {
      var i :| 0 <= i < |p.steps| && p.steps[i].id == BITY && p.steps[i].status == RECEIVED;
      var s := BityStep(p);
      assert s.Some?;
      var k: nat :| IsFirstMatch(p.steps, isBity, k) && p.steps[k] == s.value;
      assert p.steps[k].id == BITY;
    }
  }

  datatype OngoingMessage = BankTransferBeingSent | DoNotCloseTab

  datatype OngoingView = OngoingView(miningNotice: bool, message: OngoingMessage)

  /** `PaymentOngoingInfo`: the mining notice, then one of two messages. */
  function OngoingInfo(p: Payment): (v: OngoingView)
    ensures v.miningNotice <==> exists i :: 0 <= i < |p.steps| && p.steps[i].status == MINING
    ensures v.message == BankTransferBeingSent <==> WaitingForBankTransfer(p)
    ensures v.message == DoNotCloseTab <==> !WaitingForBankTransfer(p)
  {
    MiningNoticeIffMiningStep(p);
    OngoingView(MiningNotice(p), if WaitingForBankTransfer(p) then BankTransferBeingSent else DoNotCloseTab)
  }

  // ---------------------------------------------------------------------------
  // Error panel
  // ---------------------------------------------------------------------------

  /** `stepsWithError`: the steps that carry an error, in their original order. */
  function StepsWithError(steps: seq<PaymentStep>): (r: seq<PaymentStep>)
    ensures forall s :: s in r <==> s in steps && s.error.Some?
    ensures r == steps <==> forall i :: 0 <= i < |steps| ==> steps[i].error.Some?
  {
    var hasError := (s: PaymentStep) => s.error.Some?;
    FilterKeepsAll(steps, hasError);
    Filter(steps, hasError)
  }

  /** Order is kept: the failed steps of two runs of steps are those of the first, then those of the second. */
  lemma StepsWithErrorConcat(a: seq<PaymentStep>, b: seq<PaymentStep>)
    ensures StepsWithError(a + b) == StepsWithError(a) + StepsWithError(b)
  {
    FilterConcat(a, b, (s: PaymentStep) => s.error.Some?);
  }

  datatype ErrorEntry = ErrorEntry(title: seq<string>, message: string)

  /** `PaymentErrorInfo`: one entry per step with an error, labelled like its row. */
  function ErrorEntries(p: Payment): (entries: seq<ErrorEntry>)
    ensures |entries| == |StepsWithError(p.steps)|
    ensures forall i :: 0 <= i < |entries| ==>
              var s := StepsWithError(p.steps)[i];
              s.error.Some? && entries[i] == ErrorEntry([StepLabel(s.id)], StepMessage(s.error.value))
  {
    var failed := StepsWithError(p.steps);
    seq(|failed|, i requires 0 <= i < |failed| =>
      ErrorEntry(Rendered(LabelParts(failed[i].id)), StepMessage(failed[i].error.value)))
  }

  // ---------------------------------------------------------------------------
  // Whole screen
  // ---------------------------------------------------------------------------

  datatype Panel = OngoingPanel(ongoing: OngoingView) | ErrorPanel(entries: seq<ErrorEntry>) | SuccessPanel

  /** The three `{payment.status === X && <Panel/>}` children below the rows. */
  function PanelParts(p: Payment): seq<(bool, Panel)>
  {
    [ (p.status == ONGOING, OngoingPanel(OngoingInfo(p))),
      (p.status == PaymentStatus.ERROR, ErrorPanel(ErrorEntries(p))),
      (p.status == PaymentStatus.DONE, SuccessPanel) ]
  }

  /** The panel for the payment's status; the other two guards are false. */
  function TerminalPanel(p: Payment): (panels: seq<Panel>)
    ensures |panels| == 1
    ensures panels[0].OngoingPanel? <==> p.status == ONGOING
    ensures panels[0].ErrorPanel? <==> p.status == PaymentStatus.ERROR
    ensures panels[0].SuccessPanel? <==> p.status == PaymentStatus.DONE
    ensures panels[0].OngoingPanel? ==> panels[0].ongoing == OngoingInfo(p)
    ensures panels[0].ErrorPanel? ==> panels[0].entries == ErrorEntries(p)
  {
    var parts := PanelParts(p);
    var k := match p.status
      case ONGOING => 0
      case ERROR => 1
      case DONE => 2;
    RenderedSingle(parts, k);
    Rendered(parts)
  }

  datatype ScreenView = ScreenView(rows: seq<StatusRowView>, panels: seq<Panel>)

  /**
   `PaymentStatusComponent`: a row per step in order, and exactly one panel,
   the one matching the payment's status.
   */
  function PaymentScreen(p: Payment): (v: ScreenView)
    ensures |v.rows| == |p.steps|
    ensures forall i :: 0 <= i < |p.steps| ==> v.rows[i] == StatusRow(p.steps[i])
    ensures v.panels == TerminalPanel(p)
  {
    var rows := seq(|p.steps|, i requires 0 <= i < |p.steps| => StatusRow(p.steps[i]));
    ScreenView(rows, TerminalPanel(p))
  }
}
