/** The projected tables, one map per table keyed by the natural key its unique index enforces. */
module Ledger {
  import opened Prelude
  import opened Chain
  import Decimal

  type MerchantId = string
  type SessionId = string

  /**
   The unique columns `onchainMerchantId` and `onchainRegistrationTxHash` are the maps `links` and `registrations` of
   `Rows`.
   */
  datatype Merchant = Merchant(
    payout: Address, feeBps: nat, maxFeeBps: nat, feeTx: Option<Hash>, feeChangedAt: Option<int>)

  datatype SessionStatus =
    SessionCreated | AwaitingPayment | SessionSubmitted | Confirmed | SessionFailed | Expired | SessionCancelled

  /** `amount` is the decimal string the API stored. */
  datatype Session = Session(
    merchant: MerchantId, amount: string, currency: string, mode: string,
    status: SessionStatus, tx: Option<Hash>, payer: Option<Address>)

  datatype InvoiceStatus = Draft | Sent | Paid | Overdue | Void

  datatype Invoice = Invoice(id: string, status: InvoiceStatus)

  datatype TransactionSource =
    | OneShot(session: Option<SessionId>)
    | SubscriptionCharge(sub: int, attempt: Hash)

  datatype Transaction = Transaction(
    merchant: MerchantId, source: TransactionSource,
    amount: string, fee: string, net: string, currency: string,
    payer: Address, merchantAddress: Address, block: nat, time: int, mode: string)

  datatype SubscriptionStatus = Trialing | Active | AtRisk | Paused | Cancelled | Lapsed

  datatype Subscription = Subscription(
    merchant: MerchantId, status: SubscriptionStatus, payer: Address, currency: string, amount: string,
    enrolmentTx: Option<Hash>, trialEndsAt: Option<int>,
    periodStart: int, periodEnd: int, nextChargeAt: int,
    retryCount: nat, nextRetryAt: Option<int>,
    cancelledAt: Option<int>, cancellationReason: Option<string>, mode: string)
  {
    /** The statuses a payment failure may move to `at_risk`. */
    predicate Billable() { status == Trialing || status == Active || status == AtRisk }
  }

  datatype ChargeStatus = Pending | InFlight | Succeeded | Failed | Retrying | Abandoned

  datatype Charge = Charge(
    sub: int, merchant: MerchantId, periodStart: int, periodEnd: int, amount: string, currency: string,
    status: ChargeStatus, outcome: ChargeOutcome, attemptNumber: nat,
    scheduledAt: int, executedAt: Option<int>, tx: Option<Hash>)

  datatype RefundStatus =
    RefundPending | AwaitingSignature | RefundSubmitted | RefundCompleted | RefundFailed | RefundCancelled

  datatype Refund = Refund(merchant: MerchantId, mode: string, status: RefundStatus, completedAt: Option<int>)

  datatype Job = Job(merchant: MerchantId, status: string)

  /** The `ref` payload of one undispatched webhook event. */
  datatype WebhookRef =
    | PaymentCompleted(session: SessionId, tx: LogKey)
    | InvoicePaid(invoice: string, tx: LogKey)
    | SubscriptionEnrolled(sub: int)
    | ChargeSucceeded(sub: int, attempt: Hash, tx: LogKey)
    | ChargeFailed(sub: int, attempt: Hash)
    | RefundDone(refundTx: Hash)

  datatype WebhookEvent = WebhookEvent(merchant: MerchantId, mode: string, ref: WebhookRef)

  datatype Mismatch = MerchantMismatch | AmountMismatch | CurrencyMismatch | ModeMismatch | AlreadyPaid

  datatype AuditTarget =
    | OnSession(session: SessionId, reasons: seq<Mismatch>)
    | OnSubscription(sub: int)
    | OnOnchainMerchant(onchainId: int)
    | OnMerchant(id: MerchantId)
    | OnContract(address: Address)
    | OnJob(job: int)

  datatype AuditRow = AuditRow(merchant: Option<MerchantId>, action: string, target: AuditTarget)

  /** `audits` holds the rows with random ids; `onchainAudits` the rows whose id is derived from the log. */
  datatype Rows = Rows(
    merchants: map<MerchantId, Merchant>,
    links: map<int, MerchantId>,
    registrations: map<Hash, MerchantId>,
    sessions: map<SessionId, Session>,
    invoices: map<SessionId, Invoice>,
    transactions: map<LogKey, Transaction>,
    subscriptions: map<int, Subscription>,
    charges: map<Hash, Charge>,
    refunds: map<Hash, Refund>,
    jobs: map<int, Job>,
    outbox: seq<WebhookEvent>,
    audits: seq<AuditRow>,
    onchainAudits: map<LogKey, AuditRow>,
    contractAlerts: set<LogKey>,
    securityAlerts: map<LogKey, MerchantId>)

  function FindMerchant(rows: Rows, onchainId: int): Option<MerchantId> {
    if onchainId in rows.links then Some(rows.links[onchainId]) else None
  }

  function Payout(rows: Rows, m: MerchantId): Address {
    if m in rows.merchants then rows.merchants[m].payout else ""
  }

  /** The merchant row carries no on-chain id other than `onchainId`. */
  predicate FreeFor(rows: Rows, m: MerchantId, onchainId: int) {
    forall id :: id in rows.links && rows.links[id] == m ==> id == onchainId
  }

  predicate HasTransaction(rows: Rows, session: SessionId) {
    exists k :: k in rows.transactions && rows.transactions[k].source == OneShot(Some(session))
  }

  /** Some transaction already references the charge: its unique `subscriptionChargeId` is taken. */
  predicate ChargeIsLinked(rows: Rows, attempt: Hash) {
    exists k :: k in rows.transactions && rows.transactions[k].source.SubscriptionCharge?
                && rows.transactions[k].source.attempt == attempt
  }

  /** `sameAmount`: both strings parse and denote the same integer. */
  predicate SameAmount(a: string, b: string) {
    var x, y := Decimal.ParseInteger(a), Decimal.ParseInteger(b);
    x.Some? && y.Some? && x.value == y.value
  }
}
