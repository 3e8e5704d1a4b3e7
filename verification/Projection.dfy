/**
 The meaning of one log: what `Projector.Apply` does to the projected tables when no statement is
 interrupted. `Store` carries out the same steps statement by statement and is proved against this.
 */
module Projection {
  import opened Prelude
  import opened Chain
  import opened Ledger
  import Decimal

  /** Go's zero `time.Time`, in Unix seconds. */
  const ZERO_TIME := -62135596800

  /** Why a log cannot be projected yet (`store.ErrUnresolvable`). */
  datatype Reason = UndecodableLog | UnknownToken | UnlinkedMerchant | UnknownSubscription | UnknownJob

  /** Errors that fail the whole batch; the last two depend on the connection, not on the data. */
  datatype Failure = UniqueViolation | NoPayoutAddress | MissingTimestamp | Outage | SerializationFailure

  datatype Effect =
    | Written(rows: Rows)
    | Unresolvable(reason: Reason)
    | Fatal(why: Failure)

  /** Token symbols by address and the mode of the environment. */
  datatype Config = Config(tokens: map<Address, string>, mode: string)

  // ----- Merchant registry -----

  /** The row registered by this transaction, when it is free for the id. */
  function RegisteredRow(rows: Rows, onchainId: int, tx: Hash): Option<MerchantId> {
    if tx in rows.registrations && FreeFor(rows, rows.registrations[tx], onchainId)
    then Some(rows.registrations[tx]) else None
  }

  /** The row the update selects: the holder of the id, else the registered row. */
  function SelectedRow(rows: Rows, onchainId: int, tx: Hash): Option<MerchantId> {
    if FindMerchant(rows, onchainId).Some? then FindMerchant(rows, onchainId) else RegisteredRow(rows, onchainId, tx)
  }

  function WithLink(rows: Rows, m: Option<MerchantId>, onchainId: int): map<int, MerchantId> {
    if m.Some? then rows.links[onchainId := m.value] else rows.links
  }

  function WithRegistration(
      rows: Rows, m: Option<MerchantId>, tx: Hash, time: int, feeBps: nat, maxFeeBps: nat): map<MerchantId, Merchant> {
    if m.Some? then rows.merchants[m.value := Merchant(Payout(rows, m.value), feeBps, maxFeeBps, Some(tx), Some(time))]
    else rows.merchants
  }

  /** When the id's holder and the registered row differ, both are selected and cannot share the unique id. */
  function LinkMerchant(rows: Rows, lg: Log, time: int, e: Event): Effect
    requires e.MerchantRegistered?
  {
    if FindMerchant(rows, e.merchant).Some? && RegisteredRow(rows, e.merchant, lg.tx).Some?
       && FindMerchant(rows, e.merchant) != RegisteredRow(rows, e.merchant, lg.tx) then Fatal(UniqueViolation)
    else Written(rows.(
      links := WithLink(rows, SelectedRow(rows, e.merchant, lg.tx), e.merchant),
      merchants := WithRegistration(rows, SelectedRow(rows, e.merchant, lg.tx), lg.tx, time, e.feeBps, e.maxFeeBps)))
  }

  function WithPayout(rows: Rows, m: Option<MerchantId>, payout: Address): map<MerchantId, Merchant> {
    if m.Some? && m.value in rows.merchants
    then rows.merchants[m.value := rows.merchants[m.value].(payout := payout)] else rows.merchants
  }

  function SetPayout(rows: Rows, e: Event): Rows
    requires e.PayoutUpdated?
  {
    rows.(merchants := WithPayout(rows, FindMerchant(rows, e.merchant), e.payout))
  }

  function WithFee(rows: Rows, m: Option<MerchantId>, feeBps: nat, tx: Hash, time: int): map<MerchantId, Merchant> {
    if m.Some? && m.value in rows.merchants
    then rows.merchants[m.value :=
      rows.merchants[m.value].(feeBps := feeBps, feeTx := Some(tx), feeChangedAt := Some(time))]
    else rows.merchants
  }

  function SetFee(rows: Rows, lg: Log, time: int, e: Event): Rows
    requires e.FeeUpdated?
  {
    rows.(
      merchants := WithFee(rows, FindMerchant(rows, e.merchant), e.feeBps, lg.tx, time),
      audits := rows.audits + [AuditRow(None, "merchant.fee_bps_changed_onchain", OnOnchainMerchant(e.merchant))])
  }

  // ----- Audit rows with an id derived from the log -----

  /** `ON CONFLICT DO NOTHING`: the first row written under a key stays. */
  function InsertIfAbsent<T>(table: map<LogKey, T>, key: LogKey, row: T): map<LogKey, T> {
    if key in table then table else table[key := row]
  }

  function GovernanceTarget(linked: Option<MerchantId>, onchainId: int): AuditTarget {
    if linked.Some? then OnMerchant(linked.value) else OnOnchainMerchant(onchainId)
  }

  function SecurityAlerts(rows: Rows, key: LogKey, alert: bool, linked: Option<MerchantId>): map<LogKey, MerchantId> {
    if alert && linked.Some? then InsertIfAbsent(rows.securityAlerts, key, linked.value) else rows.securityAlerts
  }

  function LogGovernance(rows: Rows, lg: Log, e: Event): Rows
    requires e.Governance?
  {
    rows.(
      onchainAudits := InsertIfAbsent(rows.onchainAudits, lg.Key(), AuditRow(
        FindMerchant(rows, e.merchant), e.action, GovernanceTarget(FindMerchant(rows, e.merchant), e.merchant))),
      contractAlerts := if e.alert then rows.contractAlerts + {lg.Key()} else rows.contractAlerts,
      securityAlerts := SecurityAlerts(rows, lg.Key(), e.alert, FindMerchant(rows, e.merchant)))
  }

  function LogOperation(rows: Rows, lg: Log, e: Event): Rows
    requires e.Operation?
  {
    rows.(
      onchainAudits := InsertIfAbsent(rows.onchainAudits, lg.Key(), AuditRow(None, e.action, OnContract(lg.address))),
      contractAlerts := if e.alert then rows.contractAlerts + {lg.Key()} else rows.contractAlerts)
  }

  // ----- One-shot payments -----

  /** `decodeSessionRef`: the printable prefix up to the first NUL, or "" when a byte before it is not printable. */
  function DecodeSessionRef(ref: seq<byte>): string {
    if ref == [] || ref[0] == 0 then ""
    else if !PrintableUpToNul(ref) then ""
    else [ref[0] as char] + DecodeSessionRef(ref[1..])
  }

  predicate PrintableUpToNul(ref: seq<byte>) {
    ref == [] || ref[0] == 0 || (0x20 <= ref[0] <= 0x7E && PrintableUpToNul(ref[1..]))
  }

  function Mismatches(rows: Rows, id: SessionId, s: Session, paid: Transaction): seq<Mismatch> {
    (if s.merchant != paid.merchant then [MerchantMismatch] else []) +
    (if !SameAmount(s.amount, paid.amount) then [AmountMismatch] else []) +
    (if s.currency != paid.currency then [CurrencyMismatch] else []) +
    (if s.mode != paid.mode then [ModeMismatch] else []) +
    (if s.status == Confirmed || HasTransaction(rows, id) then [AlreadyPaid] else [])
  }

  /** The session a payment settles: the one its reference names, when every field agrees and it is unpaid. */
  function SettledSession(rows: Rows, ref: SessionId, t: Transaction): Option<SessionId> {
    if ref != "" && ref in rows.sessions && Mismatches(rows, ref, rows.sessions[ref], t) == [] then Some(ref) else None
  }

  function ConfirmSession(
      sessions: map<SessionId, Session>, id: Option<SessionId>, tx: Hash, payer: Address): map<SessionId, Session> {
    if id.Some? && id.value in sessions && sessions[id.value].status != Confirmed
    then sessions[id.value := sessions[id.value].(status := Confirmed, tx := Some(tx), payer := Some(payer))]
    else sessions
  }

  predicate Payable(invoices: map<SessionId, Invoice>, id: SessionId) {
    id in invoices && invoices[id].status != Paid && invoices[id].status != Void
  }

  function SettleInvoice(invoices: map<SessionId, Invoice>, id: Option<SessionId>): map<SessionId, Invoice> {
    if id.Some? && Payable(invoices, id.value)
    then invoices[id.value := invoices[id.value].(status := Paid)] else invoices
  }

  /** `payment.completed`, then `invoice.paid` when the invoice made the transition. */
  function PaymentEvents(
      invoices: map<SessionId, Invoice>, id: Option<SessionId>, key: LogKey, t: Transaction): seq<WebhookEvent> {
    if id.None? then []
    else if Payable(invoices, id.value) then
      [WebhookEvent(t.merchant, t.mode, PaymentCompleted(id.value, key)),
       WebhookEvent(t.merchant, t.mode, InvoicePaid(invoices[id.value].id, key))]
    else [WebhookEvent(t.merchant, t.mode, PaymentCompleted(id.value, key))]
  }

  function MismatchAudits(rows: Rows, ref: SessionId, t: Transaction): seq<AuditRow> {
    if ref != "" && ref in rows.sessions && Mismatches(rows, ref, rows.sessions[ref], t) != [] then
      [AuditRow(Some(t.merchant), "payment.session_mismatch",
                OnSession(ref, Mismatches(rows, ref, rows.sessions[ref], t)))]
    else []
  }

  function PaymentRow(cfg: Config, rows: Rows, m: MerchantId, lg: Log, time: int, e: Event): Transaction
    requires e.PaymentExecuted? && e.token in cfg.tokens
  {
    Transaction(m, OneShot(None), Decimal.Print(e.amount), Decimal.Print(e.fee), Decimal.Print(e.net),
                cfg.tokens[e.token], e.payer, Payout(rows, m), lg.block, time, cfg.mode)
  }

  /** The new row and everything its settled session brings with it, table by table. */
  function RecordPayment(rows: Rows, key: LogKey, ref: SessionId, t: Transaction): Rows {
    rows.(
      transactions := rows.transactions[key := t.(source := OneShot(SettledSession(rows, ref, t)))],
      sessions := ConfirmSession(rows.sessions, SettledSession(rows, ref, t), key.tx, t.payer),
      invoices := SettleInvoice(rows.invoices, SettledSession(rows, ref, t)),
      outbox := rows.outbox + PaymentEvents(rows.invoices, SettledSession(rows, ref, t), key, t),
      audits := rows.audits + MismatchAudits(rows, ref, t))
  }

  function InsertPayment(cfg: Config, rows: Rows, lg: Log, time: int, e: Event): Effect
    requires e.PaymentExecuted?
  {
    if e.token !in cfg.tokens then Unresolvable(UnknownToken)
    else
      match FindMerchant(rows, e.merchant)
      case None => Unresolvable(UnlinkedMerchant)
      case Some(m) =>
        if lg.Key() in rows.transactions then Written(rows)
        else Written(RecordPayment(rows, lg.Key(), DecodeSessionRef(e.ref), PaymentRow(cfg, rows, m, lg, time, e)))
  }

  // ----- Subscriptions -----

  /** A first charge due after the enrolment block makes the time until then a trial. */
  function NewSubscription(m: MerchantId, cfg: Config, lg: Log, time: int, e: Event): Subscription
    requires e.SubscriptionCreated? && e.token in cfg.tokens
  {
    if e.startAt > time then
      Subscription(m, Trialing, e.payer, cfg.tokens[e.token], Decimal.Print(e.amount), Some(lg.tx), Some(e.startAt),
                   time, e.startAt, e.startAt, 0, None, None, None, cfg.mode)
    else
      Subscription(m, Active, e.payer, cfg.tokens[e.token], Decimal.Print(e.amount), Some(lg.tx), None,
                   e.startAt, e.startAt + e.interval, e.startAt, 0, None, None, None, cfg.mode)
  }

  /** Another subscription already carries the enrolment hash: the unique `enrolmentTxHash` is taken. */
  predicate EnrolmentTaken(rows: Rows, tx: Hash) {
    exists s :: s in rows.subscriptions && rows.subscriptions[s].enrolmentTx == Some(tx)
  }

  function Enrol(cfg: Config, rows: Rows, lg: Log, time: int, e: Event): Effect
    requires e.SubscriptionCreated?
  {
    if e.token !in cfg.tokens then Unresolvable(UnknownToken)
    else if time == ZERO_TIME then Fatal(MissingTimestamp)
    else
      match FindMerchant(rows, e.merchant)
      case None => Unresolvable(UnlinkedMerchant)
      case Some(m) =>
        if e.sub in rows.subscriptions then Written(rows)
        else if EnrolmentTaken(rows, lg.tx) then Fatal(UniqueViolation)
        else Written(AddSubscription(rows, e.sub, NewSubscription(m, cfg, lg, time, e)))
  }

  function AddSubscription(rows: Rows, sub: int, s: Subscription): Rows {
    rows.(subscriptions := rows.subscriptions[sub := s],
          outbox := rows.outbox + [WebhookEvent(s.merchant, s.mode, SubscriptionEnrolled(sub))])
  }

  /** The charge row after the upsert: a new row, a failed row turned into a success, or the row as it was. */
  function ChargedRow(rows: Rows, lg: Log, time: int, e: Event): Charge
    requires e.SubscriptionCharged? && e.sub in rows.subscriptions
  {
    if e.attempt !in rows.charges then NewChargeRow(rows.subscriptions[e.sub], lg, time, e)
    else if rows.charges[e.attempt].status == Failed then
      Upgraded(rows.charges[e.attempt], rows.subscriptions[e.sub].nextChargeAt, lg, time, e)
    else rows.charges[e.attempt]
  }

  function NewChargeRow(s: Subscription, lg: Log, time: int, e: Event): Charge
    requires e.SubscriptionCharged?
  {
    Charge(e.sub, s.merchant, s.nextChargeAt, e.nextChargeAt, Decimal.Print(e.amount),
           if s.currency != "" then s.currency else "USDC",
           Succeeded, Charged, 1, time, Some(time), Some(lg.tx))
  }

  /** A failed attempt that went through after all takes over the paid window. */
  function Upgraded(c: Charge, due: int, lg: Log, time: int, e: Event): Charge
    requires e.SubscriptionCharged?
  {
    c.(status := Succeeded, outcome := Charged, periodStart := due, periodEnd := e.nextChargeAt,
       amount := Decimal.Print(e.amount), executedAt := Some(time), tx := Some(lg.tx))
  }

  function PaidUp(s: Subscription, nextChargeAt: int): Subscription {
    s.(periodStart := s.nextChargeAt, periodEnd := nextChargeAt, nextChargeAt := nextChargeAt,
       retryCount := 0, nextRetryAt := None,
       status := if s.status == AtRisk || s.status == Trialing then Active else s.status)
  }

  function ChargeTransaction(cfg: Config, s: Subscription, payout: Address, lg: Log, time: int, e: Event): Transaction
    requires e.SubscriptionCharged?
  {
    Transaction(s.merchant, SubscriptionCharge(e.sub, e.attempt), Decimal.Print(e.amount), Decimal.Print(e.fee),
                Decimal.Print(e.net), s.currency, s.payer, payout, lg.block, time, cfg.mode)
  }

  /** The charge row and the subscription's new window; for a log not seen before also its transaction and webhook. */
  function SettleCharge(
      rows: Rows, sub: int, attempt: Hash, c: Charge, s: Subscription, key: LogKey, t: Transaction): Rows {
    rows.(
      charges := rows.charges[attempt := c],
      subscriptions := rows.subscriptions[sub := s],
      transactions := InsertIfAbsent(rows.transactions, key, t),
      outbox := if key in rows.transactions then rows.outbox
                else rows.outbox + [WebhookEvent(t.merchant, t.mode, ChargeSucceeded(sub, attempt, key))])
  }

  function InsertCharge(cfg: Config, rows: Rows, lg: Log, time: int, e: Event): Effect
    requires e.SubscriptionCharged?
  {
    if e.sub !in rows.subscriptions || rows.subscriptions[e.sub].merchant !in rows.merchants then
      Unresolvable(UnknownSubscription)
    else if Payout(rows, rows.subscriptions[e.sub].merchant) == "" then Fatal(NoPayoutAddress)
    else if lg.Key() !in rows.transactions && ChargeIsLinked(rows, e.attempt) then Fatal(UniqueViolation)
    else Written(SettleCharge(
      rows, e.sub, e.attempt, ChargedRow(rows, lg, time, e),
      PaidUp(rows.subscriptions[e.sub], e.nextChargeAt), lg.Key(),
      ChargeTransaction(cfg, rows.subscriptions[e.sub], Payout(rows, rows.subscriptions[e.sub].merchant), lg, time, e)))
  }

  function MovePeriodStart(rows: Rows, e: Event): Effect
    requires e.PeriodsSkipped?
  {
    if e.sub !in rows.subscriptions then Unresolvable(UnknownSubscription)
    else Written(rows.(
      subscriptions := rows.subscriptions[e.sub := rows.subscriptions[e.sub].(nextChargeAt := e.paidPeriodStart)],
      audits := rows.audits + [AuditRow(
        Some(rows.subscriptions[e.sub].merchant), "subscription.periods_skipped", OnSubscription(e.sub))]))
  }

  const MINUTE := 60
  const HOUR := 3600

  /** The wait armed by the `n`-th consecutive failure. */
  function Backoff(n: nat): int {
    if n <= 1 then 15 * MINUTE
    else if n == 2 then HOUR
    else if n == 3 then 3 * HOUR
    else if n == 4 then 6 * HOUR
    else if n == 5 then 12 * HOUR
    else 24 * HOUR
  }

  /** A failure not seen before: a new attempt id, or a later block for an attempt that has only failed. */
  predicate IsNewFailure(rows: Rows, attempt: Hash, outcome: ChargeOutcome, time: int) {
    attempt !in rows.charges ||
    (outcome.IsPaymentFailure() && rows.charges[attempt].status == Failed &&
     rows.charges[attempt].executedAt.Some? && rows.charges[attempt].executedAt.value < time)
  }

  function FailedRow(rows: Rows, time: int, e: Event): Charge
    requires e.ChargeSkipped? && e.sub in rows.subscriptions
  {
    if e.attempt !in rows.charges then NewFailedRow(rows.subscriptions[e.sub], time, e)
    else FailedAgain(rows.charges[e.attempt], time, e)
  }

  function NewFailedRow(s: Subscription, time: int, e: Event): Charge
    requires e.ChargeSkipped?
  {
    Charge(e.sub, s.merchant, s.periodStart, s.periodEnd, s.amount, s.currency,
           Failed, e.outcome, 1, time, Some(time), None)
  }

  function FailedAgain(c: Charge, time: int, e: Event): Charge
    requires e.ChargeSkipped?
  {
    c.(outcome := e.outcome, executedAt := Some(time), attemptNumber := c.attemptNumber + 1)
  }

  function Defaulted(s: Subscription, time: int): Subscription {
    if s.Billable() then
      s.(status := AtRisk, retryCount := s.retryCount + 1, nextRetryAt := Some(time + Backoff(s.retryCount + 1)))
    else s
  }

  /** Every outcome gets a row; only a payment failure reaches the merchant and the subscription. */
  function RecordFailure(rows: Rows, time: int, e: Event): Rows
    requires e.ChargeSkipped? && e.sub in rows.subscriptions
  {
    rows.(
      charges := rows.charges[e.attempt := FailedRow(rows, time, e)],
      subscriptions :=
        if e.outcome.IsPaymentFailure() then rows.subscriptions[e.sub := Defaulted(rows.subscriptions[e.sub], time)]
        else rows.subscriptions,
      outbox :=
        if e.outcome.IsPaymentFailure() then rows.outbox + [WebhookEvent(
          rows.subscriptions[e.sub].merchant, rows.subscriptions[e.sub].mode, ChargeFailed(e.sub, e.attempt))]
        else rows.outbox)
  }

  function InsertChargeSkip(rows: Rows, time: int, e: Event): Effect
    requires e.ChargeSkipped?
  {
    if e.sub !in rows.subscriptions then Unresolvable(UnknownSubscription)
    else if !IsNewFailure(rows, e.attempt, e.outcome, time) then Written(rows)
    else Written(RecordFailure(rows, time, e))
  }

  function CancellationReason(canceller: Address, tx: Hash): string {
    "on-chain cancel by " + canceller + " in tx " + tx
  }

  predicate IsOver(s: Subscription) { s.status == Cancelled || s.status == Lapsed }

  /** A subscription that is over stays as it is; an earlier cancellation time or reason is kept. */
  function Withdrawn(s: Subscription, time: int, reason: string): Subscription {
    if IsOver(s) then s
    else s.(
      status := Cancelled,
      cancelledAt := if s.cancelledAt.Some? then s.cancelledAt else Some(time),
      cancellationReason := if s.cancellationReason.Some? then s.cancellationReason else Some(reason))
  }

  function CancelSubscription(rows: Rows, lg: Log, time: int, e: Event): Effect
    requires e.SubscriptionCancelled?
  {
    if e.sub !in rows.subscriptions then Unresolvable(UnknownSubscription)
    else Written(rows.(subscriptions := rows.subscriptions[e.sub :=
      Withdrawn(rows.subscriptions[e.sub], time, CancellationReason(e.canceller, lg.tx))]))
  }

  // ----- Refunds and agent jobs -----

  predicate AwaitsTransfer(refunds: map<Hash, Refund>, tx: Hash) {
    tx in refunds && refunds[tx].status == RefundSubmitted
  }

  function CompletedRefunds(refunds: map<Hash, Refund>, tx: Hash, time: int): map<Hash, Refund> {
    if AwaitsTransfer(refunds, tx)
    then refunds[tx := refunds[tx].(status := RefundCompleted, completedAt := Some(time))]
    else refunds
  }

  function RefundEvents(refunds: map<Hash, Refund>, tx: Hash): seq<WebhookEvent> {
    if AwaitsTransfer(refunds, tx) then [WebhookEvent(refunds[tx].merchant, refunds[tx].mode, RefundDone(tx))] else []
  }

  function CompleteRefund(rows: Rows, lg: Log, time: int): Rows {
    rows.(
      refunds := CompletedRefunds(rows.refunds, lg.tx, time),
      outbox := rows.outbox + RefundEvents(rows.refunds, lg.tx))
  }

  /** The status write and the audit row of one job event. */
  function MoveJob(rows: Rows, e: Event): Effect
    requires e.JobMoved?
  {
    if e.job !in rows.jobs then Unresolvable(UnknownJob)
    else Written(rows.(
      jobs := rows.jobs[e.job := rows.jobs[e.job].(status := e.status)],
      audits := rows.audits + [AuditRow(Some(rows.jobs[e.job].merchant), "job." + e.status, OnJob(e.job))]))
  }

  // ----- Dispatch -----

  function Apply(cfg: Config, rows: Rows, lg: Log, time: int): Effect {
    var e := lg.event;
    match e
    case Undecodable => Unresolvable(UndecodableLog)
    case Unsubscribed => Written(rows)
    case MerchantRegistered(_, _, _) => LinkMerchant(rows, lg, time, e)
    case PayoutUpdated(_, _) => Written(SetPayout(rows, e))
    case FeeUpdated(_, _) => Written(SetFee(rows, lg, time, e))
    case Governance(_, _, _) => Written(LogGovernance(rows, lg, e))
    case Operation(_, _) => Written(LogOperation(rows, lg, e))
    case PaymentExecuted(_, _, _, _, _, _, _) => InsertPayment(cfg, rows, lg, time, e)
    case SubscriptionCreated(_, _, _, _, _, _, _) => Enrol(cfg, rows, lg, time, e)
    case SubscriptionCharged(_, _, _, _, _, _) => InsertCharge(cfg, rows, lg, time, e)
    case PeriodsSkipped(_, _, _) => MovePeriodStart(rows, e)
    case ChargeSkipped(_, _, _) => InsertChargeSkip(rows, time, e)
    case SubscriptionCancelled(_, _) => CancelSubscription(rows, lg, time, e)
    case Transfer => Written(CompleteRefund(rows, lg, time))
    case JobMoved(_, _) => MoveJob(rows, e)
  }
}
