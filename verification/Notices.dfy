/** The webhooks: which event each log queues, how often over every feed, and for whom. */
module Notices {
  import opened Prelude
  import opened Chain
  import opened Ledger
  import opened Projection
  import opened Feed
  import opened Footprint
  import opened Windows
  import opened Receipts
  import opened Lifecycle
  import opened Sessions

  // ----- What one log queues -----

  predicate AwaitedRefund(rows: Rows, tx: Hash) {
    tx in rows.refunds && rows.refunds[tx].status == RefundSubmitted
  }

  /** The events a log other than a payment queues, on the rows it comes to. */
  function Told(cfg: Config, rows: Rows, lg: Log, time: int): seq<WebhookEvent> {
    match lg.event
    case SubscriptionCreated(sub, merchant, _, _, _, _, _) =>
      if sub in rows.subscriptions || merchant !in rows.links then []
      else [WebhookEvent(rows.links[merchant], cfg.mode, SubscriptionEnrolled(sub))]
    case SubscriptionCharged(sub, attempt, _, _, _, _) =>
      if lg.Key() in rows.transactions || sub !in rows.subscriptions then []
      else [WebhookEvent(rows.subscriptions[sub].merchant, cfg.mode, ChargeSucceeded(sub, attempt, lg.Key()))]
    case ChargeSkipped(sub, attempt, outcome) =>
      if sub !in rows.subscriptions || !IsNews(rows, attempt, outcome, time) || outcome !in COLLECTION_FAILURES then []
      else [WebhookEvent(rows.subscriptions[sub].merchant, rows.subscriptions[sub].mode, ChargeFailed(sub, attempt))]
    case Transfer =>
      if !AwaitedRefund(rows, lg.tx) then []
      else [WebhookEvent(rows.refunds[lg.tx].merchant, rows.refunds[lg.tx].mode, RefundDone(lg.tx))]
    case _ => []
  }

  lemma ChargeTells(cfg: Config, rows: Rows, lg: Log, time: int)
    requires lg.event.SubscriptionCharged? && Apply(cfg, rows, lg, time).Written?
    ensures Apply(cfg, rows, lg, time).rows.outbox == rows.outbox + Told(cfg, rows, lg, time)
  {
    assert Apply(cfg, rows, lg, time) == InsertCharge(cfg, rows, lg, time, lg.event);
    hide Apply, ChargedRow, PaidUp, ChargeIsLinked;
    assert rows.outbox + [] == rows.outbox;
  }

  /** A transfer completes the refund that waited for it, at its own block time, and says so once. */
  lemma TransferLands(cfg: Config, rows: Rows, lg: Log, time: int)
    requires lg.event.Transfer? && Apply(cfg, rows, lg, time).Written?
    ensures var after := Apply(cfg, rows, lg, time).rows;
      && after.refunds ==
           (if AwaitedRefund(rows, lg.tx)
            then rows.refunds[lg.tx := rows.refunds[lg.tx].(status := RefundCompleted, completedAt := Some(time))]
            else rows.refunds)
      && after == rows.(refunds := after.refunds, outbox := rows.outbox + Told(cfg, rows, lg, time))
  {
    assert Apply(cfg, rows, lg, time).rows == CompleteRefund(rows, lg, time);
  }

  lemma RegistryTells(cfg: Config, rows: Rows, lg: Log, time: int)
    requires lg.event.MerchantRegistered? || lg.event.PayoutUpdated? || lg.event.FeeUpdated? || lg.event.Unsubscribed?
    requires Apply(cfg, rows, lg, time).Written?
    ensures Apply(cfg, rows, lg, time).rows.outbox == rows.outbox
    ensures Apply(cfg, rows, lg, time).rows.refunds == rows.refunds
  {
    match lg.event
    case MerchantRegistered(_, _, _) => assert Apply(cfg, rows, lg, time) == LinkMerchant(rows, lg, time, lg.event);
    case PayoutUpdated(_, _) =>
    case FeeUpdated(_, _) =>
    case Unsubscribed =>
  }

  lemma AuditTells(cfg: Config, rows: Rows, lg: Log, time: int)
    requires lg.event.Governance? || lg.event.Operation? || lg.event.JobMoved?
    requires Apply(cfg, rows, lg, time).Written?
    ensures Apply(cfg, rows, lg, time).rows.outbox == rows.outbox
    ensures Apply(cfg, rows, lg, time).rows.refunds == rows.refunds
  {
    match lg.event
    case Governance(_, _, _) =>
    case Operation(_, _) =>
    case JobMoved(_, _) => assert Apply(cfg, rows, lg, time) == MoveJob(rows, lg.event);
  }

  lemma EnrolmentTells(cfg: Config, rows: Rows, lg: Log, time: int)
    requires lg.event.SubscriptionCreated? && Apply(cfg, rows, lg, time).Written?
    ensures Apply(cfg, rows, lg, time).rows.outbox == rows.outbox + Told(cfg, rows, lg, time)
  {
    EnrolmentOpens(cfg, rows, lg, time);
    hide Apply;
    assert rows.outbox + [] == rows.outbox;
  }

  lemma FailureTells(cfg: Config, rows: Rows, lg: Log, time: int)
    requires lg.event.ChargeSkipped? && Apply(cfg, rows, lg, time).Written?
    ensures Apply(cfg, rows, lg, time).rows.outbox == rows.outbox + Told(cfg, rows, lg, time)
  {
    FailureLands(cfg, rows, lg, time);
    hide Apply, IsNews, FailedFirst, FailedMore, WaitAfter, COLLECTION_FAILURES;
    assert rows.outbox + [] == rows.outbox;
  }

  lemma OthersTellNothing(cfg: Config, rows: Rows, lg: Log, time: int)
    requires !lg.event.SubscriptionCreated? && !lg.event.SubscriptionCharged? && !lg.event.ChargeSkipped?
    requires !lg.event.Transfer?
    ensures rows.outbox == rows.outbox + Told(cfg, rows, lg, time)
  {
  }

  lemma ToldStep(cfg: Config, rows: Rows, lg: Log, time: int)
    requires !lg.event.PaymentExecuted? && Apply(cfg, rows, lg, time).Written?
    ensures Apply(cfg, rows, lg, time).rows.outbox == rows.outbox + Told(cfg, rows, lg, time)
  {
    hide Apply, Told, NextSubscription, AwaitedRefund;
    match lg.event
    case Undecodable => UndecodableNeverLands(cfg, rows, lg, time);
    case SubscriptionCreated(_, _, _, _, _, _, _) => EnrolmentTells(cfg, rows, lg, time);
    case SubscriptionCharged(_, _, _, _, _, _) => ChargeTells(cfg, rows, lg, time);
    case ChargeSkipped(_, _, _) => FailureTells(cfg, rows, lg, time);
    case Transfer => TransferLands(cfg, rows, lg, time);
    case _ =>
      OthersTellNothing(cfg, rows, lg, time);
      OthersAreQuiet(cfg, rows, lg, time);
  }

  lemma OthersAreQuiet(cfg: Config, rows: Rows, lg: Log, time: int)
    requires !lg.event.SubscriptionCreated? && !lg.event.SubscriptionCharged? && !lg.event.ChargeSkipped?
    requires !lg.event.Transfer? && !lg.event.PaymentExecuted? && !lg.event.Undecodable?
    requires Apply(cfg, rows, lg, time).Written?
    ensures Apply(cfg, rows, lg, time).rows.outbox == rows.outbox
  {
    hide Apply, NextSubscription;
    match lg.event
    case PeriodsSkipped(_, _, _) => PeriodsSkippedFootprint(cfg, rows, lg, time);
    case SubscriptionCancelled(_, _) => CancelledFootprint(cfg, rows, lg, time);
    case Governance(_, _, _) => AuditTells(cfg, rows, lg, time);
    case Operation(_, _) => AuditTells(cfg, rows, lg, time);
    case JobMoved(_, _) => AuditTells(cfg, rows, lg, time);
    case _ => RegistryTells(cfg, rows, lg, time);
  }

  // ----- Payments -----

  /** Events of a checkout, for the merchant and in the mode of the transaction. */
  predicate OfCheckout(e: WebhookEvent, key: LogKey, t: Transaction) {
    (e.ref.PaymentCompleted? || e.ref.InvoicePaid?) && e.ref.tx == key && e.merchant == t.merchant && e.mode == t.mode
  }

  predicate AllOfCheckout(news: seq<WebhookEvent>, key: LogKey, t: Transaction) {
    forall i :: 0 <= i < |news| ==> OfCheckout(news[i], key, t)
  }

  function News(rows: Rows, after: Rows): seq<WebhookEvent>
    requires rows.outbox <= after.outbox
  {
    after.outbox[|rows.outbox|..]
  }

  lemma CheckoutEvents(invoices: map<SessionId, Invoice>, settled: Option<SessionId>, key: LogKey, t: Transaction)
    ensures AllOfCheckout(PaymentEvents(invoices, settled, key, t), key, t)
  {
  }

  lemma RecordedTells(rows: Rows, key: LogKey, ref: SessionId, t: Transaction)
    ensures var after := RecordPayment(rows, key, ref, t);
      && rows.outbox <= after.outbox && after.refunds == rows.refunds && after.subscriptions == rows.subscriptions
      && key in after.transactions && AllOfCheckout(News(rows, after), key, after.transactions[key])
  {
    var settled := SettledSession(rows, ref, t);
    CheckoutEvents(rows.invoices, settled, key, t);
    hide SettledSession, ConfirmSession, SettleInvoice, MismatchAudits, PaymentEvents;
    assert News(rows, RecordPayment(rows, key, ref, t)) == PaymentEvents(rows.invoices, settled, key, t);
  }

  lemma PaymentTells(cfg: Config, rows: Rows, lg: Log, time: int)
    requires lg.event.PaymentExecuted? && Apply(cfg, rows, lg, time).Written?
    ensures var after := Apply(cfg, rows, lg, time).rows;
      && rows.outbox <= after.outbox && after.refunds == rows.refunds && after.subscriptions == rows.subscriptions
      && lg.Key() in after.transactions
      && AllOfCheckout(News(rows, after), lg.Key(), after.transactions[lg.Key()])
  {
    var e := lg.event;
    assert Apply(cfg, rows, lg, time) == InsertPayment(cfg, rows, lg, time, e);
    hide Apply, RecordPayment, PaymentRow, DecodeSessionRef, OfCheckout;
    if lg.Key() !in rows.transactions {
      var m := FindMerchant(rows, e.merchant).value;
      RecordedTells(rows, lg.Key(), DecodeSessionRef(e.ref), PaymentRow(cfg, rows, m, lg, time, e));
    }
  }

  // ----- Counting -----

  lemma {:induction false} EmittedConcat(a: seq<WebhookEvent>, b: seq<WebhookEvent>, ref: WebhookRef)
    ensures Emitted(a + b, ref) == Emitted(a, ref) + Emitted(b, ref)
  {
    if b == [] {
      assert a + b == a;
    } else {
      assert (a + b)[..|a + b| - 1] == a + b[..|b| - 1];
      EmittedConcat(a, b[..|b| - 1], ref);
    }
  }

  lemma {:induction false} CheckoutOnly(news: seq<WebhookEvent>, key: LogKey, t: Transaction, ref: WebhookRef)
    requires AllOfCheckout(news, key, t) && !ref.PaymentCompleted? && !ref.InvoicePaid?
    ensures Emitted(news, ref) == 0
  {
    if news != [] { CheckoutOnly(news[..|news| - 1], key, t, ref); }
  }

  lemma EmittedOne(e: WebhookEvent, ref: WebhookRef)
    ensures Emitted([e], ref) == if e.ref == ref then 1 else 0
    ensures Emitted([], ref) == 0
  {
    assert [e][..0] == [];
  }

  /** How often a log's own events carry a reference that no checkout carries. */
  lemma NewCount(cfg: Config, rows: Rows, lg: Log, time: int, ref: WebhookRef)
    requires Apply(cfg, rows, lg, time).Written? && !ref.PaymentCompleted? && !ref.InvoicePaid?
    ensures Emitted(Apply(cfg, rows, lg, time).rows.outbox, ref) ==
            Emitted(rows.outbox, ref) + Emitted(Told(cfg, rows, lg, time), ref)
  {
    var after := Apply(cfg, rows, lg, time).rows;
    hide Apply, Told, Emitted;
    if lg.event.PaymentExecuted? {
      PaymentTells(cfg, rows, lg, time);
      assert after.outbox == rows.outbox + News(rows, after);
      EmittedConcat(rows.outbox, News(rows, after), ref);
      CheckoutOnly(News(rows, after), lg.Key(), after.transactions[lg.Key()], ref);
      PaymentsTellNothingElse(cfg, rows, lg, time, ref);
    } else {
      ToldStep(cfg, rows, lg, time);
      EmittedConcat(rows.outbox, Told(cfg, rows, lg, time), ref);
    }
  }

  lemma PaymentsTellNothingElse(cfg: Config, rows: Rows, lg: Log, time: int, ref: WebhookRef)
    requires lg.event.PaymentExecuted?
    ensures Emitted(Told(cfg, rows, lg, time), ref) == 0
  {
  }

  // ----- Charges, enrolments and refunds are announced exactly once -----

  predicate RecordsCharge(rows: Rows, sub: int, attempt: Hash, k: LogKey) {
    k in rows.transactions && rows.transactions[k].source == SubscriptionCharge(sub, attempt)
  }

  ghost predicate ChargesAnnounced(rows: Rows) {
    forall sub: int, attempt: Hash, k: LogKey ::
      Emitted(rows.outbox, ChargeSucceeded(sub, attempt, k)) == if RecordsCharge(rows, sub, attempt, k) then 1 else 0
  }

  ghost predicate EnrolmentsAnnounced(rows: Rows) {
    forall sub: int ::
      Emitted(rows.outbox, SubscriptionEnrolled(sub)) == if sub in rows.subscriptions then 1 else 0
  }

  predicate Refunded(rows: Rows, tx: Hash) { tx in rows.refunds && rows.refunds[tx].status == RefundCompleted }

  ghost predicate RefundsAnnounced(rows: Rows) {
    forall tx: Hash :: Emitted(rows.outbox, RefundDone(tx)) == if Refunded(rows, tx) then 1 else 0
  }

  /** Every charge, enrolment and completed refund on file has been announced once, and nothing else has. */
  ghost predicate Announced(rows: Rows) {
    ChargesAnnounced(rows) && EnrolmentsAnnounced(rows) && RefundsAnnounced(rows)
  }

  /** The source of the transaction a log adds under its key. */
  lemma NewSource(cfg: Config, rows: Rows, lg: Log, time: int, sub: int, attempt: Hash, k: LogKey)
    requires Apply(cfg, rows, lg, time).Written?
    ensures RecordsCharge(Apply(cfg, rows, lg, time).rows, sub, attempt, k) <==>
      RecordsCharge(rows, sub, attempt, k)
      || (lg.event.SubscriptionCharged? && lg.Key() !in rows.transactions
          && k == lg.Key() && lg.event.sub == sub && lg.event.attempt == attempt)
  {
    hide Apply, PaymentReceipt, ChargeReceipt;
    TransactionStep(cfg, rows, lg, time);
    if MovesMoney(lg.event) && lg.Key() !in rows.transactions {
      if lg.event.PaymentExecuted? {
        PaymentLeavesReceipt(cfg, rows, lg, time);
        PaymentSource(cfg, rows, lg, time, Apply(cfg, rows, lg, time).rows.transactions[lg.Key()]);
      } else {
        ChargeLeavesReceipt(cfg, rows, lg, time);
        ChargeSource(cfg, rows, lg, time, Apply(cfg, rows, lg, time).rows.transactions[lg.Key()]);
      }
    }
  }

  lemma PaymentSource(cfg: Config, rows: Rows, lg: Log, time: int, t: Transaction)
    requires lg.event.PaymentExecuted? && PaymentReceipt(cfg, rows, lg, time, t)
    ensures t.source.OneShot?
  {
  }

  lemma ChargeSource(cfg: Config, rows: Rows, lg: Log, time: int, t: Transaction)
    requires lg.event.SubscriptionCharged? && ChargeReceipt(cfg, rows, lg, time, t)
    ensures lg.event.sub in rows.subscriptions && t.source == SubscriptionCharge(lg.event.sub, lg.event.attempt)
  {
  }

  lemma ChargedSubscriptionExists(cfg: Config, rows: Rows, lg: Log, time: int)
    requires lg.event.SubscriptionCharged? && Apply(cfg, rows, lg, time).Written?
    ensures lg.event.sub in rows.subscriptions
  {
    hide Apply;
    ChargedFootprint(cfg, rows, lg, time);
  }

  lemma ChargesStayAnnounced(cfg: Config, rows: Rows, lg: Log, time: int)
    requires Apply(cfg, rows, lg, time).Written? && ChargesAnnounced(rows)
    ensures ChargesAnnounced(Apply(cfg, rows, lg, time).rows)
  {
    var after := Apply(cfg, rows, lg, time).rows;
    if lg.event.SubscriptionCharged? { ChargedSubscriptionExists(cfg, rows, lg, time); }
    hide Apply, Emitted;
    forall sub: int, attempt: Hash, k: LogKey
      ensures Emitted(after.outbox, ChargeSucceeded(sub, attempt, k)) ==
        if RecordsCharge(after, sub, attempt, k) then 1 else 0
    {
      NewCount(cfg, rows, lg, time, ChargeSucceeded(sub, attempt, k));
      NewSource(cfg, rows, lg, time, sub, attempt, k);
      ChargeToldOnce(cfg, rows, lg, time, sub, attempt, k);
    }
  }

  lemma ChargeToldOnce(cfg: Config, rows: Rows, lg: Log, time: int, sub: int, attempt: Hash, k: LogKey)
    requires lg.event.SubscriptionCharged? ==> lg.event.sub in rows.subscriptions
    ensures Emitted(Told(cfg, rows, lg, time), ChargeSucceeded(sub, attempt, k)) ==
      if lg.event.SubscriptionCharged? && lg.Key() !in rows.transactions
         && k == lg.Key() && lg.event.sub == sub && lg.event.attempt == attempt then 1 else 0
  {
    var told, ref := Told(cfg, rows, lg, time), ChargeSucceeded(sub, attempt, k);
    if told != [] { EmittedOne(told[0], ref); assert told == [told[0]]; }
  }

  lemma EnrolmentToldOnce(cfg: Config, rows: Rows, lg: Log, time: int, sub: int)
    requires lg.event.SubscriptionCreated? && lg.event.sub !in rows.subscriptions ==> lg.event.merchant in rows.links
    ensures Emitted(Told(cfg, rows, lg, time), SubscriptionEnrolled(sub)) ==
      if lg.event.SubscriptionCreated? && lg.event.sub == sub && sub !in rows.subscriptions then 1 else 0
  {
    var told, ref := Told(cfg, rows, lg, time), SubscriptionEnrolled(sub);
    if told != [] { EmittedOne(told[0], ref); assert told == [told[0]]; }
  }

  lemma EnrolmentsStayAnnounced(cfg: Config, rows: Rows, lg: Log, time: int)
    requires Apply(cfg, rows, lg, time).Written? && EnrolmentsAnnounced(rows)
    ensures EnrolmentsAnnounced(Apply(cfg, rows, lg, time).rows)
  {
    var after := Apply(cfg, rows, lg, time).rows;
    BillingStep(cfg, rows, lg, time);
    hide Apply, Emitted, NextSubscription, NewSubscription;
    forall sub: int
      ensures Emitted(after.outbox, SubscriptionEnrolled(sub)) == if sub in after.subscriptions then 1 else 0
    {
      NewCount(cfg, rows, lg, time, SubscriptionEnrolled(sub));
      EnrolmentToldOnce(cfg, rows, lg, time, sub);
    }
  }

  /** Only a transfer touches the refunds, and only the one that waited for it. */
  lemma RefundStep(cfg: Config, rows: Rows, lg: Log, time: int)
    requires Apply(cfg, rows, lg, time).Written?
    ensures Apply(cfg, rows, lg, time).rows.refunds ==
      if lg.event.Transfer? && AwaitedRefund(rows, lg.tx)
      then rows.refunds[lg.tx := rows.refunds[lg.tx].(status := RefundCompleted, completedAt := Some(time))]
      else rows.refunds
  {
    hide Apply;
    match lg.event
    case Undecodable => UndecodableNeverLands(cfg, rows, lg, time);
    case PaymentExecuted(_, _, _, _, _, _, _) => PaymentTells(cfg, rows, lg, time);
    case SubscriptionCreated(_, _, _, _, _, _, _) => EnrolmentOpens(cfg, rows, lg, time);
    case SubscriptionCharged(_, _, _, _, _, _) => ChargeKeepsRefunds(cfg, rows, lg, time);
    case ChargeSkipped(_, _, _) => FailureLands(cfg, rows, lg, time);
    case PeriodsSkipped(_, _, _) => PeriodsSkippedFootprint(cfg, rows, lg, time);
    case SubscriptionCancelled(_, _) => CancelledFootprint(cfg, rows, lg, time);
    case Transfer => TransferLands(cfg, rows, lg, time);
    case Governance(_, _, _) => AuditTells(cfg, rows, lg, time);
    case Operation(_, _) => AuditTells(cfg, rows, lg, time);
    case JobMoved(_, _) => AuditTells(cfg, rows, lg, time);
    case _ => RegistryTells(cfg, rows, lg, time);
  }

  lemma ChargeKeepsRefunds(cfg: Config, rows: Rows, lg: Log, time: int)
    requires lg.event.SubscriptionCharged? && Apply(cfg, rows, lg, time).Written?
    ensures Apply(cfg, rows, lg, time).rows.refunds == rows.refunds
  {
    assert Apply(cfg, rows, lg, time) == InsertCharge(cfg, rows, lg, time, lg.event);
  }

  lemma RefundToldOnce(cfg: Config, rows: Rows, lg: Log, time: int, tx: Hash)
    ensures Emitted(Told(cfg, rows, lg, time), RefundDone(tx)) ==
      if lg.event.Transfer? && AwaitedRefund(rows, lg.tx) && tx == lg.tx then 1 else 0
  {
    var told, ref := Told(cfg, rows, lg, time), RefundDone(tx);
    if told != [] { EmittedOne(told[0], ref); assert told == [told[0]]; }
  }

  lemma RefundsStayAnnounced(cfg: Config, rows: Rows, lg: Log, time: int)
    requires Apply(cfg, rows, lg, time).Written? && RefundsAnnounced(rows)
    ensures RefundsAnnounced(Apply(cfg, rows, lg, time).rows)
  {
    var after := Apply(cfg, rows, lg, time).rows;
    RefundStep(cfg, rows, lg, time);
    hide Apply, Emitted;
    forall tx: Hash ensures Emitted(after.outbox, RefundDone(tx)) == if Refunded(after, tx) then 1 else 0 {
      NewCount(cfg, rows, lg, time, RefundDone(tx));
      RefundToldOnce(cfg, rows, lg, time, tx);
    }
  }

  /**
   Over every feed, duplicates and failures included: a charge is announced once when a transaction records it, an
   enrolment once when its subscription is on file, a refund once when it is completed, and none of them otherwise.
   */
  lemma {:induction false} EachIsAnnouncedOnce(cfg: Config, rows: Rows, xs: seq<Input>)
    requires Announced(rows) && AbsorbAll(cfg, rows, xs).Some?
    ensures Announced(AbsorbAll(cfg, rows, xs).value)
  {
    hide Apply, ChargesAnnounced, EnrolmentsAnnounced, RefundsAnnounced;
    if xs != [] {
      EachIsAnnouncedOnce(cfg, rows, xs[..|xs| - 1]);
      var before, x := AbsorbAll(cfg, rows, xs[..|xs| - 1]).value, xs[|xs| - 1];
      if Lands(cfg, before, x) {
        ChargesStayAnnounced(cfg, before, x.lg, x.time);
        EnrolmentsStayAnnounced(cfg, before, x.lg, x.time);
        RefundsStayAnnounced(cfg, before, x.lg, x.time);
      } else if x.Linked? {
        LinkAnnouncesNothing(before, x);
      }
    }
  }

  lemma LinkAnnouncesNothing(rows: Rows, x: Input)
    requires x.Linked? && Announced(rows)
    ensures Announced(LinkOutside(rows, x.merchant, x.onchainId))
  {
    var after := LinkOutside(rows, x.merchant, x.onchainId);
    assert after.outbox == rows.outbox && after.transactions == rows.transactions;
    assert after.subscriptions == rows.subscriptions && after.refunds == rows.refunds;
    hide LinkOutside, Emitted;
    assert forall sub, attempt, k :: RecordsCharge(after, sub, attempt, k) == RecordsCharge(rows, sub, attempt, k);
    assert forall tx :: Refunded(after, tx) == Refunded(rows, tx);
  }

  // ----- Failures are announced each time -----

  /** The new collection failures of the attempt that landed in the feed. */
  function Failures(cfg: Config, rows: Rows, xs: seq<Input>, sub: int, attempt: Hash): nat {
    if xs == [] then 0
    else
      Failures(cfg, rows, xs[..|xs| - 1], sub, attempt) +
      (match AbsorbAll(cfg, rows, xs[..|xs| - 1])
       case None => 0
       case Some(r) => if Fails(cfg, r, xs[|xs| - 1], sub, attempt) then 1 else 0)
  }

  predicate Fails(cfg: Config, rows: Rows, x: Input, sub: int, attempt: Hash) {
    && Lands(cfg, rows, x) && x.lg.event.ChargeSkipped? && x.lg.event.sub == sub && x.lg.event.attempt == attempt
    && x.lg.event.outcome in COLLECTION_FAILURES && IsNews(rows, attempt, x.lg.event.outcome, x.time)
  }

  lemma FailureToldOnce(cfg: Config, rows: Rows, x: Input, sub: int, attempt: Hash)
    requires Lands(cfg, rows, x) && (x.lg.event.ChargeSkipped? ==> x.lg.event.sub in rows.subscriptions)
    ensures Emitted(Told(cfg, rows, x.lg, x.time), ChargeFailed(sub, attempt)) ==
            if Fails(cfg, rows, x, sub, attempt) then 1 else 0
  {
    hide Apply, IsNews;
    var told, ref := Told(cfg, rows, x.lg, x.time), ChargeFailed(sub, attempt);
    EmittedOne(WebhookEvent("", "", ref), ref);
    if told != [] { EmittedOne(told[0], ref); assert told == [told[0]]; }
  }

  lemma FailedSubscriptionExists(cfg: Config, rows: Rows, lg: Log, time: int)
    requires lg.event.ChargeSkipped? && Apply(cfg, rows, lg, time).Written?
    ensures lg.event.sub in rows.subscriptions
  {
    hide Apply;
    FailureLands(cfg, rows, lg, time);
  }

  /** A failed attempt is announced once for every new collection failure of it that lands, and never otherwise. */
  lemma {:induction false} EveryFailureIsAnnounced(cfg: Config, rows: Rows, xs: seq<Input>, sub: int, attempt: Hash)
    requires AbsorbAll(cfg, rows, xs).Some?
    ensures Emitted(AbsorbAll(cfg, rows, xs).value.outbox, ChargeFailed(sub, attempt)) ==
            Emitted(rows.outbox, ChargeFailed(sub, attempt)) + Failures(cfg, rows, xs, sub, attempt)
  {
    hide Apply, Told, Emitted, IsNews;
    if xs != [] {
      EveryFailureIsAnnounced(cfg, rows, xs[..|xs| - 1], sub, attempt);
      var before, x := AbsorbAll(cfg, rows, xs[..|xs| - 1]).value, xs[|xs| - 1];
      if Lands(cfg, before, x) {
        if x.lg.event.ChargeSkipped? { FailedSubscriptionExists(cfg, before, x.lg, x.time); }
        NewCount(cfg, before, x.lg, x.time, ChargeFailed(sub, attempt));
        FailureToldOnce(cfg, before, x, sub, attempt);
      } else if x.Linked? {
        LinkQueuesNothing(before, x);
      }
    }
  }

  lemma LinkQueuesNothing(rows: Rows, x: Input)
    requires x.Linked?
    ensures LinkOutside(rows, x.merchant, x.onchainId).outbox == rows.outbox
  {
  }

  // ----- Whom an event is for -----

  predicate SameOwner(e: WebhookEvent, merchant: MerchantId, mode: string) { e.merchant == merchant && e.mode == mode }

  /** The event goes to the merchant, and in the mode, of the row it refers to. */
  predicate AddressedTo(rows: Rows, e: WebhookEvent) {
    match e.ref
    case PaymentCompleted(_, k) =>
      k in rows.transactions && SameOwner(e, rows.transactions[k].merchant, rows.transactions[k].mode)
    case InvoicePaid(_, k) =>
      k in rows.transactions && SameOwner(e, rows.transactions[k].merchant, rows.transactions[k].mode)
    case ChargeSucceeded(_, _, k) =>
      k in rows.transactions && SameOwner(e, rows.transactions[k].merchant, rows.transactions[k].mode)
    case SubscriptionEnrolled(sub) =>
      sub in rows.subscriptions && SameOwner(e, rows.subscriptions[sub].merchant, rows.subscriptions[sub].mode)
    case ChargeFailed(sub, _) =>
      sub in rows.subscriptions && SameOwner(e, rows.subscriptions[sub].merchant, rows.subscriptions[sub].mode)
    case RefundDone(tx) => tx in rows.refunds && SameOwner(e, rows.refunds[tx].merchant, rows.refunds[tx].mode)
  }

  ghost predicate Addressed(rows: Rows) {
    forall i :: 0 <= i < |rows.outbox| ==> AddressedTo(rows, rows.outbox[i])
  }

  ghost predicate RefundOwnersStay(rows: Rows, after: Rows) {
    forall tx :: tx in rows.refunds ==>
      tx in after.refunds && after.refunds[tx].merchant == rows.refunds[tx].merchant
      && after.refunds[tx].mode == rows.refunds[tx].mode
  }

  /** Whatever an event refers to keeps its owner. */
  ghost predicate OwnersStay(rows: Rows, after: Rows) {
    KeepsTransactions(rows, after) && IdentitiesStay(rows, after) && RefundOwnersStay(rows, after)
  }

  lemma StillAddressed(rows: Rows, after: Rows, e: WebhookEvent)
    requires OwnersStay(rows, after) && AddressedTo(rows, e)
    ensures AddressedTo(after, e)
  {
  }

  lemma OwnersStep(cfg: Config, rows: Rows, x: Input)
    requires Absorb(cfg, rows, x).Some?
    ensures OwnersStay(rows, Absorb(cfg, rows, x).value)
  {
    hide Absorb, KeepsTransactions, IdentitiesStay, RefundOwnersStay;
    InputKeepsTransactions(cfg, rows, x);
    IdentityStep(cfg, rows, x);
    RefundOwnersStep(cfg, rows, x);
  }

  lemma RefundOwnersStep(cfg: Config, rows: Rows, x: Input)
    requires Absorb(cfg, rows, x).Some?
    ensures RefundOwnersStay(rows, Absorb(cfg, rows, x).value)
  {
    hide Apply;
    if Lands(cfg, rows, x) { RefundStep(cfg, rows, x.lg, x.time); }
  }

  lemma ToldIsAddressed(cfg: Config, rows: Rows, lg: Log, time: int, i: nat)
    requires !lg.event.PaymentExecuted? && Apply(cfg, rows, lg, time).Written? && i < |Told(cfg, rows, lg, time)|
    ensures AddressedTo(Apply(cfg, rows, lg, time).rows, Told(cfg, rows, lg, time)[i])
  {
    hide Apply, IsNews, Lands, ChargeReceipt;
    var after := Apply(cfg, rows, lg, time).rows;
    match lg.event
    case SubscriptionCreated(_, _, _, _, _, _, _) => EnrolmentOpens(cfg, rows, lg, time);
    case SubscriptionCharged(_, _, _, _, _, _) =>
      ChargeLeavesReceipt(cfg, rows, lg, time);
      ChargeOwner(cfg, rows, lg, time, after.transactions[lg.Key()]);
    case ChargeSkipped(_, _, _) =>
      FailureLands(cfg, rows, lg, time);
    case Transfer => TransferLands(cfg, rows, lg, time);
  }

  lemma ChargeOwner(cfg: Config, rows: Rows, lg: Log, time: int, t: Transaction)
    requires lg.event.SubscriptionCharged? && ChargeReceipt(cfg, rows, lg, time, t)
    ensures lg.event.sub in rows.subscriptions && t.merchant == rows.subscriptions[lg.event.sub].merchant
    ensures t.mode == cfg.mode
  {
  }

  lemma NewsIsAddressed(cfg: Config, rows: Rows, lg: Log, time: int)
    requires Apply(cfg, rows, lg, time).Written?
    ensures rows.outbox <= Apply(cfg, rows, lg, time).rows.outbox
    ensures var after := Apply(cfg, rows, lg, time).rows;
      forall i :: |rows.outbox| <= i < |after.outbox| ==> AddressedTo(after, after.outbox[i])
  {
    var after := Apply(cfg, rows, lg, time).rows;
    hide Apply, Told, AddressedTo;
    if lg.event.PaymentExecuted? {
      PaymentTells(cfg, rows, lg, time);
      forall i | |rows.outbox| <= i < |after.outbox| ensures AddressedTo(after, after.outbox[i]) {
        assert after.outbox[i] == News(rows, after)[i - |rows.outbox|];
        CheckoutIsAddressed(after, after.outbox[i], lg.Key());
      }
    } else {
      ToldStep(cfg, rows, lg, time);
      forall i | |rows.outbox| <= i < |after.outbox| ensures AddressedTo(after, after.outbox[i]) {
        ToldIsAddressed(cfg, rows, lg, time, i - |rows.outbox|);
      }
    }
  }

  lemma CheckoutIsAddressed(rows: Rows, e: WebhookEvent, k: LogKey)
    requires k in rows.transactions && OfCheckout(e, k, rows.transactions[k])
    ensures AddressedTo(rows, e)
  {
  }

  /** Over every feed each event goes to the merchant, and in the mode, of the row it refers to. */
  lemma {:induction false} EventsStayAddressed(cfg: Config, rows: Rows, xs: seq<Input>)
    requires Addressed(rows) && AbsorbAll(cfg, rows, xs).Some?
    ensures Addressed(AbsorbAll(cfg, rows, xs).value)
  {
    hide Apply, AddressedTo, OwnersStay;
    if xs != [] {
      EventsStayAddressed(cfg, rows, xs[..|xs| - 1]);
      var before, x := AbsorbAll(cfg, rows, xs[..|xs| - 1]).value, xs[|xs| - 1];
      var after := Absorb(cfg, before, x).value;
      OwnersStep(cfg, before, x);
      if Lands(cfg, before, x) { NewsIsAddressed(cfg, before, x.lg, x.time); }
      else if x.Linked? { LinkQueuesNothing(before, x); }
      forall i | 0 <= i < |after.outbox| ensures AddressedTo(after, after.outbox[i]) {
        if i < |before.outbox| {
          assert after.outbox[i] == before.outbox[i];
          StillAddressed(before, after, before.outbox[i]);
        }
      }
    }
  }

  // ----- Refunds over every feed -----

  /** The block time of the first transfer under the hash that landed in the feed. */
  function FirstTransfer(cfg: Config, rows: Rows, xs: seq<Input>, tx: Hash): Option<int> {
    if xs == [] then None
    else if FirstTransfer(cfg, rows, xs[..|xs| - 1], tx).Some? then FirstTransfer(cfg, rows, xs[..|xs| - 1], tx)
    else
      match AbsorbAll(cfg, rows, xs[..|xs| - 1])
      case None => None
      case Some(r) =>
        var x := xs[|xs| - 1];
        if Lands(cfg, r, x) && x.lg.event.Transfer? && x.lg.tx == tx then Some(x.time) else None
  }

  /** A submitted refund is completed exactly by the first transfer under its hash, at that transfer's block time. */
  lemma {:induction false} FirstTransferCompletes(cfg: Config, rows: Rows, xs: seq<Input>, tx: Hash)
    requires AbsorbAll(cfg, rows, xs).Some? && AwaitedRefund(rows, tx)
    ensures var r, first := rows.refunds[tx], FirstTransfer(cfg, rows, xs, tx);
      tx in AbsorbAll(cfg, rows, xs).value.refunds
      && AbsorbAll(cfg, rows, xs).value.refunds[tx] ==
         if first.Some? then r.(status := RefundCompleted, completedAt := Some(first.value)) else r
  {
    hide Apply;
    if xs != [] {
      FirstTransferCompletes(cfg, rows, xs[..|xs| - 1], tx);
      var before, x := AbsorbAll(cfg, rows, xs[..|xs| - 1]).value, xs[|xs| - 1];
      if Lands(cfg, before, x) { RefundStep(cfg, before, x.lg, x.time); }
    }
  }
}
