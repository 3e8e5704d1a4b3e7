/** What each kind of log does to the billing tables, apart from everything else it writes. */
module Footprint {
  import opened Prelude
  import opened Chain
  import opened Ledger
  import opened Projection

  predicate IsSubscriptionEvent(e: Event) {
    e.SubscriptionCreated? || e.SubscriptionCharged? || e.PeriodsSkipped? || e.ChargeSkipped?
    || e.SubscriptionCancelled?
  }

  /** The subscription a log is about, for the subscription events. */
  function Subject(lg: Log): Option<int> {
    if IsSubscriptionEvent(lg.event) then Some(lg.event.sub) else None
  }

  /** The row a log leaves for its own subscription, when that subscription exists. */
  function NextSubscription(rows: Rows, s: Subscription, lg: Log, time: int): Subscription {
    match lg.event
    case SubscriptionCharged(_, _, _, _, _, next) => PaidUp(s, next)
    case PeriodsSkipped(_, _, start) => s.(nextChargeAt := start)
    case ChargeSkipped(_, attempt, outcome) =>
      if outcome.IsPaymentFailure() && IsNewFailure(rows, attempt, outcome, time) then Defaulted(s, time) else s
    case SubscriptionCancelled(_, canceller) =>
      Withdrawn(s, time, CancellationReason(canceller, lg.tx))
    case _ => s
  }

  /** The tables no subscription event writes. */
  ghost predicate SameElsewhere(a: Rows, b: Rows) {
    && a.merchants == b.merchants && a.links == b.links && a.registrations == b.registrations
    && a.sessions == b.sessions && a.invoices == b.invoices && a.refunds == b.refunds && a.jobs == b.jobs
    && a.onchainAudits == b.onchainAudits && a.contractAlerts == b.contractAlerts
    && a.securityAlerts == b.securityAlerts
  }

  // One lemma per event: with the event fixed, unfolding the projection is cheap.

  lemma CreatedFootprint(cfg: Config, rows: Rows, lg: Log, time: int)
    requires lg.event.SubscriptionCreated? && Apply(cfg, rows, lg, time).Written?
    ensures var after, e := Apply(cfg, rows, lg, time).rows, lg.event;
      && after.charges == rows.charges && after.transactions == rows.transactions
      && SameElsewhere(rows, after)
      && (if e.sub in rows.subscriptions then after.subscriptions == rows.subscriptions && after.outbox == rows.outbox
          else
            && FindMerchant(rows, e.merchant).Some? && e.token in cfg.tokens
            && after.subscriptions == rows.subscriptions[e.sub :=
                 NewSubscription(FindMerchant(rows, e.merchant).value, cfg, lg, time, e)])
  {
    var e := lg.event;
    assert Apply(cfg, rows, lg, time) == Enrol(cfg, rows, lg, time, e);
    if e.sub in rows.subscriptions {
      assert Enrol(cfg, rows, lg, time, e).rows == rows;
    } else {
      var m := FindMerchant(rows, e.merchant).value;
      assert Enrol(cfg, rows, lg, time, e).rows == AddSubscription(rows, e.sub, NewSubscription(m, cfg, lg, time, e));
    }
  }

  lemma ChargedFootprint(cfg: Config, rows: Rows, lg: Log, time: int)
    requires lg.event.SubscriptionCharged? && Apply(cfg, rows, lg, time).Written?
    ensures var after, e := Apply(cfg, rows, lg, time).rows, lg.event;
      && e.sub in rows.subscriptions
      && after.subscriptions == rows.subscriptions[e.sub := NextSubscription(rows, rows.subscriptions[e.sub], lg, time)]
      && after.charges == rows.charges[e.attempt := ChargedRow(rows, lg, time, e)]
  {
    assert Apply(cfg, rows, lg, time) == InsertCharge(cfg, rows, lg, time, lg.event);
  }

  lemma SkippedFootprint(cfg: Config, rows: Rows, lg: Log, time: int)
    requires lg.event.ChargeSkipped? && Apply(cfg, rows, lg, time).Written?
    ensures var after, e := Apply(cfg, rows, lg, time).rows, lg.event;
      && e.sub in rows.subscriptions
      && after.subscriptions == rows.subscriptions[e.sub := NextSubscription(rows, rows.subscriptions[e.sub], lg, time)]
      && (if IsNewFailure(rows, e.attempt, e.outcome, time)
          then after.charges == rows.charges[e.attempt := FailedRow(rows, time, e)]
          else after.charges == rows.charges && after.outbox == rows.outbox)
      && after.transactions == rows.transactions && SameElsewhere(rows, after)
  {
    assert Apply(cfg, rows, lg, time) == InsertChargeSkip(rows, time, lg.event);
    if IsNewFailure(rows, lg.event.attempt, lg.event.outcome, time) {
      assert Apply(cfg, rows, lg, time).rows == RecordFailure(rows, time, lg.event);
    } else {
      assert Apply(cfg, rows, lg, time).rows == rows;
      assert rows.subscriptions[lg.event.sub := rows.subscriptions[lg.event.sub]] == rows.subscriptions;
    }
  }

  lemma PeriodsSkippedFootprint(cfg: Config, rows: Rows, lg: Log, time: int)
    requires lg.event.PeriodsSkipped? && Apply(cfg, rows, lg, time).Written?
    ensures var after, e := Apply(cfg, rows, lg, time).rows, lg.event;
      && e.sub in rows.subscriptions
      && after.subscriptions == rows.subscriptions[e.sub := NextSubscription(rows, rows.subscriptions[e.sub], lg, time)]
      && after.charges == rows.charges && after.transactions == rows.transactions
      && after.outbox == rows.outbox && SameElsewhere(rows, after)
  {
    assert Apply(cfg, rows, lg, time) == MovePeriodStart(rows, lg.event);
  }

  lemma CancelledFootprint(cfg: Config, rows: Rows, lg: Log, time: int)
    requires lg.event.SubscriptionCancelled? && Apply(cfg, rows, lg, time).Written?
    ensures var after, e := Apply(cfg, rows, lg, time).rows, lg.event;
      && e.sub in rows.subscriptions
      && after.subscriptions == rows.subscriptions[e.sub := NextSubscription(rows, rows.subscriptions[e.sub], lg, time)]
      && after.charges == rows.charges && after.transactions == rows.transactions
      && after.outbox == rows.outbox && SameElsewhere(rows, after)
  {
    var e := lg.event;
    assert Apply(cfg, rows, lg, time) == CancelSubscription(rows, lg, time, e);
  }

  lemma PaymentFootprint(cfg: Config, rows: Rows, lg: Log, time: int)
    requires lg.event.PaymentExecuted? && Apply(cfg, rows, lg, time).Written?
    ensures Apply(cfg, rows, lg, time).rows.subscriptions == rows.subscriptions
    ensures Apply(cfg, rows, lg, time).rows.charges == rows.charges
  {
    assert Apply(cfg, rows, lg, time) == InsertPayment(cfg, rows, lg, time, lg.event);
  }

  lemma RegisteredFootprint(cfg: Config, rows: Rows, lg: Log, time: int)
    requires lg.event.MerchantRegistered? && Apply(cfg, rows, lg, time).Written?
    ensures Apply(cfg, rows, lg, time).rows.subscriptions == rows.subscriptions
    ensures Apply(cfg, rows, lg, time).rows.charges == rows.charges
  {
    assert Apply(cfg, rows, lg, time) == LinkMerchant(rows, lg, time, lg.event);
  }

  lemma OtherFootprint(cfg: Config, rows: Rows, lg: Log, time: int)
    requires lg.event.PayoutUpdated? || lg.event.FeeUpdated? || lg.event.Governance? || lg.event.Operation?
      || lg.event.Transfer? || lg.event.JobMoved? || lg.event.Unsubscribed?
    requires Apply(cfg, rows, lg, time).Written?
    ensures Apply(cfg, rows, lg, time).rows.subscriptions == rows.subscriptions
    ensures Apply(cfg, rows, lg, time).rows.charges == rows.charges
  {
    match lg.event
    case PayoutUpdated(_, _) =>
    case FeeUpdated(_, _) =>
    case Governance(_, _, _) =>
    case Operation(_, _) =>
    case Transfer =>
    case JobMoved(_, _) => assert Apply(cfg, rows, lg, time) == MoveJob(rows, lg.event);
    case Unsubscribed =>
  }

  lemma UndecodableNeverLands(cfg: Config, rows: Rows, lg: Log, time: int)
    requires lg.event.Undecodable?
    ensures Apply(cfg, rows, lg, time) == Unresolvable(UndecodableLog)
  {
  }

  /** Only subscription events write the subscription and charge tables. */
  lemma OtherEventsLeaveBilling(cfg: Config, rows: Rows, lg: Log, time: int)
    requires !IsSubscriptionEvent(lg.event) && Apply(cfg, rows, lg, time).Written?
    ensures Apply(cfg, rows, lg, time).rows.subscriptions == rows.subscriptions
    ensures Apply(cfg, rows, lg, time).rows.charges == rows.charges
  {
    hide Apply;
    match lg.event
    case Undecodable => UndecodableNeverLands(cfg, rows, lg, time);
    case PaymentExecuted(_, _, _, _, _, _, _) => PaymentFootprint(cfg, rows, lg, time);
    case MerchantRegistered(_, _, _) => RegisteredFootprint(cfg, rows, lg, time);
    case _ => OtherFootprint(cfg, rows, lg, time);
  }

  /**
   The billing step: a log that is projected writes at most the row of its own subscription, creating it
   only for an enrolment.
   */
  lemma BillingStep(cfg: Config, rows: Rows, lg: Log, time: int)
    requires Apply(cfg, rows, lg, time).Written?
    ensures var after := Apply(cfg, rows, lg, time).rows;
      match Subject(lg)
      case None => after.subscriptions == rows.subscriptions
      case Some(sub) =>
        if sub in rows.subscriptions then
          after.subscriptions == rows.subscriptions[sub := NextSubscription(rows, rows.subscriptions[sub], lg, time)]
        else
          && lg.event.SubscriptionCreated? && FindMerchant(rows, lg.event.merchant).Some?
          && lg.event.token in cfg.tokens
          && after.subscriptions == rows.subscriptions[sub :=
               NewSubscription(FindMerchant(rows, lg.event.merchant).value, cfg, lg, time, lg.event)]
  {
    hide Apply;
    match lg.event
    case SubscriptionCreated(sub, _, _, _, _, _, _) =>
      CreatedFootprint(cfg, rows, lg, time);
      if sub in rows.subscriptions {
        assert rows.subscriptions == rows.subscriptions[sub := rows.subscriptions[sub]];
      }
    case SubscriptionCharged(_, _, _, _, _, _) => ChargedFootprint(cfg, rows, lg, time);
    case PeriodsSkipped(_, _, _) => PeriodsSkippedFootprint(cfg, rows, lg, time);
    case ChargeSkipped(_, _, _) => SkippedFootprint(cfg, rows, lg, time);
    case SubscriptionCancelled(_, _) => CancelledFootprint(cfg, rows, lg, time);
    case _ => OtherEventsLeaveBilling(cfg, rows, lg, time);
  }

  /** The charge table after a log: at most the row of the log's own attempt differs. */
  function ChargesAfter(rows: Rows, lg: Log, time: int): map<Hash, Charge> {
    match lg.event
    case SubscriptionCharged(sub, attempt, _, _, _, _) =>
      if sub in rows.subscriptions then rows.charges[attempt := ChargedRow(rows, lg, time, lg.event)] else rows.charges
    case ChargeSkipped(sub, attempt, outcome) =>
      if sub in rows.subscriptions && IsNewFailure(rows, attempt, outcome, time)
      then rows.charges[attempt := FailedRow(rows, time, lg.event)] else rows.charges
    case _ => rows.charges
  }

  lemma ChargeStep(cfg: Config, rows: Rows, lg: Log, time: int)
    requires Apply(cfg, rows, lg, time).Written?
    ensures Apply(cfg, rows, lg, time).rows.charges == ChargesAfter(rows, lg, time)
  {
    hide Apply;
    match lg.event
    case SubscriptionCreated(_, _, _, _, _, _, _) => CreatedFootprint(cfg, rows, lg, time);
    case SubscriptionCharged(_, _, _, _, _, _) => ChargedFootprint(cfg, rows, lg, time);
    case PeriodsSkipped(_, _, _) => PeriodsSkippedFootprint(cfg, rows, lg, time);
    case ChargeSkipped(_, _, _) => SkippedFootprint(cfg, rows, lg, time);
    case SubscriptionCancelled(_, _) => CancelledFootprint(cfg, rows, lg, time);
    case _ => OtherEventsLeaveBilling(cfg, rows, lg, time);
  }
}
