/** Ledger replay safety: a log that landed once adds nothing to the ledger when it is applied again. */
module Replays {
  import opened Prelude
  import opened Chain
  import opened Ledger
  import opened Projection
  import opened Feed
  import opened Footprint
  import opened Windows

  /** The tables a replay must leave alone. Subscription windows and rows with random ids are not among them. */
  datatype Books = Books(
    transactions: map<LogKey, Transaction>, charges: map<Hash, Charge>, sessions: map<SessionId, Session>,
    invoices: map<SessionId, Invoice>, refunds: map<Hash, Refund>, outbox: seq<WebhookEvent>,
    onchainAudits: map<LogKey, AuditRow>, contractAlerts: set<LogKey>)

  function BooksOf(rows: Rows): Books {
    Books(rows.transactions, rows.charges, rows.sessions, rows.invoices, rows.refunds, rows.outbox,
          rows.onchainAudits, rows.contractAlerts)
  }

  /** The trace a landed log leaves behind, which later logs cannot remove. */
  predicate Seen(rows: Rows, lg: Log, time: int) {
    match lg.event
    case PaymentExecuted(_, _, _, _, _, _, _) => lg.Key() in rows.transactions
    case SubscriptionCreated(sub, _, _, _, _, _, _) => sub in rows.subscriptions && time != ZERO_TIME
    case SubscriptionCharged(_, attempt, _, _, _, _) => lg.Key() in rows.transactions && !Fresh(rows.charges, attempt)
    case ChargeSkipped(_, attempt, outcome) => !IsNewFailure(rows, attempt, outcome, time)
    case PeriodsSkipped(sub, _, _) => sub in rows.subscriptions
    case SubscriptionCancelled(sub, _) => sub in rows.subscriptions && IsOver(rows.subscriptions[sub])
    case JobMoved(job, _) => job in rows.jobs
    case Transfer => !AwaitsTransfer(rows.refunds, lg.tx)
    case Governance(_, _, alert) => lg.Key() in rows.onchainAudits && (alert ==> lg.Key() in rows.contractAlerts)
    case Operation(_, alert) => lg.Key() in rows.onchainAudits && (alert ==> lg.Key() in rows.contractAlerts)
    case _ => true
  }

  // ----- Landing leaves a trace -----

  lemma PaymentLeavesTrace(cfg: Config, rows: Rows, lg: Log, time: int)
    requires lg.event.PaymentExecuted? && Apply(cfg, rows, lg, time).Written?
    ensures Seen(Apply(cfg, rows, lg, time).rows, lg, time)
  {
    assert Apply(cfg, rows, lg, time) == InsertPayment(cfg, rows, lg, time, lg.event);
  }

  lemma ChargeLeavesTrace(cfg: Config, rows: Rows, lg: Log, time: int)
    requires lg.event.SubscriptionCharged? && Apply(cfg, rows, lg, time).Written?
    ensures Seen(Apply(cfg, rows, lg, time).rows, lg, time)
  {
    assert Apply(cfg, rows, lg, time) == InsertCharge(cfg, rows, lg, time, lg.event);
  }

  lemma FailureLeavesTrace(cfg: Config, rows: Rows, lg: Log, time: int)
    requires lg.event.ChargeSkipped? && Apply(cfg, rows, lg, time).Written?
    ensures Seen(Apply(cfg, rows, lg, time).rows, lg, time)
  {
    hide Apply;
    SkippedFootprint(cfg, rows, lg, time);
  }

  lemma TransferLeavesTrace(cfg: Config, rows: Rows, lg: Log, time: int)
    requires lg.event.Transfer? && Apply(cfg, rows, lg, time).Written?
    ensures Seen(Apply(cfg, rows, lg, time).rows, lg, time)
  {
    assert Apply(cfg, rows, lg, time).rows == CompleteRefund(rows, lg, time);
  }

  lemma AuditLeavesTrace(cfg: Config, rows: Rows, lg: Log, time: int)
    requires lg.event.Governance? || lg.event.Operation?
    requires Apply(cfg, rows, lg, time).Written?
    ensures Seen(Apply(cfg, rows, lg, time).rows, lg, time)
  {
    match lg.event
    case Governance(_, _, _) => assert Apply(cfg, rows, lg, time).rows == LogGovernance(rows, lg, lg.event);
    case Operation(_, _) => assert Apply(cfg, rows, lg, time).rows == LogOperation(rows, lg, lg.event);
  }

  lemma EnrolmentLeavesTrace(cfg: Config, rows: Rows, lg: Log, time: int)
    requires lg.event.SubscriptionCreated? && Apply(cfg, rows, lg, time).Written?
    ensures Seen(Apply(cfg, rows, lg, time).rows, lg, time)
  {
    assert Apply(cfg, rows, lg, time) == Enrol(cfg, rows, lg, time, lg.event);
    CreatedFootprint(cfg, rows, lg, time);
  }

  lemma JobLeavesTrace(cfg: Config, rows: Rows, lg: Log, time: int)
    requires lg.event.JobMoved? && Apply(cfg, rows, lg, time).Written?
    ensures Seen(Apply(cfg, rows, lg, time).rows, lg, time)
  {
    assert Apply(cfg, rows, lg, time) == MoveJob(rows, lg.event);
  }

  lemma LandingLeavesTrace(cfg: Config, rows: Rows, lg: Log, time: int)
    requires Apply(cfg, rows, lg, time).Written?
    ensures Seen(Apply(cfg, rows, lg, time).rows, lg, time)
  {
    hide Apply;
    match lg.event
    case PaymentExecuted(_, _, _, _, _, _, _) => PaymentLeavesTrace(cfg, rows, lg, time);
    case SubscriptionCreated(_, _, _, _, _, _, _) => EnrolmentLeavesTrace(cfg, rows, lg, time);
    case SubscriptionCharged(_, _, _, _, _, _) => ChargeLeavesTrace(cfg, rows, lg, time);
    case PeriodsSkipped(_, _, _) => PeriodsSkippedFootprint(cfg, rows, lg, time);
    case SubscriptionCancelled(_, _) => CancelledFootprint(cfg, rows, lg, time);
    case JobMoved(_, _) => JobLeavesTrace(cfg, rows, lg, time);
    case ChargeSkipped(_, _, _) => FailureLeavesTrace(cfg, rows, lg, time);
    case Transfer => TransferLeavesTrace(cfg, rows, lg, time);
    case Governance(_, _, _) => AuditLeavesTrace(cfg, rows, lg, time);
    case Operation(_, _) => AuditLeavesTrace(cfg, rows, lg, time);
    case _ =>
  }

  // ----- The trace stays -----

  /** What no log takes back. */
  ghost predicate Grown(rows: Rows, after: Rows) {
    && (forall k :: k in rows.transactions ==> k in after.transactions)
    && (forall k :: k in rows.onchainAudits ==> k in after.onchainAudits)
    && rows.contractAlerts <= after.contractAlerts
    && (forall j :: j in rows.jobs ==> j in after.jobs)
    && (forall h :: h in after.refunds ==>
          h in rows.refunds
            && (after.refunds[h].status == RefundSubmitted ==> rows.refunds[h].status == RefundSubmitted))
  }

  lemma PaymentGrows(cfg: Config, rows: Rows, lg: Log, time: int)
    requires lg.event.PaymentExecuted? && Apply(cfg, rows, lg, time).Written?
    ensures Grown(rows, Apply(cfg, rows, lg, time).rows)
  {
    var e := lg.event;
    assert Apply(cfg, rows, lg, time) == InsertPayment(cfg, rows, lg, time, e);
    if lg.Key() in rows.transactions {
      assert Apply(cfg, rows, lg, time).rows == rows;
    } else {
      var t := PaymentRow(cfg, rows, FindMerchant(rows, e.merchant).value, lg, time, e);
      assert Apply(cfg, rows, lg, time).rows == RecordPayment(rows, lg.Key(), DecodeSessionRef(e.ref), t);
    }
  }

  lemma ChargeGrows(cfg: Config, rows: Rows, lg: Log, time: int)
    requires lg.event.SubscriptionCharged? && Apply(cfg, rows, lg, time).Written?
    ensures Grown(rows, Apply(cfg, rows, lg, time).rows)
  {
    assert Apply(cfg, rows, lg, time) == InsertCharge(cfg, rows, lg, time, lg.event);
  }

  lemma BillingGrows(cfg: Config, rows: Rows, lg: Log, time: int)
    requires IsSubscriptionEvent(lg.event) && !lg.event.SubscriptionCharged? && Apply(cfg, rows, lg, time).Written?
    ensures Grown(rows, Apply(cfg, rows, lg, time).rows)
  {
    hide Apply;
    match lg.event
    case SubscriptionCreated(_, _, _, _, _, _, _) => CreatedFootprint(cfg, rows, lg, time);
    case PeriodsSkipped(_, _, _) => PeriodsSkippedFootprint(cfg, rows, lg, time);
    case ChargeSkipped(_, _, _) => SkippedFootprint(cfg, rows, lg, time);
    case SubscriptionCancelled(_, _) => CancelledFootprint(cfg, rows, lg, time);
  }

  lemma RegistryGrows(cfg: Config, rows: Rows, lg: Log, time: int)
    requires lg.event.MerchantRegistered? || lg.event.PayoutUpdated? || lg.event.FeeUpdated? || lg.event.Unsubscribed?
    requires Apply(cfg, rows, lg, time).Written?
    ensures Grown(rows, Apply(cfg, rows, lg, time).rows)
  {
    match lg.event
    case MerchantRegistered(_, _, _) => assert Apply(cfg, rows, lg, time) == LinkMerchant(rows, lg, time, lg.event);
    case PayoutUpdated(_, _) =>
    case FeeUpdated(_, _) =>
    case Unsubscribed =>
  }

  lemma OtherGrows(cfg: Config, rows: Rows, lg: Log, time: int)
    requires lg.event.Transfer? || lg.event.Governance? || lg.event.Operation? || lg.event.JobMoved?
    requires Apply(cfg, rows, lg, time).Written?
    ensures Grown(rows, Apply(cfg, rows, lg, time).rows)
  {
    match lg.event
    case Transfer => assert Apply(cfg, rows, lg, time).rows == CompleteRefund(rows, lg, time);
    case Governance(_, _, _) =>
    case Operation(_, _) =>
    case JobMoved(_, _) => assert Apply(cfg, rows, lg, time) == MoveJob(rows, lg.event);
  }

  lemma TablesGrow(cfg: Config, rows: Rows, lg: Log, time: int)
    requires Apply(cfg, rows, lg, time).Written?
    ensures Grown(rows, Apply(cfg, rows, lg, time).rows)
  {
    hide Apply, Grown;
    if lg.event.Undecodable? { UndecodableNeverLands(cfg, rows, lg, time); }
    else if lg.event.PaymentExecuted? { PaymentGrows(cfg, rows, lg, time); }
    else if lg.event.SubscriptionCharged? { ChargeGrows(cfg, rows, lg, time); }
    else if IsSubscriptionEvent(lg.event) { BillingGrows(cfg, rows, lg, time); }
    else if lg.event.Transfer? || lg.event.Governance? || lg.event.Operation? || lg.event.JobMoved? {
      OtherGrows(cfg, rows, lg, time);
    } else {
      RegistryGrows(cfg, rows, lg, time);
    }
  }

  lemma TraceStays(cfg: Config, rows: Rows, x: Input, lg: Log, time: int)
    requires Absorb(cfg, rows, x).Some? && Seen(rows, lg, time)
    ensures Seen(Absorb(cfg, rows, x).value, lg, time)
  {
    hide Apply;
    if Lands(cfg, rows, x) {
      TablesGrow(cfg, rows, x.lg, x.time);
      ChargeStep(cfg, rows, x.lg, x.time);
      BillingStep(cfg, rows, x.lg, x.time);
    }
  }

  // ----- A seen log adds nothing -----

  lemma SeenBillingAddsNothing(cfg: Config, rows: Rows, lg: Log, time: int)
    requires IsSubscriptionEvent(lg.event) && !lg.event.SubscriptionCharged?
    requires Seen(rows, lg, time) && Apply(cfg, rows, lg, time).Written?
    ensures BooksOf(Apply(cfg, rows, lg, time).rows) == BooksOf(rows)
  {
    hide Apply;
    match lg.event
    case SubscriptionCreated(_, _, _, _, _, _, _) => CreatedFootprint(cfg, rows, lg, time);
    case PeriodsSkipped(_, _, _) => PeriodsSkippedFootprint(cfg, rows, lg, time);
    case ChargeSkipped(_, _, _) => SkippedFootprint(cfg, rows, lg, time);
    case SubscriptionCancelled(_, _) => CancelledFootprint(cfg, rows, lg, time);
  }

  lemma SeenChargeAddsNothing(cfg: Config, rows: Rows, lg: Log, time: int)
    requires lg.event.SubscriptionCharged? && Seen(rows, lg, time) && Apply(cfg, rows, lg, time).Written?
    ensures BooksOf(Apply(cfg, rows, lg, time).rows) == BooksOf(rows)
  {
    var e := lg.event;
    assert Apply(cfg, rows, lg, time) == InsertCharge(cfg, rows, lg, time, e);
    assert ChargedRow(rows, lg, time, e) == rows.charges[e.attempt];
    assert rows.charges[e.attempt := rows.charges[e.attempt]] == rows.charges;
  }

  lemma SeenPaymentAddsNothing(cfg: Config, rows: Rows, lg: Log, time: int)
    requires lg.event.PaymentExecuted? && Seen(rows, lg, time) && Apply(cfg, rows, lg, time).Written?
    ensures Apply(cfg, rows, lg, time).rows == rows
  {
    assert Apply(cfg, rows, lg, time) == InsertPayment(cfg, rows, lg, time, lg.event);
  }

  lemma RegistryKeepsBooks(cfg: Config, rows: Rows, lg: Log, time: int)
    requires lg.event.MerchantRegistered? || lg.event.PayoutUpdated? || lg.event.FeeUpdated? || lg.event.Unsubscribed?
    requires Apply(cfg, rows, lg, time).Written?
    ensures BooksOf(Apply(cfg, rows, lg, time).rows) == BooksOf(rows)
  {
    match lg.event
    case MerchantRegistered(_, _, _) => assert Apply(cfg, rows, lg, time) == LinkMerchant(rows, lg, time, lg.event);
    case PayoutUpdated(_, _) =>
    case FeeUpdated(_, _) =>
    case Unsubscribed =>
  }

  lemma SeenOtherAddsNothing(cfg: Config, rows: Rows, lg: Log, time: int)
    requires lg.event.Transfer? || lg.event.Governance? || lg.event.Operation? || lg.event.JobMoved?
    requires Seen(rows, lg, time) && Apply(cfg, rows, lg, time).Written?
    ensures BooksOf(Apply(cfg, rows, lg, time).rows) == BooksOf(rows)
  {
    match lg.event
    case Transfer => assert Apply(cfg, rows, lg, time).rows == CompleteRefund(rows, lg, time);
    case Governance(_, _, _) =>
    case Operation(_, _) =>
    case JobMoved(_, _) => assert Apply(cfg, rows, lg, time) == MoveJob(rows, lg.event);
  }

  lemma SeenAddsNothing(cfg: Config, rows: Rows, lg: Log, time: int)
    requires Seen(rows, lg, time) && Absorb(cfg, rows, Logged(lg, time)).Some?
    ensures BooksOf(Absorb(cfg, rows, Logged(lg, time)).value) == BooksOf(rows)
  {
    hide Apply, BooksOf, Seen;
    if Apply(cfg, rows, lg, time).Written? {
      if lg.event.Undecodable? { UndecodableNeverLands(cfg, rows, lg, time); }
      else if lg.event.PaymentExecuted? { SeenPaymentAddsNothing(cfg, rows, lg, time); }
      else if lg.event.SubscriptionCharged? { SeenChargeAddsNothing(cfg, rows, lg, time); }
      else if IsSubscriptionEvent(lg.event) { SeenBillingAddsNothing(cfg, rows, lg, time); }
      else if lg.event.Transfer? || lg.event.Governance? || lg.event.Operation? || lg.event.JobMoved? {
        SeenOtherAddsNothing(cfg, rows, lg, time);
      } else {
        RegistryKeepsBooks(cfg, rows, lg, time);
      }
    }
  }

  // ----- Whole feeds -----

  /** The input is a log that landed somewhere in the feed. */
  ghost predicate LandedIn(cfg: Config, rows: Rows, xs: seq<Input>, y: Input) {
    exists i :: 0 <= i < |xs| && xs[i] == y && AbsorbAll(cfg, rows, xs[..i]).Some?
      && Lands(cfg, AbsorbAll(cfg, rows, xs[..i]).value, y)
  }

  lemma {:induction false} LandedIsSeen(cfg: Config, rows: Rows, xs: seq<Input>, y: Input)
    requires AbsorbAll(cfg, rows, xs).Some? && LandedIn(cfg, rows, xs, y)
    ensures Seen(AbsorbAll(cfg, rows, xs).value, y.lg, y.time)
  {
    hide Apply, Absorb, Seen;
    var i :| 0 <= i < |xs| && xs[i] == y && AbsorbAll(cfg, rows, xs[..i]).Some?
      && Lands(cfg, AbsorbAll(cfg, rows, xs[..i]).value, y);
    var front := xs[..|xs| - 1];
    if i < |front| {
      assert front[..i] == xs[..i];
      LandedIsSeen(cfg, rows, front, y);
      TraceStays(cfg, AbsorbAll(cfg, rows, front).value, xs[|xs| - 1], y.lg, y.time);
    } else {
      LandingLeavesTrace(cfg, AbsorbAll(cfg, rows, front).value, y.lg, y.time);
      LandedChargeApplies(cfg, AbsorbAll(cfg, rows, front).value, y);
    }
  }

  lemma {:induction false} ReplaysKeepTraces(cfg: Config, rows: Rows, ys: seq<Input>, lg: Log, time: int)
    requires AbsorbAll(cfg, rows, ys).Some? && Seen(rows, lg, time)
    ensures Seen(AbsorbAll(cfg, rows, ys).value, lg, time)
  {
    hide Absorb, Seen;
    if ys != [] {
      ReplaysKeepTraces(cfg, rows, ys[..|ys| - 1], lg, time);
      TraceStays(cfg, AbsorbAll(cfg, rows, ys[..|ys| - 1]).value, ys[|ys| - 1], lg, time);
    }
  }

  lemma {:induction false} SeenReplaysAddNothing(cfg: Config, rows: Rows, ys: seq<Input>)
    requires AbsorbAll(cfg, rows, ys).Some?
    requires forall i :: 0 <= i < |ys| && ys[i].Logged? ==> Seen(rows, ys[i].lg, ys[i].time)
    ensures BooksOf(AbsorbAll(cfg, rows, ys).value) == BooksOf(rows)
  {
    hide Apply, Seen, BooksOf;
    if ys != [] {
      var front, y := ys[..|ys| - 1], ys[|ys| - 1];
      SeenReplaysAddNothing(cfg, rows, front);
      var before := AbsorbAll(cfg, rows, front).value;
      if y.Logged? {
        ReplaysKeepTraces(cfg, rows, front, y.lg, y.time);
        SeenAddsNothing(cfg, before, y.lg, y.time);
      } else {
        LinkKeepsBooks(before, y);
      }
    }
  }

  lemma LinkKeepsBooks(rows: Rows, x: Input)
    requires x.Linked?
    ensures BooksOf(LinkOutside(rows, x.merchant, x.onchainId)) == BooksOf(rows)
  {
  }

  /**
   After any feed, applying any of its landed logs again, in any order and number and with merchants linked in
   between, leaves the books as they were.
   */
  lemma ReplayLeavesBooks(cfg: Config, rows: Rows, xs: seq<Input>, ys: seq<Input>)
    requires AbsorbAll(cfg, rows, xs + ys).Some?
    requires forall i :: 0 <= i < |ys| && ys[i].Logged? ==> LandedIn(cfg, rows, xs, ys[i])
    ensures AbsorbAll(cfg, rows, xs).Some?
    ensures BooksOf(AbsorbAll(cfg, rows, xs + ys).value) == BooksOf(AbsorbAll(cfg, rows, xs).value)
  {
    hide Absorb, Seen, BooksOf, LandedIn;
    AbsorbConcat(cfg, rows, xs, ys);
    var after := AbsorbAll(cfg, rows, xs).value;
    forall i | 0 <= i < |ys| && ys[i].Logged? ensures Seen(after, ys[i].lg, ys[i].time) {
      LandedIsSeen(cfg, rows, xs, ys[i]);
    }
    SeenReplaysAddNothing(cfg, after, ys);
  }
}
