/** The logs that fail their batch: neither applied nor parked. */
module FatalLogs {
  import opened Prelude
  import opened Chain
  import opened Ledger
  import opened Projection
  import opened Footprint
  import opened Replay
  import opened Delivery

  /** The id's holder and the row this transaction registered are two rows. */
  predicate TwoHolders(rows: Rows, merchant: int, tx: Hash) {
    FindMerchant(rows, merchant).Some? && RegisteredRow(rows, merchant, tx).Some?
    && FindMerchant(rows, merchant) != RegisteredRow(rows, merchant, tx)
  }

  /** A new subscription whose enrolment hash another one already carries. */
  predicate HashTaken(rows: Rows, sub: int, merchant: int, tx: Hash) {
    merchant in rows.links && sub !in rows.subscriptions && EnrolmentTaken(rows, tx)
  }

  /** A log not seen before that charges an attempt another log already settled. */
  predicate AttemptTaken(rows: Rows, key: LogKey, attempt: Hash) {
    key !in rows.transactions && ChargeIsLinked(rows, attempt)
  }

  predicate Chargeable(rows: Rows, sub: int) {
    sub in rows.subscriptions && rows.subscriptions[sub].merchant in rows.merchants
  }

  predicate Doomed(cfg: Config, rows: Rows, lg: Log, time: int) {
    match lg.event
    case MerchantRegistered(merchant, _, _) => TwoHolders(rows, merchant, lg.tx)
    case SubscriptionCreated(sub, merchant, _, token, _, _, _) =>
      token in cfg.tokens && (time == ZERO_TIME || HashTaken(rows, sub, merchant, lg.tx))
    case SubscriptionCharged(sub, attempt, _, _, _, _) =>
      Chargeable(rows, sub)
      && (Payout(rows, rows.subscriptions[sub].merchant) == "" || AttemptTaken(rows, lg.Key(), attempt))
    case _ => false
  }

  /** A log fails its batch exactly when one of these holds; otherwise it is applied or parked. */
  lemma FatalExactlyWhen(cfg: Config, rows: Rows, lg: Log, time: int)
    ensures Apply(cfg, rows, lg, time).Fatal? <==> Doomed(cfg, rows, lg, time)
  {
    match lg.event
    case MerchantRegistered(_, _, _) => assert Apply(cfg, rows, lg, time) == LinkMerchant(rows, lg, time, lg.event);
    case PaymentExecuted(_, _, _, _, _, _, _) =>
      assert Apply(cfg, rows, lg, time) == InsertPayment(cfg, rows, lg, time, lg.event);
    case SubscriptionCreated(_, _, _, _, _, _, _) =>
      assert Apply(cfg, rows, lg, time) == Enrol(cfg, rows, lg, time, lg.event);
    case SubscriptionCharged(_, _, _, _, _, _) =>
      assert Apply(cfg, rows, lg, time) == InsertCharge(cfg, rows, lg, time, lg.event);
    case PeriodsSkipped(_, _, _) => assert Apply(cfg, rows, lg, time) == MovePeriodStart(rows, lg.event);
    case ChargeSkipped(_, _, _) => assert Apply(cfg, rows, lg, time) == InsertChargeSkip(rows, time, lg.event);
    case SubscriptionCancelled(_, _) =>
      assert Apply(cfg, rows, lg, time) == CancelSubscription(rows, lg, time, lg.event);
    case JobMoved(_, _) => assert Apply(cfg, rows, lg, time) == MoveJob(rows, lg.event);
    case _ =>
  }

  /** The error a doomed log fails with. */
  function WhyFatal(lg: Log, time: int, rows: Rows): Failure {
    if lg.event.SubscriptionCreated? && time == ZERO_TIME then MissingTimestamp
    else if lg.event.SubscriptionCharged? && Chargeable(rows, lg.event.sub)
            && Payout(rows, rows.subscriptions[lg.event.sub].merchant) == "" then NoPayoutAddress
    else UniqueViolation
  }

  /** What a log still misses on these rows, if anything. */
  function Misses(cfg: Config, rows: Rows, lg: Log, time: int): Option<Reason> {
    match lg.event
    case Undecodable => Some(UndecodableLog)
    case PaymentExecuted(merchant, _, token, _, _, _, _) =>
      if token !in cfg.tokens then Some(UnknownToken)
      else if merchant !in rows.links then Some(UnlinkedMerchant) else None
    case SubscriptionCreated(_, merchant, _, token, _, _, _) =>
      if token !in cfg.tokens then Some(UnknownToken)
      else if time != ZERO_TIME && merchant !in rows.links then Some(UnlinkedMerchant) else None
    case SubscriptionCharged(sub, _, _, _, _, _) => if Chargeable(rows, sub) then None else Some(UnknownSubscription)
    case PeriodsSkipped(sub, _, _) => if sub in rows.subscriptions then None else Some(UnknownSubscription)
    case ChargeSkipped(sub, _, _) => if sub in rows.subscriptions then None else Some(UnknownSubscription)
    case SubscriptionCancelled(sub, _) => if sub in rows.subscriptions then None else Some(UnknownSubscription)
    case JobMoved(job, _) => if job in rows.jobs then None else Some(UnknownJob)
    case _ => None
  }

  /** A log parks exactly when it misses something, and for that reason; a doomed one says what it violates. */
  lemma ParksExactlyWhen(cfg: Config, rows: Rows, lg: Log, time: int)
    ensures var effect := Apply(cfg, rows, lg, time);
      && (effect.Unresolvable? <==> Misses(cfg, rows, lg, time).Some?)
      && (effect.Unresolvable? ==> Misses(cfg, rows, lg, time) == Some(effect.reason))
      && (effect.Fatal? ==> effect.why == WhyFatal(lg, time, rows))
  {
    var e := lg.event;
    match lg.event
    case MerchantRegistered(_, _, _) => assert Apply(cfg, rows, lg, time) == LinkMerchant(rows, lg, time, e);
    case PaymentExecuted(_, _, _, _, _, _, _) =>
      assert Apply(cfg, rows, lg, time) == InsertPayment(cfg, rows, lg, time, e);
    case SubscriptionCreated(_, _, _, _, _, _, _) => assert Apply(cfg, rows, lg, time) == Enrol(cfg, rows, lg, time, e);
    case SubscriptionCharged(_, _, _, _, _, _) =>
      assert Apply(cfg, rows, lg, time) == InsertCharge(cfg, rows, lg, time, e);
    case PeriodsSkipped(_, _, _) => assert Apply(cfg, rows, lg, time) == MovePeriodStart(rows, e);
    case ChargeSkipped(_, _, _) => assert Apply(cfg, rows, lg, time) == InsertChargeSkip(rows, time, e);
    case SubscriptionCancelled(_, _) => assert Apply(cfg, rows, lg, time) == CancelSubscription(rows, lg, time, e);
    case JobMoved(_, _) => assert Apply(cfg, rows, lg, time) == MoveJob(rows, e);
    case _ =>
  }

  // ----- Two enrolments in one transaction, two settlements of one attempt -----

  ghost predicate EnrolsIn(cfg: Config, rows: Rows, lg: Log) {
    lg.event.SubscriptionCreated? && lg.event.token in cfg.tokens && lg.event.merchant in rows.links
    && lg.event.sub !in rows.subscriptions
  }

  /** Of two enrolments in one transaction the first lands and the second fails, even of one merchant. */
  lemma SecondEnrolmentIsFatal(cfg: Config, rows: Rows, first: Log, second: Log, time: int, later: int)
    requires EnrolsIn(cfg, rows, first) && EnrolsIn(cfg, rows, second) && first.event.sub != second.event.sub
    requires first.tx == second.tx && !EnrolmentTaken(rows, first.tx) && time != ZERO_TIME && later != ZERO_TIME
    ensures Apply(cfg, rows, first, time).Written?
    ensures Apply(cfg, Apply(cfg, rows, first, time).rows, second, later) == Fatal(UniqueViolation)
  {
    assert Apply(cfg, rows, first, time) == Enrol(cfg, rows, first, time, first.event);
    CreatedFootprint(cfg, rows, first, time);
    var after := Apply(cfg, rows, first, time).rows;
    assert Apply(cfg, after, second, later) == Enrol(cfg, after, second, later, second.event);
    hide Apply;
    assert first.event.sub in after.subscriptions && after.subscriptions[first.event.sub].enrolmentTx == Some(first.tx);
  }

  /** An attempt settled once fails under any other log. */
  lemma SecondSettlementIsFatal(cfg: Config, rows: Rows, first: Log, second: Log, time: int, later: int)
    requires first.event.SubscriptionCharged? && second.event.SubscriptionCharged?
    requires first.event.attempt == second.event.attempt && first.Key() != second.Key()
    requires Apply(cfg, rows, first, time).Written? && first.Key() !in rows.transactions
    requires Chargeable(rows, second.event.sub) && Payout(rows, rows.subscriptions[second.event.sub].merchant) != ""
    requires second.Key() !in rows.transactions
    ensures Apply(cfg, Apply(cfg, rows, first, time).rows, second, later) == Fatal(UniqueViolation)
  {
    assert Apply(cfg, rows, first, time) == InsertCharge(cfg, rows, first, time, first.event);
    var after := Apply(cfg, rows, first, time).rows;
    assert Apply(cfg, after, second, later) == InsertCharge(cfg, after, second, later, second.event);
    hide Apply;
    assert first.Key() in after.transactions
      && after.transactions[first.Key()].source == SubscriptionCharge(first.event.sub, first.event.attempt);
  }

  /** One transaction that enrols two subscriptions of a linked merchant. */
  lemma TwoEnrolmentsInOneTransaction() returns (cfg: Config, rows: Rows, first: Log, second: Log)
    ensures first.tx == second.tx && first.Key() != second.Key() && rows.subscriptions == map[]
    ensures Apply(cfg, rows, first, 10).Written?
    ensures Apply(cfg, Apply(cfg, rows, first, 10).rows, second, 10) == Fatal(UniqueViolation)
  {
    cfg := Config(map["token" := "USDC"], "live");
    rows := Rows(map["m" := Merchant("payout", 0, 0, None, None)], map[1 := "m"], map[], map[], map[], map[], map[],
                 map[], map[], map[], [], [], map[], {}, map[]);
    first := Log("subscriptions", 7, 0, "tx", SubscriptionCreated(1, 1, "payer", "token", 5, 30, 0));
    second := Log("subscriptions", 7, 1, "tx", SubscriptionCreated(2, 1, "payer", "token", 5, 30, 0));
    SecondEnrolmentIsFatal(cfg, rows, first, second, 10, 10);
  }

  /** One attempt settled in two transactions. */
  lemma OneAttemptInTwoTransactions() returns (cfg: Config, rows: Rows, first: Log, second: Log)
    ensures first.event.SubscriptionCharged? && second.event.SubscriptionCharged? && first.tx != second.tx
    ensures first.event.attempt == second.event.attempt && first.event.sub == second.event.sub
    ensures Apply(cfg, rows, first, 10).Written?
    ensures Apply(cfg, Apply(cfg, rows, first, 10).rows, second, 40) == Fatal(UniqueViolation)
  {
    cfg := Config(map[], "live");
    var s := Subscription("m", Active, "payer", "USDC", "5", None, None, -20, 10, 10, 0, None, None, None, "live");
    rows := Rows(map["m" := Merchant("payout", 0, 0, None, None)], map[], map[], map[], map[], map[],
                 map[1 := s], map[], map[], map[], [], [], map[], {}, map[]);
    first := Log("subscriptions", 7, 0, "p", SubscriptionCharged(1, "attempt", 5, 0, 5, 40));
    second := Log("subscriptions", 8, 0, "q", SubscriptionCharged(1, "attempt", 5, 0, 5, 70));
    assert Apply(cfg, rows, first, 10) == InsertCharge(cfg, rows, first, 10, first.event);
    SecondSettlementIsFatal(cfg, rows, first, second, 10, 40);
  }

  // ----- Batches and letters that cannot go on -----

  /** The fold reaches a doomed log at place `n`. */
  ghost predicate StopsBefore(cfg: Config, d: Database, logs: seq<Log>, clock: nat -> int, n: int) {
    && 0 <= n < |logs|
    && Folded(cfg, d, logs[..n], clock).Some?
    && Doomed(cfg, Folded(cfg, d, logs[..n], clock).value.rows, logs[n], clock(logs[n].block))
  }

  /** A fold fails exactly when it comes to a doomed log. */
  lemma {:induction false} FoldStopsExactlyWhen(cfg: Config, d: Database, logs: seq<Log>, clock: nat -> int)
    ensures Folded(cfg, d, logs, clock).None? <==> exists n :: StopsBefore(cfg, d, logs, clock, n)
  {
    if logs == [] {
      assert forall n :: !StopsBefore(cfg, d, logs, clock, n);
    } else {
      var front, last := logs[..|logs| - 1], logs[|logs| - 1];
      FoldStopsExactlyWhen(cfg, d, front, clock);
      assert logs[..|front|] == front;
      if Folded(cfg, d, front, clock).Some? {
        FatalExactlyWhen(cfg, Folded(cfg, d, front, clock).value.rows, last, clock(last.block));
      }
      hide Apply, Doomed;
      forall n | 0 <= n < |front|
        ensures StopsBefore(cfg, d, logs, clock, n) <==> StopsBefore(cfg, d, front, clock, n)
      {
        assert logs[..n] == front[..n];
      }
      if n :| StopsBefore(cfg, d, front, clock, n) { assert StopsBefore(cfg, d, logs, clock, n); }
      if Folded(cfg, d, front, clock).Some? && Folded(cfg, d, logs, clock).None? {
        assert StopsBefore(cfg, d, logs, clock, |front|);
      }
      if n :| StopsBefore(cfg, d, logs, clock, n) {
        assert n < |front| ==> StopsBefore(cfg, d, front, clock, n);
      }
    }
  }

  /** Some waiting letter's log can neither be applied nor stay parked. */
  ghost predicate FatalLetter(cfg: Config, d: Database) {
    exists k :: Waiting(d.letters, k) && Doomed(cfg, d.rows, d.letters[k].lg, d.letters[k].time)
  }

  lemma RetryFailsExactlyWhen(cfg: Config, d: Database, k: LogKey)
    requires Waiting(d.letters, k)
    ensures Advance(cfg, d, Retry(k)).None? <==> Doomed(cfg, d.rows, d.letters[k].lg, d.letters[k].time)
  {
    FatalExactlyWhen(cfg, d.rows, d.letters[k].lg, d.letters[k].time);
    hide Apply, Doomed;
  }
}
