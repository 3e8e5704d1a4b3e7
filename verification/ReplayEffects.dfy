/** What a landed log does when it is applied again: for every event, exactly when that is nothing. */
module ReplayEffects {
  import opened Prelude
  import opened Chain
  import opened Ledger
  import opened Projection
  import opened Feed
  import opened Footprint
  import opened Windows
  import opened FatalLogs
  import opened Replays

  // ----- When a replay changes nothing -----

  /** The due date is the log's own and so is the whole window, no retry is armed, and nothing is left to clear. */
  predicate SettledUp(s: Subscription, next: int) {
    s.periodStart == next && s.periodEnd == next && s.nextChargeAt == next
    && s.retryCount == 0 && s.nextRetryAt == None && s.status != AtRisk && s.status != Trialing
  }

  /** The registered row already carries the link, the fees and the transaction. */
  predicate Registered(rows: Rows, m: MerchantId, onchainId: int, lg: Log, time: int, feeBps: nat, maxFeeBps: nat) {
    && onchainId in rows.links && m in rows.merchants
    && rows.merchants[m].feeBps == feeBps && rows.merchants[m].maxFeeBps == maxFeeBps
    && rows.merchants[m].feeTx == Some(lg.tx) && rows.merchants[m].feeChangedAt == Some(time)
  }

  predicate PaysTo(rows: Rows, merchant: int, payout: Address) {
    merchant in rows.links && rows.links[merchant] in rows.merchants ==>
      rows.merchants[rows.links[merchant]].payout == payout
  }

  /** Some rows have nothing left for the log to do, although it landed before. */
  predicate Idle(rows: Rows, lg: Log, time: int) {
    match lg.event
    case MerchantRegistered(merchant, feeBps, maxFeeBps) =>
      !TwoHolders(rows, merchant, lg.tx)
      && (SelectedRow(rows, merchant, lg.tx).Some? ==>
            Registered(rows, SelectedRow(rows, merchant, lg.tx).value, merchant, lg, time, feeBps, maxFeeBps))
    case PayoutUpdated(merchant, payout) => PaysTo(rows, merchant, payout)
    case Governance(merchant, _, alert) => !(alert && lg.Key() !in rows.securityAlerts && merchant in rows.links)
    case SubscriptionCharged(sub, _, _, _, _, next) =>
      Chargeable(rows, sub) ==>
        Payout(rows, rows.subscriptions[sub].merchant) != "" && SettledUp(rows.subscriptions[sub], next)
    case FeeUpdated(_, _) => false
    case PeriodsSkipped(_, _, _) => false
    case JobMoved(_, _) => false
    case _ => true
  }

  ghost predicate ChangesNothing(cfg: Config, rows: Rows, lg: Log, time: int) {
    Absorb(cfg, rows, Logged(lg, time)) == Some(rows)
  }

  lemma SeenChargeAgain(cfg: Config, rows: Rows, lg: Log, time: int)
    requires lg.event.SubscriptionCharged? && Seen(rows, lg, time) && Chargeable(rows, lg.event.sub)
    requires Payout(rows, rows.subscriptions[lg.event.sub].merchant) != ""
    ensures var e := lg.event;
      var table := rows.subscriptions[e.sub := PaidUp(rows.subscriptions[e.sub], e.nextChargeAt)];
      Apply(cfg, rows, lg, time) == Written(rows.(subscriptions := table))
  {
    var e := lg.event;
    assert Apply(cfg, rows, lg, time) == InsertCharge(cfg, rows, lg, time, e);
    assert rows.charges[e.attempt := rows.charges[e.attempt]] == rows.charges;
  }

  /**
   A charge log seen before writes the subscription row and nothing else, and that row stays as it is exactly when the
   window begins and ends at the log's own next date, which is the due date, no retry is armed, and the status is
   neither at risk nor trialing.
   */
  lemma ChargeIsIdempotentExactlyWhen(cfg: Config, rows: Rows, lg: Log, time: int)
    requires lg.event.SubscriptionCharged? && Seen(rows, lg, time) && Apply(cfg, rows, lg, time).Written?
    ensures var e, after := lg.event, Apply(cfg, rows, lg, time).rows;
      && e.sub in rows.subscriptions && e.sub in after.subscriptions
      && after == rows.(subscriptions := rows.subscriptions[e.sub := after.subscriptions[e.sub]])
      && after.subscriptions[e.sub].periodStart == rows.subscriptions[e.sub].nextChargeAt
      && after.subscriptions[e.sub].periodEnd == after.subscriptions[e.sub].nextChargeAt == e.nextChargeAt
      && (after == rows <==> SettledUp(rows.subscriptions[e.sub], e.nextChargeAt))
  {
    var e := lg.event;
    WrittenMeansChargeable(cfg, rows, lg, time);
    SeenChargeAgain(cfg, rows, lg, time);
    hide Apply, Seen;
    SameRowSameTable(rows, e.sub, PaidUp(rows.subscriptions[e.sub], e.nextChargeAt));
  }

  lemma WrittenMeansChargeable(cfg: Config, rows: Rows, lg: Log, time: int)
    requires lg.event.SubscriptionCharged? && Apply(cfg, rows, lg, time).Written?
    ensures Chargeable(rows, lg.event.sub) && Payout(rows, rows.subscriptions[lg.event.sub].merchant) != ""
  {
    assert Apply(cfg, rows, lg, time) == InsertCharge(cfg, rows, lg, time, lg.event);
  }

  lemma SameRowSameTable(rows: Rows, sub: int, s: Subscription)
    requires sub in rows.subscriptions
    ensures rows.(subscriptions := rows.subscriptions[sub := s]) == rows <==> rows.subscriptions[sub] == s
  {
    var table := rows.subscriptions[sub := s];
    assert table[sub] == s;
    if rows.subscriptions[sub] == s { assert table == rows.subscriptions; }
  }

  // ----- One lemma per event -----

  lemma IdleCharge(cfg: Config, rows: Rows, lg: Log, time: int)
    requires lg.event.SubscriptionCharged? && Seen(rows, lg, time)
    ensures ChangesNothing(cfg, rows, lg, time) <==> Idle(rows, lg, time)
  {
    var e := lg.event;
    if !Chargeable(rows, e.sub) {
      assert Apply(cfg, rows, lg, time) == InsertCharge(cfg, rows, lg, time, e);
    } else if Payout(rows, rows.subscriptions[e.sub].merchant) == "" {
      FatalExactlyWhen(cfg, rows, lg, time);
    } else {
      SeenChargeAgain(cfg, rows, lg, time);
      SameRowSameTable(rows, e.sub, PaidUp(rows.subscriptions[e.sub], e.nextChargeAt));
      hide Apply, Seen;
    }
  }

  lemma IdleRegistration(cfg: Config, rows: Rows, lg: Log, time: int)
    requires lg.event.MerchantRegistered?
    ensures ChangesNothing(cfg, rows, lg, time) <==> Idle(rows, lg, time)
  {
    var e := lg.event;
    assert Apply(cfg, rows, lg, time) == LinkMerchant(rows, lg, time, e);
    hide Apply;
    if !TwoHolders(rows, e.merchant, lg.tx) {
      RegistrationChanges(rows, SelectedRow(rows, e.merchant, lg.tx), e.merchant, lg, time, e.feeBps, e.maxFeeBps);
    }
  }

  /** The selected row is the link's holder when there is one, so an unlinked id always changes the link. */
  lemma RegistrationChanges(
      rows: Rows, m: Option<MerchantId>, onchainId: int, lg: Log, time: int, feeBps: nat, maxFeeBps: nat)
    requires m == SelectedRow(rows, onchainId, lg.tx)
    ensures WithLink(rows, m, onchainId) == rows.links
            && WithRegistration(rows, m, lg.tx, time, feeBps, maxFeeBps) == rows.merchants
            <==> (m.Some? ==> Registered(rows, m.value, onchainId, lg, time, feeBps, maxFeeBps))
  {
    if m.Some? {
      var links, merchants := WithLink(rows, m, onchainId), WithRegistration(rows, m, lg.tx, time, feeBps, maxFeeBps);
      assert onchainId in links && links[onchainId] == m.value;
      assert m.value in merchants;
      if Registered(rows, m.value, onchainId, lg, time, feeBps, maxFeeBps) {
        assert links == rows.links;
        assert merchants[m.value] == rows.merchants[m.value];
        assert merchants == rows.merchants;
      }
    }
  }

  lemma IdlePayout(cfg: Config, rows: Rows, lg: Log, time: int)
    requires lg.event.PayoutUpdated?
    ensures ChangesNothing(cfg, rows, lg, time) <==> Idle(rows, lg, time)
  {
    var e := lg.event;
    assert Apply(cfg, rows, lg, time) == Written(SetPayout(rows, e));
    hide Apply;
    var m := FindMerchant(rows, e.merchant);
    if m.Some? && m.value in rows.merchants {
      var table := rows.merchants[m.value := rows.merchants[m.value].(payout := e.payout)];
      assert table[m.value].payout == e.payout;
      if rows.merchants[m.value].payout == e.payout { assert table == rows.merchants; }
    }
  }

  lemma IdleGovernance(cfg: Config, rows: Rows, lg: Log, time: int)
    requires lg.event.Governance? && Seen(rows, lg, time)
    ensures ChangesNothing(cfg, rows, lg, time) <==> Idle(rows, lg, time)
  {
    var e := lg.event;
    assert Apply(cfg, rows, lg, time) == Written(LogGovernance(rows, lg, e));
    hide Apply;
    assert e.alert ==> rows.contractAlerts + {lg.Key()} == rows.contractAlerts;
    if e.alert && e.merchant in rows.links && lg.Key() !in rows.securityAlerts {
      assert lg.Key() in LogGovernance(rows, lg, e).securityAlerts;
    }
  }

  lemma IdleAudit(cfg: Config, rows: Rows, lg: Log, time: int)
    requires lg.event.Operation? || lg.event.Transfer?
    requires Seen(rows, lg, time)
    ensures ChangesNothing(cfg, rows, lg, time)
  {
    match lg.event
    case Operation(_, _) =>
      assert Apply(cfg, rows, lg, time) == Written(LogOperation(rows, lg, lg.event));
      assert lg.event.alert ==> rows.contractAlerts + {lg.Key()} == rows.contractAlerts;
    case Transfer =>
      assert Apply(cfg, rows, lg, time) == Written(CompleteRefund(rows, lg, time));
      assert rows.outbox + [] == rows.outbox;
  }

  /** An audit row with a random id is added every time. */
  lemma AuditedAgain(cfg: Config, rows: Rows, lg: Log, time: int)
    requires lg.event.FeeUpdated? || lg.event.PeriodsSkipped? || lg.event.JobMoved?
    requires Seen(rows, lg, time)
    ensures Apply(cfg, rows, lg, time).Written? && |Apply(cfg, rows, lg, time).rows.audits| == |rows.audits| + 1
  {
    match lg.event
    case FeeUpdated(_, _) => assert Apply(cfg, rows, lg, time) == Written(SetFee(rows, lg, time, lg.event));
    case PeriodsSkipped(_, _, _) => assert Apply(cfg, rows, lg, time) == MovePeriodStart(rows, lg.event);
    case JobMoved(_, _) => assert Apply(cfg, rows, lg, time) == MoveJob(rows, lg.event);
  }

  lemma IdlePayment(cfg: Config, rows: Rows, lg: Log, time: int)
    requires lg.event.PaymentExecuted? && Seen(rows, lg, time)
    ensures ChangesNothing(cfg, rows, lg, time)
  {
    assert Apply(cfg, rows, lg, time) == InsertPayment(cfg, rows, lg, time, lg.event);
  }

  lemma IdleBilling(cfg: Config, rows: Rows, lg: Log, time: int)
    requires lg.event.SubscriptionCreated? || lg.event.ChargeSkipped? || lg.event.SubscriptionCancelled?
    requires Seen(rows, lg, time)
    ensures ChangesNothing(cfg, rows, lg, time)
  {
    match lg.event
    case SubscriptionCreated(_, _, _, _, _, _, _) =>
      assert Apply(cfg, rows, lg, time) == Enrol(cfg, rows, lg, time, lg.event);
    case ChargeSkipped(_, _, _) => assert Apply(cfg, rows, lg, time) == InsertChargeSkip(rows, time, lg.event);
    case SubscriptionCancelled(sub, _) =>
      assert Apply(cfg, rows, lg, time) == CancelSubscription(rows, lg, time, lg.event);
      assert rows.subscriptions[sub := rows.subscriptions[sub]] == rows.subscriptions;
  }

  lemma IdleAlways(cfg: Config, rows: Rows, lg: Log, time: int)
    requires lg.event.Undecodable? || lg.event.Unsubscribed?
    ensures ChangesNothing(cfg, rows, lg, time)
  {
  }

  /** Applied to rows that have seen it, a log changes nothing exactly when they are idle for it. */
  lemma SeenIdleExactlyWhen(cfg: Config, rows: Rows, lg: Log, time: int)
    requires Seen(rows, lg, time)
    ensures ChangesNothing(cfg, rows, lg, time) <==> Idle(rows, lg, time)
  {
    hide Apply, Seen;
    match lg.event
    case MerchantRegistered(_, _, _) => IdleRegistration(cfg, rows, lg, time);
    case PayoutUpdated(_, _) => IdlePayout(cfg, rows, lg, time);
    case FeeUpdated(_, _) => AuditedAgain(cfg, rows, lg, time);
    case PeriodsSkipped(_, _, _) => AuditedAgain(cfg, rows, lg, time);
    case JobMoved(_, _) => AuditedAgain(cfg, rows, lg, time);
    case Governance(_, _, _) => IdleGovernance(cfg, rows, lg, time);
    case SubscriptionCharged(_, _, _, _, _, _) => IdleCharge(cfg, rows, lg, time);
    case PaymentExecuted(_, _, _, _, _, _, _) => IdlePayment(cfg, rows, lg, time);
    case Operation(_, _) => IdleAudit(cfg, rows, lg, time);
    case Transfer => IdleAudit(cfg, rows, lg, time);
    case Undecodable => IdleAlways(cfg, rows, lg, time);
    case Unsubscribed => IdleAlways(cfg, rows, lg, time);
    case _ => IdleBilling(cfg, rows, lg, time);
  }

  /**
   Idempotence, event by event: after any feed, a log that landed in it changes nothing when it is applied again exactly
   when the rows are idle for it. Payments, enrolments, failures, cancellations, transfers, operations and logs without
   a handler always are; skipped periods, fee changes and job events never are.
   */
  lemma ReplayChangesNothingExactlyWhen(cfg: Config, rows: Rows, xs: seq<Input>, y: Input)
    requires AbsorbAll(cfg, rows, xs).Some? && LandedIn(cfg, rows, xs, y)
    ensures var after := AbsorbAll(cfg, rows, xs).value;
      Absorb(cfg, after, y) == Some(after) <==> Idle(after, y.lg, y.time)
  {
    assert y.Logged?;
    LandedIsSeen(cfg, rows, xs, y);
    hide Absorb, Seen, Idle, LandedIn, AbsorbAll;
    SeenIdleExactlyWhen(cfg, AbsorbAll(cfg, rows, xs).value, y.lg, y.time);
    assert y == Logged(y.lg, y.time);
  }

  // ----- The alert that does not replay quietly -----

  /**
   A merchant's security alert is the exception: replaying a governance alert adds one exactly when the log left
   none and its merchant is linked by now.
   */
  lemma SecurityAlertOnReplay(cfg: Config, rows: Rows, lg: Log, time: int)
    requires lg.event.Governance? && lg.event.alert
    ensures Apply(cfg, rows, lg, time).Written?
    ensures (Apply(cfg, rows, lg, time).rows.securityAlerts != rows.securityAlerts) <==>
            (lg.Key() !in rows.securityAlerts && lg.event.merchant in rows.links)
  {
    var after := Apply(cfg, rows, lg, time).rows;
    assert Apply(cfg, rows, lg, time) == Written(LogGovernance(rows, lg, lg.event));
    if lg.Key() !in rows.securityAlerts && lg.event.merchant in rows.links {
      assert lg.Key() in after.securityAlerts;
    }
  }

  function OneShop(subscriptions: map<int, Subscription>): Rows {
    Rows(map["m" := Merchant("payout", 0, 0, None, None)], map[], map[], map[], map[], map[], subscriptions, map[],
         map[], map[], [], [], map[], {}, map[])
  }

  /** An alert projected before its merchant was linked: replayed afterwards, it adds a security alert. */
  lemma ReplayedAlertIsAdded() returns (cfg: Config, rows: Rows, lg: Log)
    ensures Apply(cfg, rows, lg, 10).Written? && Apply(cfg, rows, lg, 10).rows.securityAlerts == map[]
    ensures var linked := LinkOutside(Apply(cfg, rows, lg, 10).rows, "m", 1);
      && Apply(cfg, linked, lg, 10).Written? && Apply(cfg, linked, lg, 10).rows.securityAlerts != map[]
  {
    cfg := Config(map[], "live");
    rows := OneShop(map[]);
    lg := Log("registry", 7, 0, "tx", Governance(1, "merchant.deactivated", true));
    assert Apply(cfg, rows, lg, 10) == Written(LogGovernance(rows, lg, lg.event));
    var once := Apply(cfg, rows, lg, 10).rows;
    hide Apply;
    assert FreeFor(once, "m", 1);
    SecurityAlertOnReplay(cfg, LinkOutside(once, "m", 1), lg, 10);
  }

  // ----- The charge is not idempotent -----

  lemma ChargeTwice(cfg: Config, rows: Rows, lg: Log, time: int)
    requires lg.event.SubscriptionCharged? && Apply(cfg, rows, lg, time).Written?
    ensures var e, once := lg.event, Apply(cfg, rows, lg, time).rows;
      && e.sub in rows.subscriptions && e.sub in once.subscriptions
      && once.subscriptions[e.sub] == PaidUp(rows.subscriptions[e.sub], e.nextChargeAt)
      && Apply(cfg, once, lg, time) ==
           Written(once.(
             subscriptions := once.subscriptions[e.sub := PaidUp(once.subscriptions[e.sub], e.nextChargeAt)]))
  {
    var e, once := lg.event, Apply(cfg, rows, lg, time).rows;
    assert Apply(cfg, rows, lg, time) == InsertCharge(cfg, rows, lg, time, e);
    assert Apply(cfg, once, lg, time) == InsertCharge(cfg, once, lg, time, e);
    assert once.charges[e.attempt := once.charges[e.attempt]] == once.charges;
  }

  /** Applied twice in a row, a charge log changes something exactly when it moved the due date. */
  lemma ChargedTwiceExactlyWhen(cfg: Config, rows: Rows, lg: Log, time: int)
    requires lg.event.SubscriptionCharged? && Apply(cfg, rows, lg, time).Written?
    ensures var e, once := lg.event, Apply(cfg, rows, lg, time).rows;
      && e.sub in rows.subscriptions && Apply(cfg, once, lg, time).Written?
      && (Apply(cfg, once, lg, time).rows == once <==> rows.subscriptions[e.sub].nextChargeAt == e.nextChargeAt)
  {
    var e, once := lg.event, Apply(cfg, rows, lg, time).rows;
    ChargeTwice(cfg, rows, lg, time);
    LandingLeavesTrace(cfg, rows, lg, time);
    hide Apply, Seen;
    ChargeIsIdempotentExactlyWhen(cfg, once, lg, time);
  }

  /** A month's charge applied twice leaves the subscription with a window of no length. */
  lemma ReplayedChargeCollapsesWindow() returns (cfg: Config, rows: Rows, lg: Log)
    ensures Apply(cfg, rows, lg, 10).Written?
    ensures var once := Apply(cfg, rows, lg, 10).rows;
      && Apply(cfg, once, lg, 10).Written?
      && (var twice := Apply(cfg, once, lg, 10).rows;
          && 1 in once.subscriptions && once.subscriptions[1].periodStart == 10 && once.subscriptions[1].periodEnd == 40
          && 1 in twice.subscriptions && twice.subscriptions[1].periodStart == 40
          && twice.subscriptions[1].periodEnd == 40)
  {
    cfg := Config(map[], "live");
    var s := Subscription("m", Active, "payer", "USDC", "5", None, None, -20, 10, 10, 0, None, None, None, "live");
    rows := Rows(map["m" := Merchant("payout", 0, 0, None, None)], map[], map[], map[], map[], map[],
                 map[1 := s], map[], map[], map[], [], [], map[], {}, map[]);
    lg := Log("subscriptions", 7, 0, "tx", SubscriptionCharged(1, "attempt", 5, 0, 5, 40));
    assert Apply(cfg, rows, lg, 10) == InsertCharge(cfg, rows, lg, 10, lg.event);
    assert !ChargeIsLinked(rows, "attempt");
    hide Apply;
    ChargeTwice(cfg, rows, lg, 10);
  }

  /** A log replayed after a later charge: the due date goes back from 70 to 40. */
  lemma ReplayedChargeMovesDueDateBack() returns (cfg: Config, rows: Rows, first: Log, second: Log)
    ensures Apply(cfg, rows, first, 10).Written?
    ensures var once := Apply(cfg, rows, first, 10).rows;
      && Apply(cfg, once, second, 40).Written?
      && (var twice := Apply(cfg, once, second, 40).rows;
          && Apply(cfg, twice, first, 10).Written?
          && 1 in twice.subscriptions && twice.subscriptions[1].nextChargeAt == 70
          && (var back := Apply(cfg, twice, first, 10).rows;
              1 in back.subscriptions && back.subscriptions[1].nextChargeAt == 40))
  {
    cfg := Config(map[], "live");
    var s := Subscription("m", Active, "payer", "USDC", "5", None, None, -20, 10, 10, 0, None, None, None, "live");
    rows := OneShop(map[1 := s]);
    first := Log("subscriptions", 7, 0, "p", SubscriptionCharged(1, "first", 5, 0, 5, 40));
    second := Log("subscriptions", 8, 0, "q", SubscriptionCharged(1, "second", 5, 0, 5, 70));
    assert !ChargeIsLinked(rows, "first");
    assert Apply(cfg, rows, first, 10) == InsertCharge(cfg, rows, first, 10, first.event);
    var once := Apply(cfg, rows, first, 10).rows;
    assert !ChargeIsLinked(once, "second");
    assert Apply(cfg, once, second, 40) == InsertCharge(cfg, once, second, 40, second.event);
    var twice := Apply(cfg, once, second, 40).rows;
    assert Apply(cfg, twice, first, 10) == InsertCharge(cfg, twice, first, 10, first.event);
  }
}
