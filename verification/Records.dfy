/** The registry, the jobs and the audit trail: what each log writes there, and what every feed leaves. */
module Records {
  import opened Prelude
  import opened Chain
  import opened Ledger
  import opened Projection
  import opened Feed
  import opened Footprint
  import opened Windows
  import opened Lifecycle
  import opened Notices

  // ----- What one log writes, table by table -----

  /** The row a registration is for: the id's holder, else the one its transaction registered, if free of other ids. */
  predicate Selects(rows: Rows, onchainId: int, tx: Hash, m: MerchantId) {
    if onchainId in rows.links then rows.links[onchainId] == m
    else
      tx in rows.registrations && rows.registrations[tx] == m
      && forall id :: id in rows.links && rows.links[id] == m ==> id == onchainId
  }

  predicate SelectsNone(rows: Rows, onchainId: int, tx: Hash) {
    onchainId !in rows.links && (tx !in rows.registrations || !Selects(rows, onchainId, tx, rows.registrations[tx]))
  }

  lemma RegistrationLands(cfg: Config, rows: Rows, lg: Log, time: int, m: MerchantId)
    requires lg.event.MerchantRegistered? && Apply(cfg, rows, lg, time).Written?
    ensures var e, after := lg.event, Apply(cfg, rows, lg, time).rows;
      && (SelectsNone(rows, e.merchant, lg.tx) ==> after == rows)
      && (Selects(rows, e.merchant, lg.tx, m) ==>
            && m in after.merchants
            && after == rows.(links := rows.links[e.merchant := m],
                              merchants := rows.merchants[m := after.merchants[m]])
            && after.merchants[m] == Merchant(if m in rows.merchants then rows.merchants[m].payout else "",
                                              e.feeBps, e.maxFeeBps, Some(lg.tx), Some(time)))
  {
    assert Apply(cfg, rows, lg, time) == LinkMerchant(rows, lg, time, lg.event);
    hide Apply;
  }

  predicate LinkedTo(rows: Rows, onchainId: int, m: MerchantId) {
    onchainId in rows.links && rows.links[onchainId] == m
  }

  lemma FeeLands(cfg: Config, rows: Rows, lg: Log, time: int)
    requires lg.event.FeeUpdated?
    ensures Apply(cfg, rows, lg, time).Written?
    ensures var e, after := lg.event, Apply(cfg, rows, lg, time).rows;
      && after == rows.(merchants := after.merchants, audits := after.audits)
      && after.audits ==
           rows.audits + [AuditRow(None, "merchant.fee_bps_changed_onchain", OnOnchainMerchant(e.merchant))]
      && after.merchants.Keys == rows.merchants.Keys
      && (forall m :: m in rows.merchants ==>
            after.merchants[m] ==
              if LinkedTo(rows, e.merchant, m)
              then rows.merchants[m].(feeBps := e.feeBps, feeTx := Some(lg.tx), feeChangedAt := Some(time))
              else rows.merchants[m])
  {
    assert Apply(cfg, rows, lg, time) == Written(SetFee(rows, lg, time, lg.event));
    hide Apply;
  }

  lemma PayoutLands(cfg: Config, rows: Rows, lg: Log, time: int)
    requires lg.event.PayoutUpdated?
    ensures Apply(cfg, rows, lg, time).Written?
    ensures var e, after := lg.event, Apply(cfg, rows, lg, time).rows;
      && after == rows.(merchants := after.merchants) && after.merchants.Keys == rows.merchants.Keys
      && (forall m :: m in rows.merchants ==>
            after.merchants[m] ==
              if LinkedTo(rows, e.merchant, m) then rows.merchants[m].(payout := e.payout) else rows.merchants[m])
  {
    assert Apply(cfg, rows, lg, time) == Written(SetPayout(rows, lg.event));
    hide Apply;
  }

  lemma JobLands(cfg: Config, rows: Rows, lg: Log, time: int)
    requires lg.event.JobMoved? && Apply(cfg, rows, lg, time).Written?
    ensures var e, after := lg.event, Apply(cfg, rows, lg, time).rows;
      && e.job in rows.jobs
      && after == rows.(
           jobs := rows.jobs[e.job := rows.jobs[e.job].(status := e.status)],
           audits := rows.audits + [AuditRow(Some(rows.jobs[e.job].merchant), "job." + e.status, OnJob(e.job))])
  {
    assert Apply(cfg, rows, lg, time) == MoveJob(rows, lg.event);
  }

  lemma PeriodsSkippedLands(cfg: Config, rows: Rows, lg: Log, time: int)
    requires lg.event.PeriodsSkipped? && Apply(cfg, rows, lg, time).Written?
    ensures var e, after := lg.event, Apply(cfg, rows, lg, time).rows;
      && e.sub in rows.subscriptions
      && after == rows.(
           subscriptions :=
             rows.subscriptions[e.sub := rows.subscriptions[e.sub].(nextChargeAt := e.paidPeriodStart)],
           audits := rows.audits + [AuditRow(
             Some(rows.subscriptions[e.sub].merchant), "subscription.periods_skipped", OnSubscription(e.sub))])
  {
    assert Apply(cfg, rows, lg, time) == MovePeriodStart(rows, lg.event);
  }

  lemma CancellationLands(cfg: Config, rows: Rows, lg: Log, time: int)
    requires lg.event.SubscriptionCancelled? && Apply(cfg, rows, lg, time).Written?
    ensures var after := Apply(cfg, rows, lg, time).rows; after == rows.(subscriptions := after.subscriptions)
  {
    assert Apply(cfg, rows, lg, time) == CancelSubscription(rows, lg, time, lg.event);
  }

  lemma ChargeLands(cfg: Config, rows: Rows, lg: Log, time: int)
    requires lg.event.SubscriptionCharged? && Apply(cfg, rows, lg, time).Written?
    ensures var after := Apply(cfg, rows, lg, time).rows;
      after == rows.(charges := after.charges, subscriptions := after.subscriptions,
                     transactions := after.transactions, outbox := after.outbox)
  {
    assert Apply(cfg, rows, lg, time) == InsertCharge(cfg, rows, lg, time, lg.event);
    hide Apply, ChargedRow, PaidUp, ChargeIsLinked, ChargeTransaction;
  }

  /** What a governance log says of its merchant, and what an operation says of its contract. */
  function OnchainAudit(rows: Rows, lg: Log): Option<AuditRow> {
    match lg.event
    case Governance(merchant, action, _) =>
      if merchant in rows.links
      then Some(AuditRow(Some(rows.links[merchant]), action, OnMerchant(rows.links[merchant])))
      else Some(AuditRow(None, action, OnOnchainMerchant(merchant)))
    case Operation(action, _) => Some(AuditRow(None, action, OnContract(lg.address)))
    case _ => None
  }

  predicate Alarms(lg: Log) {
    (lg.event.Governance? || lg.event.Operation?) && lg.event.alert
  }

  /** The merchant a governance alert names, when it is linked. */
  function Alarmed(rows: Rows, lg: Log): Option<MerchantId> {
    if lg.event.Governance? && lg.event.alert && lg.event.merchant in rows.links
    then Some(rows.links[lg.event.merchant]) else None
  }

  lemma AuditLands(cfg: Config, rows: Rows, lg: Log, time: int)
    requires lg.event.Governance? || lg.event.Operation?
    ensures Apply(cfg, rows, lg, time).Written?
    ensures var after := Apply(cfg, rows, lg, time).rows;
      && after == rows.(onchainAudits := after.onchainAudits, contractAlerts := after.contractAlerts,
                        securityAlerts := after.securityAlerts)
      && after.onchainAudits ==
           (if lg.Key() in rows.onchainAudits then rows.onchainAudits
            else rows.onchainAudits[lg.Key() := OnchainAudit(rows, lg).value])
      && after.contractAlerts == (if Alarms(lg) then rows.contractAlerts + {lg.Key()} else rows.contractAlerts)
      && after.securityAlerts ==
           (if Alarmed(rows, lg).None? || lg.Key() in rows.securityAlerts then rows.securityAlerts
            else rows.securityAlerts[lg.Key() := Alarmed(rows, lg).value])
  {
    match lg.event
    case Governance(_, _, _) => assert Apply(cfg, rows, lg, time) == Written(LogGovernance(rows, lg, lg.event));
    case Operation(_, _) => assert Apply(cfg, rows, lg, time) == Written(LogOperation(rows, lg, lg.event));
  }

  // ----- Mismatches -----

  /** The audit row of a payment that names a session it does not settle. */
  function MismatchRow(cfg: Config, rows: Rows, lg: Log, time: int): seq<AuditRow> {
    match lg.event
    case PaymentExecuted(merchant, _, token, _, _, _, ref) =>
      if token !in cfg.tokens || merchant !in rows.links || lg.Key() in rows.transactions then []
      else
        var id, t := DecodeSessionRef(ref), PaymentRow(cfg, rows, rows.links[merchant], lg, time, lg.event);
        if id == "" || id !in rows.sessions || Mismatches(rows, id, rows.sessions[id], t) == [] then []
        else [AuditRow(Some(rows.links[merchant]), "payment.session_mismatch",
                       OnSession(id, Mismatches(rows, id, rows.sessions[id], t)))]
    case _ => []
  }

  lemma PaymentLands(cfg: Config, rows: Rows, lg: Log, time: int)
    requires lg.event.PaymentExecuted? && Apply(cfg, rows, lg, time).Written?
    ensures var after := Apply(cfg, rows, lg, time).rows;
      && after == rows.(transactions := after.transactions, sessions := after.sessions, invoices := after.invoices,
                        outbox := after.outbox, audits := after.audits)
      && after.audits == rows.audits + MismatchRow(cfg, rows, lg, time)
  {
    var e := lg.event;
    assert Apply(cfg, rows, lg, time) == InsertPayment(cfg, rows, lg, time, e);
    hide Apply, SettledSession, ConfirmSession, SettleInvoice, PaymentEvents, DecodeSessionRef, Mismatches;
    assert rows.audits + [] == rows.audits;
    if lg.Key() !in rows.transactions {
      var t := PaymentRow(cfg, rows, FindMerchant(rows, e.merchant).value, lg, time, e);
      assert Apply(cfg, rows, lg, time).rows == RecordPayment(rows, lg.Key(), DecodeSessionRef(e.ref), t);
      assert t == PaymentRow(cfg, rows, rows.links[e.merchant], lg, time, e);
      assert t.merchant == rows.links[e.merchant];
    }
  }

  function Count(b: bool): nat { if b then 1 else 0 }

  /** Each reason is given exactly when it holds, and none twice. */
  lemma MismatchesAreNamed(rows: Rows, id: SessionId, s: Session, paid: Transaction)
    ensures var reasons := Mismatches(rows, id, s, paid);
      && (MerchantMismatch in reasons <==> s.merchant != paid.merchant)
      && (AmountMismatch in reasons <==> !SameAmount(s.amount, paid.amount))
      && (CurrencyMismatch in reasons <==> s.currency != paid.currency)
      && (ModeMismatch in reasons <==> s.mode != paid.mode)
      && (AlreadyPaid in reasons <==> s.status == Confirmed || HasTransaction(rows, id))
      && |reasons| == Count(s.merchant != paid.merchant) + Count(!SameAmount(s.amount, paid.amount))
           + Count(s.currency != paid.currency) + Count(s.mode != paid.mode)
           + Count(s.status == Confirmed || HasTransaction(rows, id))
  {
    hide SameAmount, HasTransaction;
  }

  // ----- Who writes what -----

  /** The audit rows one log appends, on the rows it comes to. */
  function Trail(cfg: Config, rows: Rows, lg: Log, time: int): seq<AuditRow> {
    match lg.event
    case FeeUpdated(merchant, _) => [AuditRow(None, "merchant.fee_bps_changed_onchain", OnOnchainMerchant(merchant))]
    case PeriodsSkipped(sub, _, _) =>
      if sub !in rows.subscriptions then []
      else [AuditRow(Some(rows.subscriptions[sub].merchant), "subscription.periods_skipped", OnSubscription(sub))]
    case JobMoved(job, status) =>
      if job !in rows.jobs then [] else [AuditRow(Some(rows.jobs[job].merchant), "job." + status, OnJob(job))]
    case _ => MismatchRow(cfg, rows, lg, time)
  }

  /** What a landed log leaves in the tables of this module. */
  ghost predicate Kept(cfg: Config, rows: Rows, lg: Log, time: int, after: Rows) {
    && after.audits == rows.audits + Trail(cfg, rows, lg, time)
    && (!lg.event.MerchantRegistered? ==> after.links == rows.links)
    && (!lg.event.MerchantRegistered? && !lg.event.FeeUpdated? && !lg.event.PayoutUpdated? ==>
          after.merchants == rows.merchants)
    && (!lg.event.JobMoved? ==> after.jobs == rows.jobs)
    && (!lg.event.Governance? && !lg.event.Operation? ==>
          after.onchainAudits == rows.onchainAudits && after.contractAlerts == rows.contractAlerts
          && after.securityAlerts == rows.securityAlerts)
    && after.registrations == rows.registrations
  }

  lemma FailureFrame(cfg: Config, rows: Rows, lg: Log, time: int)
    requires lg.event.ChargeSkipped? && Apply(cfg, rows, lg, time).Written?
    ensures var after := Apply(cfg, rows, lg, time).rows;
      after == rows.(charges := after.charges, outbox := after.outbox, subscriptions := after.subscriptions)
  {
    hide Apply, IsNews, FailedFirst, FailedMore, WaitAfter;
    FailureLands(cfg, rows, lg, time);
  }

  lemma EnrolmentFrame(cfg: Config, rows: Rows, lg: Log, time: int)
    requires lg.event.SubscriptionCreated? && Apply(cfg, rows, lg, time).Written?
    ensures var after := Apply(cfg, rows, lg, time).rows;
      after == rows.(outbox := after.outbox, subscriptions := after.subscriptions)
  {
    hide Apply, OpenedBy;
    EnrolmentOpens(cfg, rows, lg, time);
  }

  predicate BillingOnly(rows: Rows, after: Rows) {
    after == rows.(subscriptions := after.subscriptions, charges := after.charges,
                   transactions := after.transactions, outbox := after.outbox)
  }

  lemma BillingFrame(cfg: Config, rows: Rows, lg: Log, time: int)
    requires IsSubscriptionEvent(lg.event) && !lg.event.PeriodsSkipped? && Apply(cfg, rows, lg, time).Written?
    ensures BillingOnly(rows, Apply(cfg, rows, lg, time).rows)
  {
    hide Apply;
    match lg.event
    case SubscriptionCreated(_, _, _, _, _, _, _) => EnrolmentFrame(cfg, rows, lg, time);
    case SubscriptionCharged(_, _, _, _, _, _) => ChargeLands(cfg, rows, lg, time);
    case ChargeSkipped(_, _, _) => FailureFrame(cfg, rows, lg, time);
    case SubscriptionCancelled(_, _) => CancellationLands(cfg, rows, lg, time);
  }

  lemma BillingOnlyKeeps(cfg: Config, rows: Rows, lg: Log, time: int, after: Rows)
    requires IsSubscriptionEvent(lg.event) && !lg.event.PeriodsSkipped? && BillingOnly(rows, after)
    ensures Kept(cfg, rows, lg, time, after)
  {
    assert rows.audits + [] == rows.audits;
  }

  lemma BillingKeeps(cfg: Config, rows: Rows, lg: Log, time: int)
    requires IsSubscriptionEvent(lg.event) && Apply(cfg, rows, lg, time).Written?
    ensures Kept(cfg, rows, lg, time, Apply(cfg, rows, lg, time).rows)
  {
    hide Apply, BillingOnly;
    if lg.event.PeriodsSkipped? {
      PeriodsSkippedLands(cfg, rows, lg, time);
    } else {
      hide Kept;
      BillingFrame(cfg, rows, lg, time);
      BillingOnlyKeeps(cfg, rows, lg, time, Apply(cfg, rows, lg, time).rows);
    }
  }

  lemma RegistryKeeps(cfg: Config, rows: Rows, lg: Log, time: int)
    requires lg.event.MerchantRegistered? || lg.event.PayoutUpdated? || lg.event.FeeUpdated?
    requires Apply(cfg, rows, lg, time).Written?
    ensures Kept(cfg, rows, lg, time, Apply(cfg, rows, lg, time).rows)
  {
    assert rows.audits + [] == rows.audits;
    NoMismatch(cfg, rows, lg, time);
    hide Apply, MismatchRow;
    match lg.event
    case MerchantRegistered(_, _, _) => RegistrationKeeps(cfg, rows, lg, time);
    case PayoutUpdated(_, _) => PayoutLands(cfg, rows, lg, time);
    case FeeUpdated(_, _) => FeeLands(cfg, rows, lg, time);
  }

  lemma OthersKeep(cfg: Config, rows: Rows, lg: Log, time: int)
    requires lg.event.Governance? || lg.event.Operation? || lg.event.PaymentExecuted? || lg.event.Transfer?
      || lg.event.JobMoved? || lg.event.Unsubscribed?
    requires Apply(cfg, rows, lg, time).Written?
    ensures Kept(cfg, rows, lg, time, Apply(cfg, rows, lg, time).rows)
  {
    assert rows.audits + [] == rows.audits;
    NoMismatch(cfg, rows, lg, time);
    hide Apply, MismatchRow, OnchainAudit, Alarms, Alarmed, Told;
    match lg.event
    case Governance(_, _, _) => AuditLands(cfg, rows, lg, time);
    case Operation(_, _) => AuditLands(cfg, rows, lg, time);
    case PaymentExecuted(_, _, _, _, _, _, _) => PaymentLands(cfg, rows, lg, time);
    case Transfer => TransferLands(cfg, rows, lg, time);
    case JobMoved(_, _) => JobLands(cfg, rows, lg, time);
    case Unsubscribed => UnsubscribedLands(cfg, rows, lg, time);
  }

  lemma LandedKeeps(cfg: Config, rows: Rows, lg: Log, time: int)
    requires Apply(cfg, rows, lg, time).Written?
    ensures Kept(cfg, rows, lg, time, Apply(cfg, rows, lg, time).rows)
  {
    hide Apply, Kept;
    if lg.event.Undecodable? {
      UndecodableNeverLands(cfg, rows, lg, time);
    } else if IsSubscriptionEvent(lg.event) {
      BillingKeeps(cfg, rows, lg, time);
    } else if lg.event.MerchantRegistered? || lg.event.PayoutUpdated? || lg.event.FeeUpdated? {
      RegistryKeeps(cfg, rows, lg, time);
    } else {
      OthersKeep(cfg, rows, lg, time);
    }
  }

  lemma NoMismatch(cfg: Config, rows: Rows, lg: Log, time: int)
    ensures !lg.event.PaymentExecuted? ==> MismatchRow(cfg, rows, lg, time) == []
  {
  }

  lemma UnsubscribedLands(cfg: Config, rows: Rows, lg: Log, time: int)
    requires lg.event.Unsubscribed?
    ensures Apply(cfg, rows, lg, time) == Written(rows)
  {
  }

  /** The one merchant a registration is for, if any. */
  lemma RegistrationIsFor(cfg: Config, rows: Rows, lg: Log, time: int) returns (m: Option<MerchantId>)
    requires lg.event.MerchantRegistered? && Apply(cfg, rows, lg, time).Written?
    ensures forall n :: Selects(rows, lg.event.merchant, lg.tx, n) <==> m == Some(n)
    ensures var e, after := lg.event, Apply(cfg, rows, lg, time).rows;
      match m
      case None => after == rows
      case Some(n) =>
        && n in after.merchants
        && after == rows.(links := rows.links[e.merchant := n], merchants := rows.merchants[n := after.merchants[n]])
        && after.merchants[n] == Merchant(if n in rows.merchants then rows.merchants[n].payout else "",
                                          e.feeBps, e.maxFeeBps, Some(lg.tx), Some(time))
  {
    hide Apply;
    var e := lg.event;
    m := if e.merchant in rows.links then Some(rows.links[e.merchant])
         else if SelectsNone(rows, e.merchant, lg.tx) then None
         else Some(rows.registrations[lg.tx]);
    RegistrationLands(cfg, rows, lg, time, if m.Some? then m.value else "");
  }

  lemma RegistrationKeeps(cfg: Config, rows: Rows, lg: Log, time: int)
    requires lg.event.MerchantRegistered? && Apply(cfg, rows, lg, time).Written?
    ensures var after := Apply(cfg, rows, lg, time).rows;
      after == rows.(links := after.links, merchants := after.merchants)
  {
    hide Apply, Selects;
    var m := RegistrationIsFor(cfg, rows, lg, time);
  }

  // ----- The merchants' terms -----

  /** What one log makes of a merchant's terms, on the rows it comes to. */
  function NextTerms(rows: Rows, lg: Log, time: int, m: MerchantId, t: Merchant): Merchant {
    match lg.event
    case MerchantRegistered(id, feeBps, maxFeeBps) =>
      if Selects(rows, id, lg.tx, m)
      then t.(feeBps := feeBps, maxFeeBps := maxFeeBps, feeTx := Some(lg.tx), feeChangedAt := Some(time)) else t
    case FeeUpdated(id, feeBps) =>
      if LinkedTo(rows, id, m) then t.(feeBps := feeBps, feeTx := Some(lg.tx), feeChangedAt := Some(time)) else t
    case PayoutUpdated(id, payout) => if LinkedTo(rows, id, m) then t.(payout := payout) else t
    case _ => t
  }

  lemma TermsStep(cfg: Config, rows: Rows, lg: Log, time: int, m: MerchantId)
    requires Apply(cfg, rows, lg, time).Written? && m in rows.merchants
    ensures var after := Apply(cfg, rows, lg, time).rows;
      m in after.merchants && after.merchants[m] == NextTerms(rows, lg, time, m, rows.merchants[m])
  {
    hide Apply, Trail;
    LandedKeeps(cfg, rows, lg, time);
    match lg.event
    case MerchantRegistered(id, _, _) => RegisteredTerms(cfg, rows, lg, time, m);
    case FeeUpdated(_, _) => FeeLands(cfg, rows, lg, time);
    case PayoutUpdated(_, _) => PayoutLands(cfg, rows, lg, time);
    case _ =>
  }

  lemma RegisteredTerms(cfg: Config, rows: Rows, lg: Log, time: int, m: MerchantId)
    requires lg.event.MerchantRegistered? && Apply(cfg, rows, lg, time).Written? && m in rows.merchants
    ensures var after := Apply(cfg, rows, lg, time).rows;
      m in after.merchants && after.merchants[m] == NextTerms(rows, lg, time, m, rows.merchants[m])
  {
    hide Apply, Selects;
    var selected := RegistrationIsFor(cfg, rows, lg, time);
    if Selects(rows, lg.event.merchant, lg.tx, m) {
      assert selected == Some(m);
    } else {
      assert selected != Some(m);
    }
  }

  /** The terms the landed logs of the feed spell out for the merchant, one after another. */
  function TermsLog(cfg: Config, rows: Rows, xs: seq<Input>, m: MerchantId): Merchant
    requires m in rows.merchants
  {
    if xs == [] then rows.merchants[m]
    else
      var before := TermsLog(cfg, rows, xs[..|xs| - 1], m);
      match AbsorbAll(cfg, rows, xs[..|xs| - 1])
      case None => before
      case Some(r) =>
        var x := xs[|xs| - 1];
        if Lands(cfg, r, x) then NextTerms(r, x.lg, x.time, m, before) else before
  }

  /** Over every feed a merchant's fee, ceiling and payout address are the last ones its logs set. */
  lemma {:induction false} TermsFollowLogs(cfg: Config, rows: Rows, xs: seq<Input>, m: MerchantId)
    requires AbsorbAll(cfg, rows, xs).Some? && m in rows.merchants
    ensures m in AbsorbAll(cfg, rows, xs).value.merchants
    ensures AbsorbAll(cfg, rows, xs).value.merchants[m] == TermsLog(cfg, rows, xs, m)
  {
    hide Apply, NextTerms;
    if xs != [] {
      TermsFollowLogs(cfg, rows, xs[..|xs| - 1], m);
      var before, x := AbsorbAll(cfg, rows, xs[..|xs| - 1]).value, xs[|xs| - 1];
      if Lands(cfg, before, x) { TermsStep(cfg, before, x.lg, x.time, m); }
    }
  }

  // ----- Links -----

  /** No merchant carries two ids. */
  ghost predicate OneIdEach(rows: Rows) {
    forall a, b :: a in rows.links && b in rows.links && rows.links[a] == rows.links[b] ==> a == b
  }

  ghost predicate LinksHold(rows: Rows, after: Rows) {
    forall id :: id in rows.links ==> id in after.links && after.links[id] == rows.links[id]
  }

  lemma LinkingStep(cfg: Config, rows: Rows, x: Input)
    requires Absorb(cfg, rows, x).Some?
    ensures LinksHold(rows, Absorb(cfg, rows, x).value)
    ensures OneIdEach(rows) ==> OneIdEach(Absorb(cfg, rows, x).value)
  {
    hide Apply, Kept;
    if Lands(cfg, rows, x) {
      if x.lg.event.MerchantRegistered? {
        RegistrationLinks(cfg, rows, x.lg, x.time);
      } else {
        SameLinks(cfg, rows, x.lg, x.time);
      }
    }
  }

  lemma SameLinks(cfg: Config, rows: Rows, lg: Log, time: int)
    requires !lg.event.MerchantRegistered? && Apply(cfg, rows, lg, time).Written?
    ensures Apply(cfg, rows, lg, time).rows.links == rows.links
  {
    hide Apply, Trail;
    LandedKeeps(cfg, rows, lg, time);
  }

  lemma RegistrationLinks(cfg: Config, rows: Rows, lg: Log, time: int)
    requires lg.event.MerchantRegistered? && Apply(cfg, rows, lg, time).Written?
    ensures var after := Apply(cfg, rows, lg, time).rows;
      LinksHold(rows, after) && (OneIdEach(rows) ==> OneIdEach(after))
  {
    hide Apply;
    var m := RegistrationIsFor(cfg, rows, lg, time);
    if m.Some? { assert Selects(rows, lg.event.merchant, lg.tx, m.value); }
  }

  /** Over every feed a link once made stays, and no merchant ever carries two ids. */
  lemma {:induction false} LinksNeverMove(cfg: Config, rows: Rows, xs: seq<Input>)
    requires AbsorbAll(cfg, rows, xs).Some?
    ensures LinksHold(rows, AbsorbAll(cfg, rows, xs).value)
    ensures OneIdEach(rows) ==> OneIdEach(AbsorbAll(cfg, rows, xs).value)
  {
    hide Absorb, OneIdEach;
    if xs != [] {
      LinksNeverMove(cfg, rows, xs[..|xs| - 1]);
      LinkingStep(cfg, AbsorbAll(cfg, rows, xs[..|xs| - 1]).value, xs[|xs| - 1]);
    }
  }

  // ----- Jobs -----

  /** The status of the last log of the job that landed in the feed. */
  function LastJobStatus(cfg: Config, rows: Rows, xs: seq<Input>, job: int): Option<string> {
    if xs == [] then None
    else if AbsorbAll(cfg, rows, xs[..|xs| - 1]).Some?
      && Lands(cfg, AbsorbAll(cfg, rows, xs[..|xs| - 1]).value, xs[|xs| - 1])
      && xs[|xs| - 1].lg.event.JobMoved? && xs[|xs| - 1].lg.event.job == job
    then Some(xs[|xs| - 1].lg.event.status)
    else LastJobStatus(cfg, rows, xs[..|xs| - 1], job)
  }

  /** Over every feed a job keeps its merchant and has the status of its last log. */
  lemma {:induction false} JobsFollowLogs(cfg: Config, rows: Rows, xs: seq<Input>, job: int)
    requires AbsorbAll(cfg, rows, xs).Some? && job in rows.jobs
    ensures job in AbsorbAll(cfg, rows, xs).value.jobs
    ensures var last := LastJobStatus(cfg, rows, xs, job);
      AbsorbAll(cfg, rows, xs).value.jobs[job] ==
        rows.jobs[job].(status := if last.Some? then last.value else rows.jobs[job].status)
  {
    hide Apply, Trail;
    if xs != [] {
      JobsFollowLogs(cfg, rows, xs[..|xs| - 1], job);
      var before, x := AbsorbAll(cfg, rows, xs[..|xs| - 1]).value, xs[|xs| - 1];
      if Lands(cfg, before, x) {
        LandedKeeps(cfg, before, x.lg, x.time);
        if x.lg.event.JobMoved? { JobLands(cfg, before, x.lg, x.time); }
      }
    }
  }

  // ----- The audit trail -----

  /** The audit rows the landed logs of the feed append, in order. */
  function WholeTrail(cfg: Config, rows: Rows, xs: seq<Input>): seq<AuditRow> {
    if xs == [] then []
    else
      WholeTrail(cfg, rows, xs[..|xs| - 1]) +
      (match AbsorbAll(cfg, rows, xs[..|xs| - 1])
       case None => []
       case Some(r) => if Lands(cfg, r, xs[|xs| - 1]) then Trail(cfg, r, xs[|xs| - 1].lg, xs[|xs| - 1].time) else [])
  }

  /** Over every feed the audit trail grows by exactly the rows its landed logs spell out, in their order. */
  lemma {:induction false} AuditsAreTheTrail(cfg: Config, rows: Rows, xs: seq<Input>)
    requires AbsorbAll(cfg, rows, xs).Some?
    ensures AbsorbAll(cfg, rows, xs).value.audits == rows.audits + WholeTrail(cfg, rows, xs)
  {
    hide Apply, Trail;
    if xs != [] {
      AuditsAreTheTrail(cfg, rows, xs[..|xs| - 1]);
      var before, x := AbsorbAll(cfg, rows, xs[..|xs| - 1]).value, xs[|xs| - 1];
      if Lands(cfg, before, x) { LandedKeeps(cfg, before, x.lg, x.time); }
    }
  }

  // ----- Audit rows and alerts under the log's own id -----

  /** What the first log under the key that landed in the feed says, and whether any raised an alert, and for whom. */
  datatype Dossier = Dossier(audit: Option<AuditRow>, alarmed: bool, merchant: Option<MerchantId>)

  function First<T>(a: Option<T>, b: Option<T>): Option<T> { if a.Some? then a else b }

  function NextDossier(rows: Rows, lg: Log, k: LogKey, d: Dossier): Dossier {
    if lg.Key() != k then d
    else Dossier(First(d.audit, OnchainAudit(rows, lg)), d.alarmed || Alarms(lg), First(d.merchant, Alarmed(rows, lg)))
  }

  function DossierOf(rows: Rows, k: LogKey): Dossier {
    Dossier(if k in rows.onchainAudits then Some(rows.onchainAudits[k]) else None, k in rows.contractAlerts,
            if k in rows.securityAlerts then Some(rows.securityAlerts[k]) else None)
  }

  lemma DossierStep(cfg: Config, rows: Rows, lg: Log, time: int, k: LogKey)
    requires Apply(cfg, rows, lg, time).Written?
    ensures DossierOf(Apply(cfg, rows, lg, time).rows, k) == NextDossier(rows, lg, k, DossierOf(rows, k))
  {
    hide Apply;
    if lg.event.Governance? || lg.event.Operation? {
      AuditLands(cfg, rows, lg, time);
      hide OnchainAudit, Alarms, Alarmed;
      assert OnchainAudit(rows, lg).Some? by { Audited(rows, lg); }
    } else {
      SameDossier(cfg, rows, lg, time, k);
    }
  }

  lemma Audited(rows: Rows, lg: Log)
    requires lg.event.Governance? || lg.event.Operation?
    ensures OnchainAudit(rows, lg).Some?
  {
  }

  lemma SameDossier(cfg: Config, rows: Rows, lg: Log, time: int, k: LogKey)
    requires !lg.event.Governance? && !lg.event.Operation? && Apply(cfg, rows, lg, time).Written?
    ensures DossierOf(Apply(cfg, rows, lg, time).rows, k) == NextDossier(rows, lg, k, DossierOf(rows, k))
  {
    hide Apply, Trail;
    LandedKeeps(cfg, rows, lg, time);
  }

  function DossierLog(cfg: Config, rows: Rows, xs: seq<Input>, k: LogKey): Dossier {
    if xs == [] then DossierOf(rows, k)
    else
      var before := DossierLog(cfg, rows, xs[..|xs| - 1], k);
      match AbsorbAll(cfg, rows, xs[..|xs| - 1])
      case None => before
      case Some(r) =>
        var x := xs[|xs| - 1];
        if Lands(cfg, r, x) then NextDossier(r, x.lg, k, before) else before
  }

  /**
   Over every feed the audit row under a log's id is what the first log there said, a contract alert stands exactly when
   one of them raised it, and a security alert names the merchant of the first that could name one.
   */
  lemma {:induction false} DossiersFollowLogs(cfg: Config, rows: Rows, xs: seq<Input>, k: LogKey)
    requires AbsorbAll(cfg, rows, xs).Some?
    ensures DossierOf(AbsorbAll(cfg, rows, xs).value, k) == DossierLog(cfg, rows, xs, k)
  {
    hide Apply, NextDossier, DossierOf;
    if xs != [] {
      DossiersFollowLogs(cfg, rows, xs[..|xs| - 1], k);
      var before, x := AbsorbAll(cfg, rows, xs[..|xs| - 1]).value, xs[|xs| - 1];
      if Lands(cfg, before, x) {
        DossierStep(cfg, before, x.lg, x.time, k);
      } else if x.Linked? {
        LinkKeepsDossiers(before, x, k);
      }
    }
  }

  lemma LinkKeepsDossiers(rows: Rows, x: Input, k: LogKey)
    requires x.Linked?
    ensures DossierOf(LinkOutside(rows, x.merchant, x.onchainId), k) == DossierOf(rows, k)
  {
  }
}
