/** A subscription's life in its own terms: how it starts, what makes it fail, what ends it, and what never changes. */
module Lifecycle {
  import opened Prelude
  import opened Chain
  import opened Ledger
  import opened Projection
  import opened Feed
  import opened Footprint
  import opened Windows
  import Decimal

  // ----- Failed attempts -----

  /** The outcomes that say a bill was tried and could not be collected; the rest is scheduler noise. */
  const COLLECTION_FAILURES := {InsufficientFunds, RevokedApproval, MerchantInactive, TransferFailed}

  /** A first word on the attempt, or a collection failure in a later block than the last one. */
  predicate IsNews(rows: Rows, attempt: Hash, outcome: ChargeOutcome, time: int) {
    attempt !in rows.charges
    || (outcome in COLLECTION_FAILURES && rows.charges[attempt].status == Failed
        && rows.charges[attempt].executedAt.Some? && rows.charges[attempt].executedAt.value < time)
  }

  /** Seconds to the next try, by how many failures came before this one. */
  function WaitAfter(failuresBefore: nat): int {
    if failuresBefore == 0 then 900
    else if failuresBefore == 1 then 3_600
    else if failuresBefore == 2 then 10_800
    else if failuresBefore == 3 then 21_600
    else if failuresBefore == 4 then 43_200
    else 86_400
  }

  lemma FailuresAreNamed(outcome: ChargeOutcome)
    ensures outcome.IsPaymentFailure() <==> outcome in COLLECTION_FAILURES
  {
  }

  lemma WaitsAgree(n: nat)
    ensures Backoff(n + 1) == WaitAfter(n)
  {
  }

  /** A failed attempt's row: the period, price and money of its subscription when it first failed. */
  predicate FailedFirst(s: Subscription, sub: int, outcome: ChargeOutcome, time: int, c: Charge) {
    && c.sub == sub && c.merchant == s.merchant && c.periodStart == s.periodStart && c.periodEnd == s.periodEnd
    && c.amount == s.amount && c.currency == s.currency && c.tx == None && c.attemptNumber == 1
    && c.status == Failed && c.outcome == outcome && c.scheduledAt == time && c.executedAt == Some(time)
  }

  /** Failing again: one more attempt, the latest outcome and block time, and the rest as it was. */
  predicate FailedMore(before: Charge, outcome: ChargeOutcome, time: int, c: Charge) {
    c == before.(outcome := outcome, executedAt := Some(time), attemptNumber := c.attemptNumber)
    && c.attemptNumber == before.attemptNumber + 1
  }

  /**
   A failed attempt that lands. Nothing new changes nothing. News always leaves its row; a collection failure is
   announced once and, while the subscription is trialing, active or at risk, puts it at risk, counts and arms the next
   try; any other outcome leaves subscriptions and webhooks alone.
   */
  lemma FailureLands(cfg: Config, rows: Rows, lg: Log, time: int)
    requires lg.event.ChargeSkipped? && Apply(cfg, rows, lg, time).Written?
    ensures lg.event.sub in rows.subscriptions
    ensures var e, s, after := lg.event, rows.subscriptions[lg.event.sub], Apply(cfg, rows, lg, time).rows;
      if !IsNews(rows, e.attempt, e.outcome, time) then after == rows
      else
        && e.attempt in after.charges && after.charges == rows.charges[e.attempt := after.charges[e.attempt]]
        && (if e.attempt in rows.charges
            then FailedMore(rows.charges[e.attempt], e.outcome, time, after.charges[e.attempt])
            else FailedFirst(s, e.sub, e.outcome, time, after.charges[e.attempt]))
        && after.outbox ==
             (if e.outcome in COLLECTION_FAILURES
              then rows.outbox + [WebhookEvent(s.merchant, s.mode, ChargeFailed(e.sub, e.attempt))] else rows.outbox)
        && after.subscriptions ==
             (if e.outcome in COLLECTION_FAILURES && s.status in {Trialing, Active, AtRisk}
              then rows.subscriptions[e.sub := s.(
                     status := AtRisk, retryCount := s.retryCount + 1,
                     nextRetryAt := Some(time + WaitAfter(s.retryCount)))]
              else rows.subscriptions)
        && after == rows.(charges := after.charges, outbox := after.outbox, subscriptions := after.subscriptions)
  {
    var e := lg.event;
    assert Apply(cfg, rows, lg, time) == InsertChargeSkip(rows, time, e);
    NewsIsNew(rows, e.attempt, e.outcome, time);
    if IsNews(rows, e.attempt, e.outcome, time) {
      FailureRow(rows, time, e);
      FailureSubscription(rows, time, e);
    }
    hide Apply, RecordFailure, FailedRow, IsNews, Backoff, WaitAfter, FailedFirst, FailedMore;
  }

  lemma NewsIsNew(rows: Rows, attempt: Hash, outcome: ChargeOutcome, time: int)
    ensures IsNews(rows, attempt, outcome, time) <==> IsNewFailure(rows, attempt, outcome, time)
  {
    FailuresAreNamed(outcome);
  }

  lemma FailureRow(rows: Rows, time: int, e: Event)
    requires e.ChargeSkipped? && e.sub in rows.subscriptions
    ensures var after := RecordFailure(rows, time, e);
      && e.attempt in after.charges && after.charges == rows.charges[e.attempt := after.charges[e.attempt]]
      && (if e.attempt in rows.charges
          then FailedMore(rows.charges[e.attempt], e.outcome, time, after.charges[e.attempt])
          else FailedFirst(rows.subscriptions[e.sub], e.sub, e.outcome, time, after.charges[e.attempt]))
  {
    hide Defaulted;
  }

  lemma FailureSubscription(rows: Rows, time: int, e: Event)
    requires e.ChargeSkipped? && e.sub in rows.subscriptions
    ensures var s, after := rows.subscriptions[e.sub], RecordFailure(rows, time, e);
      && after.outbox ==
           (if e.outcome in COLLECTION_FAILURES
            then rows.outbox + [WebhookEvent(s.merchant, s.mode, ChargeFailed(e.sub, e.attempt))] else rows.outbox)
      && after.subscriptions ==
           (if e.outcome in COLLECTION_FAILURES && s.status in {Trialing, Active, AtRisk}
            then rows.subscriptions[e.sub := s.(
                   status := AtRisk, retryCount := s.retryCount + 1,
                   nextRetryAt := Some(time + WaitAfter(s.retryCount)))]
            else rows.subscriptions)
      && after == rows.(charges := after.charges, outbox := after.outbox, subscriptions := after.subscriptions)
  {
    var s := rows.subscriptions[e.sub];
    FailuresAreNamed(e.outcome);
    DefaultedMeans(s, time);
    assert rows.subscriptions[e.sub := s] == rows.subscriptions;
    hide Defaulted, WaitAfter, FailedRow;
  }

  lemma DefaultedMeans(s: Subscription, time: int)
    ensures Defaulted(s, time) ==
      if s.status in {Trialing, Active, AtRisk}
      then s.(status := AtRisk, retryCount := s.retryCount + 1, nextRetryAt := Some(time + WaitAfter(s.retryCount)))
      else s
  {
    WaitsAgree(s.retryCount);
  }

  // ----- Enrolment -----

  /** The row an enrolment opens: the event's and configuration's own values, on trial exactly until a later start. */
  predicate OpenedBy(cfg: Config, rows: Rows, lg: Log, time: int, s: Subscription)
    requires lg.event.SubscriptionCreated?
  {
    var e := lg.event;
    && e.merchant in rows.links && e.token in cfg.tokens
    && s.merchant == rows.links[e.merchant] && s.payer == e.payer && s.currency == cfg.tokens[e.token]
    && Decimal.ParseInteger(s.amount) == Some(e.amount) && s.mode == cfg.mode && s.enrolmentTx == Some(lg.tx)
    && (s.status == Trialing <==> e.startAt > time) && (s.status == Active <==> e.startAt <= time)
    && s.trialEndsAt == (if e.startAt > time then Some(e.startAt) else None)
    && s.periodStart == (if e.startAt > time then time else e.startAt)
    && s.periodEnd == (if e.startAt > time then e.startAt else e.startAt + e.interval) && s.nextChargeAt == e.startAt
    && s.retryCount == 0 && s.nextRetryAt == None && s.cancelledAt == None && s.cancellationReason == None
  }

  /** An enrolment of a new id opens its row and announces it once; one of an id on file changes nothing. */
  lemma EnrolmentOpens(cfg: Config, rows: Rows, lg: Log, time: int)
    requires lg.event.SubscriptionCreated? && Apply(cfg, rows, lg, time).Written?
    ensures var e, after := lg.event, Apply(cfg, rows, lg, time).rows;
      if e.sub in rows.subscriptions then after == rows
      else
        && e.sub in after.subscriptions && OpenedBy(cfg, rows, lg, time, after.subscriptions[e.sub])
        && after == rows.(
             subscriptions := rows.subscriptions[e.sub := after.subscriptions[e.sub]],
             outbox := rows.outbox + [WebhookEvent(rows.links[e.merchant], cfg.mode, SubscriptionEnrolled(e.sub))])
  {
    var e := lg.event;
    assert Apply(cfg, rows, lg, time) == Enrol(cfg, rows, lg, time, e);
    Decimal.ParsePrint(e.amount);
    hide Apply, Decimal.Print, Decimal.ParseInteger;
    if e.sub !in rows.subscriptions {
      var s := NewSubscription(rows.links[e.merchant], cfg, lg, time, e);
      assert Apply(cfg, rows, lg, time) == Written(AddSubscription(rows, e.sub, s)) by {
        assert FindMerchant(rows, e.merchant) == Some(rows.links[e.merchant]);
      }
    }
  }

  // ----- Status over every feed -----

  /** What one landed log of the subscription makes of its status. */
  function NextStatus(status: SubscriptionStatus, lg: Log, news: bool): SubscriptionStatus {
    match lg.event
    case SubscriptionCharged(_, _, _, _, _, _) => if status in {Trialing, AtRisk} then Active else status
    case ChargeSkipped(_, _, outcome) =>
      if news && outcome in COLLECTION_FAILURES && status in {Trialing, Active, AtRisk} then AtRisk else status
    case SubscriptionCancelled(_, _) => if status in {Cancelled, Lapsed} then status else Cancelled
    case _ => status
  }

  predicate TellsNews(rows: Rows, lg: Log, time: int) {
    lg.event.ChargeSkipped? && IsNews(rows, lg.event.attempt, lg.event.outcome, time)
  }

  lemma StatusStep(cfg: Config, rows: Rows, lg: Log, time: int, sub: int)
    requires Apply(cfg, rows, lg, time).Written? && sub in rows.subscriptions
    ensures var after := Apply(cfg, rows, lg, time).rows;
      && sub in after.subscriptions
      && after.subscriptions[sub].status ==
           (if Subject(lg) == Some(sub) then NextStatus(rows.subscriptions[sub].status, lg, TellsNews(rows, lg, time))
            else rows.subscriptions[sub].status)
  {
    BillingStep(cfg, rows, lg, time);
    if lg.event.ChargeSkipped? {
      FailuresAreNamed(lg.event.outcome);
      NewsIsNew(rows, lg.event.attempt, lg.event.outcome, time);
    }
    hide Apply, IsNews, IsNewFailure, Backoff;
  }

  /** The status the landed logs of the subscription spell out, one after another. */
  function StatusLog(cfg: Config, rows: Rows, xs: seq<Input>, sub: int): SubscriptionStatus
    requires sub in rows.subscriptions
  {
    if xs == [] then rows.subscriptions[sub].status
    else
      var before := StatusLog(cfg, rows, xs[..|xs| - 1], sub);
      match AbsorbAll(cfg, rows, xs[..|xs| - 1])
      case None => before
      case Some(r) =>
        var x := xs[|xs| - 1];
        if Lands(cfg, r, x) && Subject(x.lg) == Some(sub)
        then NextStatus(before, x.lg, TellsNews(r, x.lg, x.time)) else before
  }

  /** Over every feed a subscription's status is what its landed logs spell out. */
  lemma {:induction false} StatusFollowsLogs(cfg: Config, rows: Rows, xs: seq<Input>, sub: int)
    requires AbsorbAll(cfg, rows, xs).Some? && sub in rows.subscriptions
    ensures sub in AbsorbAll(cfg, rows, xs).value.subscriptions
    ensures AbsorbAll(cfg, rows, xs).value.subscriptions[sub].status == StatusLog(cfg, rows, xs, sub)
  {
    hide Apply, NextStatus, TellsNews;
    if xs != [] {
      StatusFollowsLogs(cfg, rows, xs[..|xs| - 1], sub);
      var before, x := AbsorbAll(cfg, rows, xs[..|xs| - 1]).value, xs[|xs| - 1];
      if Lands(cfg, before, x) {
        StatusStep(cfg, before, x.lg, x.time, sub);
      } else if x.Linked? {
        LinkKeepsRows(before, x);
      }
    }
  }

  lemma LinkKeepsRows(rows: Rows, x: Input)
    requires x.Linked?
    ensures LinkOutside(rows, x.merchant, x.onchainId).subscriptions == rows.subscriptions
  {
  }

  /** The input ends a trial: a charge, a new collection failure or a cancellation of the subscription. */
  predicate EndsTrial(cfg: Config, rows: Rows, x: Input, sub: int) {
    Lands(cfg, rows, x) && Subject(x.lg) == Some(sub)
    && (x.lg.event.SubscriptionCharged? || x.lg.event.SubscriptionCancelled?
        || (TellsNews(rows, x.lg, x.time) && x.lg.event.outcome in COLLECTION_FAILURES))
  }

  ghost predicate TrialEndsAt(cfg: Config, rows: Rows, xs: seq<Input>, sub: int, k: int) {
    0 <= k < |xs| && AbsorbAll(cfg, rows, xs[..k]).Some?
    && EndsTrial(cfg, AbsorbAll(cfg, rows, xs[..k]).value, xs[k], sub)
  }

  lemma TrialEndsOneMore(cfg: Config, rows: Rows, xs: seq<Input>, sub: int)
    requires xs != [] && AbsorbAll(cfg, rows, xs[..|xs| - 1]).Some?
    ensures var front, last := xs[..|xs| - 1], |xs| - 1;
      (exists k :: TrialEndsAt(cfg, rows, xs, sub, k)) <==>
      (exists k :: TrialEndsAt(cfg, rows, front, sub, k))
      || EndsTrial(cfg, AbsorbAll(cfg, rows, front).value, xs[last], sub)
  {
    hide AbsorbAll, EndsTrial;
    var front, last := xs[..|xs| - 1], |xs| - 1;
    forall k | 0 <= k < last ensures TrialEndsAt(cfg, rows, xs, sub, k) <==> TrialEndsAt(cfg, rows, front, sub, k) {
      assert front[..k] == xs[..k];
    }
    assert TrialEndsAt(cfg, rows, xs, sub, last) <==> EndsTrial(cfg, AbsorbAll(cfg, rows, front).value, xs[last], sub);
  }

  lemma StillOnTrial(cfg: Config, rows: Rows, xs: seq<Input>, sub: int)
    requires xs != [] && AbsorbAll(cfg, rows, xs).Some? && sub in rows.subscriptions
    ensures AbsorbAll(cfg, rows, xs[..|xs| - 1]).Some?
    ensures StatusLog(cfg, rows, xs[..|xs| - 1], sub) == Trialing ==>
      (StatusLog(cfg, rows, xs, sub) == Trialing <==>
       !EndsTrial(cfg, AbsorbAll(cfg, rows, xs[..|xs| - 1]).value, xs[|xs| - 1], sub))
    ensures StatusLog(cfg, rows, xs[..|xs| - 1], sub) != Trialing ==> StatusLog(cfg, rows, xs, sub) != Trialing
  {
    hide Absorb, Lands, IsNews;
  }

  /** A trial lasts exactly until a charge, a new collection failure or a cancellation of the subscription lands. */
  lemma {:induction false} TrialLasts(cfg: Config, rows: Rows, xs: seq<Input>, sub: int)
    requires AbsorbAll(cfg, rows, xs).Some? && sub in rows.subscriptions && rows.subscriptions[sub].status == Trialing
    ensures StatusLog(cfg, rows, xs, sub) == Trialing <==> !(exists k :: TrialEndsAt(cfg, rows, xs, sub, k))
    ensures sub in AbsorbAll(cfg, rows, xs).value.subscriptions
    ensures AbsorbAll(cfg, rows, xs).value.subscriptions[sub].status == StatusLog(cfg, rows, xs, sub)
  {
    StatusFollowsLogs(cfg, rows, xs, sub);
    if xs != [] {
      hide AbsorbAll, StatusLog, TrialEndsAt, EndsTrial;
      StillOnTrial(cfg, rows, xs, sub);
      TrialLasts(cfg, rows, xs[..|xs| - 1], sub);
      TrialEndsOneMore(cfg, rows, xs, sub);
    }
  }

  // ----- What never changes, and the first cancellation -----

  predicate SameIdentity(s: Subscription, t: Subscription) {
    t.merchant == s.merchant && t.payer == s.payer && t.currency == s.currency && t.amount == s.amount
    && t.enrolmentTx == s.enrolmentTx && t.trialEndsAt == s.trialEndsAt && t.mode == s.mode
  }

  ghost predicate IdentitiesStay(rows: Rows, after: Rows) {
    forall s :: s in rows.subscriptions ==>
      s in after.subscriptions && SameIdentity(rows.subscriptions[s], after.subscriptions[s])
  }

  lemma IdentityStep(cfg: Config, rows: Rows, x: Input)
    requires Absorb(cfg, rows, x).Some?
    ensures IdentitiesStay(rows, Absorb(cfg, rows, x).value)
  {
    hide Apply;
    if Lands(cfg, rows, x) { BillingStep(cfg, rows, x.lg, x.time); }
  }

  /** Whoever a subscription is with, for how much and since when never changes. */
  lemma {:induction false} IdentitiesNeverChange(cfg: Config, rows: Rows, xs: seq<Input>)
    requires AbsorbAll(cfg, rows, xs).Some?
    ensures IdentitiesStay(rows, AbsorbAll(cfg, rows, xs).value)
  {
    hide Absorb;
    if xs != [] {
      IdentitiesNeverChange(cfg, rows, xs[..|xs| - 1]);
      IdentityStep(cfg, AbsorbAll(cfg, rows, xs[..|xs| - 1]).value, xs[|xs| - 1]);
    }
  }

  predicate Cancels(cfg: Config, rows: Rows, x: Input, sub: int) {
    Lands(cfg, rows, x) && x.lg.event.SubscriptionCancelled? && x.lg.event.sub == sub
  }

  /** The first cancellation of the subscription that landed in the feed. */
  function FirstCancellation(cfg: Config, rows: Rows, xs: seq<Input>, sub: int): Option<Input> {
    if xs == [] then None
    else if FirstCancellation(cfg, rows, xs[..|xs| - 1], sub).Some? then
      FirstCancellation(cfg, rows, xs[..|xs| - 1], sub)
    else if AbsorbAll(cfg, rows, xs[..|xs| - 1]).Some?
      && Cancels(cfg, AbsorbAll(cfg, rows, xs[..|xs| - 1]).value, xs[|xs| - 1], sub)
    then Some(xs[|xs| - 1])
    else None
  }

  /** The words an on-chain cancellation leaves. */
  function WordsOf(lg: Log): string
    requires lg.event.SubscriptionCancelled?
  {
    "on-chain cancel by " + lg.event.canceller + " in tx " + lg.tx
  }

  /**
   Cancelled by this log, or not over at all. The log's block time and words stand unless the row, as it was at the
   start, had a time or words already.
   */
  predicate CancelledBy(start: Subscription, s: Subscription, first: Option<Input>) {
    match first
    case None =>
      && s.status !in {Cancelled, Lapsed}
      && s.cancelledAt == start.cancelledAt && s.cancellationReason == start.cancellationReason
    case Some(x) =>
      && x.Logged? && x.lg.event.SubscriptionCancelled? && s.status == Cancelled
      && s.cancelledAt == (if start.cancelledAt.Some? then start.cancelledAt else Some(x.time))
      && s.cancellationReason ==
           (if start.cancellationReason.Some? then start.cancellationReason else Some(WordsOf(x.lg)))
  }

  lemma CancellationStep(cfg: Config, rows: Rows, x: Input, sub: int, start: Subscription, first: Option<Input>)
    requires Absorb(cfg, rows, x).Some? && sub in rows.subscriptions
    requires CancelledBy(start, rows.subscriptions[sub], first)
    ensures sub in Absorb(cfg, rows, x).value.subscriptions
    ensures CancelledBy(start, Absorb(cfg, rows, x).value.subscriptions[sub],
                        if first.None? && Cancels(cfg, rows, x, sub) then Some(x) else first)
  {
    hide Apply;
    if Lands(cfg, rows, x) { BillingStep(cfg, rows, x.lg, x.time); }
  }

  /** The first cancellation stands: whatever lands afterwards, its time and its words stay on the row. */
  lemma {:induction false} FirstCancellationStands(cfg: Config, rows: Rows, xs: seq<Input>, sub: int)
    requires AbsorbAll(cfg, rows, xs).Some? && sub in rows.subscriptions
    requires rows.subscriptions[sub].status !in {Cancelled, Lapsed}
    ensures sub in AbsorbAll(cfg, rows, xs).value.subscriptions
    ensures CancelledBy(rows.subscriptions[sub], AbsorbAll(cfg, rows, xs).value.subscriptions[sub],
                        FirstCancellation(cfg, rows, xs, sub))
  {
    assert CancelledBy(rows.subscriptions[sub], rows.subscriptions[sub], None);
    hide Absorb, Cancels, CancelledBy;
    if xs != [] {
      var front := xs[..|xs| - 1];
      FirstCancellationStands(cfg, rows, front, sub);
      CancellationStep(cfg, AbsorbAll(cfg, rows, front).value, xs[|xs| - 1], sub, rows.subscriptions[sub],
                       FirstCancellation(cfg, rows, front, sub));
    }
  }

  predicate Over(s: Subscription) { s.status == Cancelled || s.status == Lapsed }

  predicate SameEnd(s: Subscription, t: Subscription) {
    t.status == s.status && t.cancelledAt == s.cancelledAt && t.cancellationReason == s.cancellationReason
  }

  lemma EndStep(cfg: Config, rows: Rows, x: Input, sub: int)
    requires Absorb(cfg, rows, x).Some? && sub in rows.subscriptions && Over(rows.subscriptions[sub])
    ensures sub in Absorb(cfg, rows, x).value.subscriptions
    ensures SameEnd(rows.subscriptions[sub], Absorb(cfg, rows, x).value.subscriptions[sub])
  {
    hide Apply;
    if Lands(cfg, rows, x) { BillingStep(cfg, rows, x.lg, x.time); }
  }

  /** A subscription that is over stays over, with the time and the words it ended with. */
  lemma {:induction false} EndsAreFinal(cfg: Config, rows: Rows, xs: seq<Input>, sub: int)
    requires AbsorbAll(cfg, rows, xs).Some? && sub in rows.subscriptions && Over(rows.subscriptions[sub])
    ensures sub in AbsorbAll(cfg, rows, xs).value.subscriptions
    ensures SameEnd(rows.subscriptions[sub], AbsorbAll(cfg, rows, xs).value.subscriptions[sub])
  {
    hide Absorb;
    if xs != [] {
      EndsAreFinal(cfg, rows, xs[..|xs| - 1], sub);
      EndStep(cfg, AbsorbAll(cfg, rows, xs[..|xs| - 1]).value, xs[|xs| - 1], sub);
    }
  }

  // ----- Attempts over every feed -----

  /** The input is news of a failed attempt. */
  predicate Tries(cfg: Config, rows: Rows, x: Input, attempt: Hash) {
    Lands(cfg, rows, x) && TellsNews(rows, x.lg, x.time) && x.lg.event.attempt == attempt
  }

  function TryCount(cfg: Config, rows: Rows, xs: seq<Input>, attempt: Hash): nat {
    if xs == [] then 0
    else
      TryCount(cfg, rows, xs[..|xs| - 1], attempt) +
      (match AbsorbAll(cfg, rows, xs[..|xs| - 1])
       case None => 0
       case Some(r) => if Tries(cfg, r, xs[|xs| - 1], attempt) then 1 else 0)
  }

  function LastTry(cfg: Config, rows: Rows, xs: seq<Input>, attempt: Hash): Option<Input> {
    if xs == [] then None
    else
      match AbsorbAll(cfg, rows, xs[..|xs| - 1])
      case None => None
      case Some(r) =>
        if Tries(cfg, r, xs[|xs| - 1], attempt) then Some(xs[|xs| - 1]) else LastTry(cfg, rows, xs[..|xs| - 1], attempt)
  }

  /** A row counts its failures, and while it is failed says what the last of them said. */
  predicate RowTells(c: Charge, tries: nat, last: Option<Input>) {
    && c.attemptNumber == Max(1, tries)
    && (c.status == Failed ==>
          && tries > 0 && last.Some? && last.value.Logged? && last.value.lg.event.ChargeSkipped?
          && c.outcome == last.value.lg.event.outcome && c.executedAt == Some(last.value.time))
  }

  predicate AttemptTells(rows: Rows, attempt: Hash, tries: nat, last: Option<Input>) {
    if attempt in rows.charges then RowTells(rows.charges[attempt], tries, last) else tries == 0
  }

  lemma AttemptStep(cfg: Config, rows: Rows, x: Input, attempt: Hash, tries: nat, last: Option<Input>)
    requires Absorb(cfg, rows, x).Some? && AttemptTells(rows, attempt, tries, last)
    ensures AttemptTells(Absorb(cfg, rows, x).value, attempt,
                         if Tries(cfg, rows, x, attempt) then tries + 1 else tries,
                         if Tries(cfg, rows, x, attempt) then Some(x) else last)
  {
    if Lands(cfg, rows, x) {
      LandedChargeApplies(cfg, rows, x);
      hide Absorb;
      if x.lg.event.ChargeSkipped? {
        FailureTried(cfg, rows, x, attempt, tries, last);
      } else {
        ChargeStep(cfg, rows, x.lg, x.time);
        hide Apply, Decimal.Print;
      }
    }
  }

  lemma FailureTried(cfg: Config, rows: Rows, x: Input, attempt: Hash, tries: nat, last: Option<Input>)
    requires Lands(cfg, rows, x) && x.lg.event.ChargeSkipped? && AttemptTells(rows, attempt, tries, last)
    ensures AttemptTells(Apply(cfg, rows, x.lg, x.time).rows, attempt,
                         if Tries(cfg, rows, x, attempt) then tries + 1 else tries,
                         if Tries(cfg, rows, x, attempt) then Some(x) else last)
  {
    hide Apply, WaitAfter;
    FailureLands(cfg, rows, x.lg, x.time);
  }

  /** Over every feed a new attempt's row counts the failures that landed, and while failed tells the last one. */
  lemma {:induction false} AttemptsTellFailures(cfg: Config, rows: Rows, xs: seq<Input>, attempt: Hash)
    requires AbsorbAll(cfg, rows, xs).Some? && attempt !in rows.charges
    ensures AttemptTells(AbsorbAll(cfg, rows, xs).value, attempt,
                         TryCount(cfg, rows, xs, attempt), LastTry(cfg, rows, xs, attempt))
  {
    hide Absorb, Tries, AttemptTells;
    if xs == [] {
      NoAttempt(rows, attempt);
    } else {
      var front := xs[..|xs| - 1];
      AttemptsTellFailures(cfg, rows, front, attempt);
      AttemptStep(cfg, AbsorbAll(cfg, rows, front).value, xs[|xs| - 1], attempt,
                  TryCount(cfg, rows, front, attempt), LastTry(cfg, rows, front, attempt));
    }
  }

  lemma NoAttempt(rows: Rows, attempt: Hash)
    requires attempt !in rows.charges
    ensures AttemptTells(rows, attempt, 0, None)
  {
  }
}
