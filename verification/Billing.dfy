/** Invariants of the subscription state machine over every feed. */
module Billing {
  import opened Prelude
  import opened Chain
  import opened Ledger
  import opened Projection
  import opened Feed
  import opened Footprint

  // ----- Status invariant -----

  /** Only a subscription at risk has failures to its name. */
  predicate Sound(s: Subscription) {
    && ((s.status == Trialing || s.status == Active) ==> s.retryCount == 0 && s.nextRetryAt.None?)
    && (s.status == AtRisk ==> s.retryCount >= 1 && s.nextRetryAt.Some?)
  }

  ghost predicate AllSound(rows: Rows) {
    forall s :: s in rows.subscriptions ==> Sound(rows.subscriptions[s])
  }

  /** The input is a payment failure of `sub` that the ledger has not seen and that can still be billed. */
  predicate Accepted(rows: Rows, x: Input, sub: int) {
    && x.Logged? && x.lg.event.ChargeSkipped? && x.lg.event.sub == sub
    && x.lg.event.outcome.IsPaymentFailure()
    && sub in rows.subscriptions && rows.subscriptions[sub].Billable()
    && IsNewFailure(rows, x.lg.event.attempt, x.lg.event.outcome, x.time)
  }

  /** The input is a charge of `sub` that reached the tables. */
  predicate Settled(cfg: Config, rows: Rows, x: Input, sub: int) {
    && x.Logged? && x.lg.event.SubscriptionCharged? && x.lg.event.sub == sub
    && Apply(cfg, rows, x.lg, x.time).Written?
  }

  /** Payment failures of `sub` accepted since its last charge or enrolment. */
  function Streak(cfg: Config, rows: Rows, xs: seq<Input>, sub: int): nat {
    if xs == [] then (if sub in rows.subscriptions then rows.subscriptions[sub].retryCount else 0)
    else
      var before := Streak(cfg, rows, xs[..|xs| - 1], sub);
      match AbsorbAll(cfg, rows, xs[..|xs| - 1])
      case None => 0
      case Some(r) =>
        var x := xs[|xs| - 1];
        if sub !in r.subscriptions || Settled(cfg, r, x, sub) then 0
        else if Accepted(r, x, sub) then before + 1
        else before
  }

  /** What one log can do to one subscription row. */
  lemma SubscriptionStep(cfg: Config, rows: Rows, lg: Log, time: int, sub: int)
    requires Apply(cfg, rows, lg, time).Written?
    ensures var after := Apply(cfg, rows, lg, time).rows;
      && (sub in rows.subscriptions ==> sub in after.subscriptions)
      && (sub in after.subscriptions && sub !in rows.subscriptions ==>
            Sound(after.subscriptions[sub]) && after.subscriptions[sub].retryCount == 0)
      && (sub in rows.subscriptions ==>
            var s, t := rows.subscriptions[sub], after.subscriptions[sub];
            && (Sound(s) ==> Sound(t))
            && t.retryCount == (if Settled(cfg, rows, Logged(lg, time), sub) then 0
                                else if Accepted(rows, Logged(lg, time), sub) then s.retryCount + 1 else s.retryCount)
            && (IsOver(s) ==> t.status == s.status))
  {
    hide Apply;
    BillingStep(cfg, rows, lg, time);
  }

  lemma InputStep(cfg: Config, rows: Rows, x: Input, sub: int)
    requires Absorb(cfg, rows, x).Some?
    ensures var after := Absorb(cfg, rows, x).value;
      && (sub in rows.subscriptions ==> sub in after.subscriptions)
      && (sub in after.subscriptions && sub !in rows.subscriptions ==>
            Sound(after.subscriptions[sub]) && after.subscriptions[sub].retryCount == 0)
      && (sub in rows.subscriptions ==>
            var s, t := rows.subscriptions[sub], after.subscriptions[sub];
            && (Sound(s) ==> Sound(t))
            && t.retryCount == (if Settled(cfg, rows, x, sub) then 0
                                else if Accepted(rows, x, sub) then s.retryCount + 1 else s.retryCount)
            && (IsOver(s) ==> t.status == s.status))
  {
    hide Apply;
    if x.Logged? && Apply(cfg, rows, x.lg, x.time).Written? {
      SubscriptionStep(cfg, rows, x.lg, x.time, sub);
    } else if x.Logged? {
      UnresolvableIsNotAccepted(cfg, rows, x.lg, x.time, sub);
    }
  }

  /** A failed charge of an existing subscription is always projected. */
  lemma UnresolvableIsNotAccepted(cfg: Config, rows: Rows, lg: Log, time: int, sub: int)
    requires Apply(cfg, rows, lg, time).Unresolvable?
    ensures !Accepted(rows, Logged(lg, time), sub)
  {
    if lg.event.ChargeSkipped? {
      assert Apply(cfg, rows, lg, time) == InsertChargeSkip(rows, time, lg.event);
    }
  }

  /**
   Over every feed: only at-risk subscriptions have armed retries, the retry counter is the number of
   payment failures accepted since the last charge or enrolment, and nothing leaves `cancelled` or `lapsed`.
   */
  lemma {:induction false} StatusInvariant(cfg: Config, rows: Rows, xs: seq<Input>)
    requires AllSound(rows) && AbsorbAll(cfg, rows, xs).Some?
    ensures var after := AbsorbAll(cfg, rows, xs).value;
      && AllSound(after)
      && (forall s :: s in after.subscriptions ==> after.subscriptions[s].retryCount == Streak(cfg, rows, xs, s))
      && (forall s :: s in rows.subscriptions ==> s in after.subscriptions)
      && (forall s :: s in rows.subscriptions && IsOver(rows.subscriptions[s]) ==>
            after.subscriptions[s].status == rows.subscriptions[s].status)
  {
    hide Apply, Absorb, Settled, Accepted, IsOver, Sound;
    if xs != [] {
      var front, x := xs[..|xs| - 1], xs[|xs| - 1];
      StatusInvariant(cfg, rows, front);
      var before := AbsorbAll(cfg, rows, front).value;
      var after := AbsorbAll(cfg, rows, xs).value;
      forall s: int | s in after.subscriptions
        ensures Sound(after.subscriptions[s]) && after.subscriptions[s].retryCount == Streak(cfg, rows, xs, s)
      {
        InputStep(cfg, before, x, s);
      }
      forall s: int | s in rows.subscriptions
        ensures s in after.subscriptions
        ensures IsOver(rows.subscriptions[s]) ==> after.subscriptions[s].status == rows.subscriptions[s].status
      {
        InputStep(cfg, before, x, s);
        SameStatusSameEnd(rows.subscriptions[s], before.subscriptions[s]);
      }
    }
  }

  lemma SameStatusSameEnd(s: Subscription, t: Subscription)
    ensures s.status == t.status ==> IsOver(s) == IsOver(t)
  {
  }

  /** Scheduler noise is recorded as a charge row and changes no subscription. */
  lemma NoiseLeavesSubscriptions(cfg: Config, rows: Rows, lg: Log, time: int)
    requires lg.event.ChargeSkipped? && !lg.event.outcome.IsPaymentFailure()
    requires Apply(cfg, rows, lg, time).Written?
    ensures var after := Apply(cfg, rows, lg, time).rows;
      && after.subscriptions == rows.subscriptions && after.outbox == rows.outbox
      && lg.event.attempt in after.charges
  {
    assert Apply(cfg, rows, lg, time) == InsertChargeSkip(rows, time, lg.event);
    if IsNewFailure(rows, lg.event.attempt, lg.event.outcome, time) {
      assert Apply(cfg, rows, lg, time).rows == RecordFailure(rows, time, lg.event);
    } else {
      assert Apply(cfg, rows, lg, time).rows == rows;
    }
  }
}
