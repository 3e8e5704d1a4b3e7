/** One charge attempt: payment failures and the success may arrive in any order. */
module Races {
  import opened Prelude
  import opened Chain
  import opened Ledger
  import opened Projection
  import opened Feed
  import opened Footprint
  import opened Windows

  /** A payment-failure log of this subscription and attempt. */
  predicate FailureOf(x: Input, sub: int, attempt: Hash) {
    x.Logged? && x.lg.event.ChargeSkipped? && x.lg.event.sub == sub && x.lg.event.attempt == attempt
    && x.lg.event.outcome.IsPaymentFailure()
  }

  ghost predicate AllFailures(xs: seq<Input>, sub: int, attempt: Hash) {
    forall i :: 0 <= i < |xs| ==> FailureOf(xs[i], sub, attempt)
  }

  /** What the API and the scheduler read of a charge and its subscription once it is settled. */
  datatype View = View(
    status: ChargeStatus, outcome: ChargeOutcome, start: int, end: int, amount: string,
    executedAt: Option<int>, tx: Option<Hash>,
    subscription: SubscriptionStatus, retryCount: nat, nextRetryAt: Option<int>,
    periodStart: int, periodEnd: int, nextChargeAt: int)

  function ViewOf(rows: Rows, sub: int, attempt: Hash): View
    requires sub in rows.subscriptions && attempt in rows.charges
  {
    var c, s := rows.charges[attempt], rows.subscriptions[sub];
    View(c.status, c.outcome, c.periodStart, c.periodEnd, c.amount, c.executedAt, c.tx,
         s.status, s.retryCount, s.nextRetryAt, s.periodStart, s.periodEnd, s.nextChargeAt)
  }

  /** After the attempt is settled, a failure log of it changes nothing at all. */
  lemma FailureAfterSuccess(cfg: Config, rows: Rows, x: Input, sub: int, attempt: Hash)
    requires FailureOf(x, sub, attempt) && sub in rows.subscriptions
    requires attempt in rows.charges && rows.charges[attempt].status != Failed
    ensures Absorb(cfg, rows, x) == Some(rows)
  {
    assert Apply(cfg, rows, x.lg, x.time) == InsertChargeSkip(rows, x.time, x.lg.event);
  }

  lemma {:induction false} FailuresAfterSuccess(cfg: Config, rows: Rows, xs: seq<Input>, sub: int, attempt: Hash)
    requires AllFailures(xs, sub, attempt) && sub in rows.subscriptions
    requires attempt in rows.charges && rows.charges[attempt].status != Failed
    ensures AbsorbAll(cfg, rows, xs) == Some(rows)
  {
    hide Absorb;
    if xs != [] {
      FailuresAfterSuccess(cfg, rows, xs[..|xs| - 1], sub, attempt);
      FailureAfterSuccess(cfg, rows, xs[|xs| - 1], sub, attempt);
    }
  }

  /** `later` differs from `rows` only in ways a later success of the attempt overwrites. */
  predicate OnlyFailed(rows: Rows, later: Rows, sub: int, attempt: Hash) {
    && sub in rows.subscriptions && sub in later.subscriptions
    && (var s, t := rows.subscriptions[sub], later.subscriptions[sub];
        && t.(status := s.status, retryCount := s.retryCount, nextRetryAt := s.nextRetryAt) == s
        && (t.status == s.status || (s.Billable() && t.status == AtRisk)))
    && later.transactions == rows.transactions && later.merchants == rows.merchants
    && (if Fresh(rows.charges, attempt) then Fresh(later.charges, attempt)
        else attempt in later.charges && later.charges[attempt] == rows.charges[attempt])
  }

  lemma FailureOnlyFails(cfg: Config, rows: Rows, x: Input, sub: int, attempt: Hash)
    requires FailureOf(x, sub, attempt) && sub in rows.subscriptions
    ensures Absorb(cfg, rows, x).Some? && OnlyFailed(rows, Absorb(cfg, rows, x).value, sub, attempt)
  {
    var e := x.lg.event;
    assert Apply(cfg, rows, x.lg, x.time) == InsertChargeSkip(rows, x.time, e);
    if IsNewFailure(rows, attempt, e.outcome, x.time) {
      var after := RecordFailure(rows, x.time, e);
      assert Absorb(cfg, rows, x) == Some(after);
      assert after.subscriptions[sub] == Defaulted(rows.subscriptions[sub], x.time);
      assert after.charges[attempt] == FailedRow(rows, x.time, e);
    } else {
      assert Absorb(cfg, rows, x) == Some(rows);
    }
  }

  lemma {:induction false} FailuresOnlyFail(cfg: Config, rows: Rows, xs: seq<Input>, sub: int, attempt: Hash)
    requires AllFailures(xs, sub, attempt) && sub in rows.subscriptions
    ensures AbsorbAll(cfg, rows, xs).Some? && OnlyFailed(rows, AbsorbAll(cfg, rows, xs).value, sub, attempt)
  {
    hide Absorb;
    if xs != [] {
      FailuresOnlyFail(cfg, rows, xs[..|xs| - 1], sub, attempt);
      FailureOnlyFails(cfg, AbsorbAll(cfg, rows, xs[..|xs| - 1]).value, xs[|xs| - 1], sub, attempt);
    }
  }

  lemma ChargeOutcomeAgrees(cfg: Config, rows: Rows, later: Rows, lg: Log, time: int)
    requires lg.event.SubscriptionCharged? && OnlyFailed(rows, later, lg.event.sub, lg.event.attempt)
    ensures Apply(cfg, rows, lg, time).Written? == Apply(cfg, later, lg, time).Written?
    ensures Apply(cfg, rows, lg, time).Fatal? == Apply(cfg, later, lg, time).Fatal?
  {
    assert Apply(cfg, rows, lg, time) == InsertCharge(cfg, rows, lg, time, lg.event);
    assert Apply(cfg, later, lg, time) == InsertCharge(cfg, later, lg, time, lg.event);
    assert ChargeIsLinked(rows, lg.event.attempt) == ChargeIsLinked(later, lg.event.attempt);
  }

  lemma ChargeViewAgrees(cfg: Config, rows: Rows, later: Rows, lg: Log, time: int)
    requires lg.event.SubscriptionCharged? && OnlyFailed(rows, later, lg.event.sub, lg.event.attempt)
    requires Apply(cfg, rows, lg, time).Written? && Apply(cfg, later, lg, time).Written?
    ensures var e, a, b := lg.event, Apply(cfg, rows, lg, time).rows, Apply(cfg, later, lg, time).rows;
      && e.sub in a.subscriptions && e.sub in b.subscriptions && e.attempt in a.charges && e.attempt in b.charges
      && a.charges[e.attempt].status != Failed && b.charges[e.attempt].status != Failed
      && ViewOf(a, e.sub, e.attempt) == ViewOf(b, e.sub, e.attempt)
  {
    hide Apply;
    ChargedFootprint(cfg, rows, lg, time);
    ChargedFootprint(cfg, later, lg, time);
  }

  /**
   Success is absorbing and commutes with failure: a charge log gives the same settled view of its attempt and
   subscription, and lands in the same cases, whatever failure logs of the attempt come before and after it.
   */
  lemma SuccessCommutesWithFailure(
      cfg: Config, rows: Rows, before: seq<Input>, charge: Input, after: seq<Input>, sub: int, attempt: Hash)
    requires AllFailures(before, sub, attempt) && AllFailures(after, sub, attempt) && sub in rows.subscriptions
    requires charge.Logged? && charge.lg.event.SubscriptionCharged?
    requires charge.lg.event.sub == sub && charge.lg.event.attempt == attempt
    requires rows.subscriptions[sub].merchant in rows.merchants
    ensures AbsorbAll(cfg, rows, before + [charge] + after).Some? == Absorb(cfg, rows, charge).Some?
    ensures Absorb(cfg, rows, charge).Some? ==>
      var alone, raced := Absorb(cfg, rows, charge).value, AbsorbAll(cfg, rows, before + [charge] + after).value;
      && sub in alone.subscriptions && attempt in alone.charges && sub in raced.subscriptions
      && attempt in raced.charges
      && ViewOf(raced, sub, attempt) == ViewOf(alone, sub, attempt)
  {
    hide Apply, OnlyFailed, ViewOf;
    FailuresOnlyFail(cfg, rows, before, sub, attempt);
    var failed := AbsorbAll(cfg, rows, before).value;
    KnownSubscriptionCharges(cfg, rows, charge.lg, charge.time);
    ChargeOutcomeAgrees(cfg, rows, failed, charge.lg, charge.time);
    AbsorbConcat(cfg, rows, before + [charge], after);
    AbsorbOneMore(cfg, rows, before, charge);
    if Absorb(cfg, rows, charge).Some? {
      ChargeViewAgrees(cfg, rows, failed, charge.lg, charge.time);
      FailuresAfterSuccess(cfg, Absorb(cfg, failed, charge).value, after, sub, attempt);
    }
  }

  lemma AbsorbOneMore(cfg: Config, rows: Rows, xs: seq<Input>, x: Input)
    ensures AbsorbAll(cfg, rows, xs + [x]) ==
            if AbsorbAll(cfg, rows, xs).None? then None else Absorb(cfg, AbsorbAll(cfg, rows, xs).value, x)
  {
    hide Absorb;
    assert (xs + [x])[..|xs + [x]| - 1] == xs;
  }

  /** A charge of a subscription whose merchant row exists is never parked. */
  lemma KnownSubscriptionCharges(cfg: Config, rows: Rows, lg: Log, time: int)
    requires lg.event.SubscriptionCharged? && lg.event.sub in rows.subscriptions
    requires rows.subscriptions[lg.event.sub].merchant in rows.merchants
    ensures !Apply(cfg, rows, lg, time).Unresolvable?
  {
    assert Apply(cfg, rows, lg, time) == InsertCharge(cfg, rows, lg, time, lg.event);
  }
}
