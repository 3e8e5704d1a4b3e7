/** The retry backoff: how far apart consecutive payment failures must be. */
module RetryBackoff {
  import opened Prelude
  import opened Chain
  import opened Ledger
  import opened Projection
  import opened Feed
  import opened Footprint
  import opened Billing

  /** The waits armed by the first `n` failures, added up. */
  function TotalWait(n: nat): int {
    if n == 0 then 0 else TotalWait(n - 1) + Backoff(n)
  }

  /** After the ladder of 15 minutes, 1, 3, 6 and 12 hours every further failure waits a day. */
  lemma {:induction false} TotalWaitClosedForm(n: nat)
    requires n >= 5
    ensures TotalWait(n) == 22 * HOUR + 15 * MINUTE + 24 * HOUR * (n - 5)
  {
    if n == 5 {
      assert TotalWait(4) == TotalWait(3) + Backoff(4) && TotalWait(3) == TotalWait(2) + Backoff(3);
      assert TotalWait(2) == TotalWait(1) + Backoff(2) && TotalWait(1) == TotalWait(0) + Backoff(1);
    } else {
      TotalWaitClosedForm(n - 1);
    }
  }

  /** The time of the first accepted failure of `sub` in the feed. */
  function FirstFailure(cfg: Config, rows: Rows, xs: seq<Input>, sub: int): Option<int> {
    if xs == [] then None
    else if FirstFailure(cfg, rows, xs[..|xs| - 1], sub).Some? then FirstFailure(cfg, rows, xs[..|xs| - 1], sub)
    else if AbsorbAll(cfg, rows, xs[..|xs| - 1]).Some?
      && Accepted(AbsorbAll(cfg, rows, xs[..|xs| - 1]).value, xs[|xs| - 1], sub)
    then Some(xs[|xs| - 1].time)
    else None
  }

  /** The input respects the armed retry time: an accepted failure is no earlier than `nextRetryAt`. */
  predicate OnTime(rows: Rows, x: Input, sub: int) {
    Accepted(rows, x, sub) ==>
      rows.subscriptions[sub].nextRetryAt.None? || rows.subscriptions[sub].nextRetryAt.value <= x.time
  }

  /** No charge of `sub` lands and every accepted failure is on time. */
  predicate Unpaid(cfg: Config, rows: Rows, xs: seq<Input>, sub: int) {
    xs == [] ||
    (Unpaid(cfg, rows, xs[..|xs| - 1], sub) &&
     (AbsorbAll(cfg, rows, xs[..|xs| - 1]).Some? ==>
        var r := AbsorbAll(cfg, rows, xs[..|xs| - 1]).value;
        OnTime(r, xs[|xs| - 1], sub) && !Settled(cfg, r, xs[|xs| - 1], sub)))
  }

  /** The retry state after the failures so far, the first of them at `first`. */
  predicate Armed(s: Subscription, first: Option<int>) {
    match first
    case None => s.retryCount == 0
    case Some(t) => s.retryCount >= 1 && s.nextRetryAt.Some? && s.nextRetryAt.value >= t + TotalWait(s.retryCount)
  }

  lemma RetryStep(cfg: Config, rows: Rows, x: Input, sub: int)
    requires Absorb(cfg, rows, x).Some? && sub in rows.subscriptions && !Settled(cfg, rows, x, sub)
    ensures var after := Absorb(cfg, rows, x).value;
      && sub in after.subscriptions
      && (var s, t := rows.subscriptions[sub], after.subscriptions[sub];
          if Accepted(rows, x, sub)
          then t.retryCount == s.retryCount + 1 && t.nextRetryAt == Some(x.time + Backoff(t.retryCount))
          else t.retryCount == s.retryCount && t.nextRetryAt == s.nextRetryAt)
  {
    hide Apply, Backoff;
    if x.Logged? && Apply(cfg, rows, x.lg, x.time).Written? {
      BillingStep(cfg, rows, x.lg, x.time);
    } else if x.Logged? {
      UnresolvableIsNotAccepted(cfg, rows, x.lg, x.time, sub);
    }
  }

  lemma {:induction false} BackoffAccumulates(cfg: Config, rows: Rows, xs: seq<Input>, sub: int)
    requires sub in rows.subscriptions && rows.subscriptions[sub].retryCount == 0
    requires AbsorbAll(cfg, rows, xs).Some? && Unpaid(cfg, rows, xs, sub)
    ensures var after := AbsorbAll(cfg, rows, xs).value;
      sub in after.subscriptions && Armed(after.subscriptions[sub], FirstFailure(cfg, rows, xs, sub))
  {
    hide Apply, Absorb, Accepted, Settled, Backoff;
    if xs != [] {
      BackoffAccumulates(cfg, rows, xs[..|xs| - 1], sub);
      var before, x := AbsorbAll(cfg, rows, xs[..|xs| - 1]).value, xs[|xs| - 1];
      RetryStep(cfg, before, x, sub);
      var n: nat := before.subscriptions[sub].retryCount;
      assert TotalWait(n + 1) == TotalWait(n) + Backoff(n + 1);
    }
  }

  /**
   Of consecutive payment failures that each wait for the armed retry, the `n`-th comes at least 22h15m plus a day
   for each failure beyond the sixth after the first, so no more than seven fit in the 48-hour grace window.
   */
  lemma BackoffBound(cfg: Config, rows: Rows, xs: seq<Input>, x: Input, sub: int)
    requires sub in rows.subscriptions && rows.subscriptions[sub].retryCount == 0
    requires AbsorbAll(cfg, rows, xs).Some? && Unpaid(cfg, rows, xs + [x], sub)
    requires Accepted(AbsorbAll(cfg, rows, xs).value, x, sub) && FirstFailure(cfg, rows, xs, sub).Some?
    ensures var n := AbsorbAll(cfg, rows, xs).value.subscriptions[sub].retryCount + 1;
      var waited := x.time - FirstFailure(cfg, rows, xs, sub).value;
      && waited >= TotalWait(n - 1)
      && (n >= 6 ==> waited >= 22 * HOUR + 15 * MINUTE + 24 * HOUR * (n - 6))
      && (waited <= 48 * HOUR ==> n <= 7)
  {
    hide Apply, Absorb, Settled, Backoff;
    assert (xs + [x])[..|xs + [x]| - 1] == xs;
    BackoffAccumulates(cfg, rows, xs, sub);
    var n := AbsorbAll(cfg, rows, xs).value.subscriptions[sub].retryCount + 1;
    if n >= 6 { TotalWaitClosedForm(n - 1); }
  }
}
