/** Billing windows: what a feed's logs alone say about each period, and that the tables agree. */
module Windows {
  import opened Prelude
  import opened Chain
  import opened Ledger
  import opened Projection
  import opened Feed
  import opened Footprint
  import Decimal

  /** The current period and the start of the next charge's window. */
  datatype Plan = Plan(start: int, end: int, due: int)

  predicate Lands(cfg: Config, rows: Rows, x: Input) {
    x.Logged? && Apply(cfg, rows, x.lg, x.time).Written?
  }

  /** How one landed log of the subscription moves its plan; a charge pays from the due date on. */
  function Replan(p: Option<Plan>, lg: Log, time: int): Option<Plan> {
    match lg.event
    case SubscriptionCreated(_, _, _, _, _, interval, startAt) =>
      if p.Some? then p
      else if startAt > time then Some(Plan(time, startAt, startAt))
      else Some(Plan(startAt, startAt + interval, startAt))
    case SubscriptionCharged(_, _, _, _, _, next) => if p.Some? then Some(Plan(p.value.due, next, next)) else None
    case PeriodsSkipped(_, _, start) => if p.Some? then Some(p.value.(due := start)) else None
    case _ => p
  }

  function PlanOf(rows: Rows, sub: int): Option<Plan> {
    if sub in rows.subscriptions then
      Some(Plan(rows.subscriptions[sub].periodStart, rows.subscriptions[sub].periodEnd,
                rows.subscriptions[sub].nextChargeAt))
    else None
  }

  /** The plan the landed logs of `sub` spell out, one after another. */
  function Schedule(cfg: Config, rows: Rows, xs: seq<Input>, sub: int): Option<Plan> {
    if xs == [] then PlanOf(rows, sub)
    else
      match AbsorbAll(cfg, rows, xs[..|xs| - 1])
      case None => None
      case Some(r) =>
        var x := xs[|xs| - 1];
        if Lands(cfg, r, x) && Subject(x.lg) == Some(sub)
        then Replan(Schedule(cfg, rows, xs[..|xs| - 1], sub), x.lg, x.time)
        else Schedule(cfg, rows, xs[..|xs| - 1], sub)
  }

  lemma PlanStep(cfg: Config, rows: Rows, lg: Log, time: int, sub: int)
    requires Apply(cfg, rows, lg, time).Written?
    ensures PlanOf(Apply(cfg, rows, lg, time).rows, sub) ==
            if Subject(lg) == Some(sub) then Replan(PlanOf(rows, sub), lg, time) else PlanOf(rows, sub)
  {
    hide Apply;
    BillingStep(cfg, rows, lg, time);
  }

  /** Every subscription row carries the plan its landed logs spell out. */
  lemma {:induction false} RowsFollowSchedule(cfg: Config, rows: Rows, xs: seq<Input>, sub: int)
    requires AbsorbAll(cfg, rows, xs).Some?
    ensures PlanOf(AbsorbAll(cfg, rows, xs).value, sub) == Schedule(cfg, rows, xs, sub)
  {
    hide Apply, PlanOf, Replan;
    if xs != [] {
      RowsFollowSchedule(cfg, rows, xs[..|xs| - 1], sub);
      var before, x := AbsorbAll(cfg, rows, xs[..|xs| - 1]).value, xs[|xs| - 1];
      if Lands(cfg, before, x) {
        PlanStep(cfg, before, x.lg, x.time, sub);
      } else if x.Linked? {
        LinkKeepsPlans(before, x, sub);
      }
    }
  }

  lemma LinkKeepsPlans(rows: Rows, x: Input, sub: int)
    requires x.Linked?
    ensures PlanOf(LinkOutside(rows, x.merchant, x.onchainId), sub) == PlanOf(rows, sub)
  {
  }

  // ----- Charge windows -----

  /** The `i`-th input is a charge that reached the tables. */
  ghost predicate LandedCharge(cfg: Config, rows: Rows, xs: seq<Input>, i: int) {
    && 0 <= i < |xs| && AbsorbAll(cfg, rows, xs[..i]).Some?
    && Lands(cfg, AbsorbAll(cfg, rows, xs[..i]).value, xs[i]) && xs[i].lg.event.SubscriptionCharged?
  }

  predicate Fresh(charges: map<Hash, Charge>, attempt: Hash) {
    attempt !in charges || charges[attempt].status == Failed
  }

  /** No attempt id is charged twice, nor was it settled before the feed. */
  ghost predicate ChargedOnce(cfg: Config, rows: Rows, xs: seq<Input>) {
    && (forall i :: LandedCharge(cfg, rows, xs, i) ==> Fresh(rows.charges, xs[i].lg.event.attempt))
    && (forall i, j :: i < j && LandedCharge(cfg, rows, xs, i) && LandedCharge(cfg, rows, xs, j) ==>
          xs[i].lg.event.attempt != xs[j].lg.event.attempt)
  }

  /** The settled row: the log's own amount, transaction and block time, with a window up to its own next date. */
  predicate SettledRow(lg: Log, time: int, c: Charge)
    requires lg.event.SubscriptionCharged?
  {
    && c.status == Succeeded && c.outcome == Charged && Decimal.ParseInteger(c.amount) == Some(lg.event.amount)
    && c.executedAt == Some(time) && c.tx == Some(lg.tx) && c.periodEnd == lg.event.nextChargeAt
  }

  /** A first attempt is the subscription's; one that had failed keeps whose it was and how often it was tried. */
  predicate AttemptOf(rows: Rows, lg: Log, time: int, c: Charge)
    requires lg.event.SubscriptionCharged? && lg.event.sub in rows.subscriptions
  {
    var e, s := lg.event, rows.subscriptions[lg.event.sub];
    if e.attempt in rows.charges then
      var before := rows.charges[e.attempt];
      c.sub == before.sub && c.merchant == before.merchant && c.currency == before.currency
      && c.attemptNumber == before.attemptNumber && c.scheduledAt == before.scheduledAt
    else
      c.sub == e.sub && c.merchant == s.merchant && c.currency == (if s.currency == "" then "USDC" else s.currency)
      && c.attemptNumber == 1 && c.scheduledAt == time
  }

  /** The charge row records a success over the window from the due date at `i` to the log's own next date. */
  ghost predicate PaidWindow(cfg: Config, rows: Rows, xs: seq<Input>, i: int, after: Rows)
    requires LandedCharge(cfg, rows, xs, i)
  {
    var e := xs[i].lg.event;
    && e.attempt in after.charges
    && SettledRow(xs[i].lg, xs[i].time, after.charges[e.attempt])
    && e.sub in AbsorbAll(cfg, rows, xs[..i]).value.subscriptions
    && AttemptOf(AbsorbAll(cfg, rows, xs[..i]).value, xs[i].lg, xs[i].time, after.charges[e.attempt])
    && Schedule(cfg, rows, xs[..i], e.sub).Some?
    && after.charges[e.attempt].periodStart == Schedule(cfg, rows, xs[..i], e.sub).value.due
    && after.charges[e.attempt].periodEnd == e.nextChargeAt
  }

  lemma LandedInPrefix(cfg: Config, rows: Rows, xs: seq<Input>, i: int)
    requires xs != [] && 0 <= i < |xs| - 1
    ensures xs[..|xs| - 1][..i] == xs[..i]
    ensures LandedCharge(cfg, rows, xs[..|xs| - 1], i) == LandedCharge(cfg, rows, xs, i)
  {
    assert xs[..|xs| - 1][..i] == xs[..i];
  }

  /** A settled row is never rewritten by a log that does not charge its attempt. */
  lemma SettledRowStays(cfg: Config, rows: Rows, x: Input, attempt: Hash)
    requires Absorb(cfg, rows, x).Some?
    requires attempt in rows.charges && rows.charges[attempt].status != Failed
    ensures var after := Absorb(cfg, rows, x).value;
      attempt in after.charges && after.charges[attempt] == rows.charges[attempt]
  {
    hide Apply;
    if Lands(cfg, rows, x) { ChargeStep(cfg, rows, x.lg, x.time); }
  }

  /** Only a charge settles an attempt. */
  lemma OnlyChargesSettle(cfg: Config, rows: Rows, x: Input, attempt: Hash)
    requires Absorb(cfg, rows, x).Some? && Fresh(rows.charges, attempt)
    requires !(Lands(cfg, rows, x) && x.lg.event.SubscriptionCharged? && x.lg.event.attempt == attempt)
    ensures Fresh(Absorb(cfg, rows, x).value.charges, attempt)
  {
    hide Apply;
    if Lands(cfg, rows, x) { ChargeStep(cfg, rows, x.lg, x.time); }
  }

  lemma {:induction false} StaysFresh(cfg: Config, rows: Rows, xs: seq<Input>, attempt: Hash)
    requires AbsorbAll(cfg, rows, xs).Some? && Fresh(rows.charges, attempt)
    requires forall i :: LandedCharge(cfg, rows, xs, i) ==> xs[i].lg.event.attempt != attempt
    ensures Fresh(AbsorbAll(cfg, rows, xs).value.charges, attempt)
  {
    hide Apply, Absorb, Fresh;
    if xs != [] {
      var front := xs[..|xs| - 1];
      forall i | LandedCharge(cfg, rows, front, i) ensures front[i].lg.event.attempt != attempt {
        LandedInPrefix(cfg, rows, xs, i);
      }
      StaysFresh(cfg, rows, front, attempt);
      assert Lands(cfg, AbsorbAll(cfg, rows, front).value, xs[|xs| - 1]) && xs[|xs| - 1].lg.event.SubscriptionCharged?
             ==> LandedCharge(cfg, rows, xs, |xs| - 1);
      OnlyChargesSettle(cfg, AbsorbAll(cfg, rows, front).value, xs[|xs| - 1], attempt);
    }
  }

  /** The charge that lands on a fresh attempt records the window from the due date. */
  lemma ChargeRecordsWindow(cfg: Config, rows: Rows, lg: Log, time: int)
    requires lg.event.SubscriptionCharged? && Apply(cfg, rows, lg, time).Written?
    requires Fresh(rows.charges, lg.event.attempt)
    ensures var after, e := Apply(cfg, rows, lg, time).rows, lg.event;
      && e.attempt in after.charges && SettledRow(lg, time, after.charges[e.attempt])
      && e.sub in rows.subscriptions && AttemptOf(rows, lg, time, after.charges[e.attempt])
      && PlanOf(rows, e.sub).Some? && after.charges[e.attempt].periodStart == PlanOf(rows, e.sub).value.due
      && after.charges[e.attempt].periodEnd == e.nextChargeAt
  {
    Decimal.ParsePrint(lg.event.amount);
    hide Apply, Decimal.Print, Decimal.ParseInteger, NextSubscription;
    ChargedFootprint(cfg, rows, lg, time);
  }

  /**
   Every charge that landed keeps, to the end of the feed, the window that starts where the subscription was
   due when the charge arrived and ends at the charge's own next date.
   */
  lemma {:induction false} ChargesKeepTheirWindows(cfg: Config, rows: Rows, xs: seq<Input>)
    requires AbsorbAll(cfg, rows, xs).Some? && ChargedOnce(cfg, rows, xs)
    ensures forall i :: LandedCharge(cfg, rows, xs, i) ==> PaidWindow(cfg, rows, xs, i, AbsorbAll(cfg, rows, xs).value)
  {
    hide Apply, Absorb, Fresh, Subject, Replan;
    if xs != [] {
      var front, last := xs[..|xs| - 1], |xs| - 1;
      forall i | LandedCharge(cfg, rows, front, i) ensures LandedCharge(cfg, rows, xs, i) && front[i] == xs[i] {
        LandedInPrefix(cfg, rows, xs, i);
      }
      ChargesKeepTheirWindows(cfg, rows, front);
      var before := AbsorbAll(cfg, rows, front).value;
      forall i | LandedCharge(cfg, rows, xs, i) ensures PaidWindow(cfg, rows, xs, i, AbsorbAll(cfg, rows, xs).value) {
        if i < last {
          LandedInPrefix(cfg, rows, xs, i);
          assert PaidWindow(cfg, rows, front, i, before);
          SettledRowStays(cfg, before, xs[last], xs[i].lg.event.attempt);
        } else {
          StaysFresh(cfg, rows, front, xs[last].lg.event.attempt);
          RowsFollowSchedule(cfg, rows, front, xs[last].lg.event.sub);
          LandedChargeApplies(cfg, before, xs[last]);
          ChargeRecordsWindow(cfg, before, xs[last].lg, xs[last].time);
        }
      }
    }
  }

  lemma LandedChargeApplies(cfg: Config, rows: Rows, x: Input)
    requires Lands(cfg, rows, x)
    ensures Apply(cfg, rows, x.lg, x.time).Written?
    ensures Absorb(cfg, rows, x) == Some(Apply(cfg, rows, x.lg, x.time).rows)
  {
    hide Apply;
  }

  /** The input moves where the next window of `sub` starts. */
  predicate MovesDue(cfg: Config, rows: Rows, x: Input, sub: int) {
    Lands(cfg, rows, x) && Subject(x.lg) == Some(sub) && (x.lg.event.SubscriptionCharged? || x.lg.event.PeriodsSkipped?)
  }

  lemma {:induction false} DueStands(cfg: Config, rows: Rows, xs: seq<Input>, i: nat, sub: int)
    requires i <= |xs| && AbsorbAll(cfg, rows, xs).Some? && Schedule(cfg, rows, xs[..i], sub).Some?
    requires forall k :: i <= k < |xs| && AbsorbAll(cfg, rows, xs[..k]).Some? ==>
               !MovesDue(cfg, AbsorbAll(cfg, rows, xs[..k]).value, xs[k], sub)
    ensures Schedule(cfg, rows, xs, sub).Some?
    ensures Schedule(cfg, rows, xs, sub).value.due == Schedule(cfg, rows, xs[..i], sub).value.due
    decreases |xs|
  {
    hide Apply, Lands;
    if i == |xs| {
      assert xs[..i] == xs;
    } else {
      var front := xs[..|xs| - 1];
      assert front[..i] == xs[..i];
      forall k | i <= k < |front| && AbsorbAll(cfg, rows, front[..k]).Some?
        ensures !MovesDue(cfg, AbsorbAll(cfg, rows, front[..k]).value, front[k], sub)
      {
        assert front[..k] == xs[..k];
      }
      DueStands(cfg, rows, front, i, sub);
      assert xs[..|xs| - 1] == front && front == xs[..|front|];
    }
  }

  lemma {:induction false} PrefixesAbsorb(cfg: Config, rows: Rows, xs: seq<Input>, k: nat)
    requires k <= |xs| && AbsorbAll(cfg, rows, xs).Some?
    ensures AbsorbAll(cfg, rows, xs[..k]).Some?
    decreases |xs|
  {
    hide Apply, Absorb;
    if k < |xs| {
      assert xs[..|xs| - 1][..k] == xs[..k];
      PrefixesAbsorb(cfg, rows, xs[..|xs| - 1], k);
    } else {
      assert xs[..k] == xs;
    }
  }

  lemma DueStandsUntil(cfg: Config, rows: Rows, xs: seq<Input>, i: nat, j: nat, sub: int)
    requires i <= j <= |xs| && AbsorbAll(cfg, rows, xs).Some? && Schedule(cfg, rows, xs[..i], sub).Some?
    requires forall k :: i <= k < j && AbsorbAll(cfg, rows, xs[..k]).Some? ==>
               !MovesDue(cfg, AbsorbAll(cfg, rows, xs[..k]).value, xs[k], sub)
    ensures Schedule(cfg, rows, xs[..j], sub).Some?
    ensures Schedule(cfg, rows, xs[..j], sub).value.due == Schedule(cfg, rows, xs[..i], sub).value.due
  {
    hide Apply, Absorb, AbsorbAll, Schedule, MovesDue;
    PrefixesAbsorb(cfg, rows, xs, j);
    var upTo := xs[..j];
    assert upTo[..i] == xs[..i];
    forall k | i <= k < j && AbsorbAll(cfg, rows, upTo[..k]).Some?
      ensures !MovesDue(cfg, AbsorbAll(cfg, rows, upTo[..k]).value, upTo[k], sub)
    {
      assert upTo[..k] == xs[..k];
    }
    DueStands(cfg, rows, upTo, i, sub);
  }

  /**
   Windows tile: of two charges of a subscription with no charge and no skipped-periods log of it between them,
   the later window starts exactly where the earlier one ends.
   */
  lemma WindowsTile(cfg: Config, rows: Rows, xs: seq<Input>, i: int, j: int)
    requires AbsorbAll(cfg, rows, xs).Some? && ChargedOnce(cfg, rows, xs)
    requires i < j && LandedCharge(cfg, rows, xs, i) && LandedCharge(cfg, rows, xs, j)
    requires xs[i].lg.event.sub == xs[j].lg.event.sub
    requires forall k :: i < k < j && AbsorbAll(cfg, rows, xs[..k]).Some? ==>
               !MovesDue(cfg, AbsorbAll(cfg, rows, xs[..k]).value, xs[k], xs[i].lg.event.sub)
    ensures var charges := AbsorbAll(cfg, rows, xs).value.charges;
      && xs[i].lg.event.attempt in charges && xs[j].lg.event.attempt in charges
      && charges[xs[j].lg.event.attempt].periodStart == charges[xs[i].lg.event.attempt].periodEnd
  {
    hide Apply, Absorb;
    ChargesKeepTheirWindows(cfg, rows, xs);
    var after, sub := AbsorbAll(cfg, rows, xs).value, xs[i].lg.event.sub;
    assert PaidWindow(cfg, rows, xs, i, after) && PaidWindow(cfg, rows, xs, j, after);
    PrefixesAbsorb(cfg, rows, xs, i + 1);
    assert xs[..i + 1][..i] == xs[..i] && xs[..i + 1][i] == xs[i];
    PlanAfterCharge(cfg, rows, xs[..i + 1]);
    DueStandsUntil(cfg, rows, xs, i + 1, j, sub);
  }

  lemma DueAfterEnrolment(cfg: Config, rows: Rows, xs: seq<Input>)
    requires xs != [] && AbsorbAll(cfg, rows, xs[..|xs| - 1]).Some?
    requires Lands(cfg, AbsorbAll(cfg, rows, xs[..|xs| - 1]).value, xs[|xs| - 1])
      && xs[|xs| - 1].lg.event.SubscriptionCreated?
    requires xs[|xs| - 1].lg.event.sub !in AbsorbAll(cfg, rows, xs[..|xs| - 1]).value.subscriptions
    ensures Schedule(cfg, rows, xs, xs[|xs| - 1].lg.event.sub).Some?
    ensures Schedule(cfg, rows, xs, xs[|xs| - 1].lg.event.sub).value.due == xs[|xs| - 1].lg.event.startAt
  {
    hide Apply, Absorb;
    RowsFollowSchedule(cfg, rows, xs[..|xs| - 1], xs[|xs| - 1].lg.event.sub);
  }

  /** The first charge after an enrolment that landed starts at the enrolment's own start date. */
  lemma FirstWindowStartsAtStart(cfg: Config, rows: Rows, xs: seq<Input>, i: nat, j: int)
    requires AbsorbAll(cfg, rows, xs).Some? && ChargedOnce(cfg, rows, xs)
    requires i < j && LandedCharge(cfg, rows, xs, j) && AbsorbAll(cfg, rows, xs[..i]).Some?
    requires Lands(cfg, AbsorbAll(cfg, rows, xs[..i]).value, xs[i]) && xs[i].lg.event.SubscriptionCreated?
    requires xs[i].lg.event.sub == xs[j].lg.event.sub
    requires xs[i].lg.event.sub !in AbsorbAll(cfg, rows, xs[..i]).value.subscriptions
    requires forall k :: i < k < j && AbsorbAll(cfg, rows, xs[..k]).Some? ==>
               !MovesDue(cfg, AbsorbAll(cfg, rows, xs[..k]).value, xs[k], xs[i].lg.event.sub)
    ensures var charges := AbsorbAll(cfg, rows, xs).value.charges;
      && xs[j].lg.event.attempt in charges
      && charges[xs[j].lg.event.attempt].periodStart == xs[i].lg.event.startAt
  {
    hide Apply, Absorb, Replan, Schedule, AbsorbAll, ChargedOnce;
    var sub := xs[i].lg.event.sub;
    ChargesKeepTheirWindows(cfg, rows, xs);
    assert PaidWindow(cfg, rows, xs, j, AbsorbAll(cfg, rows, xs).value);
    var start := xs[..i + 1];
    assert start[..i] == xs[..i];
    DueAfterEnrolment(cfg, rows, start);
    DueStandsUntil(cfg, rows, xs, i + 1, j, sub);
  }

  // ----- The current period -----

  lemma {:induction false} PeriodStands(cfg: Config, rows: Rows, xs: seq<Input>, i: nat, sub: int)
    requires i <= |xs| && AbsorbAll(cfg, rows, xs).Some? && Schedule(cfg, rows, xs[..i], sub).Some?
    requires forall k :: i <= k && LandedCharge(cfg, rows, xs, k) ==> xs[k].lg.event.sub != sub
    ensures var p, q := Schedule(cfg, rows, xs[..i], sub), Schedule(cfg, rows, xs, sub);
      q.Some? && q.value.start == p.value.start && q.value.end == p.value.end
    decreases |xs|
  {
    hide Apply;
    if i == |xs| {
      assert xs[..i] == xs;
    } else {
      var front, last := xs[..|xs| - 1], |xs| - 1;
      assert front[..i] == xs[..i];
      forall k | i <= k && LandedCharge(cfg, rows, front, k) ensures front[k].lg.event.sub != sub {
        LandedInPrefix(cfg, rows, xs, k);
      }
      PeriodStands(cfg, rows, front, i, sub);
      assert Lands(cfg, AbsorbAll(cfg, rows, front).value, xs[last]) && xs[last].lg.event.SubscriptionCharged? ==>
        LandedCharge(cfg, rows, xs, last);
    }
  }

  lemma PlanAfterCharge(cfg: Config, rows: Rows, xs: seq<Input>)
    requires LandedCharge(cfg, rows, xs, |xs| - 1)
    requires Schedule(cfg, rows, xs[..|xs| - 1], xs[|xs| - 1].lg.event.sub).Some?
    ensures var e := xs[|xs| - 1].lg.event;
      Schedule(cfg, rows, xs, e.sub) ==
      Some(Plan(Schedule(cfg, rows, xs[..|xs| - 1], e.sub).value.due, e.nextChargeAt, e.nextChargeAt))
  {
    hide Apply;
  }

  /**
   The current period is the latest charge's: while no later charge of the subscription lands, its row carries the
   window of that charge's row, and the window's end is the next due date unless a skipped-periods log moved it.
   */
  lemma LatestChargeIsCurrent(cfg: Config, rows: Rows, xs: seq<Input>, i: int)
    requires AbsorbAll(cfg, rows, xs).Some? && ChargedOnce(cfg, rows, xs) && LandedCharge(cfg, rows, xs, i)
    requires forall k :: i < k && LandedCharge(cfg, rows, xs, k) ==> xs[k].lg.event.sub != xs[i].lg.event.sub
    ensures var e, after := xs[i].lg.event, AbsorbAll(cfg, rows, xs).value;
      && e.sub in after.subscriptions && e.attempt in after.charges
      && after.subscriptions[e.sub].periodStart == after.charges[e.attempt].periodStart
      && after.subscriptions[e.sub].periodEnd == after.charges[e.attempt].periodEnd == e.nextChargeAt
      && ((forall k :: i < k < |xs| && AbsorbAll(cfg, rows, xs[..k]).Some? ==>
             !MovesDue(cfg, AbsorbAll(cfg, rows, xs[..k]).value, xs[k], e.sub)) ==>
          after.subscriptions[e.sub].nextChargeAt == after.subscriptions[e.sub].periodEnd)
  {
    hide Apply, Absorb, Replan, Schedule, AbsorbAll, ChargedOnce, MovesDue;
    var e, upTo := xs[i].lg.event, xs[..i + 1];
    ChargesKeepTheirWindows(cfg, rows, xs);
    assert PaidWindow(cfg, rows, xs, i, AbsorbAll(cfg, rows, xs).value);
    assert upTo[..i] == xs[..i] && upTo[i] == xs[i];
    PlanAfterCharge(cfg, rows, upTo);
    PeriodStands(cfg, rows, xs, i + 1, e.sub);
    RowsFollowSchedule(cfg, rows, xs, e.sub);
    if forall k :: i < k < |xs| && AbsorbAll(cfg, rows, xs[..k]).Some? ==>
         !MovesDue(cfg, AbsorbAll(cfg, rows, xs[..k]).value, xs[k], e.sub) {
      DueStands(cfg, rows, xs, i + 1, e.sub);
    }
  }
}
