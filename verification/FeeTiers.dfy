/** The plan table, the volume that reaches a plan, and the tiered fee estimate, in exact arithmetic. */
module FeeTiers {
  import opened Prelude

  datatype Plan = Free | Starter | Growth | Enterprise

  datatype Token = USDC | EURC

  datatype Definition = Definition(feeBps: Option<nat>, entersAtVolume: Option<nat>)

  function Plans(plan: Plan): Definition {
    match plan
    case Free => Definition(Some(0), Some(0))
    case Starter => Definition(Some(50), Some(1_000))
    case Growth => Definition(Some(40), Some(50_000))
    case Enterprise => Definition(None, None)
  }

  const VOLUME_PLANS := [Free, Starter, Growth]
  const PAYMENT_TOKENS := {USDC, EURC}
  const FEE_CEILING_BPS := 50

  function OrZero(n: Option<nat>): nat { if n.Some? then n.value else 0 }

  function Rank(plan: Plan): nat {
    match plan case Free => 0 case Starter => 1 case Growth => 2 case Enterprise => 3
  }

  // ----- The plan a volume reaches -----

  datatype Volumes = Volumes(usdc: int, eurc: int) {
    function Of(token: Token): int { if token == USDC then usdc else eurc }
  }

  const DECIMALS := 6

  function Power10(k: nat): nat { if k == 0 then 1 else 10 * Power10(k - 1) }

  function ThresholdInBaseUnits(plan: Plan): nat
    requires plan != Enterprise
  {
    OrZero(Plans(plan).entersAtVolume) * Power10(DECIMALS)
  }

  /** Volumes are not added up across tokens: one of them has to reach the threshold by itself. */
  predicate Reaches(volumes: Volumes, plan: Plan)
    requires plan != Enterprise
  {
    exists token :: token in PAYMENT_TOKENS && volumes.Of(token) >= ThresholdInBaseUnits(plan)
  }

  /** The highest plan reached, or the free plan. */
  function HighestReached(volumes: Volumes): (plan: Plan)
    ensures plan != Enterprise
    ensures plan == Free || Reaches(volumes, plan)
    ensures forall p :: p in VOLUME_PLANS && Rank(p) > Rank(plan) ==> !Reaches(volumes, p)
  {
    if Reaches(volumes, Growth) then Growth else if Reaches(volumes, Starter) then Starter else Free
  }

  lemma ReachedIsUnique(volumes: Volumes, plan: Plan)
    requires plan in VOLUME_PLANS && (plan == Free || Reaches(volumes, plan))
    requires forall p :: p in VOLUME_PLANS && Rank(p) > Rank(plan) ==> !Reaches(volumes, p)
    ensures plan == HighestReached(volumes)
  {
    assert HighestReached(volumes) in VOLUME_PLANS;
  }

  method PlanForVolume(volumes: Volumes) returns (reached: Plan)
    ensures reached == HighestReached(volumes)
  {
    reached := Free;
    for i := 0 to |VOLUME_PLANS|
      invariant reached in VOLUME_PLANS && (reached == Free || Reaches(volumes, reached))
      invariant forall j :: 0 <= j < i && Rank(VOLUME_PLANS[j]) > Rank(reached) ==> !Reaches(volumes, VOLUME_PLANS[j])
      invariant i > 0 ==> Rank(reached) < i
    {
      if Reaches(volumes, VOLUME_PLANS[i]) { reached := VOLUME_PLANS[i]; }
    }
    ReachedIsUnique(volumes, reached);
  }

  /** The thresholds in base units of a token with six decimals: a thousand and fifty thousand whole units of either. */
  lemma ReachedInUnits(volumes: Volumes)
    ensures HighestReached(volumes) ==
      if volumes.usdc >= 50_000_000_000 || volumes.eurc >= 50_000_000_000 then Growth
      else if volumes.usdc >= 1_000_000_000 || volumes.eurc >= 1_000_000_000 then Starter
      else Free
  {
    assert Power10(6) == 1_000_000 by { assert Power10(3) == 1_000; }
    assert ThresholdInBaseUnits(Starter) == 1_000_000_000 && ThresholdInBaseUnits(Growth) == 50_000_000_000;
    forall plan | plan in {Starter, Growth}
      ensures Reaches(volumes, plan) <==>
        volumes.usdc >= ThresholdInBaseUnits(plan) || volumes.eurc >= ThresholdInBaseUnits(plan)
    {
      assert volumes.Of(USDC) == volumes.usdc && volumes.Of(EURC) == volumes.eurc;
      assert USDC in PAYMENT_TOKENS && EURC in PAYMENT_TOKENS;
    }
  }

  /** More volume never lowers the plan. */
  lemma PlanGrowsWithVolume(a: Volumes, b: Volumes)
    requires a.usdc <= b.usdc && a.eurc <= b.eurc
    ensures Rank(HighestReached(a)) <= Rank(HighestReached(b))
  {
    var plan := HighestReached(a);
    if plan != Free {
      var token :| token in PAYMENT_TOKENS && a.Of(token) >= ThresholdInBaseUnits(plan);
      assert b.Of(token) >= ThresholdInBaseUnits(plan);
      assert Reaches(b, plan) && plan in VOLUME_PLANS;
    }
  }

  function PlanUpgradeFor(current: Plan, volumes: Volumes): (upgrade: Option<Plan>)
    ensures upgrade.Some? ==> Rank(current) < Rank(upgrade.value) && upgrade.value != Enterprise
  {
    if current == Enterprise then None
    else if Rank(HighestReached(volumes)) > Rank(current) then Some(HighestReached(volumes)) else None
  }

  /** Who moves where: a free merchant to whatever is reached, a starter to growth, and no one else. */
  lemma UpgradesByPlan(volumes: Volumes)
    ensures PlanUpgradeFor(Free, volumes) ==
      if HighestReached(volumes) == Free then None else Some(HighestReached(volumes))
    ensures PlanUpgradeFor(Starter, volumes) == if HighestReached(volumes) == Growth then Some(Growth) else None
    ensures PlanUpgradeFor(Growth, volumes) == None && PlanUpgradeFor(Enterprise, volumes) == None
  {
  }

  /** The merchant's plan once the upgrade due, if any, is granted. */
  function PlanAfter(current: Plan, volumes: Volumes): Plan {
    if PlanUpgradeFor(current, volumes).Some? then PlanUpgradeFor(current, volumes).value else current
  }

  /** Granting upgrades on the way gives the plan that granting them at the end would, and none is due twice. */
  lemma UpgradesSettle(current: Plan, a: Volumes, b: Volumes)
    requires a.usdc <= b.usdc && a.eurc <= b.eurc
    ensures PlanUpgradeFor(PlanAfter(current, a), a) == None
    ensures PlanAfter(PlanAfter(current, a), b) == PlanAfter(current, b)
  {
    PlanGrowsWithVolume(a, b);
  }

  // ----- The fee of one cent -----

  const CENTS := 100

  /** `planAtVolume` on whole cents, priced as USDC. */
  function PlanAtCents(cents: int): Plan {
    HighestReached(Volumes(cents * Power10(DECIMALS - 2), 0))
  }

  lemma PlanThresholds(cents: nat)
    ensures PlanAtCents(cents) == if cents < 100_000 then Free else if cents < 5_000_000 then Starter else Growth
  {
    var volumes := Volumes(cents * 10_000, 0);
    assert Power10(4) == 10_000 && Power10(6) == 1_000_000;
    assert volumes.Of(EURC) == 0 && volumes.Of(USDC) == cents * 10_000;
    assert Reaches(volumes, Starter) <==> cents >= 100_000 by {
      assert ThresholdInBaseUnits(Starter) == 1_000_000_000;
      if cents >= 100_000 { assert USDC in PAYMENT_TOKENS && volumes.Of(USDC) >= ThresholdInBaseUnits(Starter); }
    }
    assert Reaches(volumes, Growth) <==> cents >= 5_000_000 by {
      assert ThresholdInBaseUnits(Growth) == 50_000_000_000;
      if cents >= 5_000_000 { assert USDC in PAYMENT_TOKENS && volumes.Of(USDC) >= ThresholdInBaseUnits(Growth); }
    }
  }

  /** The fee on the cent that follows `cents` of volume, at the rate of the plan that volume has reached. */
  function CentFee(cents: nat): real {
    OrZero(Plans(PlanAtCents(cents)).feeBps) as real / 10_000.0
  }

  /** The fee on every cent from `from` up to `upTo`, each at its own rate. */
  function FeeOver(from: nat, upTo: nat): real
    requires from <= upTo
    decreases upTo
  {
    if from == upTo then 0.0 else FeeOver(from, upTo - 1) + CentFee(upTo - 1)
  }

  lemma {:induction false} FeeAdds(a: nat, b: nat, c: nat)
    requires a <= b <= c
    ensures FeeOver(a, c) == FeeOver(a, b) + FeeOver(b, c)
    decreases c
  {
    if b < c { FeeAdds(a, b, c - 1); }
  }

  lemma OneMoreCent(n: nat, rate: real)
    ensures (n + 1) as real * rate == n as real * rate + rate
  {
    assert (n + 1) as real == n as real + 1.0;
  }

  lemma {:induction false} FlatStretch(from: nat, upTo: nat, rate: real)
    requires from <= upTo && forall cents: nat :: from <= cents < upTo ==> CentFee(cents) == rate
    ensures FeeOver(from, upTo) == (upTo - from) as real * rate
    decreases upTo
  {
    hide CentFee;
    if from < upTo {
      FlatStretch(from, upTo - 1, rate);
      OneMoreCent(upTo - 1 - from, rate);
    }
  }

  /** In numbers: nothing below a thousand dollars, half a percent below fifty thousand, 0.4 percent from there on. */
  lemma CentRate(cents: nat)
    ensures CentFee(cents) ==
      if cents < 100_000 then 0.0 else if cents < 5_000_000 then 50.0 / 10_000.0 else 40.0 / 10_000.0
  {
    PlanThresholds(cents);
  }

  /** The fee in cents on everything up to `cents` of volume. */
  function FeeFromZero(cents: nat): real {
    if cents < 100_000 then 0.0
    else if cents < 5_000_000 then (cents - 100_000) as real * 50.0 / 10_000.0
    else 24_500.0 + (cents - 5_000_000) as real * 40.0 / 10_000.0
  }

  /** The closed form: a stretch costs the difference of the fees from zero. */
  lemma {:induction false} FeeClosedForm(from: nat, upTo: nat)
    requires from <= upTo
    ensures FeeOver(from, upTo) == FeeFromZero(upTo) - FeeFromZero(from)
    decreases upTo
  {
    hide CentFee;
    if from < upTo {
      FeeClosedForm(from, upTo - 1);
      CentRate(upTo - 1);
      if upTo > 5_000_000 {
        OneMoreCent(upTo - 1 - 5_000_000, 40.0 / 10_000.0);
      } else if upTo > 100_000 {
        OneMoreCent(upTo - 1 - 100_000, 50.0 / 10_000.0);
      }
    }
  }

  /** No stretch costs more than the ceiling rate. */
  lemma {:induction false} FeeWithinCeiling(from: nat, upTo: nat)
    requires from <= upTo
    ensures 0.0 <= FeeOver(from, upTo) <= (upTo - from) as real * (FEE_CEILING_BPS as real / 10_000.0)
    decreases upTo
  {
    if from < upTo {
      FeeWithinCeiling(from, upTo - 1);
      PlanThresholds(upTo - 1);
      assert (upTo - from) as real == (upTo - 1 - from) as real + 1.0;
    }
  }

  /** The ceiling is the highest rate of any volume plan, and some plan charges it. */
  lemma CeilingIsHighestRate()
    ensures forall plan :: plan in VOLUME_PLANS ==> OrZero(Plans(plan).feeBps) <= FEE_CEILING_BPS
    ensures exists plan :: plan in VOLUME_PLANS && OrZero(Plans(plan).feeBps) == FEE_CEILING_BPS
  {
    assert VOLUME_PLANS[1] == Starter && Starter in VOLUME_PLANS;
  }

  // ----- The estimate -----

  datatype Tier = Tier(fromCents: nat, bps: nat)

  function TierOf(plan: Plan): Tier {
    Tier(OrZero(Plans(plan).entersAtVolume) * CENTS, OrZero(Plans(plan).feeBps))
  }

  const TIERS := [TierOf(Free), TierOf(Starter), TierOf(Growth)]

  /** Every cent of a tier has the tier's rate. */
  lemma TierRate(i: nat, cents: nat)
    requires i < 3 && TIERS[i].fromCents <= cents && (i < 2 ==> cents < TIERS[i + 1].fromCents)
    ensures CentFee(cents) == TIERS[i].bps as real / 10_000.0
  {
    PlanThresholds(cents);
  }

  lemma TierStretch(i: nat, from: nat, upTo: nat)
    requires i < 3 && TIERS[i].fromCents <= from <= upTo && (i < 2 ==> upTo <= TIERS[i + 1].fromCents)
    ensures FeeOver(from, upTo) == ((upTo - from) * TIERS[i].bps) as real / 10_000.0
  {
    forall cents: nat | from <= cents < upTo ensures CentFee(cents) == TIERS[i].bps as real / 10_000.0 {
      TierRate(i, cents);
    }
    hide CentFee;
    FlatStretch(from, upTo, TIERS[i].bps as real / 10_000.0);
    assert TIERS[i].bps == if i == 0 then 0 else if i == 1 then 50 else 40;
  }

  lemma NoCents(at: nat)
    ensures FeeOver(at, at) == 0.0
  {
  }

  /** The tier loop charges exactly what charging cent by cent would, which is the closed form. */
  method StrimzFeeCents(processedCents: nat, amountCents: nat) returns (fee: real)
    ensures fee == FeeOver(processedCents, processedCents + amountCents)
    ensures fee == FeeFromZero(processedCents + amountCents) - FeeFromZero(processedCents)
  {
    hide FeeOver;
    fee := 0.0;
    NoCents(processedCents);
    var cursor, end := processedCents, processedCents + amountCents;
    for i := 0 to |TIERS|
      invariant processedCents <= cursor <= end
      invariant fee == FeeOver(processedCents, cursor)
      invariant cursor == end || (i < |TIERS| && cursor >= TIERS[i].fromCents)
    {
      var from := Max(cursor, TIERS[i].fromCents);
      var to := if i + 1 < |TIERS| then Min(end, TIERS[i + 1].fromCents) else end;
      if to > from {
        TierStretch(i, from, to);
        FeeAdds(processedCents, cursor, to);
        fee := fee + ((to - from) * TIERS[i].bps) as real / 10_000.0;
        cursor := to;
      }
    }
    FeeClosedForm(processedCents, processedCents + amountCents);
  }

  /** `Math.round`, halves up. */
  function Round(x: real): int { (x + 0.5).Floor }

  lemma RoundsToNearest(x: real)
    ensures Round(x) as real - 0.5 <= x < Round(x) as real + 0.5
  {
  }

  datatype Year = Year(processed: real, fees: real, kept: real, effectiveRate: real)

  lemma NextMonth(month: nat, monthCents: nat)
    ensures month * monthCents + monthCents == (month + 1) * monthCents
  {
  }

  /** Twelve steady months cost what the year's total costs at once, to the rounded cent. */
  method FirstYearFees(monthlyVolume: real) returns (year: Year)
    ensures var monthCents := Round(monthlyVolume * 100.0);
      if monthCents <= 0 then year == Year(0.0, 0.0, 0.0, 0.0)
      else
        && year.processed == (monthCents * 12) as real / 100.0
        && year.fees == Round(FeeFromZero(12 * monthCents)) as real / 100.0
        && year.kept + year.fees == year.processed
        && year.effectiveRate * year.processed == year.fees * 100.0
  {
    hide FeeOver, Round;
    var monthCents := Round(monthlyVolume * 100.0);
    if monthCents <= 0 { return Year(0.0, 0.0, 0.0, 0.0); }
    var feeCents := 0.0;
    NoCents(0);
    for month := 0 to 12
      invariant feeCents == FeeOver(0, month * monthCents)
    {
      var fee := StrimzFeeCents(month * monthCents, monthCents);
      NextMonth(month, monthCents);
      FeeAdds(0, month * monthCents, (month + 1) * monthCents);
      feeCents := feeCents + fee;
    }
    FeeClosedForm(0, 12 * monthCents);
    var processed := (monthCents * 12) as real / 100.0;
    var fees := Round(feeCents) as real / 100.0;
    year := Year(processed, fees, processed - fees, (fees / processed) * 100.0);
  }

  method PlanAtVolume(allTimeUsd: real) returns (plan: Plan)
    ensures plan == PlanAtCents(Round(allTimeUsd * 100.0))
  {
    var cents := Round(allTimeUsd * 100.0);
    plan := PlanForVolume(Volumes(cents * Power10(DECIMALS - 2), 0));
  }
}
