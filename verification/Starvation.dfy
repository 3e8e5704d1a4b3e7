/** The limit of a retry pass: fifty letters that can never be projected keep every later one waiting for ever. */
module Starvation {
  import opened Prelude
  import opened Chain
  import opened Ledger
  import opened Projection
  import opened Replay
  import opened Conservation
  import opened Passes
  import opened RetryPass

  // ----- Logs that no database can take -----

  /** The log cannot be decoded, or pays in a token the indexer does not know. */
  predicate Hopeless(cfg: Config, lg: Log) {
    lg.event.Undecodable?
    || (lg.event.PaymentExecuted? && lg.event.token !in cfg.tokens)
    || (lg.event.SubscriptionCreated? && lg.event.token !in cfg.tokens)
  }

  lemma HopelessNeverLands(cfg: Config, rows: Rows, lg: Log, time: int)
    requires Hopeless(cfg, lg)
    ensures Apply(cfg, rows, lg, time).Unresolvable?
  {
  }

  function NoRows(): Rows {
    Rows(map[], map[], map[], map[], map[], map[], map[], map[], map[], map[], [], [], map[], {}, map[])
  }

  /** Rows in which every subject of the event exists. */
  function Welcoming(e: Event): Rows {
    var shop := NoRows().(merchants := map["m" := Merchant("payout", 0, 0, None, None)]);
    match e
    case PaymentExecuted(m, _, _, _, _, _, _) => shop.(links := map[m := "m"])
    case SubscriptionCreated(_, m, _, _, _, _, _) => shop.(links := map[m := "m"])
    case SubscriptionCharged(sub, _, _, _, _, _) => shop.(subscriptions := map[sub := Guest()])
    case PeriodsSkipped(sub, _, _) => shop.(subscriptions := map[sub := Guest()])
    case ChargeSkipped(sub, _, _) => shop.(subscriptions := map[sub := Guest()])
    case SubscriptionCancelled(sub, _) => shop.(subscriptions := map[sub := Guest()])
    case JobMoved(job, _) => shop.(jobs := map[job := Job("m", "")])
    case _ => shop
  }

  function Guest(): Subscription {
    Subscription("m", Active, "", "", "", None, None, 0, 0, 0, 0, None, None, None, "")
  }

  lemma WelcomedPayments(cfg: Config, lg: Log)
    requires lg.event.PaymentExecuted? || lg.event.SubscriptionCreated? || lg.event.MerchantRegistered?
    requires !Hopeless(cfg, lg)
    ensures Apply(cfg, Welcoming(lg.event), lg, 0).Written?
  {
    var rows := Welcoming(lg.event);
    match lg.event
    case PaymentExecuted(_, _, _, _, _, _, _) =>
      assert Apply(cfg, rows, lg, 0) == InsertPayment(cfg, rows, lg, 0, lg.event);
    case SubscriptionCreated(_, _, _, _, _, _, _) =>
      assert Apply(cfg, rows, lg, 0) == Enrol(cfg, rows, lg, 0, lg.event);
    case MerchantRegistered(_, _, _) => assert Apply(cfg, rows, lg, 0) == LinkMerchant(rows, lg, 0, lg.event);
  }

  lemma WelcomedSubscriptions(cfg: Config, lg: Log)
    requires lg.event.SubscriptionCharged? || lg.event.PeriodsSkipped? || lg.event.ChargeSkipped?
      || lg.event.SubscriptionCancelled?
    ensures Apply(cfg, Welcoming(lg.event), lg, 0).Written?
  {
    var rows := Welcoming(lg.event);
    match lg.event
    case SubscriptionCharged(_, _, _, _, _, _) =>
      assert Apply(cfg, rows, lg, 0) == InsertCharge(cfg, rows, lg, 0, lg.event);
    case PeriodsSkipped(_, _, _) => assert Apply(cfg, rows, lg, 0) == MovePeriodStart(rows, lg.event);
    case ChargeSkipped(_, _, _) => assert Apply(cfg, rows, lg, 0) == InsertChargeSkip(rows, 0, lg.event);
    case SubscriptionCancelled(_, _) => assert Apply(cfg, rows, lg, 0) == CancelSubscription(rows, lg, 0, lg.event);
  }

  lemma WelcomedOthers(cfg: Config, lg: Log)
    requires !lg.event.PaymentExecuted? && !lg.event.SubscriptionCreated? && !lg.event.MerchantRegistered?
    requires !lg.event.SubscriptionCharged? && !lg.event.PeriodsSkipped? && !lg.event.ChargeSkipped?
    requires !lg.event.SubscriptionCancelled? && !lg.event.Undecodable?
    ensures Apply(cfg, Welcoming(lg.event), lg, 0).Written?
  {
  }

  /** A log is hopeless exactly when no rows and no block time let it land. */
  lemma HopelessExactlyWhen(cfg: Config, lg: Log)
    ensures Hopeless(cfg, lg) <==> forall rows, time :: Apply(cfg, rows, lg, time).Unresolvable?
  {
    hide Apply, Welcoming;
    if Hopeless(cfg, lg) {
      forall rows, time ensures Apply(cfg, rows, lg, time).Unresolvable? { HopelessNeverLands(cfg, rows, lg, time); }
    } else {
      match lg.event {
        case PaymentExecuted(_, _, _, _, _, _, _) => WelcomedPayments(cfg, lg);
        case SubscriptionCreated(_, _, _, _, _, _, _) => WelcomedPayments(cfg, lg);
        case MerchantRegistered(_, _, _) => WelcomedPayments(cfg, lg);
        case SubscriptionCharged(_, _, _, _, _, _) => WelcomedSubscriptions(cfg, lg);
        case PeriodsSkipped(_, _, _) => WelcomedSubscriptions(cfg, lg);
        case ChargeSkipped(_, _, _) => WelcomedSubscriptions(cfg, lg);
        case SubscriptionCancelled(_, _) => WelcomedSubscriptions(cfg, lg);
        case _ => WelcomedOthers(cfg, lg);
      }
      assert !Apply(cfg, Welcoming(lg.event), lg, 0).Unresolvable?;
    }
  }

  // ----- Starving -----

  /** The letters that wait before the `k`-th and will wait for ever. */
  function HopelessBefore(cfg: Config, letters: map<LogKey, Letter>, k: LogKey): set<LogKey>
    requires k in letters
  {
    set q | q in letters && !letters[q].resolved && Hopeless(cfg, letters[q].lg) && Less(letters[q].lg, letters[k].lg)
  }

  predicate Starved(cfg: Config, letters: map<LogKey, Letter>, k: LogKey) {
    Waiting(letters, k) && |HopelessBefore(cfg, letters, k)| >= RETRY_LIMIT
  }

  lemma StarvedWaitsBehind(cfg: Config, letters: map<LogKey, Letter>, k: LogKey)
    requires Starved(cfg, letters, k)
    ensures |Before(letters, k)| >= RETRY_LIMIT
  {
    SubsetIsSmaller(HopelessBefore(cfg, letters, k), Before(letters, k));
  }

  /** A step touches at most the letters it streams or retries, and resolves no hopeless one. */
  lemma StepKeepsLetters(cfg: Config, d: Database, s: Step, q: LogKey)
    requires Advance(cfg, d, s).Some? && q in d.letters
    ensures var after := Advance(cfg, d, s).value.letters;
      && q in after && after[q].lg == d.letters[q].lg
      && (s != Retry(q) ==> after[q] == d.letters[q])
      && (Hopeless(cfg, d.letters[q].lg) ==> after[q].resolved == d.letters[q].resolved)
  {
    if s == Retry(q) && Hopeless(cfg, d.letters[q].lg) {
      HopelessNeverLands(cfg, d.rows, d.letters[q].lg, d.letters[q].time);
    }
    hide Apply, Hopeless;
  }

  lemma StepKeepsStarved(cfg: Config, d: Database, s: Step, k: LogKey)
    requires Advance(cfg, d, s).Some? && Starved(cfg, d.letters, k) && s != Retry(k)
    ensures Starved(cfg, Advance(cfg, d, s).value.letters, k)
    ensures Advance(cfg, d, s).value.letters[k] == d.letters[k]
  {
    hide Advance, Hopeless;
    StepKeepsLetters(cfg, d, s, k);
    var after := Advance(cfg, d, s).value.letters;
    forall q | q in HopelessBefore(cfg, d.letters, k) ensures q in HopelessBefore(cfg, after, k) {
      StepKeepsLetters(cfg, d, s, q);
    }
    SubsetIsSmaller(HopelessBefore(cfg, d.letters, k), HopelessBefore(cfg, after, k));
  }

  lemma {:induction false} UnretriedStaysStarved(cfg: Config, d: Database, steps: seq<Step>, k: LogKey)
    requires Run(cfg, d, steps).Some? && Starved(cfg, d.letters, k) && Retry(k) !in steps
    ensures Starved(cfg, Run(cfg, d, steps).value.letters, k)
    ensures Run(cfg, d, steps).value.letters[k] == d.letters[k]
  {
    hide Advance, Starved;
    if steps != [] {
      var front, s := steps[..|steps| - 1], steps[|steps| - 1];
      assert steps == front + [s];
      UnretriedStaysStarved(cfg, d, front, k);
      StepKeepsStarved(cfg, Run(cfg, d, front).value, s, k);
    }
  }

  /** No pass within the limit comes as far as a starved letter. */
  lemma PassPassesBy(cfg: Config, d: Database, steps: seq<Step>, k: LogKey)
    requires PartialPass(d, steps, Some(RETRY_LIMIT)) && OwnKeys(d.letters) && Starved(cfg, d.letters, k)
    ensures Retry(k) !in steps
  {
    var all, n: nat :| PassOf(d, steps, all, n) && n <= RETRY_LIMIT;
    StarvedWaitsBehind(cfg, d.letters, k);
    hide PassOf, Before, HopelessBefore;
    RetriedByPlace(d, steps, all, n, k);
  }

  lemma {:induction false} RunKeepsOwnKeys(cfg: Config, d: Database, h: seq<Step>)
    requires Run(cfg, d, h).Some? && OwnKeys(d.letters)
    ensures OwnKeys(Run(cfg, d, h).value.letters)
  {
    hide Apply;
    if h != [] { RunKeepsOwnKeys(cfg, d, h[..|h| - 1]); }
  }

  lemma StreamingRetriesNothing(steps: seq<Step>, k: LogKey)
    requires Streaming(steps)
    ensures Retry(k) !in steps
  {
  }

  /**
   Fifty hopeless letters starve every later one: from the moment they wait before it, no pass of any length the limit
   allows ever retries it, whatever is streamed, linked, restarted or retried afterwards.
   */
  lemma {:induction false} StarvedForEver(cfg: Config, base: Database, phases: seq<seq<Step>>, i: nat, k: LogKey)
    requires Patient(cfg, base, phases, Some(RETRY_LIMIT)) && i <= |phases| && OwnKeys(base.letters)
    requires Run(cfg, base, Flatten(phases)).Some? && Run(cfg, base, Flatten(phases[..i])).Some?
    requires Starved(cfg, Run(cfg, base, Flatten(phases[..i])).value.letters, k)
    ensures Starved(cfg, Run(cfg, base, Flatten(phases)).value.letters, k)
    ensures Run(cfg, base, Flatten(phases)).value.letters[k] == Run(cfg, base, Flatten(phases[..i])).value.letters[k]
  {
    if i == |phases| {
      assert phases[..i] == phases;
    } else {
      var front, last := phases[..|phases| - 1], phases[|phases| - 1];
      assert front[..i] == phases[..i];
      hide Run, PartialPass, Streaming, Starved, OwnKeys;
      RunConcat(cfg, base, Flatten(front), last);
      StarvedForEver(cfg, base, front, i, k);
      RunKeepsOwnKeys(cfg, base, Flatten(front));
      var d := Run(cfg, base, Flatten(front)).value;
      if Streaming(last) { StreamingRetriesNothing(last, k); } else { PassPassesBy(cfg, d, last, k); }
      UnretriedStaysStarved(cfg, d, last, k);
    }
  }
}
