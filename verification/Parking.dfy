/** What keeps an existing subscription projectable, and the logs about one subscription. */
module Parking {
  import opened Prelude
  import opened Chain
  import opened Ledger
  import opened Projection
  import opened Feed
  import opened Footprint
  import opened Replay

  // ----- Referential integrity: what keeps an existing subscription projectable -----

  /** The foreign keys the projection relies on. */
  ghost predicate Referential(rows: Rows) {
    && (forall id :: id in rows.links ==> rows.links[id] in rows.merchants)
    && (forall s :: s in rows.subscriptions ==> rows.subscriptions[s].merchant in rows.merchants)
  }

  lemma RegisteredKeepsReferences(cfg: Config, rows: Rows, lg: Log, time: int)
    requires lg.event.MerchantRegistered? && Apply(cfg, rows, lg, time).Written? && Referential(rows)
    ensures Referential(Apply(cfg, rows, lg, time).rows)
  {
    assert Apply(cfg, rows, lg, time) == LinkMerchant(rows, lg, time, lg.event);
  }

  lemma PaymentKeepsMerchants(cfg: Config, rows: Rows, lg: Log, time: int)
    requires lg.event.PaymentExecuted? && Apply(cfg, rows, lg, time).Written?
    ensures var after := Apply(cfg, rows, lg, time).rows;
      after.links == rows.links && after.merchants.Keys == rows.merchants.Keys
  {
    assert Apply(cfg, rows, lg, time) == InsertPayment(cfg, rows, lg, time, lg.event);
  }

  lemma FeesKeepMerchants(cfg: Config, rows: Rows, lg: Log, time: int)
    requires lg.event.PayoutUpdated? || lg.event.FeeUpdated?
    requires Apply(cfg, rows, lg, time).Written?
    ensures var after := Apply(cfg, rows, lg, time).rows;
      after.links == rows.links && after.merchants.Keys == rows.merchants.Keys
  {
    match lg.event
    case PayoutUpdated(_, _) => assert Apply(cfg, rows, lg, time).rows == SetPayout(rows, lg.event);
    case FeeUpdated(_, _) => assert Apply(cfg, rows, lg, time).rows == SetFee(rows, lg, time, lg.event);
  }

  lemma AuditsKeepMerchants(cfg: Config, rows: Rows, lg: Log, time: int)
    requires lg.event.Governance? || lg.event.Operation? || lg.event.Transfer? || lg.event.JobMoved?
      || lg.event.Unsubscribed?
    requires Apply(cfg, rows, lg, time).Written?
    ensures var after := Apply(cfg, rows, lg, time).rows;
      after.links == rows.links && after.merchants == rows.merchants
  {
    match lg.event
    case Governance(_, _, _) =>
    case Operation(_, _) =>
    case Transfer =>
    case JobMoved(_, _) => assert Apply(cfg, rows, lg, time) == MoveJob(rows, lg.event);
    case Unsubscribed =>
  }

  lemma OthersKeepMerchants(cfg: Config, rows: Rows, lg: Log, time: int)
    requires !IsSubscriptionEvent(lg.event) && !lg.event.MerchantRegistered? && !lg.event.Undecodable?
    requires Apply(cfg, rows, lg, time).Written?
    ensures var after := Apply(cfg, rows, lg, time).rows;
      after.links == rows.links && after.merchants.Keys == rows.merchants.Keys
  {
    hide Apply;
    match lg.event
    case PaymentExecuted(_, _, _, _, _, _, _) => PaymentKeepsMerchants(cfg, rows, lg, time);
    case PayoutUpdated(_, _) => FeesKeepMerchants(cfg, rows, lg, time);
    case FeeUpdated(_, _) => FeesKeepMerchants(cfg, rows, lg, time);
    case _ => AuditsKeepMerchants(cfg, rows, lg, time);
  }

  lemma ChargeKeepsMerchants(cfg: Config, rows: Rows, lg: Log, time: int)
    requires lg.event.SubscriptionCharged? && Apply(cfg, rows, lg, time).Written?
    ensures var after := Apply(cfg, rows, lg, time).rows;
      after.links == rows.links && after.merchants == rows.merchants
  {
    assert Apply(cfg, rows, lg, time) == InsertCharge(cfg, rows, lg, time, lg.event);
  }

  lemma SubscriptionsKeepMerchants(cfg: Config, rows: Rows, lg: Log, time: int)
    requires IsSubscriptionEvent(lg.event) && Apply(cfg, rows, lg, time).Written?
    ensures var after := Apply(cfg, rows, lg, time).rows;
      after.links == rows.links && after.merchants == rows.merchants
  {
    hide Apply;
    match lg.event
    case SubscriptionCreated(_, _, _, _, _, _, _) => CreatedFootprint(cfg, rows, lg, time);
    case SubscriptionCharged(_, _, _, _, _, _) => ChargeKeepsMerchants(cfg, rows, lg, time);
    case PeriodsSkipped(_, _, _) => PeriodsSkippedFootprint(cfg, rows, lg, time);
    case ChargeSkipped(_, _, _) => SkippedFootprint(cfg, rows, lg, time);
    case SubscriptionCancelled(_, _) => CancelledFootprint(cfg, rows, lg, time);
  }

  lemma SubscriptionsKeepReferences(cfg: Config, rows: Rows, lg: Log, time: int)
    requires IsSubscriptionEvent(lg.event) && Apply(cfg, rows, lg, time).Written? && Referential(rows)
    ensures Referential(Apply(cfg, rows, lg, time).rows)
  {
    hide Apply;
    SubscriptionsKeepMerchants(cfg, rows, lg, time);
    BillingStep(cfg, rows, lg, time);
  }

  lemma ApplyKeepsReferences(cfg: Config, rows: Rows, lg: Log, time: int)
    requires Apply(cfg, rows, lg, time).Written? && Referential(rows)
    ensures Referential(Apply(cfg, rows, lg, time).rows)
  {
    hide Apply;
    if lg.event.Undecodable? {
      UndecodableNeverLands(cfg, rows, lg, time);
    } else if lg.event.MerchantRegistered? {
      RegisteredKeepsReferences(cfg, rows, lg, time);
    } else if IsSubscriptionEvent(lg.event) {
      SubscriptionsKeepReferences(cfg, rows, lg, time);
    } else {
      OthersKeepMerchants(cfg, rows, lg, time);
      OtherEventsLeaveBilling(cfg, rows, lg, time);
    }
  }

  lemma StepKeepsReferences(cfg: Config, d: Database, s: Step)
    requires Advance(cfg, d, s).Some? && Referential(d.rows)
    ensures Referential(Advance(cfg, d, s).value.rows)
  {
    hide Apply, Referential;
    match s
    case Stream(lg, time) =>
      if Apply(cfg, d.rows, lg, time).Written? { ApplyKeepsReferences(cfg, d.rows, lg, time); }
    case Retry(key) =>
      var letter := d.letters[key];
      if Apply(cfg, d.rows, letter.lg, letter.time).Written? {
        ApplyKeepsReferences(cfg, d.rows, letter.lg, letter.time);
      }
    case Visit(m, id) => LinkKeepsReferences(d.rows, m, id);
    case Save(_, _) =>
  }

  lemma LinkKeepsReferences(rows: Rows, m: MerchantId, id: int)
    requires Referential(rows)
    ensures Referential(LinkOutside(rows, m, id))
  {
  }

  /** A log of an existing subscription, other than its enrolment, is never parked. */
  lemma ExistingSubscriptionNeverParks(cfg: Config, rows: Rows, lg: Log, time: int)
    requires Subject(lg).Some? && !lg.event.SubscriptionCreated?
    requires Subject(lg).value in rows.subscriptions && rows.subscriptions[Subject(lg).value].merchant in rows.merchants
    ensures !Apply(cfg, rows, lg, time).Unresolvable?
  {
    match lg.event
    case SubscriptionCharged(_, _, _, _, _, _) =>
      assert Apply(cfg, rows, lg, time) == InsertCharge(cfg, rows, lg, time, lg.event);
    case PeriodsSkipped(_, _, _) => assert Apply(cfg, rows, lg, time) == MovePeriodStart(rows, lg.event);
    case ChargeSkipped(_, _, _) => assert Apply(cfg, rows, lg, time) == InsertChargeSkip(rows, time, lg.event);
    case SubscriptionCancelled(_, _) =>
      assert Apply(cfg, rows, lg, time) == CancelSubscription(rows, lg, time, lg.event);
  }

  // ----- Logs about one subscription -----

  function About(logs: seq<Log>, sub: int): seq<Log> {
    if logs == [] then []
    else About(logs[..|logs| - 1], sub) + (if Subject(logs[|logs| - 1]) == Some(sub) then [logs[|logs| - 1]] else [])
  }

  function LogsOf(ls: seq<Landing>): seq<Log> {
    if ls == [] then [] else LogsOf(ls[..|ls| - 1]) + [ls[|ls| - 1].lg]
  }

  lemma AboutOneMore(logs: seq<Log>, lg: Log, sub: int)
    ensures About(logs + [lg], sub) == About(logs, sub) + (if Subject(lg) == Some(sub) then [lg] else [])
  {
    assert (logs + [lg])[..|logs|] == logs;
  }

  lemma {:induction false} AboutMembers(logs: seq<Log>, sub: int)
    ensures forall l :: l in About(logs, sub) <==> l in logs && Subject(l) == Some(sub)
  {
    if logs != [] {
      AboutMembers(logs[..|logs| - 1], sub);
      assert logs == logs[..|logs| - 1] + [logs[|logs| - 1]];
    }
  }

  lemma {:induction false} AboutInOrder(logs: seq<Log>, sub: int)
    requires ChainOrdered(logs)
    ensures ChainOrdered(About(logs, sub))
  {
    if logs != [] {
      var front, last := logs[..|logs| - 1], logs[|logs| - 1];
      AboutInOrder(front, sub);
      AboutMembers(front, sub);
      forall l | l in About(front, sub) ensures Less(l, last) {
        var i :| 0 <= i < |front| && front[i] == l;
      }
    }
  }

  lemma FirstIsIn(logs: seq<Log>)
    ensures logs != [] ==> logs[0] in logs
  {
  }

  /** Two chain-ordered sequences with the same logs are the same sequence. */
  lemma {:induction false} SameLogsSameOrder(a: seq<Log>, b: seq<Log>)
    requires ChainOrdered(a) && ChainOrdered(b)
    requires forall l :: l in a <==> l in b
    ensures a == b
  {
    if a == [] {
      FirstIsIn(b);
    } else {
      assert a[0] in b && (b != [] ==> b[0] in a);
      var i :| 0 <= i < |b| && b[i] == a[0];
      var j :| 0 <= j < |a| && a[j] == b[0];
      assert a[0] == b[0];
      forall l ensures l in a[1..] <==> l in b[1..] {
        assert l in a[1..] ==> l in a && l != a[0];
        assert l in b[1..] ==> l in b && l != b[0];
        if l in a && l != a[0] { var k :| 0 <= k < |a| && a[k] == l; assert a[1..][k - 1] == l; }
        if l in b && l != b[0] { var k :| 0 <= k < |b| && b[k] == l; assert b[1..][k - 1] == l; }
      }
      SameLogsSameOrder(a[1..], b[1..]);
    }
  }

  // ----- One subscription, between and inside retry passes -----

  /** A subscription's enrolment is the first of its logs, and its history starts with this stream. */
  ghost predicate EnrolmentFirst(base: Rows, logs: seq<Log>) {
    forall j :: 0 <= j < |logs| && logs[j].event.SubscriptionCreated? ==>
      && logs[j].event.sub !in base.subscriptions
      && (forall i :: 0 <= i < j ==> Subject(logs[i]) != Some(logs[j].event.sub))
  }

  /** Letters are filed under their own log's key and only for streamed logs. */
  ghost predicate Filed(letters: map<LogKey, Letter>, logs: seq<Log>) {
    forall k :: k in letters ==> letters[k].lg in logs && letters[k].lg.Key() == k
  }

  lemma SubscriptionDomain(cfg: Config, rows: Rows, lg: Log, time: int, sub: int)
    requires Apply(cfg, rows, lg, time).Written?
    ensures sub in Apply(cfg, rows, lg, time).rows.subscriptions <==>
            sub in rows.subscriptions || (lg.event.SubscriptionCreated? && lg.event.sub == sub)
    ensures Subject(lg).Some? ==> Subject(lg).value in Apply(cfg, rows, lg, time).rows.subscriptions
    ensures Subject(lg).Some? && Subject(lg).value !in rows.subscriptions ==> lg.event.SubscriptionCreated?
  {
    hide Apply;
    BillingStep(cfg, rows, lg, time);
  }

  // ----- What one step leaves -----

  lemma StreamOutcome(cfg: Config, d: Database, lg: Log, time: int)
    requires Apply(cfg, d.rows, lg, time).Written?
    ensures Advance(cfg, d, Stream(lg, time)) == Some(d.(rows := Apply(cfg, d.rows, lg, time).rows))
    ensures StepLanding(cfg, d, Stream(lg, time)) == [Landing(lg, time, false)]
  {
    hide Apply;
  }

  lemma ParkOutcome(cfg: Config, d: Database, lg: Log, time: int)
    requires Apply(cfg, d.rows, lg, time).Unresolvable?
    ensures var parked := Park(d.letters, lg, time, Apply(cfg, d.rows, lg, time).reason);
      Advance(cfg, d, Stream(lg, time)) == Some(d.(letters := parked)) && StepLanding(cfg, d, Stream(lg, time)) == []
  {
    hide Apply;
  }

  /** What a retry leaves: the rows of the projection, and every letter but its own. */
  lemma RetryOutcome(cfg: Config, d: Database, key: LogKey)
    requires Waiting(d.letters, key) && Advance(cfg, d, Retry(key)).Some?
    ensures var l, after := d.letters[key], Advance(cfg, d, Retry(key)).value;
      && after.letters.Keys == d.letters.Keys
      && (forall k :: k in d.letters ==> after.letters[k].lg == d.letters[k].lg)
      && (forall k :: k != key ==> Waiting(after.letters, k) == Waiting(d.letters, k))
      && (if Apply(cfg, d.rows, l.lg, l.time).Written?
          then !Waiting(after.letters, key) && after.rows == Apply(cfg, d.rows, l.lg, l.time).rows
               && StepLanding(cfg, d, Retry(key)) == [Landing(l.lg, l.time, true)]
          else Apply(cfg, d.rows, l.lg, l.time).Unresolvable? && Waiting(after.letters, key) && after.rows == d.rows
               && StepLanding(cfg, d, Retry(key)) == [])
  {
    hide Apply;
  }

  // ----- Letters -----

  ghost predicate WaitingAre(letters: map<LogKey, Letter>, todo: seq<Log>) {
    && ChainOrdered(todo)
    && (forall i :: 0 <= i < |todo| ==> Waiting(letters, todo[i].Key()) && letters[todo[i].Key()].lg == todo[i])
    && (forall k :: Waiting(letters, k) ==> letters[k].lg in todo)
  }

  lemma LetterOf(letters: map<LogKey, Letter>, logs: seq<Log>, l: Log)
    requires Filed(letters, logs) && DistinctKeys(logs) && l in logs && l.Key() in letters
    ensures letters[l.Key()].lg == l
  {
    var i :| 0 <= i < |logs| && logs[i] == l;
    var j :| 0 <= j < |logs| && logs[j] == letters[l.Key()].lg;
  }

  lemma WaitingMeans(letters: map<LogKey, Letter>)
    ensures forall k :: Waiting(letters, k) ==> k in letters
  {
  }

  lemma KeysTellApart(logs: seq<Log>, a: Log, b: Log)
    requires DistinctKeys(logs) && a in logs && b in logs && a != b
    ensures a.Key() != b.Key()
  {
    var i :| 0 <= i < |logs| && logs[i] == a;
    var j :| 0 <= j < |logs| && logs[j] == b;
  }

  lemma MerchantOf(rows: Rows, sub: int)
    requires Referential(rows) && sub in rows.subscriptions
    ensures rows.subscriptions[sub].merchant in rows.merchants
  {
  }
}
