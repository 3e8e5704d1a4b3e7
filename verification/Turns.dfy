/** Taking turns: when a subscription's logs take effect in chain order although some of them were parked. */
module Turns {
  import opened Prelude
  import opened Chain
  import opened Ledger
  import opened Projection
  import opened Footprint
  import opened Replay
  import opened Conservation
  import opened Parking

  /** The subscription's logs that still wait, in the order they were streamed. */
  function Late(letters: map<LogKey, Letter>, logs: seq<Log>, sub: int): seq<Log> {
    if logs == [] then []
    else
      Late(letters, logs[..|logs| - 1], sub) +
      (if Subject(logs[|logs| - 1]) == Some(sub) && Waiting(letters, logs[|logs| - 1].Key())
       then [logs[|logs| - 1]] else [])
  }

  /** What landed, then what waits, is what was streamed: nothing took effect before its turn. */
  predicate InTurn(letters: map<LogKey, Letter>, landed: seq<Log>, logs: seq<Log>, sub: int) {
    About(landed, sub) + Late(letters, logs, sub) == About(logs, sub)
  }

  predicate HasWaiting(letters: map<LogKey, Letter>, sub: int) {
    exists k :: k in letters && Waiting(letters, k) && Subject(letters[k].lg) == Some(sub)
  }

  /** Streamed now, the log would overtake a waiting one: its subscription exists and still has a waiting letter. */
  predicate Overtakes(d: Database, lg: Log) {
    Subject(lg).Some? && Subject(lg).value in d.rows.subscriptions && HasWaiting(d.letters, Subject(lg).value)
  }

  /** Log `p` has not landed before the `j`-th landed log, which is later on the chain. */
  predicate JumpedAt(done: seq<Log>, p: Log, j: int) {
    0 <= j < |done| && Less(p, done[j]) && p !in done[..j]
  }

  /** Some log took effect before an earlier one of its subscription. */
  ghost predicate Jumped(landed: seq<Log>, logs: seq<Log>, sub: int) {
    exists p, j :: p in About(logs, sub) && JumpedAt(About(landed, sub), p, j)
  }

  // ----- A jump is never undone -----

  lemma {:induction false} AboutConcat(a: seq<Log>, b: seq<Log>, sub: int)
    ensures About(a + b, sub) == About(a, sub) + About(b, sub)
  {
    if b == [] {
      assert a + b == a;
    } else {
      assert (a + b)[..|a + b| - 1] == a + b[..|b| - 1];
      AboutConcat(a, b[..|b| - 1], sub);
    }
  }

  lemma JumpStays(landed: seq<Log>, more: seq<Log>, logs: seq<Log>, next: seq<Log>, sub: int)
    requires Jumped(landed, logs, sub)
    ensures Jumped(landed + more, logs + next, sub)
  {
    AboutConcat(landed, more, sub);
    AboutConcat(logs, next, sub);
    hide About, Less;
    var p, j :| p in About(logs, sub) && JumpedAt(About(landed, sub), p, j);
    var done := About(landed + more, sub);
    assert done[j] == About(landed, sub)[j] && done[..j] == About(landed, sub)[..j];
    assert JumpedAt(done, p, j) && p in About(logs + next, sub);
  }

  /** In order, every log before the `j`-th has its place before it. */
  lemma EarlierHasItsPlace(all: seq<Log>, p: Log, j: nat)
    requires ChainOrdered(all) && p in all && j < |all| && Less(p, all[j])
    ensures p in all[..j]
  {
    var i :| 0 <= i < |all| && all[i] == p;
    assert i < j;
    assert all[..j][i] == p;
  }

  /** After a jump the landed logs are no beginning of the streamed ones. */
  lemma JumpedIsNoPrefix(landed: seq<Log>, logs: seq<Log>, sub: int)
    requires ChainOrdered(logs) && Jumped(landed, logs, sub)
    ensures !(About(landed, sub) <= About(logs, sub))
  {
    AboutInOrder(logs, sub);
    hide About, Less, ChainOrdered;
    var p, j :| p in About(logs, sub) && JumpedAt(About(landed, sub), p, j);
    if |About(landed, sub)| <= |About(logs, sub)| && About(landed, sub)[j] == About(logs, sub)[j] {
      EarlierHasItsPlace(About(logs, sub), p, j);
    }
  }

  // ----- What is late -----

  lemma {:induction false} LateMembers(letters: map<LogKey, Letter>, logs: seq<Log>, sub: int)
    ensures forall l :: l in Late(letters, logs, sub) <==>
      l in logs && Subject(l) == Some(sub) && Waiting(letters, l.Key())
  {
    if logs != [] {
      LateMembers(letters, logs[..|logs| - 1], sub);
      assert logs == logs[..|logs| - 1] + [logs[|logs| - 1]];
    }
  }

  lemma {:induction false} LateInOrder(letters: map<LogKey, Letter>, logs: seq<Log>, sub: int)
    requires ChainOrdered(logs)
    ensures ChainOrdered(Late(letters, logs, sub))
  {
    if logs != [] {
      var front, last := logs[..|logs| - 1], logs[|logs| - 1];
      LateInOrder(letters, front, sub);
      LateMembers(letters, front, sub);
      forall l | l in Late(letters, front, sub) ensures Less(l, last) {
        var i :| 0 <= i < |front| && front[i] == l;
      }
    }
  }

  lemma {:induction false} SameWaitingSameLate(
      letters: map<LogKey, Letter>, after: map<LogKey, Letter>, logs: seq<Log>, sub: int)
    requires forall l :: l in logs && Subject(l) == Some(sub) ==> Waiting(after, l.Key()) == Waiting(letters, l.Key())
    ensures Late(after, logs, sub) == Late(letters, logs, sub)
  {
    if logs != [] {
      assert logs[|logs| - 1] in logs && forall l :: l in logs[..|logs| - 1] ==> l in logs;
      SameWaitingSameLate(letters, after, logs[..|logs| - 1], sub);
    }
  }

  lemma NothingLate(letters: map<LogKey, Letter>, logs: seq<Log>, sub: int)
    requires Filed(letters, logs) && DistinctKeys(logs) && !HasWaiting(letters, sub)
    ensures Late(letters, logs, sub) == []
  {
    LateMembers(letters, logs, sub);
    hide Late;
    FirstIsIn(Late(letters, logs, sub));
    forall l | l in Late(letters, logs, sub) ensures false {
      LetterOf(letters, logs, l);
    }
  }

  /** Resolving the first of the late logs leaves the others. */
  lemma FirstLateResolved(
      letters: map<LogKey, Letter>, after: map<LogKey, Letter>, logs: seq<Log>, lg: Log, sub: int)
    requires ChainOrdered(logs) && DistinctKeys(logs) && lg in Late(letters, logs, sub)
    requires forall l :: l in Late(letters, logs, sub) ==> l == lg || Less(lg, l)
    requires !Waiting(after, lg.Key()) && forall k :: k != lg.Key() ==> Waiting(after, k) == Waiting(letters, k)
    ensures Late(letters, logs, sub) == [lg] + Late(after, logs, sub)
  {
    var late, rest := Late(letters, logs, sub), Late(after, logs, sub);
    LateMembers(letters, logs, sub);
    LateMembers(after, logs, sub);
    LateInOrder(letters, logs, sub);
    LateInOrder(after, logs, sub);
    hide Late, Waiting;
    forall l | l in logs && l != lg ensures l.Key() != lg.Key() {
      KeysTellApart(logs, l, lg);
    }
    hide DistinctKeys;
    assert forall l :: l in rest ==> Less(lg, l);
    LeadingLog(lg, rest);
    forall l ensures l in late <==> l in [lg] + rest {
      assert l in [lg] + rest <==> l == lg || l in rest;
    }
    SameLogsSameOrder(late, [lg] + rest);
  }

  lemma LeadingLog(lg: Log, rest: seq<Log>)
    requires ChainOrdered(rest) && forall l :: l in rest ==> Less(lg, l)
    ensures ChainOrdered([lg] + rest)
  {
  }

  // ----- What every history keeps, in turn or not -----

  /**
   A missing subscription has landed nothing and all of its logs wait; one that this stream enrolled has landed its
   enrolment; what waits has not landed.
   */
  ghost predicate Coherent(base: Rows, d: Database, landed: seq<Log>, logs: seq<Log>, sub: int) {
    && Filed(d.letters, logs)
    && (sub !in d.rows.subscriptions ==>
          About(landed, sub) == [] && forall l :: l in logs && Subject(l) == Some(sub) ==> Waiting(d.letters, l.Key()))
    && (sub in d.rows.subscriptions && sub !in base.subscriptions ==> EnrolmentLanded(landed, sub))
    && (forall k :: Waiting(d.letters, k) ==> d.letters[k].lg !in landed)
  }

  ghost predicate EnrolmentLanded(landed: seq<Log>, sub: int) {
    exists l :: l in landed && l.event.SubscriptionCreated? && l.event.sub == sub
  }

  // ----- Streaming -----

  lemma OverStream(logs: seq<Log>, lg: Log)
    requires ChainOrdered(logs + [lg])
    ensures ChainOrdered(logs) && forall l :: l in logs ==> Less(l, lg)
  {
    assert forall i :: 0 <= i < |logs| ==> (logs + [lg])[i] == logs[i];
    assert (logs + [lg])[|logs|] == lg;
  }

  lemma LogsOfOne(l: Landing)
    ensures LogsOf([l]) == [l.lg] && LogsOf([]) == []
  {
    assert [l][..0] == [];
  }

  lemma LateOneMore(letters: map<LogKey, Letter>, logs: seq<Log>, lg: Log, sub: int)
    ensures Late(letters, logs + [lg], sub) ==
      Late(letters, logs, sub) + (if Subject(lg) == Some(sub) && Waiting(letters, lg.Key()) then [lg] else [])
  {
    assert (logs + [lg])[..|logs|] == logs;
  }

  lemma NotYetLate(letters: map<LogKey, Letter>, logs: seq<Log>, lg: Log, sub: int)
    requires lg.Key() !in letters
    ensures Late(letters, logs + [lg], sub) == Late(letters, logs, sub)
  {
    LateOneMore(letters, logs, lg, sub);
  }

  /** An enrolment is streamed before any other log of its subscription. */
  lemma EnrolmentStreamsFirst(base: Rows, logs: seq<Log>, lg: Log)
    requires EnrolmentFirst(base, logs + [lg]) && lg.event.SubscriptionCreated?
    ensures lg.event.sub !in base.subscriptions
    ensures forall l :: l in logs ==> Subject(l) != Some(lg.event.sub)
  {
    assert (logs + [lg])[|logs|] == lg;
    forall l | l in logs ensures Subject(l) != Some(lg.event.sub) {
      var i :| 0 <= i < |logs| && logs[i] == l;
      assert (logs + [lg])[i] == l;
    }
  }

  lemma NoLogsNoneLate(letters: map<LogKey, Letter>, logs: seq<Log>, sub: int)
    requires forall l :: l in logs ==> Subject(l) != Some(sub)
    ensures About(logs, sub) == [] && Late(letters, logs, sub) == []
  {
    AboutMembers(logs, sub);
    LateMembers(letters, logs, sub);
    hide About, Late;
    FirstIsIn(About(logs, sub));
    FirstIsIn(Late(letters, logs, sub));
  }

  /** A log that is parked joins the end of both. */
  lemma ParkedStaysInTurn(
      cfg: Config, d: Database, landed: seq<Log>, logs: seq<Log>, lg: Log, time: int, sub: int)
    requires Apply(cfg, d.rows, lg, time).Unresolvable? && InTurn(d.letters, landed, logs, sub)
    requires DistinctKeys(logs + [lg]) && lg.Key() !in d.letters
    ensures var after := Advance(cfg, d, Stream(lg, time)).value;
      InTurn(after.letters, landed + LogsOf(StepLanding(cfg, d, Stream(lg, time))), logs + [lg], sub)
  {
    hide Apply, Advance, StepLanding, Late, About;
    ParkOutcome(cfg, d, lg, time);
    DistinctPrefix(logs, lg);
    AboutOneMore(logs, lg, sub);
    var after := Advance(cfg, d, Stream(lg, time)).value;
    assert landed + LogsOf([]) == landed;
    SameWaitingSameLate(d.letters, after.letters, logs, sub);
    LateOneMore(after.letters, logs, lg, sub);
  }

  /** A log that lands joins the end of both when nothing of its subscription is late. */
  lemma LandedStaysInTurn(
      cfg: Config, d: Database, landed: seq<Log>, logs: seq<Log>, lg: Log, time: int, sub: int)
    requires Apply(cfg, d.rows, lg, time).Written? && InTurn(d.letters, landed, logs, sub)
    requires lg.Key() !in d.letters
    requires Subject(lg) == Some(sub) ==> Late(d.letters, logs, sub) == []
    ensures var after := Advance(cfg, d, Stream(lg, time)).value;
      InTurn(after.letters, landed + LogsOf(StepLanding(cfg, d, Stream(lg, time))), logs + [lg], sub)
  {
    hide Apply, Advance, StepLanding, LogsOf, Late, About, Waiting;
    StreamOutcome(cfg, d, lg, time);
    LogsOfOne(Landing(lg, time, false));
    AboutOneMore(logs, lg, sub);
    AboutOneMore(landed, lg, sub);
    NotYetLate(d.letters, logs, lg, sub);
    if Subject(lg) == Some(sub) {
      assert About(landed, sub) + [] == About(landed, sub);
    }
  }

  /** Streaming keeps a subscription in turn unless the log overtakes a waiting one. */
  lemma StreamStaysInTurn(
      cfg: Config, base: Rows, d: Database, landed: seq<Log>, logs: seq<Log>, lg: Log, time: int, sub: int)
    requires Advance(cfg, d, Stream(lg, time)).Some? && Coherent(base, d, landed, logs, sub)
    requires DistinctKeys(logs + [lg]) && EnrolmentFirst(base, logs + [lg])
    requires InTurn(d.letters, landed, logs, sub) && (Subject(lg) == Some(sub) ==> !Overtakes(d, lg))
    ensures var after := Advance(cfg, d, Stream(lg, time)).value;
      InTurn(after.letters, landed + LogsOf(StepLanding(cfg, d, Stream(lg, time))), logs + [lg], sub)
  {
    DistinctPrefix(logs, lg);
    assert lg.Key() !in d.letters;
    if Apply(cfg, d.rows, lg, time).Unresolvable? {
      hide Apply, Advance, InTurn, Coherent, EnrolmentFirst, StepLanding;
      ParkedStaysInTurn(cfg, d, landed, logs, lg, time, sub);
    } else {
      if Subject(lg) == Some(sub) {
        SubscriptionDomain(cfg, d.rows, lg, time, sub);
        if sub in d.rows.subscriptions {
          NothingLate(d.letters, logs, sub);
        } else {
          EnrolmentStreamsFirst(base, logs, lg);
          NoLogsNoneLate(d.letters, logs, sub);
        }
      }
      hide Apply, InTurn, Coherent, EnrolmentFirst, StepLanding, DistinctKeys;
      LandedStaysInTurn(cfg, d, landed, logs, lg, time, sub);
    }
  }

  /** A log that overtakes a waiting one lands, and from then on that one has been jumped. */
  lemma OvertakingJumps(
      cfg: Config, base: Rows, d: Database, landed: seq<Log>, logs: seq<Log>, lg: Log, time: int, sub: int)
    requires Advance(cfg, d, Stream(lg, time)).Some? && Coherent(base, d, landed, logs, sub) && Referential(d.rows)
    requires ChainOrdered(logs + [lg]) && EnrolmentFirst(base, logs + [lg])
    requires Subject(lg) == Some(sub) && Overtakes(d, lg)
    ensures Jumped(landed + LogsOf(StepLanding(cfg, d, Stream(lg, time))), logs + [lg], sub)
  {
    var k :| k in d.letters && Waiting(d.letters, k) && Subject(d.letters[k].lg) == Some(sub);
    var p := d.letters[k].lg;
    assert p in logs && p !in landed;
    OverStream(logs, lg);
    if lg.event.SubscriptionCreated? { EnrolmentStreamsFirst(base, logs, lg); }
    MerchantOf(d.rows, sub);
    ExistingSubscriptionNeverParks(cfg, d.rows, lg, time);
    StreamOutcome(cfg, d, lg, time);
    LogsOfOne(Landing(lg, time, false));
    AboutOneMore(landed, lg, sub);
    AboutOneMore(logs, lg, sub);
    AboutMembers(landed, sub);
    AboutMembers(logs, sub);
    hide Apply, Advance, StepLanding, LogsOf, About, Coherent, EnrolmentFirst, Overtakes;
    var done := About(landed + [lg], sub);
    assert done[..|About(landed, sub)|] == About(landed, sub);
    assert JumpedAt(done, p, |About(landed, sub)|);
  }

  // ----- Retrying -----

  /** The earliest late log lands: what was first of the late is last of the landed. */
  lemma EarliestLands(
      letters: map<LogKey, Letter>, after: map<LogKey, Letter>, landed: seq<Log>, logs: seq<Log>, lg: Log, sub: int)
    requires ChainOrdered(logs) && DistinctKeys(logs) && InTurn(letters, landed, logs, sub)
    requires lg in logs && Waiting(letters, lg.Key()) && Subject(lg) == Some(sub)
    requires forall l :: l in Late(letters, logs, sub) ==> l == lg || Less(lg, l)
    requires !Waiting(after, lg.Key()) && forall k :: k != lg.Key() ==> Waiting(after, k) == Waiting(letters, k)
    ensures InTurn(after, landed + [lg], logs, sub)
  {
    hide About, Late, Waiting, Less, ChainOrdered, DistinctKeys;
    LateMembers(letters, logs, sub);
    FirstLateResolved(letters, after, logs, lg, sub);
    AboutOneMore(landed, lg, sub);
    assert About(landed, sub) + ([lg] + Late(after, logs, sub)) == About(landed, sub) + [lg] + Late(after, logs, sub);
  }

  /** A log of another subscription lands. */
  lemma OtherLands(
      letters: map<LogKey, Letter>, after: map<LogKey, Letter>, landed: seq<Log>, logs: seq<Log>, lg: Log, sub: int)
    requires DistinctKeys(logs) && InTurn(letters, landed, logs, sub) && lg in logs && Subject(lg) != Some(sub)
    requires forall k :: k != lg.Key() ==> Waiting(after, k) == Waiting(letters, k)
    ensures InTurn(after, landed + [lg], logs, sub)
  {
    AboutOneMore(landed, lg, sub);
    hide Waiting;
    forall l | l in logs && Subject(l) == Some(sub) ensures l.Key() != lg.Key() { KeysTellApart(logs, l, lg); }
    SameWaitingSameLate(letters, after, logs, sub);
    assert About(landed, sub) + [] == About(landed, sub);
  }

  /** A retry keeps a subscription in turn when it takes the earliest of its late logs. */
  lemma RetryStaysInTurn(
      cfg: Config, base: Rows, d: Database, landed: seq<Log>, logs: seq<Log>, key: LogKey, sub: int)
    requires Waiting(d.letters, key) && Advance(cfg, d, Retry(key)).Some? && Coherent(base, d, landed, logs, sub)
    requires ChainOrdered(logs) && DistinctKeys(logs) && EnrolmentFirst(base, logs)
    requires sub in d.rows.subscriptions && Subject(d.letters[key].lg) == Some(sub) ==>
      forall l :: l in Late(d.letters, logs, sub) ==> l == d.letters[key].lg || Less(d.letters[key].lg, l)
    requires InTurn(d.letters, landed, logs, sub)
    ensures var after := Advance(cfg, d, Retry(key)).value;
      InTurn(after.letters, landed + LogsOf(StepLanding(cfg, d, Retry(key))), logs, sub)
  {
    hide Apply, Advance, StepLanding, EnrolmentFirst, LogsOf, Late, ChainOrdered, DistinctKeys, InTurn;
    var lg, time, after := d.letters[key].lg, d.letters[key].time, Advance(cfg, d, Retry(key)).value;
    RetryOutcome(cfg, d, key);
    WaitingMeans(d.letters);
    LogsOfOne(Landing(lg, time, true));
    assert lg in logs && lg.Key() == key;
    hide Coherent;
    if !Apply(cfg, d.rows, lg, time).Written? {
      assert landed + [] == landed;
      NothingChanges(d.letters, after.letters, landed, logs, sub);
    } else if Subject(lg) != Some(sub) {
      OtherLands(d.letters, after.letters, landed, logs, lg, sub);
    } else {
      if sub !in d.rows.subscriptions {
        SubscriptionDomain(cfg, d.rows, lg, time, sub);
        EnrolmentIsEarliest(base, d.letters, logs, lg);
      }
      EarliestLands(d.letters, after.letters, landed, logs, lg, sub);
    }
  }

  lemma NothingChanges(
      letters: map<LogKey, Letter>, after: map<LogKey, Letter>, landed: seq<Log>, logs: seq<Log>, sub: int)
    requires InTurn(letters, landed, logs, sub) && forall k :: Waiting(after, k) == Waiting(letters, k)
    ensures InTurn(after, landed, logs, sub)
  {
    SameWaitingSameLate(letters, after, logs, sub);
  }

  lemma EnrolmentIsEarliest(base: Rows, letters: map<LogKey, Letter>, logs: seq<Log>, lg: Log)
    requires ChainOrdered(logs) && EnrolmentFirst(base, logs) && lg in logs && lg.event.SubscriptionCreated?
    ensures forall l :: l in logs && Subject(l) == Some(lg.event.sub) ==> l == lg || Less(lg, l)
    ensures forall l :: l in Late(letters, logs, lg.event.sub) ==> l == lg || Less(lg, l)
  {
    LateMembers(letters, logs, lg.event.sub);
    var j :| 0 <= j < |logs| && logs[j] == lg;
    forall l | l in logs && Subject(l) == Some(lg.event.sub) ensures l == lg || Less(lg, l) {
      var i :| 0 <= i < |logs| && logs[i] == l;
    }
  }
}
