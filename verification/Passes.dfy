/** Whole runs of streaming, outside links and retry passes, and the order of every subscription's logs in them. */
module Passes {
  import opened Prelude
  import opened Chain
  import opened Ledger
  import opened Projection
  import opened Feed
  import opened Footprint
  import opened Replay
  import opened Conservation
  import opened Parking
  import opened Turns

  /** `runner.go`'s deadLetterRetryLimit. */
  const RETRY_LIMIT := 50

  /** The streamed logs come from a chain: ordered, keyed apart, each enrolment first of its subscription. */
  ghost predicate ChainLike(base: Database, h: seq<Step>) {
    ChainOrdered(StreamLogs(h)) && DistinctKeys(StreamLogs(h)) && EnrolmentFirst(base.rows, StreamLogs(h))
  }

  lemma {:induction false} LogsOfConcat(a: seq<Landing>, b: seq<Landing>)
    ensures LogsOf(a + b) == LogsOf(a) + LogsOf(b)
  {
    if b == [] {
      assert a + b == a;
    } else {
      assert (a + b)[..|a + b| - 1] == a + b[..|b| - 1];
      LogsOfConcat(a, b[..|b| - 1]);
    }
  }

  lemma OneMoreStep(cfg: Config, base: Database, h: seq<Step>, s: Step)
    requires Run(cfg, base, h).Some?
    ensures var d := Run(cfg, base, h).value;
      && Run(cfg, base, h + [s]) == Advance(cfg, d, s)
      && StreamLogs(h + [s]) == StreamLogs(h) + (if s.Stream? then [s.lg] else [])
      && LogsOf(Landings(cfg, base, h + [s])) == LogsOf(Landings(cfg, base, h)) + LogsOf(StepLanding(cfg, d, s))
  {
    hide Advance, StepLanding;
    assert (h + [s])[..|h + [s]| - 1] == h;
    LogsOfConcat(Landings(cfg, base, h), StepLanding(cfg, Run(cfg, base, h).value, s));
  }

  lemma FilesAreStreamed(cfg: Config, base: Database, h: seq<Step>)
    requires base.letters == map[] && Run(cfg, base, h).Some? && DistinctKeys(StreamLogs(h))
    ensures Filed(Run(cfg, base, h).value.letters, StreamLogs(h))
  {
    EveryLogIsAccounted(cfg, base, h);
  }

  lemma PrefixIsChainLike(base: Database, h: seq<Step>, s: Step)
    requires ChainLike(base, h + [s])
    ensures ChainLike(base, h)
  {
    assert (h + [s])[..|h|] == h;
    var logs, more := StreamLogs(h), StreamLogs(h + [s]);
    assert forall i :: 0 <= i < |logs| ==> more[i] == logs[i];
  }

  lemma {:induction false} ChainLikePrefix(base: Database, g: seq<Step>, h: seq<Step>)
    requires ChainLike(base, g + h)
    ensures ChainLike(base, g)
  {
    if h == [] {
      assert g + h == g;
    } else {
      assert g + h == (g + h[..|h| - 1]) + [h[|h| - 1]];
      PrefixIsChainLike(base, g + h[..|h| - 1], h[|h| - 1]);
      ChainLikePrefix(base, g, h[..|h| - 1]);
    }
  }

  // ----- What every history keeps -----

  lemma {:induction false} RunKeepsReferences(cfg: Config, base: Database, h: seq<Step>)
    requires Referential(base.rows) && Run(cfg, base, h).Some?
    ensures Referential(Run(cfg, base, h).value.rows)
  {
    hide Advance, Referential;
    if h != [] {
      RunKeepsReferences(cfg, base, h[..|h| - 1]);
      StepKeepsReferences(cfg, Run(cfg, base, h[..|h| - 1]).value, h[|h| - 1]);
    }
  }

  lemma {:induction false} LandedMeansListed(ls: seq<Landing>, lg: Log)
    ensures Landed(ls, lg, false) + Landed(ls, lg, true) > 0 <==> lg in LogsOf(ls)
  {
    if ls != [] { LandedMeansListed(ls[..|ls| - 1], lg); }
  }

  /** Landed logs of a subscription mean that it exists, and one this stream enrolled has its enrolment among them. */
  ghost predicate LandingsShow(base: Rows, rows: Rows, landed: seq<Log>, sub: int) {
    && (sub !in rows.subscriptions ==> About(landed, sub) == [] && sub !in base.subscriptions)
    && (sub in rows.subscriptions && sub !in base.subscriptions ==> EnrolmentLanded(landed, sub))
  }

  lemma LandingShows(
      cfg: Config, base: Rows, rows: Rows, landed: seq<Log>, lg: Log, time: int, sub: int)
    requires Apply(cfg, rows, lg, time).Written? && LandingsShow(base, rows, landed, sub)
    ensures LandingsShow(base, Apply(cfg, rows, lg, time).rows, landed + [lg], sub)
  {
    SubscriptionDomain(cfg, rows, lg, time, sub);
    AboutOneMore(landed, lg, sub);
    hide Apply, About;
    assert lg in landed + [lg] && forall l :: l in landed ==> l in landed + [lg];
  }

  lemma StepShows(cfg: Config, base: Rows, d: Database, landed: seq<Log>, s: Step, sub: int)
    requires Advance(cfg, d, s).Some? && LandingsShow(base, d.rows, landed, sub)
    ensures LandingsShow(base, Advance(cfg, d, s).value.rows, landed + LogsOf(StepLanding(cfg, d, s)), sub)
  {
    assert LogsOf([]) == [];
    hide Apply, LogsOf, About, LinkOutside;
    assert landed + [] == landed;
    match s
    case Stream(lg, time) =>
      LogsOfOne(Landing(lg, time, false));
      if Apply(cfg, d.rows, lg, time).Written? { LandingShows(cfg, base, d.rows, landed, lg, time, sub); }
    case Retry(key) =>
      var l := d.letters[key];
      LogsOfOne(Landing(l.lg, l.time, true));
      if Apply(cfg, d.rows, l.lg, l.time).Written? { LandingShows(cfg, base, d.rows, landed, l.lg, l.time, sub); }
    case Visit(m, id) => LinkKeepsSubscriptions(d.rows, m, id);
    case Save(_, _) =>
  }

  lemma LinkKeepsSubscriptions(rows: Rows, m: MerchantId, id: int)
    ensures LinkOutside(rows, m, id).subscriptions == rows.subscriptions
  {
  }

  lemma {:induction false} HistoryShows(cfg: Config, base: Database, h: seq<Step>, sub: int)
    requires Run(cfg, base, h).Some?
    ensures LandingsShow(base.rows, Run(cfg, base, h).value.rows, LogsOf(Landings(cfg, base, h)), sub)
  {
    hide Advance, StepLanding, LandingsShow, Run, Landings, LogsOf;
    if h == [] {
      NothingShown(cfg, base, sub);
    } else {
      var front, s := h[..|h| - 1], h[|h| - 1];
      assert h == front + [s];
      RunConcat(cfg, base, front, [s]);
      HistoryShows(cfg, base, front, sub);
      OneMoreStep(cfg, base, front, s);
      StepShows(cfg, base.rows, Run(cfg, base, front).value, LogsOf(Landings(cfg, base, front)), s, sub);
    }
  }

  lemma NothingShown(cfg: Config, base: Database, sub: int)
    ensures LandingsShow(base.rows, Run(cfg, base, []).value.rows, LogsOf(Landings(cfg, base, [])), sub)
  {
  }

  lemma {:induction false} LandedAreIn(ls: seq<Landing>, logs: seq<Log>)
    requires forall i :: 0 <= i < |ls| ==> ls[i].lg in logs
    ensures forall l :: l in LogsOf(ls) ==> l in logs
  {
    if ls != [] { LandedAreIn(ls[..|ls| - 1], logs); }
  }

  /** Whatever the history, a subscription is coherent after it. */
  lemma HistoryIsCoherent(cfg: Config, base: Database, h: seq<Step>, sub: int)
    requires base.letters == map[] && Run(cfg, base, h).Some? && DistinctKeys(StreamLogs(h))
    ensures Coherent(base.rows, Run(cfg, base, h).value, LogsOf(Landings(cfg, base, h)), StreamLogs(h), sub)
    ensures forall l :: l in LogsOf(Landings(cfg, base, h)) ==> l in StreamLogs(h)
  {
    var d, ls, logs := Run(cfg, base, h).value, Landings(cfg, base, h), StreamLogs(h);
    hide Run, Landings, StreamLogs, LandingsShow, Coherent, FromStream, Accounted;
    EveryLogIsAccounted(cfg, base, h);
    HistoryShows(cfg, base, h, sub);
    AccountedIsCoherent(base.rows, d, ls, logs, sub);
  }

  lemma AccountedIsCoherent(base: Rows, d: Database, ls: seq<Landing>, logs: seq<Log>, sub: int)
    requires FromStream(d.letters, ls, logs) && forall l :: l in logs ==> Accounted(d.letters, ls, l)
    requires LandingsShow(base, d.rows, LogsOf(ls), sub)
    ensures Coherent(base, d, LogsOf(ls), logs, sub)
    ensures forall l :: l in LogsOf(ls) ==> l in logs
  {
    LandedAreIn(ls, logs);
    AboutMembers(LogsOf(ls), sub);
    var landed := LogsOf(ls);
    hide LogsOf, About, Landed, EnrolmentLanded;
    forall l | l in logs && Waiting(d.letters, l.Key()) ensures l !in landed {
      LandedMeansListed(ls, l);
    }
    if sub !in d.rows.subscriptions {
      forall l | l in logs && Subject(l) == Some(sub) ensures Waiting(d.letters, l.Key()) {
        LandedMeansListed(ls, l);
        assert l !in About(landed, sub);
      }
    }
  }

  // ----- Taking turns -----

  /** The step streams a log of the subscription past one of its logs that still waits. */
  ghost predicate OutOfTurn(cfg: Config, base: Database, before: seq<Step>, s: Step, sub: int) {
    s.Stream? && Subject(s.lg) == Some(sub) && Run(cfg, base, before).Some?
    && Overtakes(Run(cfg, base, before).value, s.lg)
  }

  /** No log of the subscription was streamed out of turn. */
  ghost predicate TookTurns(cfg: Config, base: Database, h: seq<Step>, sub: int) {
    h == [] || (TookTurns(cfg, base, h[..|h| - 1], sub) && !OutOfTurn(cfg, base, h[..|h| - 1], h[|h| - 1], sub))
  }

  /** After the history the subscription's landed logs, then its waiting ones, are its streamed ones. */
  ghost predicate InTurnAfter(cfg: Config, base: Database, h: seq<Step>, sub: int) {
    Run(cfg, base, h).Some?
    && InTurn(Run(cfg, base, h).value.letters, LogsOf(Landings(cfg, base, h)), StreamLogs(h), sub)
  }

  ghost predicate JumpedAfter(cfg: Config, base: Database, h: seq<Step>, sub: int) {
    Jumped(LogsOf(Landings(cfg, base, h)), StreamLogs(h), sub)
  }

  lemma TurnsOneMore(cfg: Config, base: Database, h: seq<Step>, s: Step, sub: int)
    ensures TookTurns(cfg, base, h + [s], sub) <==> TookTurns(cfg, base, h, sub) && !OutOfTurn(cfg, base, h, s, sub)
  {
    hide OutOfTurn;
    assert (h + [s])[..|h|] == h;
  }

  lemma {:induction false} TurnsOfPrefix(cfg: Config, base: Database, g: seq<Step>, h: seq<Step>, sub: int)
    requires TookTurns(cfg, base, g + h, sub)
    ensures TookTurns(cfg, base, g, sub)
  {
    hide OutOfTurn;
    if h == [] {
      assert g + h == g;
    } else {
      assert (g + h)[..|g + h| - 1] == g + h[..|h| - 1];
      TurnsOfPrefix(cfg, base, g, h[..|h| - 1], sub);
    }
  }

  lemma PrefixRuns(cfg: Config, base: Database, g: seq<Step>, h: seq<Step>)
    requires Run(cfg, base, g + h).Some?
    ensures Run(cfg, base, g).Some?
  {
    RunConcat(cfg, base, g, h);
  }

  lemma StepOutOfTurnJumps(cfg: Config, base: Database, h: seq<Step>, s: Step, sub: int)
    requires base.letters == map[] && Referential(base.rows) && ChainLike(base, h + [s])
    requires Run(cfg, base, h + [s]).Some? && OutOfTurn(cfg, base, h, s, sub)
    ensures JumpedAfter(cfg, base, h + [s], sub)
  {
    var d, landed, logs := Run(cfg, base, h).value, LogsOf(Landings(cfg, base, h)), StreamLogs(h);
    OneMoreStep(cfg, base, h, s);
    PrefixIsChainLike(base, h, s);
    hide Advance, StepLanding, Jumped, Coherent, Referential, Run;
    hide StreamLogs, Landings, LogsOf, EnrolmentFirst, Overtakes;
    HistoryIsCoherent(cfg, base, h, sub);
    RunKeepsReferences(cfg, base, h);
    OvertakingJumps(cfg, base.rows, d, landed, logs, s.lg, s.time, sub);
  }

  lemma JumpedStaysJumped(cfg: Config, base: Database, h: seq<Step>, s: Step, sub: int)
    requires Run(cfg, base, h).Some? && JumpedAfter(cfg, base, h, sub)
    ensures JumpedAfter(cfg, base, h + [s], sub)
  {
    hide Advance, StepLanding, Jumped, Run, StreamLogs, Landings, LogsOf;
    OneMoreStep(cfg, base, h, s);
    JumpStays(LogsOf(Landings(cfg, base, h)), LogsOf(StepLanding(cfg, Run(cfg, base, h).value, s)), StreamLogs(h),
              if s.Stream? then [s.lg] else [], sub);
  }

  /** A log streamed out of turn, in any history at all, leaves one that was jumped. */
  lemma {:induction false} OvertakenIsJumped(cfg: Config, base: Database, h: seq<Step>, sub: int)
    requires base.letters == map[] && Referential(base.rows) && ChainLike(base, h) && Run(cfg, base, h).Some?
    requires !TookTurns(cfg, base, h, sub)
    ensures JumpedAfter(cfg, base, h, sub)
  {
    var front, s := h[..|h| - 1], h[|h| - 1];
    assert h == front + [s];
    hide OutOfTurn, JumpedAfter, Run, ChainLike, Referential;
    PrefixRuns(cfg, base, front, [s]);
    PrefixIsChainLike(base, front, s);
    if OutOfTurn(cfg, base, front, s, sub) {
      StepOutOfTurnJumps(cfg, base, front, s, sub);
    } else {
      OvertakenIsJumped(cfg, base, front, sub);
      JumpedStaysJumped(cfg, base, front, s, sub);
    }
  }

  lemma JumpedIsOutOfOrder(cfg: Config, base: Database, h: seq<Step>, sub: int)
    requires ChainLike(base, h) && JumpedAfter(cfg, base, h, sub)
    ensures !(About(LogsOf(Landings(cfg, base, h)), sub) <= About(StreamLogs(h), sub))
    ensures !InTurnAfter(cfg, base, h, sub)
  {
    hide Jumped, Run, StreamLogs, Landings, LogsOf;
    JumpedIsNoPrefix(LogsOf(Landings(cfg, base, h)), StreamLogs(h), sub);
  }

  /**
   Order lost is lost for good: once a log was streamed out of turn, no continuation, whatever its passes, makes what
   has landed of the subscription a beginning of what was streamed.
   */
  lemma NeverInOrderAgain(cfg: Config, base: Database, h: seq<Step>, more: seq<Step>, sub: int)
    requires base.letters == map[] && Referential(base.rows)
    requires ChainLike(base, h + more) && Run(cfg, base, h + more).Some? && !TookTurns(cfg, base, h, sub)
    ensures !(About(LogsOf(Landings(cfg, base, h + more)), sub) <= About(StreamLogs(h + more), sub))
  {
    hide TookTurns, Run, Landings, LogsOf, StreamLogs, About, ChainLike;
    if TookTurns(cfg, base, h + more, sub) { TurnsOfPrefix(cfg, base, h, more, sub); }
    OvertakenIsJumped(cfg, base, h + more, sub);
    JumpedIsOutOfOrder(cfg, base, h + more, sub);
  }

  // ----- Streaming in turn -----

  lemma StreamedInTurn(cfg: Config, base: Database, h: seq<Step>, lg: Log, time: int, sub: int)
    requires base.letters == map[] && ChainLike(base, h + [Stream(lg, time)])
      && Run(cfg, base, h + [Stream(lg, time)]).Some?
    requires InTurnAfter(cfg, base, h, sub) && !OutOfTurn(cfg, base, h, Stream(lg, time), sub)
    ensures InTurnAfter(cfg, base, h + [Stream(lg, time)], sub)
  {
    var s, d, landed, logs := Stream(lg, time), Run(cfg, base, h).value, LogsOf(Landings(cfg, base, h)), StreamLogs(h);
    OneMoreStep(cfg, base, h, s);
    PrefixIsChainLike(base, h, s);
    hide Advance, StepLanding, InTurn, Coherent, Run, StreamLogs;
    hide Landings, LogsOf, EnrolmentFirst, Overtakes, ChainOrdered;
    HistoryIsCoherent(cfg, base, h, sub);
    StreamStaysInTurn(cfg, base.rows, d, landed, logs, lg, time, sub);
  }

  lemma QuietInTurn(cfg: Config, base: Database, h: seq<Step>, s: Step, sub: int)
    requires (s.Visit? || s.Save?) && InTurnAfter(cfg, base, h, sub)
    ensures InTurnAfter(cfg, base, h + [s], sub)
  {
    var d, landed, logs := Run(cfg, base, h).value, LogsOf(Landings(cfg, base, h)), StreamLogs(h);
    assert LogsOf([]) == [];
    hide Advance, StepLanding, Run, StreamLogs, Landings, LogsOf;
    OneMoreStep(cfg, base, h, s);
    QuietStep(cfg, d, s);
    assert landed + [] == landed && logs + [] == logs;
  }

  // ----- Passes -----

  /** The committed steps of a pass: one retry per listed letter in order, with outside links anywhere between. */
  ghost predicate FollowsPass(steps: seq<Step>, todo: seq<Log>)
    decreases |steps|
  {
    if steps == [] then todo == []
    else if steps[0].Visit? then FollowsPass(steps[1..], todo)
    else steps[0].Retry? && todo != [] && steps[0].key == todo[0].Key() && FollowsPass(steps[1..], todo[1..])
  }

  /**
   Inside a pass over `all`, `i` letters in: the rest of the list still waits, whatever waits was listed, and of an
   existing subscription only what is still to come.
   */
  ghost predicate PassAt(d: Database, all: seq<Log>, i: nat, sub: int) {
    && ChainOrdered(all) && DistinctKeys(all) && i <= |all|
    && (forall j :: i <= j < |all| ==> Waiting(d.letters, all[j].Key()) && d.letters[all[j].Key()].lg == all[j])
    && (forall k :: Waiting(d.letters, k) ==> d.letters[k].lg in all)
    && (sub in d.rows.subscriptions ==>
          forall k :: Waiting(d.letters, k) && Subject(d.letters[k].lg) == Some(sub) ==> d.letters[k].lg in all[i..])
  }

  lemma PassBegins(d: Database, logs: seq<Log>, all: seq<Log>, sub: int)
    requires WaitingAre(d.letters, all) && Filed(d.letters, logs)
    ensures PassAt(d, all, 0, sub)
  {
    assert all[0..] == all;
    forall i, j | 0 <= i < j < |all| ensures all[i].Key() != all[j].Key() {
      assert Less(all[i], all[j]);
      assert d.letters[all[i].Key()].lg == all[i] && d.letters[all[j].Key()].lg == all[j];
    }
  }

  /** At the end of the list an existing subscription has nothing waiting. */
  ghost predicate Settled(d: Database, sub: int) {
    sub in d.rows.subscriptions ==> !HasWaiting(d.letters, sub)
  }

  lemma PassEnds(d: Database, all: seq<Log>, sub: int)
    requires PassAt(d, all, |all|, sub)
    ensures Settled(d, sub)
  {
  }

  /** The enrolment of a subscription that exists has landed, so it does not wait. */
  lemma NoEnrolmentWaits(base: Rows, d: Database, landed: seq<Log>, logs: seq<Log>, key: LogKey, sub: int)
    requires Coherent(base, d, landed, logs, sub) && EnrolmentFirst(base, logs) && forall l :: l in landed ==> l in logs
    requires sub in d.rows.subscriptions && Waiting(d.letters, key) && Subject(d.letters[key].lg) == Some(sub)
    ensures !d.letters[key].lg.event.SubscriptionCreated?
  {
  }

  /** What a retry does to the letters carries the pass one letter on. */
  lemma PassMoves(d: Database, after: Database, all: seq<Log>, i: nat, sub: int)
    requires PassAt(d, all, i, sub) && i < |all|
    requires forall k :: Waiting(after.letters, k) ==> k in d.letters && after.letters[k].lg == d.letters[k].lg
    requires forall k :: k != all[i].Key() ==> Waiting(after.letters, k) == Waiting(d.letters, k)
    requires sub in after.rows.subscriptions && Subject(all[i]) == Some(sub) ==> !Waiting(after.letters, all[i].Key())
    requires sub in after.rows.subscriptions && sub !in d.rows.subscriptions ==>
      forall k :: Waiting(d.letters, k) && Subject(d.letters[k].lg) == Some(sub) ==>
        d.letters[k].lg == all[i] || Less(all[i], d.letters[k].lg)
    requires forall k :: Waiting(d.letters, k) ==> d.letters[k].lg.Key() == k
    ensures PassAt(after, all, i + 1, sub)
  {
    WaitingMeans(after.letters);
    hide Waiting;
    forall j | i + 1 <= j < |all|
      ensures Waiting(after.letters, all[j].Key()) && after.letters[all[j].Key()].lg == all[j]
    {
      assert all[j].Key() != all[i].Key();
    }
    hide DistinctKeys;
    if sub in after.rows.subscriptions {
      forall k | Waiting(after.letters, k) && Subject(after.letters[k].lg) == Some(sub)
        ensures after.letters[k].lg in all[i + 1..]
      {
        assert Waiting(d.letters, k);
        LaterListed(all, i, after.letters[k].lg);
      }
    }
  }

  lemma LaterListed(all: seq<Log>, i: nat, l: Log)
    requires ChainOrdered(all) && i < |all| && l != all[i] && l in all
    ensures l in all[i..] ==> l in all[i + 1..]
    ensures Less(all[i], l) ==> l in all[i + 1..]
  {
    var j :| 0 <= j < |all| && all[j] == l;
    if j > i { assert all[i + 1..][j - i - 1] == l; }
    if l in all[i..] {
      var n :| 0 <= n < |all[i..]| && all[i..][n] == l;
      assert all[i + 1..][n - 1] == l;
    }
  }

  /** A listed letter of an existing subscription lands, and one that enrols it comes before its others. */
  lemma PassGoesOn(
      cfg: Config, base: Rows, d: Database, landed: seq<Log>, logs: seq<Log>, all: seq<Log>, i: nat, sub: int)
    requires PassAt(d, all, i, sub) && i < |all| && Referential(d.rows)
    requires Coherent(base, d, landed, logs, sub) && forall l :: l in landed ==> l in logs
    requires ChainOrdered(logs) && DistinctKeys(logs) && EnrolmentFirst(base, logs)
    requires Advance(cfg, d, Retry(all[i].Key())).Some?
    ensures PassAt(Advance(cfg, d, Retry(all[i].Key())).value, all, i + 1, sub)
  {
    var lg, key, time := all[i], all[i].Key(), d.letters[all[i].Key()].time;
    var after := Advance(cfg, d, Retry(key)).value;
    RetryOutcome(cfg, d, key);
    WaitingMeans(d.letters);
    WaitingMeans(after.letters);
    var lands := Apply(cfg, d.rows, lg, time).Written?;
    if lands { SubscriptionDomain(cfg, d.rows, lg, time, sub); }
    if sub in d.rows.subscriptions && Subject(lg) == Some(sub) {
      NoEnrolmentWaits(base, d, landed, logs, key, sub);
      MerchantOf(d.rows, sub);
      ExistingSubscriptionNeverParks(cfg, d.rows, lg, time);
    }
    if sub !in d.rows.subscriptions && lands && lg.event.SubscriptionCreated? {
      EnrolmentIsEarliest(base, d.letters, logs, lg);
    }
    hide Apply, Advance, Referential, EnrolmentFirst, EnrolmentLanded, About, Waiting, ChainOrdered, DistinctKeys;
    PassMoves(d, after, all, i, sub);
  }

  /** What a pass retries next is the earliest that an existing subscription has waiting. */
  lemma EarliestListed(d: Database, logs: seq<Log>, all: seq<Log>, i: nat, sub: int)
    requires PassAt(d, all, i, sub) && i < |all| && sub in d.rows.subscriptions
    requires Filed(d.letters, logs) && DistinctKeys(logs)
    ensures forall l :: l in Late(d.letters, logs, sub) ==> l == all[i] || Less(all[i], l)
  {
    LateMembers(d.letters, logs, sub);
    WaitingMeans(d.letters);
    hide Late, Waiting;
    forall l | l in Late(d.letters, logs, sub) ensures l == all[i] || Less(all[i], l) {
      LetterOf(d.letters, logs, l);
      assert l in all[i..];
      var n :| 0 <= n < |all[i..]| && all[i..][n] == l;
      assert all[i + n] == l;
    }
  }

  /** One retry of a pass. */
  lemma RetriedInTurn(cfg: Config, base: Database, h: seq<Step>, all: seq<Log>, i: nat, sub: int)
    requires base.letters == map[] && Referential(base.rows) && ChainLike(base, h) && Run(cfg, base, h).Some?
    requires PassAt(Run(cfg, base, h).value, all, i, sub) && i < |all|
    requires Run(cfg, base, h + [Retry(all[i].Key())]).Some?
    ensures PassAt(Run(cfg, base, h + [Retry(all[i].Key())]).value, all, i + 1, sub)
    ensures InTurnAfter(cfg, base, h, sub) ==> InTurnAfter(cfg, base, h + [Retry(all[i].Key())], sub)
  {
    var key, d, landed, logs := all[i].Key(), Run(cfg, base, h).value, LogsOf(Landings(cfg, base, h)), StreamLogs(h);
    OneMoreStep(cfg, base, h, Retry(key));
    assert Waiting(d.letters, key) && d.letters[key].lg == all[i];
    hide Advance, StepLanding, Run, StreamLogs, Landings, LogsOf, Referential, Waiting, EnrolmentFirst, PassAt, InTurn;
    HistoryIsCoherent(cfg, base, h, sub);
    RunKeepsReferences(cfg, base, h);
    PassGoesOn(cfg, base.rows, d, landed, logs, all, i, sub);
    if sub in d.rows.subscriptions { EarliestListed(d, logs, all, i, sub); }
    hide Coherent, Late;
    assert logs + [] == logs;
    if InTurnAfter(cfg, base, h, sub) { RetryStaysInTurn(cfg, base.rows, d, landed, logs, key, sub); }
  }

  lemma VisitKeepsPass(cfg: Config, base: Database, h: seq<Step>, s: Step, all: seq<Log>, i: nat, sub: int)
    requires Run(cfg, base, h).Some? && s.Visit? && PassAt(Run(cfg, base, h).value, all, i, sub)
    ensures Run(cfg, base, h + [s]).Some? && PassAt(Run(cfg, base, h + [s]).value, all, i, sub)
  {
    OneMoreStep(cfg, base, h, s);
    QuietStep(cfg, Run(cfg, base, h).value, s);
    LinkKeepsSubscriptions(Run(cfg, base, h).value.rows, s.merchant, s.onchainId);
    hide Run, LinkOutside, Waiting;
  }

  lemma KeepsStream(base: Database, h: seq<Step>, s: Step)
    ensures !s.Stream? ==> StreamLogs(h + [s]) == StreamLogs(h)
    ensures !s.Stream? && ChainLike(base, h) ==> ChainLike(base, h + [s])
  {
    assert (h + [s])[..|h|] == h;
  }

  /** A pass, from the `i`-th letter of its list up to the `n`-th. */
  lemma {:induction false} PassInTurn(
      cfg: Config, base: Database, h: seq<Step>, steps: seq<Step>, all: seq<Log>, i: nat, n: nat, sub: int)
    requires base.letters == map[] && Referential(base.rows) && ChainLike(base, h) && Run(cfg, base, h).Some?
    requires PassAt(Run(cfg, base, h).value, all, i, sub) && i <= n <= |all|
    requires FollowsPass(steps, all[i..n]) && Run(cfg, base, h + steps).Some?
    ensures PassAt(Run(cfg, base, h + steps).value, all, n, sub)
    ensures InTurnAfter(cfg, base, h, sub) ==> InTurnAfter(cfg, base, h + steps, sub)
    ensures TookTurns(cfg, base, h, sub) ==> TookTurns(cfg, base, h + steps, sub)
    decreases |steps|
  {
    if steps == [] {
      assert h + steps == h;
      assert i == n;
    } else {
      var s, rest := steps[0], steps[1..];
      assert h + steps == h + [s] + rest;
      PrefixRuns(cfg, base, h + [s], rest);
      KeepsStream(base, h, s);
      TurnsOneMore(cfg, base, h, s, sub);
      hide TookTurns, Run, StreamLogs, ChainLike, PassAt, InTurnAfter, Referential;
      if s.Visit? {
        if InTurnAfter(cfg, base, h, sub) { QuietInTurn(cfg, base, h, s, sub); }
        VisitKeepsPass(cfg, base, h, s, all, i, sub);
        PassInTurn(cfg, base, h + [s], rest, all, i, n, sub);
      } else {
        assert all[i..n][0] == all[i] && all[i..n][1..] == all[i + 1..n];
        RetriedInTurn(cfg, base, h, all, i, sub);
        PassInTurn(cfg, base, h + [s], rest, all, i + 1, n, sub);
      }
    }
  }

  // ----- Phases -----

  /** Streamed batches with their saved cursors and outside links, in any number. */
  ghost predicate Streaming(steps: seq<Step>) {
    forall i :: 0 <= i < |steps| ==> !steps[i].Retry?
  }

  /** A pass takes the waiting letters in chain order from the earliest on, `n` of them, and no more than its limit. */
  ghost predicate PassOf(d: Database, steps: seq<Step>, all: seq<Log>, n: nat) {
    WaitingAre(d.letters, all) && n <= |all| && FollowsPass(steps, all[..n])
  }

  ghost predicate PartialPass(d: Database, steps: seq<Step>, limit: Option<nat>) {
    exists all, n: nat :: PassOf(d, steps, all, n) && (limit.Some? ==> n <= limit.value)
  }

  /** The pass comes to the end of its list. */
  ghost predicate CompletePass(d: Database, steps: seq<Step>) {
    exists all :: PassOf(d, steps, all, |all|)
  }

  function Flatten(phases: seq<seq<Step>>): seq<Step> {
    if phases == [] then [] else Flatten(phases[..|phases| - 1]) + phases[|phases| - 1]
  }

  /**
   A run of streaming phases and retry passes in any order. A pass may be cut short anywhere, by a failure or by its
   limit; outside links fall anywhere.
   */
  ghost predicate Patient(cfg: Config, base: Database, phases: seq<seq<Step>>, limit: Option<nat>) {
    phases == [] ||
    (Patient(cfg, base, phases[..|phases| - 1], limit) &&
     (Streaming(phases[|phases| - 1]) ||
      (Run(cfg, base, Flatten(phases[..|phases| - 1])).Some? &&
       PartialPass(Run(cfg, base, Flatten(phases[..|phases| - 1])).value, phases[|phases| - 1], limit))))
  }

  /** A patient run whose passes all come to the end of their lists, however long. */
  ghost predicate Disciplined(cfg: Config, base: Database, phases: seq<seq<Step>>) {
    phases == [] ||
    (Disciplined(cfg, base, phases[..|phases| - 1]) &&
     (Streaming(phases[|phases| - 1]) ||
      (Run(cfg, base, Flatten(phases[..|phases| - 1])).Some? &&
       CompletePass(Run(cfg, base, Flatten(phases[..|phases| - 1])).value, phases[|phases| - 1]))))
  }

  lemma OneMorePhase(
      cfg: Config, base: Database, phases: seq<seq<Step>>, limit: Option<nat>, phase: seq<Step>)
    requires Patient(cfg, base, phases, limit)
    requires Streaming(phase)
      || (Run(cfg, base, Flatten(phases)).Some? && PartialPass(Run(cfg, base, Flatten(phases)).value, phase, limit))
    ensures Patient(cfg, base, phases + [phase], limit) && Flatten(phases + [phase]) == Flatten(phases) + phase
  {
    hide Run, PartialPass, Streaming;
    assert (phases + [phase])[..|phases + [phase]| - 1] == phases;
  }

  /** A pass that breaks off after the earliest letter. */
  lemma FirstRetryIsAPass(d: Database, all: seq<Log>, limit: nat)
    requires WaitingAre(d.letters, all) && all != [] && limit > 0
    ensures PartialPass(d, [Retry(all[0].Key())], Some(limit))
  {
    hide WaitingAre;
    var steps := [Retry(all[0].Key())];
    assert all[..1] == [all[0]] && steps[1..] == [] && [all[0]][1..] == [];
    assert FollowsPass([], []) && FollowsPass(steps, all[..1]);
    assert PassOf(d, steps, all, 1);
  }

  lemma CompleteIsPartial(d: Database, steps: seq<Step>)
    requires CompletePass(d, steps)
    ensures PartialPass(d, steps, None)
  {
  }

  lemma {:induction false} DisciplinedIsPatient(cfg: Config, base: Database, phases: seq<seq<Step>>)
    requires Disciplined(cfg, base, phases)
    ensures Patient(cfg, base, phases, None)
  {
    hide Run, CompletePass, PartialPass, Streaming;
    if phases != [] {
      DisciplinedIsPatient(cfg, base, phases[..|phases| - 1]);
      if !Streaming(phases[|phases| - 1]) {
        CompleteIsPartial(Run(cfg, base, Flatten(phases[..|phases| - 1])).value, phases[|phases| - 1]);
      }
    }
  }

  lemma {:induction false} StreamingInTurn(cfg: Config, base: Database, h: seq<Step>, steps: seq<Step>, sub: int)
    requires base.letters == map[] && InTurnAfter(cfg, base, h, sub) && Streaming(steps)
    requires ChainLike(base, h + steps) && Run(cfg, base, h + steps).Some? && TookTurns(cfg, base, h + steps, sub)
    ensures InTurnAfter(cfg, base, h + steps, sub)
  {
    if steps == [] {
      assert h + steps == h;
    } else {
      var front, s := steps[..|steps| - 1], steps[|steps| - 1];
      assert h + steps == (h + front) + [s];
      PrefixIsChainLike(base, h + front, s);
      PrefixRuns(cfg, base, h + front, [s]);
      TurnsOneMore(cfg, base, h + front, s, sub);
      hide InTurnAfter, Run, ChainLike, TookTurns, OutOfTurn;
      StreamingInTurn(cfg, base, h, front, sub);
      if s.Stream? {
        StreamedInTurn(cfg, base, h + front, s.lg, s.time, sub);
      } else {
        QuietInTurn(cfg, base, h + front, s, sub);
      }
    }
  }

  lemma PartialPassInTurn(
      cfg: Config, base: Database, h: seq<Step>, steps: seq<Step>, limit: Option<nat>, sub: int)
    requires base.letters == map[] && Referential(base.rows) && ChainLike(base, h)
    requires InTurnAfter(cfg, base, h, sub) && PartialPass(Run(cfg, base, h).value, steps, limit)
    requires Run(cfg, base, h + steps).Some?
    ensures InTurnAfter(cfg, base, h + steps, sub)
  {
    var d := Run(cfg, base, h).value;
    var all, n: nat :| PassOf(d, steps, all, n);
    assert all[0..n] == all[..n];
    FilesAreStreamed(cfg, base, h);
    PassBegins(d, StreamLogs(h), all, sub);
    hide Run, ChainLike, InTurnAfter, TookTurns, PassAt, FollowsPass, Referential;
    PassInTurn(cfg, base, h, steps, all, 0, n, sub);
  }

  lemma InTurnAtFirst(cfg: Config, base: Database, sub: int)
    ensures InTurnAfter(cfg, base, [], sub)
  {
  }

  lemma {:induction false} PatientRunsInTurn(
      cfg: Config, base: Database, phases: seq<seq<Step>>, limit: Option<nat>, sub: int)
    requires base.letters == map[] && Referential(base.rows) && Patient(cfg, base, phases, limit)
    requires ChainLike(base, Flatten(phases)) && Run(cfg, base, Flatten(phases)).Some?
    requires TookTurns(cfg, base, Flatten(phases), sub)
    ensures InTurnAfter(cfg, base, Flatten(phases), sub)
  {
    if phases == [] {
      InTurnAtFirst(cfg, base, sub);
    } else {
      var front, last := phases[..|phases| - 1], phases[|phases| - 1];
      hide InTurnAfter, Run, ChainLike, TookTurns, PartialPass, Streaming, Referential;
      ChainLikePrefix(base, Flatten(front), last);
      PrefixRuns(cfg, base, Flatten(front), last);
      TurnsOfPrefix(cfg, base, Flatten(front), last, sub);
      PatientRunsInTurn(cfg, base, front, limit, sub);
      if Streaming(last) {
        StreamingInTurn(cfg, base, Flatten(front), last, sub);
      } else {
        PartialPassInTurn(cfg, base, Flatten(front), last, limit, sub);
      }
    }
  }

  /**
   The exact condition for per-subscription order. In a run of streaming and retry passes, each pass taking the earliest
   waiting letters in order and cut short anywhere or at any limit, with merchants linked from outside at any moment:
   what has landed of a subscription, followed by what waits of it, is what was streamed of it in chain order, if and
   only if none of its logs was streamed while the subscription existed and still had a letter waiting.
   */
  lemma TurnsDecideOrder(cfg: Config, base: Database, phases: seq<seq<Step>>, limit: Option<nat>, sub: int)
    requires base.letters == map[] && Referential(base.rows) && Patient(cfg, base, phases, limit)
    requires ChainLike(base, Flatten(phases)) && Run(cfg, base, Flatten(phases)).Some?
    ensures InTurnAfter(cfg, base, Flatten(phases), sub) <==> TookTurns(cfg, base, Flatten(phases), sub)
  {
    hide *;
    if TookTurns(cfg, base, Flatten(phases), sub) {
      PatientRunsInTurn(cfg, base, phases, limit, sub);
    } else {
      OvertakenIsJumped(cfg, base, Flatten(phases), sub);
      JumpedIsOutOfOrder(cfg, base, Flatten(phases), sub);
    }
  }

  // ----- Complete passes -----

  ghost predicate SettledAfter(cfg: Config, base: Database, h: seq<Step>, sub: int) {
    Run(cfg, base, h).Some? && Settled(Run(cfg, base, h).value, sub)
  }

  /** What an enrolment creates has nothing waiting, and no log of a subscription that exists is parked. */
  lemma StreamKeepsSettled(
      cfg: Config, base: Rows, d: Database, landed: seq<Log>, logs: seq<Log>, lg: Log, time: int, sub: int)
    requires Advance(cfg, d, Stream(lg, time)).Some? && Coherent(base, d, landed, logs, sub) && Referential(d.rows)
    requires EnrolmentFirst(base, logs + [lg]) && forall l :: l in landed ==> l in logs
    requires Settled(d, sub)
    ensures Settled(Advance(cfg, d, Stream(lg, time)).value, sub)
  {
    var after := Advance(cfg, d, Stream(lg, time)).value;
    WaitingMeans(d.letters);
    if Apply(cfg, d.rows, lg, time).Unresolvable? {
      ParkOutcome(cfg, d, lg, time);
      if sub in d.rows.subscriptions && Subject(lg) == Some(sub) {
        if lg.event.SubscriptionCreated? {
          EnrolmentStreamsFirst(base, logs, lg);
          assert false;
        }
        MerchantOf(d.rows, sub);
        ExistingSubscriptionNeverParks(cfg, d.rows, lg, time);
      }
    } else {
      StreamOutcome(cfg, d, lg, time);
      SubscriptionDomain(cfg, d.rows, lg, time, sub);
      if lg.event.SubscriptionCreated? { EnrolmentStreamsFirst(base, logs, lg); }
    }
    hide Apply, Advance, Referential, EnrolmentFirst;
  }

  lemma StreamedSettled(cfg: Config, base: Database, h: seq<Step>, lg: Log, time: int, sub: int)
    requires base.letters == map[] && Referential(base.rows) && ChainLike(base, h + [Stream(lg, time)])
    requires Run(cfg, base, h + [Stream(lg, time)]).Some? && SettledAfter(cfg, base, h, sub)
    ensures SettledAfter(cfg, base, h + [Stream(lg, time)], sub)
  {
    var s, d, landed, logs := Stream(lg, time), Run(cfg, base, h).value, LogsOf(Landings(cfg, base, h)), StreamLogs(h);
    OneMoreStep(cfg, base, h, s);
    PrefixIsChainLike(base, h, s);
    hide Advance, Settled, Coherent, Run, StreamLogs, Landings, LogsOf, EnrolmentFirst, Referential, ChainOrdered;
    HistoryIsCoherent(cfg, base, h, sub);
    RunKeepsReferences(cfg, base, h);
    StreamKeepsSettled(cfg, base.rows, d, landed, logs, lg, time, sub);
  }

  lemma QuietSettled(cfg: Config, base: Database, h: seq<Step>, s: Step, sub: int)
    requires (s.Visit? || s.Save?) && SettledAfter(cfg, base, h, sub)
    ensures SettledAfter(cfg, base, h + [s], sub)
  {
    var d := Run(cfg, base, h).value;
    if s.Visit? { LinkKeepsSubscriptions(d.rows, s.merchant, s.onchainId); }
    hide LinkOutside, Run, Waiting, Subject;
    RunOneMore(cfg, base, h, s);
    QuietStep(cfg, d, s);
  }

  lemma SettledIsInTurn(cfg: Config, base: Database, h: seq<Step>, s: Step, sub: int)
    requires SettledAfter(cfg, base, h, sub)
    ensures !OutOfTurn(cfg, base, h, s, sub)
  {
    hide Run, HasWaiting;
  }

  lemma {:induction false} StreamingSettled(cfg: Config, base: Database, h: seq<Step>, steps: seq<Step>, sub: int)
    requires base.letters == map[] && Referential(base.rows) && SettledAfter(cfg, base, h, sub) && Streaming(steps)
    requires ChainLike(base, h + steps) && Run(cfg, base, h + steps).Some? && TookTurns(cfg, base, h, sub)
    ensures SettledAfter(cfg, base, h + steps, sub) && TookTurns(cfg, base, h + steps, sub)
  {
    if steps == [] {
      assert h + steps == h;
    } else {
      var front, s := steps[..|steps| - 1], steps[|steps| - 1];
      assert h + steps == (h + front) + [s];
      PrefixIsChainLike(base, h + front, s);
      PrefixRuns(cfg, base, h + front, [s]);
      hide SettledAfter, Run, ChainLike, TookTurns, OutOfTurn, Referential;
      StreamingSettled(cfg, base, h, front, sub);
      TurnsOneMore(cfg, base, h + front, s, sub);
      SettledIsInTurn(cfg, base, h + front, s, sub);
      if s.Stream? {
        StreamedSettled(cfg, base, h + front, s.lg, s.time, sub);
      } else {
        QuietSettled(cfg, base, h + front, s, sub);
      }
    }
  }

  /** A complete pass leaves no existing subscription with a letter waiting, whatever it began with. */
  lemma CompletePassSettles(cfg: Config, base: Database, h: seq<Step>, steps: seq<Step>, sub: int)
    requires base.letters == map[] && Referential(base.rows) && ChainLike(base, h) && Run(cfg, base, h).Some?
    requires CompletePass(Run(cfg, base, h).value, steps) && Run(cfg, base, h + steps).Some?
    ensures SettledAfter(cfg, base, h + steps, sub)
    ensures TookTurns(cfg, base, h, sub) ==> TookTurns(cfg, base, h + steps, sub)
  {
    var d := Run(cfg, base, h).value;
    var all :| PassOf(d, steps, all, |all|);
    assert all[0..|all|] == all && all[..|all|] == all;
    FilesAreStreamed(cfg, base, h);
    PassBegins(d, StreamLogs(h), all, sub);
    hide Run, ChainLike, TookTurns, PassAt, FollowsPass, Referential;
    PassInTurn(cfg, base, h, steps, all, 0, |all|, sub);
    PassEnds(Run(cfg, base, h + steps).value, all, sub);
  }

  lemma SettledAtFirst(cfg: Config, base: Database, sub: int)
    requires base.letters == map[]
    ensures SettledAfter(cfg, base, [], sub) && TookTurns(cfg, base, [], sub)
  {
  }

  lemma {:induction false} DisciplinedRunsSettle(cfg: Config, base: Database, phases: seq<seq<Step>>, sub: int)
    requires base.letters == map[] && Referential(base.rows) && Disciplined(cfg, base, phases)
    requires ChainLike(base, Flatten(phases)) && Run(cfg, base, Flatten(phases)).Some?
    ensures SettledAfter(cfg, base, Flatten(phases), sub) && TookTurns(cfg, base, Flatten(phases), sub)
  {
    if phases == [] {
      SettledAtFirst(cfg, base, sub);
    } else {
      var front, last := phases[..|phases| - 1], phases[|phases| - 1];
      hide SettledAfter, Run, ChainLike, TookTurns, CompletePass, Streaming, Referential;
      ChainLikePrefix(base, Flatten(front), last);
      PrefixRuns(cfg, base, Flatten(front), last);
      DisciplinedRunsSettle(cfg, base, front, sub);
      if Streaming(last) {
        StreamingSettled(cfg, base, Flatten(front), last, sub);
      } else {
        CompletePassSettles(cfg, base, Flatten(front), last, sub);
      }
    }
  }

  /** What order means for a subscription with nothing waiting, and for one that is missing. */
  ghost predicate AllOrNothing(d: Database, landed: seq<Log>, logs: seq<Log>, sub: int) {
    if sub in d.rows.subscriptions then
      About(landed, sub) == About(logs, sub) && !HasWaiting(d.letters, sub)
    else
      About(landed, sub) == [] && forall l :: l in logs && Subject(l) == Some(sub) ==> Waiting(d.letters, l.Key())
  }

  lemma SettledInTurn(base: Rows, d: Database, landed: seq<Log>, logs: seq<Log>, sub: int)
    requires Coherent(base, d, landed, logs, sub) && Settled(d, sub) && InTurn(d.letters, landed, logs, sub)
    requires DistinctKeys(logs)
    ensures AllOrNothing(d, landed, logs, sub)
  {
    hide About, Late, HasWaiting, Waiting;
    if sub in d.rows.subscriptions {
      NothingLate(d.letters, logs, sub);
      assert About(landed, sub) + [] == About(landed, sub);
    }
  }

  /**
   Per-subscription order survives parking: when every pass comes to the end of its list, a subscription either exists
   with all its logs applied in chain order and none of them parked, or does not exist, none of its logs having been
   applied and all of them waiting.
   */
  lemma OrderSurvivesParking(cfg: Config, base: Database, phases: seq<seq<Step>>, sub: int)
    requires base.letters == map[] && Referential(base.rows)
    requires Disciplined(cfg, base, phases) && ChainLike(base, Flatten(phases)) && Run(cfg, base, Flatten(phases)).Some?
    ensures AllOrNothing(
      Run(cfg, base, Flatten(phases)).value, LogsOf(Landings(cfg, base, Flatten(phases))),
      StreamLogs(Flatten(phases)), sub)
  {
    var h := Flatten(phases);
    hide Run, Referential, TookTurns, StreamLogs, LogsOf, Landings, Coherent, InTurn, AllOrNothing, Settled, Flatten;
    DisciplinedIsPatient(cfg, base, phases);
    DisciplinedRunsSettle(cfg, base, phases, sub);
    TurnsDecideOrder(cfg, base, phases, None, sub);
    HistoryIsCoherent(cfg, base, h, sub);
    SettledInTurn(base.rows, Run(cfg, base, h).value, LogsOf(Landings(cfg, base, h)), StreamLogs(h), sub);
  }
}
