/** A pass that stops half-way: the concrete history in which a subscription's logs take effect out of order. */
module Interruption {
  import opened Prelude
  import opened Chain
  import opened Ledger
  import opened Projection
  import opened Replay
  import opened Parking
  import opened Turns
  import opened Passes

  /** An enrolment, and two logs of its subscription that each move the due date. */
  function Enrolment(): Log {
    Log("subscriptions", 1, 0, "e", SubscriptionCreated(7, 1, "payer", "token", 5, 30, 0))
  }

  function Skip(block: nat, tx: Hash, start: int): Log {
    Log("subscriptions", block, 0, tx, PeriodsSkipped(7, 1, start))
  }

  /**
   The history of a pass that stops after the enrolment it retried: the later log is streamed before the next pass
   comes to the earlier one.
   */
  function Interrupted(): seq<Step> {
    [Stream(Enrolment(), 10), Stream(Skip(2, "p", 40), 20), Visit("m", 1), Retry(Enrolment().Key()),
     Stream(Skip(3, "q", 70), 30), Retry(Skip(2, "p", 40).Key())]
  }

  lemma SkipLands(cfg: Config, rows: Rows, lg: Log, time: int)
    requires lg.event.PeriodsSkipped?
    ensures lg.event.sub in rows.subscriptions ==>
      Apply(cfg, rows, lg, time).Written?
      && Apply(cfg, rows, lg, time).rows.subscriptions ==
         rows.subscriptions[lg.event.sub := rows.subscriptions[lg.event.sub].(nextChargeAt := lg.event.paidPeriodStart)]
    ensures lg.event.sub !in rows.subscriptions ==> Apply(cfg, rows, lg, time) == Unresolvable(UnknownSubscription)
  {
    assert Apply(cfg, rows, lg, time) == MovePeriodStart(rows, lg.event);
  }

  lemma EnrolmentLands(cfg: Config, rows: Rows)
    requires cfg.tokens == map["token" := "USDC"] && 7 !in rows.subscriptions && !EnrolmentTaken(rows, "e")
    ensures FindMerchant(rows, 1).None? ==> Apply(cfg, rows, Enrolment(), 10) == Unresolvable(UnlinkedMerchant)
    ensures FindMerchant(rows, 1).Some? ==>
      Apply(cfg, rows, Enrolment(), 10).Written? && 7 in Apply(cfg, rows, Enrolment(), 10).rows.subscriptions
  {
    assert Apply(cfg, rows, Enrolment(), 10) == Enrol(cfg, rows, Enrolment(), 10, Enrolment().event);
  }

  lemma Prefixes()
    ensures var h := Interrupted();
      && |h| == 6 && h[..0] == []
      && h[..1] == h[..0] + [Stream(Enrolment(), 10)]
      && h[..2] == h[..1] + [Stream(Skip(2, "p", 40), 20)]
      && h[..3] == h[..2] + [Visit("m", 1)]
      && h[..4] == h[..3] + [Retry(Enrolment().Key())]
      && h[..5] == h[..4] + [Stream(Skip(3, "q", 70), 30)]
      && h == h[..5] + [Retry(Skip(2, "p", 40).Key())]
  {
  }

  lemma StreamsOneMore(h: seq<Step>, s: Step)
    ensures StreamLogs(h + [s]) == StreamLogs(h) + (if s.Stream? then [s.lg] else [])
  {
    assert (h + [s])[..|h|] == h;
  }

  lemma InterruptedStream()
    ensures StreamLogs(Interrupted()) == [Enrolment(), Skip(2, "p", 40), Skip(3, "q", 70)]
  {
    Prefixes();
    var h, e, p, q := Interrupted(), Enrolment(), Skip(2, "p", 40), Skip(3, "q", 70);
    assert StreamLogs([]) == [];
    hide StreamLogs, Interrupted;
    StreamsOneMore(h[..0], Stream(e, 10));
    StreamsOneMore(h[..1], Stream(p, 20));
    StreamsOneMore(h[..2], Visit("m", 1));
    StreamsOneMore(h[..3], Retry(e.Key()));
    StreamsOneMore(h[..4], Stream(q, 30));
    StreamsOneMore(h[..5], Retry(p.Key()));
  }

  lemma InterruptedIsChainLike(base: Database)
    requires base.rows.subscriptions == map[]
    ensures ChainLike(base, Interrupted())
  {
    InterruptedStream();
    hide StreamLogs, Interrupted;
  }

  lemma Parks(cfg: Config, d: Database, lg: Log, time: int)
    requires Apply(cfg, d.rows, lg, time).Unresolvable?
    ensures Advance(cfg, d, Stream(lg, time)) ==
      Some(d.(letters := Park(d.letters, lg, time, Apply(cfg, d.rows, lg, time).reason)))
    ensures LogsOf(StepLanding(cfg, d, Stream(lg, time))) == []
  {
    hide Apply;
  }

  lemma Links(cfg: Config, d: Database)
    requires "m" in d.rows.merchants && d.rows.links == map[]
    ensures Advance(cfg, d, Visit("m", 1)) == Some(d.(rows := d.rows.(links := map[1 := "m"])))
    ensures LogsOf(StepLanding(cfg, d, Visit("m", 1))) == []
  {
    hide Apply;
  }

  lemma NotTaken(rows: Rows)
    requires rows.subscriptions == map[]
    ensures 7 !in rows.subscriptions && !EnrolmentTaken(rows, "e")
  {
  }

  /** Both logs parked. */
  function ParkedBoth(): map<LogKey, Letter> {
    map[Enrolment().Key() := Letter(Enrolment(), 10, UnlinkedMerchant, 1, false),
        Skip(2, "p", 40).Key() := Letter(Skip(2, "p", 40), 20, UnknownSubscription, 1, false)]
  }

  lemma WhatWaits()
    ensures WaitingAre(ParkedBoth(), [Enrolment(), Skip(2, "p", 40)])
    ensures Enrolment().Key() in ParkedBoth()
    ensures WaitingAre(Resolve(ParkedBoth(), Enrolment().Key()), [Skip(2, "p", 40)])
  {
  }

  lemma BothPark(cfg: Config, base: Database) returns (d: Database)
    requires cfg.tokens == map["token" := "USDC"] && base.letters == map[]
    requires base.rows.links == map[] && base.rows.subscriptions == map[]
    ensures Run(cfg, base, Interrupted()[..2]) == Some(d) && d.rows == base.rows
    ensures LogsOf(Landings(cfg, base, Interrupted()[..2])) == []
    ensures d.letters == ParkedBoth()
  {
    var h, e, p := Interrupted(), Enrolment(), Skip(2, "p", 40);
    Prefixes();
    NotTaken(base.rows);
    assert Run(cfg, base, []) == Some(base) && LogsOf(Landings(cfg, base, [])) == [];
    hide Apply, Run, Landings, StepLanding, StreamLogs, Advance, LogsOf, EnrolmentTaken, Interrupted;
    EnrolmentLands(cfg, base.rows);
    Parks(cfg, base, e, 10);
    OneMoreStep(cfg, base, h[..0], Stream(e, 10));
    var one := Run(cfg, base, h[..1]).value;
    SkipLands(cfg, one.rows, p, 20);
    Parks(cfg, one, p, 20);
    OneMoreStep(cfg, base, h[..1], Stream(p, 20));
    d := Run(cfg, base, h[..2]).value;
  }

  /** Both logs are parked, the merchant is linked, and only the enrolment is retried. */
  lemma PassBreaksOff(cfg: Config, base: Database) returns (d: Database)
    requires cfg.tokens == map["token" := "USDC"] && base.letters == map[]
    requires base.rows.links == map[] && base.rows.subscriptions == map[] && "m" in base.rows.merchants
    ensures Run(cfg, base, Interrupted()[..4]) == Some(d) && 7 in d.rows.subscriptions
    ensures LogsOf(Landings(cfg, base, Interrupted()[..4])) == [Enrolment()]
    ensures Run(cfg, base, Interrupted()[..3]).Some? && Run(cfg, base, Interrupted()[..3]).value.letters == ParkedBoth()
    ensures Enrolment().Key() in ParkedBoth() && d.letters == Resolve(ParkedBoth(), Enrolment().Key())
  {
    var h, e := Interrupted(), Enrolment();
    var two := BothPark(cfg, base);
    Prefixes();
    NotTaken(two.rows.(links := map[1 := "m"]));
    hide Apply, Run, Landings, StepLanding, StreamLogs, Advance, LogsOf, EnrolmentTaken, Interrupted;
    Links(cfg, two);
    OneMoreStep(cfg, base, h[..2], Visit("m", 1));
    var three := Run(cfg, base, h[..3]).value;
    EnrolmentLands(cfg, three.rows);
    RetryLands(cfg, three, e.Key());
    OneMoreStep(cfg, base, h[..3], Retry(e.Key()));
    d := Run(cfg, base, h[..4]).value;
  }

  lemma RetryLands(cfg: Config, d: Database, key: LogKey)
    requires Waiting(d.letters, key) && Apply(cfg, d.rows, d.letters[key].lg, d.letters[key].time).Written?
    ensures Advance(cfg, d, Retry(key)) ==
      Some(d.(rows := Apply(cfg, d.rows, d.letters[key].lg, d.letters[key].time).rows,
              letters := Resolve(d.letters, key)))
    ensures LogsOf(StepLanding(cfg, d, Retry(key))) == [d.letters[key].lg]
  {
    hide Apply;
    LogsOfOne(Landing(d.letters[key].lg, d.letters[key].time, true));
  }

  lemma LaterLogComesFirst(cfg: Config, base: Database) returns (d: Database)
    requires cfg.tokens == map["token" := "USDC"] && base.letters == map[]
    requires base.rows.links == map[] && base.rows.subscriptions == map[] && "m" in base.rows.merchants
    ensures Run(cfg, base, Interrupted()[..5]) == Some(d) && 7 in d.rows.subscriptions
    ensures LogsOf(Landings(cfg, base, Interrupted()[..5])) == [Enrolment(), Skip(3, "q", 70)]
    ensures !TookTurns(cfg, base, Interrupted()[..5], 7)
    ensures Run(cfg, base, Interrupted()[..3]).Some? && Run(cfg, base, Interrupted()[..3]).value.letters == ParkedBoth()
    ensures Enrolment().Key() in ParkedBoth() && d.letters == Resolve(ParkedBoth(), Enrolment().Key())
  {
    var q, p := Skip(3, "q", 70), Skip(2, "p", 40);
    Prefixes();
    var four := PassBreaksOff(cfg, base);
    assert Waiting(four.letters, p.Key()) && four.letters[p.Key()].lg == p;
    assert Overtakes(four, q);
    TurnsOneMore(cfg, base, Interrupted()[..4], Stream(q, 30), 7);
    hide TookTurns, Overtakes, Apply, Run, Landings, StepLanding, StreamLogs, Advance, LogsOf, Interrupted;
    SkipLands(cfg, four.rows, q, 30);
    StreamOutcome(cfg, four, q, 30);
    LogsOfOne(Landing(q, 30, false));
    OneMoreStep(cfg, base, Interrupted()[..4], Stream(q, 30));
    d := Run(cfg, base, Interrupted()[..5]).value;
  }

  lemma InterruptedRuns(cfg: Config, base: Database)
    requires cfg.tokens == map["token" := "USDC"] && base.letters == map[]
    requires base.rows.links == map[] && base.rows.subscriptions == map[] && "m" in base.rows.merchants
    ensures Run(cfg, base, Interrupted()).Some?
    ensures var d := Run(cfg, base, Interrupted()).value;
      && 7 in d.rows.subscriptions && d.rows.subscriptions[7].nextChargeAt == 40
      && LogsOf(Landings(cfg, base, Interrupted())) == [Enrolment(), Skip(3, "q", 70), Skip(2, "p", 40)]
    ensures !TookTurns(cfg, base, Interrupted(), 7)
  {
    var p := Skip(2, "p", 40);
    Prefixes();
    var five := LaterLogComesFirst(cfg, base);
    TurnsOneMore(cfg, base, Interrupted()[..5], Retry(p.Key()), 7);
    assert Waiting(five.letters, p.Key()) && five.letters[p.Key()].lg == p;
    hide TookTurns, ParkedBoth;
    hide Apply, Run, Landings, StepLanding, StreamLogs, Advance, LogsOf, Interrupted;
    SkipLands(cfg, five.rows, p, five.letters[p.Key()].time);
    RetryLands(cfg, five, p.Key());
    OneMoreStep(cfg, base, Interrupted()[..5], Retry(p.Key()));
  }

  // ----- The runner can come to it -----

  /** A batch, a pass that breaks off after its first letter, a batch, and the next pass. */
  function InterruptedPhases(): seq<seq<Step>> {
    [Interrupted()[..3], [Retry(Enrolment().Key())], [Stream(Skip(3, "q", 70), 30)], [Retry(Skip(2, "p", 40).Key())]]
  }

  lemma TwoPasses(cfg: Config, base: Database, batch: seq<Step>, pass: seq<Step>, next: seq<Step>, last: seq<Step>)
    requires Streaming(batch) && Streaming(next)
    requires Run(cfg, base, batch).Some? && PartialPass(Run(cfg, base, batch).value, pass, Some(RETRY_LIMIT))
    requires Run(cfg, base, batch + pass + next).Some?
    requires PartialPass(Run(cfg, base, batch + pass + next).value, last, Some(RETRY_LIMIT))
    ensures Patient(cfg, base, [batch, pass, next, last], Some(RETRY_LIMIT))
    ensures Flatten([batch, pass, next, last]) == batch + pass + next + last
  {
    assert Flatten([]) == [] && Patient(cfg, base, [], Some(RETRY_LIMIT));
    hide *;
    OneMorePhase(cfg, base, [], Some(RETRY_LIMIT), batch);
    assert [] + [batch] == [batch] && [] + batch == batch;
    OneMorePhase(cfg, base, [batch], Some(RETRY_LIMIT), pass);
    assert [batch] + [pass] == [batch, pass];
    OneMorePhase(cfg, base, [batch, pass], Some(RETRY_LIMIT), next);
    assert [batch, pass] + [next] == [batch, pass, next];
    OneMorePhase(cfg, base, [batch, pass, next], Some(RETRY_LIMIT), last);
    assert [batch, pass, next] + [last] == [batch, pass, next, last];
  }

  lemma InterruptedIsPatient(cfg: Config, base: Database)
    requires cfg.tokens == map["token" := "USDC"] && base.letters == map[]
    requires base.rows.links == map[] && base.rows.subscriptions == map[] && "m" in base.rows.merchants
    ensures Patient(cfg, base, InterruptedPhases(), Some(RETRY_LIMIT)) && Flatten(InterruptedPhases()) == Interrupted()
  {
    var h, e, p, q := Interrupted(), Enrolment(), Skip(2, "p", 40), Skip(3, "q", 70);
    Prefixes();
    assert Streaming(h[..3]) && Streaming([Stream(q, 30)]);
    var five := LaterLogComesFirst(cfg, base);
    WhatWaits();
    hide Run, PartialPass, Streaming, Patient, Flatten, TookTurns, Landings, WaitingAre, ParkedBoth, Interrupted;
    FirstRetryIsAPass(Run(cfg, base, h[..3]).value, [e, p], RETRY_LIMIT);
    FirstRetryIsAPass(five, [p], RETRY_LIMIT);
    TwoPasses(cfg, base, h[..3], [Retry(e.Key())], [Stream(q, 30)], [Retry(p.Key())]);
  }

  /**
   Order does not survive an interrupted pass, one the runner can make: the last log is streamed out of turn, and the
   due date ends up where the earlier log put it.
   */
  lemma InterruptedPassLosesOrder() returns (cfg: Config, base: Database)
    ensures base.letters == map[] && Referential(base.rows) && ChainLike(base, Interrupted())
    ensures Run(cfg, base, Interrupted()).Some?
    ensures var d := Run(cfg, base, Interrupted()).value;
      && 7 in d.rows.subscriptions && d.rows.subscriptions[7].nextChargeAt == 40
      && LogsOf(Landings(cfg, base, Interrupted())) == [Enrolment(), Skip(3, "q", 70), Skip(2, "p", 40)]
    ensures !TookTurns(cfg, base, Interrupted(), 7)
    ensures Patient(cfg, base, InterruptedPhases(), Some(RETRY_LIMIT)) && Flatten(InterruptedPhases()) == Interrupted()
  {
    cfg := Config(map["token" := "USDC"], "live");
    var rows := Rows(map["m" := Merchant("payout", 0, 0, None, None)], map[], map[], map[], map[], map[], map[], map[],
                     map[], map[], [], [], map[], {}, map[]);
    base := Database(rows, map[], map[]);
    InterruptedIsChainLike(base);
    InterruptedRuns(cfg, base);
    InterruptedIsPatient(cfg, base);
  }
}
