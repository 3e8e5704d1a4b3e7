/**
 Logs the stream never passes: once one can neither be applied nor parked for good, no batch size, restart, retry or
 outside link moves the cursor to its block.
 */
module Obstacles {
  import opened Prelude
  import opened Chain
  import opened Ledger
  import opened Projection
  import opened Feed
  import opened Footprint
  import opened Replay
  import opened Store
  import opened Conservation
  import opened Parking
  import opened Turns
  import opened Passes
  import opened Receipts
  import opened Rpc
  import opened Delivery
  import opened FatalLogs

  // ----- Doom that stays -----

  /** An enrolment hash already carried, or an attempt already settled: nothing that follows takes either back. */
  ghost predicate DoomedForGood(cfg: Config, rows: Rows, lg: Log) {
    || (lg.event.SubscriptionCreated? && lg.event.token in cfg.tokens
        && HashTaken(rows, lg.event.sub, lg.event.merchant, lg.tx))
    || (lg.event.SubscriptionCharged? && lg.event.sub in rows.subscriptions
        && AttemptTaken(rows, lg.Key(), lg.event.attempt))
  }

  lemma DoomedWhenever(cfg: Config, rows: Rows, lg: Log, time: int)
    requires DoomedForGood(cfg, rows, lg) && Referential(rows)
    ensures Apply(cfg, rows, lg, time).Fatal?
  {
    FatalExactlyWhen(cfg, rows, lg, time);
    hide Apply;
  }

  predicate SameEnrolment(a: Log, b: Log) {
    a.event.SubscriptionCreated? && b.event.SubscriptionCreated? && a.event.sub == b.event.sub
  }

  /** Another log neither carries this one's key nor enrols its subscription. */
  predicate Apart(other: Log, lg: Log) {
    other.Key() != lg.Key() && !SameEnrolment(other, lg)
  }

  ghost predicate LinksStay(rows: Rows, after: Rows) {
    forall id :: id in rows.links ==> id in after.links
  }

  lemma LinkStep(cfg: Config, rows: Rows, lg: Log, time: int)
    requires Apply(cfg, rows, lg, time).Written?
    ensures LinksStay(rows, Apply(cfg, rows, lg, time).rows)
  {
    if lg.event.MerchantRegistered? {
      assert Apply(cfg, rows, lg, time) == LinkMerchant(rows, lg, time, lg.event);
    } else {
      hide Apply;
      if lg.event.Undecodable? { UndecodableNeverLands(cfg, rows, lg, time); }
      else if IsSubscriptionEvent(lg.event) { SubscriptionsKeepMerchants(cfg, rows, lg, time); }
      else { OthersKeepMerchants(cfg, rows, lg, time); }
    }
  }

  /** A subscription keeps the hash it was enrolled under, and none but an enrolment of its own adds it. */
  ghost predicate EnrolmentsStay(rows: Rows, after: Rows, lg: Log) {
    && (forall s :: s in rows.subscriptions ==>
          s in after.subscriptions && after.subscriptions[s].enrolmentTx == rows.subscriptions[s].enrolmentTx)
    && (forall s :: s in after.subscriptions ==>
          s in rows.subscriptions || (lg.event.SubscriptionCreated? && lg.event.sub == s))
  }

  lemma EnrolmentStep(cfg: Config, rows: Rows, lg: Log, time: int)
    requires Apply(cfg, rows, lg, time).Written?
    ensures EnrolmentsStay(rows, Apply(cfg, rows, lg, time).rows, lg)
  {
    hide Apply;
    BillingStep(cfg, rows, lg, time);
  }

  lemma TakenStays(rows: Rows, after: Rows, lg: Log, tx: Hash)
    requires EnrolmentsStay(rows, after, lg) && EnrolmentTaken(rows, tx)
    ensures EnrolmentTaken(after, tx)
  {
    var s :| s in rows.subscriptions && rows.subscriptions[s].enrolmentTx == Some(tx);
    assert s in after.subscriptions && after.subscriptions[s].enrolmentTx == Some(tx);
  }

  lemma LinkedStays(rows: Rows, after: Rows, key: LogKey, attempt: Hash)
    requires TransactionsStay(rows, after, key) && ChargeIsLinked(rows, attempt)
    ensures ChargeIsLinked(after, attempt)
  {
    var k :| k in rows.transactions && rows.transactions[k].source.SubscriptionCharge?
      && rows.transactions[k].source.attempt == attempt;
    assert k in after.transactions && after.transactions[k] == rows.transactions[k];
  }

  /** No log apart from the doomed one lifts its doom. */
  lemma DoomStaysOnApply(cfg: Config, rows: Rows, other: Log, time: int, lg: Log)
    requires Apply(cfg, rows, other, time).Written? && DoomedForGood(cfg, rows, lg) && Apart(other, lg)
    ensures DoomedForGood(cfg, Apply(cfg, rows, other, time).rows, lg)
  {
    var after := Apply(cfg, rows, other, time).rows;
    EnrolmentStep(cfg, rows, other, time);
    hide Apply, EnrolmentTaken, ChargeIsLinked;
    if lg.event.SubscriptionCreated? {
      LinkStep(cfg, rows, other, time);
      TakenStays(rows, after, other, lg.tx);
    } else {
      TransactionStep(cfg, rows, other, time);
      LinkedStays(rows, after, other.Key(), lg.event.attempt);
    }
  }

  lemma DoomStaysOnVisit(cfg: Config, rows: Rows, m: MerchantId, id: int, lg: Log)
    requires DoomedForGood(cfg, rows, lg)
    ensures DoomedForGood(cfg, LinkOutside(rows, m, id), lg)
  {
    var after := LinkOutside(rows, m, id);
    hide LinkOutside, EnrolmentTaken, ChargeIsLinked;
    LinkOutsideTables(rows, m, id);
    if lg.event.SubscriptionCreated? {
      SameEnrolments(rows, after, lg.tx);
    } else {
      LinkedStays(rows, after, lg.Key(), lg.event.attempt);
    }
  }

  lemma LinkOutsideTables(rows: Rows, m: MerchantId, id: int)
    ensures var after := LinkOutside(rows, m, id);
      && LinksStay(rows, after) && after.subscriptions == rows.subscriptions && after.transactions == rows.transactions
  {
  }

  lemma SameEnrolments(rows: Rows, after: Rows, tx: Hash)
    requires after.subscriptions == rows.subscriptions && EnrolmentTaken(rows, tx)
    ensures EnrolmentTaken(after, tx)
  {
  }

  // ----- Along a history -----

  /** Every other log of the sequence is apart from this one. */
  ghost predicate OnlyOne(logs: seq<Log>, lg: Log) {
    forall l :: l in logs ==> l == lg || Apart(l, lg)
  }

  /** A step that does not stream the doomed log leaves it doomed, and a step that does cannot be committed. */
  lemma StepKeepsDoom(cfg: Config, d: Database, s: Step, logs: seq<Log>, lg: Log)
    requires Advance(cfg, d, s).Some? && DoomedForGood(cfg, d.rows, lg) && Referential(d.rows)
    requires Filed(d.letters, logs) && lg !in logs && OnlyOne(logs, lg)
    requires s.Stream? ==> s.lg == lg || Apart(s.lg, lg)
    ensures s.Stream? ==> s.lg != lg
    ensures DoomedForGood(cfg, Advance(cfg, d, s).value.rows, lg)
  {
    hide Apply, DoomedForGood, Referential, LinkOutside;
    match s
    case Stream(l, time) =>
      if l == lg { DoomedWhenever(cfg, d.rows, lg, time); }
      else if Apply(cfg, d.rows, l, time).Written? { DoomStaysOnApply(cfg, d.rows, l, time, lg); }
    case Retry(key) =>
      var letter := d.letters[key];
      assert letter.lg in logs;
      if Apply(cfg, d.rows, letter.lg, letter.time).Written? {
        DoomStaysOnApply(cfg, d.rows, letter.lg, letter.time, lg);
      }
    case Visit(m, id) => DoomStaysOnVisit(cfg, d.rows, m, id, lg);
    case Save(_, _) =>
  }

  lemma OnlyOnePrefix(h: seq<Step>, s: Step, lg: Log)
    requires OnlyOne(StreamLogs(h + [s]), lg) && DistinctKeys(StreamLogs(h + [s]))
    ensures OnlyOne(StreamLogs(h), lg) && DistinctKeys(StreamLogs(h))
    ensures StreamLogs(h + [s]) == StreamLogs(h) + (if s.Stream? then [s.lg] else [])
    ensures s.Stream? ==> s.lg == lg || Apart(s.lg, lg)
  {
    assert (h + [s])[..|h|] == h;
    if s.Stream? {
      assert StreamLogs(h + [s]) == StreamLogs(h) + [s.lg];
      assert s.lg in StreamLogs(h + [s]);
      DistinctPrefix(StreamLogs(h), s.lg);
    } else {
      assert StreamLogs(h + [s]) == StreamLogs(h);
    }
  }

  /** A log doomed before it was streamed is never streamed. */
  lemma {:induction false} DoomedIsNeverStreamed(cfg: Config, base: Database, h: seq<Step>, more: seq<Step>, lg: Log)
    requires base.letters == map[] && Referential(base.rows)
    requires Run(cfg, base, h).Some? && Run(cfg, base, h + more).Some?
    requires DoomedForGood(cfg, Run(cfg, base, h).value.rows, lg) && lg !in StreamLogs(h)
    requires DistinctKeys(StreamLogs(h + more)) && OnlyOne(StreamLogs(h + more), lg)
    ensures lg !in StreamLogs(h + more) && DoomedForGood(cfg, Run(cfg, base, h + more).value.rows, lg)
  {
    hide DoomedForGood, Run, StreamLogs, Advance, DistinctKeys, OnlyOne, Referential, Filed, Apart;
    if more == [] {
      assert h + more == h;
    } else {
      var front, s := more[..|more| - 1], more[|more| - 1];
      assert h + more == (h + front) + [s];
      PrefixRuns(cfg, base, h + front, [s]);
      OnlyOnePrefix(h + front, s, lg);
      DoomedIsNeverStreamed(cfg, base, h, front, lg);
      var d := Run(cfg, base, h + front).value;
      RunOneMore(cfg, base, h + front, s);
      RunKeepsReferences(cfg, base, h + front);
      FilesAreStreamed(cfg, base, h + front);
      StepKeepsDoom(cfg, d, s, StreamLogs(h + front), lg);
    }
  }

  // ----- The cursor never passes -----

  /** A subscription is enrolled by one log of the chain. */
  ghost predicate EnrolledOnce(logs: seq<Log>) {
    forall a, b :: a in logs && b in logs && SameEnrolment(a, b) ==> a == b
  }

  lemma OnlyOneDue(chain: ChainView, site: Site, upTo: nat, lg: Log)
    requires Genuine(chain) && EnrolledOnce(chain.logs) && lg in chain.logs
    ensures OnlyOne(Due(chain, site, upTo), lg)
  {
    forall l | l in Due(chain, site, upTo) && l != lg ensures Apart(l, lg) {
      DueMember(chain, site, upTo, l);
      KeysTellApart(chain.logs, l, lg);
    }
  }

  /** A delivered stream has read what is due up to some block, and every log due below its next block. */
  lemma DeliveredUpTo(chain: ChainView, clock: nat -> int, site: Site, h: seq<Step>, cursors: map<string, Checkpoint>)
    requires Delivered(chain, clock, site, h, cursors)
    ensures forall l :: l in StreamLogs(h) ==> l in chain.logs
    ensures forall l: Log :: l in Due(chain, site, l.block) && l.block < NextBlock(site, cursors) ==> l in StreamLogs(h)
  {
    hide Due, Lowest, StreamLogs;
    forall l | l in StreamLogs(h) ensures l in chain.logs {
      DueMember(chain, site, cursors[CORE_CURSOR].block, l);
    }
    forall l: Log | l in Due(chain, site, l.block) && l.block < NextBlock(site, cursors) ensures l in StreamLogs(h) {
      DueMember(chain, site, l.block, l);
      assert CORE_CURSOR in cursors;
      DueMember(chain, site, cursors[CORE_CURSOR].block, l);
    }
  }

  /**
   The stream never passes a log that was doomed for good before it was streamed, whatever batches, restarts, retries
   and outside links follow.
   */
  lemma StreamNeverPasses(cfg: Config, base: Database, chain: ChainView, clock: nat -> int, site: Site,
                          h: seq<Step>, more: seq<Step>, lg: Log)
    requires base.letters == map[] && Referential(base.rows) && Genuine(chain) && EnrolledOnce(chain.logs)
    requires Run(cfg, base, h).Some? && DoomedForGood(cfg, Run(cfg, base, h).value.rows, lg) && lg !in StreamLogs(h)
    requires lg in Due(chain, site, lg.block)
    requires Run(cfg, base, h + more).Some?
    requires Delivered(chain, clock, site, h + more, Run(cfg, base, h + more).value.cursors)
    ensures NextBlock(site, Run(cfg, base, h + more).value.cursors) <= lg.block
  {
    var cursors := Run(cfg, base, h + more).value.cursors;
    DeliveredOnce(chain, clock, site, h + more, cursors, lg);
    DeliveredUpTo(chain, clock, site, h + more, cursors);
    hide *;
    DoomedIsNeverStreamed(cfg, base, h, more, lg);
  }

  lemma DeliveredOnce(
      chain: ChainView, clock: nat -> int, site: Site, h: seq<Step>, cursors: map<string, Checkpoint>, lg: Log)
    requires Delivered(chain, clock, site, h, cursors) && Genuine(chain) && EnrolledOnce(chain.logs)
    requires lg in Due(chain, site, lg.block)
    ensures DistinctKeys(StreamLogs(h)) && ChainOrdered(StreamLogs(h)) && OnlyOne(StreamLogs(h), lg) && lg in chain.logs
  {
    hide Due, StreamLogs, Lowest, EnrolledOnce, Genuine;
    DueMember(chain, site, lg.block, lg);
    if CORE_CURSOR in cursors {
      DueOnce(chain, site, cursors[CORE_CURSOR].block);
      OnlyOneDue(chain, site, cursors[CORE_CURSOR].block, lg);
    }
  }
}
