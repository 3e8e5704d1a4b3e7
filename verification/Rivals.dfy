/**
 Pairs of logs that cannot both be projected, found on the chain before either is read: two enrolments in one
 transaction, and two settlements of one attempt. The cursor never passes the second.
 */
module Rivals {
  import opened Prelude
  import opened Chain
  import opened Ledger
  import opened Projection
  import opened Feed
  import opened Footprint
  import opened Replay
  import opened Conservation
  import opened Parking
  import opened Turns
  import opened Passes
  import opened Rpc
  import opened Delivery
  import opened FatalLogs
  import opened Receipts
  import opened Obstacles

  // ----- What no history takes back -----

  /** Links and subscriptions stay, and every new transaction is under the key of one of the logs. */
  ghost predicate Kept(rows: Rows, after: Rows, logs: seq<Log>) {
    && LinksStay(rows, after)
    && (forall s :: s in rows.subscriptions ==> s in after.subscriptions)
    && (forall k :: k in after.transactions ==> k in rows.transactions || Keyed(logs, k))
  }

  ghost predicate Keyed(logs: seq<Log>, k: LogKey) {
    exists l :: l in logs && l.Key() == k
  }

  lemma ApplyKeeps(cfg: Config, rows: Rows, lg: Log, time: int, logs: seq<Log>)
    requires Apply(cfg, rows, lg, time).Written? && lg in logs
    ensures Kept(rows, Apply(cfg, rows, lg, time).rows, logs)
  {
    hide Apply;
    LinkStep(cfg, rows, lg, time);
    EnrolmentStep(cfg, rows, lg, time);
    TransactionStep(cfg, rows, lg, time);
  }

  lemma StepKeeps(cfg: Config, d: Database, s: Step, logs: seq<Log>)
    requires Advance(cfg, d, s).Some? && Filed(d.letters, logs) && (s.Stream? ==> s.lg in logs)
    ensures Kept(d.rows, Advance(cfg, d, s).value.rows, logs)
  {
    hide Apply, Keyed, LinkOutside;
    match s
    case Stream(lg, time) =>
      if Apply(cfg, d.rows, lg, time).Written? { ApplyKeeps(cfg, d.rows, lg, time, logs); }
    case Retry(key) =>
      var letter := d.letters[key];
      if Apply(cfg, d.rows, letter.lg, letter.time).Written? { ApplyKeeps(cfg, d.rows, letter.lg, letter.time, logs); }
    case Visit(m, id) => LinkOutsideTables(d.rows, m, id);
    case Save(_, _) =>
  }

  lemma KeptOn(a: Rows, b: Rows, c: Rows, logs: seq<Log>, more: seq<Log>)
    requires Kept(a, b, logs) && Kept(b, c, more) && forall l :: l in logs ==> l in more
    ensures Kept(a, c, more)
  {
    forall k | Keyed(logs, k) ensures Keyed(more, k) {
      var l :| l in logs && l.Key() == k;
      assert l in more;
    }
    hide Keyed;
  }

  lemma FiledOn(letters: map<LogKey, Letter>, logs: seq<Log>, more: seq<Log>)
    requires Filed(letters, logs) && forall l :: l in logs ==> l in more
    ensures Filed(letters, more)
  {
  }

  lemma StreamedOneMore(h: seq<Step>, s: Step)
    ensures forall l :: l in StreamLogs(h) ==> l in StreamLogs(h + [s])
    ensures s.Stream? ==> s.lg in StreamLogs(h + [s])
    ensures DistinctKeys(StreamLogs(h + [s])) ==> DistinctKeys(StreamLogs(h))
  {
    assert (h + [s])[..|h|] == h;
    if s.Stream? {
      if DistinctKeys(StreamLogs(h + [s])) { DistinctPrefix(StreamLogs(h), s.lg); }
    } else {
      assert StreamLogs(h + [s]) == StreamLogs(h);
    }
  }

  lemma {:induction false} RunKeeps(cfg: Config, base: Database, h: seq<Step>, more: seq<Step>)
    requires base.letters == map[] && Run(cfg, base, h).Some? && Run(cfg, base, h + more).Some?
    requires DistinctKeys(StreamLogs(h + more))
    ensures Kept(Run(cfg, base, h).value.rows, Run(cfg, base, h + more).value.rows, StreamLogs(h + more))
  {
    if more == [] {
      assert h + more == h;
    } else {
      hide Kept, Run, StreamLogs, DistinctKeys, Filed;
      var front, s := more[..|more| - 1], more[|more| - 1];
      var g := h + front;
      assert h + more == g + [s];
      PrefixRuns(cfg, base, g, [s]);
      StreamedOneMore(g, s);
      RunKeeps(cfg, base, h, front);
      RunOneMore(cfg, base, g, s);
      FilesAreStreamed(cfg, base, g);
      FiledOn(Run(cfg, base, g).value.letters, StreamLogs(g), StreamLogs(g + [s]));
      StepKeeps(cfg, Run(cfg, base, g).value, s, StreamLogs(g + [s]));
      KeptOn(Run(cfg, base, h).value.rows, Run(cfg, base, g).value.rows, Run(cfg, base, g + [s]).value.rows,
             StreamLogs(g), StreamLogs(g + [s]));
    }
  }

  // ----- Rivals -----

  /** Two enrolments in one transaction, of merchants already linked. */
  ghost predicate EnrolTogether(cfg: Config, rows: Rows, first: Log, second: Log) {
    && first.event.SubscriptionCreated? && second.event.SubscriptionCreated? && first.tx == second.tx
    && first.event.token in cfg.tokens && second.event.token in cfg.tokens
    && first.event.merchant in rows.links && second.event.merchant in rows.links
  }

  /** Two settlements of one attempt, of subscriptions that exist. */
  ghost predicate SettleTogether(rows: Rows, first: Log, second: Log) {
    && first.event.SubscriptionCharged? && second.event.SubscriptionCharged?
    && first.event.attempt == second.event.attempt
    && first.event.sub in rows.subscriptions && second.event.sub in rows.subscriptions
    && first.Key() !in rows.transactions && second.Key() !in rows.transactions
  }

  /** Neither log is projected so far: no subscription of theirs exists, no transaction is under their keys. */
  ghost predicate Unread(rows: Rows, lg: Log) {
    && (lg.event.SubscriptionCreated? ==> lg.event.sub !in rows.subscriptions)
    && (lg.event.SubscriptionCharged? ==> lg.Key() !in rows.transactions)
  }

  /** If the first log of an enrolling pair goes through, the second is doomed for good. */
  lemma EnrolmentDooms(cfg: Config, rows: Rows, first: Log, second: Log, time: int)
    requires EnrolTogether(cfg, rows, first, second) && first.event.sub != second.event.sub
    requires first.event.sub !in rows.subscriptions && second.event.sub !in rows.subscriptions
    requires !Apply(cfg, rows, first, time).Fatal?
    ensures Apply(cfg, rows, first, time).Written?
    ensures DoomedForGood(cfg, Apply(cfg, rows, first, time).rows, second)
  {
    assert Apply(cfg, rows, first, time) == Enrol(cfg, rows, first, time, first.event);
    CreatedFootprint(cfg, rows, first, time);
    var after := Apply(cfg, rows, first, time).rows;
    hide Apply;
    assert first.event.sub in after.subscriptions && after.subscriptions[first.event.sub].enrolmentTx == Some(first.tx);
    assert EnrolmentTaken(after, first.tx);
  }

  lemma SettlementDooms(cfg: Config, rows: Rows, first: Log, second: Log, time: int)
    requires SettleTogether(rows, first, second) && first.Key() != second.Key() && Referential(rows)
    requires !Apply(cfg, rows, first, time).Fatal?
    ensures Apply(cfg, rows, first, time).Written?
    ensures DoomedForGood(cfg, Apply(cfg, rows, first, time).rows, second)
  {
    MerchantOf(rows, first.event.sub);
    ExistingSubscriptionNeverParks(cfg, rows, first, time);
    ChargeTransactions(cfg, rows, first, time);
    EnrolmentStep(cfg, rows, first, time);
    hide Apply, Referential, ChargeIsLinked;
  }

  ghost predicate Together(cfg: Config, rows: Rows, first: Log, second: Log) {
    EnrolTogether(cfg, rows, first, second) || SettleTogether(rows, first, second)
  }

  lemma FirstDoomsSecond(cfg: Config, rows: Rows, first: Log, second: Log, time: int)
    requires Together(cfg, rows, first, second) && Apart(first, second) && Referential(rows)
    requires Unread(rows, first) && Unread(rows, second) && !Apply(cfg, rows, first, time).Fatal?
    ensures Apply(cfg, rows, first, time).Written?
    ensures DoomedForGood(cfg, Apply(cfg, rows, first, time).rows, second)
  {
    hide Apply, DoomedForGood, Referential;
    if EnrolTogether(cfg, rows, first, second) {
      EnrolmentDooms(cfg, rows, first, second, time);
    } else {
      SettlementDooms(cfg, rows, first, second, time);
    }
  }

  /** A pair stays a pair while neither is read. */
  lemma TogetherStays(cfg: Config, rows: Rows, after: Rows, logs: seq<Log>, first: Log, second: Log)
    requires Together(cfg, rows, first, second) && Kept(rows, after, logs)
    requires Unread(after, first) && Unread(after, second)
    ensures Together(cfg, after, first, second)
  {
    hide Keyed;
  }

  lemma StillUnread(cfg: Config, base: Database, h: seq<Step>, more: seq<Step>, lg: Log)
    requires base.letters == map[] && Run(cfg, base, h).Some? && Run(cfg, base, h + more).Some?
    requires DistinctKeys(StreamLogs(h + more)) && OnlyOne(StreamLogs(h + more), lg) && lg !in StreamLogs(h + more)
    requires lg.event.SubscriptionCreated? ==> lg.event.sub !in base.rows.subscriptions
    requires lg.event.SubscriptionCharged? ==> lg.Key() !in Run(cfg, base, h).value.rows.transactions
    ensures Unread(Run(cfg, base, h + more).value.rows, lg)
  {
    var rows, logs := Run(cfg, base, h + more).value.rows, StreamLogs(h + more);
    hide Run, StreamLogs, DistinctKeys;
    if lg.event.SubscriptionCreated? {
      HistoryIsCoherent(cfg, base, h + more, lg.event.sub);
    } else if lg.event.SubscriptionCharged? {
      RunKeeps(cfg, base, h, more);
    }
  }

  // ----- The second is never passed -----

  lemma {:induction false} WhereStreamed(h: seq<Step>, more: seq<Step>, lg: Log) returns (i: nat)
    requires lg in StreamLogs(h + more) && lg !in StreamLogs(h)
    ensures i < |more| && more[i].Stream? && more[i].lg == lg
  {
    i := 0;
    assert more == [] ==> h + more == h;
    if more != [] {
      var front, s := more[..|more| - 1], more[|more| - 1];
      assert (h + more)[..|h + more| - 1] == h + front;
      if s.Stream? && s.lg == lg {
        i := |more| - 1;
      } else {
        i := WhereStreamed(h, front, lg);
      }
    }
  }

  lemma EarlierUnstreamed(h: seq<Step>, s: Step, rest: seq<Step>, second: Log)
    requires s.Stream? && ChainOrdered(StreamLogs(h + [s] + rest)) && DistinctKeys(StreamLogs(h + [s] + rest))
    requires Less(s.lg, second)
    ensures s.lg !in StreamLogs(h) && second !in StreamLogs(h) && second !in StreamLogs(h + [s])
    ensures DistinctKeys(StreamLogs(h)) && DistinctKeys(StreamLogs(h + [s]))
    ensures forall l :: l in StreamLogs(h) || l in StreamLogs(h + [s]) ==> l in StreamLogs(h + [s] + rest)
  {
    StreamLogsConcat(h, [s]);
    StreamLogsConcat(h + [s], rest);
    assert [s][..0] == [];
    var a, b := StreamLogs(h), StreamLogs(rest);
    var all := StreamLogs(h + [s] + rest);
    assert all == a + [s.lg] + b;
    hide StreamLogs;
    assert forall i :: 0 <= i < |a| ==> all[i] == a[i];
    assert all[|a|] == s.lg;
  }

  lemma OnlyOneOf(logs: seq<Log>, more: seq<Log>, lg: Log)
    requires OnlyOne(more, lg) && forall l :: l in logs ==> l in more
    ensures OnlyOne(logs, lg)
  {
  }

  /** The step that streams the first log of a pair leaves the second doomed and unread. */
  lemma FirstStreamed(cfg: Config, base: Database, h: seq<Step>, more: seq<Step>, time: int, first: Log, second: Log)
    requires base.letters == map[] && Referential(base.rows) && Run(cfg, base, h).Some?
    requires Run(cfg, base, h + more + [Stream(first, time)]).Some?
    requires Together(cfg, Run(cfg, base, h).value.rows, first, second) && Apart(first, second)
    requires first.event.SubscriptionCreated? ==>
      first.event.sub !in base.rows.subscriptions && second.event.sub !in base.rows.subscriptions
    requires DistinctKeys(StreamLogs(h + more)) && OnlyOne(StreamLogs(h + more), first)
      && OnlyOne(StreamLogs(h + more), second)
    requires first !in StreamLogs(h + more) && second !in StreamLogs(h + more)
    ensures DoomedForGood(cfg, Run(cfg, base, h + more + [Stream(first, time)]).value.rows, second)
  {
    PrefixRuns(cfg, base, h + more, [Stream(first, time)]);
    StillUnread(cfg, base, h, more, first);
    StillUnread(cfg, base, h, more, second);
    RunKeeps(cfg, base, h, more);
    RunKeepsReferences(cfg, base, h + more);
    RunOneMore(cfg, base, h + more, Stream(first, time));
    var rows, d := Run(cfg, base, h).value.rows, Run(cfg, base, h + more).value;
    hide Run, StreamLogs, DistinctKeys, OnlyOne, Apply, Kept, Unread, Together, DoomedForGood, Referential;
    TogetherStays(cfg, rows, d.rows, StreamLogs(h + more), first, second);
    StreamedIsNotFatal(cfg, d, first, time);
    FirstDoomsSecond(cfg, d.rows, first, second, time);
    StreamOutcome(cfg, d, first, time);
  }

  lemma StreamedIsNotFatal(cfg: Config, d: Database, lg: Log, time: int)
    requires Advance(cfg, d, Stream(lg, time)).Some?
    ensures !Apply(cfg, d.rows, lg, time).Fatal?
  {
    hide Apply;
  }

  lemma SplitAt(more: seq<Step>, i: nat)
    requires i < |more|
    ensures more == more[..i] + [more[i]] + more[i + 1..]
  {
  }

  /**
   The cursor never reaches the block of the second log of a pair: two enrolments in one transaction of merchants
   already linked, or two settlements of one attempt of subscriptions that exist. From the moment that holds and neither
   log has been read, no batch sizes, crashes, restarts, retries or outside links take the stream past it.
   */
  lemma SecondIsNeverPassed(cfg: Config, base: Database, chain: ChainView, clock: nat -> int, site: Site,
                            h: seq<Step>, more: seq<Step>, first: Log, second: Log)
    requires base.letters == map[] && Referential(base.rows) && Genuine(chain) && EnrolledOnce(chain.logs)
    requires Run(cfg, base, h).Some? && Together(cfg, Run(cfg, base, h).value.rows, first, second)
    requires first.event.SubscriptionCreated? ==>
      first.event.sub !in base.rows.subscriptions && second.event.sub !in base.rows.subscriptions
    requires first !in StreamLogs(h) && second !in StreamLogs(h) && Less(first, second)
    requires first in Due(chain, site, first.block) && second in Due(chain, site, second.block)
    requires Run(cfg, base, h + more).Some?
    requires Delivered(chain, clock, site, h + more, Run(cfg, base, h + more).value.cursors)
    ensures NextBlock(site, Run(cfg, base, h + more).value.cursors) <= second.block
  {
    var cursors := Run(cfg, base, h + more).value.cursors;
    if NextBlock(site, cursors) > second.block {
      DeliveredOnce(chain, clock, site, h + more, cursors, first);
      DeliveredOnce(chain, clock, site, h + more, cursors, second);
      DeliveredUpTo(chain, clock, site, h + more, cursors);
      assert first.block <= second.block;
      hide *;
      PairIsNotStreamed(cfg, base, h, more, first, second);
    }
  }

  lemma PairIsNotStreamed(cfg: Config, base: Database, h: seq<Step>, more: seq<Step>, first: Log, second: Log)
    requires base.letters == map[] && Referential(base.rows)
    requires Run(cfg, base, h).Some? && Together(cfg, Run(cfg, base, h).value.rows, first, second)
    requires first.event.SubscriptionCreated? ==>
      first.event.sub !in base.rows.subscriptions && second.event.sub !in base.rows.subscriptions
    requires first !in StreamLogs(h) && Less(first, second)
    requires Run(cfg, base, h + more).Some? && first in StreamLogs(h + more)
    requires ChainOrdered(StreamLogs(h + more)) && DistinctKeys(StreamLogs(h + more))
    requires OnlyOne(StreamLogs(h + more), first) && OnlyOne(StreamLogs(h + more), second)
    ensures second !in StreamLogs(h + more)
  {
    if second in StreamLogs(h + more) {
      var i := WhereStreamed(h, more, first);
      var g, s, rest := h + more[..i], more[i], more[i + 1..];
      SplitAt(more, i);
      assert h + more == g + [s] + rest && h + more[..i] == g;
      assert Apart(first, second);
      hide Run, StreamLogs, DistinctKeys, Apply, Together, DoomedForGood, Referential, ChainOrdered, Less;
      EarlierUnstreamed(g, s, rest, second);
      OnlyOneOf(StreamLogs(g), StreamLogs(h + more), first);
      OnlyOneOf(StreamLogs(g), StreamLogs(h + more), second);
      PrefixRuns(cfg, base, g + [s], rest);
      FirstStreamed(cfg, base, h, more[..i], s.time, first, second);
      DoomedIsNeverStreamed(cfg, base, g + [s], rest, second);
    }
  }
}
