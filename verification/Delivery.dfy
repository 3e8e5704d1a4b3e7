/**
 What the stream owes its chain, as a property of the committed history: every uncovered log up to the cursor, once
 and in order, with its own block's time.
 */
module Delivery {
  import opened Prelude
  import opened Chain
  import opened Rpc
  import opened Ledger
  import opened Projection
  import opened Replay
  import opened Store
  import opened Segments

  // ----- The older per-contract cursors -----

  /** The block before the configured start. */
  function FloorOf(startBlock: nat): nat {
    if startBlock > 0 then startBlock - 1 else 0
  }

  function LegacyCursors(
      cursors: map<string, Checkpoint>, addresses: seq<Address>, startBlock: nat): map<Address, nat> {
    map a | a in addresses :: Max(CursorAt(cursors, a).block, FloorOf(startBlock))
  }

  ghost predicate IsLowest(legacy: map<Address, nat>, n: nat) {
    if legacy == map[] then n == 0
    else (exists a :: a in legacy && legacy[a] == n) && (forall a :: a in legacy ==> n <= legacy[a])
  }

  lemma {:induction false} LowestExists(legacy: map<Address, nat>)
    ensures exists n: nat :: IsLowest(legacy, n)
  {
    if legacy == map[] {
      assert IsLowest(legacy, 0);
    } else {
      var a :| a in legacy;
      var others := legacy - {a};
      LowestExists(others);
      var n: nat :| IsLowest(others, n);
      assert forall b :: b in legacy ==> b == a || b in others;
      assert IsLowest(legacy, if others == map[] || legacy[a] < n then legacy[a] else n);
    }
  }

  /** Where the stream starts: above the lowest of the older cursors. */
  ghost function Lowest(legacy: map<Address, nat>): (n: nat)
    ensures IsLowest(legacy, n)
  {
    LowestExists(legacy);
    var n: nat :| IsLowest(legacy, n); n
  }

  // ----- Delivered histories -----

  /** The contracts the stream reads and the older cursors it inherits. */
  datatype Site = Site(contracts: set<Address>, legacy: map<Address, nat>)

  ghost function Due(chain: ChainView, site: Site, upTo: nat): seq<Log> {
    Segment(chain.logs, site.contracts, site.legacy, Lowest(site.legacy) + 1, upTo)
  }

  ghost predicate OnlyCoreSaves(h: seq<Step>) {
    forall i :: 0 <= i < |h| && h[i].Save? ==> h[i].cursor == CORE_CURSOR
  }

  ghost predicate TimesFromClock(h: seq<Step>, clock: nat -> int) {
    forall i :: 0 <= i < |h| && h[i].Stream? ==> h[i].time == clock(h[i].lg.block)
  }

  ghost predicate Delivered(
      chain: ChainView, clock: nat -> int, site: Site, h: seq<Step>, cursors: map<string, Checkpoint>) {
    && OnlyCoreSaves(h) && TimesFromClock(h, clock)
    && if CORE_CURSOR !in cursors then StreamLogs(h) == []
       else
         && cursors[CORE_CURSOR].block > Lowest(site.legacy)
         && cursors[CORE_CURSOR].hash == chain.hash(cursors[CORE_CURSOR].block)
         && StreamLogs(h) == Due(chain, site, cursors[CORE_CURSOR].block)
  }

  /** The first block the stream has not read. */
  ghost function NextBlock(site: Site, cursors: map<string, Checkpoint>): nat {
    if CORE_CURSOR in cursors then cursors[CORE_CURSOR].block + 1 else Lowest(site.legacy) + 1
  }

  // ----- One batch -----

  lemma {:induction false} StreamLogsOfSteps(logs: seq<Log>, times: map<nat, int>)
    ensures StreamLogs(StreamSteps(logs, times)) == logs
  {
    if logs != [] {
      var front := StreamSteps(logs[..|logs| - 1], times);
      StreamLogsOfSteps(logs[..|logs| - 1], times);
      assert StreamSteps(logs, times)[..|StreamSteps(logs, times)| - 1] == front;
      assert logs == logs[..|logs| - 1] + [logs[|logs| - 1]];
    }
  }

  lemma {:induction false} StepsOfBatch(logs: seq<Log>, times: map<nat, int>, clock: nat -> int)
    requires forall lg :: lg in logs ==> lg.block in times && times[lg.block] == clock(lg.block)
    ensures OnlyCoreSaves(StreamSteps(logs, times)) && TimesFromClock(StreamSteps(logs, times), clock)
  {
    if logs != [] {
      assert logs == logs[..|logs| - 1] + [logs[|logs| - 1]];
      StepsOfBatch(logs[..|logs| - 1], times, clock);
    }
  }

  lemma {:induction false} VisitsStreamNothing(steps: seq<Step>)
    requires Visits(steps)
    ensures StreamLogs(steps) == []
  {
    if steps != [] { VisitsStreamNothing(steps[..|steps| - 1]); }
  }

  lemma ConcatKeepsHabits(g: seq<Step>, h: seq<Step>, clock: nat -> int)
    requires OnlyCoreSaves(g) && TimesFromClock(g, clock) && OnlyCoreSaves(h) && TimesFromClock(h, clock)
    ensures OnlyCoreSaves(g + h) && TimesFromClock(g + h, clock)
  {
  }

  /** A batch that hands over exactly the next stretch of the chain keeps the history delivered. */
  lemma BatchDelivers(chain: ChainView, clock: nat -> int, site: Site, h: seq<Step>, visited: seq<Step>,
                      cursors: map<string, Checkpoint>, logs: seq<Log>, times: map<nat, int>, to: nat)
    requires Genuine(chain) && Delivered(chain, clock, site, h, cursors) && Visits(visited)
    requires NextBlock(site, cursors) <= to
    requires logs == Segment(chain.logs, site.contracts, site.legacy, NextBlock(site, cursors), to)
    requires forall lg :: lg in logs ==> lg.block in times && times[lg.block] == clock(lg.block)
    ensures var at := Checkpoint(to, chain.hash(to));
      Delivered(chain, clock, site, h + visited + WorkSteps(StreamBatch(logs, times, at)), cursors[CORE_CURSOR := at])
  {
    hide Segment, StreamLogs, Lowest, ChainOrdered;
    var at, steps := Checkpoint(to, chain.hash(to)), StreamSteps(logs, times);
    StepsOfBatch(logs, times, clock);
    ConcatKeepsHabits(h, visited, clock);
    ConcatKeepsHabits(steps, [Save(CORE_CURSOR, at)], clock);
    ConcatKeepsHabits(h + visited, steps + [Save(CORE_CURSOR, at)], clock);
    StreamLogsOfBatch(h, visited, logs, times, at);
    if CORE_CURSOR in cursors {
      SegmentSplits(chain.logs, site.contracts, site.legacy, Lowest(site.legacy) + 1, cursors[CORE_CURSOR].block, to);
    } else {
      assert StreamLogs(h) + logs == logs;
    }
  }

  lemma StreamLogsOfBatch(h: seq<Step>, visited: seq<Step>, logs: seq<Log>, times: map<nat, int>, at: Checkpoint)
    requires Visits(visited)
    ensures StreamLogs(h + visited + WorkSteps(StreamBatch(logs, times, at))) == StreamLogs(h) + logs
  {
    var steps, save := StreamSteps(logs, times), [Save(CORE_CURSOR, at)];
    VisitsStreamNothing(visited);
    StreamLogsOfSteps(logs, times);
    assert save[..0] == [];
    StreamLogsConcat(h, visited);
    StreamLogsConcat(h + visited, steps + save);
    StreamLogsConcat(steps, save);
  }

  /** Outside links and retries owe the stream nothing and take nothing from it. */
  lemma OthersDeliver(
      chain: ChainView, clock: nat -> int, site: Site, h: seq<Step>, more: seq<Step>, cursors: map<string, Checkpoint>)
    requires Delivered(chain, clock, site, h, cursors)
    requires forall i :: 0 <= i < |more| ==> more[i].Visit? || more[i].Retry?
    ensures Delivered(chain, clock, site, h + more, cursors)
  {
    hide Due, StreamLogs, Lowest;
    StreamLogsConcat(h, more);
    NoStreamNoLogs(more);
    ConcatKeepsHabits(h, more, clock);
  }

  lemma {:induction false} NoStreamNoLogs(steps: seq<Step>)
    requires forall i :: 0 <= i < |steps| ==> !steps[i].Stream?
    ensures StreamLogs(steps) == []
  {
    if steps != [] { NoStreamNoLogs(steps[..|steps| - 1]); }
  }

  /** The reorganisation check: while the recorded block keeps its hash, what was delivered is still what is due. */
  lemma SameHashSameDue(
      chain: ChainView, now: ChainView, clock: nat -> int, site: Site, h: seq<Step>, cursors: map<string, Checkpoint>)
    requires Delivered(chain, clock, site, h, cursors) && HashesCommit(chain, now)
    requires CORE_CURSOR in cursors ==> now.hash(cursors[CORE_CURSOR].block) == cursors[CORE_CURSOR].hash
    ensures Delivered(now, clock, site, h, cursors)
  {
    hide StreamLogs, Lowest;
  }

  // ----- Exactly once -----

  /** One left-to-right fold of `ApplyOrPark` over the logs. */
  function Folded(cfg: Config, base: Database, logs: seq<Log>, clock: nat -> int): Option<Database> {
    if logs == [] then Some(base)
    else
      match Folded(cfg, base, logs[..|logs| - 1], clock)
      case None => None
      case Some(before) => ApplyOrPark(cfg, before, logs[|logs| - 1], clock(logs[|logs| - 1].block))
  }

  lemma {:induction false} FoldedIgnoresCursors(
      cfg: Config, d: Database, logs: seq<Log>, clock: nat -> int, cursors: map<string, Checkpoint>)
    ensures Folded(cfg, d.(cursors := cursors), logs, clock) ==
            match Folded(cfg, d, logs, clock) case None => None case Some(m) => Some(m.(cursors := cursors))
  {
    hide ApplyOrPark;
    if logs != [] {
      var front, last := logs[..|logs| - 1], logs[|logs| - 1];
      FoldedIgnoresCursors(cfg, d, front, clock, cursors);
      match Folded(cfg, d, front, clock) {
        case None =>
        case Some(m) => ParkingIgnoresCursors(cfg, m, last, clock(last.block), cursors);
      }
    }
  }

  /** A batch goes through exactly when its fold does. */
  lemma {:induction false} StepsFold(cfg: Config, d: Database, logs: seq<Log>, times: map<nat, int>, clock: nat -> int)
    requires forall lg :: lg in logs ==> lg.block in times && times[lg.block] == clock(lg.block)
    ensures Run(cfg, d, StreamSteps(logs, times)) == Folded(cfg, d, logs, clock)
  {
    hide ApplyOrPark, RetryLetter;
    if logs != [] {
      var front, last := logs[..|logs| - 1], logs[|logs| - 1];
      assert logs == front + [last];
      StepsFold(cfg, d, front, times, clock);
      RunOneMore(cfg, d, StreamSteps(front, times), Stream(last, clock(last.block)));
    }
  }

  lemma BatchFolds(cfg: Config, d: Database, logs: seq<Log>, times: map<nat, int>, clock: nat -> int, at: Checkpoint)
    requires forall lg :: lg in logs ==> lg.block in times && times[lg.block] == clock(lg.block)
    ensures var done := Run(cfg, d, WorkSteps(StreamBatch(logs, times, at)));
      Folded(cfg, d, logs, clock) == match done case None => None case Some(m) => Some(m.(cursors := d.cursors))
  {
    StepsFold(cfg, d, logs, times, clock);
    FoldedIgnoresCursors(cfg, d, logs, clock, d.cursors);
    assert d.(cursors := d.cursors) == d;
    hide Apply, Run, Folded;
    RunOneMore(cfg, d, StreamSteps(logs, times), Save(CORE_CURSOR, at));
  }

  /** Only the stream and its cursors: no retry and no outside write. */
  ghost predicate StreamOnly(h: seq<Step>) {
    forall i :: 0 <= i < |h| ==> h[i].Stream? || h[i].Save?
  }

  lemma ParkingIgnoresCursors(cfg: Config, d: Database, lg: Log, time: int, cursors: map<string, Checkpoint>)
    ensures ApplyOrPark(cfg, d.(cursors := cursors), lg, time) ==
            match ApplyOrPark(cfg, d, lg, time) case None => None case Some(after) => Some(after.(cursors := cursors))
  {
    hide Apply;
  }

  lemma {:induction false} StreamOnlyFolds(cfg: Config, base: Database, h: seq<Step>, clock: nat -> int)
    requires StreamOnly(h) && TimesFromClock(h, clock) && Run(cfg, base, h).Some?
    ensures Folded(cfg, base, StreamLogs(h), clock) == Some(Run(cfg, base, h).value.(cursors := base.cursors))
  {
    hide ApplyOrPark, RetryLetter;
    if h != [] {
      var front, s := h[..|h| - 1], h[|h| - 1];
      StreamOnlyFolds(cfg, base, front, clock);
      if s.Stream? {
        assert StreamLogs(h)[..|StreamLogs(h)| - 1] == StreamLogs(front);
        ParkingIgnoresCursors(cfg, Run(cfg, base, front).value, s.lg, s.time, base.cursors);
      } else {
        assert StreamLogs(h) == StreamLogs(front);
      }
    }
  }

  /**
   Exactly once: a database whose stream stands at block `c`, with no retry and no outside write so far, is one
   left-to-right fold of `ApplyOrPark` over the uncovered logs up to `c`, whatever batches and failures led to it.
   */
  lemma ExactlyOnce(cfg: Config, base: Database, chain: ChainView, clock: nat -> int, site: Site, h: seq<Step>)
    requires StreamOnly(h) && Run(cfg, base, h).Some?
    requires Delivered(chain, clock, site, h, Run(cfg, base, h).value.cursors)
    requires CORE_CURSOR in Run(cfg, base, h).value.cursors
    ensures var d := Run(cfg, base, h).value;
      Folded(cfg, base, Due(chain, site, d.cursors[CORE_CURSOR].block), clock) == Some(d.(cursors := base.cursors))
  {
    StreamOnlyFolds(cfg, base, h, clock);
  }

  /** Two runs at the same block agree on every projected row and every letter. */
  lemma RunsConverge(
      cfg: Config, base: Database, chain: ChainView, clock: nat -> int, site: Site, g: seq<Step>, h: seq<Step>)
    requires StreamOnly(g) && StreamOnly(h) && Run(cfg, base, g).Some? && Run(cfg, base, h).Some?
    requires Delivered(chain, clock, site, g, Run(cfg, base, g).value.cursors)
    requires Delivered(chain, clock, site, h, Run(cfg, base, h).value.cursors)
    requires var a, b := Run(cfg, base, g).value.cursors, Run(cfg, base, h).value.cursors;
      CORE_CURSOR in a && CORE_CURSOR in b && a[CORE_CURSOR].block == b[CORE_CURSOR].block
    ensures Run(cfg, base, g).value.rows == Run(cfg, base, h).value.rows
    ensures Run(cfg, base, g).value.letters == Run(cfg, base, h).value.letters
  {
    hide Run, Delivered, Due, Folded;
    ExactlyOnce(cfg, base, chain, clock, site, g);
    ExactlyOnce(cfg, base, chain, clock, site, h);
  }

  // ----- Cursor migration -----

  /**
   The older cursors neither repeat nor skip: a log of a legacy contract at or above the start block is streamed
   exactly when its contract's cursor had not passed it; a log of a newer contract exactly when it lies above the
   lowest older cursor.
   */
  lemma MigrationHandsOver(base: map<string, Checkpoint>, addresses: seq<Address>, startBlock: nat, chain: ChainView,
                           contracts: set<Address>, upTo: nat, lg: Log)
    requires lg in chain.logs && lg.address in contracts && !lg.event.Unsubscribed? && lg.block <= upTo
    ensures var site := Site(contracts, LegacyCursors(base, addresses, startBlock));
      && (lg.address in addresses && startBlock <= lg.block ==>
            (lg in Due(chain, site, upTo) <==> lg.block > CursorAt(base, lg.address).block))
      && (lg.address in addresses && lg.block < startBlock ==> lg !in Due(chain, site, upTo))
      && (lg.address !in addresses ==> (lg in Due(chain, site, upTo) <==> lg.block > Lowest(site.legacy)))
  {
    hide Due, LegacyCursors, Lowest, CursorAt;
    DueMember(chain, Site(contracts, LegacyCursors(base, addresses, startBlock)), upTo, lg);
    OldCursor(base, addresses, startBlock, lg.address);
  }

  lemma DueMember(chain: ChainView, site: Site, upTo: nat, lg: Log)
    ensures lg in Due(chain, site, upTo) <==>
      && lg in chain.logs && lg.address in site.contracts && !lg.event.Unsubscribed?
      && Lowest(site.legacy) < lg.block <= upTo && !Covered(lg, site.legacy)
  {
    SegmentMember(chain.logs, site.contracts, site.legacy, Lowest(site.legacy) + 1, upTo, lg);
  }

  lemma OldCursor(base: map<string, Checkpoint>, addresses: seq<Address>, startBlock: nat, a: Address)
    ensures var legacy := LegacyCursors(base, addresses, startBlock);
      && (a in legacy <==> a in addresses)
      && (a in legacy ==> legacy[a] == Max(CursorAt(base, a).block, FloorOf(startBlock)) && Lowest(legacy) <= legacy[a])
  {
    var legacy := LegacyCursors(base, addresses, startBlock);
    assert IsLowest(legacy, Lowest(legacy));
  }

  /** The logs due are in chain order, so each is due once. */
  lemma DueOnce(chain: ChainView, site: Site, upTo: nat)
    requires Genuine(chain)
    ensures ChainOrdered(Due(chain, site, upTo)) && DistinctKeys(Due(chain, site, upTo))
  {
    SegmentKeepsOrder(chain.logs, site.contracts, site.legacy, Lowest(site.legacy) + 1, upTo);
    SegmentKeepsKeysApart(chain.logs, site.contracts, site.legacy, Lowest(site.legacy) + 1, upTo);
  }
}
