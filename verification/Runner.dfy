/** The runner: polls the chain, streams batches, and retries parked logs. */
module Runner {
  import opened Prelude
  import opened Chain
  import opened Rpc
  import opened Projection
  import opened Replay
  import opened Store
  import opened Conservation
  import opened Footprint
  import opened Parking
  import opened Turns
  import opened Passes
  import opened Segments
  import opened Delivery
  import opened Batching
  import opened RetryPass
  import opened Starvation
  import opened FatalLogs
  import opened Obstacles
  import opened Rivals
  import opened Standstill

  const BLOCK_TIME_CACHE_MAX := 4096

  datatype PollError =
    | RpcFailed
    | StoreFailed(why: Failure)
    | Reorganised(block: nat)

  ghost predicate Known(times: map<nat, int>, clock: nat -> int) {
    forall b :: b in times ==> times[b] == clock(b)
  }

  /** Every log's block has its time. */
  ghost predicate Timed(logs: seq<Log>, times: map<nat, int>) {
    forall lg :: lg in logs ==> lg.block in times
  }

  /**
   The database holds what its chain owes it: the replay of its history, in which the stream has delivered every
   uncovered log up to the cursor. The chain now served may have moved on, but blocks that keep their hash keep their
   history.
   */
  ghost predicate Sound(store: Store, rpc: FailoverClient, chain: ChainView, site: Site)
    reads store, rpc
  {
    && store.Consistent() && !store.open && rpc.Valid()
    && CORE_CURSOR !in store.base.cursors && store.base.letters == map[]
    && Genuine(chain) && HashesCommit(chain, rpc.view)
    && Delivered(chain, rpc.clock, site, store.history, store.committed.cursors)
  }

  // ----- Cursors along a history -----

  lemma StepMovesCursor(cfg: Config, d: Database, s: Step)
    requires Advance(cfg, d, s).Some?
    ensures Advance(cfg, d, s).value.cursors == if s.Save? then d.cursors[s.cursor := s.at] else d.cursors
  {
    hide Apply;
  }

  /** Only the stream's own cursor moves, so the older cursors read as they did at the start. */
  lemma {:induction false} OlderCursorsStay(cfg: Config, base: Database, h: seq<Step>, cursor: string)
    requires Run(cfg, base, h).Some? && OnlyCoreSaves(h) && cursor != CORE_CURSOR
    ensures CursorAt(Run(cfg, base, h).value.cursors, cursor) == CursorAt(base.cursors, cursor)
  {
    hide Advance;
    if h != [] {
      var front := h[..|h| - 1];
      assert OnlyCoreSaves(front) && h[|h| - 1] in h;
      OlderCursorsStay(cfg, base, front, cursor);
      StepMovesCursor(cfg, Run(cfg, base, front).value, h[|h| - 1]);
    }
  }

  lemma {:induction false} CursorsStay(cfg: Config, d: Database, steps: seq<Step>)
    requires Run(cfg, d, steps).Some? && forall i :: 0 <= i < |steps| ==> !steps[i].Save?
    ensures Run(cfg, d, steps).value.cursors == d.cursors
  {
    hide Advance;
    if steps != [] {
      CursorsStay(cfg, d, steps[..|steps| - 1]);
      StepMovesCursor(cfg, Run(cfg, d, steps[..|steps| - 1]).value, steps[|steps| - 1]);
    }
  }

  lemma {:induction false} StreamStepsStream(logs: seq<Log>, times: map<nat, int>)
    ensures forall i :: 0 <= i < |StreamSteps(logs, times)| ==> StreamSteps(logs, times)[i].Stream?
  {
    if logs != [] { StreamStepsStream(logs[..|logs| - 1], times); }
  }

  lemma BatchMovesCursor(
      cfg: Config, d: Database, visited: seq<Step>, logs: seq<Log>, times: map<nat, int>, at: Checkpoint)
    requires Visits(visited) && Run(cfg, d, visited + WorkSteps(StreamBatch(logs, times, at))).Some?
    ensures Run(cfg, d, visited + WorkSteps(StreamBatch(logs, times, at))).value.cursors == d.cursors[CORE_CURSOR := at]
    ensures Streaming(visited + WorkSteps(StreamBatch(logs, times, at)))
  {
    hide Run, Advance;
    var steps := visited + StreamSteps(logs, times);
    assert visited + WorkSteps(StreamBatch(logs, times, at)) == steps + [Save(CORE_CURSOR, at)];
    StreamStepsStream(logs, times);
    RunOneMore(cfg, d, steps, Save(CORE_CURSOR, at));
    CursorsStay(cfg, d, steps);
    StepMovesCursor(cfg, Run(cfg, d, steps).value, Save(CORE_CURSOR, at));
  }

  lemma DeliveredSavesCore(
      chain: ChainView, clock: nat -> int, site: Site, h: seq<Step>, cursors: map<string, Checkpoint>)
    requires Delivered(chain, clock, site, h, cursors)
    ensures OnlyCoreSaves(h)
  {
  }

  lemma NoOlderCursors(cursors: map<string, Checkpoint>, startBlock: nat)
    ensures LegacyCursors(cursors, [], startBlock) == map[]
  {
  }

  lemma OneMoreCursor(cursors: map<string, Checkpoint>, addresses: seq<Address>, i: nat, startBlock: nat)
    requires i < |addresses|
    ensures LegacyCursors(cursors, addresses[..i + 1], startBlock) ==
            LegacyCursors(cursors, addresses[..i], startBlock)[
              addresses[i] := Max(CursorAt(cursors, addresses[i]).block, FloorOf(startBlock))]
  {
    assert addresses[..i + 1] == addresses[..i] + [addresses[i]];
  }

  lemma VisitsAreStreaming(steps: seq<Step>)
    requires Visits(steps)
    ensures Streaming(steps)
  {
  }

  lemma NothingStreams()
    ensures Streaming([])
  {
  }

  lemma HistoryJoins(h: seq<Step>, a: seq<Step>, b: seq<Step>)
    ensures h + a + b == h + (a + b)
  {
  }

  lemma StreamingJoins(a: seq<Step>, b: seq<Step>)
    requires Streaming(a) && Streaming(b)
    ensures Streaming(a + b)
  {
  }

  lemma RecordedHash(chain: ChainView, clock: nat -> int, site: Site, h: seq<Step>, cursors: map<string, Checkpoint>)
    requires Delivered(chain, clock, site, h, cursors) && Genuine(chain)
    ensures CORE_CURSOR in cursors ==> cursors[CORE_CURSOR].block > 0 && cursors[CORE_CURSOR].hash != ""
  {
  }

  lemma CommitsToItself(chain: ChainView)
    ensures HashesCommit(chain, chain)
  {
  }

  lemma FirstBlock(chain: ChainView, clock: nat -> int, site: Site, h: seq<Step>, cursors: map<string, Checkpoint>)
    requires Delivered(chain, clock, site, h, cursors)
    ensures var at := CursorAt(cursors, CORE_CURSOR);
      NextBlock(site, cursors) == if at.block == 0 then Lowest(site.legacy) + 1 else at.block + 1
  {
  }

  ghost predicate Retrying(steps: seq<Step>) {
    forall i :: 0 <= i < |steps| ==> steps[i].Visit? || steps[i].Retry?
  }

  /** The steps are a retry pass on what the history came to, of all it could list when it succeeded. */
  ghost predicate PassAfter(cfg: Config, base: Database, before: seq<Step>, steps: seq<Step>, succeeded: bool) {
    && Run(cfg, base, before).Some?
    && PartialPass(Run(cfg, base, before).value, steps, Some(RETRY_LIMIT))
    && (succeeded ==> ListedPass(Run(cfg, base, before).value, steps))
  }

  /** On what the history came to, the steps are a pass that nothing but a doomed letter stopped. */
  ghost predicate StoppedAfter(cfg: Config, base: Database, before: seq<Step>, steps: seq<Step>, failed: bool) {
    Run(cfg, base, before).Some? && StoppedPass(cfg, Run(cfg, base, before).value, steps, failed)
  }

  /** The height of the first endpoint, in cyclic order from the active one, that gives one. */
  ghost function HeightAsked(es: seq<Endpoint>, start: nat, hash: nat -> string, clock: nat -> int): Option<nat>
    requires |es| > 0
  {
    var k := FirstAnswer(es, hash, clock, BlockNumber, start, 0);
    if k < |es| then Some(es[Cyclic(start, k, |es|)].height) else None
  }

  lemma HeightIsAsked(es: seq<Endpoint>, start: nat, hash: nat -> string, clock: nat -> int, reply: Option<Reply>)
    requires |es| > 0
    requires var k := FirstAnswer(es, hash, clock, BlockNumber, start, 0);
      reply == if k < |es| then Answer(es[Cyclic(start, k, |es|)], hash, clock, BlockNumber) else None
    ensures reply.None? <==> HeightAsked(es, start, hash, clock).None?
    ensures reply.Some? ==> reply.value.Number? && HeightAsked(es, start, hash, clock) == Some(reply.value.value)
  {
    hide Cyclic;
    var k := FirstAnswer(es, hash, clock, BlockNumber, start, 0);
    if k < |es| { HeightAnswer(es[Cyclic(start, k, |es|)], hash, clock); }
  }

  ghost predicate FewWaiting(cfg: Config, base: Database, h: seq<Step>) {
    Run(cfg, base, h).Some? && |WaitingKeys(Run(cfg, base, h).value.letters)| <= RETRY_LIMIT
  }

  lemma NothingRetried()
    ensures Retrying([]) && FollowsPass([], [])
  {
  }

  lemma RetryingJoins(a: seq<Step>, b: seq<Step>)
    requires Retrying(a) && Retrying(b)
    ensures Retrying(a + b)
  {
  }

  /** From the `i`-th on, what was listed is on file as it was read, each letter waiting under its own log's key. */
  ghost predicate OnFile(letters: map<LogKey, Letter>, found: seq<Filing>, i: nat) {
    && (forall j :: i <= j < |found| ==>
          found[j].id in letters && letters[found[j].id] == found[j].letter
          && !found[j].letter.resolved && found[j].letter.lg.Key() == found[j].id)
    && (forall j, k :: 0 <= j < k < |found| ==> found[j].id != found[k].id)
  }

  lemma NextOnFile(letters: map<LogKey, Letter>, found: seq<Filing>, i: nat)
    requires OnFile(letters, found, i) && i < |found|
    ensures Waiting(letters, found[i].id) && letters[found[i].id] == found[i].letter
    ensures found[i].letter.lg.Key() == found[i].id
  {
  }

  /** A retry leaves the later letters on file. */
  lemma RestOnFile(letters: map<LogKey, Letter>, after: map<LogKey, Letter>, found: seq<Filing>, i: nat)
    requires OnFile(letters, found, i) && i < |found|
    requires forall k :: k in letters && k != found[i].id ==> k in after && after[k] == letters[k]
    ensures OnFile(after, found, i + 1)
  {
  }

  /** One more letter gone through, retried or not. */
  lemma {:induction false} PassGrows(found: seq<Filing>, i: nat, steps: seq<Step>, more: seq<Step>, landed: bool)
    requires i < |found| && FollowsPass(steps, LogsIn(found)[..i])
    requires FollowsPass(more, if landed then [found[i].letter.lg] else [])
    ensures FollowsPass(steps + more, LogsIn(found)[..if landed then i + 1 else i])
    ensures
      steps == Retries(LogsIn(found)[..i]) && more == (if landed then [Retry(found[i].letter.lg.Key())] else []) ==>
      steps + more == Retries(LogsIn(found)[..if landed then i + 1 else i])
  {
    hide LogsIn, FollowsPass, Retries;
    var logs := LogsIn(found);
    PassesJoin(steps, more, logs[..i], if landed then [found[i].letter.lg] else []);
    RetriesOneMore(logs, i);
    assert logs[..i] + [] == logs[..i] && logs[..i] + [logs[i]] == logs[..i + 1];
    assert more == [] ==> steps + more == steps;
  }

  lemma DeliveredInOrder(
      chain: ChainView, clock: nat -> int, site: Site, h: seq<Step>, cursors: map<string, Checkpoint>)
    requires Delivered(chain, clock, site, h, cursors) && Genuine(chain)
    ensures ChainOrdered(StreamLogs(h)) && DistinctKeys(StreamLogs(h))
  {
    if CORE_CURSOR in cursors { DueOnce(chain, site, cursors[CORE_CURSOR].block); }
  }

  lemma ListedAreFiled(letters: map<LogKey, Letter>, logs: seq<Log>, found: seq<Filing>, limit: nat)
    requires Listed(letters, found, limit) && Filed(letters, logs)
    ensures OnFile(letters, found, 0)
  {
  }

  /** What was retried of the list, from its beginning, is a pass within the limit, and all of it a listed pass. */
  lemma {:induction false} ListedStepsPass(d: Database, logs: seq<Log>, found: seq<Filing>, steps: seq<Step>, n: nat)
    requires Listed(d.letters, found, RETRY_LIMIT) && Filed(d.letters, logs) && ChainOrdered(logs) && DistinctKeys(logs)
    requires n <= |found| && FollowsPass(steps, LogsIn(found)[..n])
    ensures PartialPass(d, steps, Some(RETRY_LIMIT))
    ensures n == |found| ==> ListedPass(d, steps)
  {
    ListIsBeginning(d.letters, logs, found, RETRY_LIMIT);
    var all := AllWaiting(d.letters, logs);
    assert all[..Min(RETRY_LIMIT, |all|)][..n] == all[..n];
    hide Listed, LogsIn, AllWaiting, FollowsPass;
    assert PassOf(d, steps, all, n);
  }

  lemma {:induction false} ListedLetter(
      letters: map<LogKey, Letter>, logs: seq<Log>, found: seq<Filing>, n: nat)
    requires Listed(letters, found, RETRY_LIMIT) && Filed(letters, logs) && n < |found|
    ensures var k := found[n].letter.lg.Key(); k in letters && letters[k] == found[n].letter
  {
  }

  /** A list gone through up to the first letter that is doomed in its turn, or to its end, is a stopped pass. */
  lemma {:induction false} ListedStepsStop(
      cfg: Config, d: Database, logs: seq<Log>, found: seq<Filing>, steps: seq<Step>, n: nat, after: Database)
    requires Listed(d.letters, found, RETRY_LIMIT) && Filed(d.letters, logs) && ChainOrdered(logs) && DistinctKeys(logs)
    requires n <= |found| && steps == Retries(LogsIn(found)[..n]) && Run(cfg, d, steps) == Some(after)
    requires n < |found| ==> Doomed(cfg, after.rows, found[n].letter.lg, found[n].letter.time)
    ensures StoppedPass(cfg, d, steps, n < |found|)
  {
    hide Listed, Filed, LogsIn, AllWaiting, WaitingAre, Run, Doomed, Retries, DistinctKeys, ChainOrdered;
    ListIsBeginning(d.letters, logs, found, RETRY_LIMIT);
    var all := AllWaiting(d.letters, logs);
    assert all[..Min(RETRY_LIMIT, |all|)][..n] == all[..n];
    if n < |found| {
      ListedLetter(d.letters, logs, found, n);
      assert all[n] == all[..Min(RETRY_LIMIT, |all|)][n];
    }
    assert StoppedPassOf(cfg, d, steps, n < |found|, all, n);
  }

  /** Nothing retried is a pass too, of no letters. */
  lemma NothingIsAPass(d: Database, logs: seq<Log>)
    requires Filed(d.letters, logs) && ChainOrdered(logs) && DistinctKeys(logs)
    ensures PartialPass(d, [], Some(RETRY_LIMIT))
  {
    WaitingAreAll(d.letters, logs);
    var all := AllWaiting(d.letters, logs);
    assert all[..0] == [];
    assert PassOf(d, [], all, 0);
  }

  ghost predicate NotAbove(logs: seq<Log>, top: nat) {
    forall lg :: lg in logs ==> lg.block <= top
  }

  lemma UpLower(es: seq<Endpoint>, top: nat, block: nat)
    requires Up(es, top) && block <= top
    ensures Up(es, block)
  {
  }

  lemma UpThroughout(es: seq<Endpoint>, top: nat, logs: seq<Log>)
    requires Up(es, top) && NotAbove(logs, top)
    ensures forall i :: 0 <= i < |logs| ==> Up(es, logs[i].block)
  {
    forall i | 0 <= i < |logs| ensures Up(es, logs[i].block) {
      assert logs[i] in logs;
    }
  }

  lemma UpPinned(es: seq<Endpoint>, to: nat, session: nat, hash: nat -> string, clock: nat -> int,
                 contracts: set<Address>, from: nat)
    requires Up(es, to) && session < |es|
    ensures es[session := NextSession(es[session])] == es && es[session := Used(es[session])] == es
    ensures Answer(es[session], hash, clock, FilterLogs(contracts, from, to)).Some?
    ensures Answer(es[session], hash, clock, BlockHash(to)).Some?
  {
    UpAnswers(es, to, session, hash, clock, FilterLogs(contracts, from, to));
    UpAnswers(es, to, session, hash, clock, BlockHash(to));
  }

  /** Once the pinned endpoint has reached the top of the range, what it served is the chain's own segment. */
  lemma PinnedServes(view: ChainView, es: seq<Endpoint>, i: nat, contracts: set<Address>, legacy: map<Address, nat>,
                     from: nat, to: nat)
    requires Genuine(view) && Replicas(es, view.logs) && i < |es| && to <= es[i].height
    ensures Uncovered(Sorted(Select(es[i].logs, contracts, from, Min(to, es[i].height))), legacy) ==
            Segment(view.logs, contracts, legacy, from, to)
  {
    hide Sorted, Select, Uncovered;
    ReplicaServesSegment(view.logs, es[i].logs, contracts, from, to);
  }

  lemma SegmentNotAbove(
      logs: seq<Log>, contracts: set<Address>, legacy: map<Address, nat>, from: nat, height: nat, to: nat)
    requires height <= to
    ensures NotAbove(Uncovered(Sorted(Select(logs, contracts, from, height)), legacy), to)
  {
    var served := Select(logs, contracts, from, height);
    SelectMembers(logs, contracts, from, height);
    UncoveredMembers(Sorted(served), legacy);
    forall lg | lg in Uncovered(Sorted(served), legacy) ensures lg.block <= to {
      assert lg in multiset(Sorted(served));
      assert lg in served;
    }
  }

  /** Some batch from `from` on, up to the top at most, comes to a log that is doomed on the rows it comes to. */
  ghost predicate Blocked(
      cfg: Config, d: Database, logs: seq<Log>, site: Site, from: nat, top: nat, clock: nat -> int) {
    exists to: nat, n :: from <= to <= top
      && StopsBefore(cfg, d, Segment(logs, site.contracts, site.legacy, from, to), clock, n)
  }

  lemma BatchIsBlocked(
      cfg: Config, d: Database, logs: seq<Log>, site: Site, from: nat, to: nat, top: nat, clock: nat -> int)
    requires from <= to <= top
    requires Folded(cfg, d, Segment(logs, site.contracts, site.legacy, from, to), clock).None?
    ensures Blocked(cfg, d, logs, site, from, top, clock)
  {
    FoldStopsExactlyWhen(cfg, d, Segment(logs, site.contracts, site.legacy, from, to), clock);
    hide Folded, StopsBefore, Segment;
  }

  function BlocksOf(logs: seq<Log>): set<nat> {
    set i | 0 <= i < |logs| :: logs[i].block
  }

  lemma BlocksOneMore(logs: seq<Log>, i: nat)
    requires i < |logs|
    ensures BlocksOf(logs[..i + 1]) == BlocksOf(logs[..i]) + {logs[i].block}
    ensures BlocksOf(logs[..i + 1]) <= BlocksOf(logs)
  {
    var upTo := logs[..i + 1];
    forall b | b in BlocksOf(upTo) ensures b in BlocksOf(logs[..i]) + {logs[i].block} && b in BlocksOf(logs) {
      var j :| 0 <= j < |upTo| && upTo[j].block == b;
      assert logs[j].block == b && (j < i ==> logs[..i][j].block == b);
    }
    forall b | b in BlocksOf(logs[..i]) + {logs[i].block} ensures b in BlocksOf(upTo) {
      if b in BlocksOf(logs[..i]) {
        var j :| 0 <= j < i && logs[..i][j].block == b;
        assert upTo[j].block == b;
      } else {
        assert upTo[i].block == b;
      }
    }
  }

  /** The times read so far: one for each block of the logs gone through. */
  ghost predicate TimesOf(logs: seq<Log>, i: nat, known: map<nat, int>, clock: nat -> int) {
    i <= |logs| && Known(known, clock) && known.Keys == BlocksOf(logs[..i])
  }

  lemma TimesOneMore(logs: seq<Log>, i: nat, known: map<nat, int>, clock: nat -> int)
    requires i < |logs| && TimesOf(logs, i, known, clock)
    ensures logs[i].block in known ==> TimesOf(logs, i + 1, known, clock)
    ensures logs[i].block !in known ==>
      TimesOf(logs, i + 1, known[logs[i].block := clock(logs[i].block)], clock)
      && |known| + 1 <= |BlocksOf(logs)| && |known[logs[i].block := clock(logs[i].block)]| == |known| + 1
  {
    BlocksOneMore(logs, i);
    SubsetIsSmaller(BlocksOf(logs[..i + 1]), BlocksOf(logs));
    hide BlocksOf;
    assert |known.Keys| == |known|;
    if logs[i].block in known {
      assert known.Keys + {logs[i].block} == known.Keys;
    } else {
      assert known[logs[i].block := clock(logs[i].block)].Keys == known.Keys + {logs[i].block};
    }
  }

  lemma NoTimes(logs: seq<Log>, clock: nat -> int)
    ensures TimesOf(logs, 0, map[], clock)
  {
  }

  lemma AllTimes(logs: seq<Log>, times: map<nat, int>, clock: nat -> int)
    requires TimesOf(logs, |logs|, times, clock)
    ensures Known(times, clock) && times.Keys == BlocksOf(logs) && Timed(logs, times) && |times| == |BlocksOf(logs)|
  {
    assert logs[..|logs|] == logs;
    assert |times.Keys| == |times|;
    BlocksAreTimed(logs, times);
  }

  lemma BlocksAreTimed(logs: seq<Log>, times: map<nat, int>)
    requires times.Keys == BlocksOf(logs)
    ensures Timed(logs, times)
  {
    forall lg | lg in logs ensures lg.block in times {
      var i :| 0 <= i < |logs| && logs[i] == lg;
      assert lg.block in BlocksOf(logs);
    }
  }

  class Runner {
    const store: Store
    const rpc: FailoverClient
    const contracts: set<Address>
    const legacyAddrs: seq<Address>
    const startBlock: nat
    const batchSize: nat
    const confirmations: nat
    var legacyCursors: Option<map<Address, nat>>
    var blockTimes: map<nat, int>
    var deadLetters: nat
    /** The chain the committed history was delivered from. */
    ghost var chain: ChainView

    ghost function Served(): Site
      reads this, store
    {
      Site(contracts, LegacyCursors(store.base.cursors, legacyAddrs, startBlock))
    }

    ghost predicate CacheIsRight()
      reads this, rpc
    {
      Known(blockTimes, rpc.clock) && |blockTimes| <= BLOCK_TIME_CACHE_MAX
    }

    ghost predicate Valid()
      reads this, store, rpc
    {
      && batchSize > 0 && CORE_CURSOR !in legacyAddrs
      && Sound(store, rpc, chain, Served()) && CacheIsRight()
      && (legacyCursors.Some? ==> legacyCursors.value == Served().legacy)
    }

    constructor (store: Store, rpc: FailoverClient, contracts: set<Address>, legacyAddrs: seq<Address>, startBlock: nat,
                 batchSize: nat, confirmations: nat, ghost chain: ChainView)
      requires batchSize > 0 && CORE_CURSOR !in legacyAddrs
      requires Sound(store, rpc, chain, Site(contracts, LegacyCursors(store.base.cursors, legacyAddrs, startBlock)))
      ensures Valid() && this.store == store && this.rpc == rpc && this.chain == chain
      ensures this.contracts == contracts && this.legacyAddrs == legacyAddrs && this.startBlock == startBlock
    {
      this.store, this.rpc, this.contracts, this.legacyAddrs := store, rpc, contracts, legacyAddrs;
      this.startBlock, this.batchSize, this.confirmations, this.chain := startBlock, batchSize, confirmations, chain;
      legacyCursors, blockTimes, deadLetters := None, map[], 0;
    }

    /** The database is healthy and no one else writes. */
    ghost predicate Undisturbed()
      reads store
    {
      Calm(store.faults) && store.visits == []
    }

    /** Every endpoint is healthy up to the block as well. */
    ghost predicate Quiet(top: nat)
      reads store, rpc
    {
      Undisturbed() && Up(rpc.endpoints, top)
    }

    // ----- Reading one batch -----

    /** The block's time through the cache, which is emptied when it is full. */
    method BlockTimeOf(session: nat, block: nat) returns (r: Option<int>)
      requires rpc.Valid() && session < |rpc.endpoints| && CacheIsRight()
      modifies this`blockTimes, rpc`endpoints, rpc`active, rpc`asked
      ensures rpc.Valid() && CacheIsRight()
      ensures |rpc.endpoints| == |old(rpc.endpoints)| && SameChain(old(rpc.endpoints[session]), rpc.endpoints[session])
      ensures r.Some? ==> r.value == rpc.clock(block)
      ensures old(block in blockTimes) ==> r.Some?
      ensures rpc.asked == old(rpc.asked) + (if old(block in blockTimes) then [] else [session])
      ensures |blockTimes| <= 4_096 && (r.Some? ==> block in blockTimes)
      ensures Up(old(rpc.endpoints), block) ==> r.Some? && rpc.endpoints == old(rpc.endpoints)
    {
      assert rpc.asked + [] == rpc.asked;
      if block in blockTimes { return Some(blockTimes[block]); }
      if Up(rpc.endpoints, block) {
        UpAnswers(rpc.endpoints, block, session, rpc.view.hash, rpc.clock, BlockTime(block));
      }
      var reply := rpc.PinnedDo(session, BlockTime(block));
      if reply.None? { return None; }
      var time := reply.value.time;
      if |blockTimes| >= BLOCK_TIME_CACHE_MAX { blockTimes := map[]; }
      blockTimes := blockTimes[block := time];
      r := Some(time);
    }

    /** The time of every block the logs are in, asked for at most once a block. */
    method BlockTimes(session: nat, logs: seq<Log>, ghost top: nat) returns (times: Option<map<nat, int>>)
      requires rpc.Valid() && session < |rpc.endpoints| && CacheIsRight()
      modifies this`blockTimes, rpc`endpoints, rpc`active, rpc`asked
      ensures rpc.Valid() && CacheIsRight()
      ensures |rpc.endpoints| == |old(rpc.endpoints)| && SameChain(old(rpc.endpoints[session]), rpc.endpoints[session])
      ensures times.Some? ==>
        Known(times.value, rpc.clock) && times.value.Keys == BlocksOf(logs) && Timed(logs, times.value)
      ensures |rpc.asked| <= |old(rpc.asked)| + |BlocksOf(logs)|
      ensures Up(old(rpc.endpoints), top) && NotAbove(logs, top) ==> times.Some? && rpc.endpoints == old(rpc.endpoints)
    {
      var known: map<nat, int> := map[];
      NoTimes(logs, rpc.clock);
      ghost var es, before := rpc.endpoints, |rpc.asked|;
      ghost var quiet := Up(es, top) && NotAbove(logs, top);
      if quiet { UpThroughout(es, top, logs); }
      hide BlocksOf, Up, NotAbove, Known, Timed, TimesOf, Genuine, Replicas;
      for i := 0 to |logs|
        invariant rpc.Valid() && CacheIsRight()
        invariant |rpc.endpoints| == |es| && SameChain(es[session], rpc.endpoints[session])
        invariant TimesOf(logs, i, known, rpc.clock) && |rpc.asked| <= before + |known|
        invariant quiet ==> rpc.endpoints == es
      {
        TimesOneMore(logs, i, known, rpc.clock);
        if logs[i].block !in known {
          var time := BlockTimeOf(session, logs[i].block);
          if time.None? { return None; }
          known := known[logs[i].block := time.value];
        }
      }
      AllTimes(logs, known, rpc.clock);
      times := Some(known);
    }

    /** What the pinned endpoint serves of `[from, to]`, sorted and without the covered logs. */
    method FetchLogs(session: nat, from: nat, to: nat, legacy: map<Address, nat>) returns (logs: Option<seq<Log>>)
      requires rpc.Valid() && session < |rpc.endpoints|
      modifies rpc`endpoints, rpc`active, rpc`asked
      ensures rpc.Valid()
      ensures |rpc.endpoints| == |old(rpc.endpoints)| && SameChain(old(rpc.endpoints[session]), rpc.endpoints[session])
      ensures var e := old(rpc.endpoints[session]);
        logs.Some? ==> logs.value == Uncovered(Sorted(Select(e.logs, contracts, from, Min(to, e.height))), legacy)
      ensures Up(old(rpc.endpoints), to) ==> logs.Some? && rpc.endpoints == old(rpc.endpoints)
    {
      ghost var es := rpc.endpoints;
      if Up(es, to) { UpPinned(es, to, session, rpc.view.hash, rpc.clock, contracts, from); }
      hide Genuine, Sorted, Uncovered, Select, Answer, Up, Replicas;
      var reply := rpc.PinnedDo(session, FilterLogs(contracts, from, to));
      if reply.None? { return None; }
      LogsAnswer(es[session], rpc.view.hash, rpc.clock, contracts, from, to);
      var fetched := reply.value.logs;
      var buffer := new Log[|fetched|](i requires 0 <= i < |fetched| => fetched[i]);
      assert buffer[..] == fetched;
      SortLogs(buffer);
      var n := DropCovered(buffer, legacy);
      logs := Some(buffer[..n]);
    }

    /**
     Reads the uncovered logs of `[from, to]` in chain order with their times, and the hash of block `to`, all from
     one pinned endpoint. An endpoint that has not reached `to` yet has no hash for it, so what is read is complete.
     */
    method FetchBatch(from: nat, to: nat, legacy: map<Address, nat>)
      returns (batch: Option<(seq<Log>, map<nat, int>, string)>)
      requires Valid()
      modifies this`blockTimes, rpc`endpoints, rpc`active, rpc`asked
      ensures Valid()
      ensures batch.Some? ==>
        && batch.value.0 == Segment(rpc.view.logs, contracts, legacy, from, to)
        && Known(batch.value.1, rpc.clock) && Timed(batch.value.0, batch.value.1)
        && batch.value.2 == rpc.view.hash(to)
      ensures Up(old(rpc.endpoints), to) ==> batch.Some? && rpc.endpoints == old(rpc.endpoints)
    {
      hide Known, Timed, Sorted, Uncovered, Select, Answer, Delivered, Run, HashesCommit, LegacyCursors;
      hide NotAbove, Genuine, Replicas, Segment, BlocksOf;
      ghost var es := rpc.endpoints;
      if Up(es, to) { UpPinned(es, to, rpc.active, rpc.view.hash, rpc.clock, contracts, from); }
      hide Up;
      var session := rpc.Pin();
      ghost var pins, pinned := rpc.endpoints, rpc.endpoints[session];
      var logs := FetchLogs(session, from, to, legacy);
      if logs.None? { return None; }
      SegmentNotAbove(pinned.logs, contracts, legacy, from, Min(to, pinned.height), to);
      var times := BlockTimes(session, logs.value, to);
      if times.None? { return None; }
      HashAnswer(rpc.endpoints[session], rpc.view.hash, rpc.clock, to);
      var hash := rpc.PinnedDo(session, BlockHash(to));
      if hash.None? { return None; }
      PinnedServes(rpc.view, pins, session, contracts, legacy, from, to);
      batch := Some((logs.value, times.value, hash.value.hash));
    }

    // ----- The stream -----

    method LoadLegacyCursors() returns (err: Option<Failure>, legacy: map<Address, nat>)
      requires Valid()
      modifies this`legacyCursors, store`faults
      ensures Valid()
      ensures err.None? ==> legacy == Served().legacy
      ensures Calm(old(store.faults)) ==> err.None? && Calm(store.faults)
    {
      hide Delivered, Run, LegacyCursors, HashesCommit, Calm;
      err := None;
      if legacyCursors.Some? { return None, legacyCursors.value; }
      var floor := if startBlock > 0 then startBlock - 1 else 0;
      legacy := map[];
      NoOlderCursors(store.base.cursors, startBlock);
      for i := 0 to |legacyAddrs|
        invariant Valid() && legacy == LegacyCursors(store.base.cursors, legacyAddrs[..i], startBlock)
        invariant err.None? && (Calm(old(store.faults)) ==> Calm(store.faults))
      {
        var at;
        err, at := store.LoadCheckpoint(legacyAddrs[i]);
        if err.Some? { return; }
        OneMoreCursor(store.base.cursors, legacyAddrs, i, startBlock);
        DeliveredSavesCore(chain, rpc.clock, Served(), store.history, store.committed.cursors);
        OlderCursorsStay(store.cfg, store.base, store.history, legacyAddrs[i]);
        legacy := legacy[legacyAddrs[i] := Max(at.block, floor)];
      }
      assert legacyAddrs[..|legacyAddrs|] == legacyAddrs;
      legacyCursors := Some(legacy);
    }

    /** Commits one batch and its cursor together, or neither. */
    method CommitBatch(logs: seq<Log>, times: map<nat, int>, to: nat, hash: string)
      returns (err: Option<Failure>, ghost steps: seq<Step>)
      requires Valid() && chain == rpc.view && NextBlock(Served(), store.committed.cursors) <= to
      requires logs == Segment(chain.logs, contracts, Served().legacy, NextBlock(Served(), store.committed.cursors), to)
      requires Known(times, rpc.clock) && Timed(logs, times) && hash == chain.hash(to)
      modifies store
      ensures Valid() && store.base == old(store.base)
      ensures store.history == old(store.history) + steps && Streaming(steps)
      ensures NextBlock(Served(), store.committed.cursors) in
        {NextBlock(Served(), old(store.committed.cursors)), to + 1}
      ensures err.None? ==> NextBlock(Served(), store.committed.cursors) == to + 1
      ensures Calm(old(store.faults)) && old(store.visits) == [] ==>
        && Calm(store.faults) && store.visits == []
        && (err.None? <==> Folded(store.cfg, old(store.committed), logs, rpc.clock).Some?)
        && (err.Some? ==> store.committed == old(store.committed))
    {
      hide Delivered, Run, LegacyCursors, HashesCommit, Genuine, WorkSteps, Segment, Streaming, Folded, Calm;
      BatchFolds(store.cfg, store.committed, logs, times, rpc.clock, Checkpoint(to, hash));
      ghost var before, h := store.committed, store.history;
      var at := Checkpoint(to, hash);
      ghost var visited, landed, tries;
      err, visited, landed, tries := store.RunBatch(StreamBatch(logs, times, at));
      assert [] + WorkSteps(StreamBatch(logs, times, at)) == WorkSteps(StreamBatch(logs, times, at));
      if landed {
        steps := visited + WorkSteps(StreamBatch(logs, times, at));
        assert h + steps == h + visited + WorkSteps(StreamBatch(logs, times, at));
        BatchMovesCursor(store.cfg, before, visited, logs, times, at);
        BatchDelivers(chain, rpc.clock, Served(), h, visited, before.cursors, logs, times, to);
      } else {
        steps := visited;
        assert visited + [] == visited && h + visited + [] == h + visited;
        VisitsKeepLetters(store.cfg, before, visited);
        OthersDeliver(chain, rpc.clock, Served(), h, visited, before.cursors);
        VisitsAreStreaming(visited);
        NothingRun(store.cfg, before);
      }
    }

    /** `BlockHash` through the failover client. */
    method CurrentHash(block: nat) returns (hash: Option<string>)
      requires rpc.Valid()
      modifies rpc`endpoints, rpc`active, rpc`asked
      ensures rpc.Valid() && (hash.Some? ==> hash.value == rpc.view.hash(block))
      ensures Up(old(rpc.endpoints), block) ==> hash.Some? && rpc.endpoints == old(rpc.endpoints)
    {
      hide Answer, Cyclic, UsedFrom, Up, Genuine, Replicas;
      ghost var es := rpc.endpoints;
      var r := rpc.FailoverDo(BlockHash(block));
      if Up(es, block) {
        UpStays(es, rpc.endpoints, old(rpc.active), block, rpc.view.hash, rpc.clock, BlockHash(block));
      }
      if r.None? { return None; }
      ghost var k := FirstAnswer(es, rpc.view.hash, rpc.clock, BlockHash(block), old(rpc.active), 0);
      HashAnswer(es[Cyclic(old(rpc.active), k, |es|)], rpc.view.hash, rpc.clock, block);
      hash := Some(r.value.hash);
    }

    /** The reorganisation check on the recorded block; when it passes, the chain now served is the chain delivered. */
    method CheckRecordedBlock(cp: Checkpoint) returns (err: Option<PollError>)
      requires Valid() && cp == CursorAt(store.committed.cursors, CORE_CURSOR)
      modifies this`chain, rpc`endpoints, rpc`active, rpc`asked
      ensures Valid() && chain in {old(chain), rpc.view}
      ensures err.None? ==> chain == rpc.view
      ensures CORE_CURSOR in store.committed.cursors && rpc.view.hash(cp.block) != cp.hash ==> err.Some?
      ensures err.Some? && err.value.Reorganised? ==> err.value.block == cp.block && rpc.view.hash(cp.block) != cp.hash
      ensures Up(old(rpc.endpoints), cp.block) && (cp.hash != "" ==> rpc.view.hash(cp.block) == cp.hash) ==>
        err.None? && rpc.endpoints == old(rpc.endpoints)
    {
      hide LegacyCursors, Run;
      RecordedHash(chain, rpc.clock, Served(), store.history, store.committed.cursors);
      hide Delivered, HashesCommit, Genuine;
      if cp.block > 0 && cp.hash != "" {
        var hash := CurrentHash(cp.block);
        if hash.None? { return Some(RpcFailed); }
        if hash.value != cp.hash { return Some(Reorganised(cp.block)); }
      }
      SameHashSameDue(chain, rpc.view, rpc.clock, Served(), store.history, store.committed.cursors);
      CommitsToItself(rpc.view);
      chain := rpc.view;
      err := None;
    }

    /** One turn of the batch loop: fetch, then commit. */
    method OneBatch(from: nat, to: nat, legacy: map<Address, nat>, ghost top: nat)
      returns (err: Option<PollError>, ghost steps: seq<Step>)
      requires Valid() && chain == rpc.view && legacy == Served().legacy
      requires from == NextBlock(Served(), store.committed.cursors) <= to <= top
      modifies this`blockTimes, store, rpc`endpoints, rpc`active, rpc`asked
      ensures Valid() && store.base == old(store.base)
      ensures store.history == old(store.history) + steps && Streaming(steps)
      ensures NextBlock(Served(), store.committed.cursors) in {from, to + 1}
      ensures err.None? ==> NextBlock(Served(), store.committed.cursors) == to + 1
      ensures err.Some? ==> !err.value.Reorganised?
      ensures old(Undisturbed()) ==> Undisturbed()
      ensures old(Quiet(top)) ==> Quiet(top) && (err.Some? ==> StuckBelow(top))
    {
      hide Delivered, Run, LegacyCursors, HashesCommit, Genuine, Segment, Streaming;
      hide Known, Timed, Folded, Calm, Blocked;
      steps := [];
      NothingStreams();
      assert store.history + [] == store.history;
      if Quiet(top) { UpLower(rpc.endpoints, top, to); }
      hide Valid, Sound, CacheIsRight, Up;
      var batch := FetchBatch(from, to, legacy);
      if batch.None? { return Some(RpcFailed), []; }
      var f;
      f, steps := CommitBatch(batch.value.0, batch.value.1, to, batch.value.2);
      err := if f.Some? then Some(StoreFailed(f.value)) else None;
      if old(Quiet(top)) && err.Some? {
        BatchIsBlocked(store.cfg, store.committed, rpc.view.logs, Served(), from, to, top, rpc.clock);
      }
    }

    /** A log not far ahead is doomed on the database as it stands. */
    ghost predicate StuckBelow(top: nat)
      reads this, store, rpc
    {
      Blocked(store.cfg, store.committed, rpc.view.logs, Served(),
              NextBlock(Served(), store.committed.cursors), top, rpc.clock)
    }

    /**
     Fetches and commits batches from the next block on until the safe head is reached. While nothing is amiss outside,
     only a fatal log stops it.
     */
    method StreamUpTo(next: nat, safeHead: nat, legacy: map<Address, nat>)
      returns (err: Option<PollError>, ghost steps: seq<Step>)
      requires Valid() && chain == rpc.view && legacy == Served().legacy
      requires next == NextBlock(Served(), store.committed.cursors)
      modifies this`blockTimes, store, rpc`endpoints, rpc`active, rpc`asked
      ensures Valid() && store.base == old(store.base)
      ensures store.history == old(store.history) + steps && Streaming(steps)
      ensures next <= NextBlock(Served(), store.committed.cursors) <= Max(next, safeHead + 1)
      ensures err.None? ==> NextBlock(Served(), store.committed.cursors) > safeHead
      ensures err.Some? ==> !err.value.Reorganised?
      ensures old(Undisturbed()) ==> Undisturbed()
      ensures old(Quiet(safeHead)) ==> Quiet(safeHead) && (err.Some? ==> StuckBelow(safeHead))
    {
      hide Delivered, Run, LegacyCursors, HashesCommit, Genuine, Segment, Streaming, NextBlock, Known, Timed, Folded;
      steps := [];
      NothingStreams();
      var from := next;
      assert batchSize > 0;
      hide Valid, Sound, CacheIsRight, Quiet, Undisturbed, StuckBelow;
      while from <= safeHead
        invariant Valid() && store.base == old(store.base)
        invariant next <= from == NextBlock(Served(), store.committed.cursors) <= Max(next, safeHead + 1)
        invariant store.history == old(store.history) + steps && Streaming(steps)
        invariant old(Undisturbed()) ==> Undisturbed()
        invariant old(Quiet(safeHead)) ==> Quiet(safeHead)
        decreases safeHead + 1 - from
      {
        var to := from + batchSize - 1;
        if to > safeHead { to := safeHead; }
        ghost var more;
        err, more := OneBatch(from, to, legacy, safeHead);
        StreamingJoins(steps, more);
        HistoryJoins(old(store.history), steps, more);
        steps := steps + more;
        if err.Some? { return; }
        from := to + 1;
      }
      err := None;
    }

    /** What the guard compares: the recorded hash is gone from the chain now served. */
    ghost predicate Rewritten(cursors: map<string, Checkpoint>)
      reads rpc
    {
      CORE_CURSOR in cursors && rpc.view.hash(cursors[CORE_CURSOR].block) != cursors[CORE_CURSOR].hash
    }

    ghost predicate NothingAmiss(top: nat)
      reads store, rpc
    {
      && Quiet(Max(top, CursorAt(store.committed.cursors, CORE_CURSOR).block))
      && !Rewritten(store.committed.cursors)
    }

    /** Loads the cursors, checks the recorded block, and finds the block to go on from. */
    method Resume(ghost top: nat) returns (err: Option<PollError>, from: nat, legacy: map<Address, nat>)
      requires Valid()
      modifies this`legacyCursors, this`chain, store`faults, rpc`endpoints, rpc`active, rpc`asked
      ensures Valid() && chain in {old(chain), rpc.view}
      ensures err.None? ==>
        chain == rpc.view && legacy == Served().legacy && from == NextBlock(Served(), store.committed.cursors)
      ensures Rewritten(store.committed.cursors) ==> err.Some?
      ensures old(Undisturbed()) ==> Undisturbed()
      ensures old(NothingAmiss(top)) ==> err.None? && Quiet(top)
    {
      hide Delivered, Run, LegacyCursors, HashesCommit, Genuine;
      from, legacy := 0, map[];
      FirstBlock(chain, rpc.clock, Served(), store.history, store.committed.cursors);
      ghost var recorded := CursorAt(store.committed.cursors, CORE_CURSOR).block;
      if Up(rpc.endpoints, Max(top, recorded)) {
        UpLower(rpc.endpoints, Max(top, recorded), recorded);
        UpLower(rpc.endpoints, Max(top, recorded), top);
      }
      var f, cp := store.LoadCheckpoint(CORE_CURSOR);
      assert Valid();
      hide Valid, Sound, CacheIsRight, Up, Calm;
      if f.Some? { return Some(StoreFailed(f.value)), 0, map[]; }
      f, legacy := LoadLegacyCursors();
      if f.Some? { return Some(StoreFailed(f.value)), 0, map[]; }
      err := CheckRecordedBlock(cp);
      if err.Some? { return; }
      from := cp.block + 1;
      if cp.block == 0 {
        var lowest := LowestCursor(legacy);
        from := lowest + 1;
      }
    }

    /**
     Streams every batch up to the safe head and no further. It never commits against a chain whose recorded block
     changed its hash, it succeeds only when the cursor has passed the safe head, and while nothing is amiss outside
     only a doomed log stops it.
     */
    method ProcessCore(safeHead: nat) returns (err: Option<PollError>, ghost steps: seq<Step>)
      requires Valid()
      modifies this`legacyCursors, this`blockTimes, this`chain, store, rpc`endpoints, rpc`active, rpc`asked
      ensures Valid() && chain in {old(chain), rpc.view} && store.base == old(store.base)
      ensures store.history == old(store.history) + steps && Streaming(steps)
      ensures var next := NextBlock(Served(), old(store.committed.cursors));
        next <= NextBlock(Served(), store.committed.cursors) <= Max(next, safeHead + 1)
      ensures err.None? ==> NextBlock(Served(), store.committed.cursors) > safeHead
      ensures old(Rewritten(store.committed.cursors)) ==> err.Some? && steps == []
      ensures old(Undisturbed()) ==> Undisturbed()
      ensures old(NothingAmiss(safeHead)) ==> Quiet(safeHead) && (err.Some? ==> StuckBelow(safeHead))
    {
      hide Delivered, Run, LegacyCursors, HashesCommit, Genuine, Streaming, Valid, Sound, CacheIsRight, StuckBelow;
      hide NothingAmiss, Quiet, Undisturbed;
      steps := [];
      NothingStreams();
      var from, legacy;
      err, from, legacy := Resume(safeHead);
      if err.Some? { return; }
      err, steps := StreamUpTo(from, safeHead, legacy);
    }

    // ----- Dead letters -----

    /** One parked log's retry, in a batch of its own. */
    method CommitRetry(parked: Filing) returns (err: Option<Failure>, ghost steps: seq<Step>, ghost landed: bool)
      requires Valid() && Waiting(store.committed.letters, parked.id)
      requires store.committed.letters[parked.id] == parked.letter && parked.letter.lg.Key() == parked.id
      modifies store
      ensures Valid() && store.base == old(store.base) && store.committed.cursors == old(store.committed.cursors)
      ensures store.history == old(store.history) + steps && Retrying(steps)
      ensures FollowsPass(steps, if landed then [parked.letter.lg] else []) && (err.None? ==> landed)
      ensures forall k :: k in old(store.committed.letters) && k != parked.id ==>
        k in store.committed.letters && store.committed.letters[k] == old(store.committed.letters)[k]
      ensures Calm(old(store.faults)) && old(store.visits) == [] ==>
        && Calm(store.faults) && store.visits == []
        && steps == (if landed then [Retry(parked.id)] else []) && (err.Some? ==> !landed)
        && (err.Some? ==>
              FatalLetter(store.cfg, store.committed)
              && Doomed(store.cfg, store.committed.rows, parked.letter.lg, parked.letter.time))
    {
      hide Delivered, LegacyCursors, HashesCommit, Genuine, FollowsPass, Run, Waiting, Doomed;
      ghost var before, h := store.committed, store.history;
      ghost var visited, tries;
      err, visited, landed, tries := store.RunBatch(RetryWork(parked.id, parked.letter));
      steps := visited + (if landed then [Retry(parked.id)] else []);
      assert store.history == h + steps;
      OthersDeliver(chain, rpc.clock, Served(), h, steps, before.cursors);
      CursorsStay(store.cfg, before, steps);
      OneRetryFollows(visited, parked.letter.lg);
      assert visited + [] == visited && [] + [Retry(parked.id)] == [Retry(parked.id)];
      if Calm(old(store.faults)) && old(store.visits) == [] && err.Some? {
        RetryFailsExactlyWhen(store.cfg, before, parked.id);
        NothingRun(store.cfg, before);
        RunOneMore(store.cfg, before, [], Retry(parked.id));
        assert steps == [];
      }
      forall k | k in before.letters && k != parked.id
        ensures k in store.committed.letters && store.committed.letters[k] == before.letters[k]
      {
        if landed { RetryKeepsOthers(store.cfg, before, visited, parked.id, k); }
        else { VisitsKeepLetters(store.cfg, before, visited); assert steps == visited; }
      }
    }

    /** Retries the listed letters in order; `n` is how many retries it committed. */
    method RetryAll(found: seq<Filing>) returns (err: Option<PollError>, ghost steps: seq<Step>, ghost n: nat)
      requires Valid()
      requires OnFile(store.committed.letters, found, 0)
      modifies store
      ensures Valid() && store.base == old(store.base) && store.committed.cursors == old(store.committed.cursors)
      ensures store.history == old(store.history) + steps && Retrying(steps)
      ensures n <= |found| && FollowsPass(steps, LogsIn(found)[..n]) && (err.None? ==> n == |found|)
      ensures err.Some? ==> err.value.StoreFailed?
      ensures Calm(old(store.faults)) && old(store.visits) == [] ==>
        && Calm(store.faults) && store.visits == []
        && steps == Retries(LogsIn(found)[..n]) && (err.Some? <==> n < |found|)
        && (err.Some? ==>
              FatalLetter(store.cfg, store.committed)
              && Doomed(store.cfg, store.committed.rows, found[n].letter.lg, found[n].letter.time))
    {
      steps, n := [], 0;
      NothingRetried();
      assert LogsIn(found)[..0] == [] && Retries([]) == [];
      hide *;
      for i := 0 to |found|
        invariant Valid() && store.base == old(store.base) && store.committed.cursors == old(store.committed.cursors)
        invariant store.history == old(store.history) + steps && Retrying(steps)
        invariant n == i && FollowsPass(steps, LogsIn(found)[..i])
        invariant Calm(old(store.faults)) && old(store.visits) == [] ==>
          Calm(store.faults) && store.visits == [] && steps == Retries(LogsIn(found)[..i])
        invariant OnFile(store.committed.letters, found, i)
      {
        ghost var more, landed;
        var f;
        ghost var letters := store.committed.letters;
        NextOnFile(letters, found, i);
        f, more, landed := CommitRetry(found[i]);
        RestOnFile(letters, store.committed.letters, found, i);
        RetryingJoins(steps, more);
        HistoryJoins(old(store.history), steps, more);
        PassGrows(found, i, steps, more, landed);
        steps, n := steps + more, if landed then i + 1 else i;
        if f.Some? { return Some(StoreFailed(f.value)), steps, n; }
      }
      err := None;
    }

    /** The letters of the next pass, each under its own log's key. */
    method ListDeadLetters() returns (err: Option<Failure>, found: seq<Filing>)
      requires Valid()
      modifies store`faults
      ensures Valid()
      ensures err.None? ==>
        Listed(store.committed.letters, found, RETRY_LIMIT) && OnFile(store.committed.letters, found, 0)
      ensures Calm(old(store.faults)) ==> err.None? && Calm(store.faults)
    {
      hide Delivered, LegacyCursors, HashesCommit, Genuine, Run, Listed, Filed, StreamLogs, Calm;
      err, found := store.UnresolvedDeadLetters(RETRY_LIMIT);
      if err.Some? { return; }
      DeliveredInOrder(chain, rpc.clock, Served(), store.history, store.committed.cursors);
      FilesAreStreamed(store.cfg, store.base, store.history);
      ListedAreFiled(store.committed.letters, StreamLogs(store.history), found, RETRY_LIMIT);
    }

    /** What retrying the first `n` letters of the list leaves is a pass. */
    lemma RetriedIsAPass(found: seq<Filing>, steps: seq<Step>, n: nat)
      requires Valid() && Listed(store.committed.letters, found, RETRY_LIMIT)
      requires n <= |found| && FollowsPass(steps, LogsIn(found)[..n])
      ensures PartialPass(store.committed, steps, Some(RETRY_LIMIT))
      ensures n == |found| ==> ListedPass(store.committed, steps)
    {
      hide LegacyCursors, HashesCommit, Run, Listed, Filed, StreamLogs, LogsIn, FollowsPass, PartialPass, ListedPass;
      DeliveredInOrder(chain, rpc.clock, Served(), store.history, store.committed.cursors);
      FilesAreStreamed(store.cfg, store.base, store.history);
      ListedStepsPass(store.committed, StreamLogs(store.history), found, steps, n);
    }

    /** Without interruption, what retrying them leaves is a pass stopped by doom alone. */
    lemma RetriedStops(found: seq<Filing>, steps: seq<Step>, n: nat, after: Database)
      requires Valid() && Listed(store.committed.letters, found, RETRY_LIMIT)
      requires n <= |found| && steps == Retries(LogsIn(found)[..n])
      requires Run(store.cfg, store.committed, steps) == Some(after)
      requires n < |found| ==> Doomed(store.cfg, after.rows, found[n].letter.lg, found[n].letter.time)
      ensures StoppedPass(store.cfg, store.committed, steps, n < |found|)
    {
      hide LegacyCursors, HashesCommit, Run, Listed, Filed, StreamLogs, LogsIn, Retries, StoppedPass, Doomed;
      DeliveredInOrder(chain, rpc.clock, Served(), store.history, store.committed.cursors);
      FilesAreStreamed(store.cfg, store.base, store.history);
      ListedStepsStop(store.cfg, store.committed, StreamLogs(store.history), found, steps, n, after);
    }

    lemma NoRetryIsAPass()
      requires Valid()
      ensures PartialPass(store.committed, [], Some(RETRY_LIMIT))
    {
      hide LegacyCursors, HashesCommit, Run, Filed, StreamLogs, PartialPass;
      DeliveredInOrder(chain, rpc.clock, Served(), store.history, store.committed.cursors);
      FilesAreStreamed(store.cfg, store.base, store.history);
      NothingIsAPass(store.committed, StreamLogs(store.history));
    }

    /**
     Retries the waiting letters in chain order, at most `RETRY_LIMIT` of them. Whether it succeeds or not, what it
     committed is a pass cut short somewhere; when it succeeds, the pass took all it could list. While nothing is amiss
     outside, only a doomed letter stops it.
     */
    method RetryDeadLetters() returns (err: Option<PollError>, ghost steps: seq<Step>)
      requires Valid()
      modifies this`deadLetters, store
      ensures Valid() && store.base == old(store.base) && store.committed.cursors == old(store.committed.cursors)
      ensures store.history == old(store.history) + steps && Retrying(steps)
      ensures PartialPass(old(store.committed), steps, Some(RETRY_LIMIT))
      ensures err.None? ==> ListedPass(old(store.committed), steps)
      ensures err.None? ==> deadLetters == |WaitingKeys(store.committed.letters)|
      ensures err.Some? ==> err.value.StoreFailed?
      ensures old(Undisturbed()) ==>
        Undisturbed() && StoppedPass(store.cfg, old(store.committed), steps, err.Some?)
        && (err.Some? ==> FatalLetter(store.cfg, store.committed))
    {
      hide Delivered, LegacyCursors, HashesCommit, Genuine, Run, Doomed, StoppedPass, Retries;
      hide FollowsPass, WaitingKeys, Listed, LogsIn, Retrying, PartialPass, ListedPass, Calm, FatalLetter;
      ghost var before, h := store.committed, store.history;
      steps := [];
      NothingRetried();
      NoRetryIsAPass();
      assert h + [] == h;
      var f, found := ListDeadLetters();
      if f.Some? { return Some(StoreFailed(f.value)), []; }
      forall pass, k: nat | k <= |found| && FollowsPass(pass, LogsIn(found)[..k])
        ensures PartialPass(before, pass, Some(RETRY_LIMIT)) && (k == |found| ==> ListedPass(before, pass))
      {
        RetriedIsAPass(found, pass, k);
      }
      forall pass, k: nat, after: Database |
        k <= |found| && pass == Retries(LogsIn(found)[..k]) && Run(store.cfg, before, pass) == Some(after)
        && (k < |found| ==> Doomed(store.cfg, after.rows, found[k].letter.lg, found[k].letter.time))
        ensures StoppedPass(store.cfg, before, pass, k < |found|)
      {
        RetriedStops(found, pass, k, after);
      }
      ghost var n;
      err, steps, n := RetryAll(found);
      RunConcat(store.cfg, store.base, h, steps);
      if err.Some? { return; }
      var g, count := store.CountUnresolvedDeadLetters();
      if g.Some? { return Some(StoreFailed(g.value)), steps; }
      deadLetters := count;
    }

    /** The chain and its endpoints move on between polls. */
    method Follow(view: ChainView, endpoints: seq<Endpoint>)
      requires Valid() && Genuine(view) && HashesCommit(chain, view)
      requires |endpoints| == rpc.count && Replicas(endpoints, view.logs)
      modifies rpc`view, rpc`endpoints
      ensures Valid() && rpc.view == view
    {
      hide Genuine, HashesCommit, Delivered, Run, LegacyCursors, Replicas;
      rpc.Follow(view, endpoints);
    }

    // ----- Polling -----

    /**
     `advanceCore`: the stream first, then a retry pass exactly when the stream got past the safe head. The stream stays
     within the safe head.
     */
    method AdvanceCore(safeHead: nat)
      returns (err: Option<PollError>, ghost streamed: seq<Step>, ghost retried: Option<seq<Step>>)
      requires Valid()
      modifies this, store, rpc`endpoints, rpc`active, rpc`asked
      ensures Valid() && chain in {old(chain), rpc.view} && store.base == old(store.base)
      ensures Streaming(streamed)
      ensures store.history == old(store.history) + streamed + (if retried.Some? then retried.value else [])
      ensures var next := NextBlock(Served(), old(store.committed.cursors));
        next <= NextBlock(Served(), store.committed.cursors) <= Max(next, safeHead + 1)
      ensures retried.Some? ==> NextBlock(Served(), store.committed.cursors) > safeHead
      ensures err.None? ==> retried.Some?
      ensures err.None? ==> deadLetters == |WaitingKeys(store.committed.letters)|
      ensures retried.Some? ==>
        Retrying(retried.value)
        && PassAfter(store.cfg, store.base, old(store.history) + streamed, retried.value, err.None?)
      ensures old(Undisturbed()) ==>
        Undisturbed() && (retried.Some? && err.Some? ==> FatalLetter(store.cfg, store.committed))
        && (retried.Some? ==>
              StoppedAfter(store.cfg, store.base, old(store.history) + streamed, retried.value, err.Some?))
      ensures old(NothingAmiss(safeHead)) && err.Some? ==>
        StuckBelow(safeHead) || FatalLetter(store.cfg, store.committed)
    {
      hide NothingAmiss, StuckBelow, FatalLetter, Calm, Up;
      hide Run, PartialPass, ListedPass, StoppedPass, Delivered, WaitingKeys, Retrying;
      hide Streaming, LegacyCursors, HashesCommit, Genuine;
      retried := None;
      err, streamed := ProcessCore(safeHead);
      assert store.history + [] == store.history;
      if err.Some? { return; }
      ghost var steps;
      err, steps := RetryDeadLetters();
      retried := Some(steps);
    }

    /**
     One poll. It asks one round of endpoints for the height; while that is within the confirmation window, or no one
     answers, nothing is committed. Otherwise the stream goes up to the window and no further, and a retry pass follows.
     */
    method PollCore()
      returns (err: Option<PollError>, ghost head: Option<nat>,
               ghost streamed: seq<Step>, ghost retried: Option<seq<Step>>)
      requires Valid()
      modifies this, store, rpc`endpoints, rpc`active, rpc`asked
      ensures Valid() && chain in {old(chain), rpc.view} && store.base == old(store.base)
      ensures head == HeightAsked(old(rpc.endpoints), old(rpc.active), rpc.view.hash, rpc.clock)
      ensures Streaming(streamed)
      ensures store.history == old(store.history) + streamed + (if retried.Some? then retried.value else [])
      ensures head.None? ==> err == Some(RpcFailed)
      ensures head.Some? && head.value <= confirmations ==> err.None?
      ensures head.None? || head.value <= confirmations ==> streamed == [] && retried.None?
      ensures head.Some? && head.value > confirmations ==>
        && (err.None? ==> retried.Some?)
        && (retried.Some? ==> NextBlock(Served(), store.committed.cursors) > head.value - confirmations)
        && NextBlock(Served(), store.committed.cursors) <=
             Max(NextBlock(Served(), old(store.committed.cursors)), head.value - confirmations + 1)
      ensures retried.Some? ==>
        Retrying(retried.value)
        && PassAfter(store.cfg, store.base, old(store.history) + streamed, retried.value, err.None?)
      ensures old(Undisturbed()) ==>
        Undisturbed() && (retried.Some? && err.Some? ==> FatalLetter(store.cfg, store.committed))
        && (retried.Some? ==>
              StoppedAfter(store.cfg, store.base, old(store.history) + streamed, retried.value, err.Some?))
    {
      hide Run, PassAfter, StoppedAfter, Delivered, WaitingKeys, Retrying;
      hide LegacyCursors, HashesCommit, Genuine, Streaming;
      hide FirstAnswer, Cyclic, Answer, UsedFrom, CallOrder, Replicas, HeightAsked, NextBlock, Calm, FatalLetter;
      NothingStreams();
      head, streamed, retried := None, [], None;
      ghost var es, start := rpc.endpoints, rpc.active;
      var reply := rpc.FailoverDo(BlockNumber);
      assert store.history + [] + [] == store.history;
      HeightIsAsked(es, start, rpc.view.hash, rpc.clock, reply);
      if reply.None? { return Some(RpcFailed), None, [], None; }
      var height := reply.value.value;
      head := Some(height);
      if height <= confirmations { return None, head, [], None; }
      err, streamed, retried := AdvanceCore(height - confirmations);
    }
  }

  // ----- What a sound database means -----

  /**
   Exactly once, for the running system: with no retry and no outside write so far, the committed database is one
   left-to-right fold over the uncovered logs up to the cursor.
   */
  lemma StreamedExactlyOnce(store: Store, rpc: FailoverClient, chain: ChainView, site: Site)
    requires Sound(store, rpc, chain, site) && StreamOnly(store.history) && CORE_CURSOR in store.committed.cursors
    ensures Folded(store.cfg, store.base, Due(chain, site, store.committed.cursors[CORE_CURSOR].block), rpc.clock)
            == Some(store.committed.(cursors := store.base.cursors))
  {
    hide Delivered, Run, Genuine, HashesCommit, Folded, Due;
    ExactlyOnce(store.cfg, store.base, chain, rpc.clock, site, store.history);
  }

  /** Conservation, for the running system: every uncovered log up to the cursor is in exactly one class. */
  lemma DueLogsAreAccounted(store: Store, rpc: FailoverClient, chain: ChainView, site: Site, lg: Log)
    requires Sound(store, rpc, chain, site) && CORE_CURSOR in store.committed.cursors
    requires lg in Due(chain, site, store.committed.cursors[CORE_CURSOR].block)
    ensures Accounted(store.committed.letters, Landings(store.cfg, store.base, store.history), lg)
  {
    hide Run, Genuine, HashesCommit, Due, Accounted;
    DeliveredInOrder(chain, rpc.clock, site, store.history, store.committed.cursors);
    EveryLogIsAccounted(store.cfg, store.base, store.history);
  }

  /**
   Per-subscription order, for the running system, whatever became of its retry passes: what landed of a subscription,
   then what waits of it, is what is due of it in chain order, exactly when none of its logs was streamed while it
   existed with a letter waiting.
   */
  lemma SubscriptionsTakeTurns(
      store: Store, rpc: FailoverClient, chain: ChainView, site: Site, phases: seq<seq<Step>>, sub: int)
    requires Sound(store, rpc, chain, site) && CORE_CURSOR in store.committed.cursors
    requires store.history == Flatten(phases) && Patient(store.cfg, store.base, phases, Some(RETRY_LIMIT))
    requires Referential(store.base.rows)
    requires EnrolmentFirst(store.base.rows, Due(chain, site, store.committed.cursors[CORE_CURSOR].block))
    ensures var due := Due(chain, site, store.committed.cursors[CORE_CURSOR].block);
      InTurn(store.committed.letters, LogsOf(Landings(store.cfg, store.base, store.history)), due, sub)
      <==> TookTurns(store.cfg, store.base, store.history, sub)
  {
    hide Run, HashesCommit, Due, Landings, LogsOf, Patient, TookTurns, Referential, EnrolmentFirst, InTurn;
    DeliveredInOrder(chain, rpc.clock, site, store.history, store.committed.cursors);
    TurnsDecideOrder(store.cfg, store.base, phases, Some(RETRY_LIMIT), sub);
  }

  /** When every pass came to the end of its list, nothing of an existing subscription is parked or out of order. */
  lemma SubscriptionsAreInOrder(
      store: Store, rpc: FailoverClient, chain: ChainView, site: Site, phases: seq<seq<Step>>, sub: int)
    requires Sound(store, rpc, chain, site) && CORE_CURSOR in store.committed.cursors
    requires store.history == Flatten(phases) && Disciplined(store.cfg, store.base, phases)
    requires Referential(store.base.rows)
    requires EnrolmentFirst(store.base.rows, Due(chain, site, store.committed.cursors[CORE_CURSOR].block))
    ensures AllOrNothing(
      store.committed, LogsOf(Landings(store.cfg, store.base, store.history)),
      Due(chain, site, store.committed.cursors[CORE_CURSOR].block), sub)
  {
    hide Run, HashesCommit, Due, Landings, LogsOf, AllOrNothing, Disciplined, Referential, EnrolmentFirst;
    DeliveredInOrder(chain, rpc.clock, site, store.history, store.committed.cursors);
    OrderSurvivesParking(store.cfg, store.base, phases, sub);
  }

  /** The running system never passes the second log of a pair, from any point of its history on. */
  lemma RivalsAreNeverPassed(
      store: Store, rpc: FailoverClient, chain: ChainView, site: Site,
      h: seq<Step>, more: seq<Step>, first: Log, second: Log)
    requires Sound(store, rpc, chain, site) && Referential(store.base.rows) && EnrolledOnce(chain.logs)
    requires store.history == h + more && Run(store.cfg, store.base, h).Some?
    requires Together(store.cfg, Run(store.cfg, store.base, h).value.rows, first, second)
    requires first.event.SubscriptionCreated? ==>
      first.event.sub !in store.base.rows.subscriptions && second.event.sub !in store.base.rows.subscriptions
    requires first !in StreamLogs(h) && second !in StreamLogs(h) && Less(first, second)
    requires first in Due(chain, site, first.block) && second in Due(chain, site, second.block)
    ensures NextBlock(site, store.committed.cursors) <= second.block
  {
    hide Run, Delivered, Genuine, HashesCommit, Due, Together, Referential, EnrolledOnce, StreamLogs, NextBlock;
    SecondIsNeverPassed(store.cfg, store.base, chain, rpc.clock, site, h, more, first, second);
  }

  lemma DueOnlyOne(
      chain: ChainView, clock: nat -> int, site: Site, h: seq<Step>, cursors: map<string, Checkpoint>, lg: Log)
    requires Delivered(chain, clock, site, h, cursors) && Genuine(chain) && EnrolledOnce(chain.logs)
    requires lg in StreamLogs(h)
    ensures OnlyOne(StreamLogs(h), lg)
  {
    DeliveredUpTo(chain, clock, site, h, cursors);
    hide Due, Lowest, StreamLogs, EnrolledOnce, Genuine;
    if CORE_CURSOR in cursors { OnlyOneDue(chain, site, cursors[CORE_CURSOR].block, lg); }
  }

  lemma LetterWasStreamed(cfg: Config, base: Database, phases: seq<seq<Step>>, i: nat, k: LogKey)
    requires base.letters == map[] && i <= |phases| && DistinctKeys(StreamLogs(Flatten(phases)))
    requires Run(cfg, base, Flatten(phases[..i])).Some? && k in Run(cfg, base, Flatten(phases[..i])).value.letters
    ensures Run(cfg, base, Flatten(phases[..i])).value.letters[k].lg in StreamLogs(Flatten(phases))
  {
    var g := Flatten(phases[..i]);
    var rest := FlattenPrefix(phases, i);
    StreamLogsConcat(g, rest);
    hide Run, StreamLogs, Flatten;
    var logs, all := StreamLogs(g), StreamLogs(Flatten(phases));
    assert forall j :: 0 <= j < |logs| ==> all[j] == logs[j];
    FilesAreStreamed(cfg, base, g);
  }

  /** A letter doomed for good stops every later pass of the running system: what waits behind it never clears. */
  lemma LettersBehindDoomNeverClear(
      store: Store, rpc: FailoverClient, chain: ChainView, site: Site,
      phases: seq<seq<Step>>, i: nat, k: LogKey, q: LogKey)
    requires Sound(store, rpc, chain, site) && Referential(store.base.rows) && EnrolledOnce(chain.logs)
    requires store.history == Flatten(phases) && Patient(store.cfg, store.base, phases, Some(RETRY_LIMIT))
    requires i <= |phases| && Run(store.cfg, store.base, Flatten(phases[..i])).Some?
    requires DoomedLetter(store.cfg, Run(store.cfg, store.base, Flatten(phases[..i])).value, k)
    requires var letters := Run(store.cfg, store.base, Flatten(phases[..i])).value.letters;
      Waiting(letters, q) && Behind(letters, k, q)
    ensures var letters := Run(store.cfg, store.base, Flatten(phases[..i])).value.letters;
      && k in store.committed.letters && store.committed.letters[k] == letters[k]
      && q in store.committed.letters && store.committed.letters[q] == letters[q]
  {
    WaitingMeans(Run(store.cfg, store.base, Flatten(phases[..i])).value.letters);
    hide Run, HashesCommit, Delivered, Patient, Referential, Flatten, StreamLogs, Waiting, Behind, DoomedForGood;
    hide Genuine, EnrolledOnce, OnlyOne, DistinctKeys;
    DeliveredInOrder(chain, rpc.clock, site, store.history, store.committed.cursors);
    LetterWasStreamed(store.cfg, store.base, phases, i, k);
    DueOnlyOne(chain, rpc.clock, site, store.history, store.committed.cursors,
               Run(store.cfg, store.base, Flatten(phases[..i])).value.letters[k].lg);
    LettersBehindDoomStay(store.cfg, store.base, phases, Some(RETRY_LIMIT), i, k, q);
  }

  // ----- The service over time -----

  /** What happens next: a poll, the chain and its endpoints moving on, or a restart with other settings. */
  datatype Turn =
    | Poll
    | Follow(view: ChainView, endpoints: seq<Endpoint>)
    | Restart(batchSize: nat, confirmations: nat)

  /** Every chain ever served is genuine, replicated by every endpoint, and committed to by its hashes. */
  ghost predicate Plausible(views: set<ChainView>, turns: seq<Turn>, count: nat) {
    && (forall v :: v in views ==> Genuine(v))
    && (forall v, w :: v in views && w in views ==> HashesCommit(v, w))
    && (forall i :: 0 <= i < |turns| ==>
          match turns[i]
          case Poll => true
          case Follow(view, endpoints) => view in views && |endpoints| == count && Replicas(endpoints, view.logs)
          case Restart(batchSize, _) => batchSize > 0)
  }

  lemma ServedIsCommitted(views: set<ChainView>, turns: seq<Turn>, count: nat, chain: ChainView, i: nat)
    requires Plausible(views, turns, count) && chain in views && i < |turns|
    ensures turns[i].Follow? ==>
      turns[i].view in views && Genuine(turns[i].view) && HashesCommit(chain, turns[i].view)
      && |turns[i].endpoints| == count && Replicas(turns[i].endpoints, turns[i].view.logs)
    ensures turns[i].Restart? ==> turns[i].batchSize > 0
  {
  }

  /** What one poll came to: its error, what it streamed, and its retry pass if it got that far. */
  datatype Outcome = Outcome(err: Option<PollError>, streamed: seq<Step>, retried: Option<seq<Step>>)

  /** The phases the polls committed, in order. */
  function PhasesOf(polls: seq<Outcome>): seq<seq<Step>> {
    if polls == [] then [] else PhasesOf(polls[..|polls| - 1]) + PollPhases(polls[|polls| - 1])
  }

  function PollPhases(poll: Outcome): seq<seq<Step>> {
    [poll.streamed] + (if poll.retried.Some? then [poll.retried.value] else [])
  }

  /** The poll never reached its pass, or ended without error after a pass that began with letters it could all list. */
  ghost predicate Whole(cfg: Config, base: Database, before: seq<Outcome>, poll: Outcome) {
    poll.retried.Some? ==> poll.err.None? && FewWaiting(cfg, base, Flatten(PhasesOf(before)) + poll.streamed)
  }

  /** What each poll committed: streamed steps, then a pass cut short at most by an error or its limit. */
  ghost predicate PolledOn(cfg: Config, base: Database, before: seq<Outcome>, poll: Outcome, undisturbed: bool) {
    && Streaming(poll.streamed)
    && (poll.err.None? && poll.retried.None? ==> poll.streamed == [])
    && (poll.retried.Some? ==>
          PassAfter(cfg, base, Flatten(PhasesOf(before)) + poll.streamed, poll.retried.value, poll.err.None?))
    && (undisturbed && poll.retried.Some? ==>
          StoppedAfter(cfg, base, Flatten(PhasesOf(before)) + poll.streamed, poll.retried.value, poll.err.Some?))
  }

  ghost predicate Polled(cfg: Config, base: Database, polls: seq<Outcome>, undisturbed: bool) {
    forall i :: 0 <= i < |polls| ==> PolledOn(cfg, base, polls[..i], polls[i], undisturbed)
  }

  ghost predicate AllWhole(cfg: Config, base: Database, polls: seq<Outcome>) {
    forall i :: 0 <= i < |polls| ==> Whole(cfg, base, polls[..i], polls[i])
  }

  function Polls(turns: seq<Turn>): nat {
    if turns == [] then 0 else Polls(turns[..|turns| - 1]) + (if turns[|turns| - 1].Poll? then 1 else 0)
  }

  lemma FlattenConcat(a: seq<seq<Step>>, b: seq<seq<Step>>)
    ensures Flatten(a + b) == Flatten(a) + Flatten(b)
  {
    if b == [] {
      assert a + b == a;
    } else {
      assert (a + b)[..|a + b| - 1] == a + b[..|b| - 1];
      FlattenConcat(a, b[..|b| - 1]);
    }
  }

  lemma FlattenPoll(poll: Outcome)
    ensures Flatten(PollPhases(poll)) == poll.streamed + (if poll.retried.Some? then poll.retried.value else [])
  {
    assert [poll.streamed][..0] == [];
    assert Flatten([poll.streamed]) == poll.streamed;
    if poll.retried.Some? { assert PollPhases(poll)[..1] == [poll.streamed]; }
  }

  lemma OneMorePoll(polls: seq<Outcome>, poll: Outcome)
    ensures PhasesOf(polls + [poll]) == PhasesOf(polls) + PollPhases(poll)
    ensures Flatten(PhasesOf(polls + [poll])) ==
      Flatten(PhasesOf(polls)) + poll.streamed + (if poll.retried.Some? then poll.retried.value else [])
  {
    assert (polls + [poll])[..|polls|] == polls;
    FlattenConcat(PhasesOf(polls), PollPhases(poll));
    FlattenPoll(poll);
  }

  lemma PolledOneMore(cfg: Config, base: Database, polls: seq<Outcome>, poll: Outcome, undisturbed: bool)
    requires Polled(cfg, base, polls, undisturbed) && PolledOn(cfg, base, polls, poll, undisturbed)
    ensures Polled(cfg, base, polls + [poll], undisturbed)
  {
    hide PolledOn;
    var all := polls + [poll];
    forall i | 0 <= i < |all| ensures PolledOn(cfg, base, all[..i], all[i], undisturbed) {
      if i < |polls| { assert all[..i] == polls[..i]; } else { assert all[..i] == polls; }
    }
  }

  lemma PolledPrefix(cfg: Config, base: Database, polls: seq<Outcome>, undisturbed: bool)
    requires Polled(cfg, base, polls, undisturbed) && polls != []
    ensures Polled(cfg, base, polls[..|polls| - 1], undisturbed)
    ensures PolledOn(cfg, base, polls[..|polls| - 1], polls[|polls| - 1], undisturbed)
    ensures AllWhole(cfg, base, polls) ==>
      AllWhole(cfg, base, polls[..|polls| - 1]) && Whole(cfg, base, polls[..|polls| - 1], polls[|polls| - 1])
  {
    hide PolledOn, Whole;
    var front := polls[..|polls| - 1];
    assert forall i :: 0 <= i < |front| ==> front[..i] == polls[..i];
  }

  lemma AppendedPhase(phases: seq<seq<Step>>, phase: seq<Step>)
    ensures (phases + [phase])[..|phases + [phase]| - 1] == phases && (phases + [phase])[|phases|] == phase
    ensures Flatten(phases + [phase]) == Flatten(phases) + phase
  {
  }

  lemma PollIsPatient(cfg: Config, base: Database, phases: seq<seq<Step>>, poll: Outcome)
    requires Patient(cfg, base, phases, Some(RETRY_LIMIT)) && Streaming(poll.streamed)
    requires poll.retried.Some? ==>
      PassAfter(cfg, base, Flatten(phases) + poll.streamed, poll.retried.value, poll.err.None?)
    ensures Patient(cfg, base, phases + PollPhases(poll), Some(RETRY_LIMIT))
  {
    hide Run, Patient, PartialPass, ListedPass, Streaming, Flatten;
    OneMorePhase(cfg, base, phases, Some(RETRY_LIMIT), poll.streamed);
    if poll.retried.Some? {
      OneMorePhase(cfg, base, phases + [poll.streamed], Some(RETRY_LIMIT), poll.retried.value);
      assert phases + [poll.streamed] + [poll.retried.value] == phases + PollPhases(poll);
    } else {
      assert phases + [poll.streamed] == phases + PollPhases(poll);
    }
  }

  /** Whatever happened, the polls commit streaming phases and passes that each take the earliest letters in order. */
  lemma {:induction false} PollsArePatient(cfg: Config, base: Database, polls: seq<Outcome>, undisturbed: bool)
    requires Polled(cfg, base, polls, undisturbed)
    ensures Patient(cfg, base, PhasesOf(polls), Some(RETRY_LIMIT))
  {
    hide Run, Streaming, PassAfter, StoppedAfter, Flatten, Polled;
    if polls != [] {
      var front, poll := polls[..|polls| - 1], polls[|polls| - 1];
      PolledPrefix(cfg, base, polls, undisturbed);
      PollsArePatient(cfg, base, front, undisturbed);
      hide Patient;
      PollIsPatient(cfg, base, PhasesOf(front), poll);
    }
  }

  lemma WholePassIsComplete(cfg: Config, base: Database, before: seq<Step>, steps: seq<Step>)
    requires PassAfter(cfg, base, before, steps, true) && FewWaiting(cfg, base, before) && OwnKeys(base.letters)
    ensures Run(cfg, base, before).Some? && CompletePass(Run(cfg, base, before).value, steps)
  {
    hide Run, PartialPass, ListedPass, CompletePass, OwnKeys, WaitingKeys;
    RunKeepsOwnKeys(cfg, base, before);
    FewAreAll(Run(cfg, base, before).value, steps);
  }

  /** While every poll is whole, the passes all come to the end of their lists. */
  lemma {:induction false} WholePollsAreDisciplined(cfg: Config, base: Database, polls: seq<Outcome>, undisturbed: bool)
    requires Polled(cfg, base, polls, undisturbed) && AllWhole(cfg, base, polls) && OwnKeys(base.letters)
    ensures Disciplined(cfg, base, PhasesOf(polls))
  {
    if polls != [] {
      var front, poll := polls[..|polls| - 1], polls[|polls| - 1];
      PolledPrefix(cfg, base, polls, undisturbed);
      hide Run, CompletePass, PassAfter, FewWaiting, Streaming, Flatten, Polled, AllWhole, OwnKeys;
      WholePollsAreDisciplined(cfg, base, front, undisturbed);
      var phases := PhasesOf(front);
      AppendedPhase(phases, poll.streamed);
      if poll.retried.Some? {
        WholePassIsComplete(cfg, base, Flatten(phases) + poll.streamed, poll.retried.value);
        AppendedPhase(phases + [poll.streamed], poll.retried.value);
        assert PhasesOf(polls) == phases + [poll.streamed] + [poll.retried.value];
      } else {
        assert PhasesOf(polls) == phases + [poll.streamed];
      }
    }
  }

  /** A restart keeps the database, the chain and the settings of the site, and dials the same endpoints again. */
  method Restarted(runner: Runner, batchSize: nat, confirmations: nat) returns (next: Runner)
    requires runner.Valid() && batchSize > 0
    ensures fresh(next) && fresh(next.rpc) && next.Valid() && next.store == runner.store
    ensures next.contracts == runner.contracts && next.legacyAddrs == runner.legacyAddrs
    ensures next.startBlock == runner.startBlock && next.chain == runner.chain
    ensures next.rpc.view == runner.rpc.view && next.rpc.count == runner.rpc.count
    ensures next.Undisturbed() == runner.Undisturbed()
  {
    hide Genuine, HashesCommit, Delivered, Run, LegacyCursors, Replicas, Calm;
    var dialled := new FailoverClient(runner.rpc.view, runner.rpc.clock, runner.rpc.endpoints);
    next := new Runner(runner.store, dialled, runner.contracts, runner.legacyAddrs, runner.startBlock,
                       batchSize, confirmations, runner.chain);
  }

  /**
   The stream over a whole service life: any number of polls, each of which may fail anywhere, with chains and endpoints
   changing, restarts, and other batch sizes. The database is sound throughout, its history is what the polls committed,
   each a streaming phase and a pass over the earliest letters, and while every poll is whole all passes are complete.
   */
  method Serve(
      store: Store, client: FailoverClient, contracts: set<Address>, legacyAddrs: seq<Address>, startBlock: nat,
      batchSize: nat, confirmations: nat, turns: seq<Turn>, ghost views: set<ChainView>)
    returns (runner: Runner, ghost polls: seq<Outcome>)
    requires batchSize > 0 && CORE_CURSOR !in legacyAddrs && client.view in views
      && Plausible(views, turns, client.count)
    requires Sound(store, client, client.view,
                   Site(contracts, LegacyCursors(store.base.cursors, legacyAddrs, startBlock)))
    requires store.history == []
    modifies store, client
    ensures runner.Valid() && runner.store == store && store.base == old(store.base)
    ensures runner.contracts == contracts && runner.legacyAddrs == legacyAddrs && runner.startBlock == startBlock
    ensures |polls| == Polls(turns)
      && Polled(store.cfg, store.base, polls, Calm(old(store.faults)) && old(store.visits) == [])
    ensures store.history == Flatten(PhasesOf(polls))
    ensures Patient(store.cfg, store.base, PhasesOf(polls), Some(RETRY_LIMIT))
    ensures AllWhole(store.cfg, store.base, polls) ==> Disciplined(store.cfg, store.base, PhasesOf(polls))
  {
    hide Disciplined, Patient, Genuine, HashesCommit, Delivered, Run;
    hide LegacyCursors, Plausible, Replicas, Flatten, PhasesOf;
    hide Polled, PassAfter, StoppedAfter, FewWaiting, AllWhole, Streaming, HeightAsked, FatalLetter, Calm;
    ghost var still := Calm(store.faults) && store.visits == [];
    runner := new Runner(store, client, contracts, legacyAddrs, startBlock, batchSize, confirmations, client.view);
    polls := [];
    assert still ==> runner.Undisturbed();
    NoPolls(store.cfg, store.base, still);
    hide *;
    for i := 0 to |turns|
      invariant runner.Valid() && fresh(runner) && runner.store == store && store.base == old(store.base)
      invariant runner.rpc == client || fresh(runner.rpc)
      invariant runner.contracts == contracts && runner.legacyAddrs == legacyAddrs && runner.startBlock == startBlock
      invariant runner.chain in views && runner.rpc.view in views && runner.rpc.count == old(client.count)
      invariant store.history == Flatten(PhasesOf(polls))
      invariant |polls| == Polls(turns[..i]) && Polled(store.cfg, store.base, polls, still)
      invariant still ==> runner.Undisturbed()
    {
      ServedIsCommitted(views, turns, old(client.count), runner.chain, i);
      PollsOneMore(turns, i);
      match turns[i] {
        case Poll =>
          ghost var head, streamed, retried;
          var err;
          err, head, streamed, retried := runner.PollCore();
          ghost var poll := Outcome(err, streamed, retried);
          OneMorePoll(polls, poll);
          PolledOneMore(store.cfg, store.base, polls, poll, still);
          polls := polls + [poll];
        case Follow(view, endpoints) =>
          runner.Follow(view, endpoints);
        case Restart(size, window) =>
          runner := Restarted(runner, size, window);
      }
    }
    assert turns[..|turns|] == turns;
    PollsArePatient(store.cfg, store.base, polls, still);
    if AllWhole(store.cfg, store.base, polls) { WholePollsAreDisciplined(store.cfg, store.base, polls, still); }
  }

  lemma PollsOneMore(turns: seq<Turn>, i: nat)
    requires i < |turns|
    ensures Polls(turns[..i + 1]) == Polls(turns[..i]) + (if turns[i].Poll? then 1 else 0)
  {
    assert turns[..i + 1][..i] == turns[..i];
  }

  lemma NoPolls(cfg: Config, base: Database, undisturbed: bool)
    ensures Flatten(PhasesOf([])) == [] && Polled(cfg, base, [], undisturbed)
  {
  }
}
