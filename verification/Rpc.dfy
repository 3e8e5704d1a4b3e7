/** The failover client over an ordered list of RPC endpoints. */
module Rpc {
  import opened Prelude
  import opened Chain

  /** A chain as its endpoints replicate it: every log in chain order, and the hash of each block. */
  datatype ChainView = ChainView(logs: seq<Log>, hash: nat -> string)

  /** Logs in chain order under keys of their own, and a hash for every block. */
  ghost predicate Genuine(chain: ChainView) {
    ChainOrdered(chain.logs) && DistinctKeys(chain.logs) && forall n :: chain.hash(n) != ""
  }

  datatype Call =
    | BlockNumber
    | BlockHash(block: nat)
    | BlockTime(block: nat)
    | FilterLogs(addresses: set<Address>, from: nat, to: nat)
    | ChainId

  datatype Reply = Number(value: nat) | HashIs(hash: string) | TimeIs(time: int) | Logs(logs: seq<Log>)

  /**
   One endpoint: the logs in the order it serves them, the height it has reached, the heights it will have reached at
   the next sessions, the chain it is on, and whether it answers its next calls (it answers once the list is used up).
   */
  datatype Endpoint = Endpoint(logs: seq<Log>, height: nat, later: seq<nat>, chainId: nat, answers: seq<bool>)

  predicate Down(e: Endpoint) { e.answers != [] && !e.answers[0] }

  function Used(e: Endpoint): Endpoint {
    if e.answers == [] then e else e.(answers := e.answers[1..])
  }

  /** The next session sees the endpoint at its next height. */
  function NextSession(e: Endpoint): Endpoint {
    if e.later == [] then e else e.(height := e.later[0], later := e.later[1..])
  }

  /** The endpoint serves the same logs up to the same height. */
  predicate SameChain(a: Endpoint, b: Endpoint) { a.logs == b.logs && a.height == b.height }

  /** `eth_getLogs`: logs of the addresses and subscribed topics in the block range. */
  predicate Selected(lg: Log, addresses: set<Address>, from: nat, to: nat) {
    lg.address in addresses && !lg.event.Unsubscribed? && from <= lg.block <= to
  }

  function Select(logs: seq<Log>, addresses: set<Address>, from: nat, to: nat): (r: seq<Log>)
    ensures |r| <= |logs|
  {
    if logs == [] then []
    else (if Selected(logs[0], addresses, from, to) then [logs[0]] else []) + Select(logs[1..], addresses, from, to)
  }

  /** An endpoint knows the chain up to its height: no hash or time beyond it, and only the logs it holds. */
  function Answer(e: Endpoint, hash: nat -> string, clock: nat -> int, call: Call): Option<Reply> {
    if Down(e) then None
    else
      match call
      case BlockNumber => Some(Number(e.height))
      case BlockHash(n) => if n <= e.height then Some(HashIs(hash(n))) else None
      case BlockTime(n) => if n <= e.height then Some(TimeIs(clock(n))) else None
      case FilterLogs(addresses, from, to) => Some(Logs(Select(e.logs, addresses, from, Min(to, e.height))))
      case ChainId => Some(Number(e.chainId))
  }

  lemma LogsAnswer(e: Endpoint, hash: nat -> string, clock: nat -> int, addresses: set<Address>, from: nat, to: nat)
    ensures var r := Answer(e, hash, clock, FilterLogs(addresses, from, to));
      r.Some? ==> r.value == Logs(Select(e.logs, addresses, from, Min(to, e.height)))
  {
  }

  /** An endpoint vouches only for blocks it holds. */
  lemma HashAnswer(e: Endpoint, hash: nat -> string, clock: nat -> int, block: nat)
    ensures var r := Answer(e, hash, clock, BlockHash(block));
      r.Some? ==> r.value == HashIs(hash(block)) && block <= e.height
  {
  }

  lemma HeightAnswer(e: Endpoint, hash: nat -> string, clock: nat -> int)
    ensures var r := Answer(e, hash, clock, BlockNumber); r.Some? ==> r.value == Number(e.height)
  {
  }

  // ----- Cyclic search -----

  function Cyclic(start: nat, i: nat, n: nat): (r: nat)
    requires n > 0
    ensures r < n
  {
    (start + i) % n
  }

  lemma Multiples(a: int, n: int)
    requires n >= 0
    ensures a >= 1 ==> a * n >= n
    ensures a <= -1 ==> a * n <= -n
  {
    if a >= 1 { assert a * n == n + (a - 1) * n; }
    if a <= -1 { assert a * n == -n + (a + 1) * n; }
  }

  lemma RemainderIs(x: nat, n: nat, q: int, r: nat)
    requires n > 0 && r < n && x == q * n + r
    ensures x % n == r
  {
    assert x == (x / n) * n + x % n;
    assert (x / n - q) * n == r - x % n;
    Multiples(x / n - q, n);
  }

  lemma CyclicValue(start: nat, i: nat, n: nat)
    requires start < n && i <= n
    ensures Cyclic(start, i, n) == if start + i < n then start + i else start + i - n
  {
    if start + i >= n { RemainderIs(start + i, n, 1, start + i - n); }
  }

  /** Offsets below `n` reach different endpoints. */
  lemma CyclicDistinct(start: nat, i: nat, j: nat, n: nat)
    requires start < n && i < j < n
    ensures Cyclic(start, i, n) != Cyclic(start, j, n)
  {
    CyclicValue(start, i, n);
    CyclicValue(start, j, n);
  }

  /** Every endpoint is reached by some offset below `n`. */
  lemma CyclicCovers(start: nat, k: nat, n: nat) returns (i: nat)
    requires start < n && k < n
    ensures i < n && Cyclic(start, i, n) == k
  {
    i := if k >= start then k - start else k + n - start;
    CyclicValue(start, i, n);
  }

  /** The first offset from `start` on whose endpoint answers, or the number of endpoints. */
  function FirstAnswer(
      es: seq<Endpoint>, hash: nat -> string, clock: nat -> int, call: Call, start: nat, i: nat): (r: nat)
    requires |es| > 0 && i <= |es|
    ensures i <= r <= |es|
    ensures forall k: nat :: i <= k < r ==> Answer(es[Cyclic(start, k, |es|)], hash, clock, call).None?
    ensures r < |es| ==> Answer(es[Cyclic(start, r, |es|)], hash, clock, call).Some?
    decreases |es| - i
  {
    if i == |es| || Answer(es[Cyclic(start, i, |es|)], hash, clock, call).Some? then i
    else FirstAnswer(es, hash, clock, call, start, i + 1)
  }

  /** The endpoints after the `count` calls from `start` on have each used one answer. */
  ghost predicate UsedFrom(es: seq<Endpoint>, after: seq<Endpoint>, start: nat, count: nat) {
    && |after| == |es| > 0 && count <= |es|
    && (forall i: nat :: i < count ==> after[Cyclic(start, i, |es|)] == Used(es[Cyclic(start, i, |es|)]))
    && (forall i: nat :: count <= i < |es| ==> after[Cyclic(start, i, |es|)] == es[Cyclic(start, i, |es|)])
  }

  function CallOrder(start: nat, count: nat, n: nat): seq<nat>
    requires n > 0
  {
    if count == 0 then [] else CallOrder(start, count - 1, n) + [Cyclic(start, count - 1, n)]
  }

  /** Leaving an endpoint that failed a pinned call. */
  function MovedOff(active: nat, failed: nat, n: nat): nat
    requires n > 0
  {
    if active != failed || n < 2 then active else (failed + 1) % n
  }

  /** The endpoint pinned after `k` sessions that each failed. */
  function PinnedAfter(start: nat, k: nat, n: nat): nat
    requires n > 0
  {
    if k == 0 then start else MovedOff(PinnedAfter(start, k - 1, n), PinnedAfter(start, k - 1, n), n)
  }

  lemma NextRemainder(x: nat, n: nat)
    requires n > 0
    ensures (x % n + 1) % n == (x + 1) % n
  {
    assert x == (x / n) * n + x % n;
    if x % n + 1 < n {
      RemainderIs(x + 1, n, x / n, x % n + 1);
    } else {
      assert (x / n + 1) * n == (x / n) * n + n;
      RemainderIs(x + 1, n, x / n + 1, 0);
      RemainderIs(x % n + 1, n, 1, 0);
    }
  }

  lemma NextInCycle(start: nat, k: nat, n: nat)
    requires start < n
    ensures MovedOff(Cyclic(start, k, n), Cyclic(start, k, n), n) == Cyclic(start, k + 1, n)
  {
    NextRemainder(start + k, n);
    if n == 1 { assert (start + k + 1) % n == 0; }
  }

  /** Consecutive pinned failures walk the endpoints in cyclic order. */
  lemma {:induction false} PinnedFailuresWalk(start: nat, k: nat, n: nat)
    requires start < n
    ensures PinnedAfter(start, k, n) == Cyclic(start, k, n)
  {
    if k == 0 {
      CyclicValue(start, 0, n);
    } else {
      hide Cyclic, MovedOff;
      PinnedFailuresWalk(start, k - 1, n);
      NextInCycle(start, k - 1, n);
    }
  }

  /** In `n` consecutive pinned failures no endpoint is left twice, and the walk ends where it began. */
  lemma PinnedFailuresLeaveOnce(start: nat, i: nat, j: nat, n: nat)
    requires start < n && i < j < n
    ensures PinnedAfter(start, i, n) != PinnedAfter(start, j, n)
    ensures PinnedAfter(start, n, n) == start
  {
    PinnedFailuresWalk(start, i, n);
    PinnedFailuresWalk(start, j, n);
    CyclicDistinct(start, i, j, n);
    PinnedFailuresWalk(start, n, n);
    CyclicValue(start, n, n);
  }

  /** In `n` consecutive pinned failures every endpoint has its turn. */
  lemma PinnedFailuresReachAll(start: nat, k: nat, n: nat) returns (i: nat)
    requires start < n && k < n
    ensures i < n && PinnedAfter(start, i, n) == k
  {
    i := CyclicCovers(start, k, n);
    PinnedFailuresWalk(start, i, n);
  }

  // ----- The client -----

  datatype ChainIdError = WrongChain(endpoint: nat) | NoEndpointAnswered

  /** Endpoints replicate the same logs, each in an order of its own. */
  ghost predicate Replicas(es: seq<Endpoint>, logs: seq<Log>) {
    forall i :: 0 <= i < |es| ==> multiset(es[i].logs) == multiset(logs)
  }

  /** Every endpoint answers, stays as it is, and has reached the block. */
  ghost predicate Up(es: seq<Endpoint>, block: nat) {
    forall i :: 0 <= i < |es| ==> es[i].answers == [] && es[i].later == [] && es[i].height >= block
  }

  /** A call about blocks every endpoint has. */
  predicate Within(call: Call, block: nat) {
    match call case BlockHash(n) => n <= block case BlockTime(n) => n <= block case _ => true
  }

  lemma UpAnswers(es: seq<Endpoint>, block: nat, i: nat, hash: nat -> string, clock: nat -> int, call: Call)
    requires Up(es, block) && i < |es| && Within(call, block)
    ensures Answer(es[i], hash, clock, call).Some? && Used(es[i]) == es[i] && NextSession(es[i]) == es[i]
  {
  }

  /** While every endpoint is up the active one answers, and nothing changes. */
  lemma UpStays(es: seq<Endpoint>, after: seq<Endpoint>, start: nat, block: nat,
                hash: nat -> string, clock: nat -> int, call: Call)
    requires start < |es| && Up(es, block) && Within(call, block)
    requires UsedFrom(es, after, start, Min(FirstAnswer(es, hash, clock, call, start, 0) + 1, |es|))
    ensures FirstAnswer(es, hash, clock, call, start, 0) == 0 && after == es
  {
    UpAnswers(es, block, Cyclic(start, 0, |es|), hash, clock, call);
    forall i: nat | i < |es| ensures after[i] == es[i] {
      var k := CyclicCovers(start, i, |es|);
      UpAnswers(es, block, i, hash, clock, call);
    }
  }

  class FailoverClient {
    var view: ChainView
    const clock: nat -> int
    var endpoints: seq<Endpoint>
    var active: nat
    var closed: seq<Endpoint>
    ghost var asked: seq<nat>
    /** The number of endpoints in use, fixed once the chain id has been verified. */
    ghost var count: nat

    ghost predicate Valid()
      reads this
    {
      && active < |endpoints| == count
      && Genuine(view) && Replicas(endpoints, view.logs)
    }

    constructor (view: ChainView, clock: nat -> int, endpoints: seq<Endpoint>)
      requires |endpoints| > 0 && Genuine(view) && Replicas(endpoints, view.logs)
      ensures Valid()
      ensures this.view == view && this.clock == clock && this.endpoints == endpoints && active == 0 && asked == []
    {
      this.view, this.clock, this.endpoints, active, closed, asked := view, clock, endpoints, 0, [], [];
      count := |endpoints|;
    }

    method Ask(idx: nat, call: Call) returns (r: Option<Reply>)
      requires idx < |endpoints|
      modifies this`endpoints, this`asked
      ensures r == Answer(old(endpoints[idx]), view.hash, clock, call)
      ensures endpoints == old(endpoints)[idx := Used(old(endpoints[idx]))]
      ensures asked == old(asked) + [idx]
    {
      r := Answer(endpoints[idx], view.hash, clock, call);
      endpoints := endpoints[idx := Used(endpoints[idx])];
      asked := asked + [idx];
    }

    /** Asks the endpoints from `start` on, each at most once, until one answers. */
    method TryEach(call: Call, start: nat) returns (r: Option<Reply>, tried: nat)
      requires start < |endpoints|
      modifies this`endpoints, this`asked
      ensures var es, n := old(endpoints), |old(endpoints)|;
        && tried == FirstAnswer(es, view.hash, clock, call, start, 0)
        && r == (if tried < n then Answer(es[Cyclic(start, tried, n)], view.hash, clock, call) else None)
        && UsedFrom(es, endpoints, start, Min(tried + 1, n))
        && asked == old(asked) + CallOrder(start, Min(tried + 1, n), n)
    {
      var n := |endpoints|;
      ghost var es := endpoints;
      SameIndices(es, start);
      hide Answer, UsedFrom, Cyclic, FirstAnswer, CallOrder, Used;
      CallsSoFar(old(asked), start, 0, n);
      tried := 0;
      while tried < n
        invariant 0 <= tried <= n == |endpoints|
        invariant UsedFrom(es, endpoints, start, tried)
        invariant asked == old(asked) + CallOrder(start, tried, n)
        invariant FirstAnswer(es, view.hash, clock, call, start, 0) ==
          FirstAnswer(es, view.hash, clock, call, start, tried)
      {
        var idx := Cyclic(start, tried, n);
        NextUnused(es, endpoints, start, tried);
        ghost var before := endpoints;
        r := Ask(idx, call);
        UsedOneMore(es, before, endpoints, start, tried);
        SearchStep(es, view.hash, clock, call, start, tried);
        CallsSoFar(old(asked), start, tried, n);
        if r.Some? { return; }
        tried := tried + 1;
      }
      SearchStep(es, view.hash, clock, call, start, n);
      r := None;
    }

    /**
     Tries the endpoints from the active one on, each at most once, until one answers; the winner becomes active.
     When all fail, so does the call, and the active endpoint stays.
     */
    method FailoverDo(call: Call) returns (r: Option<Reply>)
      requires Valid()
      modifies this`endpoints, this`active, this`asked
      ensures Valid()
      ensures var es, start, n := old(endpoints), old(active), |old(endpoints)|;
        var k := FirstAnswer(es, view.hash, clock, call, start, 0);
        if k < n then
          && r == Answer(es[Cyclic(start, k, n)], view.hash, clock, call)
          && active == Cyclic(start, k, n)
          && UsedFrom(es, endpoints, start, k + 1)
          && asked == old(asked) + CallOrder(start, k + 1, n)
        else
          && r == None && active == start && UsedFrom(es, endpoints, start, n)
          && asked == old(asked) + CallOrder(start, n, n)
    {
      hide Genuine, Answer, UsedFrom, Cyclic, CallOrder, Replicas;
      var start, n := active, |endpoints|;
      ghost var es := endpoints;
      var tried;
      r, tried := TryEach(call, start);
      UsedKeepsLogs(es, endpoints, start, Min(tried + 1, n), view.logs);
      if r.Some? { active := Cyclic(start, tried, n); }
    }

    /** A session on the active endpoint, which serves a fixed prefix of the chain for as long as the session lasts. */
    method Pin() returns (session: nat)
      requires Valid()
      modifies this`endpoints
      ensures Valid() && session == active
      ensures endpoints == old(endpoints)[active := NextSession(old(endpoints[active]))]
    {
      session := active;
      endpoints := endpoints[active := NextSession(endpoints[active])];
    }

    method MoveOff(idx: nat)
      requires Valid()
      modifies this`active
      ensures Valid() && active == MovedOff(old(active), idx, |endpoints|)
    {
      if active != idx || |endpoints| < 2 { return; }
      active := (idx + 1) % |endpoints|;
    }

    /** A call of a pinned session reaches its own endpoint only; a failure moves later sessions off it. */
    method PinnedDo(session: nat, call: Call) returns (r: Option<Reply>)
      requires Valid() && session < |endpoints|
      modifies this`endpoints, this`active, this`asked
      ensures Valid()
      ensures r == Answer(old(endpoints[session]), view.hash, clock, call)
      ensures endpoints == old(endpoints)[session := Used(old(endpoints[session]))]
      ensures asked == old(asked) + [session]
      ensures active == if r.None? then MovedOff(old(active), session, |endpoints|) else old(active)
    {
      r := Ask(session, call);
      if r.None? { MoveOff(session); }
    }

    /** Outside the client's control: the chain moves on, and the same endpoints serve it. */
    method Follow(view: ChainView, endpoints: seq<Endpoint>)
      requires Valid() && |endpoints| == count
      requires Genuine(view) && Replicas(endpoints, view.logs)
      modifies this`view, this`endpoints
      ensures Valid() && this.view == view && this.endpoints == endpoints
    {
      this.view, this.endpoints := view, endpoints;
    }

    /**
     Keeps exactly the endpoints that answer, in order, and starts over at the first. It fails, with the client as it
     was but for the answers used, when one answers for another chain or none answers.
     */
    method VerifyChainID(want: nat) returns (err: Option<ChainIdError>)
      requires Valid()
      modifies this
      ensures Valid() && view == old(view)
      ensures err.None? <==> Kept(old(endpoints)) != [] && AllOnChain(old(endpoints), want)
      ensures err == Some(NoEndpointAnswered) <==> Kept(old(endpoints)) == []
      ensures err.None? ==>
        endpoints == Kept(old(endpoints)) && active == 0 && closed == old(closed) + Dropped(old(endpoints))
      ensures err.Some? ==> closed == old(closed) && active == old(active) && |endpoints| == |old(endpoints)|
    {
      hide Genuine, Answer, Kept, Dropped, AllOnChain;
      var kept: seq<Endpoint>, dropped: seq<Endpoint>, i := [], [], 0;
      ghost var es := endpoints;
      AnsweringLogs(es, view.logs);
      NothingKeptYet(es, want);
      while i < |endpoints|
        invariant 0 <= i <= |endpoints| == |es| && Valid()
        invariant active == old(active) && view == old(view) && closed == old(closed)
        invariant forall j :: i <= j < |es| ==> endpoints[j] == es[j]
        invariant forall j :: 0 <= j < |es| ==> endpoints[j].logs == es[j].logs
        invariant kept == Kept(es[..i]) && dropped == Dropped(es[..i]) && AllOnChain(es[..i], want)
      {
        var got := Ask(i, ChainId);
        OneMoreEndpoint(es, i, want);
        ChainIdAnswer(es[i], view.hash, clock);
        if got.None? {
          dropped := dropped + [endpoints[i]];
        } else if got.value.value != want {
          StrayEndpoint(es, i, want);
          err := Some(WrongChain(i));
          return;
        } else {
          kept := kept + [endpoints[i]];
        }
        i := i + 1;
      }
      assert es[..i] == es;
      if kept == [] {
        err := Some(NoEndpointAnswered);
        return;
      }
      closed := closed + dropped;
      endpoints, active, count, err := kept, 0, |kept|, None;
    }
  }

  /** The endpoints that answer their next call, in order and with that answer used. */
  function Kept(es: seq<Endpoint>): seq<Endpoint> {
    if es == [] then []
    else Kept(es[..|es| - 1]) + (if Down(es[|es| - 1]) then [] else [Used(es[|es| - 1])])
  }

  function Dropped(es: seq<Endpoint>): seq<Endpoint> {
    if es == [] then []
    else Dropped(es[..|es| - 1]) + (if Down(es[|es| - 1]) then [Used(es[|es| - 1])] else [])
  }

  /** Every endpoint that answers is on the wanted chain. */
  predicate AllOnChain(es: seq<Endpoint>, want: nat) {
    forall i :: 0 <= i < |es| && !Down(es[i]) ==> es[i].chainId == want
  }

  lemma NothingKeptYet(es: seq<Endpoint>, want: nat)
    ensures Kept(es[..0]) == [] && Dropped(es[..0]) == [] && AllOnChain(es[..0], want)
  {
  }

  lemma OneMoreEndpoint(es: seq<Endpoint>, i: nat, want: nat)
    requires i < |es|
    ensures Kept(es[..i + 1]) == Kept(es[..i]) + (if Down(es[i]) then [] else [Used(es[i])])
    ensures Dropped(es[..i + 1]) == Dropped(es[..i]) + (if Down(es[i]) then [Used(es[i])] else [])
    ensures AllOnChain(es[..i], want) && (Down(es[i]) || es[i].chainId == want) ==> AllOnChain(es[..i + 1], want)
  {
    assert es[..i + 1][..i] == es[..i];
  }

  lemma ChainIdAnswer(e: Endpoint, hash: nat -> string, clock: nat -> int)
    ensures Answer(e, hash, clock, ChainId) == if Down(e) then None else Some(Number(e.chainId))
  {
  }

  lemma StrayEndpoint(es: seq<Endpoint>, i: nat, want: nat)
    requires i < |es| && !Down(es[i]) && es[i].chainId != want
    ensures Kept(es) != [] && !AllOnChain(es, want)
  {
    KeptIsNonEmpty(es, i);
  }

  lemma {:induction false} KeptIsNonEmpty(es: seq<Endpoint>, i: nat)
    requires i < |es| && !Down(es[i])
    ensures Kept(es) != []
  {
    if i < |es| - 1 { KeptIsNonEmpty(es[..|es| - 1], i); }
  }

  lemma {:induction false} AnsweringLogs(es: seq<Endpoint>, logs: seq<Log>)
    requires Replicas(es, logs)
    ensures Replicas(Kept(es), logs)
  {
    if es != [] { AnsweringLogs(es[..|es| - 1], logs); }
  }

  lemma SameIndices(es: seq<Endpoint>, start: nat)
    requires |es| > 0
    ensures UsedFrom(es, es, start, 0)
  {
  }

  lemma CallsSoFar(asked: seq<nat>, start: nat, i: nat, n: nat)
    requires n > 0
    ensures asked + CallOrder(start, 0, n) == asked
    ensures asked + CallOrder(start, i, n) + [Cyclic(start, i, n)] == asked + CallOrder(start, i + 1, n)
  {
    assert CallOrder(start, i + 1, n) == CallOrder(start, i, n) + [Cyclic(start, i, n)];
  }

  lemma SearchStep(es: seq<Endpoint>, hash: nat -> string, clock: nat -> int, call: Call, start: nat, i: nat)
    requires |es| > 0 && i <= |es|
    ensures FirstAnswer(es, hash, clock, call, start, i) ==
            if i < |es| && Answer(es[Cyclic(start, i, |es|)], hash, clock, call).None?
            then FirstAnswer(es, hash, clock, call, start, i + 1) else i
  {
  }

  lemma NextUnused(es: seq<Endpoint>, after: seq<Endpoint>, start: nat, i: nat)
    requires UsedFrom(es, after, start, i) && i < |es|
    ensures after[Cyclic(start, i, |es|)] == es[Cyclic(start, i, |es|)]
  {
  }

  lemma UsedOneMore(es: seq<Endpoint>, before: seq<Endpoint>, after: seq<Endpoint>, start: nat, i: nat)
    requires UsedFrom(es, before, start, i) && start < |es| && i < |es|
    requires var idx := Cyclic(start, i, |es|); after == before[idx := Used(before[idx])]
    ensures UsedFrom(es, after, start, i + 1)
  {
    var n := |es|;
    forall k: nat | k < n && k != i ensures Cyclic(start, k, n) != Cyclic(start, i, n) {
      if k < i { CyclicDistinct(start, k, i, n); } else { CyclicDistinct(start, i, k, n); }
    }
  }

  lemma UsedKeepsLogs(es: seq<Endpoint>, after: seq<Endpoint>, start: nat, count: nat, logs: seq<Log>)
    requires UsedFrom(es, after, start, count) && start < |es|
    requires Replicas(es, logs)
    ensures |after| == |es| && Replicas(after, logs)
  {
    forall i: nat | i < |after| ensures multiset(after[i].logs) == multiset(logs) {
      var k := CyclicCovers(start, i, |es|);
    }
  }
}
