/**
 The stretch of the chain a stream of batches has to hand over: the monitored logs of a block range that no older
 per-contract cursor already covered.
 */
module Segments {
  import opened Prelude
  import opened Chain
  import opened Rpc
  import opened Replay

  /** The older cursor of the log's own contract is at or past its block. */
  predicate Covered(lg: Log, legacy: map<Address, nat>) {
    lg.address in legacy && lg.block <= legacy[lg.address]
  }

  function Uncovered(logs: seq<Log>, legacy: map<Address, nat>): (r: seq<Log>)
    ensures |r| <= |logs|
  {
    if logs == [] then []
    else Uncovered(logs[..|logs| - 1], legacy) + (if Covered(logs[|logs| - 1], legacy) then [] else [logs[|logs| - 1]])
  }

  /** The uncovered logs of `[from, to]`, in chain order when the chain's logs are. */
  function Segment(logs: seq<Log>, contracts: set<Address>, legacy: map<Address, nat>, from: nat, to: nat): seq<Log> {
    Uncovered(Select(logs, contracts, from, to), legacy)
  }

  lemma {:induction false} UncoveredConcat(a: seq<Log>, b: seq<Log>, legacy: map<Address, nat>)
    ensures Uncovered(a + b, legacy) == Uncovered(a, legacy) + Uncovered(b, legacy)
  {
    if b == [] {
      assert a + b == a;
    } else {
      assert (a + b)[..|a + b| - 1] == a + b[..|b| - 1];
      UncoveredConcat(a, b[..|b| - 1], legacy);
    }
  }

  lemma {:induction false} UncoveredMembers(logs: seq<Log>, legacy: map<Address, nat>)
    ensures forall lg :: lg in Uncovered(logs, legacy) <==> lg in logs && !Covered(lg, legacy)
  {
    if logs != [] {
      UncoveredMembers(logs[..|logs| - 1], legacy);
      assert logs == logs[..|logs| - 1] + [logs[|logs| - 1]];
    }
  }

  lemma {:induction false} SelectMembers(logs: seq<Log>, contracts: set<Address>, from: nat, to: nat)
    ensures forall lg :: lg in Select(logs, contracts, from, to) <==> lg in logs && Selected(lg, contracts, from, to)
  {
    if logs != [] {
      SelectMembers(logs[1..], contracts, from, to);
      assert logs == [logs[0]] + logs[1..];
    }
  }

  lemma SegmentMembers(logs: seq<Log>, contracts: set<Address>, legacy: map<Address, nat>, from: nat, to: nat)
    ensures forall lg :: lg in Segment(logs, contracts, legacy, from, to) <==>
      lg in logs && Selected(lg, contracts, from, to) && !Covered(lg, legacy)
  {
    SelectMembers(logs, contracts, from, to);
    UncoveredMembers(Select(logs, contracts, from, to), legacy);
  }

  lemma SegmentMember(logs: seq<Log>, contracts: set<Address>, legacy: map<Address, nat>, from: nat, to: nat, lg: Log)
    ensures lg in Segment(logs, contracts, legacy, from, to) <==>
      lg in logs && Selected(lg, contracts, from, to) && !Covered(lg, legacy)
  {
    SegmentMembers(logs, contracts, legacy, from, to);
  }

  // ----- Segments keep chain order -----

  lemma ChainOrderedTail(s: seq<Log>)
    requires ChainOrdered(s) && s != []
    ensures ChainOrdered(s[1..]) && forall lg :: lg in s[1..] ==> Less(s[0], lg)
  {
  }

  lemma ChainOrderedCons(lg: Log, s: seq<Log>)
    requires ChainOrdered(s) && forall x :: x in s ==> Less(lg, x)
    ensures ChainOrdered([lg] + s)
  {
  }

  lemma {:induction false} SelectKeepsOrder(logs: seq<Log>, contracts: set<Address>, from: nat, to: nat)
    requires ChainOrdered(logs)
    ensures ChainOrdered(Select(logs, contracts, from, to))
  {
    if logs != [] {
      ChainOrderedTail(logs);
      SelectKeepsOrder(logs[1..], contracts, from, to);
      SelectMembers(logs[1..], contracts, from, to);
      if Selected(logs[0], contracts, from, to) { ChainOrderedCons(logs[0], Select(logs[1..], contracts, from, to)); }
    }
  }

  lemma {:induction false} UncoveredKeepsOrder(logs: seq<Log>, legacy: map<Address, nat>)
    requires ChainOrdered(logs)
    ensures ChainOrdered(Uncovered(logs, legacy))
  {
    if logs != [] {
      var front, last := logs[..|logs| - 1], logs[|logs| - 1];
      UncoveredKeepsOrder(front, legacy);
      UncoveredMembers(front, legacy);
      forall lg | lg in Uncovered(front, legacy) ensures Less(lg, last) {
        var i :| 0 <= i < |front| && front[i] == lg;
        assert logs[i] == lg;
      }
    }
  }

  lemma SegmentKeepsOrder(logs: seq<Log>, contracts: set<Address>, legacy: map<Address, nat>, from: nat, to: nat)
    requires ChainOrdered(logs)
    ensures ChainOrdered(Segment(logs, contracts, legacy, from, to))
  {
    SelectKeepsOrder(logs, contracts, from, to);
    UncoveredKeepsOrder(Select(logs, contracts, from, to), legacy);
  }

  lemma SegmentKeepsKeysApart(logs: seq<Log>, contracts: set<Address>, legacy: map<Address, nat>, from: nat, to: nat)
    requires ChainOrdered(logs) && DistinctKeys(logs)
    ensures DistinctKeys(Segment(logs, contracts, legacy, from, to))
  {
    var s := Segment(logs, contracts, legacy, from, to);
    SegmentKeepsOrder(logs, contracts, legacy, from, to);
    SegmentMembers(logs, contracts, legacy, from, to);
    forall i, j | 0 <= i < j < |s| ensures s[i].Key() != s[j].Key() {
      assert s[i] in s && s[j] in s;
      var a := Position(logs, s[i]);
      var b := Position(logs, s[j]);
      assert Less(s[i], s[j]) && a != b;
      if a < b { assert logs[a].Key() != logs[b].Key(); } else { assert logs[b].Key() != logs[a].Key(); }
    }
  }

  lemma Position(logs: seq<Log>, lg: Log) returns (i: nat)
    requires lg in logs
    ensures i < |logs| && logs[i] == lg
  {
    i :| 0 <= i < |logs| && logs[i] == lg;
  }

  // ----- Consecutive ranges make up the whole -----

  lemma {:induction false} NothingBeyond(logs: seq<Log>, contracts: set<Address>, from: nat, to: nat)
    requires forall lg :: lg in logs ==> lg.block > to
    ensures Select(logs, contracts, from, to) == []
  {
    if logs != [] { NothingBeyond(logs[1..], contracts, from, to); }
  }

  function OneIf(lg: Log, keep: bool): seq<Log> { if keep then [lg] else [] }

  lemma SelectCons(logs: seq<Log>, contracts: set<Address>, from: nat, to: nat)
    requires logs != []
    ensures Select(logs, contracts, from, to) ==
            OneIf(logs[0], Selected(logs[0], contracts, from, to)) + Select(logs[1..], contracts, from, to)
  {
  }

  lemma Regroup(lg: Log, whole: bool, early: bool, late: bool, a: seq<Log>, b: seq<Log>)
    requires if early then whole && !late else whole == late && (late ==> a == [])
    ensures OneIf(lg, whole) + (a + b) == (OneIf(lg, early) + a) + (OneIf(lg, late) + b)
  {
  }

  lemma {:induction false} SelectSplits(logs: seq<Log>, contracts: set<Address>, from: nat, mid: nat, to: nat)
    requires ChainOrdered(logs) && from <= mid + 1 && mid <= to
    ensures Select(logs, contracts, from, to) ==
      Select(logs, contracts, from, mid) + Select(logs, contracts, mid + 1, to)
  {
    if logs != [] {
      var first, rest := logs[0], logs[1..];
      ChainOrderedTail(logs);
      SelectSplits(rest, contracts, from, mid, to);
      SelectCons(logs, contracts, from, to);
      SelectCons(logs, contracts, from, mid);
      SelectCons(logs, contracts, mid + 1, to);
      if first.block > mid { NothingBeyond(rest, contracts, from, mid); }
      hide Select, ChainOrdered, OneIf;
      Regroup(first, Selected(first, contracts, from, to), Selected(first, contracts, from, mid),
              Selected(first, contracts, mid + 1, to),
              Select(rest, contracts, from, mid), Select(rest, contracts, mid + 1, to));
    }
  }

  /** Batches of any size hand over the same logs in the same order. */
  lemma SegmentSplits(logs: seq<Log>, contracts: set<Address>, legacy: map<Address, nat>, from: nat, mid: nat, to: nat)
    requires ChainOrdered(logs) && from <= mid + 1 && mid <= to
    ensures Segment(logs, contracts, legacy, from, to) ==
            Segment(logs, contracts, legacy, from, mid) + Segment(logs, contracts, legacy, mid + 1, to)
  {
    SelectSplits(logs, contracts, from, mid, to);
    UncoveredConcat(Select(logs, contracts, from, mid), Select(logs, contracts, mid + 1, to), legacy);
  }

  // ----- What an endpoint serves -----

  lemma {:induction false} SelectCounts(logs: seq<Log>, contracts: set<Address>, from: nat, to: nat, lg: Log)
    ensures multiset(Select(logs, contracts, from, to))[lg] ==
            if Selected(lg, contracts, from, to) then multiset(logs)[lg] else 0
  {
    if logs != [] {
      assert logs == [logs[0]] + logs[1..];
      SelectCounts(logs[1..], contracts, from, to, lg);
    }
  }

  /** Sorting what any replica of the chain serves gives the chain's own order. */
  lemma ReplicaServesSegment(chain: seq<Log>, replica: seq<Log>, contracts: set<Address>, from: nat, to: nat)
    requires ChainOrdered(chain) && multiset(replica) == multiset(chain)
    ensures Sorted(Select(replica, contracts, from, to)) == Select(chain, contracts, from, to)
  {
    var served, canonical := Select(replica, contracts, from, to), Select(chain, contracts, from, to);
    forall lg ensures multiset(served)[lg] == multiset(canonical)[lg] {
      SelectCounts(replica, contracts, from, to, lg);
      SelectCounts(chain, contracts, from, to, lg);
    }
    SelectKeepsOrder(chain, contracts, from, to);
    SortRestoresChainOrder(canonical, served);
  }

  // ----- A chain that kept a block kept everything below it -----

  /** A block hash commits to the block's history: two chains that agree on it agree on every log up to it. */
  ghost predicate HashesCommit(a: ChainView, b: ChainView) {
    forall n: nat, contracts, from: nat :: a.hash(n) == b.hash(n) ==>
      Select(a.logs, contracts, from, n) == Select(b.logs, contracts, from, n)
  }
}
