/** In-place work on the fetched logs, and the lowest of the older cursors. */
module Batching {
  import opened Prelude
  import opened Chain
  import opened Segments
  import opened Delivery

  /** Log `i` has sunk to place `j`: inserting it before there completes its insertion into the sorted front. */
  ghost predicate Sinking(was: seq<Log>, now: seq<Log>, i: nat, j: nat) {
    && j <= i < |was| == |now| && now[j] == was[i] && now[i + 1..] == was[i + 1..]
    && Insert(now[..j], now[j]) + now[j + 1..i + 1] == Insert(was[..i], was[i])
  }

  lemma SinkingOn(was: seq<Log>, before: seq<Log>, i: nat, j: nat)
    requires Sinking(was, before, i, j) && j > 0 && Less(before[j], before[j - 1])
    ensures Sinking(was, before[j - 1 := before[j]][j := before[j - 1]], i, j - 1)
  {
    var after := before[j - 1 := before[j]][j := before[j - 1]];
    assert before[..j][..j - 1] == after[..j - 1];
    assert after[j..i + 1] == [before[j - 1]] + before[j + 1..i + 1];
    assert after[i + 1..] == before[i + 1..];
  }

  lemma SinkingEnds(was: seq<Log>, now: seq<Log>, i: nat, j: nat)
    requires Sinking(was, now, i, j) && (j == 0 || !Less(now[j], now[j - 1]))
    ensures now == Insert(was[..i], was[i]) + was[i + 1..]
  {
    assert now == now[..j] + [now[j]] + now[j + 1..i + 1] + now[i + 1..];
  }

  /** Sinks log `i` into the sorted front of the slice, swap by swap. */
  method Sink(a: array<Log>, i: nat)
    requires i < a.Length
    modifies a
    ensures a[..] == Insert(old(a[..i]), old(a[i])) + old(a[i + 1..])
  {
    hide Less, Insert, Sinking;
    ghost var was := a[..];
    var j := i;
    SinkingBegins(was, i);
    while j > 0 && Less(a[j], a[j - 1])
      invariant 0 <= j <= i && Sinking(was, a[..], i, j)
    {
      ghost var before := a[..];
      SinkingOn(was, before, i, j);
      a[j], a[j - 1] := a[j - 1], a[j];
      assert a[..] == before[j - 1 := before[j]][j := before[j - 1]];
      j := j - 1;
    }
    SinkingEnds(was, a[..], i, j);
    assert was[..i] == old(a[..i]) && was[i + 1..] == old(a[i + 1..]);
  }

  lemma SinkingBegins(was: seq<Log>, i: nat)
    requires i < |was|
    ensures Sinking(was, was, i, i)
  {
    assert was[i + 1..i + 1] == [];
  }

  lemma SortedOneMore(s: seq<Log>, i: nat)
    requires i < |s|
    ensures Sorted(s[..i + 1]) == Insert(Sorted(s[..i]), s[i])
  {
    assert s[..i + 1][..i] == s[..i];
  }

  /** `sortLogs`: sorts the slice in place, keeping equal positions in order. */
  method SortLogs(a: array<Log>)
    modifies a
    ensures a[..] == Sorted(old(a[..]))
  {
    hide Insert;
    ghost var was := a[..];
    assert was[..0] == [];
    for i := 0 to a.Length
      invariant a[..i] == Sorted(was[..i])
      invariant a[i..] == was[i..]
    {
      SortedOneMore(was, i);
      assert a[i] == was[i] && a[i + 1..] == was[i + 1..] by {
        assert a[i..][0] == was[i..][0] && a[i..][1..] == was[i..][1..];
      }
      Sink(a, i);
      assert a[..i + 1] == Sorted(was[..i + 1]);
    }
    assert a[..a.Length] == a[..] && was[..a.Length] == was;
  }

  lemma UncoveredOneMore(s: seq<Log>, i: nat, legacy: map<Address, nat>)
    requires i < |s|
    ensures Uncovered(s[..i + 1], legacy) == Uncovered(s[..i], legacy) + (if Covered(s[i], legacy) then [] else [s[i]])
  {
    assert s[..i + 1][..i] == s[..i];
  }

  /** `dropCovered`: moves the kept logs to the front of the same slice and returns their number. */
  method DropCovered(a: array<Log>, legacy: map<Address, nat>) returns (n: nat)
    modifies a
    ensures n <= a.Length && a[..n] == Uncovered(old(a[..]), legacy)
  {
    hide Uncovered;
    ghost var was := a[..];
    n := 0;
    assert was[..0] == [];
    NothingUncovered(legacy);
    for i := 0 to a.Length
      invariant n <= i && a[..n] == Uncovered(was[..i], legacy)
      invariant forall k :: i <= k < a.Length ==> a[k] == was[k]
    {
      UncoveredOneMore(was, i, legacy);
      if !(a[i].address in legacy && a[i].block <= legacy[a[i].address]) {
        a[n] := a[i];
        n := n + 1;
      }
    }
    assert was[..a.Length] == was;
  }

  lemma NothingUncovered(legacy: map<Address, nat>)
    ensures Uncovered([], legacy) == []
  {
  }

  /** `lowestCursor`: the minimum over the map in whatever order it is walked, 0 when it is empty. */
  method LowestCursor(cursors: map<Address, nat>) returns (lowest: nat)
    ensures lowest == Lowest(cursors)
  {
    var first, left := true, cursors.Keys;
    lowest := 0;
    while left != {}
      invariant left <= cursors.Keys && (first <==> left == cursors.Keys) && (first ==> lowest == 0)
      invariant !first ==> exists a :: a in cursors && cursors[a] == lowest
      invariant forall a :: a in cursors && a !in left ==> lowest <= cursors[a]
      decreases |left|
    {
      var a :| a in left;
      var block := cursors[a];
      if first || block < lowest { lowest, first := block, false; }
      left := left - {a};
    }
    assert cursors == map[] <==> cursors.Keys == {};
  }
}
