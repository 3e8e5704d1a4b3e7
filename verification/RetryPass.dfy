/** One pass of the runner over the letters it listed, as a stretch of the committed history. */
module RetryPass {
  import opened Prelude
  import opened Chain
  import opened Projection
  import opened Replay
  import opened Store
  import opened Conservation
  import opened Parking
  import opened Turns
  import opened Passes

  function LogsIn(found: seq<Filing>): (logs: seq<Log>)
    ensures |logs| == |found| && forall i :: 0 <= i < |found| ==> logs[i] == found[i].letter.lg
  {
    if found == [] then [] else LogsIn(found[..|found| - 1]) + [found[|found| - 1].letter.lg]
  }

  // ----- The steps follow the list -----

  lemma {:induction false} PassesJoin(a: seq<Step>, b: seq<Step>, first: seq<Log>, second: seq<Log>)
    requires FollowsPass(a, first) && FollowsPass(b, second)
    ensures FollowsPass(a + b, first + second)
    decreases |a|
  {
    if a == [] {
      assert a + b == b && first + second == second;
    } else {
      assert (a + b)[1..] == a[1..] + b && (a + b)[0] == a[0];
      if a[0].Visit? {
        PassesJoin(a[1..], b, first, second);
      } else {
        assert (first + second)[1..] == first[1..] + second;
        PassesJoin(a[1..], b, first[1..], second);
      }
    }
  }

  lemma {:induction false} VisitsFollow(steps: seq<Step>)
    requires Visits(steps)
    ensures FollowsPass(steps, [])
  {
    if steps != [] { VisitsFollow(steps[1..]); }
  }

  lemma OneRetryFollows(visited: seq<Step>, lg: Log)
    requires Visits(visited)
    ensures FollowsPass(visited, []) && FollowsPass(visited + [Retry(lg.Key())], [lg])
  {
    VisitsFollow(visited);
    assert FollowsPass([Retry(lg.Key())][1..], [lg][1..]);
    PassesJoin(visited, [Retry(lg.Key())], [], [lg]);
    assert [] + [lg] == [lg];
  }

  // ----- A retry touches its own letter only -----

  lemma RetryKeepsOthers(cfg: Config, d: Database, visited: seq<Step>, id: LogKey, k: LogKey)
    requires Visits(visited) && Run(cfg, d, visited + [Retry(id)]).Some? && k != id && k in d.letters
    ensures var after := Run(cfg, d, visited + [Retry(id)]).value;
      k in after.letters && after.letters[k] == d.letters[k]
  {
    hide Apply, Run;
    VisitsKeepLetters(cfg, d, visited);
    RunOneMore(cfg, d, visited, Retry(id));
  }

  // ----- The list is the beginning of what waits -----

  /** The streamed logs that wait, in chain order. */
  function AllWaiting(letters: map<LogKey, Letter>, logs: seq<Log>): seq<Log> {
    if logs == [] then []
    else
      AllWaiting(letters, logs[..|logs| - 1]) +
      (if Waiting(letters, logs[|logs| - 1].Key()) then [logs[|logs| - 1]] else [])
  }

  lemma {:induction false} AllWaitingMembers(letters: map<LogKey, Letter>, logs: seq<Log>)
    ensures forall l :: l in AllWaiting(letters, logs) <==> l in logs && Waiting(letters, l.Key())
  {
    if logs != [] {
      AllWaitingMembers(letters, logs[..|logs| - 1]);
      assert logs == logs[..|logs| - 1] + [logs[|logs| - 1]];
    }
  }

  lemma {:induction false} AllWaitingInOrder(letters: map<LogKey, Letter>, logs: seq<Log>)
    requires ChainOrdered(logs)
    ensures ChainOrdered(AllWaiting(letters, logs))
  {
    if logs != [] {
      var front, last := logs[..|logs| - 1], logs[|logs| - 1];
      AllWaitingInOrder(letters, front);
      AllWaitingMembers(letters, front);
      forall l | l in AllWaiting(letters, front) ensures Less(l, last) {
        var i :| 0 <= i < |front| && front[i] == l;
      }
    }
  }

  lemma WaitingAreAll(letters: map<LogKey, Letter>, logs: seq<Log>)
    requires Filed(letters, logs) && ChainOrdered(logs) && DistinctKeys(logs)
    ensures WaitingAre(letters, AllWaiting(letters, logs))
  {
    var all := AllWaiting(letters, logs);
    AllWaitingMembers(letters, logs);
    AllWaitingInOrder(letters, logs);
    WaitingMeans(letters);
    hide AllWaiting, ChainOrdered, Waiting;
    forall i | 0 <= i < |all| ensures Waiting(letters, all[i].Key()) && letters[all[i].Key()].lg == all[i] {
      assert all[i] in all;
      LetterOf(letters, logs, all[i]);
    }
  }

  /** An ordered part of an ordered list that leaves out later logs only, and only when it is full, is its beginning. */
  lemma {:induction false} BeginningOf(all: seq<Log>, part: seq<Log>, limit: nat)
    requires ChainOrdered(all) && ChainOrdered(part) && |part| <= limit
    requires forall l :: l in part ==> l in all
    requires forall l :: l in all ==> l in part || (|part| == limit && forall t :: t in part ==> Less(t, l))
    ensures part == all[..Min(limit, |all|)]
  {
    if part == [] {
      if all != [] { assert all[0] in all; }
    } else {
      assert part[0] in all && all != [];
      assert all[0] in all && part[0] in part;
      var i :| 0 <= i < |all| && all[i] == part[0];
      if all[0] in part { var j :| 0 <= j < |part| && part[j] == all[0]; }
      assert all[0] == part[0];
      RestOf(all);
      RestOf(part);
      BeginningOf(all[1..], part[1..], limit - 1);
      assert all == [all[0]] + all[1..] && part == [part[0]] + part[1..];
    }
  }

  lemma RestOf(logs: seq<Log>)
    requires ChainOrdered(logs) && logs != []
    ensures ChainOrdered(logs[1..])
    ensures forall l :: l in logs[1..] <==> l in logs && l != logs[0]
  {
    forall l | l in logs && l != logs[0] ensures l in logs[1..] {
      var i :| 0 <= i < |logs| && logs[i] == l;
      assert logs[1..][i - 1] == l;
    }
  }

  /** What a pass lists is the beginning of the waiting logs in strict chain order, as long as the limit allows. */
  lemma ListIsBeginning(letters: map<LogKey, Letter>, logs: seq<Log>, found: seq<Filing>, limit: nat)
    requires Listed(letters, found, limit) && Filed(letters, logs) && ChainOrdered(logs) && DistinctKeys(logs)
    ensures var all := AllWaiting(letters, logs);
      WaitingAre(letters, all) && LogsIn(found) == all[..Min(limit, |all|)]
  {
    var all, todo := AllWaiting(letters, logs), LogsIn(found);
    WaitingAreAll(letters, logs);
    AllWaitingMembers(letters, logs);
    hide LogsIn, AllWaiting;
    forall i, j | 0 <= i < j < |todo| ensures Less(todo[i], todo[j]) {
      DifferentPlaces(letters, logs, found[i], found[j]);
    }
    forall l | l in all ensures l in todo || (|todo| == limit && forall t :: t in todo ==> Less(t, l)) {
      ListedOrLater(letters, logs, found, limit, l);
    }
    hide Listed, DistinctKeys;
    BeginningOf(all, todo, limit);
  }

  lemma {:induction false} ListedOrLater(
      letters: map<LogKey, Letter>, logs: seq<Log>, found: seq<Filing>, limit: nat, l: Log)
    requires Listed(letters, found, limit) && Filed(letters, logs) && ChainOrdered(logs) && DistinctKeys(logs)
    requires l in logs && Waiting(letters, l.Key())
    ensures l in LogsIn(found) || (|found| == limit && forall t :: t in LogsIn(found) ==> Less(t, l))
  {
    LetterOf(letters, logs, l);
    hide LogsIn, DistinctKeys;
    var todo := LogsIn(found);
    if i :| 0 <= i < |found| && found[i].id == l.Key() {
      assert todo[i] == l;
    } else {
      forall t | t in todo ensures Less(t, l) {
        var i :| 0 <= i < |todo| && todo[i] == t;
        DifferentPlaces(letters, logs, found[i], Filing(l.Key(), letters[l.Key()]));
      }
    }
  }

  lemma DifferentPlaces(letters: map<LogKey, Letter>, logs: seq<Log>, a: Filing, b: Filing)
    requires Filed(letters, logs) && ChainOrdered(logs) && a.id != b.id
    requires a.id in letters && letters[a.id] == a.letter && b.id in letters && letters[b.id] == b.letter
    ensures Less(a.letter.lg, b.letter.lg) || Less(b.letter.lg, a.letter.lg)
  {
    assert a.letter.lg in logs && b.letter.lg in logs;
    var i :| 0 <= i < |logs| && logs[i] == a.letter.lg;
    var j :| 0 <= j < |logs| && logs[j] == b.letter.lg;
    assert a.letter.lg.Key() == a.id && b.letter.lg.Key() == b.id;
    assert i != j;
  }

  // ----- What a pass retries -----

  function KeysOf(logs: seq<Log>): (keys: set<LogKey>)
    ensures forall k :: k in keys <==> exists i :: 0 <= i < |logs| && logs[i].Key() == k
  {
    set i | 0 <= i < |logs| :: logs[i].Key()
  }

  lemma {:induction false} KeysCount(logs: seq<Log>)
    requires DistinctKeys(logs)
    ensures |KeysOf(logs)| == |logs|
  {
    if logs != [] {
      var front, last := logs[..|logs| - 1], logs[|logs| - 1];
      KeysCount(front);
      forall k ensures k in KeysOf(logs) <==> k in KeysOf(front) || k == last.Key() {
        if k in KeysOf(front) {
          var i :| 0 <= i < |front| && front[i].Key() == k;
          assert logs[i].Key() == k;
        }
        if k in KeysOf(logs) {
          var i :| 0 <= i < |logs| && logs[i].Key() == k;
          assert i < |front| ==> front[i].Key() == k;
        }
      }
      assert KeysOf(logs) == KeysOf(front) + {last.Key()};
    }
  }

  ghost predicate OwnKeys(letters: map<LogKey, Letter>) {
    forall k :: k in letters ==> letters[k].lg.Key() == k
  }

  lemma ListedKeys(letters: map<LogKey, Letter>, all: seq<Log>)
    requires WaitingAre(letters, all) && OwnKeys(letters)
    ensures DistinctKeys(all) && |all| == |WaitingKeys(letters)|
  {
    forall i, j | 0 <= i < j < |all| ensures all[i].Key() != all[j].Key() {
      assert Less(all[i], all[j]);
      assert letters[all[i].Key()].lg == all[i] && letters[all[j].Key()].lg == all[j];
    }
    KeysCount(all);
    forall k ensures k in KeysOf(all) <==> k in WaitingKeys(letters) {
      if Waiting(letters, k) {
        var i :| 0 <= i < |all| && all[i] == letters[k].lg;
      }
    }
    assert KeysOf(all) == WaitingKeys(letters);
  }

  /** A successful pass: the waiting letters from the earliest on, all of them or as many as the limit allows. */
  ghost predicate ListedPass(d: Database, steps: seq<Step>) {
    exists all :: PassOf(d, steps, all, Min(RETRY_LIMIT, |all|))
  }

  /** While no more wait than the limit allows, a successful pass is complete. */
  lemma FewAreAll(d: Database, steps: seq<Step>)
    requires ListedPass(d, steps) && OwnKeys(d.letters) && |WaitingKeys(d.letters)| <= RETRY_LIMIT
    ensures CompletePass(d, steps)
  {
    var all :| PassOf(d, steps, all, Min(RETRY_LIMIT, |all|));
    hide FollowsPass;
    ListedKeys(d.letters, all);
    assert PassOf(d, steps, all, |all|);
  }

  lemma {:induction false} RetriesListed(steps: seq<Step>, todo: seq<Log>, k: LogKey)
    requires FollowsPass(steps, todo)
    ensures Retry(k) in steps <==> k in KeysOf(todo)
    decreases |steps|
  {
    if steps != [] {
      assert steps == [steps[0]] + steps[1..];
      if steps[0].Visit? {
        RetriesListed(steps[1..], todo, k);
      } else {
        RetriesListed(steps[1..], todo[1..], k);
        assert todo == [todo[0]] + todo[1..];
      }
    }
  }

  /** The waiting letters that come before the `k`-th. */
  function Before(letters: map<LogKey, Letter>, k: LogKey): set<LogKey>
    requires k in letters
  {
    set q | q in letters && !letters[q].resolved && Less(letters[q].lg, letters[k].lg)
  }

  lemma PlaceIsCount(letters: map<LogKey, Letter>, all: seq<Log>, j: nat, k: LogKey)
    requires WaitingAre(letters, all) && OwnKeys(letters) && j < |all| && all[j].Key() == k
    ensures k in letters && |Before(letters, k)| == j
  {
    ListedKeys(letters, all);
    KeysCount(all[..j]);
    assert Waiting(letters, k) && letters[k].lg == all[j];
    forall q ensures q in Before(letters, k) <==> q in KeysOf(all[..j]) {
      if q in Before(letters, k) {
        assert Waiting(letters, q);
        var i :| 0 <= i < |all| && all[i] == letters[q].lg;
        assert all[..j][i].Key() == q;
      }
      if q in KeysOf(all[..j]) {
        var i :| 0 <= i < |all[..j]| && all[..j][i].Key() == q;
        assert Waiting(letters, all[i].Key()) && Less(all[i], all[j]);
      }
    }
    assert Before(letters, k) == KeysOf(all[..j]);
  }

  lemma KeyInFront(all: seq<Log>, j: nat, n: nat)
    requires DistinctKeys(all) && j < |all| && n <= |all|
    ensures all[j].Key() in KeysOf(all[..n]) <==> j < n
  {
    if j < n { assert all[..n][j].Key() == all[j].Key(); }
    if all[j].Key() in KeysOf(all[..n]) {
      var i :| 0 <= i < |all[..n]| && all[..n][i].Key() == all[j].Key();
    }
  }

  /** A pass that takes the first `n` letters retries a waiting letter exactly when fewer than `n` come before it. */
  lemma RetriedByPlace(d: Database, steps: seq<Step>, all: seq<Log>, n: nat, k: LogKey)
    requires PassOf(d, steps, all, n) && OwnKeys(d.letters) && Waiting(d.letters, k)
    ensures Retry(k) in steps <==> |Before(d.letters, k)| < n
  {
    RetriesListed(steps, all[..n], k);
    hide FollowsPass, KeysOf, Before;
    assert d.letters[k].lg in all;
    var j :| 0 <= j < |all| && all[j] == d.letters[k].lg;
    PlaceIsCount(d.letters, all, j, k);
    ListedKeys(d.letters, all);
    KeyInFront(all, j, n);
  }

  /** A successful pass retries a waiting letter exactly when fewer than fifty waiting letters come before it. */
  lemma RetriedExactlyWhen(d: Database, steps: seq<Step>, k: LogKey)
    requires ListedPass(d, steps) && OwnKeys(d.letters) && Waiting(d.letters, k)
    ensures Retry(k) in steps <==> |Before(d.letters, k)| < 50
  {
    var all :| PassOf(d, steps, all, Min(RETRY_LIMIT, |all|));
    RetriedByPlace(d, steps, all, Min(RETRY_LIMIT, |all|), k);
    hide FollowsPass, Before;
    var j :| 0 <= j < |all| && all[j] == d.letters[k].lg;
    PlaceIsCount(d.letters, all, j, k);
  }
}
