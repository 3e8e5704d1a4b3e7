/**
 Retry passes that come to a standstill: a parked log that is doomed for good stops every pass before the letters behind
 it, although their own missing rows may exist by then.
 */
module Standstill {
  import opened Prelude
  import opened Chain
  import opened Ledger
  import opened Projection
  import opened Feed
  import opened Replay
  import opened Conservation
  import opened Parking
  import opened Turns
  import opened Passes
  import opened RetryPass
  import opened Starvation
  import opened FatalLogs
  import opened Obstacles

  // ----- A doomed letter stays, and so does everything behind it -----

  /** The letter waits and its log can never be projected. */
  ghost predicate DoomedLetter(cfg: Config, d: Database, k: LogKey) {
    Waiting(d.letters, k) && DoomedForGood(cfg, d.rows, d.letters[k].lg)
  }

  lemma DoomedRetryFails(cfg: Config, d: Database, k: LogKey)
    requires DoomedLetter(cfg, d, k) && Referential(d.rows)
    ensures Advance(cfg, d, Retry(k)).None?
  {
    DoomedWhenever(cfg, d.rows, d.letters[k].lg, d.letters[k].time);
    hide Apply, DoomedForGood, Referential;
  }

  lemma StepKeepsDoomedLetter(cfg: Config, d: Database, s: Step, logs: seq<Log>, k: LogKey)
    requires Advance(cfg, d, s).Some? && DoomedLetter(cfg, d, k) && Referential(d.rows)
    requires Filed(d.letters, logs) && OnlyOne(logs, d.letters[k].lg) && (s.Stream? ==> Apart(s.lg, d.letters[k].lg))
    ensures s != Retry(k)
    ensures DoomedLetter(cfg, Advance(cfg, d, s).value, k)
    ensures Advance(cfg, d, s).value.letters[k] == d.letters[k]
  {
    var lg := d.letters[k].lg;
    if s == Retry(k) { DoomedRetryFails(cfg, d, k); }
    StepKeepsLetters(cfg, d, s, k);
    hide Apply, DoomedForGood, Referential, LinkOutside;
    match s
    case Stream(l, time) =>
      if Apply(cfg, d.rows, l, time).Written? { DoomStaysOnApply(cfg, d.rows, l, time, lg); }
    case Retry(key) =>
      var letter := d.letters[key];
      assert letter.lg in logs && letter.lg.Key() == key && lg.Key() == k;
      if Apply(cfg, d.rows, letter.lg, letter.time).Written? {
        DoomStaysOnApply(cfg, d.rows, letter.lg, letter.time, lg);
      }
    case Visit(m, id) => DoomStaysOnVisit(cfg, d.rows, m, id, lg);
    case Save(_, _) =>
  }

  lemma StreamedApart(h: seq<Step>, s: Step, lg: Log)
    requires OnlyOne(StreamLogs(h + [s]), lg) && DistinctKeys(StreamLogs(h + [s])) && lg in StreamLogs(h)
    ensures OnlyOne(StreamLogs(h), lg) && DistinctKeys(StreamLogs(h))
    ensures s.Stream? ==> Apart(s.lg, lg)
  {
    OnlyOnePrefix(h, s, lg);
    if s.Stream? {
      assert StreamLogs(h + [s]) == StreamLogs(h) + [s.lg];
      DistinctPrefix(StreamLogs(h), s.lg);
    }
  }

  /** From `h` on the letter is not retried, and after `more` it is doomed still and as it was. */
  ghost predicate Stays(cfg: Config, base: Database, h: seq<Step>, more: seq<Step>, k: LogKey) {
    && Run(cfg, base, h).Some? && Run(cfg, base, h + more).Some? && Retry(k) !in more
    && k in Run(cfg, base, h).value.letters && DoomedLetter(cfg, Run(cfg, base, h + more).value, k)
    && Run(cfg, base, h + more).value.letters[k] == Run(cfg, base, h).value.letters[k]
  }

  lemma StaysAtFirst(cfg: Config, base: Database, h: seq<Step>, k: LogKey)
    requires Run(cfg, base, h).Some? && DoomedLetter(cfg, Run(cfg, base, h).value, k)
    ensures Stays(cfg, base, h, [], k)
  {
    assert h + [] == h;
    hide Run, DoomedForGood;
  }

  lemma StaysOneMore(cfg: Config, base: Database, h: seq<Step>, front: seq<Step>, s: Step, k: LogKey)
    requires base.letters == map[] && Referential(base.rows)
    requires Stays(cfg, base, h, front, k) && Run(cfg, base, h + front + [s]).Some?
    requires DistinctKeys(StreamLogs(h + front + [s]))
    requires OnlyOne(StreamLogs(h + front + [s]), Run(cfg, base, h).value.letters[k].lg)
    ensures Stays(cfg, base, h, front + [s], k)
  {
    assert h + (front + [s]) == h + front + [s];
    hide DoomedLetter, Run, StreamLogs, DistinctKeys, OnlyOne, Referential;
    NextKeepsDoomedLetter(cfg, base, h + front, s, k);
  }

  /** Whatever follows, a letter doomed for good is never retried, and waits as it is. */
  lemma {:induction false} DoomedLetterStays(cfg: Config, base: Database, h: seq<Step>, more: seq<Step>, k: LogKey)
    requires base.letters == map[] && Referential(base.rows)
    requires Run(cfg, base, h).Some? && Run(cfg, base, h + more).Some?
    requires DoomedLetter(cfg, Run(cfg, base, h).value, k)
    requires DistinctKeys(StreamLogs(h + more))
    requires OnlyOne(StreamLogs(h + more), Run(cfg, base, h).value.letters[k].lg)
    ensures Stays(cfg, base, h, more, k)
  {
    var lg := Run(cfg, base, h).value.letters[k].lg;
    hide *;
    if more == [] {
      StaysAtFirst(cfg, base, h, k);
    } else {
      var front, s := more[..|more| - 1], more[|more| - 1];
      assert more == front + [s] && h + more == h + front + [s];
      PrefixRuns(cfg, base, h + front, [s]);
      StreamsPrefix(h, front, s, lg);
      DoomedLetterStays(cfg, base, h, front, k);
      StaysOneMore(cfg, base, h, front, s, k);
    }
  }

  lemma NextKeepsDoomedLetter(cfg: Config, base: Database, g: seq<Step>, s: Step, k: LogKey)
    requires base.letters == map[] && Referential(base.rows)
    requires Run(cfg, base, g).Some? && Run(cfg, base, g + [s]).Some? && DoomedLetter(cfg, Run(cfg, base, g).value, k)
    requires DistinctKeys(StreamLogs(g + [s]))
    requires OnlyOne(StreamLogs(g + [s]), Run(cfg, base, g).value.letters[k].lg)
    ensures s != Retry(k) && DoomedLetter(cfg, Run(cfg, base, g + [s]).value, k)
    ensures Run(cfg, base, g + [s]).value.letters[k] == Run(cfg, base, g).value.letters[k]
  {
    var d := Run(cfg, base, g).value;
    WaitingMeans(d.letters);
    assert Waiting(d.letters, k);
    hide DoomedLetter, Waiting, Run, StreamLogs, Advance, DistinctKeys, OnlyOne, Referential, Apart;
    OnlyOnePrefix(g, s, d.letters[k].lg);
    RunOneMore(cfg, base, g, s);
    RunKeepsReferences(cfg, base, g);
    FilesAreStreamed(cfg, base, g);
    StreamedApart(g, s, d.letters[k].lg);
    StepKeepsDoomedLetter(cfg, d, s, StreamLogs(g), k);
  }

  lemma StreamsPrefix(h: seq<Step>, front: seq<Step>, s: Step, lg: Log)
    requires OnlyOne(StreamLogs(h + front + [s]), lg) && DistinctKeys(StreamLogs(h + front + [s]))
    ensures OnlyOne(StreamLogs(h + front), lg) && DistinctKeys(StreamLogs(h + front))
  {
    OnlyOnePrefix(h + front, s, lg);
  }

  /** The letter is the doomed one or comes after it on the chain. */
  predicate Behind(letters: map<LogKey, Letter>, k: LogKey, q: LogKey) {
    k in letters && q in letters && (q == k || Less(letters[k].lg, letters[q].lg))
  }

  lemma BehindHasMoreBefore(letters: map<LogKey, Letter>, k: LogKey, q: LogKey)
    requires Behind(letters, k, q)
    ensures |Before(letters, k)| <= |Before(letters, q)|
  {
    SubsetIsSmaller(Before(letters, k), Before(letters, q));
  }

  /** A pass that does not retry a letter retries none behind it. */
  lemma PassStopsBefore(d: Database, steps: seq<Step>, limit: Option<nat>, k: LogKey, q: LogKey)
    requires PartialPass(d, steps, limit) && OwnKeys(d.letters)
    requires Waiting(d.letters, k) && Waiting(d.letters, q) && Behind(d.letters, k, q) && Retry(k) !in steps
    ensures Retry(q) !in steps
  {
    var all, n: nat :| PassOf(d, steps, all, n);
    BehindHasMoreBefore(d.letters, k, q);
    hide PassOf, Before;
    RetriedByPlace(d, steps, all, n, k);
    RetriedByPlace(d, steps, all, n, q);
  }

  lemma {:induction false} UnretriedStays(cfg: Config, d: Database, steps: seq<Step>, q: LogKey)
    requires Run(cfg, d, steps).Some? && q in d.letters && Retry(q) !in steps
    ensures q in Run(cfg, d, steps).value.letters && Run(cfg, d, steps).value.letters[q] == d.letters[q]
  {
    hide Advance;
    if steps != [] {
      var front, s := steps[..|steps| - 1], steps[|steps| - 1];
      assert steps == front + [s];
      UnretriedStays(cfg, d, front, q);
      StepKeepsLetters(cfg, Run(cfg, d, front).value, s, q);
    }
  }

  /**
   A letter doomed for good stops every pass: from the moment it waits, it and every letter then waiting behind it stay
   as they are for ever, whatever is streamed, linked or retried, and whatever the limit of a pass.
   */
  lemma {:induction false} LettersBehindDoomStay(
      cfg: Config, base: Database, phases: seq<seq<Step>>, limit: Option<nat>, i: nat, k: LogKey, q: LogKey)
    requires base.letters == map[] && Referential(base.rows)
    requires Patient(cfg, base, phases, limit) && i <= |phases|
    requires Run(cfg, base, Flatten(phases)).Some? && Run(cfg, base, Flatten(phases[..i])).Some?
    requires DoomedLetter(cfg, Run(cfg, base, Flatten(phases[..i])).value, k)
    requires var d := Run(cfg, base, Flatten(phases[..i])).value;
      Waiting(d.letters, q) && Behind(d.letters, k, q) && OnlyOne(StreamLogs(Flatten(phases)), d.letters[k].lg)
    requires DistinctKeys(StreamLogs(Flatten(phases)))
    ensures var d, after := Run(cfg, base, Flatten(phases[..i])).value, Run(cfg, base, Flatten(phases)).value;
      && k in after.letters && after.letters[k] == d.letters[k] && DoomedForGood(cfg, after.rows, d.letters[k].lg)
      && q in after.letters && after.letters[q] == d.letters[q]
  {
    if i == |phases| {
      assert phases[..i] == phases;
    } else {
      var front, last := phases[..|phases| - 1], phases[|phases| - 1];
      assert front[..i] == phases[..i];
      var g := Flatten(front);
      hide Run, PartialPass, Streaming, OwnKeys, DoomedForGood, Referential, OnlyOne, DistinctKeys, StreamLogs;
      PrefixRuns(cfg, base, g, last);
      ApartFromPrefix(g, last, Run(cfg, base, Flatten(phases[..i])).value.letters[k].lg);
      LettersBehindDoomStay(cfg, base, front, limit, i, k, q);
      var d := Run(cfg, base, g).value;
      DoomedLetterStays(cfg, base, g, last, k);
      RunKeepsOwnKeys(cfg, base, g);
      if Streaming(last) { StreamingRetriesNothing(last, q); } else { PassStopsBefore(d, last, limit, k, q); }
      RunConcat(cfg, base, g, last);
      UnretriedStays(cfg, d, last, q);
    }
  }

  lemma {:induction false} FlattenPrefix(phases: seq<seq<Step>>, i: nat) returns (rest: seq<Step>)
    requires i <= |phases|
    ensures Flatten(phases) == Flatten(phases[..i]) + rest
  {
    rest := [];
    if i == |phases| {
      assert phases[..i] == phases && Flatten(phases) + [] == Flatten(phases);
    } else {
      var front := phases[..|phases| - 1];
      assert front[..i] == phases[..i];
      rest := FlattenPrefix(front, i);
      assert Flatten(phases[..i]) + rest + phases[|phases| - 1] == Flatten(phases[..i]) + (rest + phases[|phases| - 1]);
      rest := rest + phases[|phases| - 1];
    }
  }

  lemma ApartFromPrefix(g: seq<Step>, h: seq<Step>, lg: Log)
    requires OnlyOne(StreamLogs(g + h), lg) && DistinctKeys(StreamLogs(g + h))
    ensures OnlyOne(StreamLogs(g), lg) && DistinctKeys(StreamLogs(g))
  {
    StreamLogsConcat(g, h);
    hide StreamLogs;
    var logs, all := StreamLogs(g), StreamLogs(g + h);
    assert forall j :: 0 <= j < |logs| ==> all[j] == logs[j];
    assert forall l :: l in logs ==> l in all;
  }

  // ----- A pass over an undisturbed database -----

  function Retries(todo: seq<Log>): (steps: seq<Step>)
    ensures |steps| == |todo|
  {
    if todo == [] then [] else Retries(todo[..|todo| - 1]) + [Retry(todo[|todo| - 1].Key())]
  }

  /** The `i`-th letter of the list is doomed on the rows that the retries before it leave. */
  ghost predicate DoomedInTurn(cfg: Config, d: Database, all: seq<Log>, i: nat) {
    && i < |all| && all[i].Key() in d.letters && Run(cfg, d, Retries(all[..i])).Some?
    && Doomed(cfg, Run(cfg, d, Retries(all[..i])).value.rows, all[i], d.letters[all[i].Key()].time)
  }

  /** The pass retried the first `n` letters, and failed exactly when the next it had listed was doomed in its turn. */
  ghost predicate StoppedPassOf(
      cfg: Config, d: Database, steps: seq<Step>, failed: bool, all: seq<Log>, n: nat) {
    && WaitingAre(d.letters, all) && n <= Min(RETRY_LIMIT, |all|)
    && steps == Retries(all[..n]) && Run(cfg, d, steps).Some?
    && (failed <==> n < Min(RETRY_LIMIT, |all|)) && (failed ==> DoomedInTurn(cfg, d, all, n))
  }

  ghost predicate StoppedPass(cfg: Config, d: Database, steps: seq<Step>, failed: bool) {
    exists all, n: nat :: StoppedPassOf(cfg, d, steps, failed, all, n)
  }

  lemma {:induction false} RetriesFollow(todo: seq<Log>)
    ensures FollowsPass(Retries(todo), todo)
  {
    if todo != [] {
      var front, last := todo[..|todo| - 1], todo[|todo| - 1];
      RetriesFollow(front);
      assert FollowsPass([Retry(last.Key())][1..], [last][1..]);
      PassesJoin(Retries(front), [Retry(last.Key())], front, [last]);
      assert front + [last] == todo;
    }
  }

  lemma RetriesOneMore(all: seq<Log>, i: nat)
    requires i < |all|
    ensures Retries(all[..i + 1]) == Retries(all[..i]) + [Retry(all[i].Key())]
  {
    assert all[..i + 1][..i] == all[..i];
  }

  lemma {:induction false} RetriesSplit(all: seq<Log>, i: nat, n: nat) returns (rest: seq<Step>)
    requires i <= n <= |all|
    ensures Retries(all[..n]) == Retries(all[..i]) + rest
  {
    if i == n {
      rest := [];
    } else {
      rest := RetriesSplit(all, i, n - 1);
      RetriesOneMore(all, n - 1);
      rest := rest + [Retry(all[n - 1].Key())];
    }
  }

  /** The retries before a letter leave that letter as it was. */
  lemma StillAsListed(cfg: Config, d: Database, all: seq<Log>, i: nat)
    requires WaitingAre(d.letters, all) && OwnKeys(d.letters) && i < |all|
    requires Run(cfg, d, Retries(all[..i])).Some?
    ensures var k, after := all[i].Key(), Run(cfg, d, Retries(all[..i])).value.letters;
      k in d.letters && k in after && after[k] == d.letters[k] && Waiting(after, k) && d.letters[k].lg == all[i]
  {
    assert Waiting(d.letters, all[i].Key());
    hide Run;
    ListedKeys(d.letters, all);
    RetriesFollow(all[..i]);
    RetriesListed(Retries(all[..i]), all[..i], all[i].Key());
    KeyInFront(all, i, i);
    UnretriedStays(cfg, d, Retries(all[..i]), all[i].Key());
  }

  /** A letter whose retry was committed was not doomed in its turn. */
  lemma RetriedIsNotDoomed(cfg: Config, d: Database, all: seq<Log>, i: nat, n: nat)
    requires WaitingAre(d.letters, all) && OwnKeys(d.letters) && i < n <= |all|
    requires Run(cfg, d, Retries(all[..n])).Some?
    ensures !DoomedInTurn(cfg, d, all, i)
  {
    hide Run, WaitingAre, OwnKeys, Doomed, Advance, Retries;
    var rest := RetriesSplit(all, i + 1, n);
    PrefixRuns(cfg, d, Retries(all[..i + 1]), rest);
    RetriesOneMore(all, i);
    PrefixRuns(cfg, d, Retries(all[..i]), [Retry(all[i].Key())]);
    RunOneMore(cfg, d, Retries(all[..i]), Retry(all[i].Key()));
    StillAsListed(cfg, d, all, i);
    RetryFailsExactlyWhen(cfg, Run(cfg, d, Retries(all[..i])).value, all[i].Key());
  }

  lemma OneWaitingList(letters: map<LogKey, Letter>, a: seq<Log>, b: seq<Log>)
    requires WaitingAre(letters, a) && WaitingAre(letters, b)
    ensures a == b
  {
    forall l ensures l in a <==> l in b {
      if l in a { var i :| 0 <= i < |a| && a[i] == l; }
      if l in b { var i :| 0 <= i < |b| && b[i] == l; }
    }
    SameLogsSameOrder(a, b);
  }

  /**
   A pass over an undisturbed database retries a waiting letter exactly when fewer than fifty waiting letters come
   before it and neither it nor any of them is doomed on the rows it comes to.
   */
  lemma RetriedUnlessDoomed(
      cfg: Config, d: Database, steps: seq<Step>, failed: bool, all: seq<Log>, k: LogKey)
    requires StoppedPass(cfg, d, steps, failed) && OwnKeys(d.letters)
    requires WaitingAre(d.letters, all) && Waiting(d.letters, k)
    ensures Retry(k) in steps <==>
      |Before(d.letters, k)| < RETRY_LIMIT
      && forall i: nat :: i <= |Before(d.letters, k)| ==> !DoomedInTurn(cfg, d, all, i)
  {
    var same, n: nat :| StoppedPassOf(cfg, d, steps, failed, same, n);
    OneWaitingList(d.letters, all, same);
    hide Run, Doomed, OwnKeys, Retries, DoomedInTurn, Before;
    RetriesFollow(all[..n]);
    RetriedByPlace(d, steps, all, n, k);
    var j :| 0 <= j < |all| && all[j] == d.letters[k].lg;
    assert all[j].Key() == k by { hide *; OwnKey(d.letters, k); }
    PlaceIsCount(d.letters, all, j, k);
    forall i: nat | i < n ensures !DoomedInTurn(cfg, d, all, i) {
      RetriedIsNotDoomed(cfg, d, all, i, n);
    }
  }

  /** Such a pass fails exactly when some letter it could list is doomed in its turn. */
  lemma PassFailsExactlyWhen(cfg: Config, d: Database, steps: seq<Step>, failed: bool, all: seq<Log>)
    requires StoppedPass(cfg, d, steps, failed) && OwnKeys(d.letters) && WaitingAre(d.letters, all)
    ensures failed <==> exists i: nat :: i < Min(RETRY_LIMIT, |all|) && DoomedInTurn(cfg, d, all, i)
  {
    var same, n: nat :| StoppedPassOf(cfg, d, steps, failed, same, n);
    OneWaitingList(d.letters, all, same);
    hide Run, Doomed, OwnKeys, Retries, DoomedInTurn;
    forall i: nat | i < n ensures !DoomedInTurn(cfg, d, all, i) {
      RetriedIsNotDoomed(cfg, d, all, i, n);
    }
  }

  lemma OwnKey(letters: map<LogKey, Letter>, k: LogKey)
    requires OwnKeys(letters) && k in letters
    ensures letters[k].lg.Key() == k
  {
  }
}
