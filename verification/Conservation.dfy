/** Log conservation: where every streamed log is, in every reachable database. */
module Conservation {
  import opened Prelude
  import opened Chain
  import opened Ledger
  import opened Projection
  import opened Replay

  /** How often the log landed through the stream, or through a retry. */
  function Landed(ls: seq<Landing>, lg: Log, retried: bool): nat {
    if ls == [] then 0
    else
      Landed(ls[..|ls| - 1], lg, retried) +
      (if ls[|ls| - 1].lg == lg && ls[|ls| - 1].retried == retried then 1 else 0)
  }

  predicate AppliedByStream(letters: map<LogKey, Letter>, ls: seq<Landing>, lg: Log) {
    lg.Key() !in letters && Landed(ls, lg, false) == 1 && Landed(ls, lg, true) == 0
  }

  predicate ParkedAndWaiting(letters: map<LogKey, Letter>, ls: seq<Landing>, lg: Log) {
    lg.Key() in letters && !letters[lg.Key()].resolved && letters[lg.Key()].lg == lg
    && Landed(ls, lg, false) == 0 && Landed(ls, lg, true) == 0
  }

  predicate ResolvedByRetry(letters: map<LogKey, Letter>, ls: seq<Landing>, lg: Log) {
    lg.Key() in letters && letters[lg.Key()].resolved && letters[lg.Key()].lg == lg
    && Landed(ls, lg, false) == 0 && Landed(ls, lg, true) == 1
  }

  predicate Accounted(letters: map<LogKey, Letter>, ls: seq<Landing>, lg: Log) {
    AppliedByStream(letters, ls, lg) || ParkedAndWaiting(letters, ls, lg) || ResolvedByRetry(letters, ls, lg)
  }

  /** Letters and landings come from the stream and nowhere else. */
  ghost predicate FromStream(letters: map<LogKey, Letter>, ls: seq<Landing>, logs: seq<Log>) {
    && (forall k :: k in letters ==> letters[k].lg in logs && letters[k].lg.Key() == k)
    && (forall i :: 0 <= i < |ls| ==> ls[i].lg in logs)
  }

  lemma {:induction false} AbsentNeverLanded(ls: seq<Landing>, lg: Log, retried: bool)
    requires forall i :: 0 <= i < |ls| ==> ls[i].lg != lg
    ensures Landed(ls, lg, retried) == 0
  {
    if ls != [] { AbsentNeverLanded(ls[..|ls| - 1], lg, retried); }
  }

  lemma LandedOneMore(ls: seq<Landing>, l: Landing, lg: Log, retried: bool)
    ensures Landed(ls + [l], lg, retried) ==
            Landed(ls, lg, retried) + (if l.lg == lg && l.retried == retried then 1 else 0)
  {
    assert (ls + [l])[..|ls|] == ls;
  }

  lemma StreamAccounts(cfg: Config, d: Database, ls: seq<Landing>, logs: seq<Log>, lg: Log, time: int)
    requires Advance(cfg, d, Stream(lg, time)).Some? && FromStream(d.letters, ls, logs)
    requires forall l :: l in logs ==> Accounted(d.letters, ls, l) && l.Key() != lg.Key()
    ensures var after, now := Advance(cfg, d, Stream(lg, time)).value, ls + StepLanding(cfg, d, Stream(lg, time));
      && FromStream(after.letters, now, logs + [lg])
      && (forall l :: l in logs + [lg] ==> Accounted(after.letters, now, l))
  {
    hide Apply, Landed;
    var landed := StepLanding(cfg, d, Stream(lg, time));
    var after, now := Advance(cfg, d, Stream(lg, time)).value, ls + landed;
    AbsentNeverLanded(ls, lg, false);
    AbsentNeverLanded(ls, lg, true);
    forall l | l in logs + [lg] ensures Accounted(after.letters, now, l) {
      if landed != [] {
        LandedOneMore(ls, landed[0], l, false);
        LandedOneMore(ls, landed[0], l, true);
        assert now == ls + [landed[0]];
      } else {
        assert now == ls;
      }
      assert l in logs || l == lg;
    }
  }

  lemma RetryAccounts(cfg: Config, d: Database, ls: seq<Landing>, logs: seq<Log>, key: LogKey)
    requires Advance(cfg, d, Retry(key)).Some? && FromStream(d.letters, ls, logs) && DistinctKeys(logs)
    requires forall l :: l in logs ==> Accounted(d.letters, ls, l)
    ensures var after, now := Advance(cfg, d, Retry(key)).value, ls + StepLanding(cfg, d, Retry(key));
      && FromStream(after.letters, now, logs)
      && (forall l :: l in logs ==> Accounted(after.letters, now, l))
  {
    hide Apply, Landed, DistinctKeys;
    var landed := StepLanding(cfg, d, Retry(key));
    var after, now := Advance(cfg, d, Retry(key)).value, ls + landed;
    forall l | l in logs ensures Accounted(after.letters, now, l) {
      if landed != [] {
        LandedOneMore(ls, landed[0], l, false);
        LandedOneMore(ls, landed[0], l, true);
        assert now == ls + [landed[0]];
      } else {
        assert now == ls;
      }
      assert l.Key() == key ==> l == d.letters[key].lg;
    }
  }

  lemma DistinctPrefix(logs: seq<Log>, lg: Log)
    requires DistinctKeys(logs + [lg])
    ensures DistinctKeys(logs)
    ensures forall l :: l in logs ==> l.Key() != lg.Key()
  {
    forall i, j | 0 <= i < j < |logs| ensures logs[i].Key() != logs[j].Key() {
      assert (logs + [lg])[i] == logs[i] && (logs + [lg])[j] == logs[j];
    }
    forall l | l in logs ensures l.Key() != lg.Key() {
      var i :| 0 <= i < |logs| && logs[i] == l;
      assert (logs + [lg])[i] == l && (logs + [lg])[|logs|] == lg;
    }
  }

  /**
   Conservation: after any history, every log the stream has passed is in exactly one class: applied by the
   stream, parked and waiting with nothing applied, or resolved and applied once by a retry.
   */
  lemma {:induction false} EveryLogIsAccounted(cfg: Config, base: Database, h: seq<Step>)
    requires base.letters == map[] && Run(cfg, base, h).Some? && DistinctKeys(StreamLogs(h))
    ensures var d, ls := Run(cfg, base, h).value, Landings(cfg, base, h);
      && FromStream(d.letters, ls, StreamLogs(h))
      && (forall lg :: lg in StreamLogs(h) ==> Accounted(d.letters, ls, lg))
  {
    hide Advance, StepLanding, Accounted, FromStream;
    if h == [] {
      NothingYet(base);
    } else {
      var front, s := h[..|h| - 1], h[|h| - 1];
      if s.Stream? { DistinctPrefix(StreamLogs(front), s.lg); } else { assert StreamLogs(h) == StreamLogs(front); }
      EveryLogIsAccounted(cfg, base, front);
      var before, ls := Run(cfg, base, front).value, Landings(cfg, base, front);
      assert ls + [] == ls;
      match s {
        case Stream(lg, time) => StreamAccounts(cfg, before, ls, StreamLogs(front), lg, time);
        case Retry(key) => RetryAccounts(cfg, before, ls, StreamLogs(front), key);
        case Visit(_, _) => QuietStep(cfg, before, s);
        case Save(_, _) => QuietStep(cfg, before, s);
      }
    }
  }

  lemma NothingYet(base: Database)
    requires base.letters == map[]
    ensures FromStream(base.letters, [], [])
  {
  }

  lemma QuietStep(cfg: Config, d: Database, s: Step)
    requires s.Visit? || s.Save?
    ensures Advance(cfg, d, s).Some? && Advance(cfg, d, s).value.letters == d.letters && StepLanding(cfg, d, s) == []
  {
  }

  /** The three classes exclude one another. */
  lemma ClassesAreDisjoint(letters: map<LogKey, Letter>, ls: seq<Landing>, lg: Log)
    requires Accounted(letters, ls, lg)
    ensures AppliedByStream(letters, ls, lg) ==> !ParkedAndWaiting(letters, ls, lg) && !ResolvedByRetry(letters, ls, lg)
    ensures ParkedAndWaiting(letters, ls, lg) ==> !ResolvedByRetry(letters, ls, lg)
    ensures Landed(ls, lg, false) + Landed(ls, lg, true) == if ParkedAndWaiting(letters, ls, lg) then 0 else 1
  {
  }

  // ----- What a letter remembers -----

  /** How often the key was retried. */
  function Retried(h: seq<Step>, k: LogKey): nat {
    if h == [] then 0 else Retried(h[..|h| - 1], k) + (if h[|h| - 1] == Retry(k) then 1 else 0)
  }

  /** A letter carries the log and the block time it was streamed with, and counts the tries that did not land. */
  ghost predicate Remembers(letters: map<LogKey, Letter>, h: seq<Step>) {
    forall k :: k in letters ==>
      && letters[k].lg.Key() == k && Stream(letters[k].lg, letters[k].time) in h
      && letters[k].attempts == 1 + Retried(h, k) - (if letters[k].resolved then 1 else 0)
  }

  lemma RetriedOneMore(h: seq<Step>, s: Step, k: LogKey)
    ensures Retried(h + [s], k) == Retried(h, k) + (if s == Retry(k) then 1 else 0)
  {
    assert (h + [s])[..|h|] == h;
  }

  lemma {:induction false} NotStreamedNotRetried(cfg: Config, base: Database, h: seq<Step>, k: LogKey)
    requires base.letters == map[] && Run(cfg, base, h).Some? && k !in Run(cfg, base, h).value.letters
    ensures Retried(h, k) == 0
  {
    hide Apply;
    if h != [] {
      var front, s := h[..|h| - 1], h[|h| - 1];
      LettersStay(cfg, Run(cfg, base, front).value, s, k);
      NotStreamedNotRetried(cfg, base, front, k);
    }
  }

  lemma LettersStay(cfg: Config, d: Database, s: Step, k: LogKey)
    requires Advance(cfg, d, s).Some?
    ensures k in d.letters ==> k in Advance(cfg, d, s).value.letters
    ensures s == Retry(k) ==> k in d.letters
  {
    hide Apply;
  }

  lemma StepRemembers(cfg: Config, d: Database, h: seq<Step>, s: Step)
    requires Advance(cfg, d, s).Some? && Remembers(d.letters, h)
    requires s.Stream? && s.lg.Key() !in d.letters ==> Retried(h, s.lg.Key()) == 0
    ensures Remembers(Advance(cfg, d, s).value.letters, h + [s])
  {
    hide Apply, Retried;
    var after := Advance(cfg, d, s).value.letters;
    forall k | k in after
      ensures after[k].lg.Key() == k && Stream(after[k].lg, after[k].time) in h + [s]
      ensures after[k].attempts == 1 + Retried(h + [s], k) - (if after[k].resolved then 1 else 0)
    {
      RetriedOneMore(h, s, k);
    }
  }

  /** After any history a letter remembers its log, its block time and how often it was tried in vain. */
  lemma {:induction false} LettersRemember(cfg: Config, base: Database, h: seq<Step>)
    requires base.letters == map[] && Run(cfg, base, h).Some?
    ensures Remembers(Run(cfg, base, h).value.letters, h)
  {
    hide Advance, Remembers, Retried;
    if h == [] {
      NothingRemembered(h);
    } else {
      var front, s := h[..|h| - 1], h[|h| - 1];
      assert h == front + [s];
      LettersRemember(cfg, base, front);
      var d := Run(cfg, base, front).value;
      if s.Stream? && s.lg.Key() !in d.letters { NotStreamedNotRetried(cfg, base, front, s.lg.Key()); }
      StepRemembers(cfg, d, front, s);
    }
  }

  lemma NothingRemembered(h: seq<Step>)
    ensures Remembers(map[], h)
  {
  }

  // ----- Why a letter waits -----

  /** What the last try of the key in vain said, counting the stream's own. */
  function LastWord(cfg: Config, base: Database, h: seq<Step>, k: LogKey): Option<Reason> {
    if h == [] then None
    else
      match Run(cfg, base, h[..|h| - 1])
      case None => None
      case Some(d) =>
        if InVain(cfg, d, h[|h| - 1], k).Some? then InVain(cfg, d, h[|h| - 1], k)
        else LastWord(cfg, base, h[..|h| - 1], k)
  }

  /** The reason the step gives for leaving the key's log unprojected. */
  function InVain(cfg: Config, d: Database, s: Step, k: LogKey): Option<Reason> {
    match s
    case Stream(lg, time) =>
      if lg.Key() == k && k !in d.letters && Apply(cfg, d.rows, lg, time).Unresolvable?
      then Some(Apply(cfg, d.rows, lg, time).reason) else None
    case Retry(key) =>
      if key == k && k in d.letters && Apply(cfg, d.rows, d.letters[k].lg, d.letters[k].time).Unresolvable?
      then Some(Apply(cfg, d.rows, d.letters[k].lg, d.letters[k].time).reason) else None
    case _ => None
  }

  lemma StepGivesReason(cfg: Config, d: Database, s: Step, k: LogKey)
    requires Advance(cfg, d, s).Some?
    ensures var after, said := Advance(cfg, d, s).value.letters, InVain(cfg, d, s, k);
      k in after ==> if said.Some? then after[k].reason == said.value
                     else k in d.letters && after[k].reason == d.letters[k].reason
  {
    hide Apply;
  }

  /** After any history a letter gives the reason of its last try in vain. */
  lemma {:induction false} LettersGiveLastReason(cfg: Config, base: Database, h: seq<Step>, k: LogKey)
    requires base.letters == map[] && Run(cfg, base, h).Some? && k in Run(cfg, base, h).value.letters
    ensures LastWord(cfg, base, h, k) == Some(Run(cfg, base, h).value.letters[k].reason)
  {
    hide Advance, InVain;
    if h != [] {
      var front := h[..|h| - 1];
      var d := Run(cfg, base, front).value;
      StepGivesReason(cfg, d, h[|h| - 1], k);
      if k in d.letters { LettersGiveLastReason(cfg, base, front, k); }
    }
  }
}
