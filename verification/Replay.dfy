/** The whole database as a replayed history: projected rows, parked letters and cursors. */
module Replay {
  import opened Prelude
  import opened Chain
  import opened Ledger
  import opened Projection
  import opened Feed

  /** A row of `IndexerDeadLetter`: the parked log, when its block was, and what became of it. */
  datatype Letter = Letter(lg: Log, time: int, reason: Reason, attempts: nat, resolved: bool)

  datatype Checkpoint = Checkpoint(block: nat, hash: string)

  datatype Database = Database(rows: Rows, letters: map<LogKey, Letter>, cursors: map<string, Checkpoint>)

  /** One committed action: a streamed log, a retried letter, an outside link, or a saved cursor. */
  datatype Step =
    | Stream(lg: Log, time: int)
    | Retry(key: LogKey)
    | Visit(merchant: MerchantId, onchainId: int)
    | Save(cursor: string, at: Checkpoint)

  /** `InsertDeadLetter`: a letter already on file stays. */
  function Park(letters: map<LogKey, Letter>, lg: Log, time: int, why: Reason): map<LogKey, Letter> {
    if lg.Key() in letters then letters else letters[lg.Key() := Letter(lg, time, why, 1, false)]
  }

  /** A log that cannot be projected leaves a letter and nothing else; a fatal one leaves no database at all. */
  function ApplyOrPark(cfg: Config, d: Database, lg: Log, time: int): Option<Database> {
    match Apply(cfg, d.rows, lg, time)
    case Written(rows) => Some(d.(rows := rows))
    case Unresolvable(why) => Some(d.(letters := Park(d.letters, lg, time, why)))
    case Fatal(_) => None
  }

  predicate Waiting(letters: map<LogKey, Letter>, key: LogKey) {
    key in letters && !letters[key].resolved
  }

  function Resolve(letters: map<LogKey, Letter>, key: LogKey): map<LogKey, Letter>
    requires key in letters
  {
    letters[key := letters[key].(resolved := true)]
  }

  function RecordAttempt(letters: map<LogKey, Letter>, key: LogKey, why: Reason): map<LogKey, Letter>
    requires key in letters
  {
    letters[key := letters[key].(attempts := letters[key].attempts + 1, reason := why)]
  }

  function RetryLetter(cfg: Config, d: Database, key: LogKey): Option<Database> {
    if !Waiting(d.letters, key) then None
    else
      match Apply(cfg, d.rows, d.letters[key].lg, d.letters[key].time)
      case Written(rows) => Some(d.(rows := rows, letters := Resolve(d.letters, key)))
      case Unresolvable(why) => Some(d.(letters := RecordAttempt(d.letters, key, why)))
      case Fatal(_) => None
  }

  function Advance(cfg: Config, d: Database, s: Step): Option<Database> {
    match s
    case Stream(lg, time) => ApplyOrPark(cfg, d, lg, time)
    case Retry(key) => RetryLetter(cfg, d, key)
    case Visit(m, id) => Some(d.(rows := LinkOutside(d.rows, m, id)))
    case Save(name, at) => Some(d.(cursors := d.cursors[name := at]))
  }

  function Run(cfg: Config, d: Database, h: seq<Step>): Option<Database> {
    if h == [] then Some(d)
    else
      match Run(cfg, d, h[..|h| - 1])
      case None => None
      case Some(before) => Advance(cfg, before, h[|h| - 1])
  }

  lemma {:induction false} RunConcat(cfg: Config, d: Database, g: seq<Step>, h: seq<Step>)
    ensures Run(cfg, d, g + h) == match Run(cfg, d, g) case None => None case Some(m) => Run(cfg, m, h)
  {
    hide Advance;
    if h == [] {
      assert g + h == g;
    } else {
      assert (g + h)[..|g + h| - 1] == g + h[..|h| - 1];
      RunConcat(cfg, d, g, h[..|h| - 1]);
    }
  }

  lemma RunOneMore(cfg: Config, d: Database, h: seq<Step>, s: Step)
    ensures Run(cfg, d, h + [s]) == match Run(cfg, d, h) case None => None case Some(m) => Advance(cfg, m, s)
  {
    hide Advance;
    assert (h + [s])[..|h + [s]| - 1] == h;
  }

  /** The logs the stream has passed, in order. */
  function StreamLogs(h: seq<Step>): seq<Log> {
    if h == [] then []
    else StreamLogs(h[..|h| - 1]) + (if h[|h| - 1].Stream? then [h[|h| - 1].lg] else [])
  }

  lemma {:induction false} StreamLogsConcat(g: seq<Step>, h: seq<Step>)
    ensures StreamLogs(g + h) == StreamLogs(g) + StreamLogs(h)
  {
    if h == [] {
      assert g + h == g;
    } else {
      assert (g + h)[..|g + h| - 1] == g + h[..|h| - 1];
      StreamLogsConcat(g, h[..|h| - 1]);
    }
  }

  // ----- The rows are a feed -----

  /** The log a step hands to `Apply`, or the outside link it makes. */
  function StepInput(d: Database, s: Step): seq<Input> {
    match s
    case Stream(lg, time) => [Logged(lg, time)]
    case Retry(key) => if key in d.letters then [Logged(d.letters[key].lg, d.letters[key].time)] else []
    case Visit(m, id) => [Linked(m, id)]
    case Save(_, _) => []
  }

  function Inputs(cfg: Config, d: Database, h: seq<Step>): seq<Input> {
    if h == [] then []
    else
      Inputs(cfg, d, h[..|h| - 1]) +
      (match Run(cfg, d, h[..|h| - 1]) case None => [] case Some(before) => StepInput(before, h[|h| - 1]))
  }

  lemma StepFeedsRows(cfg: Config, d: Database, s: Step)
    requires Advance(cfg, d, s).Some?
    ensures AbsorbAll(cfg, d.rows, StepInput(d, s)) == Some(Advance(cfg, d, s).value.rows)
  {
    hide Apply;
    var xs := StepInput(d, s);
    if xs != [] {
      assert xs[..|xs| - 1] == [];
      assert AbsorbAll(cfg, d.rows, []) == Some(d.rows);
    }
  }

  /**
   Everything proved of feeds holds of the whole system: after any history of streaming, retrying, outside links
   and saved cursors, the rows are what the feed of its inputs makes of the initial rows.
   */
  lemma {:induction false} RowsAreFed(cfg: Config, d: Database, h: seq<Step>)
    requires Run(cfg, d, h).Some?
    ensures AbsorbAll(cfg, d.rows, Inputs(cfg, d, h)) == Some(Run(cfg, d, h).value.rows)
  {
    hide Advance, StepInput, Absorb;
    if h != [] {
      var front := h[..|h| - 1];
      RowsAreFed(cfg, d, front);
      var before := Run(cfg, d, front).value;
      StepFeedsRows(cfg, before, h[|h| - 1]);
      AbsorbConcat(cfg, d.rows, Inputs(cfg, d, front), StepInput(before, h[|h| - 1]));
    }
  }

  // ----- What landed -----

  /** A log whose projection is in the tables, and whether a retry put it there. */
  datatype Landing = Landing(lg: Log, time: int, retried: bool)

  function StepLanding(cfg: Config, d: Database, s: Step): seq<Landing> {
    match s
    case Stream(lg, time) => if Apply(cfg, d.rows, lg, time).Written? then [Landing(lg, time, false)] else []
    case Retry(key) =>
      if Waiting(d.letters, key) && Apply(cfg, d.rows, d.letters[key].lg, d.letters[key].time).Written?
      then [Landing(d.letters[key].lg, d.letters[key].time, true)] else []
    case _ => []
  }

  function Landings(cfg: Config, d: Database, h: seq<Step>): seq<Landing> {
    if h == [] then []
    else
      Landings(cfg, d, h[..|h| - 1]) +
      (match Run(cfg, d, h[..|h| - 1]) case None => [] case Some(before) => StepLanding(cfg, before, h[|h| - 1]))
  }

  /** The landed logs and the outside links, in the order they took effect. */
  function Effects(cfg: Config, d: Database, h: seq<Step>): seq<Input> {
    if h == [] then []
    else
      Effects(cfg, d, h[..|h| - 1]) +
      (match Run(cfg, d, h[..|h| - 1]) case None => [] case Some(before) => StepEffect(cfg, before, h[|h| - 1]))
  }

  function StepEffect(cfg: Config, d: Database, s: Step): seq<Input> {
    if s.Visit? then [Linked(s.merchant, s.onchainId)]
    else if StepLanding(cfg, d, s) != [] then [Logged(StepLanding(cfg, d, s)[0].lg, StepLanding(cfg, d, s)[0].time)]
    else []
  }

  lemma StepEffectFeedsRows(cfg: Config, d: Database, s: Step)
    requires Advance(cfg, d, s).Some?
    ensures AbsorbAll(cfg, d.rows, StepEffect(cfg, d, s)) == Some(Advance(cfg, d, s).value.rows)
  {
    hide Apply;
    var xs := StepEffect(cfg, d, s);
    if xs != [] {
      assert xs[..|xs| - 1] == [];
      assert AbsorbAll(cfg, d.rows, []) == Some(d.rows);
    }
  }

  /**
   A parked log has written nothing: the rows are exactly what the landed logs and outside links alone make of the
   initial rows.
   */
  lemma {:induction false} ParkedLogsLeaveNoTrace(cfg: Config, d: Database, h: seq<Step>)
    requires Run(cfg, d, h).Some?
    ensures AbsorbAll(cfg, d.rows, Effects(cfg, d, h)) == Some(Run(cfg, d, h).value.rows)
  {
    hide Advance, StepEffect, Absorb;
    if h != [] {
      var front := h[..|h| - 1];
      ParkedLogsLeaveNoTrace(cfg, d, front);
      var before := Run(cfg, d, front).value;
      StepEffectFeedsRows(cfg, before, h[|h| - 1]);
      AbsorbConcat(cfg, d.rows, Effects(cfg, d, front), StepEffect(cfg, before, h[|h| - 1]));
    }
  }
}
