/**
 The store: one Postgres database behind a connection that may fail at any statement. Every projection method issues
 its statements one by one and is proved to do what `Projection` says, or to report the interruption.
 */
module Store {
  import opened Prelude
  import opened Chain
  import opened Ledger
  import opened Projection
  import opened Replay
  import opened Feed
  import Decimal

  /** What the next statement meets: nothing, a broken connection, SQLSTATE 40001, or a reply lost after the effect. */
  datatype Fault = Healthy | Broken | Conflict | LostReply

  ghost predicate Calm(faults: seq<Fault>) {
    forall i :: 0 <= i < |faults| ==> faults[i] == Healthy
  }

  /** How a projection method ends. */
  datatype Verdict = Done | Parked(reason: Reason) | Erred(why: Failure)

  /** The failure comes from the connection, not from the data. */
  predicate Transient(why: Failure) { why.Outage? || why.SerializationFailure? }

  predicate Interrupted(v: Verdict) { v.Erred? && Transient(v.why) }

  /** The method did what the projection says, with the transaction still usable unless it failed. */
  predicate Carried(v: Verdict, after: Rows, aborted: bool, e: Effect) {
    match e
    case Written(rows) => v == Done && after == rows && !aborted
    case Unresolvable(why) => v == Parked(why) && !aborted
    case Fatal(why) => v == Erred(why)
  }

  lemma EventsInOrder(
      outbox: seq<WebhookEvent>, invoices: map<SessionId, Invoice>, ref: SessionId, key: LogKey, t: Transaction)
    ensures var completed := WebhookEvent(t.merchant, t.mode, PaymentCompleted(ref, key));
      outbox + PaymentEvents(invoices, Some(ref), key, t) ==
      if Payable(invoices, ref) then
        outbox + [completed] + [WebhookEvent(t.merchant, t.mode, InvoicePaid(invoices[ref].id, key))]
      else outbox + [completed]
  {
  }

  /** `errors.Join` keeps the first error's kind, unless only the second carries an SQLSTATE. */
  function Joined(v: Verdict, second: Failure): Verdict {
    if v.Erred? && (v.why.NoPayoutAddress? || v.why.MissingTimestamp?) && second.SerializationFailure?
    then Erred(second) else v
  }

  const CORE_CURSOR := "strimz-core"

  /** What `RunBatch` is asked to do: a batch of the stream with its cursor, or one more try of a parked log. */
  datatype Work =
    | StreamBatch(logs: seq<Log>, times: map<nat, int>, at: Checkpoint)
    | RetryWork(id: LogKey, letter: Letter)

  /** A missing block reads as Go's zero time. */
  function TimeOf(times: map<nat, int>, block: nat): int {
    if block in times then times[block] else ZERO_TIME
  }

  function StreamSteps(logs: seq<Log>, times: map<nat, int>): seq<Step> {
    if logs == [] then []
    else StreamSteps(logs[..|logs| - 1], times) + [Stream(logs[|logs| - 1], TimeOf(times, logs[|logs| - 1].block))]
  }

  function WorkSteps(work: Work): seq<Step> {
    match work
    case StreamBatch(logs, times, at) => StreamSteps(logs, times) + [Save(CORE_CURSOR, at)]
    case RetryWork(id, _) => [Retry(id)]
  }

  /** A letter is retried as it was read. */
  predicate Ready(work: Work, letters: map<LogKey, Letter>) {
    work.RetryWork? ==> Waiting(letters, work.id) && letters[work.id] == work.letter
  }

  predicate Visits(steps: seq<Step>) {
    forall i :: 0 <= i < |steps| ==> steps[i].Visit?
  }

  lemma {:induction false} VisitsKeepLetters(cfg: Config, d: Database, steps: seq<Step>)
    requires Visits(steps)
    ensures Run(cfg, d, steps).Some? && Run(cfg, d, steps).value.letters == d.letters
    ensures Run(cfg, d, steps).value.cursors == d.cursors
  {
    if steps != [] {
      VisitsKeepLetters(cfg, d, steps[..|steps| - 1]);
    }
  }

  lemma NothingRun(cfg: Config, d: Database)
    ensures Run(cfg, d, []) == Some(d)
  {
  }

  /** A log that fails the batch fails it however it goes on. */
  lemma StopsAt(cfg: Config, d: Database, before: seq<Step>, s: Step, after: seq<Step>)
    requires Run(cfg, d, before).Some? && Advance(cfg, Run(cfg, d, before).value, s) == None
    ensures Run(cfg, d, before + [s] + after) == None
  {
    hide Advance;
    RunOneMore(cfg, d, before, s);
    RunConcat(cfg, d, before + [s], after);
  }

  lemma OneMoreLog(logs: seq<Log>, times: map<nat, int>, i: nat)
    requires i < |logs|
    ensures StreamSteps(logs[..i + 1], times) ==
      StreamSteps(logs[..i], times) + [Stream(logs[i], TimeOf(times, logs[i].block))]
  {
    assert logs[..i + 1][..i] == logs[..i];
  }

  lemma {:induction false} StepsSplit(logs: seq<Log>, times: map<nat, int>, i: nat) returns (rest: seq<Step>)
    requires i <= |logs|
    ensures StreamSteps(logs, times) == StreamSteps(logs[..i], times) + rest
  {
    if i == |logs| {
      assert logs[..i] == logs;
      rest := [];
    } else {
      var last := |logs| - 1;
      rest := StepsSplit(logs[..last], times, i);
      assert logs[..last][..i] == logs[..i];
      rest := rest + [Stream(logs[last], TimeOf(times, logs[last].block))];
    }
  }

  lemma StreamFails(
      cfg: Config, start: Database, before: Database, logs: seq<Log>, times: map<nat, int>, i: nat, at: Checkpoint)
    requires i < |logs| && Run(cfg, start, StreamSteps(logs[..i], times)) == Some(before)
    requires Apply(cfg, before.rows, logs[i], TimeOf(times, logs[i].block)).Fatal?
    ensures Run(cfg, start, WorkSteps(StreamBatch(logs, times, at))) == None
  {
    hide Apply, Run;
    var s := Stream(logs[i], TimeOf(times, logs[i].block));
    OneMoreLog(logs, times, i);
    var rest := StepsSplit(logs, times, i + 1);
    StopsAt(cfg, start, StreamSteps(logs[..i], times), s, rest + [Save(CORE_CURSOR, at)]);
    assert StreamSteps(logs, times) + [Save(CORE_CURSOR, at)] ==
           StreamSteps(logs[..i], times) + [s] + (rest + [Save(CORE_CURSOR, at)]);
  }

  /** A cursor never saved reads as block 0 without a hash. */
  function CursorAt(cursors: map<string, Checkpoint>, cursor: string): Checkpoint {
    if cursor in cursors then cursors[cursor] else Checkpoint(0, "")
  }

  lemma VisitAdvances(cfg: Config, d: Database, m: MerchantId, id: int)
    ensures Advance(cfg, d, Visit(m, id)) == Some(d.(rows := LinkOutside(d.rows, m, id)))
  {
  }

  /** A parked log as a query returns it. */
  datatype Filing = Filing(id: LogKey, letter: Letter)

  /** The earliest `limit` waiting letters in `(block, logIndex)` order: nothing left out comes before a listed one. */
  ghost predicate Listed(letters: map<LogKey, Letter>, found: seq<Filing>, limit: nat) {
    && |found| <= limit
    && (forall i :: 0 <= i < |found| ==> Waiting(letters, found[i].id) && letters[found[i].id] == found[i].letter)
    && (forall i, j :: 0 <= i < j < |found| ==>
          found[i].id != found[j].id && !Less(found[j].letter.lg, found[i].letter.lg))
    && (forall k :: Waiting(letters, k) ==>
          (exists i :: 0 <= i < |found| && found[i].id == k) ||
          (|found| == limit && forall i :: 0 <= i < |found| ==> !Less(letters[k].lg, found[i].letter.lg)))
  }

  function WaitingKeys(letters: map<LogKey, Letter>): (keys: set<LogKey>)
    ensures forall k :: k in keys <==> Waiting(letters, k)
  {
    set k | k in letters && !letters[k].resolved
  }

  predicate NoneBefore(letters: map<LogKey, Letter>, keys: set<LogKey>, lg: Log) {
    forall k :: k in keys && k in letters ==> !Less(letters[k].lg, lg)
  }

  lemma {:induction false} EarliestExists(letters: map<LogKey, Letter>, keys: set<LogKey>) returns (k: LogKey)
    requires keys != {} && forall j :: j in keys ==> j in letters
    ensures k in keys && NoneBefore(letters, keys, letters[k].lg)
  {
    k :| k in keys;
    var others := keys - {k};
    assert forall j :: j in keys ==> j == k || j in others;
    if others != {} {
      var first := EarliestExists(letters, others);
      if Less(letters[first].lg, letters[k].lg) { k := first; }
    }
  }

  /** Every waiting letter is either listed or still to be listed. */
  ghost predicate Divided(letters: map<LogKey, Letter>, found: seq<Filing>, left: set<LogKey>) {
    && (forall k :: k in left ==> Waiting(letters, k))
    && (forall k :: Waiting(letters, k) ==> k in left || exists i :: 0 <= i < |found| && found[i].id == k)
    && (forall i :: 0 <= i < |found| ==>
          Waiting(letters, found[i].id) && found[i].id !in left && letters[found[i].id] == found[i].letter)
  }

  ghost predicate Ranked(letters: map<LogKey, Letter>, found: seq<Filing>, left: set<LogKey>) {
    && (forall i, j :: 0 <= i < j < |found| ==>
          found[i].id != found[j].id && !Less(found[j].letter.lg, found[i].letter.lg))
    && (forall i :: 0 <= i < |found| ==> NoneBefore(letters, left, found[i].letter.lg))
  }

  lemma DividedOneMore(letters: map<LogKey, Letter>, found: seq<Filing>, left: set<LogKey>, k: LogKey)
    requires Divided(letters, found, left) && k in left
    ensures Divided(letters, found + [Filing(k, letters[k])], left - {k})
  {
    var more := found + [Filing(k, letters[k])];
    assert more[|found|].id == k;
    forall j | Waiting(letters, j) && j !in left - {k} ensures exists i :: 0 <= i < |more| && more[i].id == j {
      if j != k {
        var i :| 0 <= i < |found| && found[i].id == j;
        assert more[i].id == j;
      }
    }
  }

  lemma RankedOneMore(letters: map<LogKey, Letter>, found: seq<Filing>, left: set<LogKey>, k: LogKey)
    requires Divided(letters, found, left) && Ranked(letters, found, left)
    requires k in left && NoneBefore(letters, left, letters[k].lg)
    ensures Ranked(letters, found + [Filing(k, letters[k])], left - {k})
  {
    hide Less;
    var more := found + [Filing(k, letters[k])];
    forall i | 0 <= i < |more| ensures NoneBefore(letters, left - {k}, more[i].letter.lg) {
      assert NoneBefore(letters, left, more[i].letter.lg);
    }
    forall i | 0 <= i < |found| ensures !Less(letters[k].lg, found[i].letter.lg) {
      assert NoneBefore(letters, left, found[i].letter.lg);
    }
  }

  lemma NothingEarlierIsLeft(letters: map<LogKey, Letter>, found: seq<Filing>, left: set<LogKey>, limit: nat)
    requires |found| <= limit && (|found| < limit ==> left == {})
    requires Divided(letters, found, left) && Ranked(letters, found, left)
    ensures Listed(letters, found, limit)
  {
  }

  /** `ORDER BY "blockNumber", "logIndex" LIMIT limit`. */
  method InOrderUpTo(letters: map<LogKey, Letter>, limit: nat) returns (found: seq<Filing>)
    ensures Listed(letters, found, limit)
  {
    hide Waiting, NoneBefore, Less;
    found := [];
    var left := WaitingKeys(letters);
    while |found| < limit && left != {}
      invariant |found| <= limit && Divided(letters, found, left) && Ranked(letters, found, left)
      decreases |left|
    {
      ghost var first := EarliestExists(letters, left);
      var k :| k in left && NoneBefore(letters, left, letters[k].lg);
      DividedOneMore(letters, found, left, k);
      RankedOneMore(letters, found, left, k);
      found, left := found + [Filing(k, letters[k])], left - {k};
    }
    NothingEarlierIsLeft(letters, found, left, limit);
  }

  class Store {
    const cfg: Config
    var committed: Database
    // The open transaction's private copy.
    var open: bool
    var aborted: bool
    var rows: Rows
    var letters: map<LogKey, Letter>
    var cursors: map<string, Checkpoint>
    // What the next statements meet, and what other writers do before the next transactions begin.
    var faults: seq<Fault>
    var visits: seq<Option<(MerchantId, int)>>
    ghost var base: Database
    ghost var history: seq<Step>

    constructor (cfg: Config, committed: Database, faults: seq<Fault>, visits: seq<Option<(MerchantId, int)>>)
      ensures this.cfg == cfg && this.committed == committed && !open && this.faults == faults && this.visits == visits
      ensures base == committed && history == []
    {
      this.cfg, this.committed, this.faults, this.visits := cfg, committed, faults, visits;
      open, aborted := false, false;
      rows, letters, cursors := committed.rows, committed.letters, committed.cursors;
      base, history := committed, [];
    }

    /** The committed database is the replay of the committed history. */
    ghost predicate Consistent()
      reads this
    {
      Run(cfg, base, history) == Some(committed)
    }

    function Working(): Database
      reads this
    {
      Database(rows, letters, cursors)
    }

    /** One statement's luck. After a failed statement Postgres rejects everything until a rollback. */
    method Statement() returns (f: Option<Failure>)
      modifies this`faults, this`aborted
      ensures f.None? ==> !aborted && !old(aborted)
      ensures f.Some? ==> aborted && Transient(f.value) && (old(aborted) || !Calm(old(faults)))
      ensures f == Some(SerializationFailure) ==> old(faults) != [] && old(faults)[0] == Conflict
      ensures Calm(old(faults)) ==> Calm(faults)
    {
      if aborted { return Some(Outage); }
      if faults == [] { return None; }
      var next := faults[0];
      faults := faults[1..];
      if next == Healthy { return None; }
      aborted := true;
      f := Some(if next == Conflict then SerializationFailure else Outage);
    }

    // ----- Merchant registry -----

    method LinkOnchainMerchant(lg: Log, time: int, e: Event) returns (v: Verdict)
      requires open && !aborted && e.MerchantRegistered?
      modifies this`rows, this`faults, this`aborted
      ensures (Interrupted(v) && !Calm(old(faults))) || Carried(v, rows, aborted, LinkMerchant(old(rows), lg, time, e))
      ensures Calm(old(faults)) ==> Calm(faults)
    {
      var f := Statement();
      if f.Some? { return Erred(f.value); }
      var holder, registered := FindMerchant(rows, e.merchant), RegisteredRow(rows, e.merchant, lg.tx);
      if holder.Some? && registered.Some? && holder != registered {
        aborted := true;
        return Erred(UniqueViolation);
      }
      var m := if holder.Some? then holder else registered;
      if m.Some? {
        var row := Merchant(Payout(rows, m.value), e.feeBps, e.maxFeeBps, Some(lg.tx), Some(time));
        rows := rows.(links := rows.links[e.merchant := m.value], merchants := rows.merchants[m.value := row]);
      }
      v := Done;
    }

    method UpdateMerchantPayoutAddress(e: Event) returns (v: Verdict)
      requires open && !aborted && e.PayoutUpdated?
      modifies this`rows, this`faults, this`aborted
      ensures (Interrupted(v) && !Calm(old(faults))) || Carried(v, rows, aborted, Written(SetPayout(old(rows), e)))
      ensures Calm(old(faults)) ==> Calm(faults)
    {
      var f := Statement();
      if f.Some? { return Erred(f.value); }
      var m := FindMerchant(rows, e.merchant);
      if m.Some? && m.value in rows.merchants {
        rows := rows.(merchants := rows.merchants[m.value := rows.merchants[m.value].(payout := e.payout)]);
      }
      v := Done;
    }

    /** An audit row with a random id. */
    method AppendAudit(row: AuditRow) returns (f: Option<Failure>)
      requires !aborted
      modifies this`rows, this`faults, this`aborted
      ensures f.None? ==> !aborted && rows == old(rows).(audits := old(rows).audits + [row])
      ensures f.Some? ==> aborted && Transient(f.value) && !Calm(old(faults)) && rows == old(rows)
      ensures Calm(old(faults)) ==> Calm(faults)
    {
      f := Statement();
      if f.None? { rows := rows.(audits := rows.audits + [row]); }
    }

    /** `insertOutboxEvent`. */
    method InsertOutboxEvent(event: WebhookEvent) returns (f: Option<Failure>)
      requires !aborted
      modifies this`rows, this`faults, this`aborted
      ensures f.None? ==> !aborted && rows == old(rows).(outbox := old(rows).outbox + [event])
      ensures f.Some? ==> aborted && Transient(f.value) && !Calm(old(faults)) && rows == old(rows)
      ensures Calm(old(faults)) ==> Calm(faults)
    {
      f := Statement();
      if f.None? { rows := rows.(outbox := rows.outbox + [event]); }
    }

    method SetMerchantOnchainFeeBps(lg: Log, time: int, e: Event) returns (v: Verdict)
      requires open && !aborted && e.FeeUpdated?
      modifies this`rows, this`faults, this`aborted
      ensures (Interrupted(v) && !Calm(old(faults)))
        || Carried(v, rows, aborted, Written(SetFee(old(rows), lg, time, e)))
      ensures Calm(old(faults)) ==> Calm(faults)
    {
      var f := Statement();
      if f.Some? { return Erred(f.value); }
      var m := FindMerchant(rows, e.merchant);
      if m.Some? && m.value in rows.merchants {
        rows := rows.(merchants := rows.merchants[m.value :=
          rows.merchants[m.value].(feeBps := e.feeBps, feeTx := Some(lg.tx), feeChangedAt := Some(time))]);
      }
      f := AppendAudit(AuditRow(None, "merchant.fee_bps_changed_onchain", OnOnchainMerchant(e.merchant)));
      if f.Some? { return Erred(f.value); }
      v := Done;
    }

    // ----- Audit rows with an id derived from the log -----

    method InsertOnchainAudit(key: LogKey, row: AuditRow) returns (f: Option<Failure>)
      requires !aborted
      modifies this`rows, this`faults, this`aborted
      ensures f.None? ==>
        !aborted && rows == old(rows).(onchainAudits := InsertIfAbsent(old(rows).onchainAudits, key, row))
      ensures f.Some? ==> aborted && Transient(f.value) && !Calm(old(faults))
      ensures Calm(old(faults)) ==> Calm(faults)
    {
      f := Statement();
      if f.None? && key !in rows.onchainAudits {
        rows := rows.(onchainAudits := rows.onchainAudits[key := row]);
      }
    }

    method InsertContractAlert(key: LogKey) returns (f: Option<Failure>)
      requires !aborted
      modifies this`rows, this`faults, this`aborted
      ensures f.None? ==> !aborted && rows == old(rows).(contractAlerts := old(rows).contractAlerts + {key})
      ensures f.Some? ==> aborted && Transient(f.value) && !Calm(old(faults))
      ensures Calm(old(faults)) ==> Calm(faults)
    {
      f := Statement();
      if f.None? { rows := rows.(contractAlerts := rows.contractAlerts + {key}); }
    }

    method LogMerchantGovernance(lg: Log, e: Event) returns (v: Verdict)
      requires open && !aborted && e.Governance?
      modifies this`rows, this`faults, this`aborted
      ensures (Interrupted(v) && !Calm(old(faults)))
        || Carried(v, rows, aborted, Written(LogGovernance(old(rows), lg, e)))
      ensures Calm(old(faults)) ==> Calm(faults)
    {
      var f := Statement();
      if f.Some? { return Erred(f.value); }
      var linked := FindMerchant(rows, e.merchant);
      f := InsertOnchainAudit(lg.Key(), AuditRow(linked, e.action, GovernanceTarget(linked, e.merchant)));
      if f.Some? { return Erred(f.value); }
      if !e.alert { return Done; }
      f := InsertContractAlert(lg.Key());
      if f.Some? { return Erred(f.value); }
      if linked.None? { return Done; }
      f := Statement();
      if f.Some? { return Erred(f.value); }
      if lg.Key() !in rows.securityAlerts {
        rows := rows.(securityAlerts := rows.securityAlerts[lg.Key() := linked.value]);
      }
      v := Done;
    }

    method LogContractOperation(lg: Log, e: Event) returns (v: Verdict)
      requires open && !aborted && e.Operation?
      modifies this`rows, this`faults, this`aborted
      ensures (Interrupted(v) && !Calm(old(faults)))
        || Carried(v, rows, aborted, Written(LogOperation(old(rows), lg, e)))
      ensures Calm(old(faults)) ==> Calm(faults)
    {
      var f := InsertOnchainAudit(lg.Key(), AuditRow(None, e.action, OnContract(lg.address)));
      if f.Some? { return Erred(f.value); }
      if e.alert {
        f := InsertContractAlert(lg.Key());
        if f.Some? { return Erred(f.value); }
      }
      v := Done;
    }

    // ----- One-shot payments -----

    method MarkSessionConfirmed(ref: SessionId, tx: Hash, payer: Address) returns (f: Option<Failure>)
      requires !aborted && ref in rows.sessions
      modifies this`rows, this`faults, this`aborted
      ensures f.None? ==>
        !aborted && rows == old(rows).(sessions := ConfirmSession(old(rows).sessions, Some(ref), tx, payer))
      ensures f.Some? ==> Transient(f.value) && !Calm(old(faults))
      ensures Calm(old(faults)) ==> Calm(faults)
    {
      f := Statement();
      if f.None? && rows.sessions[ref].status != Confirmed {
        rows := rows.(sessions := rows.sessions[ref :=
          rows.sessions[ref].(status := Confirmed, tx := Some(tx), payer := Some(payer))]);
      }
    }

    /** `RETURNING id`: the invoice that made the transition to paid, if one did. */
    method MarkInvoicePaid(ref: SessionId) returns (f: Option<Failure>, invoice: Option<string>)
      requires !aborted
      modifies this`rows, this`faults, this`aborted
      ensures f.None? ==> !aborted && rows == old(rows).(invoices := SettleInvoice(old(rows).invoices, Some(ref)))
      ensures f.None? ==> invoice == if Payable(old(rows).invoices, ref) then Some(old(rows).invoices[ref].id) else None
      ensures f.Some? ==> Transient(f.value) && !Calm(old(faults))
      ensures Calm(old(faults)) ==> Calm(faults)
    {
      invoice := None;
      f := Statement();
      if f.None? && Payable(rows.invoices, ref) {
        invoice := Some(rows.invoices[ref].id);
        rows := rows.(invoices := rows.invoices[ref := rows.invoices[ref].(status := Paid)]);
      }
    }

    /** Confirms the session, announces the payment, and settles the session's invoice if it has one to pay. */
    method SettlePaidSession(ref: SessionId, key: LogKey, t: Transaction) returns (f: Option<Failure>)
      requires !aborted && ref in rows.sessions
      modifies this`rows, this`faults, this`aborted
      ensures f.None? ==> !aborted && rows == old(rows).(
        sessions := ConfirmSession(old(rows).sessions, Some(ref), key.tx, t.payer),
        invoices := SettleInvoice(old(rows).invoices, Some(ref)),
        outbox := old(rows).outbox + PaymentEvents(old(rows).invoices, Some(ref), key, t))
      ensures f.Some? ==> Transient(f.value) && !Calm(old(faults))
      ensures Calm(old(faults)) ==> Calm(faults)
    {
      hide *;
      ghost var before := rows;
      f := MarkSessionConfirmed(ref, key.tx, t.payer);
      if f.Some? { return; }
      f := InsertOutboxEvent(WebhookEvent(t.merchant, t.mode, PaymentCompleted(ref, key)));
      if f.Some? { return; }
      var invoice;
      f, invoice := MarkInvoicePaid(ref);
      if f.Some? { return; }
      EventsInOrder(before.outbox, before.invoices, ref, key, t);
      if invoice.Some? {
        f := InsertOutboxEvent(WebhookEvent(t.merchant, t.mode, InvoicePaid(invoice.value, key)));
      }
    }

    method InsertOneShotTransaction(lg: Log, time: int, e: Event) returns (v: Verdict)
      requires open && !aborted && e.PaymentExecuted?
      modifies this`rows, this`faults, this`aborted
      ensures (Interrupted(v) && !Calm(old(faults)))
        || Carried(v, rows, aborted, InsertPayment(cfg, old(rows), lg, time, e))
      ensures Calm(old(faults)) ==> Calm(faults)
    {
      hide DecodeSessionRef, Mismatches, Decimal.Print;
      if e.token !in cfg.tokens { return Parked(UnknownToken); }
      var ref := DecodeSessionRef(e.ref);
      var f := None;
      if ref != "" {
        f := Statement();
        if f.Some? { return Erred(f.value); }
      }
      var known := ref != "" && ref in rows.sessions;
      f := Statement();
      if f.Some? { return Erred(f.value); }
      var m := FindMerchant(rows, e.merchant);
      if m.None? { return Parked(UnlinkedMerchant); }

      var t := PaymentRow(cfg, rows, m.value, lg, time, e);
      var reasons := if known then Mismatches(rows, ref, rows.sessions[ref], t) else [];
      var settles := known && reasons == [];
      f := Statement();
      if f.Some? { return Erred(f.value); }
      if lg.Key() in rows.transactions { return Done; }
      ghost var before := rows;
      rows := rows.(
        transactions := rows.transactions[lg.Key() := t.(source := OneShot(if settles then Some(ref) else None))]);

      if known && reasons != [] {
        f := AppendAudit(AuditRow(Some(t.merchant), "payment.session_mismatch", OnSession(ref, reasons)));
        if f.Some? { return Erred(f.value); }
      }
      if settles {
        f := SettlePaidSession(ref, lg.Key(), t);
        if f.Some? { return Erred(f.value); }
      }
      assert rows == RecordPayment(before, lg.Key(), ref, t);
      v := Done;
    }

    // ----- Subscriptions -----

    method UpsertSubscriptionFromOnchain(lg: Log, time: int, e: Event) returns (v: Verdict)
      requires open && !aborted && e.SubscriptionCreated?
      modifies this`rows, this`faults, this`aborted
      ensures (Interrupted(v) && !Calm(old(faults))) || Carried(v, rows, aborted, Enrol(cfg, old(rows), lg, time, e))
      ensures Calm(old(faults)) ==> Calm(faults)
    {
      hide Decimal.Print;
      if e.token !in cfg.tokens { return Parked(UnknownToken); }
      if time == ZERO_TIME { return Erred(MissingTimestamp); }
      var f := Statement();
      if f.Some? { return Erred(f.value); }
      var m := FindMerchant(rows, e.merchant);
      if m.None? { return Parked(UnlinkedMerchant); }
      f := Statement();
      if f.Some? { return Erred(f.value); }
      if e.sub in rows.subscriptions { return Done; }
      if EnrolmentTaken(rows, lg.tx) {
        aborted := true;
        return Erred(UniqueViolation);
      }
      var s := NewSubscription(m.value, cfg, lg, time, e);
      rows := rows.(subscriptions := rows.subscriptions[e.sub := s]);
      f := InsertOutboxEvent(WebhookEvent(s.merchant, s.mode, SubscriptionEnrolled(e.sub)));
      if f.Some? { return Erred(f.value); }
      v := Done;
    }

    method InsertSubscriptionCharge(lg: Log, time: int, e: Event) returns (v: Verdict)
      requires open && !aborted && e.SubscriptionCharged?
      modifies this`rows, this`faults, this`aborted
      ensures (Interrupted(v) && !Calm(old(faults)))
        || Carried(v, rows, aborted, InsertCharge(cfg, old(rows), lg, time, e))
      ensures Calm(old(faults)) ==> Calm(faults)
    {
      hide Decimal.Print;
      var f := Statement();
      if f.Some? { return Erred(f.value); }
      if e.sub !in rows.subscriptions || rows.subscriptions[e.sub].merchant !in rows.merchants {
        return Parked(UnknownSubscription);
      }
      var s := rows.subscriptions[e.sub];
      var payout := Payout(rows, s.merchant);
      if payout == "" { return Erred(NoPayoutAddress); }

      f := Statement();
      if f.Some? { return Erred(f.value); }
      ghost var before := rows;
      var isNewTx := lg.Key() !in rows.transactions;
      if e.attempt !in rows.charges {
        rows := rows.(charges := rows.charges[e.attempt := NewChargeRow(s, lg, time, e)]);
      } else if rows.charges[e.attempt].status == Failed {
        rows := rows.(
          charges := rows.charges[e.attempt := Upgraded(rows.charges[e.attempt], s.nextChargeAt, lg, time, e)]);
      } else {
        // Nothing was written: fetch the existing row's id.
        f := Statement();
        if f.Some? { return Erred(f.value); }
        assert rows.charges[e.attempt := rows.charges[e.attempt]] == rows.charges;
      }

      f := Statement();
      if f.Some? { return Erred(f.value); }
      if isNewTx && ChargeIsLinked(rows, e.attempt) {
        aborted := true;
        return Erred(UniqueViolation);
      }
      var t := ChargeTransaction(cfg, s, payout, lg, time, e);
      if isNewTx {
        rows := rows.(transactions := rows.transactions[lg.Key() := t]);
      }

      f := Statement();
      if f.Some? { return Erred(f.value); }
      rows := rows.(subscriptions := rows.subscriptions[e.sub := PaidUp(rows.subscriptions[e.sub], e.nextChargeAt)]);

      if isNewTx {
        f := InsertOutboxEvent(WebhookEvent(s.merchant, cfg.mode, ChargeSucceeded(e.sub, e.attempt, lg.Key())));
        if f.Some? { return Erred(f.value); }
      }
      assert rows == SettleCharge(
        before, e.sub, e.attempt, ChargedRow(before, lg, time, e), PaidUp(s, e.nextChargeAt), lg.Key(), t);
      v := Done;
    }

    method RecordSubscriptionPeriodsSkipped(e: Event) returns (v: Verdict)
      requires open && !aborted && e.PeriodsSkipped?
      modifies this`rows, this`faults, this`aborted
      ensures (Interrupted(v) && !Calm(old(faults))) || Carried(v, rows, aborted, MovePeriodStart(old(rows), e))
      ensures Calm(old(faults)) ==> Calm(faults)
    {
      var f := Statement();
      if f.Some? { return Erred(f.value); }
      if e.sub !in rows.subscriptions { return Parked(UnknownSubscription); }
      var s := rows.subscriptions[e.sub];
      rows := rows.(subscriptions := rows.subscriptions[e.sub := s.(nextChargeAt := e.paidPeriodStart)]);
      f := AppendAudit(AuditRow(Some(s.merchant), "subscription.periods_skipped", OnSubscription(e.sub)));
      if f.Some? { return Erred(f.value); }
      v := Done;
    }

    method InsertSubscriptionChargeSkip(time: int, e: Event) returns (v: Verdict)
      requires open && !aborted && e.ChargeSkipped?
      modifies this`rows, this`faults, this`aborted
      ensures (Interrupted(v) && !Calm(old(faults))) || Carried(v, rows, aborted, InsertChargeSkip(old(rows), time, e))
      ensures Calm(old(faults)) ==> Calm(faults)
    {
      var f := Statement();
      if f.Some? { return Erred(f.value); }
      if e.sub !in rows.subscriptions { return Parked(UnknownSubscription); }
      var s := rows.subscriptions[e.sub];
      ghost var before := rows;

      f := Statement();
      if f.Some? { return Erred(f.value); }
      var isNewFailure := e.attempt !in rows.charges;
      if isNewFailure {
        rows := rows.(charges := rows.charges[e.attempt := NewFailedRow(s, time, e)]);
      }
      if !isNewFailure && e.outcome.IsPaymentFailure() {
        f := Statement();
        if f.Some? { return Erred(f.value); }
        var c := rows.charges[e.attempt];
        if c.status == Failed && c.executedAt.Some? && c.executedAt.value < time {
          rows := rows.(charges := rows.charges[e.attempt := FailedAgain(c, time, e)]);
          isNewFailure := true;
        }
      }
      assert isNewFailure == IsNewFailure(before, e.attempt, e.outcome, time);
      if !isNewFailure { return Done; }
      assert rows == before.(charges := before.charges[e.attempt := FailedRow(before, time, e)]);
      if e.outcome.IsPaymentFailure() {
        f := InsertOutboxEvent(WebhookEvent(s.merchant, s.mode, ChargeFailed(e.sub, e.attempt)));
        if f.Some? { return Erred(f.value); }
        f := Statement();
        if f.Some? { return Erred(f.value); }
        rows := rows.(subscriptions := rows.subscriptions[e.sub := Defaulted(s, time)]);
      }
      assert rows == RecordFailure(before, time, e);
      v := Done;
    }

    method MarkSubscriptionCancelled(lg: Log, time: int, e: Event) returns (v: Verdict)
      requires open && !aborted && e.SubscriptionCancelled?
      modifies this`rows, this`faults, this`aborted
      ensures (Interrupted(v) && !Calm(old(faults)))
        || Carried(v, rows, aborted, CancelSubscription(old(rows), lg, time, e))
      ensures Calm(old(faults)) ==> Calm(faults)
    {
      var f := Statement();
      if f.Some? { return Erred(f.value); }
      if e.sub in rows.subscriptions && !IsOver(rows.subscriptions[e.sub]) {
        var s := rows.subscriptions[e.sub];
        rows := rows.(subscriptions := rows.subscriptions[e.sub :=
          Withdrawn(s, time, CancellationReason(e.canceller, lg.tx))]);
        return Done;
      }
      f := Statement();
      if f.Some? { return Erred(f.value); }
      if e.sub !in rows.subscriptions { return Parked(UnknownSubscription); }
      assert rows.subscriptions[e.sub := rows.subscriptions[e.sub]] == rows.subscriptions;
      v := Done;
    }

    // ----- Refunds and agent jobs -----

    method CompleteRefundByTxHash(lg: Log, time: int) returns (v: Verdict)
      requires open && !aborted
      modifies this`rows, this`faults, this`aborted
      ensures (Interrupted(v) && !Calm(old(faults)))
        || Carried(v, rows, aborted, Written(CompleteRefund(old(rows), lg, time)))
      ensures Calm(old(faults)) ==> Calm(faults)
    {
      var f := Statement();
      if f.Some? { return Erred(f.value); }
      if AwaitsTransfer(rows.refunds, lg.tx) {
        var r := rows.refunds[lg.tx];
        rows := rows.(refunds := rows.refunds[lg.tx := r.(status := RefundCompleted, completedAt := Some(time))]);
        f := InsertOutboxEvent(WebhookEvent(r.merchant, r.mode, RefundDone(lg.tx)));
        if f.Some? { return Erred(f.value); }
      }
      v := Done;
    }

    /** The status write comes first; the audit write finds out that the job is unknown. */
    method SetAgentJobStatusAndLog(e: Event) returns (v: Verdict)
      requires open && !aborted && e.JobMoved?
      modifies this`rows, this`faults, this`aborted
      ensures (Interrupted(v) && !Calm(old(faults))) || Carried(v, rows, aborted, MoveJob(old(rows), e))
      ensures Calm(old(faults)) ==> Calm(faults)
    {
      var f := Statement();
      if f.Some? { return Erred(f.value); }
      ghost var before := rows;
      if e.job in rows.jobs {
        if rows.jobs[e.job].status != e.status {
          rows := rows.(jobs := rows.jobs[e.job := rows.jobs[e.job].(status := e.status)]);
        } else {
          assert rows.jobs[e.job := rows.jobs[e.job]] == rows.jobs;
        }
      }
      f := Statement();
      if f.Some? { return Erred(f.value); }
      if e.job !in rows.jobs { return Parked(UnknownJob); }
      f := AppendAudit(AuditRow(Some(rows.jobs[e.job].merchant), "job." + e.status, OnJob(e.job)));
      if f.Some? { return Erred(f.value); }
      v := Done;
    }

    // ----- One log -----

    /** `Projector.Apply`. */
    method Apply(lg: Log, time: int) returns (v: Verdict)
      requires open && !aborted
      modifies this`rows, this`faults, this`aborted
      ensures (Interrupted(v) && !Calm(old(faults)))
        || Carried(v, rows, aborted, Projection.Apply(cfg, old(rows), lg, time))
      ensures Calm(old(faults)) ==> Calm(faults)
    {
      var e := lg.event;
      match e {
        case Undecodable => v := Parked(UndecodableLog);
        case Unsubscribed => v := Done;
        case MerchantRegistered(_, _, _) => v := LinkOnchainMerchant(lg, time, e);
        case PayoutUpdated(_, _) => v := UpdateMerchantPayoutAddress(e);
        case FeeUpdated(_, _) => v := SetMerchantOnchainFeeBps(lg, time, e);
        case Governance(_, _, _) => v := LogMerchantGovernance(lg, e);
        case Operation(_, _) => v := LogContractOperation(lg, e);
        case PaymentExecuted(_, _, _, _, _, _, _) => v := InsertOneShotTransaction(lg, time, e);
        case SubscriptionCreated(_, _, _, _, _, _, _) => v := UpsertSubscriptionFromOnchain(lg, time, e);
        case SubscriptionCharged(_, _, _, _, _, _) => v := InsertSubscriptionCharge(lg, time, e);
        case PeriodsSkipped(_, _, _) => v := RecordSubscriptionPeriodsSkipped(e);
        case ChargeSkipped(_, _, _) => v := InsertSubscriptionChargeSkip(time, e);
        case SubscriptionCancelled(_, _) => v := MarkSubscriptionCancelled(lg, time, e);
        case Transfer => v := CompleteRefundByTxHash(lg, time);
        case JobMoved(_, _) => v := SetAgentJobStatusAndLog(e);
      }
    }

    /** `ROLLBACK TO SAVEPOINT`, which an aborted transaction accepts. */
    method RollBackTo(saved: Rows) returns (f: Option<Failure>)
      modifies this`rows, this`faults, this`aborted
      ensures f.None? ==> !aborted && rows == saved
      ensures f.Some? ==> aborted && !Calm(old(faults)) && Transient(f.value)
      ensures Calm(old(faults)) ==> Calm(faults)
    {
      aborted := false;
      f := Statement();
      if f.None? { rows := saved; }
    }

    /**
     Applies the log inside a savepoint. Whatever a log that does not land had written is rolled back; if even that
     fails the transaction stays aborted, so nothing after it can be written.
     */
    method ApplyInSavepoint(lg: Log, time: int) returns (v: Verdict)
      requires open && !aborted
      modifies this`rows, this`faults, this`aborted
      ensures v == Done ==> !aborted && Projection.Apply(cfg, old(rows), lg, time) == Written(rows)
      ensures v.Parked? ==> Projection.Apply(cfg, old(rows), lg, time) == Unresolvable(v.reason)
      ensures v.Parked? && !aborted ==> rows == old(rows)
      ensures v.Parked? && aborted ==> !Calm(old(faults))
      ensures v.Erred? ==>
        (Transient(v.why) && !Calm(old(faults))) || Projection.Apply(cfg, old(rows), lg, time) == Fatal(v.why)
      ensures Calm(old(faults)) ==> Calm(faults)
    {
      hide Projection.Apply, Calm;
      var f := Statement();
      if f.Some? { return Erred(f.value); }
      var saved := rows;
      v := Apply(lg, time);
      if v == Done {
        f := Statement();
        if f.Some? { v := Erred(f.value); }
      } else {
        f := RollBackTo(saved);
        if f.Some? { v := Joined(v, f.value); }
      }
    }

    /** Applies the log or parks it. */
    method ApplyOrPark(lg: Log, time: int) returns (err: Option<Failure>)
      requires open && !aborted
      modifies this`rows, this`letters, this`faults, this`aborted
      ensures err.None? ==> !aborted && Replay.ApplyOrPark(cfg, old(Working()), lg, time) == Some(Working())
      ensures err.Some? ==>
        (Transient(err.value) && !Calm(old(faults))) || Projection.Apply(cfg, old(rows), lg, time) == Fatal(err.value)
      ensures Calm(old(faults)) ==> Calm(faults)
    {
      hide Projection.Apply, Calm;
      var v := ApplyInSavepoint(lg, time);
      match v {
        case Done => err := None;
        case Erred(why) => err := Some(why);
        case Parked(why) => err := InsertDeadLetter(lg, time, why);
      }
    }

    // ----- Dead letters and cursors -----

    method InsertDeadLetter(lg: Log, time: int, why: Reason) returns (err: Option<Failure>)
      modifies this`letters, this`faults, this`aborted
      ensures err.None? ==> !aborted && !old(aborted) && letters == Park(old(letters), lg, time, why)
      ensures err.Some? ==> aborted && Transient(err.value) && (old(aborted) || !Calm(old(faults)))
      ensures Calm(old(faults)) ==> Calm(faults)
    {
      err := Statement();
      if err.None? && lg.Key() !in letters {
        letters := letters[lg.Key() := Letter(lg, time, why, 1, false)];
      }
    }

    method ResolveDeadLetter(id: LogKey) returns (err: Option<Failure>)
      requires !aborted && id in letters
      modifies this`letters, this`faults, this`aborted
      ensures err.None? ==> !aborted && letters == Resolve(old(letters), id)
      ensures err.Some? ==> Transient(err.value) && !Calm(old(faults))
      ensures Calm(old(faults)) ==> Calm(faults)
    {
      err := Statement();
      if err.None? { letters := letters[id := letters[id].(resolved := true)]; }
    }

    method RecordDeadLetterAttempt(id: LogKey, why: Reason) returns (err: Option<Failure>)
      requires id in letters
      modifies this`letters, this`faults, this`aborted
      ensures err.None? ==> !aborted && !old(aborted) && letters == RecordAttempt(old(letters), id, why)
      ensures err.Some? ==> Transient(err.value) && (old(aborted) || !Calm(old(faults)))
      ensures Calm(old(faults)) ==> Calm(faults)
    {
      err := Statement();
      if err.None? { letters := letters[id := letters[id].(attempts := letters[id].attempts + 1, reason := why)]; }
    }

    /** Applies a parked log again: it is resolved if it lands, and one attempt older if it still cannot. */
    method RetryOne(id: LogKey, letter: Letter) returns (err: Option<Failure>)
      requires open && !aborted && Waiting(letters, id) && letters[id] == letter
      modifies this`rows, this`letters, this`faults, this`aborted
      ensures err.None? ==> !aborted && RetryLetter(cfg, old(Working()), id) == Some(Working())
      ensures err.Some? ==>
        (Transient(err.value) && !Calm(old(faults))) || RetryLetter(cfg, old(Working()), id) == None
      ensures Calm(old(faults)) ==> Calm(faults)
    {
      hide Projection.Apply, Calm;
      var v := ApplyInSavepoint(letter.lg, letter.time);
      match v {
        case Done => err := ResolveDeadLetter(id);
        case Parked(why) => err := RecordDeadLetterAttempt(id, why);
        case Erred(why) => err := Some(why);
      }
    }

    method SaveCheckpoint(cursor: string, at: Checkpoint) returns (err: Option<Failure>)
      requires !aborted
      modifies this`cursors, this`faults, this`aborted
      ensures err.None? ==> !aborted && cursors == old(cursors)[cursor := at]
      ensures err.Some? ==> Transient(err.value) && !Calm(old(faults))
      ensures Calm(old(faults)) ==> Calm(faults)
    {
      err := Statement();
      if err.None? { cursors := cursors[cursor := at]; }
    }

    // ----- Batches -----

    /** The body of a streamed batch: every log in order, then the cursor. */
    method CarryStream(logs: seq<Log>, times: map<nat, int>, at: Checkpoint) returns (err: Option<Failure>)
      requires open && !aborted
      modifies this`rows, this`letters, this`cursors, this`faults, this`aborted
      ensures err.None? ==>
        !aborted && Run(cfg, old(Working()), WorkSteps(StreamBatch(logs, times, at))) == Some(Working())
      ensures err.Some? && Calm(old(faults)) ==>
        Run(cfg, old(Working()), WorkSteps(StreamBatch(logs, times, at))) == None
      ensures Calm(old(faults)) ==> Calm(faults)
    {
      hide Projection.Apply, Calm, Run, RetryLetter, Replay.ApplyOrPark;
      ghost var start := Working();
      NothingRun(cfg, start);
      var i := 0;
      assert StreamSteps(logs[..0], times) == [];
      while i < |logs|
        invariant 0 <= i <= |logs| && !aborted && cursors == start.cursors
        invariant Run(cfg, start, StreamSteps(logs[..i], times)) == Some(Working())
        invariant Calm(old(faults)) ==> Calm(faults)
      {
        var lg, time := logs[i], TimeOf(times, logs[i].block);
        ghost var before := Working();
        err := ApplyOrPark(lg, time);
        OneMoreLog(logs, times, i);
        if err.Some? {
          if Calm(old(faults)) { StreamFails(cfg, start, before, logs, times, i, at); }
          return;
        }
        RunOneMore(cfg, start, StreamSteps(logs[..i], times), Stream(lg, time));
        i := i + 1;
      }
      assert logs[..i] == logs;
      RunOneMore(cfg, start, StreamSteps(logs, times), Save(CORE_CURSOR, at));
      err := SaveCheckpoint(CORE_CURSOR, at);
    }

    /** The function `RunBatch` is given. */
    method Carry(work: Work) returns (err: Option<Failure>)
      requires open && !aborted && Ready(work, letters)
      modifies this`rows, this`letters, this`cursors, this`faults, this`aborted
      ensures err.None? ==> !aborted && Run(cfg, old(Working()), WorkSteps(work)) == Some(Working())
      ensures err.Some? && Calm(old(faults)) ==> Run(cfg, old(Working()), WorkSteps(work)) == None
      ensures Calm(old(faults)) ==> Calm(faults)
    {
      hide RetryLetter, Calm;
      match work {
        case StreamBatch(logs, times, at) => err := CarryStream(logs, times, at);
        case RetryWork(id, letter) =>
          RunOneMore(cfg, Working(), [], Retry(id));
          assert [] + [Retry(id)] == [Retry(id)];
          err := RetryOne(id, letter);
      }
    }

    /** Another writer may commit just before the transaction takes its snapshot. */
    method BeginTx() returns (err: Option<Failure>, ghost visited: seq<Step>)
      requires !open && Consistent()
      modifies this
      ensures Consistent() && Visits(visited) && base == old(base) && history == old(history) + visited
      ensures Run(cfg, old(committed), visited) == Some(committed)
      ensures err.None? ==> open && !aborted && Working() == committed
      ensures err.Some? ==> !open && !Calm(old(faults))
      ensures old(visits) == [] ==> visits == [] && visited == []
      ensures Calm(old(faults)) ==> Calm(faults)
    {
      hide Advance, LinkOutside, Calm;
      visited := [];
      NothingRun(cfg, committed);
      if visits != [] {
        if visits[0].Some? {
          var (m, id) := visits[0].value;
          visited := [Visit(m, id)];
          VisitAdvances(cfg, committed, m, id);
          RunOneMore(cfg, base, history, visited[0]);
          assert visited == [] + [Visit(m, id)];
          RunOneMore(cfg, committed, [], visited[0]);
          history := history + visited;
          committed := committed.(rows := LinkOutside(committed.rows, m, id));
        }
        visits := visits[1..];
      }
      aborted := false;
      err := Statement();
      if err.Some? { return; }
      open := true;
      rows, letters, cursors := committed.rows, committed.letters, committed.cursors;
    }

    method Rollback()
      modifies this`open, this`aborted
      ensures !open
    {
      open, aborted := false, false;
    }

    /** A commit may fail, and may also land although its reply is lost. An aborted transaction never lands. */
    method Commit(ghost steps: seq<Step>) returns (err: Option<Failure>, ghost landed: bool)
      requires open && Consistent() && Run(cfg, committed, steps) == Some(Working())
      modifies this
      ensures !open && Consistent() && base == old(base)
      ensures history == if landed then old(history) + steps else old(history)
      ensures committed == if landed then old(Working()) else old(committed)
      ensures err.None? ==> landed
      ensures old(aborted) || err == Some(SerializationFailure) ==> !landed
      ensures err.Some? ==> old(aborted) || !Calm(old(faults))
      ensures visits == old(visits) && (Calm(old(faults)) ==> Calm(faults))
    {
      var lost := !aborted && faults != [] && faults[0] == LostReply;
      err := Statement();
      landed := err.None? || lost;
      if err.None? || lost {
        RunConcat(cfg, base, history, steps);
        committed, history := Working(), history + steps;
      }
      open := false;
    }

    /** One attempt: begin, do the work, commit; roll back when the work fails. */
    method Attempt(work: Work) returns (err: Option<Failure>, ghost visited: seq<Step>, ghost landed: bool)
      requires !open && Consistent() && Ready(work, committed.letters)
      modifies this
      ensures !open && Consistent() && Visits(visited) && base == old(base)
      ensures history == old(history) + visited + (if landed then WorkSteps(work) else [])
      ensures Run(cfg, old(committed), visited + (if landed then WorkSteps(work) else [])) == Some(committed)
      ensures err.None? ==> landed
      ensures err == Some(SerializationFailure) ==> !landed
      ensures Calm(old(faults)) && old(visits) == [] ==>
        visits == [] && visited == [] && (err.None? <==> Run(cfg, old(committed), WorkSteps(work)).Some?)
      ensures Calm(old(faults)) && err.Some? ==> !landed
      ensures Calm(old(faults)) ==> Calm(faults)
    {
      hide Calm, Advance, WorkSteps, Waiting;
      landed := false;
      err, visited := BeginTx();
      assert visited + [] == visited && history + [] == history;
      if err.Some? { return; }
      VisitsKeepLetters(cfg, old(committed), visited);
      err := Carry(work);
      if err.Some? {
        Rollback();
        return;
      }
      RunConcat(cfg, old(committed), visited, WorkSteps(work));
      err, landed := Commit(WorkSteps(work));
    }

    /**
     Runs the work in one serialisable transaction, trying once more after a serialisation failure. The committed
     history grows by outside links and by all of the work or none of it; success means all of it.
     */
    method RunBatch(work: Work)
      returns (err: Option<Failure>, ghost visited: seq<Step>, ghost landed: bool, ghost tries: seq<Option<Failure>>)
      requires !open && Consistent() && Ready(work, committed.letters)
      modifies this
      ensures !open && Consistent() && Visits(visited) && base == old(base)
      ensures history == old(history) + visited + (if landed then WorkSteps(work) else [])
      ensures Run(cfg, old(committed), visited + (if landed then WorkSteps(work) else [])) == Some(committed)
      ensures err.None? ==> landed
      ensures 1 <= |tries| <= 2 && err == tries[|tries| - 1]
      ensures |tries| == 2 <==> tries[0] == Some(SerializationFailure)
      ensures Calm(old(faults)) && old(visits) == [] ==>
        visits == [] && visited == [] && (err.None? <==> Run(cfg, old(committed), WorkSteps(work)).Some?)
      ensures Calm(old(faults)) && err.Some? ==> !landed
      ensures Calm(old(faults)) ==> Calm(faults)
    {
      hide Calm, Advance, WorkSteps, Waiting, Run;
      visited, landed, tries := [], false, [];
      var attempt := 0;
      NothingRun(cfg, committed);
      while attempt < 2
        invariant attempt <= 2 && !open && Consistent() && base == old(base) && !landed
        invariant |tries| == attempt && (attempt == 1 ==> tries[0] == Some(SerializationFailure))
        invariant attempt < 2
        invariant Visits(visited) && history == old(history) + visited
        invariant Run(cfg, old(committed), visited) == Some(committed)
        invariant Calm(old(faults)) ==> Calm(faults)
        invariant Calm(old(faults)) && old(visits) == [] ==>
          visits == [] && visited == [] && committed == old(committed)
        invariant attempt > 0 && Calm(old(faults)) && old(visits) == [] ==> Run(cfg, committed, WorkSteps(work)) == None
      {
        VisitsKeepLetters(cfg, old(committed), visited);
        ghost var links;
        err, links, landed := Attempt(work);
        tries := tries + [err];
        ghost var done := if landed then WorkSteps(work) else [];
        RunConcat(cfg, old(committed), visited, links + done);
        assert visited + (links + done) == visited + links + done;
        assert old(history) + visited + links == old(history) + (visited + links);
        visited := visited + links;
        assert visited + [] == visited && history + [] == history;
        if err == Some(SerializationFailure) && attempt == 0 {
          attempt := attempt + 1;
          continue;
        }
        return;
      }
      err := Some(Outage);
    }

    // ----- Queries outside a transaction -----

    method Query() returns (f: Option<Failure>)
      modifies this`faults
      ensures f.Some? ==> !Calm(old(faults)) && Transient(f.value)
      ensures Calm(old(faults)) ==> Calm(faults)
    {
      if faults == [] { return None; }
      var next := faults[0];
      faults := faults[1..];
      f := if next == Healthy then None else Some(if next == Conflict then SerializationFailure else Outage);
    }

    method UnresolvedDeadLetters(limit: nat) returns (err: Option<Failure>, found: seq<Filing>)
      modifies this`faults
      ensures err.None? ==> Listed(committed.letters, found, limit)
      ensures err.Some? ==> !Calm(old(faults))
      ensures Calm(old(faults)) ==> Calm(faults)
    {
      found := [];
      err := Query();
      if err.None? { found := InOrderUpTo(committed.letters, limit); }
    }

    method CountUnresolvedDeadLetters() returns (err: Option<Failure>, n: nat)
      modifies this`faults
      ensures err.None? ==> n == |WaitingKeys(committed.letters)|
      ensures err.Some? ==> !Calm(old(faults))
      ensures Calm(old(faults)) ==> Calm(faults)
    {
      n := 0;
      err := Query();
      if err.None? { n := |WaitingKeys(committed.letters)|; }
    }

    method LoadCheckpoint(cursor: string) returns (err: Option<Failure>, at: Checkpoint)
      modifies this`faults
      ensures err.None? ==> at == CursorAt(committed.cursors, cursor)
      ensures err.Some? ==> !Calm(old(faults))
      ensures Calm(old(faults)) ==> Calm(faults)
    {
      at := Checkpoint(0, "");
      err := Query();
      if err.None? && cursor in committed.cursors { at := committed.cursors[cursor]; }
    }
  }
}
