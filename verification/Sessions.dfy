/** Session payment safety: what a checkout session, its transaction, its invoice and their webhooks agree on. */
module Sessions {
  import opened Prelude
  import opened Chain
  import opened Ledger
  import opened Projection
  import opened Feed
  import opened Footprint
  import opened Windows
  import Decimal

  /** How many undispatched events carry exactly this reference. */
  function Emitted(outbox: seq<WebhookEvent>, ref: WebhookRef): nat {
    if outbox == [] then 0
    else Emitted(outbox[..|outbox| - 1], ref) + (if outbox[|outbox| - 1].ref == ref then 1 else 0)
  }

  /** How many `invoice.paid` events name the invoice. */
  function PaidNotices(outbox: seq<WebhookEvent>, invoice: string): nat {
    if outbox == [] then 0
    else PaidNotices(outbox[..|outbox| - 1], invoice) +
         (if outbox[|outbox| - 1].ref.InvoicePaid? && outbox[|outbox| - 1].ref.invoice == invoice then 1 else 0)
  }

  predicate IsLinked(rows: Rows, k: LogKey, s: SessionId) {
    k in rows.transactions && rows.transactions[k].source == OneShot(Some(s))
  }

  /** A linked transaction pays its session in full, in the right money, to the right merchant. */
  ghost predicate LinksMatch(rows: Rows) {
    forall k, s :: IsLinked(rows, k, s) ==>
      && s in rows.sessions
      && (var t, p := rows.transactions[k], rows.sessions[s];
          && p.merchant == t.merchant && p.currency == t.currency && p.mode == t.mode && SameAmount(p.amount, t.amount)
          && p.status == Confirmed && p.tx == Some(k.tx))
  }

  ghost predicate LinksUnique(rows: Rows) {
    forall k, l, s :: IsLinked(rows, k, s) && IsLinked(rows, l, s) ==> k == l
  }

  ghost predicate CompletionsExact(rows: Rows) {
    forall k, s :: Emitted(rows.outbox, PaymentCompleted(s, k)) == if IsLinked(rows, k, s) then 1 else 0
  }

  /** Invoice ids are a primary key. */
  ghost predicate DistinctInvoices(rows: Rows) {
    forall a, b :: a in rows.invoices && b in rows.invoices && rows.invoices[a].id == rows.invoices[b].id ==> a == b
  }

  ghost predicate InvoicesNotifiedOnce(rows: Rows) {
    forall s :: s in rows.invoices ==>
      PaidNotices(rows.outbox, rows.invoices[s].id) <= if rows.invoices[s].status == Paid then 1 else 0
  }

  ghost predicate SessionSafe(rows: Rows) {
    LinksMatch(rows) && LinksUnique(rows) && CompletionsExact(rows) && DistinctInvoices(rows)
    && InvoicesNotifiedOnce(rows)
  }

  // ----- Counting webhooks -----

  lemma EmittedOneMore(outbox: seq<WebhookEvent>, e: WebhookEvent, ref: WebhookRef)
    ensures Emitted(outbox + [e], ref) == Emitted(outbox, ref) + (if e.ref == ref then 1 else 0)
  {
    assert (outbox + [e])[..|outbox|] == outbox;
  }

  lemma NoticesOneMore(outbox: seq<WebhookEvent>, e: WebhookEvent, invoice: string)
    ensures PaidNotices(outbox + [e], invoice) ==
            PaidNotices(outbox, invoice) + (if e.ref.InvoicePaid? && e.ref.invoice == invoice then 1 else 0)
  {
    assert (outbox + [e])[..|outbox|] == outbox;
  }

  // ----- Logs that are not payments -----

  predicate OffCheckout(e: WebhookEvent) { !e.ref.PaymentCompleted? && !e.ref.InvoicePaid? }

  /** A step that leaves sessions, invoices and payment rows alone and emits at most one unrelated event. */
  ghost predicate LeavesCheckout(rows: Rows, after: Rows) {
    && after.sessions == rows.sessions && after.invoices == rows.invoices
    && (forall k :: k in rows.transactions ==> k in after.transactions && after.transactions[k] == rows.transactions[k])
    && (forall k :: k in after.transactions && k !in rows.transactions ==>
          after.transactions[k].source.SubscriptionCharge?)
    && (after.outbox == rows.outbox ||
        (after.outbox != [] && after.outbox[..|after.outbox| - 1] == rows.outbox
         && OffCheckout(after.outbox[|after.outbox| - 1])))
  }

  lemma ChargeLeavesCheckout(cfg: Config, rows: Rows, lg: Log, time: int)
    requires lg.event.SubscriptionCharged? && Apply(cfg, rows, lg, time).Written?
    ensures LeavesCheckout(rows, Apply(cfg, rows, lg, time).rows)
  {
    assert Apply(cfg, rows, lg, time) == InsertCharge(cfg, rows, lg, time, lg.event);
  }

  lemma EnrolmentLeavesCheckout(cfg: Config, rows: Rows, lg: Log, time: int)
    requires lg.event.SubscriptionCreated? && Apply(cfg, rows, lg, time).Written?
    ensures LeavesCheckout(rows, Apply(cfg, rows, lg, time).rows)
  {
    var e := lg.event;
    assert Apply(cfg, rows, lg, time) == Enrol(cfg, rows, lg, time, e);
    if e.sub in rows.subscriptions {
      assert Apply(cfg, rows, lg, time).rows == rows;
    } else {
      assert Apply(cfg, rows, lg, time).rows ==
        AddSubscription(rows, e.sub, NewSubscription(FindMerchant(rows, e.merchant).value, cfg, lg, time, e));
    }
  }

  lemma FailureLeavesCheckout(cfg: Config, rows: Rows, lg: Log, time: int)
    requires lg.event.ChargeSkipped? && Apply(cfg, rows, lg, time).Written?
    ensures LeavesCheckout(rows, Apply(cfg, rows, lg, time).rows)
  {
    var e := lg.event;
    assert Apply(cfg, rows, lg, time) == InsertChargeSkip(rows, time, e);
    if IsNewFailure(rows, e.attempt, e.outcome, time) {
      assert Apply(cfg, rows, lg, time).rows == RecordFailure(rows, time, e);
    } else {
      assert Apply(cfg, rows, lg, time).rows == rows;
    }
  }

  lemma QuietBillingLeavesCheckout(cfg: Config, rows: Rows, lg: Log, time: int)
    requires lg.event.PeriodsSkipped? || lg.event.SubscriptionCancelled?
    requires Apply(cfg, rows, lg, time).Written?
    ensures LeavesCheckout(rows, Apply(cfg, rows, lg, time).rows)
  {
    hide Apply;
    match lg.event
    case PeriodsSkipped(_, _, _) => PeriodsSkippedFootprint(cfg, rows, lg, time);
    case SubscriptionCancelled(_, _) => CancelledFootprint(cfg, rows, lg, time);
  }

  lemma RegistryLeavesCheckout(cfg: Config, rows: Rows, lg: Log, time: int)
    requires lg.event.MerchantRegistered? || lg.event.PayoutUpdated? || lg.event.FeeUpdated? || lg.event.Unsubscribed?
    requires Apply(cfg, rows, lg, time).Written?
    ensures LeavesCheckout(rows, Apply(cfg, rows, lg, time).rows)
  {
    match lg.event
    case MerchantRegistered(_, _, _) => assert Apply(cfg, rows, lg, time) == LinkMerchant(rows, lg, time, lg.event);
    case PayoutUpdated(_, _) =>
    case FeeUpdated(_, _) =>
    case Unsubscribed =>
  }

  lemma TransferLeavesCheckout(cfg: Config, rows: Rows, lg: Log, time: int)
    requires lg.event.Transfer? && Apply(cfg, rows, lg, time).Written?
    ensures LeavesCheckout(rows, Apply(cfg, rows, lg, time).rows)
  {
    assert Apply(cfg, rows, lg, time).rows == CompleteRefund(rows, lg, time);
  }

  lemma AuditLeavesCheckout(cfg: Config, rows: Rows, lg: Log, time: int)
    requires lg.event.Governance? || lg.event.Operation? || lg.event.JobMoved?
    requires Apply(cfg, rows, lg, time).Written?
    ensures LeavesCheckout(rows, Apply(cfg, rows, lg, time).rows)
  {
    match lg.event
    case Governance(_, _, _) => assert Apply(cfg, rows, lg, time).rows == LogGovernance(rows, lg, lg.event);
    case Operation(_, _) => assert Apply(cfg, rows, lg, time).rows == LogOperation(rows, lg, lg.event);
    case JobMoved(_, _) => assert Apply(cfg, rows, lg, time) == MoveJob(rows, lg.event);
  }

  lemma OthersLeaveCheckout(cfg: Config, rows: Rows, lg: Log, time: int)
    requires !lg.event.PaymentExecuted? && Apply(cfg, rows, lg, time).Written?
    ensures LeavesCheckout(rows, Apply(cfg, rows, lg, time).rows)
  {
    hide Apply, LeavesCheckout;
    match lg.event
    case Undecodable => UndecodableNeverLands(cfg, rows, lg, time);
    case SubscriptionCharged(_, _, _, _, _, _) => ChargeLeavesCheckout(cfg, rows, lg, time);
    case SubscriptionCreated(_, _, _, _, _, _, _) => EnrolmentLeavesCheckout(cfg, rows, lg, time);
    case ChargeSkipped(_, _, _) => FailureLeavesCheckout(cfg, rows, lg, time);
    case PeriodsSkipped(_, _, _) => QuietBillingLeavesCheckout(cfg, rows, lg, time);
    case SubscriptionCancelled(_, _) => QuietBillingLeavesCheckout(cfg, rows, lg, time);
    case Transfer => TransferLeavesCheckout(cfg, rows, lg, time);
    case Governance(_, _, _) => AuditLeavesCheckout(cfg, rows, lg, time);
    case Operation(_, _) => AuditLeavesCheckout(cfg, rows, lg, time);
    case JobMoved(_, _) => AuditLeavesCheckout(cfg, rows, lg, time);
    case _ => RegistryLeavesCheckout(cfg, rows, lg, time);
  }

  lemma LeavingCheckoutKeepsSafe(rows: Rows, after: Rows)
    requires SessionSafe(rows) && LeavesCheckout(rows, after)
    ensures SessionSafe(after)
  {
    assert forall k, s :: IsLinked(after, k, s) <==> IsLinked(rows, k, s);
    if after.outbox != rows.outbox {
      var e := after.outbox[|after.outbox| - 1];
      assert after.outbox == rows.outbox + [e];
      forall k: LogKey, s: SessionId
        ensures Emitted(after.outbox, PaymentCompleted(s, k)) == Emitted(rows.outbox, PaymentCompleted(s, k))
      {
        EmittedOneMore(rows.outbox, e, PaymentCompleted(s, k));
      }
      forall i: string ensures PaidNotices(after.outbox, i) == PaidNotices(rows.outbox, i) {
        NoticesOneMore(rows.outbox, e, i);
      }
    }
  }

  // ----- Payments -----

  lemma SettledMatches(rows: Rows, ref: SessionId, t: Transaction)
    requires SettledSession(rows, ref, t).Some?
    ensures var p := rows.sessions[ref];
      && ref in rows.sessions && SettledSession(rows, ref, t) == Some(ref)
      && p.merchant == t.merchant && p.currency == t.currency && p.mode == t.mode && SameAmount(p.amount, t.amount)
      && p.status != Confirmed && !HasTransaction(rows, ref)
  {
  }

  /** Recording a payment that settles no session. */
  lemma UnlinkedPaymentKeepsSafe(rows: Rows, key: LogKey, ref: SessionId, t: Transaction)
    requires SessionSafe(rows) && key !in rows.transactions && SettledSession(rows, ref, t).None?
    ensures SessionSafe(RecordPayment(rows, key, ref, t))
  {
    var after := RecordPayment(rows, key, ref, t);
    assert after.outbox == rows.outbox && after.sessions == rows.sessions && after.invoices == rows.invoices;
    assert after.transactions == rows.transactions[key := t.(source := OneShot(None))];
    hide RecordPayment, SettledSession;
    assert forall k, s :: IsLinked(after, k, s) <==> IsLinked(rows, k, s);
  }

  lemma LinkedPaymentLinks(rows: Rows, key: LogKey, ref: SessionId, t: Transaction)
    requires LinksMatch(rows) && LinksUnique(rows) && key !in rows.transactions && SettledSession(rows, ref, t).Some?
    ensures var after := RecordPayment(rows, key, ref, t);
      && LinksMatch(after) && LinksUnique(after)
      && (forall k, s :: IsLinked(after, k, s) <==> IsLinked(rows, k, s) || (k == key && s == ref))
  {
    var after := RecordPayment(rows, key, ref, t);
    SettledMatches(rows, ref, t);
    assert after.transactions == rows.transactions[key := t.(source := OneShot(Some(ref)))];
    assert after.sessions == rows.sessions[ref :=
      rows.sessions[ref].(status := Confirmed, tx := Some(key.tx), payer := Some(t.payer))];
    hide RecordPayment, SettledSession;
    forall k, s ensures IsLinked(after, k, s) <==> IsLinked(rows, k, s) || (k == key && s == ref) {
    }
    forall k ensures !IsLinked(rows, k, ref) {
    }
  }

  lemma LinkedPaymentEvents(rows: Rows, key: LogKey, ref: SessionId, t: Transaction, k: LogKey, s: SessionId)
    requires SettledSession(rows, ref, t) == Some(ref)
    ensures Emitted(RecordPayment(rows, key, ref, t).outbox, PaymentCompleted(s, k)) ==
            Emitted(rows.outbox, PaymentCompleted(s, k)) + if k == key && s == ref then 1 else 0
  {
    var after := RecordPayment(rows, key, ref, t);
    var done := WebhookEvent(t.merchant, t.mode, PaymentCompleted(ref, key));
    assert after.outbox == rows.outbox + PaymentEvents(rows.invoices, Some(ref), key, t);
    hide RecordPayment, SettledSession, Emitted;
    EmittedOneMore(rows.outbox, done, PaymentCompleted(s, k));
    if Payable(rows.invoices, ref) {
      var paid := WebhookEvent(t.merchant, t.mode, InvoicePaid(rows.invoices[ref].id, key));
      EmittedOneMore(rows.outbox + [done], paid, PaymentCompleted(s, k));
      assert after.outbox == rows.outbox + [done] + [paid];
    } else {
      assert after.outbox == rows.outbox + [done];
    }
  }

  lemma LinkedPaymentNotices(rows: Rows, key: LogKey, ref: SessionId, t: Transaction, invoice: string)
    requires SettledSession(rows, ref, t) == Some(ref)
    ensures PaidNotices(RecordPayment(rows, key, ref, t).outbox, invoice) ==
            PaidNotices(rows.outbox, invoice) +
            if Payable(rows.invoices, ref) && rows.invoices[ref].id == invoice then 1 else 0
  {
    var after := RecordPayment(rows, key, ref, t);
    var done := WebhookEvent(t.merchant, t.mode, PaymentCompleted(ref, key));
    assert after.outbox == rows.outbox + PaymentEvents(rows.invoices, Some(ref), key, t);
    hide RecordPayment, SettledSession, PaidNotices;
    NoticesOneMore(rows.outbox, done, invoice);
    if Payable(rows.invoices, ref) {
      var paid := WebhookEvent(t.merchant, t.mode, InvoicePaid(rows.invoices[ref].id, key));
      NoticesOneMore(rows.outbox + [done], paid, invoice);
      assert after.outbox == rows.outbox + [done] + [paid];
    } else {
      assert after.outbox == rows.outbox + [done];
    }
  }

  lemma LinkedPaymentInvoices(rows: Rows, key: LogKey, ref: SessionId, t: Transaction)
    requires DistinctInvoices(rows) && InvoicesNotifiedOnce(rows) && SettledSession(rows, ref, t) == Some(ref)
    ensures DistinctInvoices(RecordPayment(rows, key, ref, t)) && InvoicesNotifiedOnce(RecordPayment(rows, key, ref, t))
  {
    var after := RecordPayment(rows, key, ref, t);
    assert after.invoices == SettleInvoice(rows.invoices, Some(ref));
    forall s | s in after.invoices
      ensures s in rows.invoices && after.invoices[s].id == rows.invoices[s].id
      ensures PaidNotices(after.outbox, after.invoices[s].id) <= if after.invoices[s].status == Paid then 1 else 0
    {
      LinkedPaymentNotices(rows, key, ref, t, rows.invoices[s].id);
    }
  }

  lemma LinkedPaymentKeepsSafe(rows: Rows, key: LogKey, ref: SessionId, t: Transaction)
    requires SessionSafe(rows) && key !in rows.transactions && SettledSession(rows, ref, t).Some?
    ensures SessionSafe(RecordPayment(rows, key, ref, t))
  {
    SettledMatches(rows, ref, t);
    var after := RecordPayment(rows, key, ref, t);
    hide RecordPayment, SettledSession, LinksMatch, LinksUnique, DistinctInvoices, InvoicesNotifiedOnce;
    LinkedPaymentLinks(rows, key, ref, t);
    LinkedPaymentInvoices(rows, key, ref, t);
    forall k, s ensures Emitted(after.outbox, PaymentCompleted(s, k)) == if IsLinked(after, k, s) then 1 else 0 {
      LinkedPaymentEvents(rows, key, ref, t, k, s);
      assert IsLinked(after, k, s) <==> IsLinked(rows, k, s) || (k == key && s == ref);
    }
  }

  lemma PaymentKeepsSafe(cfg: Config, rows: Rows, lg: Log, time: int)
    requires lg.event.PaymentExecuted? && Apply(cfg, rows, lg, time).Written? && SessionSafe(rows)
    ensures SessionSafe(Apply(cfg, rows, lg, time).rows)
  {
    var e := lg.event;
    assert Apply(cfg, rows, lg, time) == InsertPayment(cfg, rows, lg, time, e);
    hide Apply, SessionSafe, RecordPayment, SettledSession;
    if lg.Key() !in rows.transactions {
      var t, ref := PaymentRow(cfg, rows, FindMerchant(rows, e.merchant).value, lg, time, e), DecodeSessionRef(e.ref);
      if SettledSession(rows, ref, t).Some? {
        LinkedPaymentKeepsSafe(rows, lg.Key(), ref, t);
      } else {
        UnlinkedPaymentKeepsSafe(rows, lg.Key(), ref, t);
      }
    }
  }

  lemma LinkKeepsSafe(rows: Rows, x: Input)
    requires x.Linked? && SessionSafe(rows)
    ensures SessionSafe(LinkOutside(rows, x.merchant, x.onchainId))
  {
    LeavingCheckoutKeepsSafe(rows, LinkOutside(rows, x.merchant, x.onchainId));
  }

  /**
   Over every feed, duplicates included: at most one transaction carries a session, it matches the session, the
   session is confirmed by that very transaction, its completion is announced exactly once, and an invoice is
   announced as paid at most once.
   */
  lemma {:induction false} SessionsStaySafe(cfg: Config, rows: Rows, xs: seq<Input>)
    requires SessionSafe(rows) && AbsorbAll(cfg, rows, xs).Some?
    ensures SessionSafe(AbsorbAll(cfg, rows, xs).value)
  {
    hide Apply, SessionSafe;
    if xs != [] {
      SessionsStaySafe(cfg, rows, xs[..|xs| - 1]);
      var before, x := AbsorbAll(cfg, rows, xs[..|xs| - 1]).value, xs[|xs| - 1];
      if Lands(cfg, before, x) {
        if x.lg.event.PaymentExecuted? {
          PaymentKeepsSafe(cfg, before, x.lg, x.time);
        } else {
          OthersLeaveCheckout(cfg, before, x.lg, x.time);
          LeavingCheckoutKeepsSafe(before, Apply(cfg, before, x.lg, x.time).rows);
        }
      } else if x.Linked? {
        LinkKeepsSafe(before, x);
      }
    }
  }

  /** A payment settles the session it names exactly when every field agrees and the session is still unpaid. */
  lemma SettlesExactlyWhenMatching(rows: Rows, ref: SessionId, t: Transaction)
    ensures SettledSession(rows, ref, t).Some? <==>
      && ref != "" && ref in rows.sessions
      && rows.sessions[ref].merchant == t.merchant && rows.sessions[ref].currency == t.currency
      && rows.sessions[ref].mode == t.mode && SameAmount(rows.sessions[ref].amount, t.amount)
      && rows.sessions[ref].status != Confirmed && !HasTransaction(rows, ref)
  {
  }

  /** The paid amount is compared as a number: a session amount matches when it denotes the event's amount. */
  lemma AmountsCompareAsNumbers(stored: string, paid: nat)
    ensures SameAmount(stored, Decimal.Print(paid)) <==> Decimal.ParseInteger(stored) == Some(paid)
  {
    Decimal.ParsePrint(paid);
  }

  // ----- The session reference -----

  predicate Printable(id: string) {
    forall i :: 0 <= i < |id| ==> 0x20 as char <= id[i] <= 0x7E as char
  }

  /** The bytes32 a checkout writes: the id's characters, padded with NUL bytes. */
  function EncodeSessionRef(id: string, padding: nat): seq<byte>
    requires Printable(id)
  {
    if id == [] then seq(padding, _ => 0) else [id[0] as int] + EncodeSessionRef(id[1..], padding)
  }

  lemma {:induction false} SessionRefRoundTrip(id: string, padding: nat)
    requires Printable(id)
    ensures PrintableUpToNul(EncodeSessionRef(id, padding))
    ensures DecodeSessionRef(EncodeSessionRef(id, padding)) == id
  {
    if id != [] {
      SessionRefRoundTrip(id[1..], padding);
      assert EncodeSessionRef(id, padding)[1..] == EncodeSessionRef(id[1..], padding);
    } else if padding > 0 {
      assert EncodeSessionRef(id, padding)[0] == 0;
    }
  }

  /** Where the reference ends: its first NUL byte, or the end. */
  function RefLength(ref: seq<byte>): (n: nat)
    ensures n <= |ref| && (n < |ref| ==> ref[n] == 0) && forall i :: 0 <= i < n ==> ref[i] != 0
  {
    if ref == [] || ref[0] == 0 then 0 else 1 + RefLength(ref[1..])
  }

  /** The reference reads byte by byte up to its first NUL, and as nothing at all when one of those is not printable. */
  lemma {:induction false} RefReads(ref: seq<byte>)
    ensures var id, n := DecodeSessionRef(ref), RefLength(ref);
      if forall i :: 0 <= i < n ==> 32 <= ref[i] <= 126
      then |id| == n && forall i :: 0 <= i < n ==> id[i] as int == ref[i]
      else id == ""
    ensures PrintableUpToNul(ref) <==> forall i :: 0 <= i < RefLength(ref) ==> 32 <= ref[i] <= 126
  {
    if ref != [] && ref[0] != 0 {
      RefReads(ref[1..]);
      var n, rest := RefLength(ref), ref[1..];
      assert forall i :: 1 <= i < n ==> ref[i] == rest[i - 1];
      assert forall i :: 0 <= i < n - 1 ==> rest[i] == ref[i + 1];
    }
  }
}
