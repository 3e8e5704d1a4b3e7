/** Checkout over every feed: which payment settles a session, and what that does to the session and its invoice. */
module Checkout {
  import opened Prelude
  import opened Chain
  import opened Ledger
  import opened Projection
  import opened Feed
  import opened Footprint
  import opened Windows
  import opened Receipts
  import opened Sessions
  import Decimal

  // ----- What one payment settles -----

  /** The payment names the session and agrees with it in every field, and nothing has paid it yet. */
  predicate PaysFor(cfg: Config, rows: Rows, lg: Log, id: SessionId) {
    && lg.event.PaymentExecuted? && lg.Key() !in rows.transactions
    && id != "" && id == DecodeSessionRef(lg.event.ref) && id in rows.sessions
    && lg.event.merchant in rows.links && lg.event.token in cfg.tokens
    && (var s := rows.sessions[id];
        && s.merchant == rows.links[lg.event.merchant] && Decimal.ParseInteger(s.amount) == Some(lg.event.amount)
        && s.currency == cfg.tokens[lg.event.token] && s.mode == cfg.mode && s.status != Confirmed)
    && !HasTransaction(rows, id)
  }

  predicate Unpaid(invoices: map<SessionId, Invoice>, id: SessionId) {
    id in invoices && invoices[id].status !in {Paid, Void}
  }

  /** Confirmed by this transaction and this payer, with the rest as it was. */
  function ConfirmedBy(s: Session, tx: Hash, payer: Address): Session {
    s.(status := Confirmed, tx := Some(tx), payer := Some(payer))
  }

  /** What settling a session does: the session confirmed, its invoice paid, and both announced in that order. */
  predicate SettlesBy(rows: Rows, after: Rows, id: SessionId, lg: Log, t: Transaction)
    requires lg.event.PaymentExecuted? && id in rows.sessions
  {
    var done := rows.outbox + [WebhookEvent(t.merchant, t.mode, PaymentCompleted(id, lg.Key()))];
    && after.sessions == rows.sessions[id := ConfirmedBy(rows.sessions[id], lg.tx, lg.event.payer)]
    && (if Unpaid(rows.invoices, id)
        then
          after.invoices == rows.invoices[id := rows.invoices[id].(status := Paid)]
          && after.outbox == done + [WebhookEvent(t.merchant, t.mode, InvoicePaid(rows.invoices[id].id, lg.Key()))]
        else after.invoices == rows.invoices && after.outbox == done)
  }

  predicate SameCheckout(rows: Rows, after: Rows) {
    after.sessions == rows.sessions && after.invoices == rows.invoices && after.outbox == rows.outbox
  }

  /** The row is linked to the session its reference names exactly when the payment pays for it. */
  lemma SettledExactly(cfg: Config, rows: Rows, lg: Log, time: int)
    requires lg.event.PaymentExecuted? && lg.Key() !in rows.transactions
    requires lg.event.merchant in rows.links && lg.event.token in cfg.tokens
    ensures var t := PaymentRow(cfg, rows, rows.links[lg.event.merchant], lg, time, lg.event);
      var ref := DecodeSessionRef(lg.event.ref);
      SettledSession(rows, ref, t) == if PaysFor(cfg, rows, lg, ref) then Some(ref) else None
  {
    var t := PaymentRow(cfg, rows, rows.links[lg.event.merchant], lg, time, lg.event);
    var ref := DecodeSessionRef(lg.event.ref);
    SettlesExactlyWhenMatching(rows, ref, t);
    if ref in rows.sessions { AmountsCompareAsNumbers(rows.sessions[ref].amount, lg.event.amount); }
    hide SameAmount, Decimal.Print, Decimal.ParseInteger, HasTransaction, DecodeSessionRef, Mismatches;
  }

  lemma PaymentSettles(cfg: Config, rows: Rows, lg: Log, time: int)
    requires lg.event.PaymentExecuted? && Apply(cfg, rows, lg, time).Written?
    ensures var after, id := Apply(cfg, rows, lg, time).rows, DecodeSessionRef(lg.event.ref);
      && lg.Key() in after.transactions
      && (if PaysFor(cfg, rows, lg, id)
          then
            after.transactions[lg.Key()].source == OneShot(Some(id))
            && SettlesBy(rows, after, id, lg, after.transactions[lg.Key()])
          else SameCheckout(rows, after)
               && (lg.Key() !in rows.transactions ==> after.transactions[lg.Key()].source == OneShot(None)))
  {
    var e := lg.event;
    assert Apply(cfg, rows, lg, time) == InsertPayment(cfg, rows, lg, time, e);
    hide Apply, DecodeSessionRef, MismatchAudits, Decimal.ParseInteger, SettledSession, HasTransaction;
    if lg.Key() !in rows.transactions {
      SettledExactly(cfg, rows, lg, time);
      var ref, t := DecodeSessionRef(e.ref), PaymentRow(cfg, rows, rows.links[e.merchant], lg, time, e);
      assert Apply(cfg, rows, lg, time).rows == RecordPayment(rows, lg.Key(), ref, t);
      RecordSettles(rows, lg, ref, t);
      hide RecordPayment, SettlesBy;
      if PaysFor(cfg, rows, lg, ref) { assert SettledSession(rows, ref, t) == Some(ref); }
    }
  }

  lemma RecordSettles(rows: Rows, lg: Log, ref: SessionId, t: Transaction)
    requires lg.event.PaymentExecuted? && t.payer == lg.event.payer
    ensures var after := RecordPayment(rows, lg.Key(), ref, t);
      && after.transactions[lg.Key()] == t.(source := OneShot(SettledSession(rows, ref, t)))
      && (if SettledSession(rows, ref, t).Some?
          then
            SettledSession(rows, ref, t) == Some(ref) && ref in rows.sessions
            && SettlesBy(rows, after, ref, lg, after.transactions[lg.Key()])
          else SameCheckout(rows, after))
  {
    if SettledSession(rows, ref, t).Some? { SettledMatches(rows, ref, t); }
    hide SettledSession, MismatchAudits;
    assert rows.outbox + [] == rows.outbox;
    var after := RecordPayment(rows, lg.Key(), ref, t);
    if SettledSession(rows, ref, t) == Some(ref) && Unpaid(rows.invoices, ref) {
      var done := WebhookEvent(t.merchant, t.mode, PaymentCompleted(ref, lg.Key()));
      var paid := WebhookEvent(t.merchant, t.mode, InvoicePaid(rows.invoices[ref].id, lg.Key()));
      assert rows.outbox + [done, paid] == rows.outbox + [done] + [paid];
    }
  }

  // ----- Over every feed -----

  /** The log that settled the session in the feed. */
  function SettledBy(cfg: Config, rows: Rows, xs: seq<Input>, id: SessionId): Option<Log> {
    if xs == [] then None
    else if SettledBy(cfg, rows, xs[..|xs| - 1], id).Some? then SettledBy(cfg, rows, xs[..|xs| - 1], id)
    else
      match AbsorbAll(cfg, rows, xs[..|xs| - 1])
      case None => None
      case Some(r) =>
        var x := xs[|xs| - 1];
        if Lands(cfg, r, x) && PaysFor(cfg, r, x.lg, id) then Some(x.lg) else None
  }

  /** The session and the invoice of the id after the feed. */
  ghost predicate CheckedOut(rows: Rows, after: Rows, id: SessionId, how: Option<Log>) {
    && (how.Some? ==> how.value.event.PaymentExecuted?)
    && (id in rows.sessions <==> id in after.sessions)
    && (id in rows.invoices <==> id in after.invoices)
    && (id in rows.sessions ==>
          after.sessions[id] ==
            if how.Some? then ConfirmedBy(rows.sessions[id], how.value.tx, how.value.event.payer)
            else rows.sessions[id])
    && (id in rows.invoices ==>
          after.invoices[id] ==
            if how.Some? && Unpaid(rows.invoices, id) then rows.invoices[id].(status := Paid) else rows.invoices[id])
  }

  lemma CheckoutStep(cfg: Config, rows: Rows, x: Input, id: SessionId)
    requires Absorb(cfg, rows, x).Some?
    ensures CheckedOut(rows, Absorb(cfg, rows, x).value, id,
                       if Lands(cfg, rows, x) && PaysFor(cfg, rows, x.lg, id) then Some(x.lg) else None)
  {
    hide Apply, DecodeSessionRef, HasTransaction, Decimal.ParseInteger;
    if Lands(cfg, rows, x) {
      if x.lg.event.PaymentExecuted? {
        PaymentSettles(cfg, rows, x.lg, x.time);
      } else {
        OthersLeaveCheckout(cfg, rows, x.lg, x.time);
      }
    }
  }

  lemma PaidStaysPaid(cfg: Config, rows: Rows, lg: Log, id: SessionId)
    requires id in rows.sessions && rows.sessions[id].status == Confirmed
    ensures !PaysFor(cfg, rows, lg, id)
  {
    hide DecodeSessionRef, HasTransaction, Decimal.ParseInteger;
  }

  lemma PaidWasThere(cfg: Config, rows: Rows, lg: Log, id: SessionId)
    requires PaysFor(cfg, rows, lg, id)
    ensures id in rows.sessions && lg.event.PaymentExecuted?
  {
    hide DecodeSessionRef, HasTransaction, Decimal.ParseInteger;
  }

  lemma StepsCompose(rows: Rows, mid: Rows, after: Rows, id: SessionId, first: Option<Log>, second: Option<Log>)
    requires CheckedOut(rows, mid, id, first) && CheckedOut(mid, after, id, second)
    requires first.None? || second.None?
    ensures CheckedOut(rows, after, id, if first.Some? then first else second)
  {
  }

  /**
   Over every feed a session changes at most once, when the first payment that agrees with it in every field settles it:
   it is then confirmed by that payment, and its invoice, unless paid or void before, is paid. Nothing else touches
   either.
   */
  lemma {:induction false} SettledOnce(cfg: Config, rows: Rows, xs: seq<Input>, id: SessionId)
    requires AbsorbAll(cfg, rows, xs).Some?
    ensures SettledBy(cfg, rows, xs, id).Some? ==> id in rows.sessions
    ensures CheckedOut(rows, AbsorbAll(cfg, rows, xs).value, id, SettledBy(cfg, rows, xs, id))
  {
    hide Apply, Absorb, PaysFor;
    if xs != [] {
      var front, x := xs[..|xs| - 1], xs[|xs| - 1];
      SettledOnce(cfg, rows, front, id);
      var before := AbsorbAll(cfg, rows, front).value;
      CheckoutStep(cfg, before, x, id);
      if Lands(cfg, before, x) {
        if PaysFor(cfg, before, x.lg, id) { PaidWasThere(cfg, before, x.lg, id); }
        if SettledBy(cfg, rows, front, id).Some? { PaidStaysPaid(cfg, before, x.lg, id); }
      }
      var second := if Lands(cfg, before, x) && PaysFor(cfg, before, x.lg, id) then Some(x.lg) else None;
      StepsCompose(rows, before, AbsorbAll(cfg, rows, xs).value, id, SettledBy(cfg, rows, front, id), second);
    }
  }

  // ----- Invoice notices -----

  predicate TurnsPaid(rows: Rows, after: Rows, id: SessionId) {
    Unpaid(rows.invoices, id) && id in after.invoices && after.invoices[id].status == Paid
  }

  lemma NoticeStep(cfg: Config, rows: Rows, x: Input, id: SessionId)
    requires Absorb(cfg, rows, x).Some? && DistinctInvoices(rows) && id in rows.invoices
    ensures var after := Absorb(cfg, rows, x).value;
      && DistinctInvoices(after) && id in after.invoices && after.invoices[id].id == rows.invoices[id].id
      && PaidNotices(after.outbox, rows.invoices[id].id) ==
         PaidNotices(rows.outbox, rows.invoices[id].id) + if TurnsPaid(rows, after, id) then 1 else 0
  {
    hide Apply, DecodeSessionRef, HasTransaction, Decimal.ParseInteger, PaysFor;
    if Lands(cfg, rows, x) {
      if x.lg.event.PaymentExecuted? {
        PaymentSettles(cfg, rows, x.lg, x.time);
        SettlementNotice(cfg, rows, x, id);
      } else {
        OthersLeaveCheckout(cfg, rows, x.lg, x.time);
        QuietNotice(rows, Apply(cfg, rows, x.lg, x.time).rows, id);
      }
    }
  }

  lemma SettlementNotice(cfg: Config, rows: Rows, x: Input, id: SessionId)
    requires Lands(cfg, rows, x) && x.lg.event.PaymentExecuted? && DistinctInvoices(rows) && id in rows.invoices
    ensures Absorb(cfg, rows, x).Some?
    ensures var after := Absorb(cfg, rows, x).value;
      && DistinctInvoices(after) && id in after.invoices && after.invoices[id].id == rows.invoices[id].id
      && PaidNotices(after.outbox, rows.invoices[id].id) ==
         PaidNotices(rows.outbox, rows.invoices[id].id) + if TurnsPaid(rows, after, id) then 1 else 0
  {
    LandedChargeApplies(cfg, rows, x);
    PaymentSettles(cfg, rows, x.lg, x.time);
    hide Apply, Absorb, DecodeSessionRef, PaysFor, PaidNotices;
    var ref, after := DecodeSessionRef(x.lg.event.ref), Absorb(cfg, rows, x).value;
    if PaysFor(cfg, rows, x.lg, ref) {
      var t := after.transactions[x.lg.Key()];
      var done := WebhookEvent(t.merchant, t.mode, PaymentCompleted(ref, x.lg.Key()));
      NoticesOneMore(rows.outbox, done, rows.invoices[id].id);
      if Unpaid(rows.invoices, ref) {
        var paid := WebhookEvent(t.merchant, t.mode, InvoicePaid(rows.invoices[ref].id, x.lg.Key()));
        NoticesOneMore(rows.outbox + [done], paid, rows.invoices[id].id);
      }
    }
  }

  lemma QuietNotice(rows: Rows, after: Rows, id: SessionId)
    requires LeavesCheckout(rows, after) && id in rows.invoices
    ensures PaidNotices(after.outbox, rows.invoices[id].id) == PaidNotices(rows.outbox, rows.invoices[id].id)
  {
    if after.outbox != rows.outbox {
      var e := after.outbox[|after.outbox| - 1];
      assert after.outbox == rows.outbox + [e];
      NoticesOneMore(rows.outbox, e, rows.invoices[id].id);
    }
  }

  /** An invoice is announced as paid exactly when the feed turned it paid, and then once. */
  lemma {:induction false} PaidInvoicesAreAnnounced(cfg: Config, rows: Rows, xs: seq<Input>, id: SessionId)
    requires AbsorbAll(cfg, rows, xs).Some? && DistinctInvoices(rows) && id in rows.invoices
    ensures var after := AbsorbAll(cfg, rows, xs).value;
      && DistinctInvoices(after) && id in after.invoices && after.invoices[id].id == rows.invoices[id].id
      && (after.invoices[id].status == rows.invoices[id].status || TurnsPaid(rows, after, id))
      && PaidNotices(after.outbox, rows.invoices[id].id) ==
         PaidNotices(rows.outbox, rows.invoices[id].id) + if TurnsPaid(rows, after, id) then 1 else 0
  {
    hide Apply, Absorb, PaidNotices, DistinctInvoices, Lands, PaysFor, SettledBy;
    if xs != [] {
      var front, x := xs[..|xs| - 1], xs[|xs| - 1];
      PaidInvoicesAreAnnounced(cfg, rows, front, id);
      NoticeStep(cfg, AbsorbAll(cfg, rows, front).value, x, id);
      CheckoutStep(cfg, AbsorbAll(cfg, rows, front).value, x, id);
    }
  }
}
