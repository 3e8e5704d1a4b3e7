/** The transactions: what each says of the one log it records, over every feed. */
module Receipts {
  import opened Prelude
  import opened Chain
  import opened Ledger
  import opened Projection
  import opened Feed
  import opened Footprint
  import opened Windows
  import Decimal

  predicate MovesMoney(e: Event) { e.PaymentExecuted? || e.SubscriptionCharged? }

  /** A transaction stays as it is; a log adds one under its own key at most. */
  ghost predicate TransactionsStay(rows: Rows, after: Rows, key: LogKey) {
    && (forall k :: k in rows.transactions ==> k in after.transactions && after.transactions[k] == rows.transactions[k])
    && (forall k :: k in after.transactions ==> k in rows.transactions || k == key)
  }

  lemma PaymentTransactions(cfg: Config, rows: Rows, lg: Log, time: int)
    requires lg.event.PaymentExecuted? && Apply(cfg, rows, lg, time).Written?
    ensures TransactionsStay(rows, Apply(cfg, rows, lg, time).rows, lg.Key())
  {
    var e := lg.event;
    assert Apply(cfg, rows, lg, time) == InsertPayment(cfg, rows, lg, time, e);
    if lg.Key() !in rows.transactions {
      var t := PaymentRow(cfg, rows, FindMerchant(rows, e.merchant).value, lg, time, e);
      assert Apply(cfg, rows, lg, time).rows == RecordPayment(rows, lg.Key(), DecodeSessionRef(e.ref), t);
    }
  }

  lemma ChargeTransactions(cfg: Config, rows: Rows, lg: Log, time: int)
    requires lg.event.SubscriptionCharged? && Apply(cfg, rows, lg, time).Written?
    ensures TransactionsStay(rows, Apply(cfg, rows, lg, time).rows, lg.Key())
    ensures lg.Key() !in rows.transactions ==> ChargeIsLinked(Apply(cfg, rows, lg, time).rows, lg.event.attempt)
  {
    assert Apply(cfg, rows, lg, time) == InsertCharge(cfg, rows, lg, time, lg.event);
    var after := Apply(cfg, rows, lg, time).rows;
    if lg.Key() !in rows.transactions {
      assert lg.Key() in after.transactions
        && after.transactions[lg.Key()].source == SubscriptionCharge(lg.event.sub, lg.event.attempt);
    }
  }

  lemma RegistryTransactions(cfg: Config, rows: Rows, lg: Log, time: int)
    requires lg.event.MerchantRegistered? || lg.event.PayoutUpdated? || lg.event.FeeUpdated? || lg.event.Unsubscribed?
    requires Apply(cfg, rows, lg, time).Written?
    ensures Apply(cfg, rows, lg, time).rows.transactions == rows.transactions
  {
    match lg.event
    case MerchantRegistered(_, _, _) => assert Apply(cfg, rows, lg, time) == LinkMerchant(rows, lg, time, lg.event);
    case PayoutUpdated(_, _) =>
    case FeeUpdated(_, _) =>
    case Unsubscribed =>
  }

  lemma OtherTransactions(cfg: Config, rows: Rows, lg: Log, time: int)
    requires lg.event.Transfer? || lg.event.Governance? || lg.event.Operation? || lg.event.JobMoved?
    requires Apply(cfg, rows, lg, time).Written?
    ensures Apply(cfg, rows, lg, time).rows.transactions == rows.transactions
  {
    match lg.event
    case Transfer => assert Apply(cfg, rows, lg, time).rows == CompleteRefund(rows, lg, time);
    case Governance(_, _, _) =>
    case Operation(_, _) =>
    case JobMoved(_, _) => assert Apply(cfg, rows, lg, time) == MoveJob(rows, lg.event);
  }

  lemma TransactionStep(cfg: Config, rows: Rows, lg: Log, time: int)
    requires Apply(cfg, rows, lg, time).Written?
    ensures TransactionsStay(rows, Apply(cfg, rows, lg, time).rows, lg.Key())
    ensures !MovesMoney(lg.event) ==> Apply(cfg, rows, lg, time).rows.transactions == rows.transactions
  {
    hide Apply;
    match lg.event
    case PaymentExecuted(_, _, _, _, _, _, _) => PaymentTransactions(cfg, rows, lg, time);
    case SubscriptionCreated(_, _, _, _, _, _, _) => CreatedFootprint(cfg, rows, lg, time);
    case SubscriptionCharged(_, _, _, _, _, _) => ChargeTransactions(cfg, rows, lg, time);
    case PeriodsSkipped(_, _, _) => PeriodsSkippedFootprint(cfg, rows, lg, time);
    case ChargeSkipped(_, _, _) => SkippedFootprint(cfg, rows, lg, time);
    case SubscriptionCancelled(_, _) => CancelledFootprint(cfg, rows, lg, time);
    case Undecodable => UndecodableNeverLands(cfg, rows, lg, time);
    case Transfer => OtherTransactions(cfg, rows, lg, time);
    case Governance(_, _, _) => OtherTransactions(cfg, rows, lg, time);
    case Operation(_, _) => OtherTransactions(cfg, rows, lg, time);
    case JobMoved(_, _) => OtherTransactions(cfg, rows, lg, time);
    case _ => RegistryTransactions(cfg, rows, lg, time);
  }

  // ----- What a transaction says -----

  /** The stored amounts denote the event's own integers. */
  predicate Denotes(t: Transaction, amount: nat, fee: nat, net: nat) {
    && Decimal.ParseInteger(t.amount) == Some(amount)
    && Decimal.ParseInteger(t.fee) == Some(fee)
    && Decimal.ParseInteger(t.net) == Some(net)
  }

  predicate StampedBy(cfg: Config, lg: Log, time: int, t: Transaction) {
    t.block == lg.block && t.time == time && t.mode == cfg.mode
  }

  predicate PaidTo(rows: Rows, m: MerchantId, t: Transaction) {
    t.merchant == m && t.merchantAddress == if m in rows.merchants then rows.merchants[m].payout else ""
  }

  /** A payment's transaction, on the rows it came to: the linked merchant's, in the token paid. */
  predicate PaymentReceipt(cfg: Config, rows: Rows, lg: Log, time: int, t: Transaction)
    requires lg.event.PaymentExecuted?
  {
    var e := lg.event;
    && e.merchant in rows.links && e.token in cfg.tokens && t.source.OneShot?
    && PaidTo(rows, rows.links[e.merchant], t) && Denotes(t, e.amount, e.fee, e.net)
    && t.currency == cfg.tokens[e.token] && t.payer == e.payer && StampedBy(cfg, lg, time, t)
  }

  /** A charge's transaction: the subscription's merchant, payer and currency. */
  predicate ChargeReceipt(cfg: Config, rows: Rows, lg: Log, time: int, t: Transaction)
    requires lg.event.SubscriptionCharged?
  {
    var e := lg.event;
    && e.sub in rows.subscriptions && t.source == SubscriptionCharge(e.sub, e.attempt)
    && (var s := rows.subscriptions[e.sub];
        && PaidTo(rows, s.merchant, t) && Denotes(t, e.amount, e.fee, e.net)
        && t.currency == s.currency && t.payer == s.payer && StampedBy(cfg, lg, time, t))
  }

  predicate Receipt(cfg: Config, rows: Rows, lg: Log, time: int, t: Transaction)
    requires MovesMoney(lg.event)
  {
    if lg.event.PaymentExecuted? then PaymentReceipt(cfg, rows, lg, time, t) else ChargeReceipt(cfg, rows, lg, time, t)
  }

  lemma PrintedDenote(t: Transaction, amount: nat, fee: nat, net: nat)
    requires t.amount == Decimal.Print(amount) && t.fee == Decimal.Print(fee) && t.net == Decimal.Print(net)
    ensures Denotes(t, amount, fee, net)
  {
    Decimal.ParsePrint(amount);
    Decimal.ParsePrint(fee);
    Decimal.ParsePrint(net);
  }

  lemma PaymentLeavesReceipt(cfg: Config, rows: Rows, lg: Log, time: int)
    requires lg.event.PaymentExecuted? && Apply(cfg, rows, lg, time).Written? && lg.Key() !in rows.transactions
    ensures lg.Key() in Apply(cfg, rows, lg, time).rows.transactions
    ensures PaymentReceipt(cfg, rows, lg, time, Apply(cfg, rows, lg, time).rows.transactions[lg.Key()])
  {
    var e := lg.event;
    assert Apply(cfg, rows, lg, time) == InsertPayment(cfg, rows, lg, time, e);
    var t := PaymentRow(cfg, rows, FindMerchant(rows, e.merchant).value, lg, time, e);
    assert Apply(cfg, rows, lg, time).rows == RecordPayment(rows, lg.Key(), DecodeSessionRef(e.ref), t);
    PrintedDenote(t, e.amount, e.fee, e.net);
    hide Apply, SettledSession, ConfirmSession, SettleInvoice, PaymentEvents, MismatchAudits, DecodeSessionRef;
    hide Decimal.Print, Decimal.ParseInteger;
  }

  lemma ChargeLeavesReceipt(cfg: Config, rows: Rows, lg: Log, time: int)
    requires lg.event.SubscriptionCharged? && Apply(cfg, rows, lg, time).Written? && lg.Key() !in rows.transactions
    ensures lg.Key() in Apply(cfg, rows, lg, time).rows.transactions
    ensures ChargeReceipt(cfg, rows, lg, time, Apply(cfg, rows, lg, time).rows.transactions[lg.Key()])
  {
    var e := lg.event;
    assert Apply(cfg, rows, lg, time) == InsertCharge(cfg, rows, lg, time, e);
    var s := rows.subscriptions[e.sub];
    PrintedDenote(ChargeTransaction(cfg, s, Payout(rows, s.merchant), lg, time, e), e.amount, e.fee, e.net);
    hide Apply, Decimal.Print, Decimal.ParseInteger, ChargedRow, PaidUp, ChargeIsLinked;
  }

  // ----- Over every feed -----

  /** The `i`-th input is the first log under its key to move money. */
  ghost predicate FirstReceipt(cfg: Config, rows: Rows, xs: seq<Input>, i: int) {
    && 0 <= i < |xs| && AbsorbAll(cfg, rows, xs[..i]).Some? && Lands(cfg, AbsorbAll(cfg, rows, xs[..i]).value, xs[i])
    && MovesMoney(xs[i].lg.event) && xs[i].lg.Key() !in AbsorbAll(cfg, rows, xs[..i]).value.transactions
  }

  /** The transaction under the `i`-th log's key records that log, on the rows it came to. */
  ghost predicate Recorded(cfg: Config, rows: Rows, xs: seq<Input>, i: int, after: Rows)
    requires FirstReceipt(cfg, rows, xs, i)
  {
    xs[i].lg.Key() in after.transactions
    && Receipt(cfg, AbsorbAll(cfg, rows, xs[..i]).value, xs[i].lg, xs[i].time, after.transactions[xs[i].lg.Key()])
  }

  lemma ReceiptInPrefix(cfg: Config, rows: Rows, xs: seq<Input>, i: int)
    requires xs != [] && 0 <= i < |xs| - 1
    ensures xs[..|xs| - 1][..i] == xs[..i] && xs[..|xs| - 1][i] == xs[i]
    ensures FirstReceipt(cfg, rows, xs[..|xs| - 1], i) == FirstReceipt(cfg, rows, xs, i)
  {
    assert xs[..|xs| - 1][..i] == xs[..i];
  }

  ghost predicate KeepsTransactions(rows: Rows, after: Rows) {
    forall k :: k in rows.transactions ==> k in after.transactions && after.transactions[k] == rows.transactions[k]
  }

  lemma InputKeepsTransactions(cfg: Config, rows: Rows, x: Input)
    requires Absorb(cfg, rows, x).Some?
    ensures KeepsTransactions(rows, Absorb(cfg, rows, x).value)
    ensures !(Lands(cfg, rows, x) && MovesMoney(x.lg.event)) ==>
      Absorb(cfg, rows, x).value.transactions == rows.transactions
    ensures forall k :: k in Absorb(cfg, rows, x).value.transactions && k !in rows.transactions ==>
      Lands(cfg, rows, x) && k == x.lg.Key()
  {
    hide Apply;
    if Lands(cfg, rows, x) { TransactionStep(cfg, rows, x.lg, x.time); }
  }

  lemma LandedIsRecorded(cfg: Config, rows: Rows, x: Input)
    requires Lands(cfg, rows, x) && MovesMoney(x.lg.event) && x.lg.Key() !in rows.transactions
    ensures Absorb(cfg, rows, x).Some? && x.lg.Key() in Absorb(cfg, rows, x).value.transactions
    ensures Receipt(cfg, rows, x.lg, x.time, Absorb(cfg, rows, x).value.transactions[x.lg.Key()])
  {
    LandedChargeApplies(cfg, rows, x);
    hide Apply, PaymentReceipt, ChargeReceipt;
    if x.lg.event.PaymentExecuted? {
      PaymentLeavesReceipt(cfg, rows, x.lg, x.time);
    } else {
      ChargeLeavesReceipt(cfg, rows, x.lg, x.time);
    }
  }

  /** Every payment and charge that landed keeps to the end of the feed the transaction that records it. */
  lemma {:induction false} ReceiptsStand(cfg: Config, rows: Rows, xs: seq<Input>)
    requires AbsorbAll(cfg, rows, xs).Some?
    ensures forall i :: FirstReceipt(cfg, rows, xs, i) ==> Recorded(cfg, rows, xs, i, AbsorbAll(cfg, rows, xs).value)
  {
    hide Apply, Absorb, Lands, Receipt;
    if xs != [] {
      var front, last := xs[..|xs| - 1], |xs| - 1;
      ReceiptsStand(cfg, rows, front);
      var before := AbsorbAll(cfg, rows, front).value;
      InputKeepsTransactions(cfg, before, xs[last]);
      forall i | FirstReceipt(cfg, rows, xs, i) ensures Recorded(cfg, rows, xs, i, AbsorbAll(cfg, rows, xs).value) {
        if i < last {
          ReceiptInPrefix(cfg, rows, xs, i);
          assert Recorded(cfg, rows, front, i, before);
        } else {
          LandedIsRecorded(cfg, before, xs[last]);
        }
      }
    }
  }

  lemma {:induction false} TransactionsGrow(cfg: Config, rows: Rows, xs: seq<Input>)
    requires AbsorbAll(cfg, rows, xs).Some?
    ensures KeepsTransactions(rows, AbsorbAll(cfg, rows, xs).value)
  {
    hide Apply, Absorb;
    if xs != [] {
      TransactionsGrow(cfg, rows, xs[..|xs| - 1]);
      InputKeepsTransactions(cfg, AbsorbAll(cfg, rows, xs[..|xs| - 1]).value, xs[|xs| - 1]);
    }
  }

  /** And there is no other: a transaction was there before the feed, or records a log of it. */
  lemma {:induction false} EveryTransactionHasItsLog(cfg: Config, rows: Rows, xs: seq<Input>, k: LogKey)
    requires AbsorbAll(cfg, rows, xs).Some? && k in AbsorbAll(cfg, rows, xs).value.transactions
    ensures if k in rows.transactions then AbsorbAll(cfg, rows, xs).value.transactions[k] == rows.transactions[k]
            else exists i :: FirstReceipt(cfg, rows, xs, i) && xs[i].lg.Key() == k
  {
    hide Apply, Absorb;
    if xs != [] {
      var front, last := xs[..|xs| - 1], |xs| - 1;
      var before := AbsorbAll(cfg, rows, front).value;
      InputKeepsTransactions(cfg, before, xs[last]);
      if k in before.transactions {
        EveryTransactionHasItsLog(cfg, rows, front, k);
        if k !in rows.transactions {
          var i :| FirstReceipt(cfg, rows, front, i) && front[i].lg.Key() == k;
          ReceiptInPrefix(cfg, rows, xs, i);
          assert FirstReceipt(cfg, rows, xs, i) && xs[i].lg.Key() == k;
        }
      } else {
        TransactionsGrow(cfg, rows, front);
        assert FirstReceipt(cfg, rows, xs, last) && xs[last].lg.Key() == k;
      }
    }
  }
}
