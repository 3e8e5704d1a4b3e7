/** Event logs as the indexer sees them after decoding, and the chain order on them. */
module Chain {
  import opened Prelude

  type Hash = string
  type Address = string

  /** `(txHash, logIndex)`: the natural key of one log. */
  datatype LogKey = LogKey(tx: Hash, index: nat)

  /** The contract's ChargeOutcome codes; `Appended` stands for code 0 and any later addition. */
  datatype ChargeOutcome =
    | Appended | Charged | InsufficientFunds | RevokedApproval | CancelledOutcome | NotDue
    | Ended | Duplicate | UnknownOutcome | MerchantInactive | TransferFailed
  {
    predicate IsPaymentFailure() {
      InsufficientFunds? || RevokedApproval? || MerchantInactive? || TransferFailed?
    }
  }

  datatype Event =
    | MerchantRegistered(merchant: int, feeBps: nat, maxFeeBps: nat)
    | PayoutUpdated(merchant: int, payout: Address)
    | FeeUpdated(merchant: int, feeBps: nat)
    | Governance(merchant: int, action: string, alert: bool)
    | Operation(action: string, alert: bool)
    | PaymentExecuted(merchant: int, payer: Address, token: Address, amount: nat, fee: nat, net: nat, ref: seq<byte>)
    | SubscriptionCreated(
        sub: int, merchant: int, payer: Address, token: Address, amount: nat, interval: nat, startAt: int)
    | SubscriptionCharged(sub: int, attempt: Hash, amount: nat, fee: nat, net: nat, nextChargeAt: int)
    | PeriodsSkipped(sub: int, periods: nat, paidPeriodStart: int)
    | ChargeSkipped(sub: int, attempt: Hash, outcome: ChargeOutcome)
    | SubscriptionCancelled(sub: int, canceller: Address)
    | Transfer
    | JobMoved(job: int, status: string)
    | Undecodable
    | Unsubscribed

  datatype Log = Log(address: Address, block: nat, index: nat, tx: Hash, event: Event) {
    function Key(): LogKey { LogKey(tx, index) }
  }

  /** `logs[i]` before `logs[j]` in `sortLogs`: block first, log index second. */
  predicate Less(a: Log, b: Log) {
    a.block < b.block || (a.block == b.block && a.index < b.index)
  }

  ghost predicate InOrder(s: seq<Log>) {
    forall i, j :: 0 <= i < j < |s| ==> !Less(s[j], s[i])
  }

  /** No two logs share a position, a consequence of `(block, index)` naming one log of a chain. */
  ghost predicate ChainOrdered(s: seq<Log>) {
    forall i, j :: 0 <= i < j < |s| ==> Less(s[i], s[j])
  }

  ghost predicate DistinctKeys(s: seq<Log>) {
    forall i, j :: 0 <= i < j < |s| ==> s[i].Key() != s[j].Key()
  }

  /** Places `x` after every log it is not strictly before, so equal positions keep their order. */
  function Insert(s: seq<Log>, x: Log): (r: seq<Log>)
    ensures multiset(r) == multiset(s) + multiset{x}
    ensures |r| == |s| + 1
  {
    if s == [] || !Less(x, s[|s| - 1]) then s + [x]
    else
      assert s == s[..|s| - 1] + [s[|s| - 1]];
      Insert(s[..|s| - 1], x) + [s[|s| - 1]]
  }

  lemma {:induction false} InsertInOrder(s: seq<Log>, x: Log)
    requires InOrder(s)
    ensures InOrder(Insert(s, x))
  {
    if s != [] && Less(x, s[|s| - 1]) {
      var front, last := s[..|s| - 1], s[|s| - 1];
      InsertInOrder(front, x);
      var r := Insert(front, x);
      forall i | 0 <= i < |r| ensures !Less(last, r[i]) {
        assert r[i] in multiset(r);
        assert r[i] in multiset(front) || r[i] == x;
      }
    }
  }

  /** The stable sort `sort.SliceStable` performs on the fetched logs. */
  function Sorted(s: seq<Log>): (r: seq<Log>)
    ensures multiset(r) == multiset(s)
    ensures |r| == |s|
  {
    if s == [] then []
    else
      assert s == s[..|s| - 1] + [s[|s| - 1]];
      Insert(Sorted(s[..|s| - 1]), s[|s| - 1])
  }

  lemma {:induction false} SortedInOrder(s: seq<Log>)
    ensures InOrder(Sorted(s))
  {
    if s != [] {
      SortedInOrder(s[..|s| - 1]);
      InsertInOrder(Sorted(s[..|s| - 1]), s[|s| - 1]);
    }
  }

  /** After the sort blocks never go back, and within a block neither do log indexes. */
  lemma SortedByBlockThenIndex(s: seq<Log>, i: nat, j: nat)
    requires i < j < |s|
    ensures Sorted(s)[i].block <= Sorted(s)[j].block
    ensures Sorted(s)[i].block == Sorted(s)[j].block ==> Sorted(s)[i].index <= Sorted(s)[j].index
  {
    SortedInOrder(s);
  }

  lemma SameFirst(canonical: seq<Log>, other: seq<Log>)
    requires ChainOrdered(canonical) && InOrder(other) && canonical != []
    requires multiset(canonical) == multiset(other)
    ensures other != [] && other[0] == canonical[0]
  {
    assert canonical[0] in multiset(other);
    assert other[0] in multiset(canonical);
    var i :| 0 <= i < |other| && other[i] == canonical[0];
    var j :| 0 <= j < |canonical| && canonical[j] == other[0];
  }

  /** A chain-ordered sequence is the only ordered arrangement of its logs. */
  lemma {:induction false} OrderIsUnique(canonical: seq<Log>, other: seq<Log>)
    requires ChainOrdered(canonical) && InOrder(other)
    requires multiset(canonical) == multiset(other)
    ensures canonical == other
  {
    if canonical == [] {
      assert |multiset(other)| == 0;
    } else {
      SameFirst(canonical, other);
      assert canonical == [canonical[0]] + canonical[1..] && other == [other[0]] + other[1..];
      assert multiset(canonical[1..]) == multiset(canonical) - multiset{canonical[0]};
      assert multiset(other[1..]) == multiset(other) - multiset{other[0]};
      OrderIsUnique(canonical[1..], other[1..]);
    }
  }

  /** Whatever order an endpoint returns a window in, `sortLogs` restores the chain's own. */
  lemma SortRestoresChainOrder(canonical: seq<Log>, fetched: seq<Log>)
    requires ChainOrdered(canonical)
    requires multiset(canonical) == multiset(fetched)
    ensures Sorted(fetched) == canonical
  {
    SortedInOrder(fetched);
    OrderIsUnique(canonical, Sorted(fetched));
  }
}
