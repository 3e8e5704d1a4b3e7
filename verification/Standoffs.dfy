/**
 Two databases the runner can come to in which a payment whose merchant is linked waits for ever: behind fifty logs that
 cannot be decoded, and behind the second of two enrolments that parked together.
 */
module Standoffs {
  import opened Prelude
  import opened Chain
  import opened Ledger
  import opened Projection
  import opened Feed
  import opened Footprint
  import opened Replay
  import opened Conservation
  import opened Parking
  import opened Passes
  import opened RetryPass
  import opened Starvation
  import opened FatalLogs
  import opened Obstacles
  import opened Standstill

  function Tokens(): Config { Config(map["token" := "USDC"], "live") }

  /** One merchant, not linked yet. */
  function Shop(): Database {
    Database(NoRows().(merchants := map["m" := Merchant("payout", 0, 0, None, None)]), map[], map[])
  }

  function Payment(): Log {
    Log("payments", 2, 0, "pay", PaymentExecuted(1, "payer", "token", 5, 0, 5, []))
  }

  const LINKED := map[1 := "m"]

  lemma PaymentNeedsLink(rows: Rows)
    requires Payment().Key() !in rows.transactions
    ensures rows.links == map[] ==> Apply(Tokens(), rows, Payment(), 20) == Unresolvable(UnlinkedMerchant)
    ensures rows.links == LINKED ==> Apply(Tokens(), rows, Payment(), 20).Written?
  {
    assert Apply(Tokens(), rows, Payment(), 20) == InsertPayment(Tokens(), rows, Payment(), 20, Payment().event);
  }

  lemma LinkingLinks(d: Database)
    requires "m" in d.rows.merchants && d.rows.links == map[]
    ensures Advance(Tokens(), d, Visit("m", 1)) == Some(d.(rows := d.rows.(links := LINKED)))
  {
    hide Apply;
  }

  // ----- Behind fifty undecodable logs -----

  function Garbage(i: nat): Log { Log("registry", 1, i, "g", Undecodable) }

  function Heap(n: nat): seq<Step> {
    if n == 0 then [] else Heap(n - 1) + [Stream(Garbage(n - 1), 10)]
  }

  function HeapLetters(n: nat): (letters: map<LogKey, Letter>)
    ensures forall k :: k in letters <==> k.tx == "g" && k.index < n
    ensures forall k :: k in letters ==> letters[k] == Letter(Garbage(k.index), 10, UndecodableLog, 1, false)
  {
    if n == 0 then map[]
    else HeapLetters(n - 1)[Garbage(n - 1).Key() := Letter(Garbage(n - 1), 10, UndecodableLog, 1, false)]
  }

  function HeapKeys(n: nat): (keys: set<LogKey>)
    ensures |keys| == n && forall k :: k in keys <==> k.tx == "g" && k.index < n
  {
    if n == 0 then {} else HeapKeys(n - 1) + {LogKey("g", n - 1)}
  }

  /** `n` letters of logs that cannot be decoded, over the shop's rows. */
  function Heaped(n: nat): Database { Shop().(letters := HeapLetters(n)) }

  lemma HeapGrows(n: nat)
    ensures Advance(Tokens(), Heaped(n), Stream(Garbage(n), 10)) == Some(Heaped(n + 1))
  {
    hide Apply;
    UndecodableNeverLands(Tokens(), Heaped(n).rows, Garbage(n), 10);
    ParkOutcome(Tokens(), Heaped(n), Garbage(n), 10);
    assert Garbage(n).Key() !in HeapLetters(n);
  }

  lemma NoHeap()
    ensures Run(Tokens(), Shop(), Heap(0)) == Some(Heaped(0))
  {
  }

  lemma {:induction false} HeapStreams(n: nat)
    ensures Streaming(Heap(n))
  {
    if n > 0 { HeapStreams(n - 1); }
  }

  lemma {:induction false} HeapParks(n: nat)
    ensures Run(Tokens(), Shop(), Heap(n)) == Some(Heaped(n))
  {
    hide Run, Advance, Shop, Heaped, Tokens, Garbage;
    if n == 0 {
      NoHeap();
    } else {
      HeapParks(n - 1);
      HeapGrows(n - 1);
      RunOneMore(Tokens(), Shop(), Heap(n - 1), Stream(Garbage(n - 1), 10));
    }
  }

  /** Fifty undecodable logs, a payment of an unlinked merchant, and then the link. */
  function HeapHistory(): seq<Step> {
    Heap(RETRY_LIMIT) + [Stream(Payment(), 20)] + [Visit("m", 1)]
  }

  lemma HeapHistoryStreams(n: nat)
    ensures Streaming(Heap(n) + [Stream(Payment(), 20)] + [Visit("m", 1)])
  {
    HeapStreams(n);
    hide Heap;
  }

  lemma PaymentIsNotGarbage(n: nat)
    ensures Payment().Key() !in HeapLetters(n) && Heaped(n) == Shop().(letters := HeapLetters(n))
    ensures Payment().Key().tx != "g" && Payment().block > 1
    ensures ParkedPayment() == Letter(Payment(), 20, UnlinkedMerchant, 1, false)
  {
  }

  lemma PaymentLands(rows: Rows)
    requires rows == Shop().rows.(links := LINKED)
    ensures Apply(Tokens(), rows, Payment(), 20).Written?
  {
    PaymentNeedsLink(rows);
  }

  function ParkedPayment(): Letter { Letter(Payment(), 20, UnlinkedMerchant, 1, false) }

  /** The payment parks over the shop's rows, and then its merchant is linked. */
  lemma ParksThenLinks(h: seq<Step>, letters: map<LogKey, Letter>) returns (d: Database)
    requires Run(Tokens(), Shop(), h) == Some(Shop().(letters := letters)) && Payment().Key() !in letters
    ensures Run(Tokens(), Shop(), h + [Stream(Payment(), 20)] + [Visit("m", 1)]) == Some(d)
    ensures d.rows == Shop().rows.(links := LINKED) && d.letters == letters[Payment().Key() := ParkedPayment()]
  {
    hide Run, Apply;
    var before := Shop().(letters := letters);
    PaymentNeedsLink(before.rows);
    ParkOutcome(Tokens(), before, Payment(), 20);
    RunOneMore(Tokens(), Shop(), h, Stream(Payment(), 20));
    var parked := Run(Tokens(), Shop(), h + [Stream(Payment(), 20)]).value;
    LinkingLinks(parked);
    RunOneMore(Tokens(), Shop(), h + [Stream(Payment(), 20)], Visit("m", 1));
    d := Run(Tokens(), Shop(), h + [Stream(Payment(), 20)] + [Visit("m", 1)]).value;
  }

  lemma StarvedBehindHeap(letters: map<LogKey, Letter>, n: nat, key: LogKey, parked: Letter)
    requires letters == HeapLetters(n)[key := parked] && key.tx != "g" && !parked.resolved && parked.lg.block > 1
    ensures Waiting(letters, key) && n <= |HopelessBefore(Tokens(), letters, key)|
  {
    hide Tokens;
    forall q | q in HeapKeys(n) ensures q in HopelessBefore(Tokens(), letters, key) {
      assert q in HeapLetters(n) && q != key;
    }
    SubsetIsSmaller(HeapKeys(n), HopelessBefore(Tokens(), letters, key));
  }

  /** The payment could be projected now, but is starved. */
  lemma PaymentStarves() returns (d: Database)
    ensures Run(Tokens(), Shop(), HeapHistory()) == Some(d) && Streaming(HeapHistory())
    ensures Starved(Tokens(), d.letters, Payment().Key())
    ensures Apply(Tokens(), d.rows, Payment(), 20).Written?
  {
    var n := RETRY_LIMIT;
    PaymentIsNotGarbage(n);
    hide *;
    HeapParks(n);
    d := ParksThenLinks(Heap(n), HeapLetters(n));
    HeapHistoryStreams(n);
    PaymentLands(d.rows);
    StarvedBehindHeap(d.letters, n, Payment().Key(), ParkedPayment());
  }

  // ----- Behind one of two enrolments that parked together -----

  /** The enrolments share their transaction. */
  function Enrolment(sub: nat): Log {
    Log("subscriptions", 1, sub, "tx", SubscriptionCreated(sub, 1, "payer", "token", 5, 30, 0))
  }

  function ParkedEnrolment(sub: nat): Letter { Letter(Enrolment(sub), 10, UnlinkedMerchant, 1, false) }

  /** Both enrolments and a payment of their unlinked merchant park; then the merchant is linked. */
  function PairBatch(): seq<Step> {
    [] + [Stream(Enrolment(1), 10)] + [Stream(Enrolment(2), 10)] + [Stream(Payment(), 20)] + [Visit("m", 1)]
  }

  function PairLetters(): map<LogKey, Letter> {
    map[Enrolment(1).Key() := ParkedEnrolment(1), Enrolment(2).Key() := ParkedEnrolment(2),
        Payment().Key() := ParkedPayment()]
  }

  lemma EnrolmentOutcome(rows: Rows, sub: nat)
    requires sub !in rows.subscriptions
    ensures rows.links == map[] ==> Apply(Tokens(), rows, Enrolment(sub), 10) == Unresolvable(UnlinkedMerchant)
    ensures rows.links == LINKED && rows.subscriptions == map[] ==>
      var after := Apply(Tokens(), rows, Enrolment(sub), 10);
      && after.Written? && after.rows.links == LINKED && after.rows.transactions == rows.transactions
      && after.rows.subscriptions.Keys == {sub} && after.rows.subscriptions[sub].enrolmentTx == Some("tx")
  {
    assert Apply(Tokens(), rows, Enrolment(sub), 10) == Enrol(Tokens(), rows, Enrolment(sub), 10, Enrolment(sub).event);
  }

  lemma EnrolmentParks(d: Database, h: seq<Step>, sub: nat)
    requires Run(Tokens(), Shop(), h) == Some(d) && d.rows == Shop().rows && Enrolment(sub).Key() !in d.letters
    ensures Run(Tokens(), Shop(), h + [Stream(Enrolment(sub), 10)]) ==
      Some(d.(letters := d.letters[Enrolment(sub).Key() := ParkedEnrolment(sub)]))
  {
    hide Run, Apply;
    EnrolmentOutcome(d.rows, sub);
    ParkOutcome(Tokens(), d, Enrolment(sub), 10);
    RunOneMore(Tokens(), Shop(), h, Stream(Enrolment(sub), 10));
  }

  lemma PairParks() returns (d: Database)
    ensures Run(Tokens(), Shop(), PairBatch()) == Some(d) && Streaming(PairBatch())
    ensures d.rows == Shop().rows.(links := LINKED) && d.letters == PairLetters()
  {
    var first := [] + [Stream(Enrolment(1), 10)];
    var second := first + [Stream(Enrolment(2), 10)];
    assert Run(Tokens(), Shop(), []) == Some(Shop());
    hide Run, Tokens;
    EnrolmentParks(Shop(), [], 1);
    EnrolmentParks(Run(Tokens(), Shop(), first).value, first, 2);
    d := ParksThenLinks(second, Run(Tokens(), Shop(), second).value.letters);
  }

  function PairList(): seq<Log> { [Enrolment(1), Enrolment(2), Payment()] }

  lemma PairWaits()
    ensures WaitingAre(PairLetters(), PairList()) && OwnKeys(PairLetters())
    ensures Enrolment(1).Key() in PairLetters()
  {
  }

  /** The first enrolment lands, and from then on the second is doomed. */
  lemma FirstOfPairLands(d: Database) returns (after: Database)
    requires d.rows == Shop().rows.(links := LINKED) && d.letters == PairLetters()
    ensures Run(Tokens(), d, [Retry(Enrolment(1).Key())]) == Some(after)
    ensures Enrolment(1).Key() in d.letters && after.letters == Resolve(d.letters, Enrolment(1).Key())
    ensures DoomedLetter(Tokens(), after, Enrolment(2).Key())
    ensures after.rows.links == LINKED && Payment().Key() !in after.rows.transactions
  {
    var k := Enrolment(1).Key();
    EnrolmentOutcome(d.rows, 1);
    assert Run(Tokens(), d, []) == Some(d);
    hide Run, Apply;
    RunOneMore(Tokens(), d, [], Retry(k));
    assert [] + [Retry(k)] == [Retry(k)];
    after := Run(Tokens(), d, [Retry(k)]).value;
    assert 1 in after.rows.subscriptions && after.rows.subscriptions[1].enrolmentTx == Some("tx");
    assert EnrolmentTaken(after.rows, "tx");
  }

  lemma FirstOfList()
    ensures var all := PairList();
      all[..1] == [Enrolment(1)] && all[1] == Enrolment(2) && Retries(all[..1]) == [Retry(Enrolment(1).Key())]
  {
    assert [Enrolment(1)][..0] == [] && Retries([]) == [];
    assert PairList()[..1] == [Enrolment(1)];
  }

  lemma SecondIsDoomed(after: Database)
    requires DoomedLetter(Tokens(), after, Enrolment(2).Key()) && after.letters[Enrolment(2).Key()].lg == Enrolment(2)
    ensures Doomed(Tokens(), after.rows, Enrolment(2), 10)
  {
  }

  lemma SecondStops(d: Database)
    requires d.rows == Shop().rows.(links := LINKED) && d.letters == PairLetters()
    ensures StoppedPass(Tokens(), d, [Retry(Enrolment(1).Key())], true)
  {
    var all, steps, k := PairList(), [Retry(Enrolment(1).Key())], Enrolment(2).Key();
    assert k in PairLetters() && k != Enrolment(1).Key() && PairLetters()[k] == ParkedEnrolment(2);
    hide Run, WaitingAre, Retries, DoomedLetter, Doomed, PairLetters, Shop, Tokens;
    PairWaits();
    FirstOfList();
    var after := FirstOfPairLands(d);
    SecondIsDoomed(after);
    assert DoomedInTurn(Tokens(), d, all, 1);
    assert StoppedPassOf(Tokens(), d, steps, true, all, 1);
  }

  /**
   Two letters are enough: once the merchant is linked the pass lands the first enrolment and stops at the second, for
   good, before a payment that could be projected.
   */
  lemma PairStopsPayment() returns (linked: Database, after: Database)
    ensures Run(Tokens(), Shop(), PairBatch()) == Some(linked)
    ensures StoppedPass(Tokens(), linked, [Retry(Enrolment(1).Key())], true)
    ensures Run(Tokens(), Shop(), PairBatch() + [Retry(Enrolment(1).Key())]) == Some(after)
    ensures Patient(Tokens(), Shop(), [PairBatch(), [Retry(Enrolment(1).Key())]], Some(RETRY_LIMIT))
    ensures DoomedLetter(Tokens(), after, Enrolment(2).Key())
    ensures Waiting(after.letters, Payment().Key())
    ensures Behind(after.letters, Enrolment(2).Key(), Payment().Key())
    ensures Apply(Tokens(), after.rows, Payment(), 20).Written?
  {
    hide Run, Apply, StoppedPass, DoomedLetter, Patient, PairBatch, Shop, PairLetters, Tokens;
    linked := PairParks();
    PairWaits();
    SecondStops(linked);
    after := FirstOfPairLands(linked);
    PaymentBehind();
    PaymentNeedsLink(after.rows);
    RunConcat(Tokens(), Shop(), PairBatch(), [Retry(Enrolment(1).Key())]);
    PairIsPatient(linked);
  }

  lemma PaymentBehind()
    ensures Enrolment(1).Key() in PairLetters()
    ensures var letters := Resolve(PairLetters(), Enrolment(1).Key());
      Waiting(letters, Payment().Key()) && Behind(letters, Enrolment(2).Key(), Payment().Key())
  {
  }

  lemma PairIsPatient(linked: Database)
    requires Run(Tokens(), Shop(), PairBatch()) == Some(linked) && Streaming(PairBatch())
    requires linked.letters == PairLetters()
    ensures Patient(Tokens(), Shop(), [PairBatch(), [Retry(Enrolment(1).Key())]], Some(RETRY_LIMIT))
  {
    var batch, pass := PairBatch(), [Retry(Enrolment(1).Key())];
    assert Flatten([]) == [] && Patient(Tokens(), Shop(), [], Some(RETRY_LIMIT));
    hide Run, Patient, Flatten, PairBatch, WaitingAre, Streaming, PartialPass, PairLetters, Shop, Tokens;
    PairWaits();
    FirstRetryIsAPass(linked, PairList(), RETRY_LIMIT);
    OneMorePhase(Tokens(), Shop(), [], Some(RETRY_LIMIT), batch);
    assert [] + [batch] == [batch] && [] + batch == batch;
    OneMorePhase(Tokens(), Shop(), [batch], Some(RETRY_LIMIT), pass);
    assert [batch] + [pass] == [batch, pass];
  }
}
