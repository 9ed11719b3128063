/**
 Whether a buyer has access to a creator (backend/src/application/membership-access.ts):
 receipts first, then the owner's own coins, writing back what those show.
 */
module MembershipAccess {
  import opened Wrappers
  import opened MembershipContract
  import opened Chain
  import opened Ledger
  import opened LedgerInvariants
  import opened LedgerRuns
  import opened Verifier
  import opened VerifierAnswers

  datatype Receipt = Receipt(transactionId: TxId, buyer: Key, creator: Key, covenantId: Option<CovenantId>)

  /** What the node shows now: the chain, and the buyer's coins as it lists them. */
  datatype Sight = Sight(view: View, coins: seq<Utxo>)

  /** The covenants on record for the creator: the history if the store has one, and the current. */
  datatype Known = Known(history: Option<seq<CovenantId>>, current: Option<CovenantId>)

  function Adding(ids: seq<CovenantId>, id: CovenantId): seq<CovenantId> {
    if id in ids then ids else ids + [id]
  }

  function Distinct(ids: seq<CovenantId>): seq<CovenantId> {
    if ids == [] then [] else Adding(Distinct(ids[..|ids| - 1]), ids[|ids| - 1])
  }

  function CovenantIds(known: Known): seq<CovenantId> {
    var ids := if known.history.Some? then Distinct(known.history.value) else [];
    if known.current.Some? then Adding(ids, known.current.value) else ids
  }

  lemma {:induction false} DistinctKeeps(ids: seq<CovenantId>)
    ensures forall id :: id in Distinct(ids) <==> id in ids
  {
    if ids != [] {
      DistinctKeeps(ids[..|ids| - 1]);
    }
  }

  // ----- the answer, call by call ---------------------------------------------

  function Wanted(ids: seq<CovenantId>): (r: seq<Option<CovenantId>>)
    ensures r != []
  {
    if ids == [] then [None] else seq(|ids|, i requires 0 <= i < |ids| => Some(ids[i]))
  }

  function CheckUnder(s: Sight, transactionId: TxId, buyer: Key, creator: Key, id: Option<CovenantId>): Result<Check> {
    VerifyUtxo(s.view, transactionId, 1, Expected(Some(buyer), id, Some(creator)))
  }

  /** The checks of one receipt, until one is VALID. */
  function ReceiptHolds(s: Sight, r: Receipt, ids: seq<CovenantId>, buyer: Key, creator: Key): Result<bool> {
    if ids == [] then Ok(false)
    else
      match CheckUnder(s, r.transactionId, buyer, creator, Some(ids[0]))
      case Err(error) => Err(error)
      case Ok(check) => if check.status == VALID then Ok(true) else ReceiptHolds(s, r, ids[1..], buyer, creator)
  }

  function IdsOf(r: Receipt, ids: seq<CovenantId>): seq<CovenantId> {
    if r.covenantId.Some? then [r.covenantId.value] else ids
  }

  function AnyReceiptHolds(s: Sight, receipts: seq<Receipt>, ids: seq<CovenantId>, buyer: Key, creator: Key): Result<bool> {
    if receipts == [] then Ok(false)
    else if receipts[0].buyer != buyer || receipts[0].creator != creator then
      AnyReceiptHolds(s, receipts[1..], ids, buyer, creator)
    else
      match ReceiptHolds(s, receipts[0], IdsOf(receipts[0], ids), buyer, creator)
      case Err(error) => Err(error)
      case Ok(holds) => if holds then Ok(true) else AnyReceiptHolds(s, receipts[1..], ids, buyer, creator)
  }

  datatype Discovery = Discovery(transactionId: TxId, covenantId: Option<CovenantId>)

  function Discover(s: Sight, wanted: seq<Option<CovenantId>>, buyer: Key, creator: Key): Result<Option<Discovery>> {
    if wanted == [] then Ok(None)
    else
      match FindMembership(s.view, s.coins, buyer, creator, wanted[0])
      case Err(error) => Err(error)
      case Ok(Some(check)) => Ok(Some(Discovery(check.transactionId, wanted[0])))
      case Ok(None) => Discover(s, wanted[1..], buyer, creator)
  }

  datatype Finding = Refused | Cached | Discovered(found: Discovery)

  function Find(s: Sight, receipts: seq<Receipt>, known: Known, buyer: Key, creator: Key): Result<Finding> {
    match AnyReceiptHolds(s, receipts, CovenantIds(known), buyer, creator)
    case Err(error) => Err(error)
    case Ok(true) => Ok(Cached)
    case Ok(false) =>
      match Discover(s, Wanted(CovenantIds(known)), buyer, creator)
      case Err(error) => Err(error)
      case Ok(None) => Ok(Refused)
      case Ok(Some(found)) => Ok(Discovered(found))
  }

  function WrittenBack(receipts: seq<Receipt>, found: Discovery, buyer: Key, creator: Key): seq<Receipt> {
    if exists i :: 0 <= i < |receipts| && receipts[i].transactionId == found.transactionId then receipts
    else receipts + [Receipt(found.transactionId, buyer, creator, found.covenantId)]
  }

  // ----- the service ----------------------------------------------------------

  class Access {
    var receipts: seq<Receipt>

    constructor (receipts: seq<Receipt>)
      ensures this.receipts == receipts
    {
      this.receipts := receipts;
    }

    /** `createMembershipPurchase`; `works` says whether the store takes the write. */
    method Create(r: Receipt, works: bool)
      modifies this
      ensures receipts == if works then WrittenBack(old(receipts), Discovery(r.transactionId, r.covenantId), r.buyer, r.creator)
                          else old(receipts)
    {
      if works && !(exists i :: 0 <= i < |receipts| && receipts[i].transactionId == r.transactionId) {
        receipts := receipts + [r];
      }
    }

    method IsActive(sight: Option<Sight>, known: Known, buyer: Key, creator: Key, works: bool) returns (r: Result<bool>)
      modifies this
      ensures sight.None? ==> r == Ok(false) && receipts == old(receipts)
      ensures sight.Some? ==>
                match Find(sight.value, old(receipts), known, buyer, creator)
                case Err(error) => r == Err(error) && receipts == old(receipts)
                case Ok(Refused) => r == Ok(false) && receipts == old(receipts)
                case Ok(Cached) => r == Ok(true) && receipts == old(receipts)
                case Ok(Discovered(found)) =>
                  r == Ok(true) &&
                  receipts == if works then WrittenBack(old(receipts), found, buyer, creator) else old(receipts)
    {
      if sight.None? {
        return Ok(false);
      }
      var s := sight.value;
      var covenantIds: seq<CovenantId> := [];
      if known.history.Some? {
        var history := known.history.value;
        for i := 0 to |history|
          invariant covenantIds == Distinct(history[..i])
        {
          assert history[..i + 1][..i] == history[..i];
          covenantIds := Adding(covenantIds, history[i]);
        }
        assert history[..|history|] == history;
      }
      if known.current.Some? {
        covenantIds := Adding(covenantIds, known.current.value);
      }
      assert covenantIds == CovenantIds(known);
      for i := 0 to |receipts|
        invariant receipts == old(receipts)
        invariant AnyReceiptHolds(s, receipts[i..], covenantIds, buyer, creator) ==
                  AnyReceiptHolds(s, receipts, covenantIds, buyer, creator)
      {
        var receipt := receipts[i];
        if receipt.buyer != buyer || receipt.creator != creator {
          continue;
        }
        var ids := IdsOf(receipt, covenantIds);
        for j := 0 to |ids|
          invariant ReceiptHolds(s, receipt, ids[j..], buyer, creator) == ReceiptHolds(s, receipt, ids, buyer, creator)
        {
          var check := CheckUnder(s, receipt.transactionId, buyer, creator, Some(ids[j]));
          if check.Err? {
            return Err(check.error);
          }
          if check.value.status == VALID {
            return Ok(true);
          }
        }
      }
      var wanted := Wanted(covenantIds);
      for i := 0 to |wanted|
        invariant receipts == old(receipts)
        invariant Discover(s, wanted[i..], buyer, creator) == Discover(s, wanted, buyer, creator)
      {
        var found := FindMembership(s.view, s.coins, buyer, creator, wanted[i]);
        if found.Err? {
          return Err(found.error);
        }
        if found.value.Some? {
          Create(Receipt(found.value.value.transactionId, buyer, creator, wanted[i]), works);
          return Ok(true);
        }
      }
      r := Ok(false);
    }
  }

  // ----- what the answer means ------------------------------------------------

  predicate Verifies(s: Sight, transactionId: TxId, buyer: Key, creator: Key, id: Option<CovenantId>) {
    IsValid(CheckUnder(s, transactionId, buyer, creator, id))
  }

  ghost predicate ByReceipt(s: Sight, receipts: seq<Receipt>, ids: seq<CovenantId>, buyer: Key, creator: Key) {
    exists i, id :: 0 <= i < |receipts| && receipts[i].buyer == buyer && receipts[i].creator == creator
                    && id in IdsOf(receipts[i], ids) && Verifies(s, receipts[i].transactionId, buyer, creator, Some(id))
  }

  ghost predicate ByCoins(s: Sight, wanted: seq<Option<CovenantId>>, buyer: Key, creator: Key) {
    exists t, id :: t in Pointers(s.coins) && id in wanted && Verifies(s, t, buyer, creator, id)
  }

  /**
   Some receipt verifies under its own covenant or a known one, or one of the
   buyer's coins points at a membership that verifies under a known covenant, or
   under any when none is known.
   */
  ghost predicate Active(s: Sight, receipts: seq<Receipt>, known: Known, buyer: Key, creator: Key) {
    || ByReceipt(s, receipts, CovenantIds(known), buyer, creator)
    || ByCoins(s, Wanted(CovenantIds(known)), buyer, creator)
  }

  lemma {:induction false} ReceiptHoldsWhen(s: Sight, r: Receipt, ids: seq<CovenantId>, buyer: Key, creator: Key)
    ensures var answer := ReceiptHolds(s, r, ids, buyer, creator);
            && (answer == Ok(true) ==> exists id :: id in ids && Verifies(s, r.transactionId, buyer, creator, Some(id)))
            && (answer == Ok(false) ==> forall id :: id in ids ==> !Verifies(s, r.transactionId, buyer, creator, Some(id)))
  {
    if ids != [] {
      ReceiptHoldsWhen(s, r, ids[1..], buyer, creator);
      assert Verifies(s, r.transactionId, buyer, creator, Some(ids[0])) <==>
             IsValid(CheckUnder(s, r.transactionId, buyer, creator, Some(ids[0])));
    }
  }

  lemma {:induction false} ByReceiptFirst(s: Sight, receipts: seq<Receipt>, ids: seq<CovenantId>, buyer: Key, creator: Key)
    requires receipts != []
    ensures ByReceipt(s, receipts, ids, buyer, creator) <==>
            || ByReceipt(s, receipts[1..], ids, buyer, creator)
            || (receipts[0].buyer == buyer && receipts[0].creator == creator
                && exists id :: id in IdsOf(receipts[0], ids) && Verifies(s, receipts[0].transactionId, buyer, creator, Some(id)))
  {
    if ByReceipt(s, receipts[1..], ids, buyer, creator) {
      var i, id :| 0 <= i < |receipts[1..]| && receipts[1..][i].buyer == buyer && receipts[1..][i].creator == creator
                   && id in IdsOf(receipts[1..][i], ids) && Verifies(s, receipts[1..][i].transactionId, buyer, creator, Some(id));
      assert receipts[i + 1] == receipts[1..][i];
    }
    if ByReceipt(s, receipts, ids, buyer, creator) {
      var i, id :| 0 <= i < |receipts| && receipts[i].buyer == buyer && receipts[i].creator == creator
                   && id in IdsOf(receipts[i], ids) && Verifies(s, receipts[i].transactionId, buyer, creator, Some(id));
      assert i > 0 ==> receipts[1..][i - 1] == receipts[i];
    }
  }

  lemma {:induction false} AnyReceiptHoldsWhen(s: Sight, receipts: seq<Receipt>, ids: seq<CovenantId>, buyer: Key, creator: Key)
    ensures var answer := AnyReceiptHolds(s, receipts, ids, buyer, creator);
            answer.Ok? ==> (answer.value <==> ByReceipt(s, receipts, ids, buyer, creator))
  {
    if receipts != [] {
      AnyReceiptHoldsWhen(s, receipts[1..], ids, buyer, creator);
      ByReceiptFirst(s, receipts, ids, buyer, creator);
      ReceiptHoldsWhen(s, receipts[0], IdsOf(receipts[0], ids), buyer, creator);
    }
  }

  lemma {:induction false} DiscoverWhen(s: Sight, wanted: seq<Option<CovenantId>>, buyer: Key, creator: Key)
    ensures var answer := Discover(s, wanted, buyer, creator);
            && (answer == Ok(None) ==> !ByCoins(s, wanted, buyer, creator))
            && (answer.Ok? && answer.value.Some? ==>
                  var found := answer.value.value;
                  && found.transactionId in Pointers(s.coins) && found.covenantId in wanted
                  && Verifies(s, found.transactionId, buyer, creator, found.covenantId))
  {
    if wanted != [] {
      FoundIsValid(s.view, Pointers(s.coins), Expected(Some(buyer), wanted[0], Some(creator)));
      DiscoverWhen(s, wanted[1..], buyer, creator);
    }
  }

  /** Unless a call throws, the answer is exactly whether the buyer is active. */
  lemma {:induction false} AnswersActive(s: Sight, receipts: seq<Receipt>, known: Known, buyer: Key, creator: Key)
    ensures var r := Find(s, receipts, known, buyer, creator);
            r.Ok? ==> (r.value != Refused <==> Active(s, receipts, known, buyer, creator))
  {
    AnyReceiptHoldsWhen(s, receipts, CovenantIds(known), buyer, creator);
    DiscoverWhen(s, Wanted(CovenantIds(known)), buyer, creator);
  }

  // ----- and it does answer ---------------------------------------------------

  /** What the service looks under: the ids of the history and the current one, each once. */
  lemma {:induction false} IdsOnRecord(known: Known, id: CovenantId)
    ensures id in CovenantIds(known) <==>
            (known.history.Some? && id in known.history.value) || known.current == Some(id)
    ensures forall i, j :: 0 <= i < j < |CovenantIds(known)| ==> CovenantIds(known)[i] != CovenantIds(known)[j]
  {
    if known.history.Some? {
      DistinctKeeps(known.history.value);
      DistinctAre(known.history.value);
    }
  }

  lemma {:induction false} DistinctAre(ids: seq<CovenantId>)
    ensures forall i, j :: 0 <= i < j < |Distinct(ids)| ==> Distinct(ids)[i] != Distinct(ids)[j]
  {
    if ids != [] {
      DistinctAre(ids[..|ids| - 1]);
    }
  }

  /** Every receipt of this buyer for this creator, and every coin that points at a membership, can be looked up and read. */
  ghost predicate AllAnswerable(s: Sight, receipts: seq<Receipt>, buyer: Key, creator: Key) {
    && (forall i :: 0 <= i < |receipts| && receipts[i].buyer == buyer && receipts[i].creator == creator ==>
          Answerable(s.view, receipts[i].transactionId))
    && (forall i :: 0 <= i < |s.coins| && s.coins[i].output.value == 50_000_000 ==>
          Answerable(s.view, s.coins[i].outpoint.transactionId))
  }

  lemma {:induction false} ReceiptAnswers(s: Sight, r: Receipt, ids: seq<CovenantId>, buyer: Key, creator: Key)
    requires Answerable(s.view, r.transactionId)
    ensures ReceiptHolds(s, r, ids, buyer, creator).Ok?
  {
    if ids != [] {
      ThrowsExactlyWhen(s.view, r.transactionId, 1, Expected(Some(buyer), Some(ids[0]), Some(creator)));
      ReceiptAnswers(s, r, ids[1..], buyer, creator);
    }
  }

  lemma {:induction false} ReceiptsAnswer(s: Sight, receipts: seq<Receipt>, ids: seq<CovenantId>, buyer: Key, creator: Key)
    requires AllAnswerable(s, receipts, buyer, creator)
    ensures AnyReceiptHolds(s, receipts, ids, buyer, creator).Ok?
  {
    if receipts != [] {
      assert forall i :: 0 <= i < |receipts| - 1 ==> receipts[1..][i] == receipts[i + 1];
      ReceiptsAnswer(s, receipts[1..], ids, buyer, creator);
      if receipts[0].buyer == buyer && receipts[0].creator == creator {
        ReceiptAnswers(s, receipts[0], IdsOf(receipts[0], ids), buyer, creator);
      }
    }
  }

  lemma {:induction false} CoinsAnswer(s: Sight, wanted: seq<Option<CovenantId>>, buyer: Key, creator: Key)
    requires forall t :: t in Pointers(s.coins) ==> Answerable(s.view, t)
    ensures Discover(s, wanted, buyer, creator).Ok?
  {
    if wanted != [] {
      ScanAnswers(s.view, Pointers(s.coins), Expected(Some(buyer), wanted[0], Some(creator)));
      CoinsAnswer(s, wanted[1..], buyer, creator);
    }
  }

  lemma {:induction false} PointersAnswer(s: Sight, receipts: seq<Receipt>, buyer: Key, creator: Key)
    requires AllAnswerable(s, receipts, buyer, creator)
    ensures forall t :: t in Pointers(s.coins) ==> Answerable(s.view, t)
  {
    forall t | t in Pointers(s.coins)
      ensures Answerable(s.view, t)
    {
      PointersAre(s.coins, t);
    }
  }

  /**
   If every receipt and every pointer can be looked up and read, the service
   answers: yes exactly when the buyer is active, from the receipts exactly when one
   of them verifies under its own covenant or, naming none, under one on record.
   */
  lemma {:induction false} AnswersWhenReadable(s: Sight, receipts: seq<Receipt>, known: Known, buyer: Key, creator: Key)
    requires AllAnswerable(s, receipts, buyer, creator)
    ensures var r := Find(s, receipts, known, buyer, creator);
            && r.Ok?
            && (r.value != Refused <==> Active(s, receipts, known, buyer, creator))
            && (r.value == Cached <==>
                  exists i, id ::
                    && 0 <= i < |receipts| && receipts[i].buyer == buyer && receipts[i].creator == creator
                    && (receipts[i].covenantId == Some(id) || (receipts[i].covenantId.None? && id in CovenantIds(known)))
                    && Verifies(s, receipts[i].transactionId, buyer, creator, Some(id)))
  {
    var ids := CovenantIds(known);
    ReceiptsAnswer(s, receipts, ids, buyer, creator);
    PointersAnswer(s, receipts, buyer, creator);
    CoinsAnswer(s, Wanted(ids), buyer, creator);
    AnswersActive(s, receipts, known, buyer, creator);
    AnyReceiptHoldsWhen(s, receipts, ids, buyer, creator);
  }

  // ----- the cache is transparent ---------------------------------------------

  lemma {:induction false} WantedAre(ids: seq<CovenantId>, id: Option<CovenantId>)
    ensures id in Wanted(ids) <==> if ids == [] then id == None else id.Some? && id.value in ids
  {
    if ids != [] && id.Some? && id.value in ids {
      var i :| 0 <= i < |ids| && ids[i] == id.value;
      assert Wanted(ids)[i] == id;
    }
  }

  lemma {:induction false} ByReceiptAppended(s: Sight, receipts: seq<Receipt>, last: Receipt, ids: seq<CovenantId>, buyer: Key, creator: Key)
    ensures ByReceipt(s, receipts + [last], ids, buyer, creator) <==>
            || ByReceipt(s, receipts, ids, buyer, creator)
            || (last.buyer == buyer && last.creator == creator
                && exists id :: id in IdsOf(last, ids) && Verifies(s, last.transactionId, buyer, creator, Some(id)))
  {
    var all := receipts + [last];
    if ByReceipt(s, receipts, ids, buyer, creator) {
      var i, id :| 0 <= i < |receipts| && receipts[i].buyer == buyer && receipts[i].creator == creator
                   && id in IdsOf(receipts[i], ids) && Verifies(s, receipts[i].transactionId, buyer, creator, Some(id));
      assert all[i] == receipts[i];
    }
    assert all[|receipts|] == last;
  }

  /** What the written receipt shows, the coins it was discovered by show too. */
  lemma {:induction false} CoinsShowItToo(s: Sight, known: Known, found: Discovery, later: Known, buyer: Key, creator: Key, id: CovenantId)
    requires found.transactionId in Pointers(s.coins) && found.covenantId in Wanted(CovenantIds(known))
    requires forall id :: id in CovenantIds(known) ==> id in CovenantIds(later)
    requires id in IdsOf(Receipt(found.transactionId, buyer, creator, found.covenantId), CovenantIds(later))
    requires Verifies(s, found.transactionId, buyer, creator, Some(id))
    ensures ByCoins(s, Wanted(CovenantIds(later)), buyer, creator)
  {
    WantedAre(CovenantIds(known), found.covenantId);
    WantedAre(CovenantIds(later), Some(id));
    if found.covenantId.Some? {
      var i :| 0 <= i < |CovenantIds(known)| && CovenantIds(known)[i] == id;
    }
  }

  /**
   Writing a discovered membership back changes no later answer: for every buyer
   and creator, over the same chain and coins and any later set of known covenants.
   */
  lemma {:induction false} WriteBackIsTransparent(
    s: Sight, receipts: seq<Receipt>, known: Known, buyer: Key, creator: Key, found: Discovery,
    later: Known, otherBuyer: Key, otherCreator: Key)
    requires Find(s, receipts, known, buyer, creator) == Ok(Discovered(found))
    requires otherBuyer == buyer && otherCreator == creator ==> forall id :: id in CovenantIds(known) ==> id in CovenantIds(later)
    ensures Active(s, WrittenBack(receipts, found, buyer, creator), later, otherBuyer, otherCreator)
            <==> Active(s, receipts, later, otherBuyer, otherCreator)
  {
    var ids := CovenantIds(later);
    var last := Receipt(found.transactionId, buyer, creator, found.covenantId);
    DiscoverWhen(s, Wanted(CovenantIds(known)), buyer, creator);
    ByReceiptAppended(s, receipts, last, ids, otherBuyer, otherCreator);
    forall id | otherBuyer == buyer && otherCreator == creator && id in IdsOf(last, ids)
                && Verifies(s, last.transactionId, buyer, creator, Some(id))
      ensures ByCoins(s, Wanted(ids), buyer, creator)
    {
      CoinsShowItToo(s, known, found, later, buyer, creator, id);
    }
  }

  // ----- and never throws where the answer did not ----------------------------

  /** A transaction that verifies under some expectations throws under none. */
  lemma {:induction false} VerifiedNeverThrows(v: View, txid: TxId, e: Expected, other: Expected)
    requires IsValid(VerifyUtxo(v, txid, 1, e))
    ensures VerifyUtxo(v, txid, 1, other).Ok?
  {
  }

  lemma {:induction false} WrittenNeverThrows(s: Sight, r: Receipt, ids: seq<CovenantId>, buyer: Key, creator: Key, e: Expected)
    requires IsValid(VerifyUtxo(s.view, r.transactionId, 1, e))
    ensures ReceiptHolds(s, r, ids, buyer, creator).Ok?
  {
    if ids != [] {
      VerifiedNeverThrows(s.view, r.transactionId, e, Expected(Some(buyer), Some(ids[0]), Some(creator)));
      WrittenNeverThrows(s, r, ids[1..], buyer, creator, e);
    }
  }

  /** A receipt at the end is looked at only when those before it did not decide. */
  lemma {:induction false} LastReceipt(s: Sight, receipts: seq<Receipt>, last: Receipt, ids: seq<CovenantId>, buyer: Key, creator: Key)
    ensures AnyReceiptHolds(s, receipts + [last], ids, buyer, creator) ==
            if AnyReceiptHolds(s, receipts, ids, buyer, creator) != Ok(false) then AnyReceiptHolds(s, receipts, ids, buyer, creator)
            else if last.buyer != buyer || last.creator != creator then Ok(false)
            else ReceiptHolds(s, last, IdsOf(last, ids), buyer, creator)
  {
    if receipts == [] {
      assert receipts + [last] == [last] && [last][1..] == [];
    } else {
      assert (receipts + [last])[1..] == receipts[1..] + [last];
      LastReceipt(s, receipts[1..], last, ids, buyer, creator);
    }
  }

  /**
   Wherever the service answered before a discovery was written back, it answers
   the same afterwards: for every buyer and creator, over the same chain and
   coins and any later set of known covenants, and no call throws that did not.
   */
  lemma {:induction false} WriteBackKeepsAnswers(
    s: Sight, receipts: seq<Receipt>, known: Known, buyer: Key, creator: Key, found: Discovery,
    later: Known, otherBuyer: Key, otherCreator: Key)
    requires Find(s, receipts, known, buyer, creator) == Ok(Discovered(found))
    requires otherBuyer == buyer && otherCreator == creator ==> forall id :: id in CovenantIds(known) ==> id in CovenantIds(later)
    ensures var before := Find(s, receipts, later, otherBuyer, otherCreator);
            var after := Find(s, WrittenBack(receipts, found, buyer, creator), later, otherBuyer, otherCreator);
            before.Ok? ==> after.Ok? && (after.value != Refused <==> before.value != Refused)
  {
    var written := WrittenBack(receipts, found, buyer, creator);
    WriteBackIsTransparent(s, receipts, known, buyer, creator, found, later, otherBuyer, otherCreator);
    AnswersActive(s, receipts, later, otherBuyer, otherCreator);
    AnswersActive(s, written, later, otherBuyer, otherCreator);
    if written != receipts {
      WrittenAnswers(s, receipts, known, buyer, creator, found, later, otherBuyer, otherCreator);
    }
  }

  lemma {:induction false} WrittenAnswers(
    s: Sight, receipts: seq<Receipt>, known: Known, buyer: Key, creator: Key, found: Discovery,
    later: Known, otherBuyer: Key, otherCreator: Key)
    requires Find(s, receipts, known, buyer, creator) == Ok(Discovered(found))
    ensures var last := Receipt(found.transactionId, buyer, creator, found.covenantId);
            Find(s, receipts, later, otherBuyer, otherCreator).Ok? ==>
              Find(s, receipts + [last], later, otherBuyer, otherCreator).Ok?
  {
    var last := Receipt(found.transactionId, buyer, creator, found.covenantId);
    var ids := CovenantIds(later);
    DiscoverWhen(s, Wanted(CovenantIds(known)), buyer, creator);
    LastReceipt(s, receipts, last, ids, otherBuyer, otherCreator);
    WrittenNeverThrows(s, last, IdsOf(last, ids), otherBuyer, otherCreator, Expected(Some(buyer), found.covenantId, Some(creator)));
  }

  // ----- what the next call finds ---------------------------------------------

  lemma {:induction false} OnlyId(s: Sight, r: Receipt, id: CovenantId, buyer: Key, creator: Key)
    requires Verifies(s, r.transactionId, buyer, creator, Some(id))
    ensures ReceiptHolds(s, r, [id], buyer, creator) == Ok(true)
  {
  }

  /**
   After a discovery the next call on the same chain answers from the receipts
   exactly when the discovery was made under a covenant on record and no receipt had
   its transaction. With none on record the written receipt is never looked at.
   */
  lemma {:induction false} DiscoveryIsCachedWhen(
    s: Sight, receipts: seq<Receipt>, known: Known, buyer: Key, creator: Key, found: Discovery)
    requires Find(s, receipts, known, buyer, creator) == Ok(Discovered(found))
    ensures Find(s, WrittenBack(receipts, found, buyer, creator), known, buyer, creator) == Ok(Cached) <==>
            found.covenantId.Some? && forall i :: 0 <= i < |receipts| ==> receipts[i].transactionId != found.transactionId
  {
    var ids := CovenantIds(known);
    DiscoverWhen(s, Wanted(ids), buyer, creator);
    WantedAre(ids, found.covenantId);
    if forall i :: 0 <= i < |receipts| ==> receipts[i].transactionId != found.transactionId {
      var last := Receipt(found.transactionId, buyer, creator, found.covenantId);
      assert WrittenBack(receipts, found, buyer, creator) == receipts + [last];
      LastReceipt(s, receipts, last, ids, buyer, creator);
      if found.covenantId.Some? {
        OnlyId(s, last, found.covenantId.value, buyer, creator);
      }
    }
  }

  // ----- the cache over time --------------------------------------------------

  /** What verifies now verifies in every later state of the chain until its expiry. */
  lemma {:induction false} VerifiedStays(v: View, later: View, txid: TxId, e: Expected)
    requires Inv(v.ledger) && Reaches(v.ledger, later.ledger)
    requires later.contract == v.contract && later.hasAddress == v.hasAddress
    requires IsValid(VerifyUtxo(v, txid, 1, e))
    ensures var check := VerifyUtxo(v, txid, 1, e).value;
            check.expiresAtDaa.Some? &&
            VerifyUtxo(later, txid, 1, e) ==
            Ok(check.(status := if later.ledger.daa < check.expiresAtDaa.value then VALID else EXPIRED))
  {
    var member := VerifiesHolds(v, txid, 1, e);
    HoldsVerifies(v, txid, e, member);
    MembershipIsForever(v.ledger, later.ledger, Outpoint(txid, 1));
    assert Holds(later, txid, e, member);
    HoldsVerifies(later, txid, e, member);
  }

  /** A receipt that gave access gives it until the membership expires, whatever else happens. */
  lemma {:induction false} ReceiptsLast(
    s: Sight, later: Sight, receipts: seq<Receipt>, more: seq<Receipt>, known: Known, buyer: Key, creator: Key, i: nat, id: CovenantId)
    requires Inv(s.view.ledger) && Reaches(s.view.ledger, later.view.ledger)
    requires later.view.contract == s.view.contract && later.view.hasAddress == s.view.hasAddress
    requires i < |receipts| && receipts[i] == Receipt(receipts[i].transactionId, buyer, creator, Some(id))
    requires Verifies(s, receipts[i].transactionId, buyer, creator, Some(id))
    requires later.view.ledger.daa < CheckUnder(s, receipts[i].transactionId, buyer, creator, Some(id)).value.expiresAtDaa.value
    ensures Active(later, receipts + more, known, buyer, creator)
  {
    VerifiedStays(s.view, later.view, receipts[i].transactionId, Expected(Some(buyer), Some(id), Some(creator)));
    assert (receipts + more)[i] == receipts[i];
    assert Verifies(later, receipts[i].transactionId, buyer, creator, Some(id));
    assert ByReceipt(later, receipts + more, CovenantIds(known), buyer, creator);
  }
}
