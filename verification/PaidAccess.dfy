/** Access was paid for, as long as the service knows whose covenants it looks under. */
module PaidAccess {
  import opened Wrappers
  import opened MembershipContract
  import opened Chain
  import opened Fees
  import opened Covenant
  import opened Ledger
  import opened LedgerRuns
  import opened Gateway
  import opened GatewayProofs
  import opened Verifier
  import opened MembershipAccess
  import opened FirstMembership

  /**
   All covenants on record and on the buyer's receipts were offered by this
   creator on this platform's terms.
   */
  ghost predicate OffersOnly(known: Known, receipts: seq<Receipt>, buyer: Key, creator: Key, platform: Key) {
    && (forall i :: 0 <= i < |CovenantIds(known)| ==> IsOffer(CovenantIds(known)[i], creator, platform))
    && (forall i :: 0 <= i < |receipts| ==> ReceiptOffered(receipts[i], buyer, creator, platform))
  }

  /** A receipt of this buyer that names a covenant names one of this creator's offers. */
  ghost predicate ReceiptOffered(r: Receipt, buyer: Key, creator: Key, platform: Key) {
    r.buyer == buyer && r.creator == creator && r.covenantId.Some? ==> IsOffer(r.covenantId.value, creator, platform)
  }

  /** The accepted mint that paid for this buyer's running membership. */
  ghost predicate PaidFor(l: Ledger, txid: TxId, family: CovenantId, buyer: Key, creator: Key, platform: Key)
    requires Inv(l)
  {
    && IsOffer(family, creator, platform) && txid in l.accepted && MintsIn(l, txid, family)
    && var tx := l.accepted[txid].tx;
       var e, fee := tx.entry.value, MembershipFeeSompi(tx.entry.value.member.priceSompi);
       && e.member.owner == buyer && PriceInBounds(e.member.priceSompi)
       && PaysAt(tx, e.payment, PayToKey(creator), e.member.priceSompi - fee)
       && (fee > 0 ==> PaysAt(tx, e.platform, PayToKey(platform), fee))
       && l.daa < e.member.expiresAtDaa <= l.accepted[txid].daa + MEMBERSHIP_DURATION_DAA
  }

  ghost predicate NonePaidFor(l: Ledger, buyer: Key, creator: Key, platform: Key)
    requires Inv(l)
  {
    forall txid, family :: !PaidFor(l, txid, family, buyer, creator, platform)
  }

  /** No output of the chain pays the key. */
  ghost predicate NeverPays(l: Ledger, key: Key) {
    forall id, j :: id in l.accepted && 0 <= j < |l.accepted[id].tx.outputs| ==>
      l.accepted[id].tx.outputs[j].script != PayToKey(key)
  }

  lemma {:induction false} VerifiedIsPaid(s: Sight, txid: TxId, buyer: Key, creator: Key, platform: Key, id: CovenantId)
    requires Reachable(s.view.ledger) && IsOffer(id, creator, platform)
    requires Verifies(s, txid, buyer, creator, Some(id))
    ensures Inv(s.view.ledger) && PaidFor(s.view.ledger, txid, id, buyer, creator, platform)
  {
    ValidMeansPaidMint(s.view, txid, 1, buyer, id, creator, platform);
  }

  lemma {:induction false} ActiveVerifies(s: Sight, receipts: seq<Receipt>, known: Known, buyer: Key, creator: Key, platform: Key)
    returns (txid: TxId, id: CovenantId)
    requires OffersOnly(known, receipts, buyer, creator, platform) && CovenantIds(known) != []
    requires Active(s, receipts, known, buyer, creator)
    ensures IsOffer(id, creator, platform) && Verifies(s, txid, buyer, creator, Some(id))
  {
    var ids := CovenantIds(known);
    if ByReceipt(s, receipts, ids, buyer, creator) {
      var i, under :| 0 <= i < |receipts| && receipts[i].buyer == buyer && receipts[i].creator == creator
                      && under in IdsOf(receipts[i], ids) && Verifies(s, receipts[i].transactionId, buyer, creator, Some(under));
      txid, id := receipts[i].transactionId, under;
    } else {
      var t, under :| t in Pointers(s.coins) && under in Wanted(ids) && Verifies(s, t, buyer, creator, under);
      WantedAre(ids, under);
      txid, id := t, under.value;
    }
  }

  /**
   In every reachable chain, whoever has access to a creator with a covenant on
   record, all of whose covenants on record are real offers, holds a membership
   that an accepted mint paid for, to the creator and to the platform.
   */
  lemma {:induction false} ActiveMeansPaid(s: Sight, receipts: seq<Receipt>, known: Known, buyer: Key, creator: Key, platform: Key)
    returns (txid: TxId, family: CovenantId)
    requires Reachable(s.view.ledger)
    requires OffersOnly(known, receipts, buyer, creator, platform) && CovenantIds(known) != []
    requires Active(s, receipts, known, buyer, creator)
    ensures Inv(s.view.ledger) && PaidFor(s.view.ledger, txid, family, buyer, creator, platform)
  {
    txid, family := ActiveVerifies(s, receipts, known, buyer, creator, platform);
    VerifiedIsPaid(s, txid, buyer, creator, platform, family);
  }

  // ----- and only then --------------------------------------------------------

  /** A mint in an offer's family spends an output that names the family's platform. */
  lemma {:induction false} MintNamesPlatform(
    l: Ledger, to: Parties, txid: TxId, family: CovenantId, creator: Key, platform: Key)
    requires Reachable(l) && Inv(l) && OnlyPays(l, to) && IsOffer(family, creator, platform)
    requires txid in l.accepted && MintsIn(l, txid, family)
    ensures platform in to.platforms
  {
    OfferFamilies(l, family, creator, platform);
    var at := l.accepted[txid].tx.inputs[0];
    assert InFamily(l, at, family) && OutputAt(l, at).script.state.platform == platform;
    assert PaysOnly(l.accepted[at.transactionId].tx, to);
  }

  /** A platform for which something was minted is named on the chain. */
  lemma {:induction false} MintedForIsNamed(l: Ledger, to: Parties, buyer: Key, creator: Key, platform: Key)
    requires Reachable(l) && Inv(l) && OnlyPays(l, to)
    ensures platform in to.platforms || NonePaidFor(l, buyer, creator, platform)
  {
    forall txid, family | PaidFor(l, txid, family, buyer, creator, platform)
      ensures platform in to.platforms
    {
      MintNamesPlatform(l, to, txid, family, creator, platform);
    }
  }

  lemma {:induction false} NeverPaid(l: Ledger, to: Parties, key: Key)
    requires OnlyPays(l, to) && key !in to.keys
    ensures NeverPays(l, key)
  {
    forall id, j | id in l.accepted && 0 <= j < |l.accepted[id].tx.outputs|
      ensures l.accepted[id].tx.outputs[j].script != PayToKey(key)
    {
      assert PaysOnly(l.accepted[id].tx, to);
    }
  }

  /** With no covenant on record any covenant counts. */
  lemma {:induction false} AnyCovenantCounts(v: View, index: Utxo, receipts: seq<Receipt>, known: Known, buyer: Key, creator: Key)
    requires index.output.value == MEMBERSHIP_INDEX_VALUE && CovenantIds(known) == []
    requires IsValid(VerifyUtxo(v, index.outpoint.transactionId, 1, Expected(Some(buyer), None, Some(creator))))
    ensures Active(Sight(v, [index]), receipts, known, buyer, creator)
  {
    var s, txid := Sight(v, [index]), index.outpoint.transactionId;
    assert Pointers(s.coins[1..]) == [];
    assert Pointers(s.coins) == [txid];
    assert Verifies(s, txid, buyer, creator, None);
    assert txid in Pointers(s.coins) && None in Wanted([]);
  }

  /**
   With no covenant on record, a membership the gateway sold on another
   platform's terms gives access: on that chain no mint paid for it on this
   platform's terms, and nothing paid this platform.
   */
  lemma {:induction false} NothingOnRecordChecksNoTerms(
    contract: Contract, hasAddress: Key -> bool, creator: Key, earlier: Key, platform: Key, buyer: Key, price: int,
    receipts: seq<Receipt>, known: Known)
    returns (s: Sight)
    requires PriceInBounds(price) && hasAddress(earlier) && CovenantIds(known) == [] && platform != earlier
    ensures s.view.contract == contract && s.view.hasAddress == hasAddress
    ensures Reachable(s.view.ledger) && Inv(s.view.ledger) && Lists(s.view.ledger, s.coins)
    ensures Active(s, receipts, known, buyer, creator)
    ensures NonePaidFor(s.view.ledger, buyer, creator, platform)
    ensures platform != creator && platform != buyer ==> NeverPays(s.view.ledger, platform)
  {
    s := SoldElsewhere(contract, hasAddress, creator, earlier, buyer, price, receipts, known);
    var to := Parties({creator, buyer, earlier}, {earlier});
    MintedForIsNamed(s.view.ledger, to, buyer, creator, platform);
    if platform != creator && platform != buyer {
      NeverPaid(s.view.ledger, to, platform);
    }
  }

  /** A chain on which the gateway sold a membership on these terms, and on no others. */
  lemma {:induction false} SoldElsewhere(
    contract: Contract, hasAddress: Key -> bool, creator: Key, earlier: Key, buyer: Key, price: int,
    receipts: seq<Receipt>, known: Known)
    returns (s: Sight)
    requires PriceInBounds(price) && hasAddress(earlier) && CovenantIds(known) == []
    ensures s.view.contract == contract && s.view.hasAddress == hasAddress
    ensures Reachable(s.view.ledger) && Inv(s.view.ledger) && Lists(s.view.ledger, s.coins)
    ensures Active(s, receipts, known, buyer, creator)
    ensures OnlyPays(s.view.ledger, Parties({creator, buyer, earlier}, {earlier}))
  {
    var v, id, index := MembershipsHappen(contract, hasAddress, creator, earlier, buyer, price);
    s := Sight(v, [index]);
    AnyCovenantCounts(v, index, receipts, known, buyer, creator);
    OfferFamilies(v.ledger, id, creator, earlier);
  }

  /** Whatever the chain, whoever has access holds a membership paid for on this platform's terms. */
  ghost predicate AccessIsPaid(
    contract: Contract, hasAddress: Key -> bool, receipts: seq<Receipt>, known: Known, buyer: Key, creator: Key, platform: Key)
  {
    forall s: Sight ::
      && s.view.contract == contract && s.view.hasAddress == hasAddress
      && Reachable(s.view.ledger) && Active(s, receipts, known, buyer, creator)
      ==> Inv(s.view.ledger) && exists txid, family :: PaidFor(s.view.ledger, txid, family, buyer, creator, platform)
  }

  /**
   Access means payment exactly when some covenant is on record, as long as all
   those on record are real offers and any other platform could exist.
   */
  lemma {:induction false} AccessIsPaidExactlyWhenOnRecord(
    contract: Contract, hasAddress: Key -> bool, receipts: seq<Receipt>, known: Known, buyer: Key, creator: Key,
    platform: Key, earlier: Key)
    requires OffersOnly(known, receipts, buyer, creator, platform)
    requires hasAddress(earlier) && earlier != platform
    ensures AccessIsPaid(contract, hasAddress, receipts, known, buyer, creator, platform) <==> CovenantIds(known) != []
  {
    if CovenantIds(known) == [] {
      var s := NothingOnRecordChecksNoTerms(contract, hasAddress, creator, earlier, platform, buyer, MIN_PRICE_SOMPI, receipts, known);
    } else {
      forall s: Sight | Reachable(s.view.ledger) && Active(s, receipts, known, buyer, creator)
        ensures Inv(s.view.ledger) && exists txid, family :: PaidFor(s.view.ledger, txid, family, buyer, creator, platform)
      {
        var txid, family := ActiveMeansPaid(s, receipts, known, buyer, creator, platform);
      }
    }
  }
}
