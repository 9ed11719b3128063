/** From a prepared mint to every later answer of the verifier. */
module EndToEnd {
  import opened Wrappers
  import opened MembershipContract
  import opened Chain
  import opened Covenant
  import opened Ledger
  import opened LedgerInvariants
  import opened LedgerRuns
  import opened Gateway
  import opened GatewayProofs
  import opened Verifier
  import opened VerifierAnswers

  /** The caller expects this key, or leaves it open and the key has an address. */
  ghost predicate Expects(v: View, expected: Option<Key>, key: Key) {
    if expected.Some? then expected.value == key else v.hasAddress(key)
  }

  /** The accepted mint's second output is the membership, unspent. */
  lemma {:induction false} AcceptedMintHolds(
    node: Node, contract: Contract, creator: Key, platform: Key, buyer: Key, id: CovenantId, price: int, p: Prepared,
    l: Ledger, txid: TxId)
    requires Honest(node) && PrepareMint(node, contract, creator, platform, buyer, id, price) == Ok(p)
    ensures var member, next := Member(creator, platform, buyer, price, node.ledger.daa), Accept(l, txid, p.tx);
            && Encodable(member) && HeldMembership(next, Outpoint(txid, 1))
            && OutputAt(next, Outpoint(txid, 1)) == CovenantOutput(member, id)
            && next.accepted[txid].tx == p.tx && p.tx.version == 1
            && p.tx.payload == MembershipNote(RedeemBytes(contract, member), node.ledger.daa, member.expiresAtDaa)
  {
    var minter, member := MinterState(creator, platform, price), Member(creator, platform, buyer, price, node.ledger.daa);
    var coin, f := MintParts(node, contract, creator, platform, buyer, id, price, p);
    MintOutputsPay(p.tx, minter, member, id, f.change);
    assert Outpoint(txid, 1) in Created(txid, p.tx);
  }

  /**
   Once a prepared mint is accepted, in whatever later state of the chain, the
   verifier answers VALID until the expiry the gateway wrote and EXPIRED from then
   on, and gives the covenant and the expiry.
   */
  lemma {:induction false} PaidMembershipVerifies(
    node: Node, contract: Contract, creator: Key, platform: Key, buyer: Key, id: CovenantId, price: int, p: Prepared,
    l: Ledger, txid: TxId, v: View, e: Expected)
    requires Honest(node) && PrepareMint(node, contract, creator, platform, buyer, id, price) == Ok(p)
    requires Inv(l) && Acceptable(l, txid, p.tx)
    requires Reaches(Accept(l, txid, p.tx), v.ledger)
    requires v.contract == contract && v.hasAddress(platform)
    requires Expects(v, e.owner, buyer) && Expects(v, e.creator, creator) && (e.covenantId.Some? ==> e.covenantId.value == id)
    ensures var expiry := node.ledger.daa + MEMBERSHIP_DURATION_DAA;
            VerifyUtxo(v, txid, 1, e) ==
            Ok(Check(txid, 1, Some(id), Some(expiry), if v.ledger.daa < expiry then VALID else EXPIRED))
  {
    var member, next := Member(creator, platform, buyer, price, node.ledger.daa), Accept(l, txid, p.tx);
    AcceptedMintHolds(node, contract, creator, platform, buyer, id, price, p, l, txid);
    assert Step(l, next);
    InvKept(l, next);
    MembershipIsForever(next, v.ledger, Outpoint(txid, 1));
    assert Holds(v, txid, e, member);
    HoldsVerifies(v, txid, e, member);
  }

  /** Anyone else is refused: the membership is its buyer's. */
  lemma {:induction false} OthersAreRefused(
    node: Node, contract: Contract, creator: Key, platform: Key, buyer: Key, id: CovenantId, price: int, p: Prepared,
    l: Ledger, txid: TxId, v: View, e: Expected)
    requires Honest(node) && PrepareMint(node, contract, creator, platform, buyer, id, price) == Ok(p)
    requires Inv(l) && Acceptable(l, txid, p.tx)
    requires Reaches(Accept(l, txid, p.tx), v.ledger)
    requires v.contract == contract
    requires (e.owner.Some? && e.owner.value != buyer) || (e.creator.Some? && e.creator.value != creator)
             || (e.covenantId.Some? && e.covenantId.value != id)
    ensures !IsValid(VerifyUtxo(v, txid, 1, e))
  {
    var member, next := Member(creator, platform, buyer, price, node.ledger.daa), Accept(l, txid, p.tx);
    AcceptedMintHolds(node, contract, creator, platform, buyer, id, price, p, l, txid);
    assert Step(l, next);
    InvKept(l, next);
    MembershipIsForever(next, v.ledger, Outpoint(txid, 1));
    assert OutputAt(v.ledger, Outpoint(txid, 1)) == CovenantOutput(member, id);
    if IsValid(VerifyUtxo(v, txid, 1, e)) {
      var found := VerifiesHolds(v, txid, 1, e);
    }
  }

  // ----- the owner scan -------------------------------------------------------

  /** Listed coins are from accepted transactions, so their pointers are answered. */
  lemma {:induction false} ListedAnswer(v: View, coins: seq<Utxo>)
    requires Lists(v.ledger, coins)
    requires forall k :: 0 <= k < |coins| && coins[k].output.value == 50_000_000 ==>
               !ShowsNegative(v, coins[k].outpoint.transactionId)
    ensures forall t :: t in Pointers(coins) ==> Answerable(v, t)
  {
    forall t | t in Pointers(coins)
      ensures Answerable(v, t)
    {
      PointersAre(coins, t);
      var k :| 0 <= k < |coins| && coins[k].output.value == 50_000_000 && coins[k].outpoint.transactionId == t;
      assert Exists(v.ledger, coins[k].outpoint);
    }
  }

  /**
   While the buyer keeps the small index output of the mint, the owner scan does
   not miss the membership: it finds one that is VALID, and throws only if some coin
   of 50,000,000 comes from a transaction that shows a negative integer.
   */
  lemma {:induction false} WalletFindsMembership(
    node: Node, contract: Contract, creator: Key, platform: Key, buyer: Key, id: CovenantId, price: int, p: Prepared,
    l: Ledger, txid: TxId, v: View, coins: seq<Utxo>, i: nat, covenantId: Option<CovenantId>)
    requires Honest(node) && PrepareMint(node, contract, creator, platform, buyer, id, price) == Ok(p)
    requires Inv(l) && Acceptable(l, txid, p.tx)
    requires Reaches(Accept(l, txid, p.tx), v.ledger)
    requires v.contract == contract && v.hasAddress(platform) && v.ledger.daa < node.ledger.daa + MEMBERSHIP_DURATION_DAA
    requires covenantId.Some? ==> covenantId.value == id
    requires Lists(v.ledger, coins) && i < |coins|
    requires coins[i].outpoint == Outpoint(txid, p.tx.entry.value.ownerIndex)
    ensures FindMembership(v, coins, buyer, creator, covenantId).Ok? ==>
              FindMembership(v, coins, buyer, creator, covenantId).value.Some?
    ensures (forall k :: 0 <= k < |coins| && coins[k].output.value == 50_000_000 ==>
               !ShowsNegative(v, coins[k].outpoint.transactionId)) ==>
              FindMembership(v, coins, buyer, creator, covenantId).Ok?
  {
    var minter, member := MinterState(creator, platform, price), Member(creator, platform, buyer, price, node.ledger.daa);
    var coin, f := MintParts(node, contract, creator, platform, buyer, id, price, p);
    var next := Accept(l, txid, p.tx);
    MintOutputsPay(p.tx, minter, member, id, f.change);
    assert Step(l, next);
    InvKept(l, next);
    AcceptedMintHolds(node, contract, creator, platform, buyer, id, price, p, l, txid);
    MembershipIsForever(next, v.ledger, Outpoint(txid, 1));
    assert OutputAt(v.ledger, coins[i].outpoint) == p.tx.outputs[p.tx.entry.value.ownerIndex];
    PointersAre(coins, txid);
    var e := Expected(Some(buyer), covenantId, Some(creator));
    PaidMembershipVerifies(node, contract, creator, platform, buyer, id, price, p, l, txid, v, e);
    FoundIsValid(v, Pointers(coins), e);
    if forall k :: 0 <= k < |coins| && coins[k].output.value == 50_000_000 ==> !ShowsNegative(v, coins[k].outpoint.transactionId) {
      ListedAnswer(v, coins);
      ScanAnswers(v, Pointers(coins), e);
    }
  }
}
