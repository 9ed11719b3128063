/**
 A whole run that ends in a membership: from the empty chain, for any creator,
 platform, buyer and price within bounds, the gateway prepares an offer and a
 mint, the chain accepts both, and the verifier answers VALID.
 */
module FirstMembership {
  import opened Wrappers
  import opened MembershipContract
  import opened Chain
  import opened Fees
  import opened CoinSelection
  import opened Covenant
  import opened Ledger
  import opened LedgerInvariants
  import opened LedgerRuns
  import opened Gateway
  import opened GatewayProofs
  import opened Verifier
  import opened EndToEnd

  // ----- a wallet with one sufficient coin ------------------------------------

  function CoinFor(at: Outpoint, key: Key, value: int): Utxo {
    Utxo(at, KeyOutput(key, value))
  }

  /** A key's coin of the amount and the fee of spending it alone is enough. */
  lemma {:induction false} OneCoinFunds(
    node: Node, key: Key, amount: int, front: seq<InputShape>, outputs: seq<Output>, payloadBytes: nat, at: Outpoint)
    requires node.rate > 0.0 && amount >= 0
    requires node.wallet ==
             [CoinFor(at, key, amount + FeeFor(front, outputs + [KeyOutput(key, 0)], node.rate, payloadBytes, 1))]
    ensures Fund(node, key, amount, front, outputs, payloadBytes).Ok?
  {
    var provisional := outputs + [KeyOutput(key, 0)];
    assert node.wallet[..0] == [];
    ChooseIsMinimal(node.wallet, key, amount, front, provisional, node.rate, payloadBytes, node.wallet);
  }

  // ----- funding from nothing -------------------------------------------------

  /** A transaction without inputs that pays one key, as the first of a chain does. */
  function Grant(key: Key, value: int): Tx {
    Tx(0, [], [KeyOutput(key, value)], 0, OtherPayload([]), None)
  }

  lemma {:induction false} GrantIsAccepted(l: Ledger, txid: TxId, key: Key, value: int)
    requires l.daa >= 0 && txid !in l.accepted
    ensures Acceptable(l, txid, Grant(key, value))
    ensures var next := Accept(l, txid, Grant(key, value));
            && next.unspent == l.unspent + {Outpoint(txid, 0)}
            && Lists(next, [CoinFor(Outpoint(txid, 0), key, value)])
  {
    var next := Accept(l, txid, Grant(key, value));
    assert Consumed(Grant(key, value)) == {};
    assert Created(txid, Grant(key, value)) == {Outpoint(txid, 0)};
  }

  function NodeOver(l: Ledger, wallet: seq<Utxo>, minters: seq<Utxo>): Node {
    Node(l, wallet, minters, 1.0, 0, 0, true)
  }

  // ----- one step after another -----------------------------------------------

  lemma {:induction false} ReachesItself(l: Ledger)
    ensures Reaches(l, l)
  {
    assert IsRun([l]);
  }

  lemma {:induction false} ReachesFurther(l: Ledger, middle: Ledger, next: Ledger)
    requires Reaches(l, middle) && Step(middle, next)
    ensures Reaches(l, next)
  {
    var run :| IsRun(run) && run[0] == l && run[|run| - 1] == middle;
    var longer := run + [next];
    forall i | 0 <= i < |longer| - 1
      ensures Step(longer[i], longer[i + 1])
    {
      if i < |run| - 1 {
        assert longer[i + 1] == run[i + 1];
      }
    }
    assert IsRun(longer) && longer[|longer| - 1] == next;
  }

  /** An accepted transaction leads from a reachable state to a reachable state. */
  lemma {:induction false} AcceptReaches(l: Ledger, txid: TxId, tx: Tx)
    requires Reachable(l) && Inv(l) && Acceptable(l, txid, tx)
    ensures Reachable(Accept(l, txid, tx)) && Inv(Accept(l, txid, tx)) && Extends(l, Accept(l, txid, tx))
  {
    var next := Accept(l, txid, tx);
    assert Step(l, next);
    StepExtends(l, next);
    InvKept(l, next);
    ReachesFurther(EMPTY, l, next);
  }

  lemma {:induction false} EmptyIsReachable()
    ensures Reachable(EMPTY) && Inv(EMPTY)
  {
    ReachesItself(EMPTY);
  }

  // ----- whom the chain has paid ----------------------------------------------

  /** Whom a chain pays, and the platforms its covenants name. */
  datatype Parties = Parties(keys: set<Key>, platforms: set<Key>)

  predicate PaysOnly(tx: Tx, to: Parties) {
    forall j :: 0 <= j < |tx.outputs| ==>
      && (tx.outputs[j].script.PayToKey? ==> tx.outputs[j].script.key in to.keys)
      && (tx.outputs[j].script.PayToCovenant? ==> tx.outputs[j].script.state.platform in to.platforms)
  }

  /** No output of the chain pays another key or names another platform. */
  ghost predicate OnlyPays(l: Ledger, to: Parties) {
    forall id :: id in l.accepted ==> PaysOnly(l.accepted[id].tx, to)
  }

  lemma {:induction false} AcceptPaysOnly(l: Ledger, txid: TxId, tx: Tx, to: Parties)
    requires OnlyPays(l, to) && PaysOnly(tx, to)
    ensures OnlyPays(Accept(l, txid, tx), to)
  {
  }

  lemma {:induction false} MoreParties(l: Ledger, some: Parties, more: Parties)
    requires OnlyPays(l, some) && some.keys <= more.keys && some.platforms <= more.platforms
    ensures OnlyPays(l, more)
  {
    forall id | id in l.accepted
      ensures PaysOnly(l.accepted[id].tx, more)
    {
      assert PaysOnly(l.accepted[id].tx, some);
    }
  }

  // ----- the offer ------------------------------------------------------------

  predicate OneCoinNode(node: Node, at: Outpoint, key: Key, value: int) {
    && node.wallet == [CoinFor(at, key, value)] && node.ledger.daa == 0
    && node.rate == 1.0 && node.signatureBytes == 0 && node.payloadBytes == 0 && node.massFits
  }

  /** Some value of a single coin lets any node prepare the offer. */
  lemma {:induction false} OfferCanBePrepared(creator: Key, platform: Key, price: int, at: Outpoint) returns (value: int)
    requires PriceInBounds(price)
    ensures forall node :: OneCoinNode(node, at, creator, value) ==> PrepareOffer(node, creator, platform, price).Ok?
  {
    var minter := MinterState(creator, platform, price);
    var outputs := [CovenantOutput(minter, ZERO_ID)];
    value := MEMBERSHIP_OUTPUT_VALUE + FeeFor([], outputs + [KeyOutput(creator, 0)], 1.0, 0, 1);
    forall node | OneCoinNode(node, at, creator, value)
      ensures PrepareOffer(node, creator, platform, price).Ok?
    {
      OneCoinFunds(node, creator, MEMBERSHIP_OUTPUT_VALUE, [], outputs, 0, at);
    }
  }

  /** A reachable chain grows by a coin. */
  lemma {:induction false} GrantReaches(l: Ledger, txid: TxId, key: Key, value: int, to: Parties)
    requires Reachable(l) && Inv(l) && l.daa == 0 && txid !in l.accepted && OnlyPays(l, to) && key in to.keys
    ensures var next := Accept(l, txid, Grant(key, value));
            && Reachable(next) && Inv(next) && Extends(l, next) && next.daa == 0 && l.unspent <= next.unspent
            && next.accepted.Keys == l.accepted.Keys + {txid}
            && Lists(next, [CoinFor(Outpoint(txid, 0), key, value)]) && OnlyPays(next, to)
  {
    GrantIsAccepted(l, txid, key, value);
    AcceptReaches(l, txid, Grant(key, value));
    AcceptPaysOnly(l, txid, Grant(key, value), to);
  }

  /** A reachable chain whose wallet coin is the only thing on it. */
  lemma {:induction false} FirstCoin(key: Key, value: int) returns (l: Ledger, node: Node)
    ensures Reachable(l) && Inv(l) && l.daa == 0 && 1 !in l.accepted && 2 !in l.accepted && 3 !in l.accepted
    ensures node == NodeOver(l, [CoinFor(Outpoint(0, 0), key, value)], []) && Honest(node)
    ensures OnlyPays(l, Parties({key}, {}))
  {
    EmptyIsReachable();
    GrantReaches(EMPTY, 0, key, value, Parties({key}, {}));
    l := Accept(EMPTY, 0, Grant(key, value));
    node := NodeOver(l, [CoinFor(Outpoint(0, 0), key, value)], []);
  }

  /** Some reachable chain holds an offer on these terms, and transactions 0 and 1 only. */
  lemma {:induction false} OfferHappens(creator: Key, platform: Key, price: int) returns (l: Ledger, id: CovenantId)
    requires PriceInBounds(price)
    ensures Reachable(l) && Inv(l) && l.daa == 0 && 2 !in l.accepted && 3 !in l.accepted
    ensures IsOffer(id, creator, platform) && MinterAt(l, Outpoint(1, 0), MinterState(creator, platform, price), id)
    ensures OnlyPays(l, Parties({creator}, {platform}))
  {
    var value := OfferCanBePrepared(creator, platform, price, Outpoint(0, 0));
    var funded, node := FirstCoin(creator, value);
    assert OneCoinNode(node, Outpoint(0, 0), creator, value);
    var p := PrepareOffer(node, creator, platform, price).value;
    OfferOpen(node, creator, platform, price, p, funded, 1);
    OfferStartsFamily(node, creator, platform, price, p, funded, 1);
    AcceptReaches(funded, 1, p.tx);
    MoreParties(funded, Parties({creator}, {}), Parties({creator}, {platform}));
    AcceptPaysOnly(funded, 1, p.tx, Parties({creator}, {platform}));
    l, id := Accept(funded, 1, p.tx), p.covenantId;
    MinterThere(funded, 1, p.tx, MinterState(creator, platform, price), id);
  }

  /** The output is listed as the family's minter by an accepted version 1 transaction. */
  ghost predicate MinterAt(l: Ledger, at: Outpoint, minter: State, id: CovenantId) {
    && Lists(l, [Utxo(at, CovenantOutput(minter, id))])
    && IsMinterCoin(l, Utxo(at, CovenantOutput(minter, id)), minter, id)
  }

  lemma {:induction false} MinterThere(l: Ledger, txid: TxId, tx: Tx, minter: State, id: CovenantId)
    requires tx.outputs != [] && tx.outputs[0] == CovenantOutput(minter, id) && tx.version == 1
    ensures MinterAt(Accept(l, txid, tx), Outpoint(txid, 0), minter, id)
  {
    assert Outpoint(txid, 0) in Created(txid, tx);
  }

  lemma {:induction false} OfferOpen(
    node: Node, creator: Key, platform: Key, price: int, p: Prepared, l: Ledger, txid: TxId)
    requires Honest(node) && PrepareOffer(node, creator, platform, price) == Ok(p)
    requires l == node.ledger && txid !in l.accepted
    ensures StillOpen(l, txid, p.tx) && p.tx.version == 1 && PaysOnly(p.tx, Parties({creator}, {platform}))
  {
    var f := OfferParts(node, creator, platform, price, p);
  }

  // ----- the mint -------------------------------------------------------------

  lemma {:induction false} MintPayees(tx: Tx, minter: State, member: State, id: CovenantId, change: int)
    requires tx.outputs == WithChange(MintOutputs(minter, member, id), member.owner, change)
    requires tx.entry == Some(MintEntry(minter, member)) && member.platform == minter.platform
    ensures PaysOnly(tx, Parties({minter.creator, member.owner, minter.platform}, {minter.platform}))
    ensures var at := tx.entry.value.ownerIndex;
            at < |tx.outputs| && tx.outputs[at] == KeyOutput(member.owner, MEMBERSHIP_INDEX_VALUE)
  {
  }

  lemma {:induction false} MintOpen(
    node: Node, contract: Contract, creator: Key, platform: Key, buyer: Key, id: CovenantId, price: int, p: Prepared,
    txid: TxId)
    requires Honest(node) && PrepareMint(node, contract, creator, platform, buyer, id, price) == Ok(p)
    requires txid !in node.ledger.accepted
    ensures StillOpen(node.ledger, txid, p.tx) && PaysOnly(p.tx, Parties({creator, buyer, platform}, {platform}))
    ensures p.tx.entry.Some? && p.tx.entry.value.Mint?
    ensures var at := p.tx.entry.value.ownerIndex;
            at < |p.tx.outputs| && p.tx.outputs[at] == KeyOutput(buyer, MEMBERSHIP_INDEX_VALUE)
  {
    var minter, member := MinterState(creator, platform, price), Member(creator, platform, buyer, price, node.ledger.daa);
    var coin, f := MintParts(node, contract, creator, platform, buyer, id, price, p);
    assert [coin][0] == coin;
    MintPayees(p.tx, minter, member, id, f.change);
  }

  /** Some value of a single coin lets any node that lists the minter prepare the mint. */
  lemma {:induction false} MintCanBePrepared(
    contract: Contract, creator: Key, platform: Key, buyer: Key, id: CovenantId, price: int, at: Outpoint) returns (value: int)
    requires PriceInBounds(price)
    ensures forall node :: OneCoinNode(node, at, buyer, value)
                           && FindMinter(node.ledger, node.minters, MinterState(creator, platform, price), id).Some? ==>
              PrepareMint(node, contract, creator, platform, buyer, id, price).Ok?
  {
    var minter, member := MinterState(creator, platform, price), Member(creator, platform, buyer, price, 0);
    var amount := price + MEMBERSHIP_OUTPUT_VALUE + MEMBERSHIP_INDEX_VALUE;
    var front, outputs := [InputShape(0, COVENANT_COMPUTE_BUDGET)], MintOutputs(minter, member, id);
    value := amount + FeeFor(front, outputs + [KeyOutput(buyer, 0)], 1.0, 0, 1);
    forall node | OneCoinNode(node, at, buyer, value) && FindMinter(node.ledger, node.minters, minter, id).Some?
      ensures PrepareMint(node, contract, creator, platform, buyer, id, price).Ok?
    {
      OneCoinMints(node, contract, creator, platform, buyer, id, price, at, front, outputs, value);
    }
  }

  lemma {:induction false} OneCoinMints(
    node: Node, contract: Contract, creator: Key, platform: Key, buyer: Key, id: CovenantId, price: int, at: Outpoint,
    front: seq<InputShape>, outputs: seq<Output>, value: int)
    requires PriceInBounds(price) && front == [InputShape(0, COVENANT_COMPUTE_BUDGET)]
    requires outputs == MintOutputs(MinterState(creator, platform, price), Member(creator, platform, buyer, price, 0), id)
    requires value == price + MEMBERSHIP_OUTPUT_VALUE + MEMBERSHIP_INDEX_VALUE
                      + FeeFor(front, outputs + [KeyOutput(buyer, 0)], 1.0, 0, 1)
    requires OneCoinNode(node, at, buyer, value)
    requires FindMinter(node.ledger, node.minters, MinterState(creator, platform, price), id).Some?
    ensures PrepareMint(node, contract, creator, platform, buyer, id, price).Ok?
  {
    OneCoinFunds(node, buyer, price + MEMBERSHIP_OUTPUT_VALUE + MEMBERSHIP_INDEX_VALUE, front, outputs, 0, at);
    assert [CovenantInput(node)] == front;
  }

  lemma {:induction false} MinterStillThere(l: Ledger, next: Ledger, at: Outpoint, minter: State, id: CovenantId)
    requires MinterAt(l, at, minter, id) && Extends(l, next) && l.unspent <= next.unspent
    ensures MinterAt(next, at, minter, id)
  {
    var coin := Utxo(at, CovenantOutput(minter, id));
    assert [coin][0] == coin;
    assert Exists(l, at);
  }

  /** A coin granted beside an offer leaves both listed. */
  lemma {:induction false} CoinBesideOffer(offered: Ledger, key: Key, value: int, minter: State, id: CovenantId, to: Parties)
    returns (l: Ledger, node: Node)
    requires Reachable(offered) && Inv(offered) && offered.daa == 0 && 2 !in offered.accepted && 3 !in offered.accepted
    requires MinterAt(offered, Outpoint(1, 0), minter, id)
    requires OnlyPays(offered, to) && key in to.keys
    ensures OnlyPays(l, to)
    ensures Reachable(l) && Inv(l) && l.daa == 0 && 3 !in l.accepted
    ensures node == NodeOver(l, [CoinFor(Outpoint(2, 0), key, value)], [Utxo(Outpoint(1, 0), CovenantOutput(minter, id))])
    ensures Honest(node) && FindMinter(l, node.minters, minter, id).Some?
  {
    l := Accept(offered, 2, Grant(key, value));
    GrantReaches(offered, 2, key, value, to);
    MinterStillThere(offered, l, Outpoint(1, 0), minter, id);
    node := NodeOver(l, [CoinFor(Outpoint(2, 0), key, value)], [Utxo(Outpoint(1, 0), CovenantOutput(minter, id))]);
    MinterIsFound(node, minter, id);
  }

  /** A chain with an offer and a coin for the buyer that pays for its membership. */
  lemma {:induction false} BuyerFunded(contract: Contract, creator: Key, platform: Key, buyer: Key, price: int)
    returns (l: Ledger, id: CovenantId, node: Node, p: Prepared)
    requires PriceInBounds(price)
    ensures Reachable(l) && Inv(l) && l.daa == 0 && 3 !in l.accepted && IsOffer(id, creator, platform)
    ensures node.ledger == l && Honest(node) && PrepareMint(node, contract, creator, platform, buyer, id, price) == Ok(p)
    ensures OnlyPays(l, Parties({creator, buyer, platform}, {platform}))
  {
    var offered, covenantId := OfferHappens(creator, platform, price);
    id := covenantId;
    var value := MintCanBePrepared(contract, creator, platform, buyer, id, price, Outpoint(2, 0));
    MoreParties(offered, Parties({creator}, {platform}), Parties({creator, buyer, platform}, {platform}));
    l, node := CoinBesideOffer(offered, buyer, value, MinterState(creator, platform, price), id, Parties({creator, buyer, platform}, {platform}));
    assert OneCoinNode(node, Outpoint(2, 0), buyer, value);
    p := PrepareMint(node, contract, creator, platform, buyer, id, price).value;
  }

  lemma {:induction false} MinterIsFound(node: Node, minter: State, id: CovenantId)
    requires |node.minters| == 1 && IsMinterCoin(node.ledger, node.minters[0], minter, id)
    ensures FindMinter(node.ledger, node.minters, minter, id).Some?
  {
  }

  /**
   For any creator, platform, buyer and price within bounds there is a reachable
   chain and a covenant offered on these terms in which the buyer's membership is
   VALID, its index coin lies in the buyer's wallet, and nobody else was paid.
   */
  lemma {:induction false} MembershipsHappen(
    contract: Contract, hasAddress: Key -> bool, creator: Key, platform: Key, buyer: Key, price: int)
    returns (v: View, id: CovenantId, index: Utxo)
    requires PriceInBounds(price) && hasAddress(platform)
    ensures v == View(contract, hasAddress, v.ledger) && Reachable(v.ledger) && IsOffer(id, creator, platform)
    ensures IsValid(VerifyUtxo(v, 3, 1, Expected(Some(buyer), Some(id), Some(creator))))
    ensures IsValid(VerifyUtxo(v, 3, 1, Expected(Some(buyer), None, Some(creator))))
    ensures Lists(v.ledger, [index]) && index.outpoint.transactionId == 3 && index.output == KeyOutput(buyer, MEMBERSHIP_INDEX_VALUE)
    ensures OnlyPays(v.ledger, Parties({creator, buyer, platform}, {platform}))
  {
    var funded, covenantId, node, p := BuyerFunded(contract, creator, platform, buyer, price);
    id := covenantId;
    MintOpen(node, contract, creator, platform, buyer, id, price, p, 3);
    MintMeetsCovenant(node, contract, creator, platform, buyer, id, price, p, funded, 3);
    AcceptReaches(funded, 3, p.tx);
    AcceptPaysOnly(funded, 3, p.tx, Parties({creator, buyer, platform}, {platform}));
    var l := Accept(funded, 3, p.tx);
    v := View(contract, hasAddress, l);
    index := IndexCoin(funded, 3, p.tx, p.tx.entry.value.ownerIndex);
    ReachesItself(l);
    PaidMembershipVerifies(node, contract, creator, platform, buyer, id, price, p, funded, 3, v,
                           Expected(Some(buyer), Some(id), Some(creator)));
    PaidMembershipVerifies(node, contract, creator, platform, buyer, id, price, p, funded, 3, v,
                           Expected(Some(buyer), None, Some(creator)));
  }

  lemma {:induction false} IndexCoin(l: Ledger, txid: TxId, tx: Tx, at: nat) returns (index: Utxo)
    requires at < |tx.outputs|
    ensures index == Utxo(Outpoint(txid, at), tx.outputs[at]) && Lists(Accept(l, txid, tx), [index])
  {
    index := Utxo(Outpoint(txid, at), tx.outputs[at]);
    assert Outpoint(txid, at) in Created(txid, tx);
  }
}
