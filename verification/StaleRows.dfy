/**
 What the gateway prepares sets the prices it was asked for, and what a registry
 row that does not name the live minter does to it.
 */
module StaleRows {
  import opened Wrappers
  import opened MembershipContract
  import opened Chain
  import opened Covenant
  import opened Ledger
  import opened LedgerInvariants
  import opened LedgerRuns
  import opened LedgerPrices
  import opened Gateway
  import opened GatewayProofs
  import opened Protocol
  import opened PriceRuns
  import Registry

  // ----- prices on the chain --------------------------------------------------

  /** An accepted price update sets the price it was prepared for. */
  lemma {:induction false} PreparedUpdateSetsPrice(
    node: Node, creator: Key, platform: Key, id: CovenantId, currentPrice: int, newPrice: int, p: Gateway.Prepared,
    l: Ledger, txid: TxId)
    requires Honest(node) && Extends(node.ledger, l) && txid !in l.accepted
    requires PreparePriceUpdate(node, creator, platform, id, currentPrice, newPrice) == Ok(p)
    ensures PriceSetBy(Accept(l, txid, p.tx), txid, id) == Some(newPrice)
  {
    var current, moved := MinterState(creator, platform, currentPrice), MinterState(creator, platform, newPrice);
    var coin, f := MoveParts(node, current, moved, id, Update(newPrice, 1), newPrice, p);
    assert [coin][0] == coin;
    assert InFamily(node.ledger, coin.outpoint, id);
    FamilyStays(node.ledger, l, coin.outpoint, id);
    var next := Accept(l, txid, p.tx);
    assert next.accepted[txid].tx == p.tx && p.tx.inputs[0] == coin.outpoint;
    assert InFamily(next, coin.outpoint, id);
  }

  /** An accepted offer sets the price it was prepared for, for a covenant nobody had. */
  lemma {:induction false} PreparedOfferSetsPrice(
    node: Node, creator: Key, platform: Key, price: int, p: Gateway.Prepared, l: Ledger, txid: TxId)
    requires Honest(node) && PrepareOffer(node, creator, platform, price) == Ok(p)
    requires Inv(l) && Acceptable(l, txid, p.tx)
    ensures PriceSetBy(Accept(l, txid, p.tx), txid, p.covenantId) == Some(price)
  {
    var minter := MinterState(creator, platform, price);
    var f := OfferParts(node, creator, platform, price, p);
    OfferBooks(minter, f);
    NewFamily(l, txid, p.tx, p.covenantId);
  }

  /** A covenant starts with its creating transaction: its genesis was not yet spent. */
  lemma {:induction false} NewFamily(l: Ledger, txid: TxId, tx: Tx, id: CovenantId)
    requires Inv(l) && Acceptable(l, txid, tx) && Creates(tx, Binding(id, 0))
    requires tx.outputs != [] && tx.outputs[0].binding == Some(Binding(id, 0))
    ensures PriceSetBy(Accept(l, txid, tx), txid, id) == Some(OfferedPrice(id))
  {
    var next := Accept(l, txid, tx);
    assert id.genesis == tx.inputs[0] && tx.inputs[0] in l.unspent;
    assert Exists(l, tx.inputs[0]) && tx.inputs[0].transactionId != txid;
    assert !InFamily(l, tx.inputs[0], id);
    assert !InFamily(next, tx.inputs[0], id);
    assert InFamily(next, Outpoint(txid, 0), id);
  }

  // ----- a row at another price -----------------------------------------------

  /** At a price that is not the live minter's the gateway finds no minter. */
  lemma {:induction false} WrongPriceFindsNoMinter(
    l: Ledger, coins: seq<Utxo>, minter: State, id: CovenantId, at: Outpoint)
    requires Lists(l, coins) && SoleMinter(l, id, at) && minter.isMinter
    requires OutputAt(l, at).script != PayToCovenant(minter)
    ensures FindMinter(l, coins, minter, id).None?
  {
    forall coin | coin in coins
      ensures !IsMinterCoin(l, coin, minter, id)
    {
      var i :| 0 <= i < |coins| && coins[i] == coin;
      assert coin.outpoint in l.unspent;
      assert IsMinterCoin(l, coin, minter, id) ==> IsMinter(l, coin.outpoint, id);
    }
  }

  /** Mint, update and cancellation at a price that is not the live minter's are all refused. */
  lemma {:induction false} WrongPriceStopsAll(
    node: Node, contract: Contract, creator: Key, platform: Key, buyer: Key, id: CovenantId, price: int, newPrice: int,
    at: Outpoint)
    requires Lists(node.ledger, node.minters) && SoleMinter(node.ledger, id, at)
    requires Encodable(MinterState(creator, platform, price))
    requires OutputAt(node.ledger, at).script != PayToCovenant(MinterState(creator, platform, price))
    ensures PrepareMint(node, contract, creator, platform, buyer, id, price) == Err(MEMBERSHIP_STATE_CHANGED)
    ensures PreparePriceUpdate(node, creator, platform, id, price, newPrice) == Err(MEMBERSHIP_STATE_CHANGED)
    ensures PrepareCancellation(node, creator, platform, id, price) == Err(MEMBERSHIP_STATE_CHANGED)
  {
    WrongPriceFindsNoMinter(node.ledger, node.minters, MinterState(creator, platform, price), id, at);
  }

  /**
   Once the record that wrote a creator's row is overtaken, in any interleaving
   over a reachable chain, the gateway refuses every mint, price update and
   cancellation at the row's price: the covenant is out of the server's reach.
   */
  lemma {:induction false} OvertakenRowStopsAll(
    run: seq<System>, n: nat, node: Node, contract: Contract, family: CovenantId, creator: Key, platform: Key, buyer: Key,
    newPrice: int, at: Outpoint)
    requires Protocol.IsRun(run) && n < |run|
    requires Reachable(node.ledger) && IsOffer(family, creator, platform) && SoleMinter(node.ledger, family, at)
    requires LogIsAccepted(node.ledger) && Follows(run[n].shared, node.ledger, family)
    requires Registry.Holds(run[n].shared.tables.registry, creator, family)
    requires creator in run[n].shared.written && Overtaken(run[n].shared, run[n].shared.written[creator])
    requires Lists(node.ledger, node.minters)
    requires Encodable(MinterState(creator, platform, run[n].shared.tables.registry.current[creator].priceSompi))
    ensures var price := run[n].shared.tables.registry.current[creator].priceSompi;
            && PrepareMint(node, contract, creator, platform, buyer, family, price) == Err(MEMBERSHIP_STATE_CHANGED)
            && PreparePriceUpdate(node, creator, platform, family, price, newPrice) == Err(MEMBERSHIP_STATE_CHANGED)
            && PrepareCancellation(node, creator, platform, family, price) == Err(MEMBERSHIP_STATE_CHANGED)
  {
    RowNamesLiveMinter(run, n, node.ledger, family, creator, platform, at);
    var price := run[n].shared.tables.registry.current[creator].priceSompi;
    WrongPriceStopsAll(node, contract, creator, platform, buyer, family, price, newPrice, at);
  }
}
