/** What the gateway prepares meets the covenant, the chain and its own books. */
module GatewayProofs {
  import opened Wrappers
  import opened MembershipContract
  import opened Chain
  import opened Fees
  import opened CoinSelection
  import opened Covenant
  import opened Ledger
  import opened LedgerInvariants
  import opened Gateway

  // ----- the node lists what is there -----------------------------------------

  /** Every listed coin is unspent and shown as it is, and none is listed twice. */
  ghost predicate Lists(l: Ledger, coins: seq<Utxo>) {
    && (forall i :: 0 <= i < |coins| ==>
          coins[i].outpoint in l.unspent && Exists(l, coins[i].outpoint) && OutputAt(l, coins[i].outpoint) == coins[i].output)
    && (forall i, j :: 0 <= i < j < |coins| ==> coins[i].outpoint != coins[j].outpoint)
  }

  ghost predicate Honest(node: Node) {
    Lists(node.ledger, node.wallet) && Lists(node.ledger, node.minters)
  }

  lemma {:induction false} OnceEach(coins: seq<Utxo>, c: Utxo)
    requires forall i, j :: 0 <= i < j < |coins| ==> coins[i].outpoint != coins[j].outpoint
    ensures multiset(coins)[c] <= 1
  {
    if coins != [] {
      var n := |coins| - 1;
      OnceEach(coins[..n], c);
      assert coins == coins[..n] + [coins[n]];
      if coins[n] == c {
        assert c !in coins[..n];
        assert multiset(coins[..n])[c] == 0;
      }
    }
  }

  lemma {:induction false} PickedAreListed(l: Ledger, wallet: seq<Utxo>, key: Key, picked: seq<Utxo>, anyBinding: bool)
    requires Lists(l, wallet) && PickOf(picked, wallet, key, anyBinding)
    ensures Lists(l, picked)
  {
    forall i | 0 <= i < |picked|
      ensures picked[i] in wallet
    {
      assert picked[i] in multiset(picked);
      assert picked[i] in multiset(wallet);
    }
    forall i, j | 0 <= i < j < |picked|
      ensures picked[i].outpoint != picked[j].outpoint
    {
      if picked[i] == picked[j] {
        TwiceCounts(picked, i, j);
        OnceEach(wallet, picked[i]);
      }
    }
  }

  lemma {:induction false} TwiceCounts(coins: seq<Utxo>, i: nat, j: nat)
    requires i < j < |coins| && coins[i] == coins[j]
    ensures multiset(coins)[coins[i]] >= 2
  {
    assert coins == coins[..j] + [coins[j]] + coins[j + 1..];
    assert coins[i] in coins[..j];
    assert coins[i] in multiset(coins[..j]);
  }

  // ----- choosing coins -------------------------------------------------------

  /** The chosen coins cover the amount and their own fee, from the listed wallet. */
  lemma {:induction false} ChosenCover(
    l: Ledger, wallet: seq<Utxo>, key: Key, amount: int, front: seq<InputShape>, outputs: seq<Output>,
    rate: real, payloadBytes: nat)
    requires Lists(l, wallet) && Choose(wallet, key, amount, front, outputs, rate, payloadBytes).Ok?
    ensures var chosen := Choose(wallet, key, amount, front, outputs, rate, payloadBytes).value;
            && chosen != [] && Lists(l, chosen)
            && (forall i :: 0 <= i < |chosen| ==> chosen[i].output.script == PayToKey(key) && chosen[i].output.binding.None?)
            && Total(chosen) >= amount + FeeFor(front, outputs, rate, payloadBytes, |chosen|)
  {
    var feeFor := (coins: seq<Utxo>) => FeeFor(front, outputs, rate, payloadBytes, |coins|);
    SelectionCovers(wallet, key, amount, feeFor);
    PickedAreListed(l, wallet, key, Selection(wallet, key, amount, feeFor).value, false);
  }

  /** The gateway runs out of funds only when no coins of the wallet would do. */
  lemma {:induction false} ChooseIsMinimal(
    wallet: seq<Utxo>, key: Key, amount: int, front: seq<InputShape>, outputs: seq<Output>,
    rate: real, payloadBytes: nat, pick: seq<Utxo>)
    requires rate > 0.0 && amount >= 0 && PickOf(pick, wallet, key, false)
    requires Total(pick) >= amount + FeeFor(front, outputs, rate, payloadBytes, |pick|)
    ensures Choose(wallet, key, amount, front, outputs, rate, payloadBytes).Ok?
    ensures |Choose(wallet, key, amount, front, outputs, rate, payloadBytes).value| <= |pick|
  {
    var feeFor := (coins: seq<Utxo>) => FeeFor(front, outputs, rate, payloadBytes, |coins|);
    var fee := (coins: nat) => FeeFor(front, outputs, rate, payloadBytes, coins);
    SelectionIsMinimal(wallet, key, amount, feeFor, fee, pick);
  }

  // ----- sums -----------------------------------------------------------------

  function OutputsOf(coins: seq<Utxo>): (r: seq<Output>)
    ensures |r| == |coins|
  {
    seq(|coins|, i requires 0 <= i < |coins| => coins[i].output)
  }

  lemma {:induction false} ValuesAdd(left: seq<Output>, right: seq<Output>)
    ensures ValueOf(left + right) == ValueOf(left) + ValueOf(right)
  {
    if right == [] {
      assert left + right == left;
    } else {
      var n := |right| - 1;
      assert (left + right)[..|left + right| - 1] == left + right[..n];
      ValuesAdd(left, right[..n]);
    }
  }

  lemma {:induction false} TotalIsValue(coins: seq<Utxo>)
    ensures ValueOf(OutputsOf(coins)) == Total(coins)
  {
    if coins != [] {
      var n := |coins| - 1;
      TotalIsValue(coins[..n]);
      assert OutputsOf(coins)[..n] == OutputsOf(coins[..n]);
    }
  }

  lemma {:induction false} SpentCoins(l: Ledger, tx: Tx, coins: seq<Utxo>)
    requires Lists(l, coins) && tx.inputs == Outpoints(coins)
    ensures InputsExist(l, tx) && Spent(l, tx) == OutputsOf(coins) && ValueOf(Spent(l, tx)) == Total(coins)
  {
    TotalIsValue(coins);
  }

  /** Spending the minter and some wallet coins, which are all different outputs. */
  lemma {:induction false} SpentWithMinter(l: Ledger, tx: Tx, minter: Utxo, coins: seq<Utxo>, key: Key)
    requires Lists(l, [minter]) && Lists(l, coins) && minter.output.script.PayToCovenant?
    requires forall i :: 0 <= i < |coins| ==> coins[i].output.script == PayToKey(key)
    requires tx.inputs == [minter.outpoint] + Outpoints(coins)
    ensures Lists(l, [minter] + coins)
    ensures InputsExist(l, tx) && Spent(l, tx) == [minter.output] + OutputsOf(coins)
    ensures ValueOf(Spent(l, tx)) == minter.output.value + Total(coins)
  {
    var all := [minter] + coins;
    assert [minter][0] == minter;
    assert Exists(l, minter.outpoint) && OutputAt(l, minter.outpoint) == minter.output;
    forall i, j | 0 <= i < j < |all|
      ensures all[i].outpoint != all[j].outpoint
    {
      if i > 0 {
        assert coins[i - 1].outpoint != coins[j - 1].outpoint;
      } else {
        assert OutputAt(l, coins[j - 1].outpoint) != OutputAt(l, minter.outpoint);
      }
    }
    assert Outpoints(all) == tx.inputs;
    SpentCoins(l, tx, all);
    assert OutputsOf(all) == [minter.output] + OutputsOf(coins);
    ValuesAdd([minter.output], OutputsOf(coins));
    assert [minter.output][..0] == [];
    TotalIsValue(coins);
  }

  // ----- bound outputs --------------------------------------------------------

  lemma {:induction false} BoundFront(outputs: seq<Output>, b: Binding, k: nat)
    requires k <= |outputs|
    requires forall i :: 0 <= i < |outputs| ==> (outputs[i].binding == Some(b) <==> i < k)
    ensures |BoundIndices(outputs, b)| == k && forall i :: 0 <= i < k ==> BoundIndices(outputs, b)[i] == i
  {
    if outputs != [] {
      BoundFront(outputs[..|outputs| - 1], b, if k == |outputs| then k - 1 else k);
    }
  }

  // ----- funding --------------------------------------------------------------

  lemma {:induction false} ShapesAdd(left: seq<Output>, right: seq<Output>)
    ensures Shapes(left + right) == Shapes(left) + Shapes(right)
  {
  }

  /** The fee is estimated with a change output, so it is enough with or without one. */
  lemma {:induction false} FeeIsEnough(
    front: seq<InputShape>, outputs: seq<Output>, key: Key, change: int, rate: real, payloadBytes: nat, coins: nat)
    requires rate > 0.0
    ensures var final := WithChange(outputs, key, change);
            var fee := FeeFor(front, outputs + [KeyOutput(key, 0)], rate, payloadBytes, coins);
            && fee >= FeeFor(front, final, rate, payloadBytes, coins)
            && fee >= 100 * ComputeMass(front + WalletInputs(coins), Shapes(final), payloadBytes)
  {
    var inputs, provisional := front + WalletInputs(coins), outputs + [KeyOutput(key, 0)];
    ShapesAdd(outputs, [KeyOutput(key, 0)]);
    ShapesAdd(outputs, [KeyOutput(key, change)]);
    assert Shapes([KeyOutput(key, 0)]) == Shapes([KeyOutput(key, change)]);
    assert Shapes(provisional)[..|outputs|] == Shapes(outputs);
    FewerOutputsWeighLess(inputs, Shapes(provisional), |outputs|, payloadBytes);
    FeeGrowsWithMass(
      ComputeMass(inputs, Shapes(WithChange(outputs, key, change)), payloadBytes),
      ComputeMass(inputs, Shapes(provisional), payloadBytes), rate);
  }

  ghost predicate Funds(node: Node, key: Key, amount: int, front: seq<InputShape>, outputs: seq<Output>, payloadBytes: nat, f: Funding) {
    && node.rate > 0.0
    && f.selected != [] && Lists(node.ledger, f.selected)
    && (forall i :: 0 <= i < |f.selected| ==>
          f.selected[i].output.script == PayToKey(key) && f.selected[i].output.binding.None?)
    && f.fee == FeeFor(front, outputs + [KeyOutput(key, 0)], node.rate, payloadBytes, |f.selected|)
    && f.change == Total(f.selected) - amount - f.fee >= 0
    && f.fee >= FeeFor(front, WithChange(outputs, key, f.change), node.rate, payloadBytes, |f.selected|)
    && f.fee >= 100 * ComputeMass(front + WalletInputs(|f.selected|), Shapes(WithChange(outputs, key, f.change)), payloadBytes)
  }

  lemma {:induction false} FundingMeans(
    node: Node, key: Key, amount: int, front: seq<InputShape>, outputs: seq<Output>, payloadBytes: nat)
    requires Honest(node) && Fund(node, key, amount, front, outputs, payloadBytes).Ok?
    ensures Funds(node, key, amount, front, outputs, payloadBytes,
                  Fund(node, key, amount, front, outputs, payloadBytes).value)
  {
    ChosenCover(node.ledger, node.wallet, key, amount, front, outputs + [KeyOutput(key, 0)], node.rate, payloadBytes);
    var f := Fund(node, key, amount, front, outputs, payloadBytes).value;
    FeeIsEnough(front, outputs, key, f.change, node.rate, payloadBytes, |f.selected|);
  }

  lemma {:induction false} ChangeAdds(outputs: seq<Output>, key: Key, change: int)
    requires change >= 0
    ensures ValueOf(WithChange(outputs, key, change)) == ValueOf(outputs) + change
  {
    ValuesAdd(outputs, [KeyOutput(key, change)]);
    assert [KeyOutput(key, change)][..0] == [];
  }

  // ----- the minter coin ------------------------------------------------------

  lemma {:induction false} FoundMinter(node: Node, minter: State, id: CovenantId)
    requires Honest(node) && FindMinter(node.ledger, node.minters, minter, id).Some?
    ensures var coin := FindMinter(node.ledger, node.minters, minter, id).value;
            && Lists(node.ledger, [coin]) && IsMinterCoin(node.ledger, coin, minter, id)
            && coin.output == Output(MEMBERSHIP_OUTPUT_VALUE, PayToCovenant(minter), Some(Binding(id, 0)))
  {
  }

  // ----- mint -----------------------------------------------------------------

  /** The coins a prepared mint spends and the change it leaves. */
  ghost predicate MadeMint(
    node: Node, contract: Contract, minter: State, member: State, id: CovenantId, p: Prepared, coin: Utxo, f: Funding)
  {
    && Encodable(minter) && Encodable(member)
    && p.tx == MintTx(contract, coin.outpoint, f.selected, minter, member, id, f.change, node.ledger.daa)
    && p.covenantId == id && p.memberOutputIndex == Some(1) && p.priceSompi == minter.priceSompi && p.fee == f.fee
    && p.signInputs == SignAll(|f.selected|, 1)
    && Lists(node.ledger, [coin]) && coin.output == CovenantOutput(minter, id)
    && Funds(node, member.owner, minter.priceSompi + MEMBERSHIP_OUTPUT_VALUE + MEMBERSHIP_INDEX_VALUE,
             [CovenantInput(node)], MintOutputs(minter, member, id), node.payloadBytes, f)
  }

  lemma {:induction false} MintParts(
    node: Node, contract: Contract, creator: Key, platform: Key, buyer: Key, id: CovenantId, price: int, p: Prepared)
    returns (coin: Utxo, f: Funding)
    requires Honest(node) && PrepareMint(node, contract, creator, platform, buyer, id, price) == Ok(p)
    ensures MadeMint(node, contract, MinterState(creator, platform, price),
                     Member(creator, platform, buyer, price, node.ledger.daa), id,
                     p, coin, f)
  {
    var minter := MinterState(creator, platform, price);
    var member := Member(creator, platform, buyer, price, node.ledger.daa);
    var amount := price + MEMBERSHIP_OUTPUT_VALUE + MEMBERSHIP_INDEX_VALUE;
    coin := FindMinter(node.ledger, node.minters, minter, id).value;
    f := Fund(node, buyer, amount, [CovenantInput(node)], MintOutputs(minter, member, id), node.payloadBytes).value;
    FoundMinter(node, minter, id);
    FundingMeans(node, buyer, amount, [CovenantInput(node)], MintOutputs(minter, member, id), node.payloadBytes);
  }

  lemma {:induction false} MintOutputsBound(minter: State, member: State, id: CovenantId, change: int)
    ensures var outputs := WithChange(MintOutputs(minter, member, id), member.owner, change);
            |BoundIndices(outputs, Binding(id, 0))| == 2 &&
            BoundIndices(outputs, Binding(id, 0))[0] == 0 && BoundIndices(outputs, Binding(id, 0))[1] == 1
  {
    BoundFront(WithChange(MintOutputs(minter, member, id), member.owner, change), Binding(id, 0), 2);
  }

  /** The named indices hold what the entry asks for, charged or waived. */
  lemma {:induction false} MintOutputsPay(tx: Tx, minter: State, member: State, id: CovenantId, change: int)
    requires tx.outputs == WithChange(MintOutputs(minter, member, id), member.owner, change)
    ensures var e, fee := MintEntry(minter, member), MembershipFeeSompi(minter.priceSompi);
            && PaysAt(tx, e.ownerIndex, PayToKey(member.owner), MEMBERSHIP_INDEX_VALUE)
            && PaysAt(tx, e.payment, PayToKey(minter.creator), minter.priceSompi - fee)
            && (fee > 0 ==> PaysAt(tx, e.platform, PayToKey(minter.platform), fee))
            && |tx.outputs| > 1 && tx.outputs[0] == CovenantOutput(minter, id) && tx.outputs[1] == CovenantOutput(member, id)
  {
  }

  lemma {:induction false} MintTxHolds(tx: Tx, spent: seq<Output>, minter: State, member: State, id: CovenantId, change: int)
    requires tx.outputs == WithChange(MintOutputs(minter, member, id), member.owner, change)
    requires tx.entry == Some(MintEntry(minter, member))
    requires minter.isMinter && tx.lockTime >= 0
    requires member == Member(minter.creator, minter.platform, member.owner, minter.priceSompi, tx.lockTime)
    requires |spent| > 1 && spent[1].script == PayToKey(member.owner)
    ensures EntryHolds(tx, spent, minter, id) <==> PriceInBounds(minter.priceSompi)
  {
    MintOutputsBound(minter, member, id, change);
    MintOutputsPay(tx, minter, member, id, change);
    FeeFormulasAgree(minter.priceSompi);
    assert MovesTo(tx, id, [minter, member]);
  }

  lemma {:induction false} MintOutputsValue(minter: State, member: State, id: CovenantId)
    ensures ValueOf(MintOutputs(minter, member, id)) ==
            2 * MEMBERSHIP_OUTPUT_VALUE + MEMBERSHIP_INDEX_VALUE + minter.priceSompi
  {
    var fee := MembershipFeeSompi(minter.priceSompi);
    var head := [CovenantOutput(minter, id), CovenantOutput(member, id), KeyOutput(minter.creator, minter.priceSompi - fee)];
    var middle := if fee > 0 then [KeyOutput(minter.platform, fee)] else [];
    var last := [KeyOutput(member.owner, MEMBERSHIP_INDEX_VALUE)];
    FeeFormulasAgree(minter.priceSompi);
    ValueOfThree(head);
    ValueOfUpToOne(middle);
    ValueOfUpToOne(last);
    ValuesAdd(head, middle);
    ValuesAdd(head + middle, last);
  }

  lemma {:induction false} ValueOfUpToOne(outputs: seq<Output>)
    requires |outputs| <= 1
    ensures ValueOf(outputs) == if outputs == [] then 0 else outputs[0].value
  {
  }

  lemma {:induction false} ValueOfThree(outputs: seq<Output>)
    requires |outputs| == 3
    ensures ValueOf(outputs) == outputs[0].value + outputs[1].value + outputs[2].value
  {
    assert outputs == ([outputs[0]] + [outputs[1]]) + [outputs[2]];
    ValuesAdd([outputs[0]] + [outputs[1]], [outputs[2]]);
    ValuesAdd([outputs[0]], [outputs[1]]);
    ValueOfUpToOne([outputs[0]]);
    ValueOfUpToOne([outputs[1]]);
    ValueOfUpToOne([outputs[2]]);
  }

  // ----- acceptance at any later time -----------------------------------------

  /** All inputs are still there and the transaction is not yet accepted. */
  predicate StillOpen(l: Ledger, txid: TxId, tx: Tx) {
    txid !in l.accepted && forall i :: 0 <= i < |tx.inputs| ==> tx.inputs[i] in l.unspent
  }

  lemma {:induction false} BoundContinues(tx: Tx, spent: seq<Output>, id: CovenantId)
    requires spent != [] && spent[0].binding == Some(Binding(id, 0))
    requires forall j :: 0 <= j < |tx.outputs| && tx.outputs[j].binding.Some? ==> tx.outputs[j].binding == Some(Binding(id, 0))
    ensures BindingsValid(tx, spent)
  {
    assert Continues(spent, Binding(id, 0));
  }

  /** What a transaction spending the minter and wallet coins needs to be accepted. */
  lemma {:induction false} SpendingAcceptable(
    l: Ledger, later: Ledger, txid: TxId, tx: Tx, minter: Utxo, state: State, id: CovenantId, coins: seq<Utxo>, key: Key)
    requires Extends(l, later)
    requires Lists(l, [minter]) && Lists(l, coins) && minter.output == CovenantOutput(state, id)
    requires forall i :: 0 <= i < |coins| ==> coins[i].output.script == PayToKey(key) && coins[i].output.binding.None?
    requires tx.inputs == [minter.outpoint] + Outpoints(coins)
    requires tx.lockTime <= l.daa && ValueOf(tx.outputs) <= MEMBERSHIP_OUTPUT_VALUE + Total(coins)
    requires forall j :: 0 <= j < |tx.outputs| && tx.outputs[j].binding.Some? ==> tx.outputs[j].binding == Some(Binding(id, 0))
    ensures InputsExist(later, tx) && Spent(later, tx) == [minter.output] + OutputsOf(coins)
    ensures Acceptable(later, txid, tx) <==> StillOpen(later, txid, tx) && EntryHolds(tx, Spent(later, tx), state, id)
  {
    SpentWithMinter(l, tx, minter, coins, key);
    ExtendedSpent(l, later, tx);
    var spent := Spent(later, tx);
    RestUnbound(spent, minter, coins);
    assert Outpoints([minter] + coins) == tx.inputs;
    InputsDiffer(tx, [minter] + coins);
    BoundContinues(tx, spent, id);
    assert Holding(spent) == Some((id, state));
  }

  lemma {:induction false} RestUnbound(spent: seq<Output>, minter: Utxo, coins: seq<Utxo>)
    requires spent == [minter.output] + OutputsOf(coins)
    requires forall i :: 0 <= i < |coins| ==> coins[i].output.binding.None?
    ensures spent[0] == minter.output && forall i :: 0 < i < |spent| ==> spent[i].binding.None?
  {
  }

  lemma {:induction false} InputsDiffer(tx: Tx, coins: seq<Utxo>)
    requires tx.inputs == Outpoints(coins)
    requires forall i, j :: 0 <= i < j < |coins| ==> coins[i].outpoint != coins[j].outpoint
    ensures forall i, j :: 0 <= i < j < |tx.inputs| ==> tx.inputs[i] != tx.inputs[j]
  {
  }

  /**
   A prepared mint, in the fee-waived and the fee-charged layout, with or without
   change, is acceptable to the chain at any later time exactly when the price is
   within the covenant's bounds and the coins it spends are still unspent.
   */
  lemma {:induction false} MintMeetsCovenant(
    node: Node, contract: Contract, creator: Key, platform: Key, buyer: Key, id: CovenantId, price: int, p: Prepared,
    later: Ledger, txid: TxId)
    requires Honest(node) && node.ledger.daa >= 0 && Extends(node.ledger, later)
    requires PrepareMint(node, contract, creator, platform, buyer, id, price) == Ok(p)
    ensures && InputsExist(later, p.tx)
            && (EntryHolds(p.tx, Spent(later, p.tx), MinterState(creator, platform, price), id) <==> PriceInBounds(price))
            && (Acceptable(later, txid, p.tx) <==> StillOpen(later, txid, p.tx) && PriceInBounds(price))
  {
    var minter, member := MinterState(creator, platform, price), Member(creator, platform, buyer, price, node.ledger.daa);
    var coin, f := MintParts(node, contract, creator, platform, buyer, id, price, p);
    MintBooks(node, contract, minter, member, id, p, coin, f);
    SpendingAcceptable(node.ledger, later, txid, p.tx, coin, minter, id, f.selected, buyer);
    assert Spent(later, p.tx)[1] == OutputsOf(f.selected)[0];
    MintTxHolds(p.tx, Spent(later, p.tx), minter, member, id, f.change);
  }

  lemma {:induction false} MintBooks(
    node: Node, contract: Contract, minter: State, member: State, id: CovenantId, p: Prepared, coin: Utxo, f: Funding)
    requires MadeMint(node, contract, minter, member, id, p, coin, f)
    ensures ValueOf(p.tx.outputs) + p.fee == MEMBERSHIP_OUTPUT_VALUE + Total(f.selected)
    ensures forall j :: 0 <= j < |p.tx.outputs| && p.tx.outputs[j].binding.Some? ==> p.tx.outputs[j].binding == Some(Binding(id, 0))
  {
    MintOutputsValue(minter, member, id);
    ChangeAdds(MintOutputs(minter, member, id), member.owner, f.change);
  }

  /** Every check of the gateway's own diagnosis passes on what it prepared. */
  lemma {:induction false} PreflightPasses(
    node: Node, contract: Contract, creator: Key, platform: Key, buyer: Key, id: CovenantId, price: int, p: Prepared)
    requires Honest(node) && PrepareMint(node, contract, creator, platform, buyer, id, price) == Ok(p)
    ensures InputsExist(node.ledger, p.tx) &&
            MembershipPreflight(creator, buyer, platform, MinterState(creator, platform, price),
                                Member(creator, platform, buyer, price, node.ledger.daa),
                                Spent(node.ledger, p.tx), p.tx.outputs, node.ledger.daa)
  {
    var minter, member := MinterState(creator, platform, price), Member(creator, platform, buyer, price, node.ledger.daa);
    var coin, f := MintParts(node, contract, creator, platform, buyer, id, price, p);
    SpentWithMinter(node.ledger, p.tx, coin, f.selected, buyer);
    assert Spent(node.ledger, p.tx)[1] == OutputsOf(f.selected)[0];
    MintOutputsPay(p.tx, minter, member, id, f.change);
  }

  // ----- price update and cancellation ----------------------------------------

  ghost predicate MadeMove(
    node: Node, current: State, moved: State, id: CovenantId, entry: Entry, p: Prepared, coin: Utxo, f: Funding)
  {
    && p.tx == MoveTx(coin.outpoint, f.selected, moved, id, entry, f.change)
    && p.covenantId == id && p.memberOutputIndex == None && p.fee == f.fee && p.signInputs == SignAll(|f.selected|, 1)
    && Lists(node.ledger, [coin]) && coin.output == CovenantOutput(current, id)
    && Funds(node, current.creator, MEMBERSHIP_OUTPUT_VALUE, [CovenantInput(node)], [CovenantOutput(moved, id)], 0, f)
  }

  lemma {:induction false} MoveParts(node: Node, current: State, moved: State, id: CovenantId, entry: Entry, price: int, p: Prepared)
    returns (coin: Utxo, f: Funding)
    requires Honest(node) && PrepareMove(node, current, moved, id, entry, price) == Ok(p)
    ensures MadeMove(node, current, moved, id, entry, p, coin, f)
  {
    coin := FindMinter(node.ledger, node.minters, current, id).value;
    f := Fund(node, current.creator, MEMBERSHIP_OUTPUT_VALUE, [CovenantInput(node)], [CovenantOutput(moved, id)], 0).value;
    FoundMinter(node, current, id);
    FundingMeans(node, current.creator, MEMBERSHIP_OUTPUT_VALUE, [CovenantInput(node)], [CovenantOutput(moved, id)], 0);
  }

  /** The wallet pays the covenant output although the minter input carries it too. */
  lemma {:induction false} MoveBooks(
    node: Node, current: State, moved: State, id: CovenantId, entry: Entry, p: Prepared, coin: Utxo, f: Funding)
    requires MadeMove(node, current, moved, id, entry, p, coin, f)
    ensures ValueOf(p.tx.outputs) + p.fee + MEMBERSHIP_OUTPUT_VALUE == MEMBERSHIP_OUTPUT_VALUE + Total(f.selected)
    ensures forall j :: 0 <= j < |p.tx.outputs| && p.tx.outputs[j].binding.Some? ==> p.tx.outputs[j].binding == Some(Binding(id, 0))
  {
    ValueOfUpToOne([CovenantOutput(moved, id)]);
    ChangeAdds([CovenantOutput(moved, id)], moved.creator, f.change);
  }

  lemma {:induction false} MoveOutputs(tx: Tx, moved: State, id: CovenantId, change: int)
    requires tx.outputs == WithChange([CovenantOutput(moved, id)], moved.creator, change)
    ensures forall s: State :: MovesTo(tx, id, [s]) <==> s == moved
  {
    BoundFront(tx.outputs, Binding(id, 0), 1);
  }

  lemma {:induction false} MoveMeets(
    node: Node, current: State, moved: State, id: CovenantId, entry: Entry, price: int, p: Prepared,
    later: Ledger, txid: TxId)
    requires Honest(node) && node.ledger.daa >= 0 && Extends(node.ledger, later)
    requires PrepareMove(node, current, moved, id, entry, price) == Ok(p)
    requires current.creator == moved.creator
    ensures && InputsExist(later, p.tx) && p.tx.entry == Some(entry)
            && |Spent(later, p.tx)| > 1 && Spent(later, p.tx)[1].script == PayToKey(current.creator)
            && (forall s: State :: MovesTo(p.tx, id, [s]) <==> s == moved)
            && (Acceptable(later, txid, p.tx) <==> StillOpen(later, txid, p.tx) && EntryHolds(p.tx, Spent(later, p.tx), current, id))
  {
    var coin, f := MoveParts(node, current, moved, id, entry, price, p);
    MoveBooks(node, current, moved, id, entry, p, coin, f);
    MoveOutputs(p.tx, moved, id, f.change);
    SpendingAcceptable(node.ledger, later, txid, p.tx, coin, current, id, f.selected, current.creator);
    assert Spent(later, p.tx)[1] == OutputsOf(f.selected)[0];
  }

  /** A prepared price update is acceptable exactly when the new price is within bounds. */
  lemma {:induction false} UpdateMeetsCovenant(
    node: Node, creator: Key, platform: Key, id: CovenantId, currentPrice: int, newPrice: int, p: Prepared,
    later: Ledger, txid: TxId)
    requires Honest(node) && node.ledger.daa >= 0 && Extends(node.ledger, later)
    requires PreparePriceUpdate(node, creator, platform, id, currentPrice, newPrice) == Ok(p)
    ensures && InputsExist(later, p.tx)
            && (EntryHolds(p.tx, Spent(later, p.tx), MinterState(creator, platform, currentPrice), id) <==> PriceInBounds(newPrice))
            && (Acceptable(later, txid, p.tx) <==> StillOpen(later, txid, p.tx) && PriceInBounds(newPrice))
  {
    MoveMeets(node, MinterState(creator, platform, currentPrice), MinterState(creator, platform, newPrice), id,
              Update(newPrice, 1), newPrice, p, later, txid);
  }

  /** A prepared cancellation meets its entry whatever the price. */
  lemma {:induction false} CancellationMeetsCovenant(
    node: Node, creator: Key, platform: Key, id: CovenantId, price: int, p: Prepared,
    later: Ledger, txid: TxId)
    requires Honest(node) && node.ledger.daa >= 0 && Extends(node.ledger, later)
    requires PrepareCancellation(node, creator, platform, id, price) == Ok(p)
    ensures && InputsExist(later, p.tx)
            && EntryHolds(p.tx, Spent(later, p.tx), MinterState(creator, platform, price), id)
            && (Acceptable(later, txid, p.tx) <==> StillOpen(later, txid, p.tx))
  {
    var current := MinterState(creator, platform, price);
    MoveMeets(node, current, current.(isMinter := false), id, Cancel(1), price, p, later, txid);
  }

  // ----- offer ----------------------------------------------------------------

  ghost predicate MadeOffer(node: Node, minter: State, p: Prepared, f: Funding) {
    && f.selected != []
    && p.tx == OfferTx(f.selected, minter, f.change) && p.covenantId == OfferId(f.selected[0].outpoint, minter)
    && p.memberOutputIndex == None && p.priceSompi == minter.priceSompi && p.fee == f.fee
    && p.signInputs == SignAll(|f.selected|, 0)
    && Funds(node, minter.creator, MEMBERSHIP_OUTPUT_VALUE, [], [CovenantOutput(minter, ZERO_ID)], 0, f)
  }

  lemma {:induction false} OfferParts(node: Node, creator: Key, platform: Key, price: int, p: Prepared) returns (f: Funding)
    requires Honest(node) && PrepareOffer(node, creator, platform, price) == Ok(p)
    ensures MadeOffer(node, MinterState(creator, platform, price), p, f)
  {
    var minter := MinterState(creator, platform, price);
    f := Fund(node, creator, MEMBERSHIP_OUTPUT_VALUE, [], [CovenantOutput(minter, ZERO_ID)], 0).value;
    FundingMeans(node, creator, MEMBERSHIP_OUTPUT_VALUE, [], [CovenantOutput(minter, ZERO_ID)], 0);
  }

  lemma {:induction false} OfferBooks(minter: State, f: Funding)
    requires f.selected != [] && f.change >= 0
    ensures var tx, id := OfferTx(f.selected, minter, f.change), OfferId(f.selected[0].outpoint, minter);
            && ValueOf(tx.outputs) == MEMBERSHIP_OUTPUT_VALUE + f.change
            && Creates(tx, Binding(id, 0))
            && tx.outputs[0] == CovenantOutput(minter, id)
            && forall j :: 0 < j < |tx.outputs| ==> tx.outputs[j].binding.None?
  {
    var tx, id := OfferTx(f.selected, minter, f.change), OfferId(f.selected[0].outpoint, minter);
    ValueOfUpToOne([CovenantOutput(minter, id)]);
    ChangeAdds([CovenantOutput(minter, id)], minter.creator, f.change);
    BoundFront(tx.outputs, Binding(id, 0), 1);
    assert Authorized(tx.outputs, Binding(id, 0)) == id.outputs;
  }

  /** A prepared offer starts a family on these terms, and the chain takes it. */
  lemma {:induction false} OfferStartsFamily(
    node: Node, creator: Key, platform: Key, price: int, p: Prepared, later: Ledger, txid: TxId)
    requires Honest(node) && node.ledger.daa >= 0 && Extends(node.ledger, later)
    requires PrepareOffer(node, creator, platform, price) == Ok(p)
    ensures && IsOffer(p.covenantId, creator, platform)
            && p.tx.outputs != [] && p.tx.outputs[0] == CovenantOutput(MinterState(creator, platform, price), p.covenantId)
            && (Acceptable(later, txid, p.tx) <==> StillOpen(later, txid, p.tx))
  {
    var minter := MinterState(creator, platform, price);
    var f := OfferParts(node, creator, platform, price, p);
    OfferBooks(minter, f);
    KeySpendingAcceptable(node.ledger, later, txid, p.tx, f.selected, p.covenantId);
  }

  /** What a transaction spending only wallet coins, and starting a covenant, needs to be accepted. */
  lemma {:induction false} KeySpendingAcceptable(
    l: Ledger, later: Ledger, txid: TxId, tx: Tx, coins: seq<Utxo>, id: CovenantId)
    requires Extends(l, later) && Lists(l, coins) && tx.inputs == Outpoints(coins)
    requires forall i :: 0 <= i < |coins| ==> coins[i].output.binding.None?
    requires tx.lockTime <= l.daa && ValueOf(tx.outputs) <= Total(coins) && Creates(tx, Binding(id, 0))
    requires forall j :: 0 <= j < |tx.outputs| && tx.outputs[j].binding.Some? ==> tx.outputs[j].binding == Some(Binding(id, 0))
    ensures Acceptable(later, txid, tx) <==> StillOpen(later, txid, tx)
  {
    SpentCoins(l, tx, coins);
    ExtendedSpent(l, later, tx);
    InputsDiffer(tx, coins);
    var spent := Spent(later, tx);
    forall i | 0 <= i < |tx.inputs|
      ensures spent[i].binding.None?
    {
      assert spent[i] == OutputsOf(coins)[i];
    }
  }

  // ----- the books ------------------------------------------------------------

  /** What the transaction leaves to the miners. */
  ghost function Left(l: Ledger, tx: Tx): int
    requires InputsExist(l, tx)
  {
    ValueOf(Spent(l, tx)) - ValueOf(tx.outputs)
  }

  /** The mass of the transaction as sent, with the estimate's signature sizes. */
  function MassOf(front: seq<InputShape>, tx: Tx, payloadBytes: nat): nat {
    ComputeMass(front + WalletInputs(if |tx.inputs| >= |front| then |tx.inputs| - |front| else 0), Shapes(tx.outputs), payloadBytes)
  }

  lemma {:induction false} SameShapes(minter: State, id: CovenantId, key: Key, change: int)
    ensures Shapes(WithChange([CovenantOutput(minter, id)], key, change)) ==
            Shapes(WithChange([CovenantOutput(minter, ZERO_ID)], key, change))
  {
  }

  /** Offer and mint leave exactly the fee, which is the network's rate and minimum. */
  lemma {:induction false} OfferLeavesItsFee(node: Node, creator: Key, platform: Key, price: int, p: Prepared)
    requires Honest(node) && PrepareOffer(node, creator, platform, price) == Ok(p)
    ensures && node.rate > 0.0 && InputsExist(node.ledger, p.tx) && Left(node.ledger, p.tx) == p.fee
            && p.fee >= FeeOfMass(MassOf([], p.tx, 0), node.rate) >= 100 * MassOf([], p.tx, 0)
  {
    var f := OfferParts(node, creator, platform, price, p);
    var minter := MinterState(creator, platform, price);
    OfferBooks(minter, f);
    SpentCoins(node.ledger, p.tx, f.selected);
    SameShapes(minter, p.covenantId, creator, f.change);
  }

  lemma {:induction false} MintLeavesItsFee(
    node: Node, contract: Contract, creator: Key, platform: Key, buyer: Key, id: CovenantId, price: int, p: Prepared)
    requires Honest(node) && PrepareMint(node, contract, creator, platform, buyer, id, price) == Ok(p)
    ensures var mass := MassOf([CovenantInput(node)], p.tx, node.payloadBytes);
            && node.rate > 0.0 && InputsExist(node.ledger, p.tx) && Left(node.ledger, p.tx) == p.fee
            && p.fee >= FeeOfMass(mass, node.rate) >= 100 * mass
  {
    var minter, member := MinterState(creator, platform, price), Member(creator, platform, buyer, price, node.ledger.daa);
    var coin, f := MintParts(node, contract, creator, platform, buyer, id, price, p);
    MintBooks(node, contract, minter, member, id, p, coin, f);
    SpentWithMinter(node.ledger, p.tx, coin, f.selected, buyer);
  }

  /** Update and cancellation leave exactly the fee and 50,000,000 on top. */
  lemma {:induction false} MoveOverpays(node: Node, current: State, moved: State, id: CovenantId, entry: Entry, price: int, p: Prepared)
    requires Honest(node) && PrepareMove(node, current, moved, id, entry, price) == Ok(p) && current.creator == moved.creator
    ensures var mass := MassOf([CovenantInput(node)], p.tx, 0);
            && node.rate > 0.0 && InputsExist(node.ledger, p.tx) && Left(node.ledger, p.tx) == p.fee + 50_000_000
            && p.fee >= FeeOfMass(mass, node.rate) >= 100 * mass
  {
    var coin, f := MoveParts(node, current, moved, id, entry, price, p);
    MoveBooks(node, current, moved, id, entry, p, coin, f);
    SpentWithMinter(node.ledger, p.tx, coin, f.selected, current.creator);
  }
}
