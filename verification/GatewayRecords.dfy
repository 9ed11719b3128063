/**
 What a prepared record says about its transaction: which inputs the wallet has to
 sign, which output is the membership, what it costs, and when there is one at all.
 */
module GatewayRecords {
  import opened Wrappers
  import opened MembershipContract
  import opened Chain
  import opened Fees
  import opened CoinSelection
  import opened Covenant
  import opened Ledger
  import opened LedgerInvariants
  import opened Gateway
  import opened GatewayProofs

  // ----- whom a record asks to sign -------------------------------------------

  /** The wallet is asked to sign exactly the inputs that spend this key's coins, each once. */
  ghost predicate SignsFor(l: Ledger, p: Prepared, payer: Key) {
    && p.signInputs != []
    && (forall i: nat :: i in p.signInputs <==>
          i < |p.tx.inputs| && Exists(l, p.tx.inputs[i]) && OutputAt(l, p.tx.inputs[i]).script == PayToKey(payer))
    && (forall i, j :: 0 <= i < j < |p.signInputs| ==> p.signInputs[i] != p.signInputs[j])
  }

  lemma {:induction false} SignAllAre(count: nat, from: nat)
    ensures var r := SignAll(count, from);
            && (forall i: nat :: i in r <==> from <= i < from + count)
            && (forall i, j :: 0 <= i < j < |r| ==> r[i] != r[j])
  {
    var r := SignAll(count, from);
    forall i: nat
      ensures i in r <==> from <= i < from + count
    {
      if from <= i < from + count {
        assert r[i - from] == i;
      }
    }
  }

  /** Behind the covenant coin stand the payer's coins. */
  lemma {:induction false} SignsBehindMinter(l: Ledger, p: Prepared, minter: Utxo, coins: seq<Utxo>, payer: Key)
    requires Lists(l, [minter]) && Lists(l, coins) && coins != [] && minter.output.script.PayToCovenant?
    requires forall i :: 0 <= i < |coins| ==> coins[i].output.script == PayToKey(payer)
    requires p.tx.inputs == [minter.outpoint] + Outpoints(coins) && p.signInputs == SignAll(|coins|, 1)
    ensures SignsFor(l, p, payer)
  {
    SignAllAre(|coins|, 1);
    assert [minter][0] == minter;
    forall i: nat | i < |p.tx.inputs|
      ensures Exists(l, p.tx.inputs[i])
      ensures OutputAt(l, p.tx.inputs[i]).script == PayToKey(payer) <==> i > 0
    {
      if i > 0 {
        assert p.tx.inputs[i] == coins[i - 1].outpoint;
      }
    }
  }

  lemma {:induction false} MintAsksBuyer(
    node: Node, contract: Contract, creator: Key, platform: Key, buyer: Key, id: CovenantId, price: int, p: Prepared)
    requires Honest(node) && PrepareMint(node, contract, creator, platform, buyer, id, price) == Ok(p)
    ensures SignsFor(node.ledger, p, buyer)
    ensures p.covenantId == id && p.priceSompi == price && p.memberOutputIndex == Some(1)
    ensures |p.tx.outputs| > 1 && p.tx.outputs[1] ==
            Output(50_000_000, PayToCovenant(State(creator, platform, buyer, node.ledger.daa + 25_920_000, price, false)), Some(Binding(id, 0)))
  {
    var minter, member := MinterState(creator, platform, price), Member(creator, platform, buyer, price, node.ledger.daa);
    var coin, f := MintParts(node, contract, creator, platform, buyer, id, price, p);
    SignsBehindMinter(node.ledger, p, coin, f.selected, buyer);
    MintOutputsPay(p.tx, minter, member, id, f.change);
  }

  lemma {:induction false} UpdateAsksCreator(
    node: Node, creator: Key, platform: Key, id: CovenantId, currentPrice: int, newPrice: int, p: Prepared)
    requires Honest(node) && PreparePriceUpdate(node, creator, platform, id, currentPrice, newPrice) == Ok(p)
    ensures SignsFor(node.ledger, p, creator)
    ensures p.covenantId == id && p.priceSompi == newPrice && p.memberOutputIndex == None
  {
    var current, moved := MinterState(creator, platform, currentPrice), MinterState(creator, platform, newPrice);
    var coin, f := MoveParts(node, current, moved, id, Update(newPrice, 1), newPrice, p);
    SignsBehindMinter(node.ledger, p, coin, f.selected, creator);
  }

  lemma {:induction false} CancellationAsksCreator(
    node: Node, creator: Key, platform: Key, id: CovenantId, price: int, p: Prepared)
    requires Honest(node) && PrepareCancellation(node, creator, platform, id, price) == Ok(p)
    ensures SignsFor(node.ledger, p, creator)
    ensures p.covenantId == id && p.priceSompi == price && p.memberOutputIndex == None
  {
    var current := MinterState(creator, platform, price);
    var coin, f := MoveParts(node, current, current.(isMinter := false), id, Entry.Cancel(1), price, p);
    SignsBehindMinter(node.ledger, p, coin, f.selected, creator);
  }

  lemma {:induction false} OfferAsksCreator(node: Node, creator: Key, platform: Key, price: int, p: Prepared)
    requires Honest(node) && PrepareOffer(node, creator, platform, price) == Ok(p)
    ensures SignsFor(node.ledger, p, creator)
    ensures p.priceSompi == price && p.memberOutputIndex == None
    ensures p.tx.inputs != [] && p.covenantId.genesis == p.tx.inputs[0]
  {
    var f := OfferParts(node, creator, platform, price, p);
    SignAllAre(|f.selected|, 0);
    forall i: nat | i < |p.tx.inputs|
      ensures Exists(node.ledger, p.tx.inputs[i]) && OutputAt(node.ledger, p.tx.inputs[i]).script == PayToKey(creator)
    {
      assert p.tx.inputs[i] == f.selected[i].outpoint;
    }
  }

  // ----- what a record costs --------------------------------------------------

  lemma {:induction false} InputsAdd(left: seq<InputShape>, right: seq<InputShape>)
    ensures InputSize(left + right) == InputSize(left) + InputSize(right)
    ensures Budget(left + right) == Budget(left) + Budget(right)
  {
    if right == [] {
      assert left + right == left;
    } else {
      var n := |right| - 1;
      assert (left + right)[..|left + right| - 1] == left + right[..n];
      InputsAdd(left, right[..n]);
    }
  }

  lemma {:induction false} OutputsAdd(left: seq<OutputShape>, right: seq<OutputShape>)
    ensures OutputSize(left + right) == OutputSize(left) + OutputSize(right)
    ensures ScriptSize(left + right) == ScriptSize(left) + ScriptSize(right)
  {
    if right == [] {
      assert left + right == left;
    } else {
      var n := |right| - 1;
      assert (left + right)[..|left + right| - 1] == left + right[..n];
      OutputsAdd(left, right[..n]);
    }
  }

  lemma {:induction false} OneOutput(output: OutputShape)
    ensures OutputSize([output]) == 18 + output.scriptBytes + (if output.bound then 34 else 0)
    ensures ScriptSize([output]) == 2 + output.scriptBytes
  {
    assert [output][..0] == [];
  }

  /** Grams of outputs: bound ones weigh 457, key outputs 412. */
  function Grams(outputs: seq<OutputShape>): nat {
    OutputSize(outputs) + 10 * ScriptSize(outputs)
  }

  lemma {:induction false} GramsAdd(left: seq<Output>, right: seq<Output>)
    ensures Grams(Shapes(left + right)) == Grams(Shapes(left)) + Grams(Shapes(right))
  {
    ShapesAdd(left, right);
    OutputsAdd(Shapes(left), Shapes(right));
  }

  lemma {:induction false} KeyGrams(key: Key, value: int)
    ensures Grams(Shapes([KeyOutput(key, value)])) == 412
  {
    assert Shapes([KeyOutput(key, value)]) == [Shape(KeyOutput(key, value))];
    OneOutput(Shape(KeyOutput(key, value)));
  }

  lemma {:induction false} CovenantGrams(state: State, id: CovenantId)
    ensures Grams(Shapes([CovenantOutput(state, id)])) == 457
  {
    assert Shapes([CovenantOutput(state, id)]) == [Shape(CovenantOutput(state, id))];
    OneOutput(Shape(CovenantOutput(state, id)));
  }

  lemma {:induction false} MoveGrams(state: State, id: CovenantId, key: Key)
    ensures Grams(Shapes([CovenantOutput(state, id)] + [KeyOutput(key, 0)])) == 457 + 412
  {
    GramsAdd([CovenantOutput(state, id)], [KeyOutput(key, 0)]);
    CovenantGrams(state, id);
    KeyGrams(key, 0);
  }

  lemma {:induction false} MintGrams(minter: State, member: State, id: CovenantId, key: Key)
    ensures Grams(Shapes(MintOutputs(minter, member, id) + [KeyOutput(key, 0)])) ==
            2 * 457 + 412 * if minter.priceSompi >= 9_999_999_950 then 4 else 3
  {
    var fee := MembershipFeeSompi(minter.priceSompi);
    var creator := KeyOutput(minter.creator, minter.priceSompi - fee);
    var covenants := [CovenantOutput(minter, id)] + [CovenantOutput(member, id)];
    var middle := if fee > 0 then [KeyOutput(minter.platform, fee)] else [];
    var index := KeyOutput(member.owner, MEMBERSHIP_INDEX_VALUE);
    FeeFormulasAgree(minter.priceSompi);
    assert MintOutputs(minter, member, id) == covenants + [creator] + middle + [index];
    GramsAdd([CovenantOutput(minter, id)], [CovenantOutput(member, id)]);
    CovenantGrams(minter, id);
    CovenantGrams(member, id);
    GramsAdd(covenants, [creator]);
    KeyGrams(minter.creator, minter.priceSompi - fee);
    GramsAdd(covenants + [creator], middle);
    if fee > 0 {
      KeyGrams(minter.platform, fee);
    }
    GramsAdd(covenants + [creator] + middle, [index]);
    KeyGrams(member.owner, MEMBERSHIP_INDEX_VALUE);
    GramsAdd(covenants + [creator] + middle + [index], [KeyOutput(key, 0)]);
    KeyGrams(key, 0);
  }

  lemma {:induction false} CoinsWeigh(outputs: seq<OutputShape>, payloadBytes: nat, coins: nat)
    ensures ComputeMass([] + WalletInputs(coins), outputs, payloadBytes) == 94 + payloadBytes + Grams(outputs) + 5_120 * coins
  {
    assert [] + WalletInputs(coins) == WalletInputs(coins);
    WalletInputsMass(coins);
  }

  /** The covenant input weighs 5,054 and its signature script, or 66 for want of one. */
  function CovenantInputGrams(node: Node): nat {
    5_054 + if node.signatureBytes > 0 then node.signatureBytes else 66
  }

  lemma {:induction false} InputsWeigh(node: Node, outputs: seq<OutputShape>, payloadBytes: nat, coins: nat)
    ensures ComputeMass([CovenantInput(node)] + WalletInputs(coins), outputs, payloadBytes) ==
            94 + payloadBytes + Grams(outputs) + CovenantInputGrams(node) + 5_120 * coins
  {
    InputsAdd([CovenantInput(node)], WalletInputs(coins));
    WalletInputsMass(coins);
    assert [CovenantInput(node)][..0] == [];
  }

  /** What a mint at this price weighs, change included, when it spends so many coins. */
  function MintMass(node: Node, price: int, coins: nat): nat {
    94 + node.payloadBytes + (2 * 457 + 412 * if price >= 9_999_999_950 then 4 else 3)
    + CovenantInputGrams(node) + 5_120 * coins
  }

  function MoveMass(node: Node, coins: nat): nat {
    94 + 457 + 412 + CovenantInputGrams(node) + 5_120 * coins
  }

  function MintMasses(node: Node, price: int): nat -> nat {
    coins => MintMass(node, price, coins)
  }

  function MoveMasses(node: Node): nat -> nat {
    coins => MoveMass(node, coins)
  }

  function OfferMass(coins: nat): nat {
    94 + 457 + 412 + 5_120 * coins
  }

  lemma {:induction false} MintFeeFor(node: Node, minter: State, member: State, id: CovenantId, key: Key, coins: nat)
    requires node.rate > 0.0
    ensures FeeFor([CovenantInput(node)], MintOutputs(minter, member, id) + [KeyOutput(key, 0)], node.rate, node.payloadBytes, coins) ==
            FeeOfMass(MintMass(node, minter.priceSompi, coins), node.rate)
  {
    var outputs := MintOutputs(minter, member, id) + [KeyOutput(key, 0)];
    InputsWeigh(node, Shapes(outputs), node.payloadBytes, coins);
    MintGrams(minter, member, id, key);
  }

  lemma {:induction false} MoveFeeFor(node: Node, state: State, id: CovenantId, key: Key, coins: nat)
    requires node.rate > 0.0
    ensures FeeFor([CovenantInput(node)], [CovenantOutput(state, id)] + [KeyOutput(key, 0)], node.rate, 0, coins) ==
            FeeOfMass(MoveMass(node, coins), node.rate)
  {
    InputsWeigh(node, Shapes([CovenantOutput(state, id)] + [KeyOutput(key, 0)]), 0, coins);
    MoveGrams(state, id, key);
  }

  lemma {:induction false} OfferFeeFor(node: Node, state: State, id: CovenantId, key: Key, coins: nat)
    requires node.rate > 0.0
    ensures FeeFor([], [CovenantOutput(state, id)] + [KeyOutput(key, 0)], node.rate, 0, coins) ==
            FeeOfMass(OfferMass(coins), node.rate)
  {
    CoinsWeigh(Shapes([CovenantOutput(state, id)] + [KeyOutput(key, 0)]), 0, coins);
    MoveGrams(state, id, key);
  }

  /** The fee of a mint, in closed form. */
  lemma {:induction false} MintCosts(
    node: Node, contract: Contract, creator: Key, platform: Key, buyer: Key, id: CovenantId, price: int, p: Prepared)
    requires Honest(node) && PrepareMint(node, contract, creator, platform, buyer, id, price) == Ok(p)
    ensures node.rate > 0.0 && |p.tx.inputs| > 1 && p.fee == FeeOfMass(MintMass(node, price, |p.tx.inputs| - 1), node.rate)
  {
    var minter, member := MinterState(creator, platform, price), Member(creator, platform, buyer, price, node.ledger.daa);
    var coin, f := MintParts(node, contract, creator, platform, buyer, id, price, p);
    MadeMintCosts(node, contract, minter, member, id, p, coin, f);
  }

  lemma {:induction false} MadeMintCosts(
    node: Node, contract: Contract, minter: State, member: State, id: CovenantId, p: Prepared, coin: Utxo, f: Funding)
    requires MadeMint(node, contract, minter, member, id, p, coin, f)
    ensures node.rate > 0.0 && |p.tx.inputs| > 1 && p.fee == FeeOfMass(MintMass(node, minter.priceSompi, |p.tx.inputs| - 1), node.rate)
  {
    var n := |f.selected|;
    assert |p.tx.inputs| == n + 1;
    MintFeeFor(node, minter, member, id, member.owner, n);
  }

  /** The fee of a price update or cancellation, in closed form. */
  lemma {:induction false} MoveCosts(node: Node, current: State, moved: State, id: CovenantId, entry: Entry, price: int, p: Prepared)
    requires Honest(node) && PrepareMove(node, current, moved, id, entry, price) == Ok(p)
    ensures node.rate > 0.0 && |p.tx.inputs| > 1 && p.fee == FeeOfMass(MoveMass(node, |p.tx.inputs| - 1), node.rate)
  {
    var coin, f := MoveParts(node, current, moved, id, entry, price, p);
    MadeMoveCosts(node, current, moved, id, entry, p, coin, f);
  }

  lemma {:induction false} MadeMoveCosts(
    node: Node, current: State, moved: State, id: CovenantId, entry: Entry, p: Prepared, coin: Utxo, f: Funding)
    requires MadeMove(node, current, moved, id, entry, p, coin, f)
    ensures node.rate > 0.0 && |p.tx.inputs| > 1 && p.fee == FeeOfMass(MoveMass(node, |p.tx.inputs| - 1), node.rate)
  {
    var n := |f.selected|;
    assert |p.tx.inputs| == n + 1;
    MoveFeeFor(node, moved, id, current.creator, n);
  }

  /** The fee of an offer, in closed form. */
  lemma {:induction false} OfferCosts(node: Node, creator: Key, platform: Key, price: int, p: Prepared)
    requires Honest(node) && PrepareOffer(node, creator, platform, price) == Ok(p)
    ensures node.rate > 0.0 && p.fee == FeeOfMass(OfferMass(|p.tx.inputs|), node.rate)
  {
    var f := OfferParts(node, creator, platform, price, p);
    OfferFeeFor(node, MinterState(creator, platform, price), ZERO_ID, creator, |f.selected|);
  }

  // ----- when there is a record -----------------------------------------------

  /** The node lists a coin of 50,000,000 whose accepted version 1 parent shows it as this covenant's minter. */
  ghost predicate MinterListed(node: Node, minter: State, id: CovenantId) {
    exists i ::
      && 0 <= i < |node.minters|
      && node.minters[i].output.value == 50_000_000 && node.minters[i].output.script == PayToCovenant(minter)
      && Exists(node.ledger, node.minters[i].outpoint)
      && node.ledger.accepted[node.minters[i].outpoint.transactionId].tx.version == 1
      && OutputAt(node.ledger, node.minters[i].outpoint) == Output(50_000_000, PayToCovenant(minter), Some(Binding(id, 0)))
  }

  lemma {:induction false} ListedIsFound(node: Node, minter: State, id: CovenantId)
    ensures MinterListed(node, minter, id) <==> FindMinter(node.ledger, node.minters, minter, id).Some?
  {
    forall i | 0 <= i < |node.minters|
      ensures IsMinterCoin(node.ledger, node.minters[i], minter, id) <==>
              && node.minters[i].output.value == 50_000_000 && node.minters[i].output.script == PayToCovenant(minter)
              && Exists(node.ledger, node.minters[i].outpoint)
              && node.ledger.accepted[node.minters[i].outpoint.transactionId].tx.version == 1
              && OutputAt(node.ledger, node.minters[i].outpoint) == Output(50_000_000, PayToCovenant(minter), Some(Binding(id, 0)))
    {
    }
    if FindMinter(node.ledger, node.minters, minter, id).Some? {
      var coin := FindMinter(node.ledger, node.minters, minter, id).value;
      var i :| 0 <= i < |node.minters| && node.minters[i] == coin;
    }
  }

  /** Some unbound coins of the key are worth the amount and the fee for so many of them. */
  ghost predicate CanPay(node: Node, key: Key, amount: int, mass: nat -> nat) {
    && node.rate > 0.0
    && exists pick :: KeyCoins(pick, node.wallet, key) && Total(pick) >= amount + FeeOfMass(mass(|pick|), node.rate)
  }

  /** Coins of the wallet, each at most as often as it is there, that pay this key and no covenant. */
  ghost predicate KeyCoins(pick: seq<Utxo>, wallet: seq<Utxo>, key: Key) {
    && multiset(pick) <= multiset(wallet)
    && forall i :: 0 <= i < |pick| ==> pick[i].output.script == PayToKey(key) && pick[i].output.binding.None?
  }

  lemma {:induction false} FundedWhen(
    node: Node, key: Key, amount: int, front: seq<InputShape>, outputs: seq<Output>, payloadBytes: nat, mass: nat -> nat)
    requires amount >= 0
    requires node.rate > 0.0 ==>
               forall n: nat :: FeeFor(front, outputs + [KeyOutput(key, 0)], node.rate, payloadBytes, n) == FeeOfMass(mass(n), node.rate)
    ensures Fund(node, key, amount, front, outputs, payloadBytes).Ok? <==> CanPay(node, key, amount, mass)
  {
    var provisional := outputs + [KeyOutput(key, 0)];
    if Fund(node, key, amount, front, outputs, payloadBytes).Ok? {
      var feeFor := (coins: seq<Utxo>) => FeeFor(front, provisional, node.rate, payloadBytes, |coins|);
      SelectionCovers(node.wallet, key, amount, feeFor);
      var pick := Selection(node.wallet, key, amount, feeFor).value;
      assert KeyCoins(pick, node.wallet, key);
      assert Total(pick) >= amount + FeeOfMass(mass(|pick|), node.rate);
    }
    if CanPay(node, key, amount, mass) {
      var pick :| KeyCoins(pick, node.wallet, key) && Total(pick) >= amount + FeeOfMass(mass(|pick|), node.rate);
      ChooseIsMinimal(node.wallet, key, amount, front, provisional, node.rate, payloadBytes, pick);
    }
  }

  lemma {:induction false} CoverErrors(coins: seq<Utxo>, count: nat, amount: int, feeFor: seq<Utxo> -> int)
    ensures FirstCover(coins, count, amount, feeFor).Err? ==> FirstCover(coins, count, amount, feeFor).error == INSUFFICIENT_FUNDS
    decreases |coins| - count
  {
    if count <= |coins| && !Covers(coins[..count], amount, feeFor) {
      CoverErrors(coins, count + 1, amount, feeFor);
    }
  }

  lemma {:induction false} FundErrors(
    node: Node, key: Key, amount: int, front: seq<InputShape>, outputs: seq<Output>, payloadBytes: nat)
    ensures Fund(node, key, amount, front, outputs, payloadBytes) != Err(MEMBERSHIP_STATE_CHANGED)
  {
    if node.rate > 0.0 {
      CoverErrors(EligibleCoins(SortCoins(node.wallet, true), key, false), 1, amount,
                  (coins: seq<Utxo>) => FeeFor(front, outputs + [KeyOutput(key, 0)], node.rate, payloadBytes, |coins|));
    }
    assert |INSUFFICIENT_FUNDS| == 18 && |"INVALID_FEE_RATE"| == 16 && |MEMBERSHIP_STATE_CHANGED| == 24;
  }

  lemma {:induction false} NamesDiffer()
    ensures MEMBERSHIP_STATE_CHANGED != "INVALID_DAA" && MEMBERSHIP_STATE_CHANGED != "TRANSACTION_MASS_TOO_HIGH"
  {
    assert |MEMBERSHIP_STATE_CHANGED| == 24 && |"INVALID_DAA"| == 11 && |"TRANSACTION_MASS_TOO_HIGH"| == 25;
  }

  /** A mint is prepared when each of its calls goes through. */
  lemma {:induction false} MintGoesThrough(
    node: Node, contract: Contract, creator: Key, platform: Key, buyer: Key, id: CovenantId, price: int, minter: State, member: State,
    funding: Result<Funding>)
    requires minter == MinterState(creator, platform, price)
    requires member == Member(creator, platform, buyer, price, node.ledger.daa)
    requires funding == Fund(node, buyer, price + 100_000_000, [CovenantInput(node)], MintOutputs(minter, member, id), node.payloadBytes)
    ensures PrepareMint(node, contract, creator, platform, buyer, id, price).Ok? <==>
            && Encodable(minter) && FindMinter(node.ledger, node.minters, minter, id).Some?
            && Encodable(member) && funding.Ok? && node.massFits
  {
  }

  /** Only a minter that is not found is a changed state. */
  lemma {:induction false} MintFindsNoMinter(
    node: Node, contract: Contract, creator: Key, platform: Key, buyer: Key, id: CovenantId, price: int, minter: State, member: State,
    funding: Result<Funding>)
    requires minter == MinterState(creator, platform, price)
    requires member == Member(creator, platform, buyer, price, node.ledger.daa)
    requires funding == Fund(node, buyer, price + 100_000_000, [CovenantInput(node)], MintOutputs(minter, member, id), node.payloadBytes)
    requires funding != Err(MEMBERSHIP_STATE_CHANGED)
    ensures PrepareMint(node, contract, creator, platform, buyer, id, price) == Err(MEMBERSHIP_STATE_CHANGED) <==>
            Encodable(minter) && FindMinter(node.ledger, node.minters, minter, id).None?
  {
    NamesDiffer();
    var r := PrepareMint(node, contract, creator, platform, buyer, id, price);
    if Encodable(minter) && FindMinter(node.ledger, node.minters, minter, id).Some? && Encodable(member) && funding.Err? {
      assert r == Err(funding.error);
    }
  }

  /** The coins the buyer would pay a mint with. */
  lemma {:induction false} MintFunding(node: Node, minter: State, member: State, id: CovenantId, key: Key, price: int)
    returns (funding: Result<Funding>)
    requires price == minter.priceSompi
    ensures funding == Fund(node, key, price + 100_000_000, [CovenantInput(node)], MintOutputs(minter, member, id), node.payloadBytes)
    ensures price >= 0 ==> (funding.Ok? <==> CanPay(node, key, price + 100_000_000, MintMasses(node, price)))
    ensures funding != Err(MEMBERSHIP_STATE_CHANGED)
  {
    var outputs := MintOutputs(minter, member, id);
    funding := Fund(node, key, price + 100_000_000, [CovenantInput(node)], outputs, node.payloadBytes);
    FundErrors(node, key, price + 100_000_000, [CovenantInput(node)], outputs, node.payloadBytes);
    if price >= 0 {
      MintFundedWhen(node, minter, member, id, key, price, outputs);
    }
  }

  lemma {:induction false} MintFees(node: Node, minter: State, member: State, id: CovenantId, key: Key, outputs: seq<Output>)
    requires node.rate > 0.0 && outputs == MintOutputs(minter, member, id)
    ensures forall n: nat :: FeeFor([CovenantInput(node)], outputs + [KeyOutput(key, 0)], node.rate, node.payloadBytes, n) ==
                             FeeOfMass(MintMass(node, minter.priceSompi, n), node.rate)
  {
    forall n: nat
      ensures FeeFor([CovenantInput(node)], outputs + [KeyOutput(key, 0)], node.rate, node.payloadBytes, n) ==
              FeeOfMass(MintMass(node, minter.priceSompi, n), node.rate)
    {
      MintFeeFor(node, minter, member, id, key, n);
    }
  }

  lemma {:induction false} MassFunds(
    node: Node, key: Key, price: int, outputs: seq<Output>)
    requires price >= 0
    requires node.rate > 0.0 ==>
               forall n: nat :: FeeFor([CovenantInput(node)], outputs + [KeyOutput(key, 0)], node.rate, node.payloadBytes, n) ==
                                FeeOfMass(MintMass(node, price, n), node.rate)
    ensures Fund(node, key, price + 100_000_000, [CovenantInput(node)], outputs, node.payloadBytes).Ok?
            <==> CanPay(node, key, price + 100_000_000, MintMasses(node, price))
  {
    FundedWhen(node, key, price + 100_000_000, [CovenantInput(node)], outputs, node.payloadBytes,
               MintMasses(node, price));
  }

  lemma {:induction false} MintFundedWhen(node: Node, minter: State, member: State, id: CovenantId, key: Key, price: int, outputs: seq<Output>)
    requires price == minter.priceSompi >= 0 && outputs == MintOutputs(minter, member, id)
    ensures Fund(node, key, price + 100_000_000, [CovenantInput(node)], outputs, node.payloadBytes).Ok?
            <==> CanPay(node, key, price + 100_000_000, MintMasses(node, price))
  {
    if node.rate > 0.0 {
      MintFees(node, minter, member, id, key, outputs);
    }
    MassFunds(node, key, price, outputs);
  }

  /**
   A mint is prepared exactly when its integers can be written, the minter is
   listed, the buyer can pay and the mass fits; without the minter it is refused as
   a changed state.
   */
  lemma {:induction false} MintPreparedWhen(
    node: Node, contract: Contract, creator: Key, platform: Key, buyer: Key, id: CovenantId, price: int)
    requires node.ledger.daa >= 0
    ensures PrepareMint(node, contract, creator, platform, buyer, id, price).Ok? <==>
            && 0 <= price <= MAX_I64 && node.ledger.daa + 25_920_000 <= MAX_I64 && node.massFits
            && MinterListed(node, State(creator, platform, creator, 0, price, true), id)
            && CanPay(node, buyer, price + 100_000_000, MintMasses(node, price))
    ensures PrepareMint(node, contract, creator, platform, buyer, id, price) == Err(MEMBERSHIP_STATE_CHANGED) <==>
            0 <= price <= MAX_I64 && !MinterListed(node, State(creator, platform, creator, 0, price, true), id)
  {
    var minter, member := MinterState(creator, platform, price), Member(creator, platform, buyer, price, node.ledger.daa);
    var funding := MintFunding(node, minter, member, id, buyer, price);
    MintGoesThrough(node, contract, creator, platform, buyer, id, price, minter, member, funding);
    MintFindsNoMinter(node, contract, creator, platform, buyer, id, price, minter, member, funding);
    ListedIsFound(node, minter, id);
  }

  lemma {:induction false} MoveFundedWhen(node: Node, state: State, id: CovenantId, key: Key)
    ensures Fund(node, key, 50_000_000, [CovenantInput(node)], [CovenantOutput(state, id)], 0).Ok?
            <==> CanPay(node, key, 50_000_000, MoveMasses(node))
  {
    var mass := MoveMasses(node);
    if node.rate > 0.0 {
      forall n: nat
        ensures FeeFor([CovenantInput(node)], [CovenantOutput(state, id)] + [KeyOutput(key, 0)], node.rate, 0, n) == FeeOfMass(mass(n), node.rate)
      {
        MoveFeeFor(node, state, id, key, n);
      }
    }
    FundedWhen(node, key, 50_000_000, [CovenantInput(node)], [CovenantOutput(state, id)], 0, mass);
  }

  lemma {:induction false} MoveOutcome(node: Node, current: State, moved: State, id: CovenantId, entry: Entry, price: int)
    ensures var funding := Fund(node, current.creator, 50_000_000, [CovenantInput(node)], [CovenantOutput(moved, id)], 0);
            var coin, r := FindMinter(node.ledger, node.minters, current, id), PrepareMove(node, current, moved, id, entry, price);
            && (r.Ok? <==> Encodable(current) && coin.Some? && Encodable(moved) && funding.Ok? && node.massFits)
            && (funding != Err(MEMBERSHIP_STATE_CHANGED) ==>
                  (r == Err(MEMBERSHIP_STATE_CHANGED) <==> Encodable(current) && coin.None?))
  {
    NamesDiffer();
  }

  /** The same for a price update. */
  lemma {:induction false} UpdatePreparedWhen(
    node: Node, creator: Key, platform: Key, id: CovenantId, currentPrice: int, newPrice: int)
    ensures PreparePriceUpdate(node, creator, platform, id, currentPrice, newPrice).Ok? <==>
            && 0 <= currentPrice <= MAX_I64 && 0 <= newPrice <= MAX_I64 && node.massFits
            && MinterListed(node, State(creator, platform, creator, 0, currentPrice, true), id)
            && CanPay(node, creator, 50_000_000, MoveMasses(node))
    ensures PreparePriceUpdate(node, creator, platform, id, currentPrice, newPrice) == Err(MEMBERSHIP_STATE_CHANGED) <==>
            0 <= currentPrice <= MAX_I64 && !MinterListed(node, State(creator, platform, creator, 0, currentPrice, true), id)
  {
    var current, moved := MinterState(creator, platform, currentPrice), MinterState(creator, platform, newPrice);
    MoveOutcome(node, current, moved, id, Update(newPrice, 1), newPrice);
    ListedIsFound(node, current, id);
    FundErrors(node, creator, 50_000_000, [CovenantInput(node)], [CovenantOutput(moved, id)], 0);
    MoveFundedWhen(node, moved, id, creator);
  }

  /** The same for a cancellation. */
  lemma {:induction false} CancellationPreparedWhen(node: Node, creator: Key, platform: Key, id: CovenantId, price: int)
    ensures PrepareCancellation(node, creator, platform, id, price).Ok? <==>
            && 0 <= price <= MAX_I64 && node.massFits
            && MinterListed(node, State(creator, platform, creator, 0, price, true), id)
            && CanPay(node, creator, 50_000_000, MoveMasses(node))
    ensures PrepareCancellation(node, creator, platform, id, price) == Err(MEMBERSHIP_STATE_CHANGED) <==>
            0 <= price <= MAX_I64 && !MinterListed(node, State(creator, platform, creator, 0, price, true), id)
  {
    var current := MinterState(creator, platform, price);
    var moved := current.(isMinter := false);
    MoveOutcome(node, current, moved, id, Entry.Cancel(1), price);
    ListedIsFound(node, current, id);
    FundErrors(node, creator, 50_000_000, [CovenantInput(node)], [CovenantOutput(moved, id)], 0);
    MoveFundedWhen(node, moved, id, creator);
  }

  /** An offer is prepared exactly when its price can be written, the creator can pay and the mass fits. */
  lemma {:induction false} OfferPreparedWhen(node: Node, creator: Key, platform: Key, price: int)
    ensures PrepareOffer(node, creator, platform, price).Ok? <==>
            && 0 <= price <= MAX_I64 && node.massFits
            && CanPay(node, creator, 50_000_000, OfferMass)
  {
    var minter := MinterState(creator, platform, price);
    if node.rate > 0.0 {
      forall n: nat
        ensures FeeFor([], [CovenantOutput(minter, ZERO_ID)] + [KeyOutput(creator, 0)], node.rate, 0, n) == FeeOfMass(OfferMass(n), node.rate)
      {
        OfferFeeFor(node, minter, ZERO_ID, creator, n);
      }
    }
    FundedWhen(node, creator, 50_000_000, [], [CovenantOutput(minter, ZERO_ID)], 0, OfferMass);
  }

  // ----- the diagnosis --------------------------------------------------------

  /**
   On the gateway's layout, with the terms in bounds and as the minter has them,
   the checks of the diagnosis are together the covenant's: no fewer and no more.
   */
  lemma {:induction false} PreflightIsTheCovenant(
    tx: Tx, spent: seq<Output>, minter: State, member: State, id: CovenantId)
    requires tx.entry == Some(MintEntry(minter, member)) && BoundIndices(tx.outputs, Binding(id, 0)) == [0, 1]
    requires member.priceSompi == minter.priceSompi && PriceInBounds(minter.priceSompi)
    ensures EntryHolds(tx, spent, minter, id) <==>
            MembershipPreflight(minter.creator, member.owner, minter.platform, minter, member, spent, tx.outputs, tx.lockTime)
  {
    FeeFormulasAgree(minter.priceSompi);
    var bound := BoundIndices(tx.outputs, Binding(id, 0));
    assert bound[0] == 0 && bound[1] == 1;
    TwoStates(tx, id, minter, member);
  }

  lemma {:induction false} TwoStates(tx: Tx, id: CovenantId, minter: State, member: State)
    requires BoundIndices(tx.outputs, Binding(id, 0)) == [0, 1]
    ensures |tx.outputs| > 1 && tx.outputs[0].binding == Some(Binding(id, 0)) && tx.outputs[1].binding == Some(Binding(id, 0))
    ensures MovesTo(tx, id, [minter, member]) <==>
            tx.outputs[0].script == PayToCovenant(minter) && tx.outputs[1].script == PayToCovenant(member)
  {
    var bound, states := BoundIndices(tx.outputs, Binding(id, 0)), [minter, member];
    assert bound[0] == 0 && bound[1] == 1 && states[0] == minter && states[1] == member;
  }
}
