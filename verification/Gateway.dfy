/**
 The transactions the membership gateway prepares
 (backend/src/membership-gateway.ts). What the node answers is a parameter: the
 unspent outputs it lists, its DAA score and its fee rate. So are the length of
 the covenant input's signature script, the length of the payload and whether
 the platform's mass check passes.
 */
module Gateway {
  import opened Wrappers
  import opened Bytes
  import opened MembershipContract
  import opened Chain
  import opened Fees
  import opened CoinSelection
  import opened Covenant
  import opened Ledger

  const MEMBERSHIP_STATE_CHANGED := "MEMBERSHIP_STATE_CHANGED"
  const SCRIPT_HASH_BYTES := 35

  datatype Node = Node(
    ledger: Ledger, wallet: seq<Utxo>, minters: seq<Utxo>, rate: real,
    signatureBytes: nat, payloadBytes: nat, massFits: bool)

  datatype Prepared = Prepared(
    tx: Tx, covenantId: CovenantId, signInputs: seq<nat>, memberOutputIndex: Option<nat>,
    priceSompi: int, fee: int)

  // ----- the pieces -----------------------------------------------------------

  function Shape(output: Output): OutputShape {
    OutputShape(
      match output.script
      case PayToKey(_) => 34
      case PayToCovenant(_) => SCRIPT_HASH_BYTES
      case OtherScript(raw) => |raw|,
      output.binding.Some?)
  }

  function Shapes(outputs: seq<Output>): (r: seq<OutputShape>)
    ensures |r| == |outputs|
  {
    seq(|outputs|, i requires 0 <= i < |outputs| => Shape(outputs[i]))
  }

  function KeyOutput(key: Key, value: int): Output {
    Output(value, PayToKey(key), None)
  }

  function CovenantOutput(state: State, id: CovenantId): Output {
    Output(MEMBERSHIP_OUTPUT_VALUE, PayToCovenant(state), Some(Binding(id, 0)))
  }

  /** The estimate for `front` and some wallet coins, against the provisional outputs. */
  function FeeFor(front: seq<InputShape>, outputs: seq<Output>, rate: real, payloadBytes: nat, coins: nat): int
    requires rate > 0.0
  {
    FeeOfMass(ComputeMass(front + WalletInputs(coins), Shapes(outputs), payloadBytes), rate)
  }

  /** `selectWalletUtxos` with the estimate as its fee, which throws on a bad rate. */
  function Choose(
    wallet: seq<Utxo>, key: Key, amount: int, front: seq<InputShape>, outputs: seq<Output>, rate: real, payloadBytes: nat)
    : (r: Result<seq<Utxo>>)
    ensures r.Ok? ==> rate > 0.0 && r.value != []
  {
    if rate <= 0.0 then
      Err(if EligibleCoins(SortCoins(wallet, true), key, false) == [] then INSUFFICIENT_FUNDS else "INVALID_FEE_RATE")
    else
      var feeFor := (coins: seq<Utxo>) => FeeFor(front, outputs, rate, payloadBytes, |coins|);
      var r := Selection(wallet, key, amount, feeFor);
      if r.Ok? then
        SelectionCovers(wallet, key, amount, feeFor);
        r
      else r
  }

  /** Outputs with the change behind them, when there is any. */
  function WithChange(outputs: seq<Output>, key: Key, change: int): seq<Output> {
    if change > 0 then outputs + [KeyOutput(key, change)] else outputs
  }

  datatype Funding = Funding(selected: seq<Utxo>, fee: int, change: int)

  /** Coins for the amount and the fee, estimated as if there were change. */
  function Fund(node: Node, key: Key, amount: int, front: seq<InputShape>, outputs: seq<Output>, payloadBytes: nat)
    : Result<Funding>
  {
    var provisional := outputs + [KeyOutput(key, 0)];
    match Choose(node.wallet, key, amount, front, provisional, node.rate, payloadBytes)
    case Err(error) => Err(error)
    case Ok(selected) =>
      var fee := FeeFor(front, provisional, node.rate, payloadBytes, |selected|);
      Ok(Funding(selected, fee, Total(selected) - amount - fee))
  }

  function Outpoints(coins: seq<Utxo>): (r: seq<Outpoint>)
    ensures |r| == |coins|
  {
    seq(|coins|, i requires 0 <= i < |coins| => coins[i].outpoint)
  }

  function SignAll(count: nat, from: nat): (r: seq<nat>)
    ensures |r| == count
  {
    seq(count, i requires 0 <= i < count => i + from)
  }

  /** `findMinterUtxo`: the listed coin whose accepted parent binds it to the covenant. */
  predicate IsMinterCoin(l: Ledger, coin: Utxo, minter: State, id: CovenantId) {
    && coin.output.value == MEMBERSHIP_OUTPUT_VALUE && coin.output.script == PayToCovenant(minter)
    && Exists(l, coin.outpoint) && l.accepted[coin.outpoint.transactionId].tx.version == 1
    && OutputAt(l, coin.outpoint).value == MEMBERSHIP_OUTPUT_VALUE
    && OutputAt(l, coin.outpoint).script == PayToCovenant(minter)
    && OutputAt(l, coin.outpoint).binding == Some(Binding(id, 0))
  }

  function FindMinter(l: Ledger, coins: seq<Utxo>, minter: State, id: CovenantId): (r: Option<Utxo>)
    ensures r.Some? ==> r.value in coins && IsMinterCoin(l, r.value, minter, id)
    ensures r.None? ==> forall coin :: coin in coins ==> !IsMinterCoin(l, coin, minter, id)
  {
    if coins == [] then None
    else if IsMinterCoin(l, coins[0], minter, id) then Some(coins[0])
    else FindMinter(l, coins[1..], minter, id)
  }

  function Finish(node: Node, p: Prepared): Result<Prepared> {
    if node.massFits then Ok(p) else Err("TRANSACTION_MASS_TOO_HIGH")
  }

  // ----- offer ----------------------------------------------------------------

  function OfferId(first: Outpoint, minter: State): CovenantId {
    CovenantId(first, [AuthorizedOutput(0, MEMBERSHIP_OUTPUT_VALUE, PayToCovenant(minter))])
  }

  const ZERO_ID := CovenantId(Outpoint(0, 0), [])

  function OfferTx(selected: seq<Utxo>, minter: State, change: int): Tx
    requires selected != []
  {
    var id := OfferId(selected[0].outpoint, minter);
    Tx(1, Outpoints(selected), WithChange([CovenantOutput(minter, id)], minter.creator, change), 0, OtherPayload([]), None)
  }

  function PrepareOffer(node: Node, creator: Key, platform: Key, price: int): Result<Prepared> {
    var minter := MinterState(creator, platform, price);
    if !Encodable(minter) then Err("INVALID_DAA")
    else
      match Fund(node, creator, MEMBERSHIP_OUTPUT_VALUE, [], [CovenantOutput(minter, ZERO_ID)], 0)
      case Err(error) => Err(error)
      case Ok(Funding(selected, fee, change)) =>
        Finish(node, Prepared(
          OfferTx(selected, minter, change), OfferId(selected[0].outpoint, minter),
          SignAll(|selected|, 0), None, price, fee))
  }

  // ----- mint -----------------------------------------------------------------

  function Member(creator: Key, platform: Key, buyer: Key, price: int, daa: int): State {
    State(creator, platform, buyer, daa + MEMBERSHIP_DURATION_DAA, price, false)
  }

  /** The outputs before change: minter, member, payment, the fee if any, index. */
  function MintOutputs(minter: State, member: State, id: CovenantId): seq<Output> {
    var fee := MembershipFeeSompi(minter.priceSompi);
    [CovenantOutput(minter, id), CovenantOutput(member, id),
     KeyOutput(minter.creator, minter.priceSompi - fee)]
    + (if fee > 0 then [KeyOutput(minter.platform, fee)] else [])
    + [KeyOutput(member.owner, MEMBERSHIP_INDEX_VALUE)]
  }

  function MintEntry(minter: State, member: State): Entry {
    var charged := MembershipFeeSompi(minter.priceSompi) > 0;
    Mint(minter, member, 1, 2, if charged then 3 else 2, if charged then 4 else 3)
  }

  function MintTx(
    contract: Contract, coin: Outpoint, selected: seq<Utxo>, minter: State, member: State, id: CovenantId, change: int,
    daa: int): Tx
    requires Encodable(member)
  {
    Tx(1, [coin] + Outpoints(selected), WithChange(MintOutputs(minter, member, id), member.owner, change), daa,
       MembershipNote(RedeemBytes(contract, member), daa, member.expiresAtDaa),
       Some(MintEntry(minter, member)))
  }

  function CovenantInput(node: Node): InputShape {
    InputShape(node.signatureBytes, COVENANT_COMPUTE_BUDGET)
  }

  function PrepareMint(
    node: Node, contract: Contract, creator: Key, platform: Key, buyer: Key, id: CovenantId, price: int)
    : Result<Prepared>
  {
    var minter := MinterState(creator, platform, price);
    if !Encodable(minter) then Err("INVALID_DAA")
    else
      match FindMinter(node.ledger, node.minters, minter, id)
      case None => Err(MEMBERSHIP_STATE_CHANGED)
      case Some(coin) =>
        var daa := node.ledger.daa;
        var member := Member(creator, platform, buyer, price, daa);
        if !Encodable(member) then Err("INVALID_DAA")
        else
          var amount := price + MEMBERSHIP_OUTPUT_VALUE + MEMBERSHIP_INDEX_VALUE;
          match Fund(node, buyer, amount, [CovenantInput(node)], MintOutputs(minter, member, id), node.payloadBytes)
          case Err(error) => Err(error)
          case Ok(Funding(selected, fee, change)) =>
            Finish(node, Prepared(
              MintTx(contract, coin.outpoint, selected, minter, member, id, change, daa),
              id, SignAll(|selected|, 1), Some(1), price, fee))
  }

  // ----- price update and cancellation ----------------------------------------

  function MoveTx(coin: Outpoint, selected: seq<Utxo>, moved: State, id: CovenantId, entry: Entry, change: int): Tx {
    Tx(1, [coin] + Outpoints(selected), WithChange([CovenantOutput(moved, id)], moved.creator, change), 0,
       OtherPayload([]), Some(entry))
  }

  /** Both spend the minter for one covenant output; they differ in state and entry. */
  function PrepareMove(
    node: Node, current: State, moved: State, id: CovenantId, entry: Entry, price: int): Result<Prepared>
  {
    if !Encodable(current) then Err("INVALID_DAA")
    else
      match FindMinter(node.ledger, node.minters, current, id)
      case None => Err(MEMBERSHIP_STATE_CHANGED)
      case Some(coin) =>
        if !Encodable(moved) then Err("INVALID_DAA")
        else
          match Fund(node, current.creator, MEMBERSHIP_OUTPUT_VALUE, [CovenantInput(node)],
                     [CovenantOutput(moved, id)], 0)
          case Err(error) => Err(error)
          case Ok(Funding(selected, fee, change)) =>
            Finish(node, Prepared(
              MoveTx(coin.outpoint, selected, moved, id, entry, change), id, SignAll(|selected|, 1), None, price, fee))
  }

  function PreparePriceUpdate(
    node: Node, creator: Key, platform: Key, id: CovenantId, currentPrice: int, newPrice: int): Result<Prepared>
  {
    PrepareMove(node, MinterState(creator, platform, currentPrice), MinterState(creator, platform, newPrice), id,
                Update(newPrice, 1), newPrice)
  }

  function PrepareCancellation(node: Node, creator: Key, platform: Key, id: CovenantId, price: int): Result<Prepared> {
    var current := MinterState(creator, platform, price);
    PrepareMove(node, current, current.(isMinter := false), id, Cancel(1), price)
  }

  // ----- the gateway's own diagnosis ------------------------------------------

  /** Every check `membershipPreflight` reports, on the scripts the inputs spend. */
  predicate MembershipPreflight(
    creator: Key, buyer: Key, platform: Key, minter: State, member: State,
    spent: seq<Output>, outputs: seq<Output>, daa: int)
  {
    var fee := MembershipFeeSompi(member.priceSompi);
    var owner := if fee > 0 then 4 else 3;
    && minter.isMinter && member.creator == minter.creator && member.platform == minter.platform && !member.isMinter
    && daa >= member.expiresAtDaa - MEMBERSHIP_DURATION_DAA
    && |outputs| > owner && |spent| > 1
    && outputs[1].value == MEMBERSHIP_OUTPUT_VALUE
    && spent[1].script == PayToKey(buyer)
    && outputs[owner].script == PayToKey(buyer) && outputs[owner].value == MEMBERSHIP_INDEX_VALUE
    && outputs[2].script == PayToKey(creator) && outputs[2].value == member.priceSompi - fee
    && (fee == 0 || (outputs[3].script == PayToKey(platform) && outputs[3].value == fee))
    && outputs[0].binding.Some? && outputs[1].binding.Some?
    && outputs[0].script == PayToCovenant(minter) && outputs[1].script == PayToCovenant(member)
    && outputs[0].binding.value.authorizingInput == 0 && outputs[1].binding.value.authorizingInput == 0
  }
}
