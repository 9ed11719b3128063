/**
 Preparing a post payment and verifying it on the chain
 (backend/src/payment-gateway.ts). The wallet's coins, the fee rate and the text
 encoders are parameters; an address stands for its key.
 */
module PaymentGateway {
  import opened Wrappers
  import opened Bytes
  import opened MembershipContract
  import opened JsonText
  import opened HexText
  import opened Chain
  import opened Fees
  import opened CoinSelection
  import opened Ledger
  import opened Gateway
  import opened GatewayProofs
  import opened PpvPayload

  const CHANGE_DUST_SOMPI := 2_200_000

  datatype Post = Post(id: Text, creator: Key, priceSompi: int, mediaDigest: Text)

  datatype Payment = Payment(tx: Tx, payload: Text, networkFee: int)

  /** What a prepared payment pays, before it is known which coins it spends. */
  datatype Terms = Terms(amount: int, fee: int, outputCount: nat, payload: Text)

  function FeeOf(terms: Terms, rate: real, coins: nat): int
    requires rate > 0.0
  {
    PaymentEstimatedFee(coins, rate, terms.outputCount, |terms.payload| / 2).value
  }

  /** The loop of `prepare`: the shortest covering prefix, smallest coins first. */
  function SmallestFirst(wallet: seq<Utxo>, buyer: Key, amount: int, feeFor: seq<Utxo> -> int): Result<seq<Utxo>> {
    FirstCover(EligibleCoins(SortCoins(wallet, false), buyer, true), 1, amount, feeFor)
  }

  function PaymentSelection(wallet: seq<Utxo>, buyer: Key, terms: Terms, rate: real): Result<seq<Utxo>>
    requires rate > 0.0
  {
    SmallestFirst(wallet, buyer, terms.amount, (coins: seq<Utxo>) => FeeOf(terms, rate, |coins|))
  }

  function TermsOf(post: Post, payload: Text): Terms {
    var fee := MembershipFeeSompi(post.priceSompi);
    Terms(post.priceSompi, fee, if fee > 0 then 3 else 2, payload)
  }

  /** Creator, the platform if it is paid, and the change unless it is dust. */
  function PaymentOutputs(terms: Terms, creator: Key, platform: Key, buyer: Key, change: int): seq<Output> {
    [KeyOutput(creator, terms.amount - terms.fee)]
    + (if terms.fee > 0 then [KeyOutput(platform, terms.fee)] else [])
    + (if change >= CHANGE_DUST_SOMPI then [KeyOutput(buyer, change)] else [])
  }

  function Template(
    selected: seq<Utxo>, terms: Terms, creator: Key, platform: Key, buyer: Key, networkFee: int): Payment
  {
    var change := Total(selected) - terms.amount - networkFee;
    Payment(Tx(0, Outpoints(selected), PaymentOutputs(terms, creator, platform, buyer, change), 0,
               OtherPayload([]), None),
            terms.payload, networkFee)
  }

  function PaymentFor(wallet: seq<Utxo>, rate: real, platform: Key, post: Post, buyer: Key, payload: Text): Result<Payment> {
    if post.priceSompi < 0 then Err("INVALID_PAYMENT_AMOUNT")
    else if rate <= 0.0 then Err("INVALID_FEE_RATE")
    else
      var terms := TermsOf(post, payload);
      match PaymentSelection(wallet, buyer, terms, rate)
      case Err(error) => Err(error)
      case Ok(selected) =>
        Ok(Template(selected, terms, post.creator, platform, buyer, FeeOf(terms, rate, |selected|)))
  }

  lemma {:induction false} FeeIsPositive(terms: Terms, rate: real, coins: nat)
    requires rate > 0.0
    ensures FeeOf(terms, rate, coins) > 0
  {
  }

  /** The selection loop of `prepare`; what it returns need not cover. */
  method ChooseSmallestFirst(wallet: seq<Utxo>, buyer: Key, amount: int, feeFor: seq<Utxo> -> int)
    returns (selected: seq<Utxo>, total: int)
    requires amount + feeFor([]) > 0
    ensures total == Total(selected)
    ensures SmallestFirst(wallet, buyer, amount, feeFor) ==
            if total >= amount + feeFor(selected) then Ok(selected) else Err(INSUFFICIENT_FUNDS)
  {
    selected, total := [], 0;
    var sorted := SortCoins(wallet, false);
    for i := 0 to |sorted|
      invariant Choosing(sorted, buyer, true, amount, feeFor, i, selected, total)
      invariant total < amount + feeFor(selected)
    {
      ChoosesNext(sorted, buyer, true, amount, feeFor, i, selected, total);
      if !Eligible(sorted[i], buyer, true) {
        continue;
      }
      selected := selected + [sorted[i]];
      total := total + sorted[i].output.value;
      if total >= amount + feeFor(selected) {
        return;
      }
    }
    ChoosesNothing(sorted, buyer, true, amount, feeFor, selected, total);
  }

  /** `prepare`, output by output. */
  method Prepare(wallet: seq<Utxo>, rate: real, platform: Key, post: Post, buyer: Key, payload: Text)
    returns (r: Result<Payment>)
    ensures r == PaymentFor(wallet, rate, platform, post, buyer, payload)
  {
    var amount := post.priceSompi;
    FeeFormulasAgree(amount);
    var fee := 0;
    match PlatformFeeSompi(amount) {
      case Err(error) => return Err(error);
      case Ok(value) => fee := value;
    }
    var terms := Terms(amount, fee, if fee > 0 then 3 else 2, payload);
    if rate <= 0.0 {
      return Err("INVALID_FEE_RATE");
    }
    FeeIsPositive(terms, rate, 0);
    var selected, total := ChooseSmallestFirst(wallet, buyer, amount, coins => FeeOf(terms, rate, |coins|));
    var networkFee := FeeOf(terms, rate, |selected|);
    if total < amount + networkFee {
      return Err(INSUFFICIENT_FUNDS);
    }
    var outputs := [KeyOutput(post.creator, amount - fee)];
    if fee > 0 {
      outputs := outputs + [KeyOutput(platform, fee)];
    }
    var change := total - amount - networkFee;
    if change >= CHANGE_DUST_SOMPI {
      outputs := outputs + [KeyOutput(buyer, change)];
    }
    assert outputs == PaymentOutputs(terms, post.creator, platform, buyer, change);
    r := Ok(Payment(Tx(0, Outpoints(selected), outputs, 0, OtherPayload([]), None), payload, networkFee));
  }

  // ----- verifying a purchase -------------------------------------------------

  /** The address-indexed node's view; a script without a key has no key address. */
  datatype ChainOutput = ChainOutput(amount: int, address: Option<Key>)

  datatype ChainTransaction = ChainTransaction(
    isAccepted: bool, payload: Text, inputs: seq<Option<Key>>, outputs: seq<ChainOutput>)

  function AddressOf(script: Script): Option<Key> {
    match script
    case PayToKey(key) => Some(key)
    case _ => None
  }

  predicate PaysAddress(outputs: seq<ChainOutput>, amount: int, address: Key) {
    exists i :: 0 <= i < |outputs| && outputs[i] == ChainOutput(amount, Some(address))
  }

  predicate ReachesAddress(outputs: seq<ChainOutput>, address: Key) {
    exists i :: 0 <= i < |outputs| && outputs[i].address == Some(address)
  }

  /** `verifyPurchase`, once the node has answered. */
  function VerifyPurchase(
    read: Data -> Option<Json>, platform: Key, tx: ChainTransaction, buyer: Key, creator: Key, amount: int,
    postId: Text, mediaDigest: Text): Result<bool>
  {
    if !tx.isAccepted || tx.inputs == [] || tx.outputs == [] then Ok(false)
    else if tx.payload != [] && ParsePpvPayload(read, tx.payload) != Some(Note(postId, Lower(mediaDigest))) then Ok(false)
    else if !(forall i :: 0 <= i < |tx.inputs| ==> tx.inputs[i] == Some(buyer)) then Ok(false)
    else
      match PlatformFeeSompi(amount)
      case Err(error) => Err(error)
      case Ok(fee) =>
        if !PaysAddress(tx.outputs, amount - fee, creator) then Ok(false)
        else if fee == 0 then Ok(!ReachesAddress(tx.outputs, platform))
        else Ok(PaysAddress(tx.outputs, fee, platform))
  }

  /** How the chain shows an accepted payment. */
  function Shown(spent: seq<Output>, outputs: seq<Output>, payload: Text): ChainTransaction {
    ChainTransaction(
      true, payload,
      seq(|spent|, i requires 0 <= i < |spent| => AddressOf(spent[i].script)),
      seq(|outputs|, i requires 0 <= i < |outputs| => ChainOutput(outputs[i].value, AddressOf(outputs[i].script))))
  }
}
