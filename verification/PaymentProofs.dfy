/** What a prepared payment leaves, when it is approved, and when it can be made. */
module PaymentProofs {
  import opened Wrappers
  import opened Bytes
  import opened MembershipContract
  import opened JsonText
  import opened HexText
  import opened Chain
  import opened Fees
  import opened CoinSelection
  import opened Ledger
  import opened Gateway
  import opened GatewayProofs
  import opened PpvPayload
  import opened PaymentGateway

  // ----- the books ------------------------------------------------------------

  /** The coins, fee and change behind a prepared payment. */
  ghost predicate MadePayment(l: Ledger, post: Post, platform: Key, buyer: Key, rate: real, terms: Terms, p: Payment, selected: seq<Utxo>) {
    && rate > 0.0 && post.priceSompi >= 0
    && selected != [] && Lists(l, selected)
    && (forall i :: 0 <= i < |selected| ==> selected[i].output.script == PayToKey(buyer))
    && p == Template(selected, terms, post.creator, platform, buyer, FeeOf(terms, rate, |selected|))
    && Total(selected) >= terms.amount + p.networkFee
  }

  lemma {:induction false} AscendingCovers(wallet: seq<Utxo>, buyer: Key, amount: int, feeFor: seq<Utxo> -> int)
    requires SmallestFirst(wallet, buyer, amount, feeFor).Ok?
    ensures var chosen := SmallestFirst(wallet, buyer, amount, feeFor).value;
            chosen != [] && PickOf(chosen, wallet, buyer, true) && Covers(chosen, amount, feeFor)
  {
    var coins := EligibleCoins(SortCoins(wallet, false), buyer, true);
    FirstCoverIs(coins, 1, amount, feeFor);
    EligibleCoinsAre(SortCoins(wallet, false), buyer, true);
    var chosen := SmallestFirst(wallet, buyer, amount, feeFor).value;
    assert coins == chosen + coins[|chosen|..];
  }

  lemma {:induction false} PaymentParts(
    l: Ledger, wallet: seq<Utxo>, rate: real, platform: Key, post: Post, buyer: Key, payload: Text)
    returns (selected: seq<Utxo>)
    requires Lists(l, wallet) && PaymentFor(wallet, rate, platform, post, buyer, payload).Ok?
    ensures MadePayment(l, post, platform, buyer, rate, TermsOf(post, payload),
                        PaymentFor(wallet, rate, platform, post, buyer, payload).value, selected)
  {
    var terms := TermsOf(post, payload);
    selected := PaymentSelection(wallet, buyer, terms, rate).value;
    AscendingCovers(wallet, buyer, terms.amount, coins => FeeOf(terms, rate, |coins|));
    PickedAreListed(l, wallet, buyer, selected, true);
  }

  lemma {:induction false} PaymentOutputsValue(terms: Terms, creator: Key, platform: Key, buyer: Key, change: int)
    requires terms.fee >= 0
    ensures ValueOf(PaymentOutputs(terms, creator, platform, buyer, change)) ==
            terms.amount + if change >= CHANGE_DUST_SOMPI then change else 0
  {
    var first := [KeyOutput(creator, terms.amount - terms.fee)];
    var second := if terms.fee > 0 then [KeyOutput(platform, terms.fee)] else [];
    var third := if change >= CHANGE_DUST_SOMPI then [KeyOutput(buyer, change)] else [];
    ValuesAdd(first, second);
    ValuesAdd(first + second, third);
    ValueOfUpToOne(first);
    ValueOfUpToOne(second);
    ValueOfUpToOne(third);
  }

  /** A payment leaves at least its fee and less than 2,200,000 more: change below that is dust. */
  lemma {:induction false} PaymentLeavesItsFee(
    l: Ledger, wallet: seq<Utxo>, rate: real, platform: Key, post: Post, buyer: Key, payload: Text)
    requires Lists(l, wallet) && PaymentFor(wallet, rate, platform, post, buyer, payload).Ok?
    ensures var p := PaymentFor(wallet, rate, platform, post, buyer, payload).value;
            && InputsExist(l, p.tx)
            && p.networkFee <= Left(l, p.tx) < p.networkFee + 2_200_000
            && (forall i :: 0 <= i < |p.tx.outputs| ==> p.tx.outputs[i].value >= 0)
  {
    var selected := PaymentParts(l, wallet, rate, platform, post, buyer, payload);
    var terms, p := TermsOf(post, payload), PaymentFor(wallet, rate, platform, post, buyer, payload).value;
    FeeFormulasAgree(post.priceSompi);
    FeeIsPositive(terms, rate, |selected|);
    SpentCoins(l, p.tx, selected);
    PaymentOutputsValue(terms, post.creator, platform, buyer, Total(selected) - terms.amount - p.networkFee);
  }

  lemma {:induction false} KeyShapes(outputs: seq<Output>, count: nat)
    requires |outputs| <= count
    requires forall i :: 0 <= i < |outputs| ==> Shape(outputs[i]) == KEY_OUTPUT
    ensures Shapes(outputs) == seq(count, _ => KEY_OUTPUT)[..|outputs|]
  {
  }

  /** The fee is at least the network's for the transaction as sent. */
  lemma {:induction false} PaymentFeeIsEnough(
    l: Ledger, wallet: seq<Utxo>, rate: real, platform: Key, post: Post, buyer: Key, payload: Text)
    requires Lists(l, wallet) && PaymentFor(wallet, rate, platform, post, buyer, payload).Ok?
    ensures var p := PaymentFor(wallet, rate, platform, post, buyer, payload).value;
            && rate > 0.0
            && p.networkFee >= FeeOfMass(MassOf([], p.tx, |payload| / 2), rate) >= 100 * MassOf([], p.tx, |payload| / 2)
  {
    var selected := PaymentParts(l, wallet, rate, platform, post, buyer, payload);
    var terms, p := TermsOf(post, payload), PaymentFor(wallet, rate, platform, post, buyer, payload).value;
    var all := seq(terms.outputCount, _ => KEY_OUTPUT);
    var inputs := WalletInputs(|selected|);
    KeyShapes(p.tx.outputs, terms.outputCount);
    EstimatesAgree(|selected|, rate, terms.outputCount, |payload| / 2);
    FewerOutputsWeighLess(inputs, all, |p.tx.outputs|, |payload| / 2);
    assert [] + inputs == inputs;
    FeeGrowsWithMass(ComputeMass(inputs, Shapes(p.tx.outputs), |payload| / 2), ComputeMass(inputs, all, |payload| / 2), rate);
  }

  // ----- builder and checker --------------------------------------------------

  lemma {:induction false} ShownOutputs(terms: Terms, creator: Key, platform: Key, buyer: Key, change: int, spent: seq<Output>)
    requires terms.fee >= 0
    ensures var outputs := Shown(spent, PaymentOutputs(terms, creator, platform, buyer, change), terms.payload).outputs;
            && outputs != [] && PaysAddress(outputs, terms.amount - terms.fee, creator)
            && (terms.fee > 0 ==> PaysAddress(outputs, terms.fee, platform))
            && (terms.fee == 0 ==>
                  (ReachesAddress(outputs, platform) <==>
                     creator == platform || (change >= CHANGE_DUST_SOMPI && buyer == platform)))
  {
    var outputs := Shown(spent, PaymentOutputs(terms, creator, platform, buyer, change), terms.payload).outputs;
    assert outputs[0] == ChainOutput(terms.amount - terms.fee, Some(creator));
    if terms.fee > 0 {
      assert outputs[1] == ChainOutput(terms.fee, Some(platform));
    } else if change >= CHANGE_DUST_SOMPI {
      assert outputs[1] == ChainOutput(change, Some(buyer));
    }
  }

  /** The transaction leaves change to the buyer. */
  predicate HasChange(p: Payment, fee: int) {
    |p.tx.outputs| > if fee > 0 then 2 else 1
  }

  /** The payload names this post, or there is none. */
  predicate NamesPost(read: Data -> Option<Json>, payload: Text, post: Post) {
    payload == [] || ParsePpvPayload(read, payload) == Some(Note(post.id, Lower(post.mediaDigest)))
  }

  lemma {:induction false} ShownIsApproved(
    read: Data -> Option<Json>, post: Post, platform: Key, buyer: Key, terms: Terms, change: int, spent: seq<Output>)
    requires post.priceSompi >= 0 && terms.amount == post.priceSompi && terms.fee == MembershipFeeSompi(post.priceSompi)
    requires spent != [] && forall i :: 0 <= i < |spent| ==> spent[i].script == PayToKey(buyer)
    ensures VerifyPurchase(read, platform,
                           Shown(spent, PaymentOutputs(terms, post.creator, platform, buyer, change), terms.payload),
                           buyer, post.creator, post.priceSompi, post.id, post.mediaDigest) ==
            Ok(&& NamesPost(read, terms.payload, post)
               && (terms.fee > 0 || (post.creator != platform && (change >= CHANGE_DUST_SOMPI ==> buyer != platform))))
  {
    FeeFormulasAgree(post.priceSompi);
    ShownOutputs(terms, post.creator, platform, buyer, change, spent);
  }

  lemma {:induction false} TemplateIsApproved(
    l: Ledger, post: Post, platform: Key, buyer: Key, rate: real, payload: Text, p: Payment, selected: seq<Utxo>,
    read: Data -> Option<Json>)
    requires MadePayment(l, post, platform, buyer, rate, TermsOf(post, payload), p, selected)
    ensures var fee := MembershipFeeSompi(post.priceSompi);
            && InputsExist(l, p.tx)
            && VerifyPurchase(read, platform, Shown(Spent(l, p.tx), p.tx.outputs, p.payload), buyer, post.creator,
                              post.priceSompi, post.id, post.mediaDigest) ==
               Ok(&& NamesPost(read, payload, post)
                  && (fee > 0 || (post.creator != platform && (HasChange(p, fee) ==> buyer != platform))))
  {
    var terms := TermsOf(post, payload);
    SpentCoins(l, p.tx, selected);
    var spent := Spent(l, p.tx);
    forall i | 0 <= i < |spent|
      ensures spent[i].script == PayToKey(buyer)
    {
      assert spent[i] == OutputsOf(selected)[i];
    }
    FeeFormulasAgree(post.priceSompi);
    ShownIsApproved(read, post, platform, buyer, terms, Total(selected) - terms.amount - p.networkFee, spent);
  }

  /**
   A prepared payment, once accepted, is approved for its post exactly when the
   post has an id and a real digest and, if the fee is waived, neither the
   creator nor a buyer who gets change is the platform.
   */
  lemma {:induction false} PreparedIsApproved(
    l: Ledger, wallet: seq<Utxo>, rate: real, platform: Key, post: Post, buyer: Key, payload: Text, p: Payment,
    write: Json -> Data, read: Data -> Option<Json>)
    requires Lists(l, wallet)
    requires read(write(NoteJson(post.id, post.mediaDigest))) == Some(NoteJson(post.id, post.mediaDigest))
    requires write(NoteJson(post.id, post.mediaDigest)) != []
    requires payload == NotePayload(write, post.id, post.mediaDigest)
    requires PaymentFor(wallet, rate, platform, post, buyer, payload) == Ok(p)
    ensures var fee := MembershipFeeSompi(post.priceSompi);
            && InputsExist(l, p.tx)
            && VerifyPurchase(read, platform, Shown(Spent(l, p.tx), p.tx.outputs, p.payload), buyer, post.creator,
                              post.priceSompi, post.id, post.mediaDigest) ==
               Ok(&& post.id != [] && IsDigest(post.mediaDigest)
                  && (fee > 0 || (post.creator != platform && (HasChange(p, fee) ==> buyer != platform))))
  {
    var selected := PaymentParts(l, wallet, rate, platform, post, buyer, payload);
    TemplateIsApproved(l, post, platform, buyer, rate, payload, p, selected, read);
    NoteReadsBack(write, read, post.id, post.mediaDigest);
    NotesNamePosts(read, payload, post, write);
  }

  lemma {:induction false} NotesNamePosts(read: Data -> Option<Json>, payload: Text, post: Post, write: Json -> Data)
    requires payload == NotePayload(write, post.id, post.mediaDigest) && write(NoteJson(post.id, post.mediaDigest)) != []
    requires ParsePpvPayload(read, payload) ==
             if post.id != [] && IsDigest(post.mediaDigest) then Some(Note(post.id, Lower(post.mediaDigest))) else None
    ensures NamesPost(read, payload, post) <==> post.id != [] && IsDigest(post.mediaDigest)
  {
  }

  /**
   An approved purchase paid in full: the creator's and the platform's outputs
   are two different outputs, together the amount, and the buyer owned every input.
   */
  lemma {:induction false} ApprovedPaysInFull(
    read: Data -> Option<Json>, platform: Key, tx: ChainTransaction, buyer: Key, creator: Key, amount: int,
    postId: Text, mediaDigest: Text) returns (toCreator: nat, toPlatform: nat)
    requires VerifyPurchase(read, platform, tx, buyer, creator, amount, postId, mediaDigest) == Ok(true)
    ensures var fee := MembershipFeeSompi(amount);
            && toCreator < |tx.outputs| && tx.outputs[toCreator].address == Some(creator)
            && (fee > 0 ==> && toPlatform < |tx.outputs| && toPlatform != toCreator
                            && tx.outputs[toPlatform].address == Some(platform))
            && tx.outputs[toCreator].amount + (if fee > 0 then tx.outputs[toPlatform].amount else 0) == amount
            && tx.isAccepted && forall i :: 0 <= i < |tx.inputs| ==> tx.inputs[i] == Some(buyer)
  {
    FeeFormulasAgree(amount);
    var fee := MembershipFeeSompi(amount);
    toCreator :| 0 <= toCreator < |tx.outputs| && tx.outputs[toCreator] == ChainOutput(amount - fee, Some(creator));
    toPlatform := 0;
    if fee > 0 {
      toPlatform :| 0 <= toPlatform < |tx.outputs| && tx.outputs[toPlatform] == ChainOutput(fee, Some(platform));
    }
  }

  /**
   A purchase is approved exactly when an accepted transaction, all of whose inputs
   are the buyer's and whose payload if any names the post, pays the creator and,
   unless the fee is waived, the platform; waived, it must not reach the platform.
   A negative amount throws, but only where all before the amount is in order.
   */
  lemma {:induction false} ApprovedExactlyWhen(
    read: Data -> Option<Json>, platform: Key, tx: ChainTransaction, buyer: Key, creator: Key, amount: int,
    postId: Text, mediaDigest: Text)
    ensures var r, fee := VerifyPurchase(read, platform, tx, buyer, creator, amount, postId, mediaDigest), MembershipFeeSompi(amount);
            var genuine :=
              && tx.isAccepted && tx.inputs != [] && tx.outputs != []
              && (forall i :: 0 <= i < |tx.inputs| ==> tx.inputs[i] == Some(buyer))
              && (tx.payload == [] || ParsePpvPayload(read, tx.payload) == Some(Note(postId, Lower(mediaDigest))));
            && (r.Err? <==> genuine && amount < 0)
            && (r == Ok(true) <==>
                  && genuine && amount >= 0
                  && (exists i :: 0 <= i < |tx.outputs| && tx.outputs[i].amount == amount - fee && tx.outputs[i].address == Some(creator))
                  && (if amount >= 9_999_999_950 then
                        exists i :: 0 <= i < |tx.outputs| && tx.outputs[i].amount == fee && tx.outputs[i].address == Some(platform)
                      else
                        forall i :: 0 <= i < |tx.outputs| ==> tx.outputs[i].address != Some(platform)))
  {
    FeeFormulasAgree(amount);
    PaysAddressIs(tx.outputs, amount - MembershipFeeSompi(amount), creator);
    PaysAddressIs(tx.outputs, MembershipFeeSompi(amount), platform);
  }

  lemma {:induction false} PaysAddressIs(outputs: seq<ChainOutput>, amount: int, address: Key)
    ensures PaysAddress(outputs, amount, address) <==>
            exists i :: 0 <= i < |outputs| && outputs[i].amount == amount && outputs[i].address == Some(address)
  {
    if i :| 0 <= i < |outputs| && outputs[i].amount == amount && outputs[i].address == Some(address) {
      assert outputs[i] == ChainOutput(amount, Some(address));
    }
  }

  /**
   A transaction approved for one post is approved, on the same terms, for
   exactly the same post and digest if it has a payload, and for every post and
   digest if it has none.
   */
  lemma {:induction false} ApprovedForOnePost(
    read: Data -> Option<Json>, platform: Key, tx: ChainTransaction, buyer: Key, creator: Key, amount: int,
    postId: Text, mediaDigest: Text, otherId: Text, otherDigest: Text)
    requires VerifyPurchase(read, platform, tx, buyer, creator, amount, postId, mediaDigest) == Ok(true)
    ensures VerifyPurchase(read, platform, tx, buyer, creator, amount, otherId, otherDigest) == Ok(true) <==>
            tx.payload == [] || (otherId == postId && Lower(otherDigest) == Lower(mediaDigest))
  {
  }

  /** Whatever a transaction with a payload is approved for, it is one post for one buyer. */
  lemma {:induction false} ApprovedForOneBuyer(
    read: Data -> Option<Json>, platform: Key, tx: ChainTransaction, buyer: Key,
    creator: Key, amount: int, postId: Text, mediaDigest: Text,
    otherBuyer: Key, otherCreator: Key, otherAmount: int, otherId: Text, otherDigest: Text)
    requires VerifyPurchase(read, platform, tx, buyer, creator, amount, postId, mediaDigest) == Ok(true)
    requires VerifyPurchase(read, platform, tx, otherBuyer, otherCreator, otherAmount, otherId, otherDigest) == Ok(true)
    ensures buyer == otherBuyer
    ensures tx.payload != [] ==> postId == otherId && Lower(mediaDigest) == Lower(otherDigest)
  {
    assert tx.inputs[0] == Some(buyer);
  }

  // ----- when the smallest coins are enough -----------------------------------

  /** What one more input costs: this, or above the minimum rate perhaps one sompi more. */
  function InputStep(rate: real): int {
    if rate <= 100.0 then 512_000 else (5_120.0 * rate).Floor
  }

  /** What one more input costs at most. */
  function InputCost(rate: real): int {
    if Ceil(5_120.0 * rate) > 512_000 then Ceil(5_120.0 * rate) else 512_000
  }

  lemma {:induction false} CeilAdds(x: real, y: real)
    ensures Ceil(x) + y.Floor <= Ceil(x + y) <= Ceil(x) + Ceil(y)
    ensures Ceil(y) <= y.Floor + 1
  {
  }

  lemma {:induction false} Distributes(mass: nat, rate: real)
    ensures (mass + 5_120) as real * rate == mass as real * rate + 5_120.0 * rate
  {
  }

  lemma {:induction false} RelayFloor(mass: nat, rate: real)
    requires 0.0 < rate <= 100.0
    ensures FeeOfMass(mass, rate) == 100 * mass
  {
    AtMostHundred(mass as real, rate);
    CeilAtMost(mass as real * rate, 100 * mass);
  }

  lemma {:induction false} CeilAtMost(x: real, whole: int)
    requires x <= whole as real
    ensures Ceil(x) <= whole
  {
  }

  lemma {:induction false} AtMostHundred(mass: real, rate: real)
    requires mass >= 0.0 && rate <= 100.0
    ensures mass * rate <= 100.0 * mass
  {
  }

  /** Above the minimum rate the rate decides the fee. */
  lemma {:induction false} RateDecides(mass: nat, rate: real)
    requires rate > 100.0
    ensures FeeOfMass(mass, rate) == Ceil(mass as real * rate)
  {
    AtLeastHundred(mass as real, rate);
    CeilAtLeast(mass as real * rate, 100 * mass);
  }

  lemma {:induction false} AtLeastHundred(mass: real, rate: real)
    requires mass >= 0.0 && rate >= 100.0
    ensures mass * rate >= 100.0 * mass
  {
  }

  lemma {:induction false} CeilAtLeast(x: real, whole: int)
    requires x >= whole as real
    ensures Ceil(x) >= whole
  {
  }

  lemma {:induction false} MassCosts(mass: nat, rate: real)
    requires rate > 0.0
    ensures var fee, more := FeeOfMass(mass, rate), FeeOfMass(mass + 5_120, rate);
            && fee + InputStep(rate) <= more <= fee + InputCost(rate)
            && more <= fee + InputStep(rate) + 1
  {
    if rate > 100.0 {
      Distributes(mass, rate);
      CeilAdds(mass as real * rate, 5_120.0 * rate);
      RateDecides(mass, rate);
      RateDecides(mass + 5_120, rate);
    } else {
      RelayFloor(mass, rate);
      RelayFloor(mass + 5_120, rate);
    }
  }

  lemma {:induction false} StepIsLarge(rate: real)
    requires rate > 0.0
    ensures InputStep(rate) >= 512_000
  {
  }

  lemma {:induction false} CoinCosts(terms: Terms, rate: real, coins: nat)
    requires rate > 0.0
    ensures var fee, more := FeeOf(terms, rate, coins), FeeOf(terms, rate, coins + 1);
            && fee + 512_000 <= fee + InputStep(rate) <= more <= fee + InputCost(rate)
            && more <= fee + InputStep(rate) + 1
  {
    var mass := 94 + 120 * coins + 52 * terms.outputCount + |terms.payload| / 2 + 360 * terms.outputCount + 5_000 * coins;
    assert FeeOf(terms, rate, coins) == FeeOfMass(mass, rate);
    assert FeeOf(terms, rate, coins + 1) == FeeOfMass(mass + 5_120, rate);
    MassCosts(mass, rate);
    StepIsLarge(rate);
  }

  /** Prefixes grow by their next coin. */
  lemma {:induction false} NextCoin(coins: seq<Utxo>, k: nat)
    requires k < |coins|
    ensures Total(coins[..k + 1]) == Total(coins[..k]) + coins[k].output.value
  {
    assert coins[..k + 1][..k] == coins[..k];
  }

  ghost predicate CostsAtMost(fee: nat -> int, cost: int) {
    forall c: nat :: fee(c + 1) <= fee(c) + cost
  }

  ghost predicate CostsAtLeast(fee: nat -> int, cost: int) {
    forall c: nat :: fee(c + 1) >= fee(c) + cost
  }

  /** Coins worth their own fee never make a prefix worse. */
  lemma {:induction false} PrefixImproves(coins: seq<Utxo>, fee: nat -> int, k: nat, n: nat, cost: int)
    requires k <= n <= |coins| && CostsAtMost(fee, cost)
    requires forall i :: k <= i < n ==> coins[i].output.value >= cost
    ensures Total(coins[..n]) - fee(n) >= Total(coins[..k]) - fee(k)
    decreases n
  {
    if k < n {
      PrefixImproves(coins, fee, k, n - 1, cost);
      NextCoin(coins, n - 1);
      assert fee(n - 1 + 1) <= fee(n - 1) + cost;
    }
  }

  lemma {:induction false} PrefixWorsens(coins: seq<Utxo>, fee: nat -> int, k: nat, n: nat, cost: int)
    requires k <= n <= |coins| && CostsAtLeast(fee, cost)
    requires forall i :: k <= i < n ==> coins[i].output.value <= cost
    ensures Total(coins[..n]) - fee(n) <= Total(coins[..k]) - fee(k)
    decreases n
  {
    if k < n {
      PrefixWorsens(coins, fee, k, n - 1, cost);
      NextCoin(coins, n - 1);
      assert fee(n - 1 + 1) >= fee(n - 1) + cost;
    }
  }

  /** The buyer's own coins, smallest first. */
  function Ascending(wallet: seq<Utxo>, buyer: Key): seq<Utxo> {
    EligibleCoins(SortCoins(wallet, false), buyer, true)
  }

  predicate Pays(coins: seq<Utxo>, amount: int, fee: nat -> int) {
    Total(coins) >= amount + fee(|coins|)
  }

  lemma {:induction false} SelectionFindsPrefix(wallet: seq<Utxo>, buyer: Key, amount: int, feeFor: seq<Utxo> -> int, fee: nat -> int)
    requires ByCount(feeFor, fee)
    ensures var coins := Ascending(wallet, buyer);
            SmallestFirst(wallet, buyer, amount, feeFor).Ok? <==>
            exists k :: 1 <= k <= |coins| && Pays(coins[..k], amount, fee)
  {
    var coins := Ascending(wallet, buyer);
    FirstCoverIs(coins, 1, amount, feeFor);
    forall k | 1 <= k <= |coins|
      ensures Covers(coins[..k], amount, feeFor) <==> Pays(coins[..k], amount, fee)
    {
    }
    if SmallestFirst(wallet, buyer, amount, feeFor).Ok? {
      var k := |SmallestFirst(wallet, buyer, amount, feeFor).value|;
      assert Pays(coins[..k], amount, fee);
    }
  }

  lemma {:induction false} FirstOrAll(coins: seq<Utxo>, amount: int, fee: nat -> int, k: nat, cost: int)
    requires Ordered(coins, false) && CostsAtMost(fee, cost + 1) && CostsAtLeast(fee, cost)
    requires 1 <= k <= |coins| && Pays(coins[..k], amount, fee)
    ensures Pays(coins[..1], amount, fee) || Pays(coins, amount, fee)
  {
    assert coins[..|coins|] == coins;
    if coins[k - 1].output.value > cost {
      PrefixImproves(coins, fee, k, |coins|, cost + 1);
    } else {
      PrefixWorsens(coins, fee, 1, k, cost);
    }
  }

  /**
   A payment can be prepared exactly when the buyer's smallest coin pays it
   alone or all of the buyer's coins together do.
   */
  lemma {:induction false} SmallestOrAll(wallet: seq<Utxo>, buyer: Key, terms: Terms, rate: real)
    requires rate > 0.0
    ensures var coins, fee := Ascending(wallet, buyer), (c: nat) => FeeOf(terms, rate, c);
            PaymentSelection(wallet, buyer, terms, rate).Ok? <==>
            coins != [] && (Pays(coins[..1], terms.amount, fee) || Pays(coins, terms.amount, fee))
  {
    NearlyLinear(terms, rate);
    FoundAtEitherEnd(wallet, buyer, terms.amount, coins => FeeOf(terms, rate, |coins|), (c: nat) => FeeOf(terms, rate, c),
                     InputStep(rate));
  }

  lemma {:induction false} FoundAtEitherEnd(
    wallet: seq<Utxo>, buyer: Key, amount: int, feeFor: seq<Utxo> -> int, fee: nat -> int, cost: int)
    requires ByCount(feeFor, fee) && CostsAtMost(fee, cost + 1) && CostsAtLeast(fee, cost)
    ensures var coins := Ascending(wallet, buyer);
            SmallestFirst(wallet, buyer, amount, feeFor).Ok? <==>
            coins != [] && (Pays(coins[..1], amount, fee) || Pays(coins, amount, fee))
  {
    var coins := Ascending(wallet, buyer);
    SelectionFindsPrefix(wallet, buyer, amount, feeFor, fee);
    SortsInOrder(wallet, false);
    EligibleCoinsOrdered(SortCoins(wallet, false), buyer, false, true);
    if k :| 1 <= k <= |coins| && Pays(coins[..k], amount, fee) {
      FirstOrAll(coins, amount, fee, k, cost);
    }
    assert coins[..|coins|] == coins;
  }

  lemma {:induction false} NearlyLinear(terms: Terms, rate: real)
    requires rate > 0.0
    ensures CostsAtMost((c: nat) => FeeOf(terms, rate, c), InputStep(rate) + 1)
    ensures CostsAtLeast((c: nat) => FeeOf(terms, rate, c), InputStep(rate))
  {
    forall c: nat
      ensures FeeOf(terms, rate, c) + InputStep(rate) <= FeeOf(terms, rate, c + 1) <= FeeOf(terms, rate, c) + InputStep(rate) + 1
    {
      CoinCosts(terms, rate, c);
    }
  }

  lemma {:induction false} AtMostInputCost(terms: Terms, rate: real)
    requires rate > 0.0
    ensures CostsAtMost((c: nat) => FeeOf(terms, rate, c), InputCost(rate))
  {
    forall c: nat
      ensures FeeOf(terms, rate, c + 1) <= FeeOf(terms, rate, c) + InputCost(rate)
    {
      CoinCosts(terms, rate, c);
    }
  }

  lemma {:induction false} SameTotals(left: seq<Utxo>, right: seq<Utxo>)
    requires multiset(left) == multiset(right)
    ensures |left| == |right| && Total(left) == Total(right)
  {
    assert |multiset(left)| == |left| && |multiset(right)| == |right|;
    if left != [] {
      assert left[0] in multiset(right);
      var i := IndexOf(right, left[0]);
      FirstRemoved(left);
      Without(right, i);
      SameRest(left, right, i);
      SameTotals(left[1..], right[..i] + right[i + 1..]);
    }
  }

  lemma {:induction false} FirstRemoved(coins: seq<Utxo>)
    requires coins != []
    ensures multiset(coins) == multiset(coins[1..]) + multiset{coins[0]}
    ensures Total(coins) == Total(coins[1..]) + coins[0].output.value
  {
    Without(coins, 0);
    assert coins[..0] + coins[1..] == coins[1..];
  }

  lemma {:induction false} SameRest(left: seq<Utxo>, right: seq<Utxo>, i: nat)
    requires left != [] && i < |right| && right[i] == left[0] && multiset(left) == multiset(right)
    ensures multiset(left[1..]) == multiset(right[..i] + right[i + 1..])
  {
    FirstRemoved(left);
    Without(right, i);
    assert multiset(left[1..]) == multiset(left) - multiset{left[0]};
    assert multiset(right[..i] + right[i + 1..]) == multiset(right) - multiset{left[0]};
  }

  lemma {:induction false} SameCoinsSorted(wallet: seq<Utxo>, buyer: Key)
    ensures var coins, largest := Ascending(wallet, buyer), EligibleCoins(SortCoins(wallet, true), buyer, true);
            |coins| == |largest| && Total(coins) == Total(largest)
  {
    var coins, largest := Ascending(wallet, buyer), EligibleCoins(SortCoins(wallet, true), buyer, true);
    EligibleCoinsAre(SortCoins(wallet, false), buyer, true);
    EligibleCoinsAre(SortCoins(wallet, true), buyer, true);
    assert multiset(coins) == multiset(largest);
    SameTotals(coins, largest);
  }

  lemma {:induction false} SortedFromWallet(wallet: seq<Utxo>, buyer: Key, i: nat)
    requires i < |EligibleCoins(SortCoins(wallet, true), buyer, true)|
    ensures var coin := EligibleCoins(SortCoins(wallet, true), buyer, true)[i]; coin in wallet && Eligible(coin, buyer, true)
  {
    var largest := EligibleCoins(SortCoins(wallet, true), buyer, true);
    EligibleCoinsAre(SortCoins(wallet, true), buyer, true);
    assert largest[i] in multiset(largest);
    assert largest[i] in multiset(wallet);
  }

  /** All of the buyer's coins, when none is dust, pay whatever some of them do. */
  lemma {:induction false} AllCoinsPay(wallet: seq<Utxo>, buyer: Key, amount: int, fee: nat -> int, cost: int, pick: seq<Utxo>)
    requires CostsAtMost(fee, cost) && PickOf(pick, wallet, buyer, true) && Pays(pick, amount, fee)
    requires forall i :: 0 <= i < |wallet| && Eligible(wallet[i], buyer, true) ==> wallet[i].output.value >= cost
    ensures |pick| <= |Ascending(wallet, buyer)| && Pays(Ascending(wallet, buyer), amount, fee)
  {
    var coins, largest := Ascending(wallet, buyer), EligibleCoins(SortCoins(wallet, true), buyer, true);
    SameCoinsSorted(wallet, buyer);
    LargestOfWallet(wallet, buyer, pick, true);
    forall i | 0 <= i < |largest|
      ensures largest[i].output.value >= cost
    {
      SortedFromWallet(wallet, buyer, i);
    }
    PrefixImproves(largest, fee, |pick|, |largest|, cost);
    assert largest[..|largest|] == largest;
  }

  /**
   If each of the buyer's coins is worth at least what spending it costs, the
   payment can be prepared whenever any choice of coins would pay it.
   */
  lemma {:induction false} CompleteWithoutDust(wallet: seq<Utxo>, buyer: Key, terms: Terms, rate: real, pick: seq<Utxo>)
    requires rate > 0.0 && PickOf(pick, wallet, buyer, true) && pick != []
    requires Pays(pick, terms.amount, (c: nat) => FeeOf(terms, rate, c))
    requires forall i :: 0 <= i < |wallet| && Eligible(wallet[i], buyer, true) ==> wallet[i].output.value >= InputCost(rate)
    ensures PaymentSelection(wallet, buyer, terms, rate).Ok?
  {
    var coins, fee := Ascending(wallet, buyer), (c: nat) => FeeOf(terms, rate, c);
    AtMostInputCost(terms, rate);
    AllCoinsPay(wallet, buyer, terms.amount, fee, InputCost(rate), pick);
    assert coins[..|coins|] == coins;
    assert Pays(coins[..|coins|], terms.amount, fee);
    SelectionFindsPrefix(wallet, buyer, terms.amount, coins => FeeOf(terms, rate, |coins|), fee);
  }

  /**
   With dust it can fail although one coin alone would pay: a coin of 1 sompi
   beside a coin of exactly the amount and its fee.
   */
  lemma {:induction false} DustBlocks(buyer: Key, terms: Terms, rate: real, one: Outpoint, other: Outpoint)
    requires rate > 0.0 && terms.amount >= 0
    ensures var dust := Utxo(one, KeyOutput(buyer, 1));
            var coin := Utxo(other, KeyOutput(buyer, terms.amount + FeeOf(terms, rate, 1)));
            && PickOf([coin], [dust, coin], buyer, true) && Pays([coin], terms.amount, (c: nat) => FeeOf(terms, rate, c))
            && PaymentSelection([dust, coin], buyer, terms, rate).Err?
  {
    var dust := Utxo(one, KeyOutput(buyer, 1));
    var coin := Utxo(other, KeyOutput(buyer, terms.amount + FeeOf(terms, rate, 1)));
    CoinCosts(terms, rate, 0);
    CoinCosts(terms, rate, 1);
    FeeIsPositive(terms, rate, 0);
    var fee := (c: nat) => FeeOf(terms, rate, c);
    NeitherPays(dust, coin, terms.amount, fee);
    NothingFound(dust, coin, buyer, terms.amount, coins => FeeOf(terms, rate, |coins|), fee);
  }

  lemma {:induction false} NothingFound(
    dust: Utxo, coin: Utxo, buyer: Key, amount: int, feeFor: seq<Utxo> -> int, fee: nat -> int)
    requires ByCount(feeFor, fee) && Eligible(dust, buyer, true) && Eligible(coin, buyer, true) && dust.output.value <= coin.output.value
    requires forall k :: 1 <= k <= 2 ==> !Pays([dust, coin][..k], amount, fee)
    ensures SmallestFirst([dust, coin], buyer, amount, feeFor).Err?
    ensures PickOf([coin], [dust, coin], buyer, true)
  {
    TwoCoins(dust, coin, buyer);
    SelectionFindsPrefix([dust, coin], buyer, amount, feeFor, fee);
  }

  lemma {:induction false} NeitherPays(dust: Utxo, coin: Utxo, amount: int, fee: nat -> int)
    requires dust.output.value == 1 && coin.output.value == amount + fee(1) && amount >= 0
    requires fee(1) >= 2 && fee(2) >= fee(1) + 2
    ensures forall k :: 1 <= k <= 2 ==> !Pays([dust, coin][..k], amount, fee)
    ensures Pays([coin], amount, fee)
  {
    assert [coin][..0] == [] && [dust, coin][..1] == [dust] && [dust][..0] == [];
    assert Total([dust]) == 1;
    assert [dust, coin][..2] == [dust, coin];
  }

  lemma {:induction false} TwoCoins(small: Utxo, large: Utxo, key: Key)
    requires Eligible(small, key, true) && Eligible(large, key, true) && small.output.value <= large.output.value
    ensures Ascending([small, large], key) == [small, large]
    ensures multiset([large]) <= multiset([small, large])
  {
    OneSorted(small);
    assert [small, large][..1] == [small];
    assert SortCoins([small, large], false) == InsertCoin(large, [small], false) == [small] + [large];
    OneEligible(small, key);
    assert EligibleCoins([small, large], key, true) == EligibleCoins([small], key, true) + [large];
  }

  lemma {:induction false} OneSorted(coin: Utxo)
    ensures SortCoins([coin], false) == [coin]
  {
    assert [coin][..0] == [];
  }

  lemma {:induction false} OneEligible(coin: Utxo, key: Key)
    requires Eligible(coin, key, true)
    ensures EligibleCoins([coin], key, true) == [coin]
  {
    assert [coin][..0] == [];
  }
}
