/** When a post payment can be prepared, in terms of the buyer's coins alone. */
module PaymentConditions {
  import opened Wrappers
  import opened MembershipContract
  import opened JsonText
  import opened Chain
  import opened Fees
  import opened CoinSelection
  import opened PaymentGateway
  import opened PaymentProofs

  /** The wallet's coins that pay this key. */
  function CoinsOf(wallet: seq<Utxo>, key: Key): (r: seq<Utxo>)
    ensures forall i :: 0 <= i < |r| ==> r[i] in wallet && r[i].output.script == PayToKey(key)
    ensures forall coin :: coin in wallet && coin.output.script == PayToKey(key) ==> coin in r
  {
    if wallet == [] then []
    else
      var n := |wallet| - 1;
      CoinsOf(wallet[..n], key) + (if wallet[n].output.script == PayToKey(key) then [wallet[n]] else [])
  }

  lemma {:induction false} CoinsAreEligible(wallet: seq<Utxo>, key: Key)
    ensures CoinsOf(wallet, key) == EligibleCoins(wallet, key, true)
  {
    if wallet != [] {
      CoinsAreEligible(wallet[..|wallet| - 1], key);
    }
  }

  lemma {:induction false} SortedCoins(wallet: seq<Utxo>, key: Key)
    ensures multiset(Ascending(wallet, key)) == multiset(CoinsOf(wallet, key))
    ensures |Ascending(wallet, key)| == |CoinsOf(wallet, key)| && Total(Ascending(wallet, key)) == Total(CoinsOf(wallet, key))
    ensures Ordered(Ascending(wallet, key), false)
  {
    var coins, own := Ascending(wallet, key), CoinsOf(wallet, key);
    CoinsAreEligible(wallet, key);
    EligibleCoinsAre(SortCoins(wallet, false), key, true);
    EligibleCoinsAre(wallet, key, true);
    assert multiset(coins) == multiset(own);
    SameTotals(coins, own);
    SortsInOrder(wallet, false);
    EligibleCoinsOrdered(SortCoins(wallet, false), key, false, true);
  }

  /** None of the coins is worth less. */
  ghost predicate IsSmallest(coins: seq<Utxo>, i: nat)
    requires i < |coins|
  {
    forall j :: 0 <= j < |coins| ==> coins[i].output.value <= coins[j].output.value
  }

  lemma {:induction false} SmallestIsFirst(sorted: seq<Utxo>, own: seq<Utxo>, i: nat)
    requires multiset(sorted) == multiset(own) && Ordered(sorted, false) && i < |own| && IsSmallest(own, i)
    ensures sorted != [] && sorted[0].output.value == own[i].output.value
  {
    assert own[i] in multiset(sorted);
    var at :| 0 <= at < |sorted| && sorted[at] == own[i];
    assert at > 0 ==> !Precedes(sorted[at], sorted[0], false);
    assert sorted[0] in multiset(own);
    var j :| 0 <= j < |own| && own[j] == sorted[0];
  }

  lemma {:induction false} FirstIsSmallest(sorted: seq<Utxo>, own: seq<Utxo>) returns (i: nat)
    requires multiset(sorted) == multiset(own) && Ordered(sorted, false) && sorted != []
    ensures i < |own| && IsSmallest(own, i)
  {
    assert sorted[0] in multiset(own);
    i :| 0 <= i < |own| && own[i] == sorted[0];
    forall j | 0 <= j < |own|
      ensures own[i].output.value <= own[j].output.value
    {
      assert own[j] in multiset(sorted);
      var at :| 0 <= at < |sorted| && sorted[at] == own[j];
      assert at > 0 ==> !Precedes(sorted[at], sorted[0], false);
    }
  }

  /** The network fee for so many coins: two outputs and change, or three with a platform fee, in grams. */
  function PaymentCost(price: int, payload: Text, rate: real, coins: nat): int
    requires rate > 0.0
  {
    FeeOfMass(94 + 5_120 * coins + 412 * (if price >= 9_999_999_950 then 3 else 2) + |payload| / 2, rate)
  }

  lemma {:induction false} CostIsFee(post: Post, payload: Text, rate: real, coins: nat)
    requires rate > 0.0
    ensures FeeOf(TermsOf(post, payload), rate, coins) == PaymentCost(post.priceSompi, payload, rate, coins)
  {
    FeeFormulasAgree(post.priceSompi);
  }

  lemma {:induction false} OneCoin(coins: seq<Utxo>)
    requires coins != []
    ensures |coins[..1]| == 1 && Total(coins[..1]) == coins[0].output.value
  {
    assert coins[..1] == [coins[0]] && [coins[0]][..0] == [];
  }

  /**
   A payment is prepared exactly when the price is not negative, the rate is
   positive, and the buyer's smallest coin alone, or all of the buyer's coins
   together, cover the price and the fee for so many coins.
   */
  lemma {:induction false} PaymentPreparedWhen(
    wallet: seq<Utxo>, rate: real, platform: Key, post: Post, buyer: Key, payload: Text)
    ensures PaymentFor(wallet, rate, platform, post, buyer, payload).Ok? <==>
            && post.priceSompi >= 0 && rate > 0.0
            && var own, price := CoinsOf(wallet, buyer), post.priceSompi;
               || (exists i :: 0 <= i < |own| && IsSmallest(own, i)
                               && own[i].output.value >= price + PaymentCost(price, payload, rate, 1))
               || (own != [] && Total(own) >= price + PaymentCost(price, payload, rate, |own|))
  {
    if post.priceSompi >= 0 && rate > 0.0 {
      var terms, own, coins := TermsOf(post, payload), CoinsOf(wallet, buyer), Ascending(wallet, buyer);
      SortedCoins(wallet, buyer);
      SmallestOrAll(wallet, buyer, terms, rate);
      CostIsFee(post, payload, rate, 1);
      CostIsFee(post, payload, rate, |own|);
      if coins != [] {
        OneCoin(coins);
        var first := FirstIsSmallest(coins, own);
        SmallestIsFirst(coins, own, first);
        forall i | 0 <= i < |own| && IsSmallest(own, i)
          ensures own[i].output.value == coins[0].output.value
        {
          SmallestIsFirst(coins, own, i);
        }
      }
      SelectionDecides(wallet, rate, platform, post, buyer, payload);
    }
  }

  lemma {:induction false} SelectionDecides(
    wallet: seq<Utxo>, rate: real, platform: Key, post: Post, buyer: Key, payload: Text)
    requires post.priceSompi >= 0 && rate > 0.0
    ensures PaymentFor(wallet, rate, platform, post, buyer, payload).Ok? <==>
            PaymentSelection(wallet, buyer, TermsOf(post, payload), rate).Ok?
  {
  }
}
