/**
 Greedy choice of wallet coins against a fee that grows with every coin chosen
 (backend/src/membership-gateway.ts, `selectWalletUtxos`, largest first; and the
 loop of `prepare` in backend/src/payment-gateway.ts, smallest first).
 */
module CoinSelection {
  import opened Wrappers
  import opened MembershipContract
  import opened Chain

  const INSUFFICIENT_FUNDS := "INSUFFICIENT_FUNDS"

  function Total(coins: seq<Utxo>): int {
    if coins == [] then 0 else Total(coins[..|coins| - 1]) + coins[|coins| - 1].output.value
  }

  /**
   The key's own coins; the membership gateway leaves out those bound to a
   covenant, the payment gateway does not look.
   */
  predicate Eligible(coin: Utxo, key: Key, anyBinding: bool) {
    (anyBinding || coin.output.binding.None?) && coin.output.script == PayToKey(key)
  }

  // ----- the stable sort ------------------------------------------------------

  predicate Precedes(a: Utxo, b: Utxo, descending: bool) {
    if descending then a.output.value > b.output.value else a.output.value < b.output.value
  }

  function InsertCoin(coin: Utxo, sorted: seq<Utxo>, descending: bool): (r: seq<Utxo>)
    ensures multiset(r) == multiset(sorted) + multiset{coin}
  {
    if sorted == [] then [coin]
    else
      var n := |sorted| - 1;
      assert sorted == sorted[..n] + [sorted[n]];
      if Precedes(coin, sorted[n], descending) then InsertCoin(coin, sorted[..n], descending) + [sorted[n]]
      else sorted + [coin]
  }

  function SortCoins(coins: seq<Utxo>, descending: bool): (r: seq<Utxo>)
    ensures multiset(r) == multiset(coins)
  {
    if coins == [] then []
    else
      var n := |coins| - 1;
      assert coins == coins[..n] + [coins[n]];
      InsertCoin(coins[n], SortCoins(coins[..n], descending), descending)
  }

  ghost predicate Ordered(coins: seq<Utxo>, descending: bool) {
    forall i, j :: 0 <= i < j < |coins| ==> !Precedes(coins[j], coins[i], descending)
  }

  lemma {:induction false} InsertKeepsOrder(coin: Utxo, sorted: seq<Utxo>, descending: bool)
    requires Ordered(sorted, descending)
    ensures Ordered(InsertCoin(coin, sorted, descending), descending)
  {
    if sorted != [] {
      var n := |sorted| - 1;
      if Precedes(coin, sorted[n], descending) {
        InsertKeepsOrder(coin, sorted[..n], descending);
        var front := InsertCoin(coin, sorted[..n], descending);
        forall i | 0 <= i < |front|
          ensures !Precedes(sorted[n], front[i], descending)
        {
          assert front[i] in multiset(front);
          assert front[i] == coin || front[i] in sorted[..n];
        }
      }
    }
  }

  lemma {:induction false} SortsInOrder(coins: seq<Utxo>, descending: bool)
    ensures Ordered(SortCoins(coins, descending), descending)
  {
    if coins != [] {
      SortsInOrder(coins[..|coins| - 1], descending);
      InsertKeepsOrder(coins[|coins| - 1], SortCoins(coins[..|coins| - 1], descending), descending);
    }
  }

  /** The coins worth this much, in order. */
  function OfValue(coins: seq<Utxo>, value: int): seq<Utxo> {
    if coins == [] then []
    else
      var n := |coins| - 1;
      OfValue(coins[..n], value) + (if coins[n].output.value == value then [coins[n]] else [])
  }

  lemma {:induction false} OfValueAdds(coins: seq<Utxo>, coin: Utxo, value: int)
    ensures OfValue(coins + [coin], value) == OfValue(coins, value) + (if coin.output.value == value then [coin] else [])
  {
    assert (coins + [coin])[..|coins|] == coins;
  }

  lemma {:induction false} InsertKeepsTies(coin: Utxo, sorted: seq<Utxo>, descending: bool, value: int)
    ensures OfValue(InsertCoin(coin, sorted, descending), value) ==
            OfValue(sorted, value) + (if coin.output.value == value then [coin] else [])
  {
    if sorted != [] && Precedes(coin, sorted[|sorted| - 1], descending) {
      var n := |sorted| - 1;
      var front, last := sorted[..n], sorted[n];
      InsertKeepsTies(coin, front, descending, value);
      var inserted := InsertCoin(coin, front, descending);
      OfValueAdds(inserted, last, value);
      assert InsertCoin(coin, sorted, descending) == inserted + [last];
      TiesSwap(OfValue(front, value), coin, last, value);
    } else {
      OfValueAdds(sorted, coin, value);
      InsertsLast(coin, sorted, descending);
    }
  }

  lemma {:induction false} InsertsLast(coin: Utxo, sorted: seq<Utxo>, descending: bool)
    requires sorted == [] || !Precedes(coin, sorted[|sorted| - 1], descending)
    ensures InsertCoin(coin, sorted, descending) == sorted + [coin]
  {
  }

  /** Of two coins of different values only one can be worth this much. */
  lemma {:induction false} TiesSwap(front: seq<Utxo>, a: Utxo, b: Utxo, value: int)
    requires a.output.value != b.output.value
    ensures var first := if a.output.value == value then [a] else [];
            var second := if b.output.value == value then [b] else [];
            front + first + second == front + second + first
  {
  }

  /** The sort is stable: coins of one value stay in the order they were listed in. */
  lemma {:induction false} SortKeepsTies(coins: seq<Utxo>, descending: bool, value: int)
    ensures OfValue(SortCoins(coins, descending), value) == OfValue(coins, value)
  {
    if coins != [] {
      var n := |coins| - 1;
      SortKeepsTies(coins[..n], descending, value);
      InsertKeepsTies(coins[n], SortCoins(coins[..n], descending), descending, value);
    }
  }

  // ----- the eligible coins, in order -----------------------------------------

  function EligibleCoins(coins: seq<Utxo>, key: Key, anyBinding: bool): (r: seq<Utxo>)
    ensures |r| <= |coins|
  {
    if coins == [] then []
    else
      var n := |coins| - 1;
      EligibleCoins(coins[..n], key, anyBinding) + (if Eligible(coins[n], key, anyBinding) then [coins[n]] else [])
  }

  lemma {:induction false} EligibleCoinsAre(coins: seq<Utxo>, key: Key, anyBinding: bool)
    ensures forall i :: 0 <= i < |EligibleCoins(coins, key, anyBinding)| ==> Eligible(EligibleCoins(coins, key, anyBinding)[i], key, anyBinding)
    ensures forall c :: multiset(EligibleCoins(coins, key, anyBinding))[c] == if Eligible(c, key, anyBinding) then multiset(coins)[c] else 0
  {
    if coins != [] {
      var n := |coins| - 1;
      EligibleCoinsAre(coins[..n], key, anyBinding);
      assert coins == coins[..n] + [coins[n]];
    }
  }

  lemma {:induction false} EligibleCoinsOrdered(coins: seq<Utxo>, key: Key, descending: bool, anyBinding: bool)
    requires Ordered(coins, descending)
    ensures Ordered(EligibleCoins(coins, key, anyBinding), descending)
  {
    if coins != [] {
      var n := |coins| - 1;
      EligibleCoinsOrdered(coins[..n], key, descending, anyBinding);
      EligibleCoinsAre(coins[..n], key, anyBinding);
      var front := EligibleCoins(coins[..n], key, anyBinding);
      forall i | 0 <= i < |front|
        ensures !Precedes(coins[n], front[i], descending)
      {
        assert front[i] in multiset(front);
        assert front[i] in multiset(coins[..n]);
      }
    }
  }

  // ----- the choice -----------------------------------------------------------

  predicate Covers(coins: seq<Utxo>, amount: int, feeFor: seq<Utxo> -> int) {
    Total(coins) >= amount + feeFor(coins)
  }

  /** The shortest covering prefix of at least `count` coins. */
  function FirstCover(coins: seq<Utxo>, count: nat, amount: int, feeFor: seq<Utxo> -> int): (r: Result<seq<Utxo>>)
    decreases |coins| - count
  {
    if count > |coins| then Err(INSUFFICIENT_FUNDS)
    else if Covers(coins[..count], amount, feeFor) then Ok(coins[..count])
    else FirstCover(coins, count + 1, amount, feeFor)
  }

  function Selection(utxos: seq<Utxo>, key: Key, amount: int, feeFor: seq<Utxo> -> int): Result<seq<Utxo>> {
    FirstCover(EligibleCoins(SortCoins(utxos, true), key, false), 1, amount, feeFor)
  }

  /** The loop of either gateway before its i-th coin: what it has selected does not cover yet. */
  ghost predicate Choosing(
    sorted: seq<Utxo>, key: Key, anyBinding: bool, amount: int, feeFor: seq<Utxo> -> int, i: nat, selected: seq<Utxo>, total: int)
  {
    var coins := EligibleCoins(sorted, key, anyBinding);
    && i <= |sorted| && selected == EligibleCoins(sorted[..i], key, anyBinding) && total == Total(selected)
    && FirstCover(coins, |selected| + 1, amount, feeFor) == FirstCover(coins, 1, amount, feeFor)
  }

  method SelectWalletUtxos(utxos: seq<Utxo>, key: Key, amount: int, feeFor: seq<Utxo> -> int)
    returns (r: Result<seq<Utxo>>)
    ensures r == Selection(utxos, key, amount, feeFor)
  {
    var selected: seq<Utxo> := [];
    var total := 0;
    var sorted := SortCoins(utxos, true);
    for i := 0 to |sorted|
      invariant Choosing(sorted, key, false, amount, feeFor, i, selected, total)
    {
      ChoosesNext(sorted, key, false, amount, feeFor, i, selected, total);
      if !Eligible(sorted[i], key, false) {
        continue;
      }
      selected := selected + [sorted[i]];
      total := total + sorted[i].output.value;
      if total >= amount + feeFor(selected) {
        return Ok(selected);
      }
    }
    ChoosesNothing(sorted, key, false, amount, feeFor, selected, total);
    r := Err(INSUFFICIENT_FUNDS);
  }

  lemma {:induction false} ChoosesNext(
    sorted: seq<Utxo>, key: Key, anyBinding: bool, amount: int, feeFor: seq<Utxo> -> int, i: nat, selected: seq<Utxo>, total: int)
    requires Choosing(sorted, key, anyBinding, amount, feeFor, i, selected, total) && i < |sorted|
    ensures !Eligible(sorted[i], key, anyBinding) ==>
              Choosing(sorted, key, anyBinding, amount, feeFor, i + 1, selected, total)
    ensures Eligible(sorted[i], key, anyBinding) ==>
              var more, sum := selected + [sorted[i]], total + sorted[i].output.value;
              && sum == Total(more)
              && if sum >= amount + feeFor(more) then FirstCover(EligibleCoins(sorted, key, anyBinding), 1, amount, feeFor) == Ok(more)
                 else Choosing(sorted, key, anyBinding, amount, feeFor, i + 1, more, sum)
  {
    EligiblePrefix(sorted, key, i, anyBinding);
    if Eligible(sorted[i], key, anyBinding) {
      NextEligible(sorted, key, i, anyBinding);
      CoverNext(EligibleCoins(sorted, key, anyBinding), selected + [sorted[i]], amount, feeFor);
    }
  }

  lemma {:induction false} ChoosesNothing(
    sorted: seq<Utxo>, key: Key, anyBinding: bool, amount: int, feeFor: seq<Utxo> -> int, selected: seq<Utxo>, total: int)
    requires Choosing(sorted, key, anyBinding, amount, feeFor, |sorted|, selected, total)
    ensures FirstCover(EligibleCoins(sorted, key, anyBinding), 1, amount, feeFor) == Err(INSUFFICIENT_FUNDS)
  {
    assert sorted[..|sorted|] == sorted;
  }

  /** Taking the next coin either covers, and is the choice, or leaves it to the coins behind. */
  lemma {:induction false} CoverNext(coins: seq<Utxo>, more: seq<Utxo>, amount: int, feeFor: seq<Utxo> -> int)
    requires |more| <= |coins| && coins[..|more|] == more
    ensures FirstCover(coins, |more|, amount, feeFor) ==
            if Total(more) >= amount + feeFor(more) then Ok(more) else FirstCover(coins, |more| + 1, amount, feeFor)
  {
  }

  lemma {:induction false} EligiblePrefix(coins: seq<Utxo>, key: Key, count: nat, anyBinding: bool)
    requires count <= |coins|
    ensures EligibleCoins(coins[..count], key, anyBinding) <= EligibleCoins(coins, key, anyBinding)
    ensures count < |coins| ==>
              EligibleCoins(coins[..count + 1], key, anyBinding) ==
              EligibleCoins(coins[..count], key, anyBinding) + (if Eligible(coins[count], key, anyBinding) then [coins[count]] else [])
    ensures count < |coins| ==> EligibleCoins(coins[..count + 1], key, anyBinding) <= EligibleCoins(coins, key, anyBinding)
    decreases |coins| - count
  {
    if count < |coins| {
      assert coins[..count + 1][..count] == coins[..count];
      EligiblePrefix(coins, key, count + 1, anyBinding);
    } else {
      assert coins[..count] == coins;
    }
  }

  /** The loop's next coin, if it is eligible, is the next of the eligible coins. */
  lemma {:induction false} NextEligible(sorted: seq<Utxo>, key: Key, i: nat, anyBinding: bool)
    requires i < |sorted| && Eligible(sorted[i], key, anyBinding)
    ensures var selected, coins := EligibleCoins(sorted[..i], key, anyBinding), EligibleCoins(sorted, key, anyBinding);
            var more := selected + [sorted[i]];
            && more == EligibleCoins(sorted[..i + 1], key, anyBinding) && |more| <= |coins| && coins[..|more|] == more
            && Total(more) == Total(selected) + sorted[i].output.value
  {
    EligiblePrefix(sorted, key, i, anyBinding);
    var selected := EligibleCoins(sorted[..i], key, anyBinding);
    assert (selected + [sorted[i]])[..|selected|] == selected;
  }

  // ----- soundness, completeness, minimality ----------------------------------

  ghost predicate PickOf(pick: seq<Utxo>, utxos: seq<Utxo>, key: Key, anyBinding: bool) {
    multiset(pick) <= multiset(utxos) && forall i :: 0 <= i < |pick| ==> Eligible(pick[i], key, anyBinding)
  }

  /** The estimate sees how many coins there are, not which. */
  ghost predicate ByCount(feeFor: seq<Utxo> -> int, fee: nat -> int) {
    forall coins :: feeFor(coins) == fee(|coins|)
  }

  lemma {:induction false} FirstCoverIs(coins: seq<Utxo>, count: nat, amount: int, feeFor: seq<Utxo> -> int)
    ensures var r := FirstCover(coins, count, amount, feeFor);
            match r
            case Ok(chosen) =>
              && count <= |chosen| <= |coins| && chosen == coins[..|chosen|]
              && Covers(chosen, amount, feeFor)
              && forall k :: count <= k < |chosen| ==> !Covers(coins[..k], amount, feeFor)
            case Err(_) => forall k :: count <= k <= |coins| ==> !Covers(coins[..k], amount, feeFor)
    decreases |coins| - count
  {
    if count <= |coins| && !Covers(coins[..count], amount, feeFor) {
      FirstCoverIs(coins, count + 1, amount, feeFor);
    }
  }

  /** A successful choice is a non-empty pick of eligible coins that covers its own fee. */
  lemma {:induction false} SelectionCovers(utxos: seq<Utxo>, key: Key, amount: int, feeFor: seq<Utxo> -> int)
    requires Selection(utxos, key, amount, feeFor).Ok?
    ensures var chosen := Selection(utxos, key, amount, feeFor).value;
            chosen != [] && PickOf(chosen, utxos, key, false) && Covers(chosen, amount, feeFor)
  {
    var sorted := SortCoins(utxos, true);
    var coins := EligibleCoins(sorted, key, false);
    FirstCoverIs(coins, 1, amount, feeFor);
    EligibleCoinsAre(sorted, key, false);
    var chosen := Selection(utxos, key, amount, feeFor).value;
    assert coins == chosen + coins[|chosen|..];
  }

  /**
   Whenever any non-empty pick of eligible coins covers its own fee, the choice
   succeeds, with no more coins than that pick.
   */
  lemma {:induction false} SelectionIsMinimal(
    utxos: seq<Utxo>, key: Key, amount: int, feeFor: seq<Utxo> -> int, fee: nat -> int,
    pick: seq<Utxo>)
    requires ByCount(feeFor, fee) && PickOf(pick, utxos, key, false) && pick != []
    requires Covers(pick, amount, feeFor)
    ensures Selection(utxos, key, amount, feeFor).Ok?
    ensures |Selection(utxos, key, amount, feeFor).value| <= |pick|
  {
    var coins := EligibleCoins(SortCoins(utxos, true), key, false);
    LargestOfWallet(utxos, key, pick, false);
    FirstCoverIs(coins, 1, amount, feeFor);
    assert Covers(coins[..|pick|], amount, feeFor);
  }

  lemma {:induction false} LargestOfWallet(utxos: seq<Utxo>, key: Key, pick: seq<Utxo>, anyBinding: bool)
    requires PickOf(pick, utxos, key, anyBinding)
    ensures var coins := EligibleCoins(SortCoins(utxos, true), key, anyBinding);
            |pick| <= |coins| && Total(pick) <= Total(coins[..|pick|])
  {
    SortsInOrder(utxos, true);
    EligibleCoinsOrdered(SortCoins(utxos, true), key, true, anyBinding);
    PickAmongEligible(utxos, key, pick, true, anyBinding);
    LargestDominate(EligibleCoins(SortCoins(utxos, true), key, anyBinding), pick);
  }

  lemma {:induction false} PickAmongEligible(utxos: seq<Utxo>, key: Key, pick: seq<Utxo>, descending: bool, anyBinding: bool)
    requires PickOf(pick, utxos, key, anyBinding)
    ensures multiset(pick) <= multiset(EligibleCoins(SortCoins(utxos, descending), key, anyBinding))
  {
    EligibleCoinsAre(SortCoins(utxos, descending), key, anyBinding);
    forall c
      ensures multiset(pick)[c] > 0 ==> Eligible(c, key, anyBinding)
    {
      if multiset(pick)[c] > 0 {
        var i :| 0 <= i < |pick| && pick[i] == c;
      }
    }
  }

  /** Of all picks of one size, the largest coins together are worth the most. */
  lemma {:induction false} LargestDominate(coins: seq<Utxo>, pick: seq<Utxo>)
    requires Ordered(coins, true) && multiset(pick) <= multiset(coins)
    ensures |pick| <= |coins| && Total(pick) <= Total(coins[..|pick|])
    decreases |pick|
  {
    PickFits(coins, pick);
    if pick != [] {
      var best, rest := coins[0], coins[1..];
      var i := if best in pick then IndexOf(pick, best) else 0;
      var others := pick[..i] + pick[i + 1..];
      Without(pick, i);
      OthersAmongRest(coins, pick, i, others);
      LargestDominate(rest, others);
      FirstAndRest(coins[..|pick|]);
      assert coins[..|pick|][1..] == rest[..|others|];
    }
  }

  /** Without the best coin, or any if it is not picked, the pick is among the rest, and what went is no better. */
  lemma {:induction false} OthersAmongRest(coins: seq<Utxo>, pick: seq<Utxo>, i: nat, others: seq<Utxo>)
    requires Ordered(coins, true) && multiset(pick) <= multiset(coins) && coins != [] && i < |pick|
    requires (coins[0] in pick ==> pick[i] == coins[0]) && others == pick[..i] + pick[i + 1..]
    ensures multiset(others) <= multiset(coins[1..]) && pick[i].output.value <= coins[0].output.value
  {
    var best, rest := coins[0], coins[1..];
    assert coins == [best] + rest;
    Without(pick, i);
    assert pick[i] in multiset(pick);
    assert pick[i] in multiset(coins);
    var at :| 0 <= at < |coins| && coins[at] == pick[i];
    assert at > 0 ==> !Precedes(coins[at], coins[0], true);
    assert multiset(coins) == multiset{best} + multiset(rest);
    assert best !in pick ==> multiset(pick)[best] == 0;
    Removed(multiset(pick), multiset(coins), multiset(others), multiset(rest), best, pick[i]);
  }

  lemma {:induction false} Removed(
    pick: multiset<Utxo>, coins: multiset<Utxo>, others: multiset<Utxo>, rest: multiset<Utxo>, best: Utxo, gone: Utxo)
    requires pick <= coins && coins == multiset{best} + rest && pick == others + multiset{gone}
    requires gone == best || pick[best] == 0
    ensures others <= rest
  {
    forall c
      ensures others[c] <= rest[c]
    {
      assert pick[c] <= coins[c];
    }
  }

  lemma {:induction false} PickFits(coins: seq<Utxo>, pick: seq<Utxo>)
    requires multiset(pick) <= multiset(coins)
    ensures |pick| <= |coins|
  {
    var left := multiset(coins) - multiset(pick);
    assert multiset(coins) == multiset(pick) + left;
    assert |multiset(coins)| == |multiset(pick)| + |left|;
  }

  function IndexOf(coins: seq<Utxo>, coin: Utxo): (i: nat)
    requires coin in coins
    ensures i < |coins| && coins[i] == coin
  {
    if coins[0] == coin then 0 else 1 + IndexOf(coins[1..], coin)
  }

  lemma {:induction false} Without(pick: seq<Utxo>, i: nat)
    requires i < |pick|
    ensures multiset(pick) == multiset(pick[..i] + pick[i + 1..]) + multiset{pick[i]}
    ensures Total(pick) == Total(pick[..i] + pick[i + 1..]) + pick[i].output.value
  {
    assert pick == pick[..i] + [pick[i]] + pick[i + 1..];
    TotalAdds(pick[..i], [pick[i]]);
    TotalAdds(pick[..i] + [pick[i]], pick[i + 1..]);
    TotalAdds(pick[..i], pick[i + 1..]);
  }

  lemma {:induction false} FirstAndRest(coins: seq<Utxo>)
    requires coins != []
    ensures Total(coins) == coins[0].output.value + Total(coins[1..])
  {
    assert coins == [coins[0]] + coins[1..];
    TotalAdds([coins[0]], coins[1..]);
  }

  lemma {:induction false} TotalAdds(left: seq<Utxo>, right: seq<Utxo>)
    ensures Total(left + right) == Total(left) + Total(right)
  {
    if right == [] {
      assert left + right == left;
    } else {
      var n := |right| - 1;
      assert (left + right)[..|left + right| - 1] == left + right[..n];
      TotalAdds(left, right[..n]);
    }
  }
}
