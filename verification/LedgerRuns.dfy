/** Safety of whole ledger runs: covenant families, memberships and revenue. */
module LedgerRuns {
  import opened Wrappers
  import opened MembershipContract
  import opened Chain
  import opened Fees
  import opened Covenant
  import opened Ledger
  import opened LedgerInvariants

  ghost predicate Reachable(l: Ledger) {
    Reaches(EMPTY, l)
  }

  lemma {:induction false} RunKeepsInv(run: seq<Ledger>, n: nat)
    requires IsRun(run) && Inv(run[0]) && n < |run|
    ensures Inv(run[n]) && Extends(run[0], run[n])
  {
    if n > 0 {
      RunKeepsInv(run, n - 1);
      assert Step(run[n - 1], run[n - 1 + 1]);
      StepExtends(run[n - 1], run[n]);
      InvKept(run[n - 1], run[n]);
    }
  }

  lemma {:induction false} RunKeepsFamily(run: seq<Ledger>, n: nat, family: CovenantId, creator: Key, platform: Key)
    requires IsRun(run) && Inv(run[0]) && n < |run| && IsOffer(family, creator, platform)
    requires FamilyInv(run[0], family, creator, platform)
    ensures FamilyInv(run[n], family, creator, platform)
  {
    if n > 0 {
      RunKeepsFamily(run, n - 1, family, creator, platform);
      RunKeepsInv(run, n - 1);
      assert Step(run[n - 1], run[n - 1 + 1]);
      FamilyKept(run[n - 1], run[n], family, creator, platform);
    }
  }

  /**
   In every reachable state, an offer's family has kept its creator and platform,
   has exactly one unspent minter from its offer to its cancellation, and none after.
   */
  lemma {:induction false} OfferFamilies(l: Ledger, family: CovenantId, creator: Key, platform: Key)
    requires Reachable(l) && IsOffer(family, creator, platform)
    ensures Inv(l) && FamilyInv(l, family, creator, platform)
  {
    var run :| IsRun(run) && run[0] == EMPTY && run[|run| - 1] == l;
    RunKeepsInv(run, |run| - 1);
    RunKeepsFamily(run, |run| - 1, family, creator, platform);
  }

  /** After a cancellation no acceptable transaction, so no mint, spends the family. */
  lemma {:induction false} NothingFollowsACancel(l: Ledger, family: CovenantId, creator: Key, platform: Key, id: TxId, tx: Tx)
    requires Reachable(l) && IsOffer(family, creator, platform)
    requires Cancelled(l, family) && Acceptable(l, id, tx)
    ensures tx.inputs != [] ==> !InFamily(l, tx.inputs[0], family)
  {
    OfferFamilies(l, family, creator, platform);
    if tx.inputs != [] && InFamily(l, tx.inputs[0], family) {
      SpendsSoleMinter(l, id, tx, family, creator, platform);
    }
  }

  // ----- memberships are never spent ------------------------------------------

  /** An unspent covenant output in a state that no entry accepts. */
  ghost predicate HeldMembership(l: Ledger, at: Outpoint) {
    && at in l.unspent && Exists(l, at)
    && OutputAt(l, at).binding.Some? && OutputAt(l, at).script.PayToCovenant?
    && !OutputAt(l, at).script.state.isMinter
  }

  lemma {:induction false} MembershipStays(l: Ledger, next: Ledger, at: Outpoint)
    requires Inv(l) && Step(l, next) && HeldMembership(l, at)
    ensures HeldMembership(next, at) && OutputAt(next, at) == OutputAt(l, at)
  {
    if id, tx :| Acceptable(l, id, tx) && next == Accept(l, id, tx) {
      MembershipNotSpent(l, id, tx, at);
    }
  }

  lemma {:induction false} MembershipNotSpent(l: Ledger, id: TxId, tx: Tx, at: Outpoint)
    requires Acceptable(l, id, tx) && HeldMembership(l, at)
    ensures at !in Consumed(tx)
  {
    var spent := Spent(l, tx);
    forall i | 0 <= i < |tx.inputs|
      ensures tx.inputs[i] != at
    {
      if i > 0 {
        assert spent[i].binding.None?;
      } else {
        MinterIsSpent(tx, spent);
      }
    }
  }

  lemma {:induction false} MinterIsSpent(tx: Tx, spent: seq<Output>)
    requires CovenantHolds(tx, spent)
    ensures Holding(spent).Some? ==> Holding(spent).value.1.isMinter
  {
    if Holding(spent).Some? {
      OnlyMintersMove(tx, spent, Holding(spent).value.1, Holding(spent).value.0);
    }
  }

  lemma {:induction false} MembershipStaysAlong(run: seq<Ledger>, n: nat, at: Outpoint)
    requires IsRun(run) && Inv(run[0]) && n < |run| && HeldMembership(run[0], at)
    ensures HeldMembership(run[n], at) && OutputAt(run[n], at) == OutputAt(run[0], at)
  {
    if n > 0 {
      MembershipStaysAlong(run, n - 1, at);
      RunKeepsInv(run, n - 1);
      assert Step(run[n - 1], run[n - 1 + 1]);
      MembershipStays(run[n - 1], run[n], at);
    }
  }

  /** A membership once on the chain is there, unspent and unchanged, ever after. */
  lemma {:induction false} MembershipIsForever(l: Ledger, later: Ledger, at: Outpoint)
    requires Inv(l) && Reaches(l, later) && HeldMembership(l, at)
    ensures Inv(later) && Extends(l, later)
    ensures HeldMembership(later, at) && OutputAt(later, at) == OutputAt(l, at)
  {
    var run :| IsRun(run) && run[0] == l && run[|run| - 1] == later;
    RunKeepsInv(run, |run| - 1);
    MembershipStaysAlong(run, |run| - 1, at);
  }

  // ----- revenue --------------------------------------------------------------

  /** The accepted transaction minted a membership of the family. */
  ghost predicate MintsIn(l: Ledger, txid: TxId, family: CovenantId)
    requires Inv(l) && txid in l.accepted
  {
    var tx := l.accepted[txid].tx;
    && tx.inputs != [] && InFamily(l, tx.inputs[0], family) && OutputAt(l, tx.inputs[0]).script.PayToCovenant?
    && tx.entry.Some? && tx.entry.value.Mint?
  }

  /** Every accepted mint obeyed the mint entry. */
  lemma {:induction false} MintsAreLawful(l: Ledger, txid: TxId, family: CovenantId)
    requires Inv(l) && txid in l.accepted && MintsIn(l, txid, family)
    ensures var tx := l.accepted[txid].tx;
            InputsExist(l, tx) && MintHolds(tx, Spent(l, tx), OutputAt(l, tx.inputs[0]).script.state, family)
  {
    var tx := l.accepted[txid].tx;
    assert Lawful(l, txid);
    assert Holding(Spent(l, tx)) == Some((family, OutputAt(l, tx.inputs[0]).script.state));
  }

  /** What a mint's payment outputs carry to the creator and the platform. */
  ghost function PaidBy(l: Ledger, txid: TxId, family: CovenantId): int
    requires Inv(l) && txid in l.accepted
  {
    if MintsIn(l, txid, family) then
      MintsAreLawful(l, txid, family);
      var tx := l.accepted[txid].tx;
      var e, fee := tx.entry.value, ContractPlatformPayment(OutputAt(l, tx.inputs[0]).script.state.priceSompi);
      tx.outputs[e.payment].value + (if fee > 0 then tx.outputs[e.platform].value else 0)
    else 0
  }

  ghost function PriceOf(l: Ledger, txid: TxId, family: CovenantId): int
    requires Inv(l) && txid in l.accepted
  {
    if MintsIn(l, txid, family) then l.accepted[txid].tx.entry.value.member.priceSompi else 0
  }

  ghost function Revenue(l: Ledger, family: CovenantId, n: nat): int
    requires Inv(l) && n <= |l.log|
  {
    if n == 0 then 0 else assert l.log[n - 1] in l.log; Revenue(l, family, n - 1) + PaidBy(l, l.log[n - 1], family)
  }

  ghost function Prices(l: Ledger, family: CovenantId, n: nat): int
    requires Inv(l) && n <= |l.log|
  {
    if n == 0 then 0 else assert l.log[n - 1] in l.log; Prices(l, family, n - 1) + PriceOf(l, l.log[n - 1], family)
  }

  /** A mint pays the family's own creator and platform. */
  lemma {:induction false} MintPaysItsTerms(l: Ledger, txid: TxId, family: CovenantId, creator: Key, platform: Key)
    requires Inv(l) && FamilyInv(l, family, creator, platform) && txid in l.accepted && MintsIn(l, txid, family)
    ensures var tx := l.accepted[txid].tx;
            var e := tx.entry.value;
            var fee := ContractPlatformPayment(e.member.priceSompi);
            && PaysAt(tx, e.payment, PayToKey(creator), e.member.priceSompi - fee)
            && (fee > 0 ==> PaysAt(tx, e.platform, PayToKey(platform), fee) && e.platform != e.payment)
            && PaidBy(l, txid, family) == e.member.priceSompi
  {
    MintsAreLawful(l, txid, family);
    var tx := l.accepted[txid].tx;
    MintPaymentsAreDistinct(tx, Spent(l, tx), OutputAt(l, tx.inputs[0]).script.state, family);
  }

  lemma {:induction false} RevenueUpTo(l: Ledger, family: CovenantId, creator: Key, platform: Key, n: nat)
    requires Inv(l) && FamilyInv(l, family, creator, platform) && n <= |l.log|
    ensures Revenue(l, family, n) == Prices(l, family, n)
  {
    if n > 0 {
      RevenueUpTo(l, family, creator, platform, n - 1);
      assert l.log[n - 1] in l.log;
      if MintsIn(l, l.log[n - 1], family) {
        MintPaysItsTerms(l, l.log[n - 1], family, creator, platform);
      }
    }
  }

  /** Over every run, creator and platform together received the price of every membership. */
  lemma {:induction false} RevenueIsThePrices(l: Ledger, family: CovenantId, creator: Key, platform: Key)
    requires Reachable(l) && IsOffer(family, creator, platform)
    ensures Inv(l) && Revenue(l, family, |l.log|) == Prices(l, family, |l.log|)
  {
    OfferFamilies(l, family, creator, platform);
    RevenueUpTo(l, family, creator, platform, |l.log|);
  }
}
