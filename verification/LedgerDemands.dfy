/**
 What the chain demanded of every transaction it ever accepted, in its own terms:
 amounts, bounds and keys as the contract writes them (backend/contracts/membership.sil).
 */
module LedgerDemands {
  import opened Wrappers
  import opened MembershipContract
  import opened Chain
  import opened Fees
  import opened Covenant
  import opened Ledger
  import opened LedgerInvariants
  import opened LedgerRuns

  // ----- unspent means never spent --------------------------------------------

  /** Some accepted transaction spent the output. */
  ghost predicate SpentOn(l: Ledger, at: Outpoint) {
    exists id :: id in l.accepted && at in l.accepted[id].tx.inputs
  }

  ghost predicate Balanced(l: Ledger, id: TxId)
    requires id in l.accepted
  {
    var tx := l.accepted[id].tx;
    && InputsExist(l, tx)
    && (forall i, j :: 0 <= i < j < |tx.inputs| ==> tx.inputs[i] != tx.inputs[j])
    && (tx.inputs != [] ==> ValueOf(tx.outputs) <= ValueOf(Spent(l, tx)))
  }

  ghost predicate SpendsOnce(l: Ledger) {
    forall id, other, at ::
      id in l.accepted && other in l.accepted && at in l.accepted[id].tx.inputs && at in l.accepted[other].tx.inputs
      ==> id == other
  }

  ghost predicate Books(l: Ledger) {
    && Inv(l) && SpendsOnce(l)
    && (forall id :: id in l.accepted ==> Balanced(l, id))
    && (forall at :: at in l.unspent <==> Exists(l, at) && !SpentOn(l, at))
  }

  lemma {:induction false} AcceptSpends(l: Ledger, id: TxId, tx: Tx, at: Outpoint)
    requires Acceptable(l, id, tx)
    ensures SpentOn(Accept(l, id, tx), at) <==> SpentOn(l, at) || at in tx.inputs
  {
    var next := Accept(l, id, tx);
    if SpentOn(l, at) {
      var other :| other in l.accepted && at in l.accepted[other].tx.inputs;
      assert other in next.accepted && next.accepted[other] == l.accepted[other];
    }
    assert id in next.accepted && next.accepted[id].tx == tx;
  }

  lemma {:induction false} SpentExists(l: Ledger, at: Outpoint)
    requires Inv(l) && SpentOn(l, at)
    ensures Exists(l, at)
  {
    var id :| id in l.accepted && at in l.accepted[id].tx.inputs;
    assert Lawful(l, id);
    var i :| 0 <= i < |l.accepted[id].tx.inputs| && l.accepted[id].tx.inputs[i] == at;
    assert InputsExist(l, l.accepted[id].tx);
  }

  lemma {:induction false} UnspentAfter(l: Ledger, id: TxId, tx: Tx, at: Outpoint)
    requires Books(l) && Acceptable(l, id, tx)
    ensures var next := Accept(l, id, tx);
            at in next.unspent <==> Exists(next, at) && !SpentOn(next, at)
  {
    AcceptSpends(l, id, tx, at);
    assert at in Consumed(tx) <==> at in tx.inputs;
    assert at in tx.inputs ==> Exists(l, at);
    if SpentOn(l, at) {
      SpentExists(l, at);
    }
    assert at in Created(id, tx) <==> at.transactionId == id && at.index < |tx.outputs| by {
      if at.transactionId == id && at.index < |tx.outputs| {
        assert at == Outpoint(id, at.index);
      }
    }
  }

  lemma {:induction false} AcceptSpendsOnce(l: Ledger, id: TxId, tx: Tx)
    requires Books(l) && Acceptable(l, id, tx)
    ensures SpendsOnce(Accept(l, id, tx))
  {
    forall at | at in tx.inputs
      ensures !SpentOn(l, at)
    {
      assert at in l.unspent;
    }
  }

  lemma {:induction false} BalanceStays(l: Ledger, next: Ledger, id: TxId)
    requires Extends(l, next) && id in l.accepted && Balanced(l, id)
    ensures Balanced(next, id)
  {
    ExtendedSpent(l, next, l.accepted[id].tx);
  }

  lemma {:induction false} AcceptKeepsBooks(l: Ledger, id: TxId, tx: Tx)
    requires Books(l) && Acceptable(l, id, tx)
    ensures Books(Accept(l, id, tx))
  {
    var next := Accept(l, id, tx);
    assert Step(l, next);
    StepExtends(l, next);
    InvKept(l, next);
    AcceptSpendsOnce(l, id, tx);
    ExtendedSpent(l, next, tx);
    assert Balanced(next, id);
    forall other | other in l.accepted
      ensures Balanced(next, other)
    {
      BalanceStays(l, next, other);
    }
    forall at
      ensures at in next.unspent <==> Exists(next, at) && !SpentOn(next, at)
    {
      UnspentAfter(l, id, tx, at);
    }
  }

  lemma {:induction false} QuietKeepsBooks(l: Ledger, next: Ledger)
    requires Books(l) && Inv(next) && next.accepted == l.accepted && next.unspent == l.unspent && l.daa <= next.daa
    ensures Books(next)
  {
    forall other | other in l.accepted
      ensures Balanced(next, other)
    {
      BalanceStays(l, next, other);
    }
    forall at
      ensures at in next.unspent <==> Exists(next, at) && !SpentOn(next, at)
    {
      assert at in l.unspent <==> Exists(l, at) && !SpentOn(l, at);
      assert SpentOn(next, at) <==> SpentOn(l, at);
    }
  }

  lemma {:induction false} StepKeepsBooks(l: Ledger, next: Ledger)
    requires Books(l) && Step(l, next)
    ensures Books(next)
  {
    if id, tx :| Acceptable(l, id, tx) && next == Accept(l, id, tx) {
      AcceptKeepsBooks(l, id, tx);
    } else {
      InvKept(l, next);
      QuietKeepsBooks(l, next);
    }
  }

  lemma {:induction false} RunKeepsBooks(run: seq<Ledger>, n: nat)
    requires IsRun(run) && Books(run[0]) && n < |run|
    ensures Books(run[n])
  {
    if n > 0 {
      RunKeepsBooks(run, n - 1);
      assert Step(run[n - 1], run[n - 1 + 1]);
      StepKeepsBooks(run[n - 1], run[n]);
    }
  }

  lemma {:induction false} ReachableBooks(l: Ledger)
    requires Reachable(l)
    ensures Books(l)
  {
    var run :| IsRun(run) && run[0] == EMPTY && run[|run| - 1] == l;
    assert Books(EMPTY);
    RunKeepsBooks(run, |run| - 1);
  }

  /**
   In every reachable chain an output is unspent exactly when no accepted
   transaction spends it, no two accepted transactions, nor two inputs of one,
   spend the same output, and none with inputs pays out more than it spends.
   */
  lemma {:induction false} NothingIsSpentTwice(l: Ledger)
    requires Reachable(l)
    ensures forall at :: at in l.unspent <==>
              Exists(l, at) && !exists id :: id in l.accepted && at in l.accepted[id].tx.inputs
    ensures forall id, other, i, j ::
              && id in l.accepted && other in l.accepted
              && 0 <= i < |l.accepted[id].tx.inputs| && 0 <= j < |l.accepted[other].tx.inputs|
              && l.accepted[id].tx.inputs[i] == l.accepted[other].tx.inputs[j]
              ==> id == other && i == j
    ensures forall id :: id in l.accepted ==>
              && InputsExist(l, l.accepted[id].tx)
              && (l.accepted[id].tx.inputs != [] ==> ValueOf(l.accepted[id].tx.outputs) <= ValueOf(Spent(l, l.accepted[id].tx)))
              && l.accepted[id].tx.lockTime <= l.accepted[id].daa <= l.daa
  {
    ReachableBooks(l);
    forall at
      ensures at in l.unspent <==> Exists(l, at) && !exists id :: id in l.accepted && at in l.accepted[id].tx.inputs
    {
      assert SpentOn(l, at) <==> exists id :: id in l.accepted && at in l.accepted[id].tx.inputs;
    }
    forall id, other, i, j | id in l.accepted && other in l.accepted
                             && 0 <= i < |l.accepted[id].tx.inputs| && 0 <= j < |l.accepted[other].tx.inputs|
                             && l.accepted[id].tx.inputs[i] == l.accepted[other].tx.inputs[j]
      ensures id == other && i == j
    {
      assert l.accepted[id].tx.inputs[i] in l.accepted[other].tx.inputs;
      assert Balanced(l, id);
    }
    forall id | id in l.accepted
      ensures Balanced(l, id) && Lawful(l, id)
    {
    }
  }

  // ----- what each entry asks for ---------------------------------------------

  /** The outputs the first input vouches for in this covenant are these, in this order. */
  ghost predicate Bound(tx: Tx, id: CovenantId, at: seq<nat>) {
    && (forall k :: 0 <= k < |at| ==> at[k] < |tx.outputs|)
    && (forall i, k :: 0 <= i < k < |at| ==> at[i] < at[k])
    && forall j :: 0 <= j < |tx.outputs| ==> (tx.outputs[j].binding == Some(Binding(id, 0)) <==> j in at)
  }

  lemma {:induction false} SameIndices(left: seq<nat>, right: seq<nat>)
    requires forall i, j :: 0 <= i < j < |left| ==> left[i] < left[j]
    requires forall i, j :: 0 <= i < j < |right| ==> right[i] < right[j]
    requires forall j :: j in left <==> j in right
    ensures left == right
  {
    assert left != [] ==> left[0] in right;
    assert right != [] ==> right[0] in left;
    if left != [] && right != [] {
      var n, m := |left| - 1, |right| - 1;
      assert left[n] in right && right[m] in left;
      forall j
        ensures j in left[..n] <==> j in right[..m]
      {
        assert j in left <==> j in left[..n] || j == left[n];
        assert j in right <==> j in right[..m] || j == right[m];
      }
      SameIndices(left[..n], right[..m]);
    }
  }

  lemma {:induction false} BoundIs(tx: Tx, id: CovenantId, at: seq<nat>)
    ensures Bound(tx, id, at) <==> at == BoundIndices(tx.outputs, Binding(id, 0))
  {
    var bound := BoundIndices(tx.outputs, Binding(id, 0));
    if Bound(tx, id, at) {
      forall j
        ensures j in at <==> j in bound
      {
        if j in at {
          var k :| 0 <= k < |at| && at[k] == j;
        }
        if j in bound {
          var k :| 0 <= k < |bound| && bound[k] == j;
        }
      }
      SameIndices(at, bound);
    }
  }

  /** Those outputs hold these states, one each. */
  ghost predicate HoldAt(tx: Tx, id: CovenantId, at: seq<nat>, states: seq<State>) {
    && Bound(tx, id, at) && |at| == |states|
    && forall k :: 0 <= k < |at| ==> tx.outputs[at[k]].script == PayToCovenant(states[k])
  }

  lemma {:induction false} HoldsThem(tx: Tx, id: CovenantId, states: seq<State>)
    ensures var bound := BoundIndices(tx.outputs, Binding(id, 0));
            && (forall at :: HoldAt(tx, id, at, states) <==> MovesTo(tx, id, states) && at == bound)
            && ((exists at :: HoldAt(tx, id, at, states)) <==> MovesTo(tx, id, states))
  {
    var bound := BoundIndices(tx.outputs, Binding(id, 0));
    forall at
      ensures HoldAt(tx, id, at, states) <==> MovesTo(tx, id, states) && at == bound
    {
      BoundIs(tx, id, at);
    }
    assert MovesTo(tx, id, states) ==> HoldAt(tx, id, bound, states);
  }

  ghost predicate Carries(tx: Tx, index: nat, script: Script, value: int) {
    index < |tx.outputs| && tx.outputs[index].script == script && tx.outputs[index].value == value
  }

  /** A percent of the price, rounded half up, or nothing below one KAS. */
  ghost function Percent(price: nat): nat {
    if (price + 50) / 100 < 100_000_000 then 0 else (price + 50) / 100
  }

  /** The payments of a mint: to the member's index, to the creator and to the platform. */
  ghost predicate MintPays(tx: Tx, terms: State, owner: Key, payment: nat, platform: nat, ownerIndex: nat) {
    && 100_000_000 <= terms.priceSompi <= 100_000_000_000_000
    && var fee := Percent(terms.priceSompi);
       && Carries(tx, ownerIndex, PayToKey(owner), 50_000_000)
       && Carries(tx, payment, PayToKey(terms.creator), terms.priceSompi - fee)
       && (fee > 0 ==> Carries(tx, platform, PayToKey(terms.platform), fee))
  }

  /**
   A mint goes through exactly when the minter stays as it is, the second covenant
   output is the member's, worth 50,000,000 and running for at most 25,920,000 DAA,
   the member pays for it, and everyone is paid as the terms say.
   */
  lemma {:induction false} MintAsksFor(
    tx: Tx, spent: seq<Output>, prev: State, id: CovenantId, minter: State, member: State, funding: nat,
    payment: nat, platform: nat, ownerIndex: nat)
    requires tx.entry == Some(Mint(minter, member, funding, payment, platform, ownerIndex))
    ensures EntryHolds(tx, spent, prev, id) <==>
            && prev.isMinter && minter == prev
            && member == prev.(owner := member.owner, expiresAtDaa := member.expiresAtDaa, isMinter := false)
            && member.expiresAtDaa <= tx.lockTime + 25_920_000
            && (exists at :: HoldAt(tx, id, at, [minter, member]) && tx.outputs[at[1]].value == 50_000_000)
            && funding < |spent| && spent[funding].script == PayToKey(member.owner)
            && MintPays(tx, prev, member.owner, payment, platform, ownerIndex)
  {
    var bound := BoundIndices(tx.outputs, Binding(id, 0));
    HoldsThem(tx, id, [minter, member]);
    assert MovesTo(tx, id, [minter, member]) ==> HoldAt(tx, id, bound, [minter, member]);
  }

  /** An update goes through exactly when its minter's creator pays for it, the new price is in bounds and nothing else changes. */
  lemma {:induction false} UpdateAsksFor(tx: Tx, spent: seq<Output>, prev: State, id: CovenantId, newPrice: int, funding: nat)
    requires tx.entry == Some(Update(newPrice, funding))
    ensures EntryHolds(tx, spent, prev, id) <==>
            && prev.isMinter && prev.owner == prev.creator && 100_000_000 <= newPrice <= 100_000_000_000_000
            && (exists at :: HoldAt(tx, id, at, [prev.(priceSompi := newPrice)]))
            && funding < |spent| && spent[funding].script == PayToKey(prev.creator)
  {
    HoldsThem(tx, id, [prev.(priceSompi := newPrice)]);
  }

  /** A cancellation goes through exactly when its minter's creator pays for it and the minter only ceases to be one. */
  lemma {:induction false} CancelAsksFor(tx: Tx, spent: seq<Output>, prev: State, id: CovenantId, funding: nat)
    requires tx.entry == Some(Entry.Cancel(funding))
    ensures EntryHolds(tx, spent, prev, id) <==>
            && prev.isMinter && prev.owner == prev.creator
            && (exists at :: HoldAt(tx, id, at, [prev.(isMinter := false)]))
            && funding < |spent| && spent[funding].script == PayToKey(prev.creator)
  {
    HoldsThem(tx, id, [prev.(isMinter := false)]);
  }

  // ----- who moves a covenant -------------------------------------------------

  /** The transaction spends a coin of this key beside its first input. */
  ghost predicate SpendsCoinOf(l: Ledger, tx: Tx, key: Key) {
    exists i :: 0 < i < |tx.inputs| && Exists(l, tx.inputs[i]) && OutputAt(l, tx.inputs[i]).script == PayToKey(key)
  }

  lemma {:induction false} FundsItself(l: Ledger, tx: Tx, prev: State, id: CovenantId)
    requires InputsExist(l, tx) && tx.inputs != [] && OutputAt(l, tx.inputs[0]).script == PayToCovenant(prev)
    requires EntryHolds(tx, Spent(l, tx), prev, id)
    ensures tx.entry.Some? && SpendsCoinOf(l, tx, if tx.entry.value.Mint? then tx.entry.value.member.owner else prev.creator)
  {
    var i := tx.entry.value.funding;
    assert Spent(l, tx)[i] == OutputAt(l, tx.inputs[i]);
  }

  /**
   In every reachable chain, whatever moved an offer's covenant spent a coin of the
   member it minted for, or else, as price updates and cancellations, of its creator.
   */
  lemma {:induction false} OnlyTheirOwnMove(l: Ledger, txid: TxId, family: CovenantId, creator: Key, platform: Key)
    requires Reachable(l) && IsOffer(family, creator, platform)
    requires txid in l.accepted && l.accepted[txid].tx.inputs != [] && InFamily(l, l.accepted[txid].tx.inputs[0], family)
    ensures var tx := l.accepted[txid].tx;
            && tx.entry.Some?
            && exists i ::
                 && 0 < i < |tx.inputs| && Exists(l, tx.inputs[i])
                 && OutputAt(l, tx.inputs[i]).script ==
                    PayToKey(if tx.entry.value.Mint? then tx.entry.value.member.owner else creator)
  {
    OfferFamilies(l, family, creator, platform);
    var tx := l.accepted[txid].tx;
    assert Lawful(l, txid);
    var prev := OutputAt(l, tx.inputs[0]).script.state;
    assert Spent(l, tx)[0] == OutputAt(l, tx.inputs[0]);
    assert Holding(Spent(l, tx)) == Some((family, prev));
    FundsItself(l, tx, prev, family);
  }

  /** After a mint the live minter stands where it stood. */
  lemma {:induction false} MintKeepsMinter(l: Ledger, id: TxId, tx: Tx, family: CovenantId, creator: Key, platform: Key)
    requires Inv(l) && FamilyInv(l, family, creator, platform) && Acceptable(l, id, tx)
    requires tx.inputs != [] && InFamily(l, tx.inputs[0], family) && tx.entry.Some? && tx.entry.value.Mint?
    ensures exists other :: SoleMinter(Accept(l, id, tx), family, other)
                            && OutputAt(Accept(l, id, tx), other).script == OutputAt(l, tx.inputs[0]).script
  {
    var next := Accept(l, id, tx);
    SpendsSoleMinter(l, id, tx, family, creator, platform);
    FamilyMoves(l, id, tx, family, creator, platform);
    CancelledKept(l, id, tx, family);
    var bound := BoundIndices(tx.outputs, Binding(family, 0));
    var at := Outpoint(id, bound[0]);
    NewMinter(l, id, tx, family, bound[0]);
    assert InFamily(next, at, family);
    var sole :| SoleMinter(next, family, sole);
    assert at == sole;
  }

  lemma {:induction false} RestKeepsMinter(l: Ledger, id: TxId, tx: Tx, family: CovenantId, at: Outpoint)
    requires Inv(l) && Acceptable(l, id, tx) && SoleMinter(l, family, at)
    requires tx.inputs != [] ==> !InFamily(l, tx.inputs[0], family)
    ensures SoleMinter(Accept(l, id, tx), family, at) && OutputAt(Accept(l, id, tx), at) == OutputAt(l, at)
  {
    var next := Accept(l, id, tx);
    assert Born(l, family);
    NotConsumed(l, id, tx, family, at);
    FamilyAfter(l, id, tx, family, at);
    forall other | other in next.unspent && IsMinter(next, other, family)
      ensures other == at
    {
      FamilyAfter(l, id, tx, family, other);
      if other.transactionId == id {
        NoFamilyOutput(l, tx, id, family, other.index);
      }
    }
  }

  /**
   In every reachable chain: a transaction after which an offer's live minter is
   gone, or is no longer the same but for its place, spends a coin of the creator.
   */
  lemma {:induction false} TermsAreTheCreators(
    l: Ledger, id: TxId, tx: Tx, family: CovenantId, creator: Key, platform: Key, at: Outpoint)
    requires Reachable(l) && IsOffer(family, creator, platform) && SoleMinter(l, family, at) && Acceptable(l, id, tx)
    requires !exists other :: SoleMinter(Accept(l, id, tx), family, other)
                              && OutputAt(Accept(l, id, tx), other).script == OutputAt(l, at).script
    ensures exists i ::
              0 < i < |tx.inputs| && Exists(l, tx.inputs[i]) && OutputAt(l, tx.inputs[i]).script == PayToKey(creator)
  {
    OfferFamilies(l, family, creator, platform);
    if tx.inputs == [] || !InFamily(l, tx.inputs[0], family) {
      RestKeepsMinter(l, id, tx, family, at);
      assert false;
    }
    SpendsSoleMinter(l, id, tx, family, creator, platform);
    assert tx.inputs[0] == at;
    if tx.entry.value.Mint? {
      MintKeepsMinter(l, id, tx, family, creator, platform);
      assert false;
    }
    FundsItself(l, tx, OutputAt(l, at).script.state, family);
  }
}
