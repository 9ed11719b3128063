/** What every step, and so every run, of the ledger keeps. */
module LedgerInvariants {
  import opened Wrappers
  import opened MembershipContract
  import opened Chain
  import opened Covenant
  import opened Ledger

  // ----- accepted transactions stay as they are -------------------------------

  ghost predicate Extends(l: Ledger, next: Ledger) {
    l.daa <= next.daa && forall id :: id in l.accepted ==> id in next.accepted && next.accepted[id] == l.accepted[id]
  }

  lemma {:induction false} StepExtends(l: Ledger, next: Ledger)
    requires Step(l, next)
    ensures Extends(l, next)
  {
  }

  lemma {:induction false} ExtendedSpent(l: Ledger, next: Ledger, tx: Tx)
    requires Extends(l, next) && InputsExist(l, tx)
    ensures InputsExist(next, tx) && Spent(next, tx) == Spent(l, tx)
  {
    forall i | 0 <= i < |tx.inputs|
      ensures Exists(next, tx.inputs[i]) && OutputAt(next, tx.inputs[i]) == OutputAt(l, tx.inputs[i])
    {
      assert Exists(l, tx.inputs[i]);
    }
    assert InputsExist(next, tx);
  }

  lemma {:induction false} ExtendedLawful(l: Ledger, next: Ledger, id: TxId)
    requires Extends(l, next) && id in l.accepted && Lawful(l, id)
    ensures Lawful(next, id)
  {
    ExtendedSpent(l, next, l.accepted[id].tx);
  }

  // ----- the chain's own invariant --------------------------------------------

  lemma {:induction false} InvKept(l: Ledger, next: Ledger)
    requires Inv(l) && Step(l, next)
    ensures Inv(next)
  {
    StepExtends(l, next);
    forall id | id in l.accepted
      ensures Lawful(next, id)
    {
      ExtendedLawful(l, next, id);
    }
    if id, tx :| Acceptable(l, id, tx) && next == Accept(l, id, tx) {
      InvKeptByAccept(l, id, tx);
    } else {
      InvKeptQuietly(l, next);
    }
  }

  lemma {:induction false} InvKeptQuietly(l: Ledger, next: Ledger)
    requires Inv(l) && next.accepted == l.accepted && next.unspent == l.unspent && next.log == l.log
    requires l.daa <= next.daa && forall id :: id in next.pending ==> id !in l.accepted
    requires forall id :: id in l.accepted ==> Lawful(next, id)
    ensures Inv(next)
  {
    forall at | at in next.unspent
      ensures Exists(next, at)
    {
      assert Exists(l, at);
    }
    forall at, family | InFamily(next, at, family)
      ensures family.genesis !in next.unspent && Exists(next, family.genesis)
    {
      GenesisStaysSpent(l, next, at, family);
    }
  }

  lemma {:induction false} GenesisStaysSpent(l: Ledger, next: Ledger, at: Outpoint, family: CovenantId)
    requires Inv(l) && next.accepted == l.accepted && next.unspent == l.unspent && InFamily(next, at, family)
    ensures family.genesis !in next.unspent && Exists(next, family.genesis)
  {
    assert InFamily(l, at, family);
    assert Exists(l, family.genesis);
  }

  lemma {:induction false} InvKeptByAccept(l: Ledger, id: TxId, tx: Tx)
    requires Inv(l) && Acceptable(l, id, tx)
    requires forall other :: other in l.accepted ==> Lawful(Accept(l, id, tx), other)
    ensures Inv(Accept(l, id, tx))
  {
    var next := Accept(l, id, tx);
    assert Step(l, next);
    StepExtends(l, next);
    ExtendedSpent(l, next, tx);
    assert Lawful(next, id);
    AcceptedOnce(l, id);
    forall at, family | InFamily(next, at, family)
      ensures family.genesis !in next.unspent && Exists(next, family.genesis)
    {
      GenesisSpent(l, id, tx, at, family);
    }
  }

  lemma {:induction false} AcceptedOnce(l: Ledger, id: TxId)
    requires LoggedOnce(l.log) && id !in l.log
    ensures LoggedOnce(l.log + [id])
  {
  }

  lemma {:induction false} GenesisSpent(l: Ledger, id: TxId, tx: Tx, at: Outpoint, family: CovenantId)
    requires Inv(l) && Acceptable(l, id, tx) && InFamily(Accept(l, id, tx), at, family)
    ensures family.genesis !in Accept(l, id, tx).unspent && Exists(Accept(l, id, tx), family.genesis)
  {
    if at.transactionId == id {
      var b := tx.outputs[at.index].binding.value;
      if Continues(Spent(l, tx), b) {
        assert InFamily(l, tx.inputs[b.authorizingInput], family);
      } else {
        assert family.genesis == tx.inputs[b.authorizingInput];
      }
    } else {
      assert InFamily(l, at, family);
    }
    assert Exists(l, family.genesis);
  }

  // ----- one covenant family --------------------------------------------------

  /** Family outputs of a transaction that spends the family are its first input's. */
  lemma {:induction false} FamilyOutputIsFirst(l: Ledger, tx: Tx, id: TxId, family: CovenantId, j: nat)
    requires Inv(l) && Acceptable(l, id, tx) && tx.inputs != [] && InFamily(l, tx.inputs[0], family)
    requires j < |tx.outputs| && tx.outputs[j].binding.Some?
    requires tx.outputs[j].binding.value.covenantId == family
    ensures tx.outputs[j].binding == Some(Binding(family, 0))
  {
    var b := tx.outputs[j].binding.value;
    if Continues(Spent(l, tx), b) {
      ContinuedByFirst(l, tx, id, b);
    }
  }

  /** A transaction that does not spend a born family has no output in it. */
  lemma {:induction false} NoFamilyOutput(l: Ledger, tx: Tx, id: TxId, family: CovenantId, j: nat)
    requires Inv(l) && Acceptable(l, id, tx) && Born(l, family)
    requires tx.inputs != [] ==> !InFamily(l, tx.inputs[0], family)
    requires j < |tx.outputs|
    ensures tx.outputs[j].binding.Some? ==> tx.outputs[j].binding.value.covenantId != family
  {
    if tx.outputs[j].binding.Some? {
      var b := tx.outputs[j].binding.value;
      if Continues(Spent(l, tx), b) {
        ContinuedByFirst(l, tx, id, b);
      }
    }
  }

  /** Only the first input can carry a covenant on. */
  lemma {:induction false} ContinuedByFirst(l: Ledger, tx: Tx, id: TxId, b: Binding)
    requires Acceptable(l, id, tx) && Continues(Spent(l, tx), b)
    ensures b.authorizingInput == 0 && InFamily(l, tx.inputs[0], b.covenantId)
  {
  }

  lemma {:induction false} CancelledKept(l: Ledger, id: TxId, tx: Tx, family: CovenantId)
    requires Inv(l) && Acceptable(l, id, tx)
    ensures Cancelled(Accept(l, id, tx), family) <==>
            Cancelled(l, family) || (tx.inputs != [] && InFamily(l, tx.inputs[0], family) && tx.entry.Some? && tx.entry.value.Cancel?)
  {
    var next := Accept(l, id, tx);
    assert Step(l, next);
    StepExtends(l, next);
    forall txid | txid in l.accepted
      ensures CancelsFamily(next, txid, family) <==> CancelsFamily(l, txid, family)
    {
      assert Lawful(l, txid);
      if l.accepted[txid].tx.inputs != [] {
        assert Exists(l, l.accepted[txid].tx.inputs[0]);
      }
    }
    assert tx.inputs != [] ==> Exists(l, tx.inputs[0]);
    assert CancelsFamily(next, id, family) <==>
           (tx.inputs != [] && InFamily(l, tx.inputs[0], family) && tx.entry.Some? && tx.entry.value.Cancel?);
    if Cancelled(l, family) {
      var txid :| txid in l.accepted && CancelsFamily(l, txid, family);
      assert CancelsFamily(next, txid, family);
    }
  }

  /** Old outputs keep their place in the family; new ones are this transaction's. */
  lemma {:induction false} FamilyAfter(l: Ledger, id: TxId, tx: Tx, family: CovenantId, at: Outpoint)
    requires Inv(l) && Acceptable(l, id, tx)
    ensures at.transactionId != id ==>
              (InFamily(Accept(l, id, tx), at, family) <==> InFamily(l, at, family)) &&
              (IsMinter(Accept(l, id, tx), at, family) <==> IsMinter(l, at, family)) &&
              (at in Accept(l, id, tx).unspent <==> at in l.unspent && at !in Consumed(tx))
    ensures at.transactionId == id ==> !Exists(l, at)
  {
  }

  /** Whatever spends a family output spends its sole minter, by an entry that holds. */
  lemma {:induction false} SpendsSoleMinter(l: Ledger, id: TxId, tx: Tx, family: CovenantId, creator: Key, platform: Key)
    requires Inv(l) && FamilyInv(l, family, creator, platform) && Acceptable(l, id, tx)
    requires tx.inputs != [] && InFamily(l, tx.inputs[0], family)
    ensures OutputAt(l, tx.inputs[0]).script.PayToCovenant?
    ensures EntryHolds(tx, Spent(l, tx), OutputAt(l, tx.inputs[0]).script.state, family)
    ensures FamilyState(OutputAt(l, tx.inputs[0]).script.state, creator, platform)
    ensures !Cancelled(l, family) && SoleMinter(l, family, tx.inputs[0])
  {
    var spent := Spent(l, tx);
    assert spent[0] == OutputAt(l, tx.inputs[0]);
    var prev := spent[0].script.state;
    assert Holding(spent) == Some((family, prev));
    OnlyMintersMove(tx, spent, prev, family);
    assert IsMinter(l, tx.inputs[0], family) && tx.inputs[0] in l.unspent;
  }

  /** The entry's outputs keep the family's terms; the minter, if any, is the first. */
  lemma {:induction false} MovedStates(tx: Tx, spent: seq<Output>, prev: State, family: CovenantId, creator: Key, platform: Key, j: nat)
    requires EntryHolds(tx, spent, prev, family) && FamilyState(prev, creator, platform)
    ensures var bound := BoundIndices(tx.outputs, Binding(family, 0));
            bound != [] &&
            (!tx.entry.value.Cancel? ==> tx.outputs[bound[0]].script.PayToCovenant? && tx.outputs[bound[0]].script.state.isMinter)
    ensures j < |tx.outputs| && tx.outputs[j].binding == Some(Binding(family, 0)) ==>
              && tx.outputs[j].script.PayToCovenant? && FamilyState(tx.outputs[j].script.state, creator, platform)
              && (tx.outputs[j].script.state.isMinter ==>
                    !tx.entry.value.Cancel? && j == BoundIndices(tx.outputs, Binding(family, 0))[0])
  {
    OnlyMintersMove(tx, spent, prev, family);
    var bound := BoundIndices(tx.outputs, Binding(family, 0));
    if j < |tx.outputs| && tx.outputs[j].binding == Some(Binding(family, 0)) {
      var k :| 0 <= k < |bound| && bound[k] == j;
    }
  }

  lemma {:induction false} NewMinter(l: Ledger, id: TxId, tx: Tx, family: CovenantId, j: nat)
    requires j < |tx.outputs| && tx.outputs[j].binding == Some(Binding(family, 0))
    requires tx.outputs[j].script.PayToCovenant? && tx.outputs[j].script.state.isMinter
    ensures Outpoint(id, j) in Accept(l, id, tx).unspent && IsMinter(Accept(l, id, tx), Outpoint(id, j), family)
  {
    assert Outpoint(id, j) in Created(id, tx);
  }

  /** The family moves: its sole minter is spent, its new outputs are the entry's states. */
  lemma {:induction false} FamilyMoves(l: Ledger, id: TxId, tx: Tx, family: CovenantId, creator: Key, platform: Key)
    requires Inv(l) && FamilyInv(l, family, creator, platform) && Acceptable(l, id, tx)
    requires tx.inputs != [] && InFamily(l, tx.inputs[0], family)
    ensures FamilyInv(Accept(l, id, tx), family, creator, platform)
  {
    var next := Accept(l, id, tx);
    SpendsSoleMinter(l, id, tx, family, creator, platform);
    CancelledKept(l, id, tx, family);
    var bound := BoundIndices(tx.outputs, Binding(family, 0));
    MovedStates(tx, Spent(l, tx), OutputAt(l, tx.inputs[0]).script.state, family, creator, platform, 0);
    forall at | InFamily(next, at, family)
      ensures OutputAt(next, at).script.PayToCovenant?
      ensures FamilyState(OutputAt(next, at).script.state, creator, platform)
      ensures at in next.unspent && OutputAt(next, at).script.state.isMinter ==>
                !tx.entry.value.Cancel? && at == Outpoint(id, bound[0])
    {
      MovedOutput(l, id, tx, family, creator, platform, at);
    }
    if !tx.entry.value.Cancel? {
      NewMinter(l, id, tx, family, bound[0]);
      assert SoleMinter(next, family, Outpoint(id, bound[0]));
    }
  }

  lemma {:induction false} MovedOutput(l: Ledger, id: TxId, tx: Tx, family: CovenantId, creator: Key, platform: Key, at: Outpoint)
    requires Inv(l) && FamilyInv(l, family, creator, platform) && Acceptable(l, id, tx)
    requires tx.inputs != [] && InFamily(l, tx.inputs[0], family) && InFamily(Accept(l, id, tx), at, family)
    ensures var next, bound := Accept(l, id, tx), BoundIndices(tx.outputs, Binding(family, 0));
            && OutputAt(next, at).script.PayToCovenant?
            && FamilyState(OutputAt(next, at).script.state, creator, platform)
            && bound != []
            && (at in next.unspent && OutputAt(next, at).script.state.isMinter ==>
                  !tx.entry.value.Cancel? && at == Outpoint(id, bound[0]))
  {
    SpendsSoleMinter(l, id, tx, family, creator, platform);
    var spent, prev := Spent(l, tx), OutputAt(l, tx.inputs[0]).script.state;
    MovedStates(tx, spent, prev, family, creator, platform, at.index);
    FamilyAfter(l, id, tx, family, at);
    if at.transactionId == id {
      FamilyOutputIsFirst(l, tx, id, family, at.index);
    }
  }

  /** The family rests: nothing in it is spent and nothing joins it. */
  lemma {:induction false} FamilyRests(l: Ledger, id: TxId, tx: Tx, family: CovenantId, creator: Key, platform: Key)
    requires Inv(l) && FamilyInv(l, family, creator, platform) && Acceptable(l, id, tx)
    requires Born(l, family) && (tx.inputs != [] ==> !InFamily(l, tx.inputs[0], family))
    ensures FamilyInv(Accept(l, id, tx), family, creator, platform)
  {
    var next := Accept(l, id, tx);
    CancelledKept(l, id, tx, family);
    forall at
      ensures InFamily(next, at, family) <==> InFamily(l, at, family)
      ensures IsMinter(next, at, family) <==> IsMinter(l, at, family)
      ensures InFamily(l, at, family) ==> (at in next.unspent <==> at in l.unspent) && OutputAt(next, at) == OutputAt(l, at)
    {
      FamilyAfter(l, id, tx, family, at);
      if at.transactionId == id {
        if at.index < |tx.outputs| {
          NoFamilyOutput(l, tx, id, family, at.index);
        }
      } else if InFamily(l, at, family) {
        NotConsumed(l, id, tx, family, at);
      }
    }
    if !Cancelled(l, family) {
      var sole :| SoleMinter(l, family, sole);
      assert SoleMinter(next, family, sole);
    }
  }

  lemma {:induction false} NotConsumed(l: Ledger, id: TxId, tx: Tx, family: CovenantId, at: Outpoint)
    requires Acceptable(l, id, tx) && InFamily(l, at, family)
    requires tx.inputs != [] ==> !InFamily(l, tx.inputs[0], family)
    ensures at !in Consumed(tx)
  {
    forall i | 0 <= i < |tx.inputs|
      ensures tx.inputs[i] != at
    {
      assert i > 0 ==> Spent(l, tx)[i].binding.None?;
    }
  }

  /** The family starts, if at all, with the one minter its id commits to. */
  lemma {:induction false} FamilyStarts(l: Ledger, id: TxId, tx: Tx, family: CovenantId, creator: Key, platform: Key)
    requires Inv(l) && Acceptable(l, id, tx) && !Born(l, family) && IsOffer(family, creator, platform)
    ensures FamilyInv(Accept(l, id, tx), family, creator, platform)
  {
    var next := Accept(l, id, tx);
    CancelledKept(l, id, tx, family);
    assert !Cancelled(l, family);
    var price :| family.outputs ==
      [AuthorizedOutput(0, MEMBERSHIP_OUTPUT_VALUE, PayToCovenant(MinterState(creator, platform, price)))];
    forall at | InFamily(next, at, family)
      ensures at == Outpoint(id, 0) && OutputAt(next, at).script == PayToCovenant(MinterState(creator, platform, price))
    {
      FamilyAfter(l, id, tx, family, at);
      assert at.transactionId == id;
      var b := tx.outputs[at.index].binding.value;
      if Continues(Spent(l, tx), b) {
        assert InFamily(l, tx.inputs[b.authorizingInput], family);
      }
      var bound := BoundIndices(tx.outputs, b);
      assert |Authorized(tx.outputs, b)| == |bound| == 1;
      assert Authorized(tx.outputs, b)[0] == family.outputs[0];
      assert at.index in bound;
    }
    if Born(next, family) {
      var at :| InFamily(next, at, family);
      assert SoleMinter(next, family, at);
    }
  }

  lemma {:induction false} FamilyKept(l: Ledger, next: Ledger, family: CovenantId, creator: Key, platform: Key)
    requires Inv(l) && FamilyInv(l, family, creator, platform) && IsOffer(family, creator, platform) && Step(l, next)
    ensures FamilyInv(next, family, creator, platform)
  {
    if id, tx :| Acceptable(l, id, tx) && next == Accept(l, id, tx) {
      if tx.inputs != [] && InFamily(l, tx.inputs[0], family) {
        FamilyMoves(l, id, tx, family, creator, platform);
      } else if Born(l, family) {
        FamilyRests(l, id, tx, family, creator, platform);
      } else {
        FamilyStarts(l, id, tx, family, creator, platform);
      }
    } else {
      SameChain(l, next, family);
      if !Cancelled(l, family) && Born(l, family) {
        var at :| SoleMinter(l, family, at);
        assert SoleMinter(next, family, at);
      }
    }
  }

  lemma {:induction false} SameChain(l: Ledger, next: Ledger, family: CovenantId)
    requires next.accepted == l.accepted && next.unspent == l.unspent
    ensures forall at :: InFamily(next, at, family) <==> InFamily(l, at, family)
    ensures forall at :: IsMinter(next, at, family) <==> IsMinter(l, at, family)
    ensures Cancelled(next, family) <==> Cancelled(l, family)
    ensures Born(next, family) <==> Born(l, family)
  {
    forall txid | txid in l.accepted
      ensures CancelsFamily(next, txid, family) <==> CancelsFamily(l, txid, family)
    {
    }
    if Born(l, family) {
      var at :| InFamily(l, at, family);
      assert InFamily(next, at, family);
    }
  }
}
