/** The price the chain has last set for a covenant is the price of its live minter. */
module LedgerPrices {
  import opened Wrappers
  import opened MembershipContract
  import opened Chain
  import opened Covenant
  import opened Ledger
  import opened LedgerInvariants
  import opened LedgerRuns

  /** The transaction has an output in the family. */
  ghost predicate HasOutputIn(l: Ledger, txid: TxId, family: CovenantId) {
    exists j: nat :: InFamily(l, Outpoint(txid, j), family)
  }

  /** The price an offer's id commits to. */
  function OfferedPrice(family: CovenantId): int {
    if family.outputs != [] && family.outputs[0].script.PayToCovenant? then family.outputs[0].script.state.priceSompi else 0
  }

  /** The price an accepted transaction sets for the family: an update's, or the offer's own. */
  ghost function PriceSetBy(l: Ledger, txid: TxId, family: CovenantId): Option<int>
    requires txid in l.accepted
  {
    var tx := l.accepted[txid].tx;
    if tx.inputs != [] && InFamily(l, tx.inputs[0], family) then
      (if tx.entry.Some? && tx.entry.value.Update? then Some(tx.entry.value.newPrice) else None)
    else if HasOutputIn(l, txid, family) then Some(OfferedPrice(family))
    else None
  }

  ghost predicate LogIsAccepted(l: Ledger) {
    forall i :: 0 <= i < |l.log| ==> l.log[i] in l.accepted
  }

  /** The last price set by the first n accepted transactions. */
  ghost function LastPrice(l: Ledger, family: CovenantId, n: nat): Option<int>
    requires LogIsAccepted(l) && n <= |l.log|
  {
    if n == 0 then None
    else
      var price := PriceSetBy(l, l.log[n - 1], family);
      if price.Some? then price else LastPrice(l, family, n - 1)
  }

  ghost predicate MinterAtLastPrice(l: Ledger, family: CovenantId)
    requires LogIsAccepted(l)
  {
    forall at :: SoleMinter(l, family, at) ==> LastPrice(l, family, |l.log|) == Some(OutputAt(l, at).script.state.priceSompi)
  }

  // ----- older transactions set what they set ---------------------------------

  lemma {:induction false} InvLogs(l: Ledger)
    requires Inv(l)
    ensures LogIsAccepted(l)
  {
    forall i | 0 <= i < |l.log|
      ensures l.log[i] in l.accepted
    {
      assert l.log[i] in l.log;
    }
  }

  lemma {:induction false} FamilyStays(l: Ledger, next: Ledger, at: Outpoint, family: CovenantId)
    requires Extends(l, next) && at.transactionId in l.accepted
    ensures InFamily(next, at, family) <==> InFamily(l, at, family)
  {
  }

  lemma {:induction false} OutputsStay(l: Ledger, next: Ledger, txid: TxId, family: CovenantId)
    requires Extends(l, next) && txid in l.accepted
    ensures HasOutputIn(next, txid, family) <==> HasOutputIn(l, txid, family)
  {
    forall j: nat
      ensures InFamily(next, Outpoint(txid, j), family) <==> InFamily(l, Outpoint(txid, j), family)
    {
      FamilyStays(l, next, Outpoint(txid, j), family);
    }
  }

  lemma {:induction false} PriceSetStays(l: Ledger, next: Ledger, txid: TxId, family: CovenantId)
    requires Inv(l) && Extends(l, next) && txid in l.accepted
    ensures PriceSetBy(next, txid, family) == PriceSetBy(l, txid, family)
  {
    var tx := l.accepted[txid].tx;
    OutputsStay(l, next, txid, family);
    if tx.inputs != [] {
      FirstInputExists(l, txid);
      FamilyStays(l, next, tx.inputs[0], family);
    }
  }

  lemma {:induction false} FirstInputExists(l: Ledger, txid: TxId)
    requires Inv(l) && txid in l.accepted && l.accepted[txid].tx.inputs != []
    ensures Exists(l, l.accepted[txid].tx.inputs[0])
  {
    assert Lawful(l, txid);
  }

  lemma {:induction false} SamePrices(l: Ledger, next: Ledger, family: CovenantId, n: nat)
    requires LogIsAccepted(l) && LogIsAccepted(next) && n <= |l.log| && l.log <= next.log
    requires forall i :: 0 <= i < n ==> PriceSetBy(next, next.log[i], family) == PriceSetBy(l, l.log[i], family)
    ensures LastPrice(next, family, n) == LastPrice(l, family, n)
  {
    if n > 0 {
      SamePrices(l, next, family, n - 1);
    }
  }

  lemma {:induction false} LastPriceStays(l: Ledger, next: Ledger, family: CovenantId)
    requires Inv(l) && LogIsAccepted(l) && LogIsAccepted(next) && Extends(l, next) && l.log <= next.log
    ensures LastPrice(next, family, |l.log|) == LastPrice(l, family, |l.log|)
  {
    forall i | 0 <= i < |l.log|
      ensures PriceSetBy(next, next.log[i], family) == PriceSetBy(l, l.log[i], family)
    {
      PriceSetStays(l, next, l.log[i], family);
    }
    SamePrices(l, next, family, |l.log|);
  }

  lemma {:induction false} AcceptGrows(l: Ledger, id: TxId, tx: Tx)
    requires Inv(l) && Acceptable(l, id, tx)
    ensures var next := Accept(l, id, tx);
            Inv(next) && LogIsAccepted(l) && LogIsAccepted(next) && Extends(l, next) && next.log == l.log + [id]
  {
    var next := Accept(l, id, tx);
    assert Step(l, next);
    StepExtends(l, next);
    InvKept(l, next);
    InvLogs(l);
    InvLogs(next);
  }

  lemma {:induction false} LastOf(l: Ledger, family: CovenantId)
    requires LogIsAccepted(l) && l.log != []
    ensures var n := |l.log| - 1;
            var price := PriceSetBy(l, l.log[n], family);
            LastPrice(l, family, |l.log|) == if price.Some? then price else LastPrice(l, family, n)
  {
  }

  /** One more accepted transaction. */
  lemma {:induction false} LastPriceNext(l: Ledger, id: TxId, tx: Tx, family: CovenantId)
    requires Inv(l) && Acceptable(l, id, tx)
    ensures var next := Accept(l, id, tx);
            Inv(next) && LogIsAccepted(l) && LogIsAccepted(next) && LastPrice(next, family, |next.log|) ==
              if PriceSetBy(next, id, family).Some? then PriceSetBy(next, id, family) else LastPrice(l, family, |l.log|)
  {
    var next := Accept(l, id, tx);
    AcceptGrows(l, id, tx);
    LastOf(next, family);
    LastPriceStays(l, next, family);
  }

  // ----- each kind of step ----------------------------------------------------

  /** The new minter's price is the update's, or the old minter's. */
  lemma {:induction false} MovedPrice(tx: Tx, spent: seq<Output>, prev: State, family: CovenantId, j: nat)
    requires EntryHolds(tx, spent, prev, family) && j < |tx.outputs|
    requires tx.outputs[j].binding == Some(Binding(family, 0))
    requires tx.outputs[j].script.PayToCovenant? && tx.outputs[j].script.state.isMinter
    ensures tx.outputs[j].script.state.priceSompi == if tx.entry.value.Update? then tx.entry.value.newPrice else prev.priceSompi
  {
    var bound := BoundIndices(tx.outputs, Binding(family, 0));
    var k :| 0 <= k < |bound| && bound[k] == j;
  }

  lemma {:induction false} MovesKeepPrice(l: Ledger, id: TxId, tx: Tx, family: CovenantId, creator: Key, platform: Key)
    requires Inv(l) && FamilyInv(l, family, creator, platform) && Acceptable(l, id, tx) && LogIsAccepted(l) && MinterAtLastPrice(l, family)
    requires tx.inputs != [] && InFamily(l, tx.inputs[0], family)
    ensures Inv(Accept(l, id, tx)) && LogIsAccepted(Accept(l, id, tx)) && MinterAtLastPrice(Accept(l, id, tx), family)
  {
    var next := Accept(l, id, tx);
    LastPriceNext(l, id, tx, family);
    SpendsSoleMinter(l, id, tx, family, creator, platform);
    assert InFamily(next, tx.inputs[0], family);
    forall at | SoleMinter(next, family, at)
      ensures OutputAt(next, at).script.state.priceSompi ==
              if tx.entry.value.Update? then tx.entry.value.newPrice else OutputAt(l, tx.inputs[0]).script.state.priceSompi
    {
      MovedMinterPrice(l, id, tx, family, creator, platform, at);
    }
  }

  lemma {:induction false} MovedMinterPrice(
    l: Ledger, id: TxId, tx: Tx, family: CovenantId, creator: Key, platform: Key, at: Outpoint)
    requires Inv(l) && FamilyInv(l, family, creator, platform) && Acceptable(l, id, tx)
    requires tx.inputs != [] && InFamily(l, tx.inputs[0], family) && SoleMinter(Accept(l, id, tx), family, at)
    ensures tx.entry.Some? && OutputAt(l, tx.inputs[0]).script.PayToCovenant?
    ensures OutputAt(Accept(l, id, tx), at).script.state.priceSompi ==
            if tx.entry.value.Update? then tx.entry.value.newPrice else OutputAt(l, tx.inputs[0]).script.state.priceSompi
  {
    SpendsSoleMinter(l, id, tx, family, creator, platform);
    FamilyAfter(l, id, tx, family, at);
    assert at.transactionId == id;
    FamilyOutputIsFirst(l, tx, id, family, at.index);
    MovedPrice(tx, Spent(l, tx), OutputAt(l, tx.inputs[0]).script.state, family, at.index);
  }

  lemma {:induction false} RestKeepsPrice(l: Ledger, id: TxId, tx: Tx, family: CovenantId)
    requires Inv(l) && Acceptable(l, id, tx) && LogIsAccepted(l) && MinterAtLastPrice(l, family) && Born(l, family)
    requires tx.inputs != [] ==> !InFamily(l, tx.inputs[0], family)
    ensures Inv(Accept(l, id, tx)) && LogIsAccepted(Accept(l, id, tx)) && MinterAtLastPrice(Accept(l, id, tx), family)
  {
    var next := Accept(l, id, tx);
    LastPriceNext(l, id, tx, family);
    forall j: nat
      ensures !InFamily(next, Outpoint(id, j), family)
    {
      if j < |tx.outputs| {
        NoFamilyOutput(l, tx, id, family, j);
      }
    }
    assert tx.inputs != [] ==> Exists(l, tx.inputs[0]);
    forall at | SoleMinter(next, family, at)
      ensures SoleMinter(l, family, at) && OutputAt(next, at) == OutputAt(l, at)
    {
      SoleStays(l, id, tx, family, at);
    }
  }

  lemma {:induction false} SoleStays(l: Ledger, id: TxId, tx: Tx, family: CovenantId, at: Outpoint)
    requires Inv(l) && Acceptable(l, id, tx) && SoleMinter(Accept(l, id, tx), family, at)
    requires tx.inputs != [] ==> !InFamily(l, tx.inputs[0], family)
    requires forall j: nat :: !InFamily(Accept(l, id, tx), Outpoint(id, j), family)
    ensures SoleMinter(l, family, at) && OutputAt(Accept(l, id, tx), at) == OutputAt(l, at)
  {
    var next := Accept(l, id, tx);
    assert InFamily(next, at, family) && at == Outpoint(at.transactionId, at.index);
    FamilyAfter(l, id, tx, family, at);
    forall other | other in l.unspent && IsMinter(l, other, family)
      ensures other == at
    {
      FamilyAfter(l, id, tx, family, other);
      NotConsumed(l, id, tx, family, other);
    }
  }

  /** An offer's family starts at the price its id commits to. */
  lemma {:induction false} StartSetsPrice(l: Ledger, id: TxId, tx: Tx, family: CovenantId, creator: Key, platform: Key)
    requires Inv(l) && Acceptable(l, id, tx) && !Born(l, family) && IsOffer(family, creator, platform)
    ensures Inv(Accept(l, id, tx)) && LogIsAccepted(Accept(l, id, tx)) && MinterAtLastPrice(Accept(l, id, tx), family)
  {
    var next := Accept(l, id, tx);
    LastPriceNext(l, id, tx, family);
    if tx.inputs != [] {
      assert Exists(l, tx.inputs[0]);
      assert !InFamily(l, tx.inputs[0], family);
      FamilyAfter(l, id, tx, family, tx.inputs[0]);
    }
    forall at | SoleMinter(next, family, at)
      ensures OutputAt(next, at).script.state.priceSompi == OfferedPrice(family) && HasOutputIn(next, id, family)
    {
      StartedOutput(l, id, tx, family, at);
    }
  }

  lemma {:induction false} StartedOutput(l: Ledger, id: TxId, tx: Tx, family: CovenantId, at: Outpoint)
    requires Inv(l) && Acceptable(l, id, tx) && !Born(l, family) && |family.outputs| == 1
    requires InFamily(Accept(l, id, tx), at, family)
    ensures at.transactionId == id && HasOutputIn(Accept(l, id, tx), id, family)
    ensures OutputAt(Accept(l, id, tx), at).script == family.outputs[0].script
  {
    FamilyAfter(l, id, tx, family, at);
    assert at.transactionId == id && at == Outpoint(id, at.index);
    var b := tx.outputs[at.index].binding.value;
    if Continues(Spent(l, tx), b) {
      assert InFamily(l, tx.inputs[b.authorizingInput], family);
    }
    var bound := BoundIndices(tx.outputs, b);
    assert |Authorized(tx.outputs, b)| == |bound| == 1;
    assert Authorized(tx.outputs, b)[0] == family.outputs[0];
    assert at.index in bound;
  }

  lemma {:induction false} StepKeepsPrice(l: Ledger, next: Ledger, family: CovenantId, creator: Key, platform: Key)
    requires Inv(l) && FamilyInv(l, family, creator, platform) && IsOffer(family, creator, platform) && Step(l, next)
    requires LogIsAccepted(l) && MinterAtLastPrice(l, family)
    ensures Inv(next) && LogIsAccepted(next) && MinterAtLastPrice(next, family)
  {
    if id, tx :| Acceptable(l, id, tx) && next == Accept(l, id, tx) {
      if tx.inputs != [] && InFamily(l, tx.inputs[0], family) {
        MovesKeepPrice(l, id, tx, family, creator, platform);
      } else if Born(l, family) {
        RestKeepsPrice(l, id, tx, family);
      } else {
        StartSetsPrice(l, id, tx, family, creator, platform);
      }
    } else {
      InvKept(l, next);
      QuietKeepsPrice(l, next, family);
    }
  }

  lemma {:induction false} QuietKeepsPrice(l: Ledger, next: Ledger, family: CovenantId)
    requires Inv(l) && Inv(next) && LogIsAccepted(l) && MinterAtLastPrice(l, family)
    requires next.accepted == l.accepted && next.unspent == l.unspent && next.log == l.log && l.daa <= next.daa
    ensures LogIsAccepted(next) && MinterAtLastPrice(next, family)
  {
    SameChain(l, next, family);
    LastPriceStays(l, next, family);
  }

  // ----- every run ------------------------------------------------------------

  /** What a run keeps of a family and its price. */
  ghost predicate Priced(l: Ledger, family: CovenantId, creator: Key, platform: Key) {
    Inv(l) && FamilyInv(l, family, creator, platform) && LogIsAccepted(l) && MinterAtLastPrice(l, family)
  }

  lemma {:induction false} EmptyIsPriced(family: CovenantId, creator: Key, platform: Key)
    ensures Priced(EMPTY, family, creator, platform)
  {
    assert !Cancelled(EMPTY, family) && !Born(EMPTY, family);
  }

  lemma {:induction false} StepKeepsPriced(l: Ledger, next: Ledger, family: CovenantId, creator: Key, platform: Key)
    requires Priced(l, family, creator, platform) && IsOffer(family, creator, platform) && Step(l, next)
    ensures Priced(next, family, creator, platform)
  {
    StepKeepsPrice(l, next, family, creator, platform);
    FamilyKept(l, next, family, creator, platform);
  }

  lemma {:induction false} RunKeepsPrice(run: seq<Ledger>, n: nat, family: CovenantId, creator: Key, platform: Key)
    requires IsRun(run) && Priced(run[0], family, creator, platform) && n < |run| && IsOffer(family, creator, platform)
    ensures Priced(run[n], family, creator, platform)
  {
    if n > 0 {
      RunKeepsPrice(run, n - 1, family, creator, platform);
      RunSteps(run, n);
      StepKeepsPriced(run[n - 1], run[n], family, creator, platform);
    }
  }

  lemma {:induction false} RunSteps(run: seq<Ledger>, n: nat)
    requires IsRun(run) && 0 < n < |run|
    ensures Step(run[n - 1], run[n])
  {
    assert Step(run[n - 1], run[n - 1 + 1]);
  }

  /** In every reachable chain an offer's live minter stands at the price set last. */
  lemma {:induction false} LiveMinterHasLastPrice(l: Ledger, family: CovenantId, creator: Key, platform: Key, at: Outpoint)
    requires Reachable(l) && IsOffer(family, creator, platform) && SoleMinter(l, family, at)
    ensures Inv(l) && LogIsAccepted(l) && LastPrice(l, family, |l.log|) == Some(OutputAt(l, at).script.state.priceSompi)
    ensures OutputAt(l, at).script.state ==
            MinterState(creator, platform, LastPrice(l, family, |l.log|).value)
  {
    var run :| IsRun(run) && run[0] == EMPTY && run[|run| - 1] == l;
    EmptyIsPriced(family, creator, platform);
    RunKeepsPrice(run, |run| - 1, family, creator, platform);
  }
}
