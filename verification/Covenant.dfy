/**
 The covenant's three entries (backend/contracts/membership.sil) as conditions on
 a transaction whose first input calls them.
 */
module Covenant {
  import opened Wrappers
  import opened MembershipContract
  import opened Chain
  import opened Fees

  const MEMBERSHIP_LIFETIME_DAA := 25_920_000
  const MIN_PRICE_SOMPI := 100_000_000
  const MAX_PRICE_SOMPI := 100_000_000_000_000

  /** Indices of the outputs bound this way, in order. */
  function BoundIndices(outputs: seq<Output>, binding: Binding): (r: seq<nat>)
    ensures forall k :: 0 <= k < |r| ==> r[k] < |outputs| && outputs[r[k]].binding == Some(binding)
    ensures forall k :: 0 <= k < |outputs| && outputs[k].binding == Some(binding) ==> k in r
    ensures forall i, j :: 0 <= i < j < |r| ==> r[i] < r[j]
  {
    if outputs == [] then []
    else
      var n := |outputs| - 1;
      BoundIndices(outputs[..n], binding) + (if outputs[n].binding == Some(binding) then [n] else [])
  }

  /** The n outputs the first input vouches for hold exactly these states. */
  predicate MovesTo(tx: Tx, id: CovenantId, states: seq<State>) {
    var bound := BoundIndices(tx.outputs, Binding(id, 0));
    && |bound| == |states|
    && forall k :: 0 <= k < |states| ==> tx.outputs[bound[k]].script == PayToCovenant(states[k])
  }

  predicate PaysAt(tx: Tx, index: nat, script: Script, value: int) {
    index < |tx.outputs| && tx.outputs[index].script == script && tx.outputs[index].value == value
  }

  predicate FundedBy(spent: seq<Output>, index: nat, key: Key) {
    index < |spent| && spent[index].script == PayToKey(key)
  }

  predicate PriceInBounds(price: int) {
    MIN_PRICE_SOMPI <= price <= MAX_PRICE_SOMPI
  }

  /** `spent` are the outputs the inputs consume; the entry is called from input 0. */
  predicate MintHolds(tx: Tx, spent: seq<Output>, prev: State, id: CovenantId)
    requires tx.entry.Some? && tx.entry.value.Mint?
  {
    var e := tx.entry.value;
    var payment := ContractPlatformPayment(prev.priceSompi);
    && MovesTo(tx, id, [e.minter, e.member])
    && prev.isMinter && PriceInBounds(prev.priceSompi)
    && e.minter == prev
    && !e.member.isMinter && e.member.creator == prev.creator && e.member.platform == prev.platform
    && e.member.priceSompi == prev.priceSompi
    && tx.lockTime >= e.member.expiresAtDaa - MEMBERSHIP_LIFETIME_DAA
    && tx.outputs[BoundIndices(tx.outputs, Binding(id, 0))[1]].value == MEMBERSHIP_OUTPUT_VALUE
    && FundedBy(spent, e.funding, e.member.owner)
    && PaysAt(tx, e.ownerIndex, PayToKey(e.member.owner), MEMBERSHIP_INDEX_VALUE)
    && PaysAt(tx, e.payment, PayToKey(prev.creator), prev.priceSompi - payment)
    && (payment > 0 ==> PaysAt(tx, e.platform, PayToKey(prev.platform), payment))
  }

  predicate UpdateHolds(tx: Tx, spent: seq<Output>, prev: State, id: CovenantId)
    requires tx.entry.Some? && tx.entry.value.Update?
  {
    var e := tx.entry.value;
    && prev.isMinter && prev.owner == prev.creator && PriceInBounds(e.newPrice)
    && FundedBy(spent, e.funding, prev.creator)
    && MovesTo(tx, id, [prev.(priceSompi := e.newPrice, isMinter := true)])
  }

  predicate CancelHolds(tx: Tx, spent: seq<Output>, prev: State, id: CovenantId)
    requires tx.entry.Some? && tx.entry.value.Cancel?
  {
    var e := tx.entry.value;
    && prev.isMinter && prev.owner == prev.creator
    && FundedBy(spent, e.funding, prev.creator)
    && MovesTo(tx, id, [prev.(isMinter := false)])
  }

  predicate EntryHolds(tx: Tx, spent: seq<Output>, prev: State, id: CovenantId) {
    match tx.entry
    case None => false
    case Some(Mint(_, _, _, _, _, _)) => MintHolds(tx, spent, prev, id)
    case Some(Update(_, _)) => UpdateHolds(tx, spent, prev, id)
    case Some(Cancel(_)) => CancelHolds(tx, spent, prev, id)
  }

  /** No entry lets a spent, or an ended, membership move. */
  lemma {:induction false} OnlyMintersMove(tx: Tx, spent: seq<Output>, prev: State, id: CovenantId)
    requires EntryHolds(tx, spent, prev, id)
    ensures prev.isMinter
  {
  }

  /**
   The payments a mint demands are separate outputs, and together they are the
   price: no output can serve two of the demands.
   */
  lemma {:induction false} MintPaymentsAreDistinct(tx: Tx, spent: seq<Output>, prev: State, id: CovenantId)
    requires tx.entry.Some? && tx.entry.value.Mint? && MintHolds(tx, spent, prev, id)
    ensures var e, fee := tx.entry.value, ContractPlatformPayment(prev.priceSompi);
            var member := BoundIndices(tx.outputs, Binding(id, 0))[1];
            && e.payment != e.ownerIndex && e.payment != member && e.ownerIndex != member
            && (fee > 0 ==> e.platform != e.payment && e.platform != e.ownerIndex && e.platform != member)
            && tx.outputs[e.payment].value + (if fee > 0 then tx.outputs[e.platform].value else 0)
               == prev.priceSompi
  {
    FeeFormulasAgree(prev.priceSompi);
  }
}
