/**
 The chain as a growing set of accepted transactions over unspent outputs, and
 what every run of it keeps. Reorganisations are not modelled. A transaction has
 at most one covenant input, its first, as everything the gateway builds.
 */
module Ledger {
  import opened Wrappers
  import opened MembershipContract
  import opened Chain
  import opened Covenant

  datatype Accepted = Accepted(tx: Tx, daa: int)

  /** `pending` are transactions the node reports but has not accepted. */
  datatype Ledger = Ledger(
    accepted: map<TxId, Accepted>, log: seq<TxId>, unspent: set<Outpoint>,
    daa: int, pending: map<TxId, Tx>)

  const EMPTY := Ledger(map[], [], {}, 0, map[])

  predicate Exists(l: Ledger, at: Outpoint) {
    at.transactionId in l.accepted && at.index < |l.accepted[at.transactionId].tx.outputs|
  }

  function OutputAt(l: Ledger, at: Outpoint): Output
    requires Exists(l, at)
  {
    l.accepted[at.transactionId].tx.outputs[at.index]
  }

  predicate InputsExist(l: Ledger, tx: Tx) {
    forall i :: 0 <= i < |tx.inputs| ==> Exists(l, tx.inputs[i])
  }

  function Spent(l: Ledger, tx: Tx): (r: seq<Output>)
    requires InputsExist(l, tx)
    ensures |r| == |tx.inputs|
  {
    seq(|tx.inputs|, i requires 0 <= i < |tx.inputs| => OutputAt(l, tx.inputs[i]))
  }

  function ValueOf(outputs: seq<Output>): int {
    if outputs == [] then 0 else ValueOf(outputs[..|outputs| - 1]) + outputs[|outputs| - 1].value
  }

  // ----- what the chain accepts -----------------------------------------------

  function Authorized(outputs: seq<Output>, binding: Binding): (r: seq<AuthorizedOutput>) {
    var bound := BoundIndices(outputs, binding);
    seq(|bound|, k requires 0 <= k < |bound| =>
      AuthorizedOutput(bound[k], outputs[bound[k]].value, outputs[bound[k]].script))
  }

  /** The authorizing input carries the covenant on. */
  predicate Continues(spent: seq<Output>, b: Binding) {
    && b.authorizingInput < |spent|
    && spent[b.authorizingInput].binding.Some?
    && spent[b.authorizingInput].binding.value.covenantId == b.covenantId
  }

  /** The covenant starts here: its id is the hash of the input and the outputs. */
  predicate Creates(tx: Tx, b: Binding) {
    && b.authorizingInput < |tx.inputs|
    && b.covenantId == CovenantId(tx.inputs[b.authorizingInput], Authorized(tx.outputs, b))
  }

  predicate BindingsValid(tx: Tx, spent: seq<Output>) {
    forall j :: 0 <= j < |tx.outputs| && tx.outputs[j].binding.Some? ==>
      Continues(spent, tx.outputs[j].binding.value) || Creates(tx, tx.outputs[j].binding.value)
  }

  /** The covenant and state the transaction's first input holds, if it is one of ours. */
  function Holding(spent: seq<Output>): Option<(CovenantId, State)> {
    if spent != [] && spent[0].binding.Some? && spent[0].script.PayToCovenant? then
      Some((spent[0].binding.value.covenantId, spent[0].script.state))
    else None
  }

  predicate CovenantHolds(tx: Tx, spent: seq<Output>) {
    match Holding(spent)
    case None => true
    case Some((id, state)) => EntryHolds(tx, spent, state, id)
  }

  predicate Acceptable(l: Ledger, id: TxId, tx: Tx) {
    && id !in l.accepted
    && (forall i :: 0 <= i < |tx.inputs| ==> tx.inputs[i] in l.unspent)
    && (forall i, j :: 0 <= i < j < |tx.inputs| ==> tx.inputs[i] != tx.inputs[j])
    && tx.lockTime <= l.daa
    && InputsExist(l, tx)
    && (forall i :: 0 < i < |tx.inputs| ==> Spent(l, tx)[i].binding.None?)
    && (tx.inputs != [] ==> ValueOf(tx.outputs) <= ValueOf(Spent(l, tx)))
    && BindingsValid(tx, Spent(l, tx))
    && CovenantHolds(tx, Spent(l, tx))
  }

  ghost function Created(id: TxId, tx: Tx): set<Outpoint> {
    set j | 0 <= j < |tx.outputs| :: Outpoint(id, j)
  }

  ghost function Consumed(tx: Tx): set<Outpoint> {
    set i | 0 <= i < |tx.inputs| :: tx.inputs[i]
  }

  ghost function Accept(l: Ledger, id: TxId, tx: Tx): Ledger {
    Ledger(l.accepted[id := Accepted(tx, l.daa)], l.log + [id],
           l.unspent - Consumed(tx) + Created(id, tx), l.daa, l.pending - {id})
  }

  function See(l: Ledger, id: TxId, tx: Tx): Ledger {
    l.(pending := l.pending[id := tx])
  }

  function Wait(l: Ledger, daa: int): Ledger {
    l.(daa := daa)
  }

  /** One move of the chain: a transaction is accepted, one is seen, or time passes. */
  ghost predicate Step(l: Ledger, next: Ledger) {
    || (exists id, tx :: Acceptable(l, id, tx) && next == Accept(l, id, tx))
    || (exists id: TxId, tx :: id !in l.accepted && next == See(l, id, tx))
    || (exists daa :: daa >= l.daa && next == Wait(l, daa))
  }

  ghost predicate IsRun(run: seq<Ledger>) {
    run != [] && forall i :: 0 <= i < |run| - 1 ==> Step(run[i], run[i + 1])
  }

  /** `next` is some state of the chain at or after `l`. */
  ghost predicate Reaches(l: Ledger, next: Ledger) {
    exists run :: IsRun(run) && run[0] == l && run[|run| - 1] == next
  }

  // ----- what every run keeps -------------------------------------------------

  ghost predicate InFamily(l: Ledger, at: Outpoint, id: CovenantId) {
    Exists(l, at) && OutputAt(l, at).binding.Some? && OutputAt(l, at).binding.value.covenantId == id
  }

  /** The transaction obeyed the chain's rules, which its accepted inputs still show. */
  ghost predicate Lawful(l: Ledger, id: TxId)
    requires id in l.accepted
  {
    var a := l.accepted[id];
    && InputsExist(l, a.tx)
    && (forall i :: 0 < i < |a.tx.inputs| ==> Spent(l, a.tx)[i].binding.None?)
    && BindingsValid(a.tx, Spent(l, a.tx))
    && CovenantHolds(a.tx, Spent(l, a.tx))
    && a.tx.lockTime <= a.daa <= l.daa
  }

  ghost predicate LoggedOnce(log: seq<TxId>) {
    forall i, j :: 0 <= i < j < |log| ==> log[i] != log[j]
  }

  ghost predicate Inv(l: Ledger) {
    && l.daa >= 0
    && (forall id :: id in l.accepted <==> id in l.log)
    && LoggedOnce(l.log)
    && (forall id :: id in l.pending ==> id !in l.accepted)
    && (forall at :: at in l.unspent ==> Exists(l, at))
    && (forall id :: id in l.accepted ==> Lawful(l, id))
    && (forall at, id :: InFamily(l, at, id) ==> id.genesis !in l.unspent && Exists(l, id.genesis))
  }

  /** An id created by the gateway's offer: one minter, output 0, fixed value. */
  ghost predicate IsOffer(id: CovenantId, creator: Key, platform: Key) {
    exists price ::
      id.outputs == [AuthorizedOutput(0, MEMBERSHIP_OUTPUT_VALUE, PayToCovenant(MinterState(creator, platform, price)))]
  }

  function MinterState(creator: Key, platform: Key, price: int): State {
    State(creator, platform, creator, 0, price, true)
  }

  predicate FamilyState(s: State, creator: Key, platform: Key) {
    s.creator == creator && s.platform == platform && (s.isMinter ==> s.owner == creator && s.expiresAtDaa == 0)
  }

  ghost predicate IsMinter(l: Ledger, at: Outpoint, id: CovenantId) {
    InFamily(l, at, id) && OutputAt(l, at).script.PayToCovenant? && OutputAt(l, at).script.state.isMinter
  }

  ghost predicate Born(l: Ledger, id: CovenantId) {
    exists at :: InFamily(l, at, id)
  }

  /** Some accepted transaction called the cancel entry on the family's minter. */
  ghost predicate Cancelled(l: Ledger, id: CovenantId) {
    exists txid :: txid in l.accepted && CancelsFamily(l, txid, id)
  }

  ghost predicate CancelsFamily(l: Ledger, txid: TxId, id: CovenantId)
    requires txid in l.accepted
  {
    var tx := l.accepted[txid].tx;
    && tx.inputs != [] && InFamily(l, tx.inputs[0], id)
    && tx.entry.Some? && tx.entry.value.Cancel?
  }

  ghost predicate SoleMinter(l: Ledger, id: CovenantId, at: Outpoint) {
    at in l.unspent && IsMinter(l, at, id) && forall other :: other in l.unspent && IsMinter(l, other, id) ==> other == at
  }

  ghost predicate NoMinter(l: Ledger, id: CovenantId) {
    forall at :: at in l.unspent ==> !IsMinter(l, at, id)
  }

  /** Creator and platform never change; one live minter until cancellation, then none. */
  ghost predicate FamilyInv(l: Ledger, id: CovenantId, creator: Key, platform: Key) {
    && (forall at :: InFamily(l, at, id) ==>
          OutputAt(l, at).script.PayToCovenant? && FamilyState(OutputAt(l, at).script.state, creator, platform))
    && (Cancelled(l, id) ==> NoMinter(l, id))
    && (!Cancelled(l, id) && Born(l, id) ==> exists at :: SoleMinter(l, id, at))
  }
}
