/**
 Reading a membership back from the chain (backend/src/verifier.ts). An address
 stands for its key; `hasAddress` says which keys are valid points.
 */
module Verifier {
  import opened Wrappers
  import opened Bytes
  import opened MembershipContract
  import opened Chain
  import opened Fees
  import opened Covenant
  import opened Ledger
  import opened LedgerInvariants
  import opened LedgerRuns

  datatype Status = VALID | EXPIRED | OWNER_MISMATCH | NOT_MEMBERSHIP

  datatype Check = Check(
    transactionId: TxId, outputIndex: nat, covenantId: Option<CovenantId>,
    expiresAtDaa: Option<int>, status: Status)

  /** The expectations a caller may leave undefined. */
  datatype Expected = Expected(owner: Option<Key>, covenantId: Option<CovenantId>, creator: Option<Key>)

  /** The node's view: the covenant's fixed bytes, the valid keys and the ledger. */
  datatype View = View(contract: Contract, hasAddress: Key -> bool, ledger: Ledger)

  function KeyAddress(v: View, key: Key): Option<Key> {
    if v.hasAddress(key) then Some(key) else None
  }

  function OrElse(key: Option<Key>, other: Option<Key>): Option<Key> {
    if key.Some? then key else other
  }

  /** A transaction the node knows, and whether it is accepted. */
  function Lookup(l: Ledger, txid: TxId): Option<(Tx, bool)> {
    if txid in l.accepted then Some((l.accepted[txid].tx, true))
    else if txid in l.pending then Some((l.pending[txid], false))
    else None
  }

  /** The outpoint is listed among the unspent outputs of the script's address. */
  predicate IsUnspent(l: Ledger, script: Script, at: Outpoint) {
    at in l.unspent && Exists(l, at) && OutputAt(l, at).script == script
  }

  function NoteOf(payload: Payload): Option<Data> {
    match payload
    case MembershipNote(redeem, _, _) => Some(redeem)
    case OtherPayload(_) => None
  }

  function NotMembership(txid: TxId, index: nat, covenantId: Option<CovenantId>): Check {
    Check(txid, index, covenantId, None, NOT_MEMBERSHIP)
  }

  function CheckMemberOutput(v: View, txid: TxId, index: nat, tx: Tx, isAccepted: bool, e: Expected): Result<Check> {
    var output := if index < |tx.outputs| then Some(tx.outputs[index]) else None;
    var binding := if output.Some? then output.value.binding else None;
    var covenantId := if binding.Some? then Some(binding.value.covenantId) else None;
    var note := NoteOf(tx.payload);
    var decoded := if note.Some? then DecodeMembershipRedeemScript(v.contract, note.value) else None;
    var refused := Ok(NotMembership(txid, index, covenantId));
    if !isAccepted || tx.version != 1 || index != 1 || output.None? || binding.None?
       || decoded.None? || decoded.value.isMinter then refused
    else if !Encodable(decoded.value) then Err("INVALID_DAA")
    else if output.value.script != PayToCovenant(decoded.value)
            || binding.value.authorizingInput != 0
            || (e.covenantId.Some? && covenantId != e.covenantId) then refused
    else
      var state := decoded.value;
      var owner := OrElse(e.owner, KeyAddress(v, state.owner));
      var creator := OrElse(e.creator, KeyAddress(v, state.creator));
      if owner.None? || creator.None? || KeyAddress(v, state.platform).None? then refused
      else if state.owner != owner.value then
        Ok(Check(txid, index, covenantId, Some(state.expiresAtDaa), OWNER_MISMATCH))
      else if state.creator != creator.value then refused
      else if !IsUnspent(v.ledger, PayToCovenant(state), Outpoint(txid, index)) then refused
      else
        Ok(Check(txid, index, covenantId, Some(state.expiresAtDaa),
                 if state.expiresAtDaa > v.ledger.daa then VALID else EXPIRED))
  }

  function VerifyUtxo(v: View, txid: TxId, index: nat, e: Expected): Result<Check> {
    match Lookup(v.ledger, txid)
    case None => Err("Kaspa verification failed")
    case Some((tx, isAccepted)) => CheckMemberOutput(v, txid, index, tx, isAccepted, e)
  }

  predicate IsValid(r: Result<Check>) {
    r.Ok? && r.value.status == VALID
  }

  /** The wallet's coins that point at a membership, in the order the node lists them. */
  function Pointers(coins: seq<Utxo>): seq<TxId> {
    if coins == [] then []
    else
      (if coins[0].output.value == MEMBERSHIP_INDEX_VALUE then [coins[0].outpoint.transactionId] else [])
      + Pointers(coins[1..])
  }

  /** `findMembership`, over the pointers of the owner's coins. */
  function FirstValid(v: View, pointers: seq<TxId>, e: Expected): Result<Option<Check>> {
    if pointers == [] then Ok(None)
    else
      match VerifyUtxo(v, pointers[0], 1, e)
      case Err(error) => Err(error)
      case Ok(check) => if check.status == VALID then Ok(Some(check)) else FirstValid(v, pointers[1..], e)
  }

  function FindMembership(v: View, coins: seq<Utxo>, owner: Key, creator: Key, covenantId: Option<CovenantId>)
    : Result<Option<Check>>
  {
    FirstValid(v, Pointers(coins), Expected(Some(owner), covenantId, Some(creator)))
  }

  /** What the owner scan finds is a membership that verifies on its own. */
  lemma {:induction false} FoundIsValid(v: View, pointers: seq<TxId>, e: Expected)
    ensures var r := FirstValid(v, pointers, e);
            r.Ok? && r.value.Some? ==>
              r.value.value.transactionId in pointers && VerifyUtxo(v, r.value.value.transactionId, 1, e) == Ok(r.value.value)
              && r.value.value.status == VALID
    ensures var r := FirstValid(v, pointers, e);
            r == Ok(None) ==> forall t :: t in pointers ==> !IsValid(VerifyUtxo(v, t, 1, e))
  {
    if pointers != [] {
      FoundIsValid(v, pointers[1..], e);
      match Lookup(v.ledger, pointers[0])
      case None =>
      case Some(_) =>
    }
  }

  // ----- what VALID means -----------------------------------------------------

  /**
   Output 1 of an accepted version 1 transaction is locked by exactly the redeem
   script its payload shows, holds the expected membership, and is unspent.
   */
  ghost predicate Holds(v: View, txid: TxId, e: Expected, member: State) {
    var l, at := v.ledger, Outpoint(txid, 1);
    && txid in l.accepted && Exists(l, at) && l.accepted[txid].tx.version == 1
    && NoteOf(l.accepted[txid].tx.payload) == MembershipScriptBytes(v.contract, member)
    && !member.isMinter
    && OutputAt(l, at).script == PayToCovenant(member)
    && OutputAt(l, at).binding.Some? && OutputAt(l, at).binding.value.authorizingInput == 0
    && (e.covenantId.Some? ==> OutputAt(l, at).binding.value.covenantId == e.covenantId.value)
    && at in l.unspent
    && v.hasAddress(member.platform)
    && (if e.owner.Some? then e.owner.value == member.owner else v.hasAddress(member.owner))
    && (if e.creator.Some? then e.creator.value == member.creator else v.hasAddress(member.creator))
  }

  /** The redeem script of a state the gateway can encode. */
  function MembershipScriptBytes(c: Contract, s: State): Option<Data> {
    match MembershipRedeemScript(c, s)
    case Ok(bytes) => Some(bytes)
    case Err(_) => None
  }

  lemma {:induction false} HoldsVerifies(v: View, txid: TxId, e: Expected, member: State)
    requires Holds(v, txid, e, member) && Encodable(member)
    ensures VerifyUtxo(v, txid, 1, e) ==
            Ok(Check(txid, 1, Some(OutputAt(v.ledger, Outpoint(txid, 1)).binding.value.covenantId),
                     Some(member.expiresAtDaa), if member.expiresAtDaa > v.ledger.daa then VALID else EXPIRED))
  {
    EncodeThenDecode(v.contract, member);
  }

  lemma {:induction false} VerifiesHolds(v: View, txid: TxId, index: nat, e: Expected) returns (member: State)
    requires VerifyUtxo(v, txid, index, e).Ok?
    requires VerifyUtxo(v, txid, index, e).value.status in {VALID, EXPIRED}
    ensures index == 1 && Encodable(member) && Holds(v, txid, e, member)
  {
    var (tx, isAccepted) := Lookup(v.ledger, txid).value;
    var script := NoteOf(tx.payload).value;
    member := DecodeMembershipRedeemScript(v.contract, script).value;
    DecodeThenEncode(v.contract, script);
  }

  /** VALID exactly for an unspent, unexpired membership meeting the expectations. */
  lemma {:induction false} ValidIff(v: View, txid: TxId, index: nat, e: Expected)
    ensures IsValid(VerifyUtxo(v, txid, index, e)) <==>
            index == 1 && exists member :: Encodable(member) && Holds(v, txid, e, member) && member.expiresAtDaa > v.ledger.daa
  {
    if IsValid(VerifyUtxo(v, txid, index, e)) {
      var member := VerifiesHolds(v, txid, index, e);
      HoldsVerifies(v, txid, e, member);
    }
    if member :| index == 1 && Encodable(member) && Holds(v, txid, e, member) && member.expiresAtDaa > v.ledger.daa {
      HoldsVerifies(v, txid, e, member);
    }
  }

  // ----- soundness over runs --------------------------------------------------

  lemma {:induction false} CreatedAtZero(tx: Tx, b: Binding, creator: Key, platform: Key, j: nat)
    requires Creates(tx, b) && IsOffer(b.covenantId, creator, platform)
    requires j < |tx.outputs| && tx.outputs[j].binding == Some(b)
    ensures j == 0
  {
    var bound := BoundIndices(tx.outputs, b);
    assert |Authorized(tx.outputs, b)| == |bound| == 1;
    assert Authorized(tx.outputs, b)[0].index == bound[0];
    assert j in bound;
  }

  /** Output 1 of an offer's family comes from an entry called on the family's minter. */
  lemma {:induction false} SecondOutputMoved(l: Ledger, txid: TxId, family: CovenantId, creator: Key, platform: Key)
    requires Inv(l) && FamilyInv(l, family, creator, platform) && IsOffer(family, creator, platform)
    requires InFamily(l, Outpoint(txid, 1), family)
    ensures var tx := l.accepted[txid].tx;
            && tx.inputs != [] && InFamily(l, tx.inputs[0], family)
            && OutputAt(l, tx.inputs[0]).script.PayToCovenant?
            && FamilyState(OutputAt(l, tx.inputs[0]).script.state, creator, platform)
            && EntryHolds(tx, Spent(l, tx), OutputAt(l, tx.inputs[0]).script.state, family)
            && tx.outputs[1].binding == Some(Binding(family, 0))
  {
    var tx := l.accepted[txid].tx;
    assert Lawful(l, txid);
    var b := tx.outputs[1].binding.value;
    if Creates(tx, b) {
      CreatedAtZero(tx, b, creator, platform, 1);
    }
    assert b.authorizingInput == 0;
    assert Holding(Spent(l, tx)) == Some((family, OutputAt(l, tx.inputs[0]).script.state));
  }

  /**
   In every reachable state, VALID in an offer's family means a mint of that
   family paid the creator and the platform, for this owner, at most thirty days
   of DAA before. Live and cancelled minters are never VALID.
   */
  lemma {:induction false} ValidMeansPaidMint(
    v: View, txid: TxId, index: nat, owner: Key, family: CovenantId, creator: Key, platform: Key)
    requires Reachable(v.ledger) && IsOffer(family, creator, platform)
    requires IsValid(VerifyUtxo(v, txid, index, Expected(Some(owner), Some(family), Some(creator))))
    ensures Inv(v.ledger) && txid in v.ledger.accepted && MintsIn(v.ledger, txid, family)
    ensures var tx := v.ledger.accepted[txid].tx;
            var member := tx.entry.value.member;
            var fee := MembershipFeeSompi(member.priceSompi);
            && member.owner == owner && member.creator == creator && member.platform == platform
            && PriceInBounds(member.priceSompi)
            && PaysAt(tx, tx.entry.value.payment, PayToKey(creator), member.priceSompi - fee)
            && (fee > 0 ==> PaysAt(tx, tx.entry.value.platform, PayToKey(platform), fee))
            && v.ledger.daa < member.expiresAtDaa <= v.ledger.accepted[txid].daa + MEMBERSHIP_DURATION_DAA
  {
    var l, e := v.ledger, Expected(Some(owner), Some(family), Some(creator));
    var member := VerifiesHolds(v, txid, index, e);
    HoldsVerifies(v, txid, e, member);
    OfferFamilies(l, family, creator, platform);
    SecondOutputMoved(l, txid, family, creator, platform);
    var tx := l.accepted[txid].tx;
    var prev := OutputAt(l, tx.inputs[0]).script.state;
    assert Lawful(l, txid);
    SecondOutputIsMember(tx, Spent(l, tx), prev, family, member, l.daa);
    MintPaysItsTerms(l, txid, family, creator, platform);
    FeeFormulasAgree(member.priceSompi);
  }

  lemma {:induction false} SecondOutputIsMember(tx: Tx, spent: seq<Output>, prev: State, family: CovenantId, member: State, daa: int)
    requires EntryHolds(tx, spent, prev, family) && |tx.outputs| > 1
    requires tx.outputs[1].binding == Some(Binding(family, 0)) && tx.outputs[1].script == PayToCovenant(member)
    requires !member.isMinter && member.expiresAtDaa > daa >= 0
    requires prev.isMinter ==> prev.expiresAtDaa == 0
    ensures tx.entry.value.Mint? && tx.entry.value.member == member
  {
    OnlyMintersMove(tx, spent, prev, family);
    var bound := BoundIndices(tx.outputs, Binding(family, 0));
    assert 1 in bound;
    var k :| 0 <= k < |bound| && bound[k] == 1;
  }
}
