/** When the verifier answers at all, and what it answers when a membership is not valid. */
module VerifierAnswers {
  import opened Wrappers
  import opened MembershipContract
  import opened Chain
  import opened Ledger
  import opened Verifier

  /**
   The accepted transaction passes for a mint of a membership, but its redeem script
   holds a negative integer, which no script can be written for again.
   */
  ghost predicate ShowsNegative(v: View, txid: TxId) {
    && txid in v.ledger.accepted
    && var tx := v.ledger.accepted[txid].tx;
       && tx.version == 1 && |tx.outputs| > 1 && tx.outputs[1].binding.Some? && tx.payload.MembershipNote?
       && var decoded := DecodeMembershipRedeemScript(v.contract, tx.payload.memberRedeemScript);
          && decoded.Some? && !decoded.value.isMinter
          && (decoded.value.expiresAtDaa == -1 || decoded.value.priceSompi == -1)
  }

  /** The node knows the transaction, and nothing in it is unwritable. */
  ghost predicate Answerable(v: View, txid: TxId) {
    (txid in v.ledger.accepted || txid in v.ledger.pending) && !ShowsNegative(v, txid)
  }

  /**
   Verifying throws exactly when the node does not know the transaction, or an
   accepted one reaches its redeem script's re-encoding with a negative integer.
   */
  lemma {:induction false} ThrowsExactlyWhen(v: View, txid: TxId, index: nat, e: Expected)
    ensures VerifyUtxo(v, txid, index, e).Err? <==>
            || (txid !in v.ledger.accepted && txid !in v.ledger.pending)
            || (index == 1 && ShowsNegative(v, txid))
    ensures VerifyUtxo(v, txid, index, e).Err? ==>
              VerifyUtxo(v, txid, index, e).error == if txid in v.ledger.accepted then "INVALID_DAA" else "Kaspa verification failed"
  {
    if txid in v.ledger.accepted && v.ledger.accepted[txid].tx.payload.MembershipNote? {
      var script := v.ledger.accepted[txid].tx.payload.memberRedeemScript;
      if DecodeMembershipRedeemScript(v.contract, script).Some? {
        DecodeThenEncode(v.contract, script);
      }
    }
  }

  // ----- the owner scan -------------------------------------------------------

  /** The scan follows exactly the coins of 50,000,000. */
  lemma {:induction false} PointersAre(coins: seq<Utxo>, txid: TxId)
    ensures txid in Pointers(coins) <==>
            exists i :: 0 <= i < |coins| && coins[i].output.value == 50_000_000 && coins[i].outpoint.transactionId == txid
  {
    if coins != [] {
      PointersAre(coins[1..], txid);
      if i :| 0 <= i < |coins| - 1 && coins[1..][i].output.value == 50_000_000 && coins[1..][i].outpoint.transactionId == txid {
        assert coins[i + 1] == coins[1..][i];
      }
      if i :| 0 <= i < |coins| && coins[i].output.value == 50_000_000 && coins[i].outpoint.transactionId == txid {
        assert i > 0 ==> coins[1..][i - 1] == coins[i];
      }
    }
  }

  /** It follows them in the order they are listed in, as often as they are listed. */
  lemma {:induction false} PointersFollowTheList(front: seq<Utxo>, coin: Utxo)
    ensures Pointers(front + [coin]) ==
            Pointers(front) + (if coin.output.value == 50_000_000 then [coin.outpoint.transactionId] else [])
  {
    var all := front + [coin];
    if front == [] {
      assert all[1..] == [];
    } else {
      assert all[0] == front[0] && all[1..] == front[1..] + [coin];
      PointersFollowTheList(front[1..], coin);
      FirstPointer(front);
      FirstPointer(all);
    }
  }

  lemma {:induction false} FirstPointer(coins: seq<Utxo>)
    requires coins != []
    ensures Pointers(coins) ==
            (if coins[0].output.value == 50_000_000 then [coins[0].outpoint.transactionId] else []) + Pointers(coins[1..])
  {
  }

  /**
   The scan stops at the first pointer that throws or verifies: k is its place. It
   reports what was thrown, or exactly that check; without one it finds nothing.
   */
  lemma {:induction false} ScanStopsAt(v: View, pointers: seq<TxId>, e: Expected) returns (k: nat)
    ensures k <= |pointers|
    ensures forall j :: 0 <= j < k ==> Answerable(v, pointers[j]) && !IsValid(VerifyUtxo(v, pointers[j], 1, e))
    ensures k < |pointers| ==> !Answerable(v, pointers[k]) || IsValid(VerifyUtxo(v, pointers[k], 1, e))
    ensures FirstValid(v, pointers, e) ==
            if k == |pointers| then Ok(None)
            else
              match VerifyUtxo(v, pointers[k], 1, e)
              case Err(error) => Err(error)
              case Ok(check) => Ok(Some(check))
  {
    k := 0;
    if pointers != [] {
      ThrowsExactlyWhen(v, pointers[0], 1, e);
      if Answerable(v, pointers[0]) && !IsValid(VerifyUtxo(v, pointers[0], 1, e)) {
        var m := ScanStopsAt(v, pointers[1..], e);
        k := m + 1;
        assert forall j :: 0 < j < |pointers| ==> pointers[j] == pointers[1..][j - 1];
      }
    }
  }

  /** If every pointer can be answered, the scan answers, and finds a membership exactly if one is VALID. */
  lemma {:induction false} ScanAnswers(v: View, pointers: seq<TxId>, e: Expected)
    requires forall t :: t in pointers ==> Answerable(v, t)
    ensures FirstValid(v, pointers, e).Ok?
    ensures FirstValid(v, pointers, e).value.Some? <==> exists t :: t in pointers && IsValid(VerifyUtxo(v, t, 1, e))
  {
    var k := ScanStopsAt(v, pointers, e);
    if k < |pointers| {
      ThrowsExactlyWhen(v, pointers[k], 1, e);
    }
    forall t | t in pointers && k == |pointers|
      ensures !IsValid(VerifyUtxo(v, t, 1, e))
    {
      var j :| 0 <= j < |pointers| && pointers[j] == t;
    }
  }

  // ----- the other answers ----------------------------------------------------

  /** Output 1 is locked by the very membership the accepted transaction's payload shows. */
  ghost predicate ShowsMembership(v: View, txid: TxId, e: Expected, member: State) {
    && Encodable(member) && !member.isMinter
    && txid in v.ledger.accepted
    && var tx := v.ledger.accepted[txid].tx;
       && tx.version == 1 && |tx.outputs| > 1
       && tx.payload.MembershipNote? && tx.payload.memberRedeemScript == RedeemBytes(v.contract, member)
       && tx.outputs[1].script == PayToCovenant(member)
       && tx.outputs[1].binding.Some? && tx.outputs[1].binding.value.authorizingInput == 0
       && (e.covenantId.Some? ==> tx.outputs[1].binding.value.covenantId == e.covenantId.value)
  }

  lemma {:induction false} ShownIsDecoded(v: View, txid: TxId, e: Expected, member: State)
    requires ShowsMembership(v, txid, e, member)
    ensures DecodeMembershipRedeemScript(v.contract, v.ledger.accepted[txid].tx.payload.memberRedeemScript) == Some(member)
  {
    EncodeThenDecode(v.contract, member);
  }

  /**
   OWNER_MISMATCH is answered exactly for a shown membership of somebody else than
   the expected owner, whoever its creator and spent or not.
   */
  lemma {:induction false} MismatchIff(v: View, txid: TxId, index: nat, e: Expected)
    ensures VerifyUtxo(v, txid, index, e).Ok? && VerifyUtxo(v, txid, index, e).value.status == OWNER_MISMATCH <==>
            && index == 1 && e.owner.Some?
            && exists member ::
                 && ShowsMembership(v, txid, e, member) && member.owner != e.owner.value
                 && v.hasAddress(member.platform) && (e.creator.Some? || v.hasAddress(member.creator))
  {
    var r := VerifyUtxo(v, txid, index, e);
    if r.Ok? && r.value.status == OWNER_MISMATCH {
      var member := MismatchShows(v, txid, index, e);
    }
    if member :| index == 1 && e.owner.Some? && ShowsMembership(v, txid, e, member) && member.owner != e.owner.value
                 && v.hasAddress(member.platform) && (e.creator.Some? || v.hasAddress(member.creator)) {
      ShownIsDecoded(v, txid, e, member);
    }
  }

  lemma {:induction false} MismatchShows(v: View, txid: TxId, index: nat, e: Expected) returns (member: State)
    requires VerifyUtxo(v, txid, index, e).Ok? && VerifyUtxo(v, txid, index, e).value.status == OWNER_MISMATCH
    ensures index == 1 && e.owner.Some? && ShowsMembership(v, txid, e, member) && member.owner != e.owner.value
    ensures v.hasAddress(member.platform) && (e.creator.Some? || v.hasAddress(member.creator))
  {
    var script := v.ledger.accepted[txid].tx.payload.memberRedeemScript;
    member := DecodeMembershipRedeemScript(v.contract, script).value;
    DecodeThenEncode(v.contract, script);
  }

  /** What every answer says beside its status: the output asked about, its covenant, and the expiry of a shown membership. */
  lemma {:induction false} AnswersNameTheirOutput(v: View, txid: TxId, index: nat, e: Expected)
    requires VerifyUtxo(v, txid, index, e).Ok?
    ensures var check, tx := VerifyUtxo(v, txid, index, e).value, Lookup(v.ledger, txid).value.0;
            && check.transactionId == txid && check.outputIndex == index
            && check.covenantId ==
               (if index < |tx.outputs| && tx.outputs[index].binding.Some? then Some(tx.outputs[index].binding.value.covenantId) else None)
            && (check.status == NOT_MEMBERSHIP <==> check.expiresAtDaa.None?)
            && (check.expiresAtDaa.Some? ==> exists member :: ShowsMembership(v, txid, e, member) && check.expiresAtDaa.value == member.expiresAtDaa)
  {
    var check := VerifyUtxo(v, txid, index, e).value;
    if check.status == OWNER_MISMATCH {
      var member := MismatchShows(v, txid, index, e);
      ShownIsDecoded(v, txid, e, member);
    } else if check.status != NOT_MEMBERSHIP {
      var member := VerifiesHolds(v, txid, index, e);
      HoldsVerifies(v, txid, e, member);
      assert ShowsMembership(v, txid, e, member);
    }
  }
}
