/**
 The check that a signed payment is the prepared one, and the decision to relay it
 (backend/src/payment-gateway.ts, `sameTransaction` and `submit`). Unlike the
 membership gateway it compares named members only, each by the platform's own
 text, in which the order of keys counts.
 */
module PaymentSubmission {
  import opened Wrappers
  import opened JsonText
  import opened HexText
  import opened SignedTransaction

  /** `value[key]`, None where it is undefined. */
  function Member(v: Json, key: string): Option<Json> {
    if v.Object? && Ascii(key) in Keys(v.fields) then Some(JsonText.Find(v.fields, Ascii(key)).value) else None
  }

  /** An object literal drops the members that are undefined when printed. */
  function Present(members: seq<(string, Option<Json>)>): seq<Field> {
    if members == [] then []
    else
      (if members[0].1.Some? then [Field(Ascii(members[0].0), members[0].1.value)] else [])
      + Present(members[1..])
  }

  /** `JSON.stringify(a) === JSON.stringify(b)`, where undefined prints as itself. */
  predicate PrintAlike(a: Option<Json>, b: Option<Json>) {
    match (a, b)
    case (None, None) => true
    case (Some(x), Some(y)) => Print(x) == Print(y)
    case _ => false
  }

  // ----- what is compared -----------------------------------------------------

  const ZERO := Number(Ascii("0"))

  /** `input.utxo` can be read into: it is there and not null. */
  predicate HasUtxo(input: Json) {
    input.Object? && Member(input, "utxo").Some? && Member(input, "utxo").value != Null
  }

  function UtxoMembers(utxo: Json): (r: seq<(string, Option<Json>)>)
    ensures |r| == 4 && r[0].0 == "amount" && r[1].0 == "scriptPublicKey" && r[2].0 == "blockDaaScore" && r[3].0 == "isCoinbase"
  {
    [("amount", Member(utxo, "amount")), ("scriptPublicKey", Member(utxo, "scriptPublicKey")),
     ("blockDaaScore", Member(utxo, "blockDaaScore")), ("isCoinbase", Member(utxo, "isCoinbase"))]
  }

  function ComputeBudget(input: Json): Json {
    match Member(input, "computeBudget")
    case None => ZERO
    case Some(Null) => ZERO
    case Some(v) => v
  }

  function InputMembers(input: Json): (r: seq<(string, Option<Json>)>)
    requires HasUtxo(input)
    ensures |r| == 6 && r[0].0 == "transactionId" && r[1].0 == "index" && r[2].0 == "sequence"
    ensures r[3].0 == "sigOpCount" && r[4].0 == "computeBudget" && r[5].0 == "utxo"
  {
    [("transactionId", Member(input, "transactionId")), ("index", Member(input, "index")),
     ("sequence", Member(input, "sequence")), ("sigOpCount", Member(input, "sigOpCount")),
     ("computeBudget", Some(ComputeBudget(input))),
     ("utxo", Some(Object(Present(UtxoMembers(Member(input, "utxo").value)))))]
  }

  function NormalInput(input: Json): Json
    requires HasUtxo(input)
  {
    Object(Present(InputMembers(input)))
  }

  function ArrayOf(v: Json, key: string): seq<Json> {
    match Member(v, key)
    case Some(Array(items)) => items
    case _ => []
  }

  predicate Readable(v: Json) {
    forall i :: 0 <= i < |ArrayOf(v, "inputs")| ==> HasUtxo(ArrayOf(v, "inputs")[i])
  }

  function NormalInputs(v: Json): Json
    requires Readable(v)
  {
    var inputs := ArrayOf(v, "inputs");
    Array(seq(|inputs|, i requires 0 <= i < |inputs| => NormalInput(inputs[i])))
  }

  predicate SameMembers(a: Json, b: Json) {
    && PrintAlike(Member(a, "version"), Member(b, "version"))
    && PrintAlike(Member(a, "outputs"), Member(b, "outputs"))
    && PrintAlike(Member(a, "subnetworkId"), Member(b, "subnetworkId"))
    && PrintAlike(Member(a, "lockTime"), Member(b, "lockTime"))
    && PrintAlike(Member(a, "gas"), Member(b, "gas"))
    && PrintAlike(Member(a, "storageMass"), Member(b, "storageMass"))
    && PrintAlike(Member(a, "payload"), Member(b, "payload"))
  }

  /** An input that cannot be read makes the comparison throw. */
  predicate SamePayment(original: Json, signed: Json) {
    && SameMembers(original, signed)
    && Readable(original) && Readable(signed)
    && Print(NormalInputs(original)) == Print(NormalInputs(signed))
  }

  /** A member is the value of the object's one field of that name; nothing else has members. */
  lemma {:induction false} MemberIs(v: Json, key: string, value: Json)
    requires v.Object? ==> DistinctKeys(v.fields)
    ensures Member(v, key) == Some(value) <==> v.Object? && Field(Ascii(key), value) in v.fields
    ensures Member(v, key) == Some(value) ==> ArrayOf(v, key) == if value.Array? then value.items else []
  {
    if v.Object? && Field(Ascii(key), value) in v.fields {
      var i :| 0 <= i < |v.fields| && v.fields[i] == Field(Ascii(key), value);
      assert v.fields[i].key in Keys(v.fields);
      var found := JsonText.Find(v.fields, Ascii(key));
      var j :| 0 <= j < |v.fields| && v.fields[j] == found;
    }
  }

  // ----- what the comparison means --------------------------------------------

  ghost predicate DistinctNames(members: seq<(string, Option<Json>)>) {
    forall i, j :: 0 <= i < j < |members| ==> Ascii(members[i].0) != Ascii(members[j].0)
  }

  ghost predicate SameNames(left: seq<(string, Option<Json>)>, right: seq<(string, Option<Json>)>) {
    |left| == |right| && forall i :: 0 <= i < |left| ==> left[i].0 == right[i].0
  }

  lemma {:induction false} PresentKeys(members: seq<(string, Option<Json>)>, i: nat)
    requires i < |Present(members)|
    ensures exists j :: 0 <= j < |members| && Present(members)[i].key == Ascii(members[j].0)
  {
    var first := if members[0].1.Some? then 1 else 0;
    if i < first {
      assert Present(members)[i].key == Ascii(members[0].0);
    } else {
      PresentKeys(members[1..], i - first);
      var j :| 0 <= j < |members[1..]| && Present(members[1..])[i - first].key == Ascii(members[1..][j].0);
      assert members[j + 1] == members[1..][j];
    }
  }

  /** Literals over the same names print their members unmistakably. */
  lemma {:induction false} PresentDetermines(left: seq<(string, Option<Json>)>, right: seq<(string, Option<Json>)>)
    requires SameNames(left, right) && DistinctNames(left)
    ensures Present(left) == Present(right) <==> left == right
  {
    if left != [] {
      PresentDetermines(left[1..], right[1..]);
      FirstPresent(left);
      FirstPresent(right);
      assert left == [left[0]] + left[1..] && right == [right[0]] + right[1..];
    }
  }

  /** The text opens with the first name exactly when that member is there. */
  lemma {:induction false} FirstPresent(members: seq<(string, Option<Json>)>)
    requires members != [] && DistinctNames(members)
    ensures var p := Present(members);
            && (members[0].1.Some? <==> p != [] && p[0].key == Ascii(members[0].0))
            && (members[0].1.Some? ==> p[0].value == members[0].1.value && p[1..] == Present(members[1..]))
            && (members[0].1.None? ==> p == Present(members[1..]))
  {
    if members[0].1.None? && Present(members) != [] {
      PresentKeys(members[1..], 0);
      var j :| 0 <= j < |members[1..]| && Present(members[1..])[0].key == Ascii(members[1..][j].0);
      assert Ascii(members[0].0) != Ascii(members[j + 1].0);
    }
  }

  lemma {:induction false} LengthsDiffer(a: string, b: string)
    requires |a| != |b|
    ensures Ascii(a) != Ascii(b)
  {
  }

  lemma {:induction false} UtxoNames(utxo: Json)
    ensures DistinctNames(UtxoMembers(utxo))
  {
    var m := UtxoMembers(utxo);
    assert |m[0].0| == 6 && |m[1].0| == 15 && |m[2].0| == 13 && |m[3].0| == 10;
    forall i, j | 0 <= i < j < |m|
      ensures Ascii(m[i].0) != Ascii(m[j].0)
    {
      LengthsDiffer(m[i].0, m[j].0);
    }
  }

  lemma {:induction false} InputNames(input: Json)
    requires HasUtxo(input)
    ensures DistinctNames(InputMembers(input))
  {
    var m := InputMembers(input);
    AsciiDiffers("transactionId", "computeBudget", 0);
    assert |m[0].0| == 13 && |m[1].0| == 5 && |m[2].0| == 8 && |m[3].0| == 10 && |m[4].0| == 13 && |m[5].0| == 4;
    forall i, j | 0 <= i < j < |m|
      ensures Ascii(m[i].0) != Ascii(m[j].0)
    {
      if |m[i].0| != |m[j].0| {
        LengthsDiffer(m[i].0, m[j].0);
      }
    }
  }

  /** The members of an input that the signature may not change. */
  ghost predicate SameInput(a: Json, b: Json) {
    && Member(a, "transactionId") == Member(b, "transactionId") && Member(a, "index") == Member(b, "index")
    && Member(a, "sequence") == Member(b, "sequence") && Member(a, "sigOpCount") == Member(b, "sigOpCount")
    && (if NoBudget(a) then NoBudget(b) else Member(a, "computeBudget") == Member(b, "computeBudget"))
    && HasUtxo(a) && HasUtxo(b) && SameUtxo(Member(a, "utxo").value, Member(b, "utxo").value)
  }

  /** A compute budget that is absent, null or zero. */
  ghost predicate NoBudget(input: Json) {
    Member(input, "computeBudget") in {None, Some(Null), Some(Number(Ascii("0")))}
  }

  lemma {:induction false} BudgetsAgree(a: Json, b: Json)
    ensures ComputeBudget(a) == ComputeBudget(b) <==>
            if NoBudget(a) then NoBudget(b) else Member(a, "computeBudget") == Member(b, "computeBudget")
  {
  }

  ghost predicate SameUtxo(a: Json, b: Json) {
    && Member(a, "amount") == Member(b, "amount") && Member(a, "scriptPublicKey") == Member(b, "scriptPublicKey")
    && Member(a, "blockDaaScore") == Member(b, "blockDaaScore") && Member(a, "isCoinbase") == Member(b, "isCoinbase")
  }

  lemma {:induction false} UtxosAgree(a: Json, b: Json)
    ensures Present(UtxoMembers(a)) == Present(UtxoMembers(b)) <==> SameUtxo(a, b)
  {
    UtxoNames(a);
    PresentDetermines(UtxoMembers(a), UtxoMembers(b));
  }

  lemma {:induction false} InputsAgree(a: Json, b: Json)
    requires HasUtxo(a) && HasUtxo(b)
    ensures NormalInput(a) == NormalInput(b) <==> SameInput(a, b)
  {
    InputNames(a);
    BudgetsAgree(a, b);
    UtxosAgree(Member(a, "utxo").value, Member(b, "utxo").value);
    PresentDetermines(InputMembers(a), InputMembers(b));
  }

  /** Every member the comparison names is equal; the rest, and the signatures, are free. */
  ghost predicate EqualsWhereCompared(a: Json, b: Json) {
    && EqualMembers(a, b)
    && |ArrayOf(a, "inputs")| == |ArrayOf(b, "inputs")|
    && forall i :: 0 <= i < |ArrayOf(a, "inputs")| ==> SameInput(ArrayOf(a, "inputs")[i], ArrayOf(b, "inputs")[i])
  }

  ghost predicate EqualMembers(a: Json, b: Json) {
    && Member(a, "version") == Member(b, "version") && Member(a, "outputs") == Member(b, "outputs")
    && Member(a, "subnetworkId") == Member(b, "subnetworkId") && Member(a, "lockTime") == Member(b, "lockTime")
    && Member(a, "gas") == Member(b, "gas") && Member(a, "storageMass") == Member(b, "storageMass")
    && Member(a, "payload") == Member(b, "payload")
  }

  lemma {:induction false} ArraysAgree(a: Json, b: Json)
    requires Readable(a) && Readable(b)
    ensures NormalInputs(a) == NormalInputs(b) <==>
            && |ArrayOf(a, "inputs")| == |ArrayOf(b, "inputs")|
            && forall i :: 0 <= i < |ArrayOf(a, "inputs")| ==> SameInput(ArrayOf(a, "inputs")[i], ArrayOf(b, "inputs")[i])
  {
    var x, y := ArrayOf(a, "inputs"), ArrayOf(b, "inputs");
    if |x| == |y| {
      forall i | 0 <= i < |x|
        ensures NormalInputs(a).items[i] == NormalInputs(b).items[i] <==> SameInput(x[i], y[i])
      {
        InputsAgree(x[i], y[i]);
      }
      if forall i :: 0 <= i < |x| ==> SameInput(x[i], y[i]) {
        assert NormalInputs(a).items == NormalInputs(b).items;
      }
    } else {
      assert |NormalInputs(a).items| != |NormalInputs(b).items|;
    }
  }

  lemma {:induction false} MemberIsWellFormed(v: Json, key: string)
    requires WellFormed(v) && Member(v, key).Some?
    ensures WellFormed(Member(v, key).value)
  {
    FoundIsWellFormed(v, Ascii(key));
  }

  /** A literal over different names, of well-formed members, is well-formed. */
  lemma {:induction false} PresentIsWellFormed(members: seq<(string, Option<Json>)>)
    requires DistinctNames(members)
    requires forall i :: 0 <= i < |members| && members[i].1.Some? ==> WellFormed(members[i].1.value)
    ensures WellFormed(Object(Present(members)))
  {
    if members != [] {
      var rest := Present(members[1..]);
      PresentIsWellFormed(members[1..]);
      forall i | 0 <= i < |rest|
        ensures rest[i].key != Ascii(members[0].0)
      {
        PresentKeys(members[1..], i);
        var j :| 0 <= j < |members[1..]| && rest[i].key == Ascii(members[1..][j].0);
        assert members[j + 1] == members[1..][j];
      }
    }
  }

  lemma {:induction false} UtxoIsWellFormed(utxo: Json)
    requires WellFormed(utxo)
    ensures WellFormed(Object(Present(UtxoMembers(utxo))))
  {
    var m := UtxoMembers(utxo);
    UtxoNames(utxo);
    forall i | 0 <= i < |m| && m[i].1.Some?
      ensures WellFormed(m[i].1.value)
    {
      MemberIsWellFormed(utxo, m[i].0);
    }
    PresentIsWellFormed(m);
  }

  lemma {:induction false} BudgetIsWellFormed(input: Json)
    requires WellFormed(input)
    ensures WellFormed(ComputeBudget(input))
  {
    if Member(input, "computeBudget").Some? {
      MemberIsWellFormed(input, "computeBudget");
    }
  }

  lemma {:induction false} InputIsWellFormed(input: Json)
    requires HasUtxo(input) && WellFormed(input)
    ensures WellFormed(NormalInput(input))
  {
    var m := InputMembers(input);
    InputNames(input);
    BudgetIsWellFormed(input);
    MemberIsWellFormed(input, "utxo");
    UtxoIsWellFormed(Member(input, "utxo").value);
    forall i | 0 <= i < |m| && m[i].1.Some?
      ensures WellFormed(m[i].1.value)
    {
      if i < 4 {
        MemberIsWellFormed(input, m[i].0);
      }
    }
    PresentIsWellFormed(m);
  }

  lemma {:induction false} InputsAreWellFormed(v: Json)
    requires WellFormed(v) && Readable(v)
    ensures WellFormed(NormalInputs(v))
  {
    var inputs := ArrayOf(v, "inputs");
    forall i | 0 <= i < |inputs|
      ensures WellFormed(NormalInput(inputs[i]))
    {
      MemberIsWellFormed(v, "inputs");
      InputIsWellFormed(inputs[i]);
    }
  }

  /** Every input shows the coin it spends. */
  ghost predicate HaveUtxos(v: Json) {
    forall i :: 0 <= i < |ArrayOf(v, "inputs")| ==> ShowsUtxo(ArrayOf(v, "inputs")[i])
  }

  ghost predicate ShowsUtxo(input: Json) {
    Member(input, "utxo").Some? && !Member(input, "utxo").value.Null?
  }

  lemma {:induction false} UtxosAreThere(v: Json)
    ensures Readable(v) <==> HaveUtxos(v)
  {
    forall i | 0 <= i < |ArrayOf(v, "inputs")|
      ensures HasUtxo(ArrayOf(v, "inputs")[i]) <==> ShowsUtxo(ArrayOf(v, "inputs")[i])
    {
    }
  }

  /** The comparison holds exactly when everything it names is equal. */
  lemma {:induction false} SamePaymentMeans(original: Json, signed: Json)
    requires WellFormed(original) && WellFormed(signed)
    ensures SamePayment(original, signed) <==>
            HaveUtxos(original) && HaveUtxos(signed) && EqualsWhereCompared(original, signed)
  {
    UtxosAreThere(original);
    UtxosAreThere(signed);
    MembersAgree(original, signed);
    if Readable(original) && Readable(signed) {
      ArraysAgree(original, signed);
      InputsAreWellFormed(original);
      InputsAreWellFormed(signed);
      PrintIsInjective(NormalInputs(original), NormalInputs(signed));
    }
  }

  lemma {:induction false} PrintsAlikeWhenEqual(a: Json, b: Json, key: string)
    requires WellFormed(a) && WellFormed(b)
    ensures PrintAlike(Member(a, key), Member(b, key)) <==> Member(a, key) == Member(b, key)
  {
    if Member(a, key).Some? && Member(b, key).Some? {
      MemberIsWellFormed(a, key);
      MemberIsWellFormed(b, key);
      PrintIsInjective(Member(a, key).value, Member(b, key).value);
    }
  }

  lemma {:induction false} MembersAgree(a: Json, b: Json)
    requires WellFormed(a) && WellFormed(b)
    ensures SameMembers(a, b) <==> EqualMembers(a, b)
  {
    PrintsAlikeWhenEqual(a, b, "version");
    PrintsAlikeWhenEqual(a, b, "outputs");
    PrintsAlikeWhenEqual(a, b, "subnetworkId");
    PrintsAlikeWhenEqual(a, b, "lockTime");
    PrintsAlikeWhenEqual(a, b, "gas");
    PrintsAlikeWhenEqual(a, b, "storageMass");
    PrintsAlikeWhenEqual(a, b, "payload");
  }

  // ----- the decision to relay ------------------------------------------------

  predicate IsString(v: Json, key: string) {
    Member(v, key).Some? && Member(v, key).value.Str?
  }

  predicate IsTransactionShape(v: Json) {
    && Member(v, "version") == Some(ZERO) && ArrayOf(v, "inputs") != [] && ArrayOf(v, "outputs") != []
    && IsString(v, "subnetworkId") && IsString(v, "lockTime") && IsString(v, "gas") && IsString(v, "storageMass")
    && IsString(v, "payload")
  }

  predicate HasAllSignatures(v: Json) {
    var inputs := ArrayOf(v, "inputs");
    inputs != [] && forall i :: 0 <= i < |inputs| ==>
      Member(inputs[i], "signatureScript").Some? && ValidSignature(Member(inputs[i], "signatureScript").value)
  }

  datatype Stored = Stored(transaction: Text, fingerprint: Text)

  /** `submit` up to the relay; `inputsHold` is what the node says of the inputs' coins. */
  function SubmitPayment(
    parse: Text -> Option<Json>, digest: Text -> Text, inputsHold: Json -> bool, stored: Stored,
    signedText: Text): Decision
  {
    match (parse(stored.transaction), parse(signedText))
    case (Some(original), Some(signed)) =>
      if !IsTransactionShape(original) || !IsTransactionShape(signed) then Rejected("INVALID_TRANSACTION")
      else if digest(stored.transaction) != stored.fingerprint then Rejected("INVALID_PREPARED_TEMPLATE")
      else if !SamePayment(original, signed) then Rejected("PREPARED_TRANSACTION_CHANGED")
      else if !HasAllSignatures(signed) then Rejected("INVALID_SIGNATURES")
      else if !inputsHold(signed) then Rejected("INPUT_CHANGED")
      else Relays(signedText)
    case _ => Rejected("INVALID_TRANSACTION")
  }

  /**
   A signed payment is relayed exactly when its template is the stored, unaltered
   one, everything the comparison names is unchanged, every input is signed and
   spends what it says; and then it pays the template's outputs from the
   template's coins.
   */
  lemma {:induction false} RelaysOnlyThePreparedPayment(
    parse: Text -> Option<Json>, digest: Text -> Text, inputsHold: Json -> bool, stored: Stored,
    signedText: Text, original: Json, signed: Json)
    requires parse(stored.transaction) == Some(original) && parse(signedText) == Some(signed)
    requires WellFormed(original) && WellFormed(signed)
    ensures SubmitPayment(parse, digest, inputsHold, stored, signedText).Relays? <==>
            && digest(stored.transaction) == stored.fingerprint
            && IsTemplate(original)
            && HaveUtxos(original) && HaveUtxos(signed) && EqualsWhereCompared(original, signed)
            && (forall i :: 0 <= i < |ArrayOf(signed, "inputs")| ==>
                  && Member(ArrayOf(signed, "inputs")[i], "signatureScript").Some?
                  && IsSignature(Member(ArrayOf(signed, "inputs")[i], "signatureScript").value))
            && inputsHold(signed)
    ensures SubmitPayment(parse, digest, inputsHold, stored, signedText).Relays? ==>
            Member(signed, "outputs") == Member(original, "outputs")
            && |ArrayOf(signed, "inputs")| == |ArrayOf(original, "inputs")|
  {
    RelaysWhen(parse, digest, inputsHold, stored, signedText, original, signed);
    SamePaymentMeans(original, signed);
    TemplatesAre(original);
    AllSigned(signed);
    if EqualsWhereCompared(original, signed) {
      ShapeFollows(original, signed);
    }
  }

  lemma {:induction false} RelaysWhen(
    parse: Text -> Option<Json>, digest: Text -> Text, inputsHold: Json -> bool, stored: Stored,
    signedText: Text, original: Json, signed: Json)
    requires parse(stored.transaction) == Some(original) && parse(signedText) == Some(signed)
    ensures SubmitPayment(parse, digest, inputsHold, stored, signedText).Relays? <==>
            && IsTransactionShape(original) && IsTransactionShape(signed) && digest(stored.transaction) == stored.fingerprint
            && SamePayment(original, signed) && HasAllSignatures(signed) && inputsHold(signed)
  {
  }

  /** Version 0, with inputs and outputs, its other members texts. */
  ghost predicate IsTemplate(v: Json) {
    && Member(v, "version") == Some(Number(Ascii("0")))
    && ArrayOf(v, "inputs") != [] && ArrayOf(v, "outputs") != []
    && forall k :: k in {"subnetworkId", "lockTime", "gas", "storageMass", "payload"} ==> IsText(Member(v, k))
  }

  ghost predicate IsText(member: Option<Json>) {
    member.Some? && member.value.Str?
  }

  lemma {:induction false} TemplatesAre(v: Json)
    ensures IsTransactionShape(v) <==> IsTemplate(v)
  {
    if IsTemplate(v) {
      assert IsText(Member(v, "subnetworkId")) && IsText(Member(v, "lockTime")) && IsText(Member(v, "gas"));
      assert IsText(Member(v, "storageMass")) && IsText(Member(v, "payload"));
    }
  }

  lemma {:induction false} AllSigned(v: Json)
    ensures HasAllSignatures(v) <==>
            && ArrayOf(v, "inputs") != []
            && forall i :: 0 <= i < |ArrayOf(v, "inputs")| ==>
                 && Member(ArrayOf(v, "inputs")[i], "signatureScript").Some?
                 && IsSignature(Member(ArrayOf(v, "inputs")[i], "signatureScript").value)
  {
    var inputs := ArrayOf(v, "inputs");
    forall i | 0 <= i < |inputs| && Member(inputs[i], "signatureScript").Some?
      ensures ValidSignature(Member(inputs[i], "signatureScript").value) <==>
              IsSignature(Member(inputs[i], "signatureScript").value)
    {
      SignaturesAre(Member(inputs[i], "signatureScript").value);
    }
  }

  /** A payment sent back as it was prepared, with any signature absent, null or empty, is refused for want of it. */
  lemma {:induction false} UnsignedPaymentIsRefused(
    parse: Text -> Option<Json>, digest: Text -> Text, inputsHold: Json -> bool, stored: Stored, original: Json, i: nat)
    requires parse(stored.transaction) == Some(original) && WellFormed(original)
    requires IsTransactionShape(original) && Readable(original) && digest(stored.transaction) == stored.fingerprint
    requires i < |ArrayOf(original, "inputs")|
    requires var script := Member(ArrayOf(original, "inputs")[i], "signatureScript");
             script.None? || script.value in {Null, Str([])}
    ensures SubmitPayment(parse, digest, inputsHold, stored, stored.transaction) == Rejected("INVALID_SIGNATURES")
  {
    SamePaymentAsItself(original);
    BlankIsUnsigned(original, i);
    OwnTemplate(parse, digest, inputsHold, stored, original);
  }

  lemma {:induction false} SamePaymentAsItself(v: Json)
    requires Readable(v)
    ensures SamePayment(v, v)
  {
  }

  lemma {:induction false} BlankIsUnsigned(v: Json, i: nat)
    requires i < |ArrayOf(v, "inputs")|
    requires var script := Member(ArrayOf(v, "inputs")[i], "signatureScript");
             script.None? || script.value in {Null, Str([])}
    ensures !HasAllSignatures(v)
  {
  }

  lemma {:induction false} OwnTemplate(
    parse: Text -> Option<Json>, digest: Text -> Text, inputsHold: Json -> bool, stored: Stored, original: Json)
    requires parse(stored.transaction) == Some(original) && IsTransactionShape(original)
    requires digest(stored.transaction) == stored.fingerprint && SamePayment(original, original) && !HasAllSignatures(original)
    ensures SubmitPayment(parse, digest, inputsHold, stored, stored.transaction) == Rejected("INVALID_SIGNATURES")
  {
  }

  /**
   Why a payment that parses is refused, in this order: its shape, a stored template
   that was altered, another change, a missing signature, a coin that is not as said.
   */
  lemma {:induction false} PaymentRefusalsInOrder(
    parse: Text -> Option<Json>, digest: Text -> Text, inputsHold: Json -> bool, stored: Stored,
    signedText: Text, original: Json, signed: Json)
    requires parse(stored.transaction) == Some(original) && parse(signedText) == Some(signed)
    requires WellFormed(original) && WellFormed(signed)
    requires SubmitPayment(parse, digest, inputsHold, stored, signedText).Rejected?
    ensures var reason := SubmitPayment(parse, digest, inputsHold, stored, signedText).reason;
            var shaped := IsTransactionShape(original) && IsTransactionShape(signed);
            var genuine := digest(stored.transaction) == stored.fingerprint;
            var same := HaveUtxos(original) && HaveUtxos(signed) && EqualsWhereCompared(original, signed);
            && (reason == "INVALID_TRANSACTION" <==> !shaped)
            && (reason == "INVALID_PREPARED_TEMPLATE" <==> shaped && !genuine)
            && (reason == "PREPARED_TRANSACTION_CHANGED" <==> shaped && genuine && !same)
            && (reason == "INVALID_SIGNATURES" <==> shaped && genuine && same && !HasAllSignatures(signed))
            && (reason == "INPUT_CHANGED" <==> shaped && genuine && same && HasAllSignatures(signed))
  {
    SamePaymentMeans(original, signed);
    ReasonIs(parse, digest, inputsHold, stored, signedText, original, signed);
  }

  lemma {:induction false} ReasonIs(
    parse: Text -> Option<Json>, digest: Text -> Text, inputsHold: Json -> bool, stored: Stored,
    signedText: Text, original: Json, signed: Json)
    requires parse(stored.transaction) == Some(original) && parse(signedText) == Some(signed)
    requires SubmitPayment(parse, digest, inputsHold, stored, signedText).Rejected?
    ensures var reason := SubmitPayment(parse, digest, inputsHold, stored, signedText).reason;
            var shaped := IsTransactionShape(original) && IsTransactionShape(signed);
            var genuine, same := digest(stored.transaction) == stored.fingerprint, SamePayment(original, signed);
            && (reason == "INVALID_TRANSACTION" <==> !shaped)
            && (reason == "INVALID_PREPARED_TEMPLATE" <==> shaped && !genuine)
            && (reason == "PREPARED_TRANSACTION_CHANGED" <==> shaped && genuine && !same)
            && (reason == "INVALID_SIGNATURES" <==> shaped && genuine && same && !HasAllSignatures(signed))
            && (reason == "INPUT_CHANGED" <==> shaped && genuine && same && HasAllSignatures(signed))
  {
    var reason := SubmitPayment(parse, digest, inputsHold, stored, signedText).reason;
    ReasonsDiffer(reason, IsTransactionShape(original) && IsTransactionShape(signed), digest(stored.transaction) == stored.fingerprint,
                  SamePayment(original, signed), HasAllSignatures(signed));
  }

  lemma {:induction false} ReasonsDiffer(reason: string, shaped: bool, genuine: bool, same: bool, signed: bool)
    requires reason == if !shaped then "INVALID_TRANSACTION" else if !genuine then "INVALID_PREPARED_TEMPLATE"
                       else if !same then "PREPARED_TRANSACTION_CHANGED" else if !signed then "INVALID_SIGNATURES" else "INPUT_CHANGED"
    ensures reason == "INVALID_TRANSACTION" <==> !shaped
    ensures reason == "INVALID_PREPARED_TEMPLATE" <==> shaped && !genuine
    ensures reason == "PREPARED_TRANSACTION_CHANGED" <==> shaped && genuine && !same
    ensures reason == "INVALID_SIGNATURES" <==> shaped && genuine && same && !signed
    ensures reason == "INPUT_CHANGED" <==> shaped && genuine && same && signed
  {
    assert |"INVALID_TRANSACTION"| == 19 && |"INVALID_PREPARED_TEMPLATE"| == 25 && |"PREPARED_TRANSACTION_CHANGED"| == 28;
    assert |"INVALID_SIGNATURES"| == 18 && |"INPUT_CHANGED"| == 13;
  }

  lemma {:induction false} ShapeFollows(original: Json, signed: Json)
    requires EqualsWhereCompared(original, signed)
    ensures IsTransactionShape(original) <==> IsTransactionShape(signed)
  {
  }

  /** What does not parse is refused before anything is compared. */
  lemma {:induction false} UnparsedIsRefused(
    parse: Text -> Option<Json>, digest: Text -> Text, inputsHold: Json -> bool, stored: Stored, signedText: Text)
    requires parse(stored.transaction).None? || parse(signedText).None?
    ensures SubmitPayment(parse, digest, inputsHold, stored, signedText) == Rejected("INVALID_TRANSACTION")
  {
  }
}
