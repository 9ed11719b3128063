/**
 The check that a signed transaction is the prepared one, and the decision to
 relay it (backend/src/membership-gateway.ts, `sameTransaction` and `submit`).
 */
module SignedTransaction {
  import opened Wrappers
  import opened JsonText
  import opened HexText
  import opened CanonicalJson

  function Ascii(word: string): (r: Text)
    ensures |r| == |word|
  {
    seq(|word|, i requires 0 <= i < |word| => if word[i] as int < 0x80 then word[i] as int else 0)
  }

  lemma {:induction false} AsciiDiffers(left: string, right: string, i: nat)
    requires i < |left| && i < |right| && left[i] as int < 0x80 && right[i] as int < 0x80 && left[i] != right[i]
    ensures Ascii(left) != Ascii(right)
  {
    assert Ascii(left)[i] != Ascii(right)[i];
  }

  const ID := Ascii("id")
  const INPUTS := Ascii("inputs")
  const SIGNATURE_SCRIPT := Ascii("signatureScript")

  /** `{...object, [key]: value}`: replaces the member, or adds it at the end. */
  function SetField(fields: seq<Field>, key: Text, value: Json): seq<Field> {
    if fields == [] then [Field(key, value)]
    else if fields[0].key == key then [Field(key, value)] + fields[1..]
    else [fields[0]] + SetField(fields[1..], key, value)
  }

  function MembersOf(v: Json): map<Text, Value>
    requires v.Object?
  {
    Meaning(v).members
  }

  /** A member, or null; an absent member also prints as null. */
  function GetOrNull(v: Json, key: Text): Json
    requires v.Object?
  {
    if key in Keys(v.fields) then Find(v.fields, key).value else Null
  }

  /** An object whose `inputs` is an array of objects, as every template is. */
  predicate HasInputs(v: Json) {
    && v.Object? && GetOrNull(v, INPUTS).Array?
    && forall i :: 0 <= i < |Inputs(v)| ==> Inputs(v)[i].Object?
  }

  function Inputs(v: Json): seq<Json>
    requires v.Object? && GetOrNull(v, INPUTS).Array?
  {
    GetOrNull(v, INPUTS).items
  }

  /** The inputs are the items of the object's one array of that name, all of them objects. */
  lemma {:induction false} InputsAre(v: Json, items: seq<Json>)
    requires v.Object? ==> DistinctKeys(v.fields)
    ensures HasInputs(v) && Inputs(v) == items <==>
            && v.Object? && Field(Ascii("inputs"), Array(items)) in v.fields
            && forall i :: 0 <= i < |items| ==> items[i].Object?
  {
    if v.Object? && Field(INPUTS, Array(items)) in v.fields {
      var i :| 0 <= i < |v.fields| && v.fields[i] == Field(INPUTS, Array(items));
      assert v.fields[i].key in Keys(v.fields);
      var found := Find(v.fields, INPUTS);
      var j :| 0 <= j < |v.fields| && v.fields[j] == found;
    }
  }

  function NormalizedInput(input: Json, signs: bool): Json
    requires input.Object?
  {
    Object(SetField(input.fields, SIGNATURE_SCRIPT,
                    if signs then Str([]) else GetOrNull(input, SIGNATURE_SCRIPT)))
  }

  function NormalInputs(v: Json, signInputs: seq<nat>): seq<Json>
    requires HasInputs(v)
  {
    seq(|Inputs(v)|, i requires 0 <= i < |Inputs(v)| => NormalizedInput(Inputs(v)[i], i in signInputs))
  }

  function Normalized(v: Json, signInputs: seq<nat>): Json
    requires HasInputs(v)
  {
    Object(SetField(SetField(v.fields, ID, Str([])), INPUTS, Array(NormalInputs(v, signInputs))))
  }

  /**
   A value without an array of input objects either throws or gains members no
   template has, so it never compares equal.
   */
  predicate SameTransaction(original: Json, signed: Json, signInputs: seq<nat>) {
    && HasInputs(original) && HasInputs(signed)
    && Canonical(Normalized(original, signInputs)) == Canonical(Normalized(signed, signInputs))
  }

  // ----- what the comparison leaves open --------------------------------------

  /** Equal but for `id` and the signature scripts the wallet was asked for. */
  ghost predicate EqualsButSignatures(original: Json, signed: Json, signInputs: seq<nat>)
    requires HasInputs(original) && HasInputs(signed)
  {
    && MembersOf(original) - {ID, INPUTS} == MembersOf(signed) - {ID, INPUTS}
    && |Inputs(original)| == |Inputs(signed)|
    && forall i :: 0 <= i < |Inputs(original)| ==>
         InputEqualsButSignature(Inputs(original)[i], Inputs(signed)[i], i in signInputs)
  }

  ghost predicate InputEqualsButSignature(original: Json, signed: Json, signs: bool)
    requires original.Object? && signed.Object?
  {
    && MembersOf(original) - {SIGNATURE_SCRIPT} == MembersOf(signed) - {SIGNATURE_SCRIPT}
    && (!signs ==> Meaning(GetOrNull(original, SIGNATURE_SCRIPT)) == Meaning(GetOrNull(signed, SIGNATURE_SCRIPT)))
  }

  lemma {:induction false} KeysCons(fields: seq<Field>)
    requires fields != []
    ensures Keys(fields) == {fields[0].key} + Keys(fields[1..])
  {
    var rest := fields[1..];
    assert forall i :: 0 <= i < |rest| ==> rest[i] == fields[i + 1];
    forall k | k in Keys(fields)
      ensures k == fields[0].key || k in Keys(rest)
    {
      var i :| 0 <= i < |fields| && fields[i].key == k;
      assert i > 0 ==> rest[i - 1].key == k;
    }
  }

  lemma {:induction false} SetFieldKeys(fields: seq<Field>, key: Text, value: Json)
    ensures Keys(SetField(fields, key, value)) == Keys(fields) + {key}
  {
    var after := SetField(fields, key, value);
    KeysCons(after);
    if fields != [] {
      KeysCons(fields);
      assert after[1..] == if fields[0].key == key then fields[1..] else SetField(fields[1..], key, value);
      SetFieldKeys(fields[1..], key, value);
    } else {
      assert Keys(after[1..]) == {};
    }
  }

  lemma {:induction false} SetFieldFind(fields: seq<Field>, key: Text, value: Json, k: Text)
    requires k in Keys(SetField(fields, key, value))
    ensures k != key ==> k in Keys(fields)
    ensures Find(SetField(fields, key, value), k).value == if k == key then value else Find(fields, k).value
  {
    var after := SetField(fields, key, value);
    SetFieldKeys(fields, key, value);
    if fields != [] && fields[0].key != key && fields[0].key != k {
      KeysCons(after);
      assert after[1..] == SetField(fields[1..], key, value);
      SetFieldFind(fields[1..], key, value, k);
    } else if fields != [] && fields[0].key == key && k != key {
      assert after[1..] == fields[1..];
    }
  }

  lemma {:induction false} MembersAre(fields: seq<Field>, k: Text)
    ensures k in MembersOf(Object(fields)) <==> k in Keys(fields)
    ensures k in Keys(fields) ==> MembersOf(Object(fields))[k] == Meaning(Find(fields, k).value)
  {
  }

  lemma {:induction false} SetFieldSets(fields: seq<Field>, key: Text, value: Json)
    requires WellFormed(Object(fields)) && WellFormed(value)
    ensures WellFormed(Object(SetField(fields, key, value)))
    ensures MembersOf(Object(SetField(fields, key, value))) == MembersOf(Object(fields))[key := Meaning(value)]
  {
    SetFieldItems(fields, key, value);
    SetFieldMembers(fields, key, value);
  }

  lemma {:induction false} SetFieldMemberAt(fields: seq<Field>, key: Text, value: Json, k: Text)
    ensures var after := MembersOf(Object(SetField(fields, key, value)));
            if k == key then k in after && after[k] == Meaning(value)
            else (k in after <==> k in MembersOf(Object(fields)))
                 && (k in after ==> after[k] == MembersOf(Object(fields))[k])
  {
    var after := SetField(fields, key, value);
    SetFieldKeys(fields, key, value);
    MembersAre(after, k);
    MembersAre(fields, k);
    if k in Keys(after) {
      SetFieldFind(fields, key, value, k);
    }
  }

  lemma {:induction false} SetFieldMembers(fields: seq<Field>, key: Text, value: Json)
    ensures MembersOf(Object(SetField(fields, key, value))) == MembersOf(Object(fields))[key := Meaning(value)]
  {
    var after, before := MembersOf(Object(SetField(fields, key, value))), MembersOf(Object(fields));
    forall k
      ensures if k == key then k in after && after[k] == Meaning(value)
              else (k in after <==> k in before) && (k in after ==> after[k] == before[k])
    {
      SetFieldMemberAt(fields, key, value, k);
    }
    SameMap(after, before[key := Meaning(value)]);
  }

  lemma {:induction false} SameMap(a: map<Text, Value>, b: map<Text, Value>)
    requires forall k :: (k in a <==> k in b) && (k in a ==> a[k] == b[k])
    ensures a == b
  {
  }

  lemma {:induction false} SetFieldItems(fields: seq<Field>, key: Text, value: Json)
    requires WellFormed(Object(fields)) && WellFormed(value)
    ensures WellFormed(Object(SetField(fields, key, value)))
    ensures forall f :: f in SetField(fields, key, value) <==> f == Field(key, value) || (f in fields && f.key != key)
  {
    var after := SetField(fields, key, value);
    if fields != [] {
      var head, rest := fields[0], fields[1..];
      assert forall i :: 0 <= i < |rest| ==> rest[i] == fields[i + 1];
      assert forall f :: f in fields <==> f == head || f in rest;
      if head.key == key {
        assert forall f :: f in rest ==> f.key != key;
      } else {
        assert WellFormed(Object(rest));
        SetFieldItems(rest, key, value);
        var tail := SetField(rest, key, value);
        forall i | 0 <= i < |tail|
          ensures tail[i].key != head.key
        {
          assert tail[i] in tail;
        }
      }
    }
  }

  lemma {:induction false} InputsNormalize(input: Json, signs: bool)
    requires WellFormed(input) && input.Object?
    ensures WellFormed(NormalizedInput(input, signs))
    ensures Meaning(NormalizedInput(input, signs)) ==
            VObject(MembersOf(input)[SIGNATURE_SCRIPT :=
              if signs then VStr([]) else Meaning(GetOrNull(input, SIGNATURE_SCRIPT))])
  {
    FoundIsWellFormed(input, SIGNATURE_SCRIPT);
    SetFieldSets(input.fields, SIGNATURE_SCRIPT,
                 if signs then Str([]) else GetOrNull(input, SIGNATURE_SCRIPT));
  }

  lemma {:induction false} FoundIsWellFormed(v: Json, key: Text)
    requires WellFormed(v) && v.Object?
    ensures WellFormed(GetOrNull(v, key))
  {
  }

  lemma {:induction false} NormalizesTo(v: Json, signInputs: seq<nat>)
    requires WellFormed(v) && HasInputs(v)
    ensures WellFormed(Normalized(v, signInputs))
    ensures Meaning(Normalized(v, signInputs)) ==
            VObject(MembersOf(v)[ID := VStr([])][INPUTS := Meaning(Array(NormalInputs(v, signInputs)))])
  {
    var normal := Array(NormalInputs(v, signInputs));
    assert WellFormed(normal) by {
      FoundIsWellFormed(v, INPUTS);
      forall i | 0 <= i < |normal.items|
        ensures WellFormed(normal.items[i])
      {
        InputsNormalize(Inputs(v)[i], i in signInputs);
      }
    }
    var first := SetField(v.fields, ID, Str([]));
    SetFieldSets(v.fields, ID, Str([]));
    SetFieldSets(first, INPUTS, normal);
    assert Normalized(v, signInputs) == Object(SetField(first, INPUTS, normal));
  }

  lemma {:induction false} UpdatesAgree(left: map<Text, Value>, right: map<Text, Value>, key: Text, x: Value, y: Value)
    ensures left[key := x] == right[key := y] <==> left - {key} == right - {key} && x == y
  {
    var a, b := left[key := x], right[key := y];
    assert a[key] == x && b[key] == y;
    assert a - {key} == left - {key} && b - {key} == right - {key};
    if left - {key} == right - {key} && x == y {
      forall k
        ensures k in a <==> k in b
        ensures k in a && k in b ==> a[k] == b[k]
      {
        if k != key {
          assert k in left - {key} <==> k in left;
          assert k in right - {key} <==> k in right;
        }
      }
    }
  }

  lemma {:induction false} InputsAgree(original: Json, signed: Json, signs: bool)
    requires WellFormed(original) && WellFormed(signed) && original.Object? && signed.Object?
    ensures Meaning(NormalizedInput(original, signs)) == Meaning(NormalizedInput(signed, signs))
            <==> InputEqualsButSignature(original, signed, signs)
  {
    InputsNormalize(original, signs);
    InputsNormalize(signed, signs);
    UpdatesAgree(MembersOf(original), MembersOf(signed), SIGNATURE_SCRIPT,
                 if signs then VStr([]) else Meaning(GetOrNull(original, SIGNATURE_SCRIPT)),
                 if signs then VStr([]) else Meaning(GetOrNull(signed, SIGNATURE_SCRIPT)));
  }

  lemma {:induction false} UpdatedTwiceAgree(left: map<Text, Value>, right: map<Text, Value>, x: Value, y: Value)
    ensures left[ID := VStr([])][INPUTS := x] == right[ID := VStr([])][INPUTS := y]
            <==> left - {ID, INPUTS} == right - {ID, INPUTS} && x == y
  {
    UpdatesAgree(left[ID := VStr([])], right[ID := VStr([])], INPUTS, x, y);
    UpdatesAgree(left - {INPUTS}, right - {INPUTS}, ID, VStr([]), VStr([]));
    assert left[ID := VStr([])] - {INPUTS} == (left - {INPUTS})[ID := VStr([])];
    assert right[ID := VStr([])] - {INPUTS} == (right - {INPUTS})[ID := VStr([])];
    assert left - {INPUTS} - {ID} == left - {ID, INPUTS};
    assert right - {INPUTS} - {ID} == right - {ID, INPUTS};
  }

  /** The comparison holds exactly when nothing but ids and requested signatures differs. */
  lemma {:induction false} SameTransactionMeans(original: Json, signed: Json, signInputs: seq<nat>)
    requires WellFormed(original) && WellFormed(signed) && HasInputs(original) && HasInputs(signed)
    ensures SameTransaction(original, signed, signInputs) <==> EqualsButSignatures(original, signed, signInputs)
  {
    var a, b := Array(NormalInputs(original, signInputs)), Array(NormalInputs(signed, signInputs));
    NormalizesTo(original, signInputs);
    NormalizesTo(signed, signInputs);
    CanonicalIsInjective(Normalized(original, signInputs), Normalized(signed, signInputs));
    UpdatedTwiceAgree(MembersOf(original), MembersOf(signed), Meaning(a), Meaning(b));
    NormalInputsAgree(original, signed, signInputs);
  }

  lemma {:induction false} NormalInputsAgree(original: Json, signed: Json, signInputs: seq<nat>)
    requires WellFormed(original) && WellFormed(signed) && HasInputs(original) && HasInputs(signed)
    ensures Meaning(Array(NormalInputs(original, signInputs))) == Meaning(Array(NormalInputs(signed, signInputs)))
            <==> && |Inputs(original)| == |Inputs(signed)|
                 && forall i :: 0 <= i < |Inputs(original)| ==>
                      InputEqualsButSignature(Inputs(original)[i], Inputs(signed)[i], i in signInputs)
  {
    var a, b := NormalInputs(original, signInputs), NormalInputs(signed, signInputs);
    FoundIsWellFormed(original, INPUTS);
    FoundIsWellFormed(signed, INPUTS);
    ArraysAgree(a, b);
    if |a| == |b| {
      forall i | 0 <= i < |a|
        ensures Meaning(a[i]) == Meaning(b[i]) <==>
                InputEqualsButSignature(Inputs(original)[i], Inputs(signed)[i], i in signInputs)
      {
        InputsAgree(Inputs(original)[i], Inputs(signed)[i], i in signInputs);
      }
    }
  }

  lemma {:induction false} ArraysAgree(left: seq<Json>, right: seq<Json>)
    ensures Meaning(Array(left)) == Meaning(Array(right)) <==>
            |left| == |right| && forall i :: 0 <= i < |left| ==> Meaning(left[i]) == Meaning(right[i])
  {
    var a, b := Meaning(Array(left)).items, Meaning(Array(right)).items;
    assert |a| == |left| && |b| == |right|;
    if a == b {
      forall i | 0 <= i < |left|
        ensures Meaning(left[i]) == Meaning(right[i])
      {
        assert a[i] == b[i];
      }
    }
  }

  // ----- the decision to relay ------------------------------------------------

  datatype Prepared = Prepared(transaction: Text, fingerprint: Text, signInputs: seq<nat>)

  datatype Decision = Rejected(reason: string) | Relays(transaction: Text)

  predicate SignedAt(signed: Json, index: nat)
    requires HasInputs(signed)
  {
    index < |Inputs(signed)| && ValidSignature(GetOrNull(Inputs(signed)[index], SIGNATURE_SCRIPT))
  }

  /** `submit` up to the relay. Parsing and hashing are the platform's own. */
  function Submit(parse: Text -> Option<Json>, digest: Text -> Text, prepared: Prepared, signedText: Text): Decision {
    match (parse(prepared.transaction), parse(signedText))
    case (Some(original), Some(signed)) =>
      if digest(prepared.transaction) != prepared.fingerprint then Rejected("INVALID_PREPARED_TEMPLATE")
      else if !SameTransaction(original, signed, prepared.signInputs) then Rejected("PREPARED_TRANSACTION_CHANGED")
      else if !(forall index :: index in prepared.signInputs ==> SignedAt(signed, index)) then
        Rejected("INVALID_SIGNATURES")
      else Relays(signedText)
    case _ => Rejected("INVALID_TRANSACTION")
  }

  /**
   A text is relayed exactly when it parses to the stored, unaltered template
   with valid signatures added where they were asked for, and nothing else
   changed but the id.
   */
  lemma {:induction false} RelaysOnlyTheSignedTemplate(
    parse: Text -> Option<Json>, digest: Text -> Text, prepared: Prepared, signedText: Text,
    original: Json, signed: Json)
    requires parse(prepared.transaction) == Some(original) && parse(signedText) == Some(signed)
    requires WellFormed(original) && WellFormed(signed) && HasInputs(original)
    ensures Submit(parse, digest, prepared, signedText).Relays? <==>
            && digest(prepared.transaction) == prepared.fingerprint
            && HasInputs(signed)
            && EqualsButSignatures(original, signed, prepared.signInputs)
            && forall index :: index in prepared.signInputs ==>
                 index < |Inputs(signed)| && IsSignature(GetOrNull(Inputs(signed)[index], SIGNATURE_SCRIPT))
    ensures Submit(parse, digest, prepared, signedText).Relays? ==>
            Submit(parse, digest, prepared, signedText).transaction == signedText
  {
    if HasInputs(signed) {
      SameTransactionMeans(original, signed, prepared.signInputs);
      SignedAsAsked(signed, prepared.signInputs);
    }
  }

  lemma {:induction false} SignedAsAsked(signed: Json, signInputs: seq<nat>)
    requires HasInputs(signed)
    ensures (forall index :: index in signInputs ==> SignedAt(signed, index)) <==>
            (forall index :: index in signInputs ==>
               index < |Inputs(signed)| && IsSignature(GetOrNull(Inputs(signed)[index], SIGNATURE_SCRIPT)))
  {
    forall index | index in signInputs && index < |Inputs(signed)|
      ensures SignedAt(signed, index) <==> IsSignature(GetOrNull(Inputs(signed)[index], SIGNATURE_SCRIPT))
    {
      SignaturesAre(GetOrNull(Inputs(signed)[index], SIGNATURE_SCRIPT));
    }
  }

  /**
   A prepared transaction sent back as it was prepared, its requested signatures
   absent, null or empty, is refused for want of them; asking for none, it would be relayed.
   */
  lemma {:induction false} UnsignedTemplateIsRefused(
    parse: Text -> Option<Json>, digest: Text -> Text, prepared: Prepared, original: Json)
    requires parse(prepared.transaction) == Some(original) && WellFormed(original) && HasInputs(original)
    requires digest(prepared.transaction) == prepared.fingerprint
    requires forall i :: i in prepared.signInputs && i < |Inputs(original)| ==>
               GetOrNull(Inputs(original)[i], SIGNATURE_SCRIPT) in {Null, Str([])}
    ensures Submit(parse, digest, prepared, prepared.transaction) ==
            if prepared.signInputs == [] then Relays(prepared.transaction) else Rejected("INVALID_SIGNATURES")
  {
    if prepared.signInputs != [] {
      var index := prepared.signInputs[0];
      assert index in prepared.signInputs && !SignedAt(original, index);
    }
  }

  /** Why a text that parses is refused: a stored template that was altered, then any other change, then a missing signature. */
  lemma {:induction false} RefusalsInOrder(
    parse: Text -> Option<Json>, digest: Text -> Text, prepared: Prepared, signedText: Text, original: Json, signed: Json)
    requires parse(prepared.transaction) == Some(original) && parse(signedText) == Some(signed)
    requires WellFormed(original) && WellFormed(signed) && HasInputs(original)
    requires Submit(parse, digest, prepared, signedText).Rejected?
    ensures var reason := Submit(parse, digest, prepared, signedText).reason;
            && (reason == "INVALID_PREPARED_TEMPLATE" <==> digest(prepared.transaction) != prepared.fingerprint)
            && (reason == "PREPARED_TRANSACTION_CHANGED" <==>
                  && digest(prepared.transaction) == prepared.fingerprint
                  && !(HasInputs(signed) && EqualsButSignatures(original, signed, prepared.signInputs)))
            && (reason == "INVALID_SIGNATURES" <==>
                  && digest(prepared.transaction) == prepared.fingerprint
                  && HasInputs(signed) && EqualsButSignatures(original, signed, prepared.signInputs))
  {
    assert |"INVALID_PREPARED_TEMPLATE"| == 25 && |"PREPARED_TRANSACTION_CHANGED"| == 28 && |"INVALID_SIGNATURES"| == 18;
    if HasInputs(signed) {
      SameTransactionMeans(original, signed, prepared.signInputs);
    }
  }

  /** What does not parse is refused before anything is compared. */
  lemma {:induction false} UnparsedIsRefused(parse: Text -> Option<Json>, digest: Text -> Text, prepared: Prepared, signedText: Text)
    ensures parse(prepared.transaction).None? || parse(signedText).None? <==>
            Submit(parse, digest, prepared, signedText) == Rejected("INVALID_TRANSACTION")
  {
    assert |"INVALID_TRANSACTION"| == 19 && |"INVALID_PREPARED_TEMPLATE"| == 25;
    assert |"PREPARED_TRANSACTION_CHANGED"| == 28 && |"INVALID_SIGNATURES"| == 18;
  }
}
