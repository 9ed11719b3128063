/**
 The canonical text of a JSON value (backend/src/membership-gateway.ts,
 `canonical`), which writes the keys of every object in order, and the proof that
 it determines the value up to the order of object keys.
 */
module CanonicalJson {
  import opened Wrappers
  import opened JsonText

  /** What a JSON value means once the order of object keys is forgotten. */
  datatype Value =
    | VNull
    | VBool(value: bool)
    | VNumber(printed: Text)
    | VStr(text: Text)
    | VArray(items: seq<Value>)
    | VObject(members: map<Text, Value>)

  // ----- meaning --------------------------------------------------------------

  function Meaning(v: Json): Value {
    match v
    case Null => VNull
    case Bool(value) => VBool(value)
    case Number(printed) => VNumber(printed)
    case Str(text) => VStr(text)
    case Array(items) => VArray(seq(|items|, i requires 0 <= i < |items| => Meaning(items[i])))
    case Object(fields) =>
      VObject(map key | key in Keys(fields) :: Meaning(Find(fields, key).value))
  }

  // ----- sorting by key -------------------------------------------------------

  /** `left` sorts before `right`, unit by unit. */
  predicate Before(left: Text, right: Text) {
    if left == [] then right != []
    else if right == [] then false
    else if left[0] != right[0] then left[0] < right[0]
    else Before(left[1..], right[1..])
  }

  lemma {:induction false} BeforeIsTotal(left: Text, right: Text)
    ensures left == right || Before(left, right) || Before(right, left)
  {
    if left != [] && right != [] && left[0] == right[0] {
      BeforeIsTotal(left[1..], right[1..]);
      assert left == [left[0]] + left[1..] && right == [right[0]] + right[1..];
    }
  }

  lemma {:induction false} BeforeIsStrict(left: Text, right: Text)
    ensures !(Before(left, right) && Before(right, left)) && !Before(left, left)
  {
    if left != [] {
      BeforeIsStrict(left[1..], if right == [] then [] else right[1..]);
    }
  }

  lemma {:induction false} BeforeIsTransitive(a: Text, b: Text, c: Text)
    requires Before(a, b) && Before(b, c)
    ensures Before(a, c)
  {
    if a != [] && a[0] == b[0] && b[0] == c[0] {
      BeforeIsTransitive(a[1..], b[1..], c[1..]);
    }
  }

  function Insert(field: Field, sorted: seq<Field>): seq<Field> {
    if sorted == [] then [field]
    else if Before(sorted[0].key, field.key) then [sorted[0]] + Insert(field, sorted[1..])
    else [field] + sorted
  }

  function SortFields(fields: seq<Field>): (r: seq<Field>)
    ensures |r| == |fields|
    ensures forall f :: f in r <==> f in fields
  {
    if fields == [] then []
    else
      InsertKeeps(fields[0], SortFields(fields[1..]));
      Insert(fields[0], SortFields(fields[1..]))
  }

  lemma {:induction false} InsertKeeps(field: Field, sorted: seq<Field>)
    ensures |Insert(field, sorted)| == |sorted| + 1
    ensures forall f :: f in Insert(field, sorted) <==> f == field || f in sorted
  {
    if sorted != [] {
      InsertKeeps(field, sorted[1..]);
    }
  }

  ghost predicate Sorted(fields: seq<Field>) {
    forall i, j :: 0 <= i < j < |fields| ==> Before(fields[i].key, fields[j].key)
  }

  lemma {:induction false} InsertSorts(field: Field, sorted: seq<Field>)
    requires Sorted(sorted) && forall f :: f in sorted ==> f.key != field.key
    ensures Sorted(Insert(field, sorted))
  {
    if sorted != [] {
      var head := sorted[0].key;
      if Before(head, field.key) {
        InsertSorts(field, sorted[1..]);
        InsertKeeps(field, sorted[1..]);
        var rest := Insert(field, sorted[1..]);
        forall i | 0 <= i < |rest|
          ensures Before(head, rest[i].key)
        {
          assert rest[i] in rest;
        }
      } else {
        assert sorted[0] in sorted;
        BeforeIsTotal(head, field.key);
        forall i | 0 < i < |sorted|
          ensures Before(field.key, sorted[i].key)
        {
          BeforeIsTransitive(field.key, head, sorted[i].key);
        }
      }
    }
  }

  lemma {:induction false} SortFieldsSorts(fields: seq<Field>)
    requires DistinctKeys(fields)
    ensures Sorted(SortFields(fields))
  {
    if fields != [] {
      SortFieldsSorts(fields[1..]);
      InsertSorts(fields[0], SortFields(fields[1..]));
    }
  }

  // ----- the canonical text ---------------------------------------------------

  function Canonical(v: Json): Text {
    match v
    case Null => NULL_TEXT
    case Bool(value) => if value then TRUE_TEXT else FALSE_TEXT
    case Number(printed) => printed
    case Str(text) => Quote(text)
    case Array(items) =>
      [OPEN_ARRAY] + Join(seq(|items|, i requires 0 <= i < |items| => Canonical(items[i]))) + [CLOSE_ARRAY]
    case Object(fields) =>
      var sorted := SortFields(fields);
      assert forall i :: 0 <= i < |sorted| ==> sorted[i] in sorted;
      [OPEN_OBJECT]
      + Join(seq(|sorted|, i requires 0 <= i < |sorted| =>
               Quote(sorted[i].key) + [COLON] + Canonical(sorted[i].value)))
      + [CLOSE_OBJECT]
  }

  /** The value with the keys of all its objects in order. */
  function Arranged(v: Json): Json {
    match v
    case Array(items) => Array(seq(|items|, i requires 0 <= i < |items| => Arranged(items[i])))
    case Object(fields) =>
      var sorted := SortFields(fields);
      assert forall i :: 0 <= i < |sorted| ==> sorted[i] in sorted;
      Object(seq(|sorted|, i requires 0 <= i < |sorted| => Field(sorted[i].key, Arranged(sorted[i].value))))
    case _ => v
  }

  /** The canonical text is the platform's text of the arranged value. */
  lemma {:induction false} CanonicalPrints(v: Json)
    ensures Canonical(v) == Print(Arranged(v))
    decreases v
  {
    if v.Array? {
      forall i | 0 <= i < |v.items|
        ensures Canonical(v.items[i]) == Print(Arranged(v).items[i])
      {
        CanonicalPrints(v.items[i]);
      }
      var items := Arranged(v).items;
      assert seq(|v.items|, i requires 0 <= i < |v.items| => Canonical(v.items[i])) ==
             seq(|items|, i requires 0 <= i < |items| => Print(items[i]));
    } else if v.Object? {
      var sorted, fields := SortFields(v.fields), Arranged(v).fields;
      forall i | 0 <= i < |sorted|
        ensures fields[i].key == sorted[i].key && Canonical(sorted[i].value) == Print(fields[i].value)
      {
        assert sorted[i] in v.fields;
        CanonicalPrints(sorted[i].value);
      }
      assert seq(|sorted|, i requires 0 <= i < |sorted| => Quote(sorted[i].key) + [COLON] + Canonical(sorted[i].value)) ==
             seq(|fields|, i requires 0 <= i < |fields| => Quote(fields[i].key) + [COLON] + Print(fields[i].value));
    }
  }

  // ----- arranging keeps the meaning, and the meaning fixes the arrangement ----

  lemma {:induction false} SortedKeysUnique(left: seq<Field>, right: seq<Field>)
    requires Sorted(left) && Sorted(right) && Keys(left) == Keys(right)
    ensures |left| == |right| && forall i :: 0 <= i < |left| ==> left[i].key == right[i].key
  {
    NoKeys(left);
    NoKeys(right);
    if left != [] {
      FirstKey(left, right);
      FirstKey(right, left);
      BeforeIsStrict(left[0].key, right[0].key);
      RestKeys(left);
      RestKeys(right);
      SortedKeysUnique(left[1..], right[1..]);
      assert forall i :: 0 < i < |left| ==> left[i] == left[1..][i - 1] && right[i] == right[1..][i - 1];
    }
  }

  lemma {:induction false} NoKeys(fields: seq<Field>)
    ensures Keys(fields) == {} <==> fields == []
  {
    assert fields != [] ==> fields[0].key in Keys(fields);
  }

  lemma {:induction false} FirstKey(left: seq<Field>, right: seq<Field>)
    requires left != [] && right != [] && Sorted(left) && Keys(left) == Keys(right)
    ensures left[0].key == right[0].key || Before(left[0].key, right[0].key)
  {
    assert right[0].key in Keys(right);
    var i :| 0 <= i < |left| && left[i].key == right[0].key;
  }

  lemma {:induction false} RestKeys(fields: seq<Field>)
    requires fields != [] && Sorted(fields)
    ensures Keys(fields[1..]) == Keys(fields) - {fields[0].key}
  {
    forall i | 0 < i < |fields|
      ensures fields[i].key != fields[0].key && fields[i] == fields[1..][i - 1]
    {
      BeforeIsStrict(fields[0].key, fields[i].key);
    }
    assert forall i :: 0 <= i < |fields[1..]| ==> fields[1..][i] == fields[i + 1];
  }

  lemma {:induction false} FindIs(fields: seq<Field>, field: Field)
    requires DistinctKeys(fields) && field in fields
    ensures field.key in Keys(fields) && Find(fields, field.key) == field
  {
  }

  lemma {:induction false} SortedAreDistinct(fields: seq<Field>)
    requires Sorted(fields)
    ensures DistinctKeys(fields)
  {
    forall i, j | 0 <= i < j < |fields|
      ensures fields[i].key != fields[j].key
    {
      BeforeIsStrict(fields[i].key, fields[j].key);
    }
  }

  lemma {:induction false} SortedKeySets(fields: seq<Field>)
    ensures Keys(SortFields(fields)) == Keys(fields)
  {
    var sorted := SortFields(fields);
    forall key | key in Keys(fields)
      ensures key in Keys(sorted)
    {
      assert Find(fields, key) in sorted;
    }
    forall key | key in Keys(sorted)
      ensures key in Keys(fields)
    {
      assert Find(sorted, key) in fields;
    }
  }

  /** Arranged members are the sorted ones, each arranged. */
  lemma {:induction false} ArrangedFields(v: Json)
    requires WellFormed(v) && v.Object?
    ensures var sorted, fields := SortFields(v.fields), Arranged(v).fields;
            && Sorted(sorted) && DistinctKeys(fields) && Keys(fields) == Keys(v.fields) && |fields| == |sorted|
            && (forall i :: 0 <= i < |sorted| ==>
                  && sorted[i] in v.fields && Find(v.fields, sorted[i].key) == sorted[i]
                  && fields[i] == Field(sorted[i].key, Arranged(sorted[i].value)))
  {
    var sorted, fields := SortFields(v.fields), Arranged(v).fields;
    SortFieldsSorts(v.fields);
    SortedAreDistinct(sorted);
    SortedKeySets(v.fields);
    forall i | 0 <= i < |sorted|
      ensures sorted[i] in v.fields && Find(v.fields, sorted[i].key) == sorted[i]
    {
      assert sorted[i] in sorted;
      FindIs(v.fields, sorted[i]);
    }
    SameKeys(fields, sorted);
  }

  lemma {:induction false} SameKeys(left: seq<Field>, right: seq<Field>)
    requires |left| == |right| && forall i :: 0 <= i < |left| ==> left[i].key == right[i].key
    ensures Keys(left) == Keys(right)
  {
    forall key | key in Keys(left)
      ensures key in Keys(right)
    {
      var i :| 0 <= i < |left| && left[i].key == key;
      assert right[i].key == key;
    }
    forall key | key in Keys(right)
      ensures key in Keys(left)
    {
      var i :| 0 <= i < |right| && right[i].key == key;
      assert left[i].key == key;
    }
  }

  lemma {:induction false} ArrangedMeans(v: Json)
    requires WellFormed(v)
    ensures WellFormed(Arranged(v)) && Meaning(Arranged(v)) == Meaning(v)
    decreases v
  {
    if v.Array? {
      forall i | 0 <= i < |v.items|
        ensures WellFormed(Arranged(v).items[i]) && Meaning(Arranged(v).items[i]) == Meaning(v.items[i])
      {
        ArrangedMeans(v.items[i]);
      }
    } else if v.Object? {
      ArrangedFields(v);
      var sorted, fields := SortFields(v.fields), Arranged(v).fields;
      forall i | 0 <= i < |fields|
        ensures WellFormed(fields[i].value) && Meaning(fields[i].value) == Meaning(Find(v.fields, fields[i].key).value)
      {
        ArrangedMeans(sorted[i].value);
      }
      SameMembersMean(fields, v.fields);
    }
  }

  /** Objects with the same keys and, key by key, the same meaning mean the same. */
  lemma {:induction false} SameMembersMean(left: seq<Field>, right: seq<Field>)
    requires Keys(left) == Keys(right)
    requires forall i :: 0 <= i < |left| ==>
               left[i].key in Keys(right) && Meaning(left[i].value) == Meaning(Find(right, left[i].key).value)
    ensures Meaning(Object(left)) == Meaning(Object(right))
  {
    forall key | key in Keys(left)
      ensures Meaning(Find(left, key).value) == Meaning(Find(right, key).value)
    {
      var i :| 0 <= i < |left| && left[i] == Find(left, key);
    }
  }

  lemma {:induction false} SameMeaningArrangesAlike(a: Json, b: Json)
    requires WellFormed(a) && WellFormed(b) && Meaning(a) == Meaning(b)
    ensures Arranged(a) == Arranged(b)
    decreases a
  {
    if a.Array? {
      assert |Meaning(a).items| == |a.items| && |Meaning(b).items| == |b.items|;
      forall i | 0 <= i < |a.items|
        ensures Arranged(a).items[i] == Arranged(b).items[i]
      {
        assert Meaning(a).items[i] == Meaning(b).items[i];
        SameMeaningArrangesAlike(a.items[i], b.items[i]);
      }
    } else if a.Object? {
      ArrangedFields(a);
      ArrangedFields(b);
      ArrangedKeysAgree(a, b);
      var left, right := SortFields(a.fields), SortFields(b.fields);
      forall i | 0 <= i < |left|
        ensures Arranged(a).fields[i] == Arranged(b).fields[i]
      {
        SameMeaningArrangesAlike(left[i].value, right[i].value);
      }
    }
  }

  lemma {:induction false} ArrangedKeysAgree(a: Json, b: Json)
    requires WellFormed(a) && WellFormed(b) && a.Object? && b.Object? && Meaning(a) == Meaning(b)
    ensures var left, right := SortFields(a.fields), SortFields(b.fields);
            |left| == |right| && forall i :: 0 <= i < |left| ==>
              && left[i].key == right[i].key && Meaning(left[i].value) == Meaning(right[i].value)
              && WellFormed(left[i].value) && WellFormed(right[i].value)
  {
    var left, right := SortFields(a.fields), SortFields(b.fields);
    ArrangedFields(a);
    ArrangedFields(b);
    SortedKeySets(a.fields);
    SortedKeySets(b.fields);
    assert Keys(a.fields) == Meaning(a).members.Keys == Meaning(b).members.Keys == Keys(b.fields);
    SortedKeysUnique(left, right);
    forall i | 0 <= i < |left|
      ensures Meaning(left[i].value) == Meaning(right[i].value)
    {
      MeaningAt(a, left[i].key);
      MeaningAt(b, left[i].key);
    }
  }

  lemma {:induction false} MeaningAt(v: Json, key: Text)
    requires v.Object? && key in Keys(v.fields)
    ensures key in Meaning(v).members && Meaning(v).members[key] == Meaning(Find(v.fields, key).value)
  {
  }

  /** Two JSON values have one canonical text exactly when they differ at most in key order. */
  lemma {:induction false} CanonicalIsInjective(a: Json, b: Json)
    requires WellFormed(a) && WellFormed(b)
    ensures Canonical(a) == Canonical(b) <==> Meaning(a) == Meaning(b)
  {
    CanonicalPrints(a);
    CanonicalPrints(b);
    ArrangedMeans(a);
    ArrangedMeans(b);
    PrintIsInjective(Arranged(a), Arranged(b));
    if Meaning(a) == Meaning(b) {
      SameMeaningArrangesAlike(a, b);
    }
  }
}
