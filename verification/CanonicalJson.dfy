/**
 * `canonicalGovernanceJson`: objects print with their keys in code-unit order, as in section 3.2.3
 * of RFC 8785.  Two values have the same canonical print exactly when they are equal as values
 * whose object keys are unordered.
 */
module CanonicalJson {
  import opened Wrappers
  import opened Utf16
  import opened Json
  import opened JsonRoundTrip

  // ----- the code-unit order -----

  predicate Less(a: Text, b: Text) {
    b != [] && (a == [] || a[0] < b[0] || (a[0] == b[0] && Less(a[1..], b[1..])))
  }

  lemma {:induction false} LessTotal(a: Text, b: Text)
    ensures a == b || Less(a, b) || Less(b, a)
    ensures !(Less(a, b) && Less(b, a)) && !Less(a, a)
  {
    if a != [] {
      LessTotal(a[1..], a[1..]);
      if b != [] {
        LessTotal(a[1..], b[1..]);
        assert a == [a[0]] + a[1..] && b == [b[0]] + b[1..];
      }
    }
  }

  lemma {:induction false} LessTransitive(a: Text, b: Text, c: Text)
    requires Less(a, b) && Less(b, c)
    ensures Less(a, c)
  {
    if a != [] && a[0] == b[0] && b[0] == c[0] {
      LessTransitive(a[1..], b[1..], c[1..]);
    }
  }

  // ----- printing in key order -----

  function Size(v: Value): nat
    decreases v, 0
  {
    match v
    case Arr(items) => 1 + ItemsSize(items)
    case Obj(fields) => 1 + FieldsSize(fields)
    case _ => 1
  }

  function ItemsSize(items: seq<Value>): nat
    decreases items, 1
  {
    if items == [] then 0 else 1 + Size(items[0]) + ItemsSize(items[1..])
  }

  function FieldsSize(fields: seq<Field>): nat
    decreases fields, 1
  {
    if fields == [] then 0 else 1 + Size(fields[0].value) + FieldsSize(fields[1..])
  }

  function InsertField(f: Field, sorted: seq<Field>): (r: seq<Field>)
    ensures FieldsSize(r) == 1 + Size(f.value) + FieldsSize(sorted)
  {
    if sorted == [] || Less(f.key, sorted[0].key) then
      assert ([f] + sorted)[1..] == sorted;
      [f] + sorted
    else
      var rest := InsertField(f, sorted[1..]);
      assert ([sorted[0]] + rest)[1..] == rest;
      [sorted[0]] + rest
  }

  function SortFields(fields: seq<Field>): (r: seq<Field>)
    ensures FieldsSize(r) == FieldsSize(fields)
  {
    if fields == [] then [] else InsertField(fields[0], SortFields(fields[1..]))
  }

  function Canonical(v: Value): Text
    decreases Size(v)
  {
    match v
    case Arr(items) => [OPEN_ARRAY] + CanonicalItems(items) + [CLOSE_ARRAY]
    case Obj(fields) => [OPEN_OBJECT] + CanonicalFields(SortFields(fields)) + [CLOSE_OBJECT]
    case _ => Print(v)
  }

  function CanonicalItems(items: seq<Value>): Text
    decreases ItemsSize(items)
  {
    if items == [] then []
    else if |items| == 1 then Canonical(items[0])
    else Canonical(items[0]) + [COMMA] + CanonicalItems(items[1..])
  }

  function CanonicalFields(fields: seq<Field>): Text
    decreases FieldsSize(fields)
  {
    if fields == [] then []
    else
      var first := PrintString(fields[0].key) + [COLON] + Canonical(fields[0].value);
      if |fields| == 1 then first else first + [COMMA] + CanonicalFields(fields[1..])
  }

  // ----- sorting a value deeply, then printing it in the order of its fields -----

  function SortDeep(v: Value): Value
    decreases Size(v)
  {
    match v
    case Arr(items) => Arr(SortItems(items))
    case Obj(fields) => Obj(SortValues(SortFields(fields)))
    case _ => v
  }

  function SortItems(items: seq<Value>): (r: seq<Value>)
    ensures |r| == |items|
    decreases ItemsSize(items)
  {
    if items == [] then [] else [SortDeep(items[0])] + SortItems(items[1..])
  }

  function SortValues(fields: seq<Field>): (r: seq<Field>)
    ensures |r| == |fields|
    decreases FieldsSize(fields)
  {
    if fields == [] then [] else [Field(fields[0].key, SortDeep(fields[0].value))] + SortValues(fields[1..])
  }

  lemma {:induction false} CanonicalIsSortedPrint(v: Value)
    ensures Canonical(v) == Print(SortDeep(v))
    decreases Size(v)
  {
    match v
    case Arr(items) => CanonicalItemsArePrints(items);
    case Obj(fields) => CanonicalFieldsArePrints(SortFields(fields));
    case _ =>
  }

  lemma {:induction false} CanonicalItemsArePrints(items: seq<Value>)
    ensures CanonicalItems(items) == PrintItems(SortItems(items))
    decreases ItemsSize(items)
  {
    if items != [] {
      CanonicalIsSortedPrint(items[0]);
      CanonicalItemsArePrints(items[1..]);
      assert SortItems(items)[1..] == SortItems(items[1..]);
    }
  }

  lemma {:induction false} CanonicalFieldsArePrints(fields: seq<Field>)
    ensures CanonicalFields(fields) == PrintFields(SortValues(fields))
    decreases FieldsSize(fields)
  {
    if fields != [] {
      CanonicalIsSortedPrint(fields[0].value);
      CanonicalFieldsArePrints(fields[1..]);
      assert SortValues(fields)[1..] == SortValues(fields[1..]);
    }
  }

  // ----- values with unordered keys -----

  datatype Meaning = MNull | MBool(b: bool) | MNum(n: int) | MStr(s: Text) | MArr(items: seq<Meaning>) | MObj(fields: map<Text, Meaning>)

  function MeaningOf(v: Value): Meaning
    decreases v, 0
  {
    match v
    case Null => MNull
    case Bool(b) => MBool(b)
    case Num(n) => MNum(n)
    case Str(s) => MStr(s)
    case Arr(items) => MArr(MeaningOfItems(items))
    case Obj(fields) => MObj(MeaningOfFields(fields))
  }

  function MeaningOfItems(items: seq<Value>): (r: seq<Meaning>)
    ensures |r| == |items|
    decreases items, 1
  {
    if items == [] then [] else [MeaningOf(items[0])] + MeaningOfItems(items[1..])
  }

  function MeaningOfFields(fields: seq<Field>): (r: map<Text, Meaning>)
    ensures r.Keys == Keys(fields)
    decreases fields, 1
  {
    if fields == [] then map[] else MeaningOfFields(fields[1..])[fields[0].key := MeaningOf(fields[0].value)]
  }

  function Keys(fields: seq<Field>): set<Text> {
    if fields == [] then {} else {fields[0].key} + Keys(fields[1..])
  }

  /** An object has each key once. */
  predicate DistinctKeys(v: Value)
    decreases v, 0
  {
    match v
    case Arr(items) => DistinctInItems(items)
    case Obj(fields) => DistinctInFields(fields)
    case _ => true
  }

  predicate DistinctInItems(items: seq<Value>)
    decreases items, 1
  {
    items == [] || (DistinctKeys(items[0]) && DistinctInItems(items[1..]))
  }

  predicate DistinctInFields(fields: seq<Field>)
    decreases fields, 1
  {
    fields == [] ||
    (fields[0].key !in Keys(fields[1..]) && DistinctKeys(fields[0].value) && DistinctInFields(fields[1..]))
  }

  predicate SortedDeep(v: Value)
    decreases v, 0
  {
    match v
    case Arr(items) => SortedInItems(items)
    case Obj(fields) => SortedByKey(fields) && SortedInFields(fields)
    case _ => true
  }

  predicate SortedInItems(items: seq<Value>)
    decreases items, 1
  {
    items == [] || (SortedDeep(items[0]) && SortedInItems(items[1..]))
  }

  predicate SortedByKey(fields: seq<Field>) {
    fields == [] || ((forall key :: key in Keys(fields[1..]) ==> Less(fields[0].key, key)) && SortedByKey(fields[1..]))
  }

  predicate SortedInFields(fields: seq<Field>)
    decreases fields, 1
  {
    fields == [] || (SortedDeep(fields[0].value) && SortedInFields(fields[1..]))
  }

  // ----- sorting keeps the meaning -----

  lemma {:induction false} InsertKeys(f: Field, sorted: seq<Field>)
    ensures Keys(InsertField(f, sorted)) == Keys(sorted) + {f.key}
  {
    var r := InsertField(f, sorted);
    if sorted == [] || Less(f.key, sorted[0].key) {
      assert r[1..] == sorted;
    } else {
      InsertKeys(f, sorted[1..]);
      assert r[1..] == InsertField(f, sorted[1..]);
    }
  }

  lemma {:induction false} InsertSorted(f: Field, sorted: seq<Field>)
    requires SortedByKey(sorted) && f.key !in Keys(sorted)
    ensures SortedByKey(InsertField(f, sorted))
  {
    var r := InsertField(f, sorted);
    if sorted == [] || Less(f.key, sorted[0].key) {
      assert r[1..] == sorted;
      forall key | key in Keys(sorted)
        ensures Less(f.key, key)
      {
        if key != sorted[0].key {
          LessTransitive(f.key, sorted[0].key, key);
        }
      }
    } else {
      InsertSorted(f, sorted[1..]);
      InsertKeys(f, sorted[1..]);
      assert r[1..] == InsertField(f, sorted[1..]);
      LessTotal(f.key, sorted[0].key);
    }
  }

  lemma {:induction false} InsertDistinct(f: Field, sorted: seq<Field>)
    requires f.key !in Keys(sorted) && DistinctInFields(sorted) && DistinctKeys(f.value)
    ensures DistinctInFields(InsertField(f, sorted))
  {
    var r := InsertField(f, sorted);
    if sorted == [] || Less(f.key, sorted[0].key) {
      assert r[1..] == sorted;
    } else {
      InsertDistinct(f, sorted[1..]);
      InsertKeys(f, sorted[1..]);
      assert r[1..] == InsertField(f, sorted[1..]);
    }
  }

  lemma {:induction false} InsertMeaning(f: Field, sorted: seq<Field>)
    requires f.key !in Keys(sorted)
    ensures MeaningOfFields(InsertField(f, sorted)) == MeaningOfFields(sorted)[f.key := MeaningOf(f.value)]
  {
    var r := InsertField(f, sorted);
    if sorted == [] || Less(f.key, sorted[0].key) {
      assert r[1..] == sorted;
    } else {
      InsertMeaning(f, sorted[1..]);
      assert r[1..] == InsertField(f, sorted[1..]);
    }
  }

  lemma {:induction false} SortFieldsKeeps(fields: seq<Field>)
    requires DistinctInFields(fields)
    ensures SortedByKey(SortFields(fields)) && Keys(SortFields(fields)) == Keys(fields)
    ensures DistinctInFields(SortFields(fields))
    ensures MeaningOfFields(SortFields(fields)) == MeaningOfFields(fields)
  {
    if fields != [] {
      SortFieldsKeeps(fields[1..]);
      InsertKeys(fields[0], SortFields(fields[1..]));
      InsertSorted(fields[0], SortFields(fields[1..]));
      InsertDistinct(fields[0], SortFields(fields[1..]));
      InsertMeaning(fields[0], SortFields(fields[1..]));
    }
  }

  lemma {:induction false} SortDeepKeeps(v: Value)
    requires DistinctKeys(v)
    ensures SortedDeep(SortDeep(v)) && MeaningOf(SortDeep(v)) == MeaningOf(v)
    decreases Size(v)
  {
    match v
    case Arr(items) => SortItemsKeeps(items);
    case Obj(fields) =>
      SortFieldsKeeps(fields);
      SortValuesKeeps(SortFields(fields));
    case _ =>
  }

  lemma {:induction false} SortItemsKeeps(items: seq<Value>)
    requires DistinctInItems(items)
    ensures SortedInItems(SortItems(items)) && MeaningOfItems(SortItems(items)) == MeaningOfItems(items)
    decreases ItemsSize(items)
  {
    if items != [] {
      SortDeepKeeps(items[0]);
      SortItemsKeeps(items[1..]);
      assert SortItems(items)[1..] == SortItems(items[1..]);
    }
  }

  lemma {:induction false} SortValuesKeeps(fields: seq<Field>)
    requires DistinctInFields(fields) && SortedByKey(fields)
    ensures SortedByKey(SortValues(fields)) && SortedInFields(SortValues(fields))
    ensures Keys(SortValues(fields)) == Keys(fields) && MeaningOfFields(SortValues(fields)) == MeaningOfFields(fields)
    decreases FieldsSize(fields)
  {
    if fields != [] {
      SortDeepKeeps(fields[0].value);
      SortValuesKeeps(fields[1..]);
      assert SortValues(fields)[1..] == SortValues(fields[1..]);
    }
  }

  // ----- a sorted value is determined by its meaning -----

  lemma {:induction false} SortedUnique(v: Value, w: Value)
    requires SortedDeep(v) && SortedDeep(w) && MeaningOf(v) == MeaningOf(w)
    ensures v == w
    decreases v, 0
  {
    if v.Arr? {
      ItemsUnique(v.items, w.items);
    } else if v.Obj? {
      FieldsUnique(v.fields, w.fields);
    }
  }

  lemma {:induction false} ItemsUnique(a: seq<Value>, b: seq<Value>)
    requires SortedInItems(a) && SortedInItems(b) && MeaningOfItems(a) == MeaningOfItems(b)
    ensures a == b
    decreases a, 1
  {
    if a != [] {
      assert MeaningOfItems(a)[0] == MeaningOfItems(b)[0] && MeaningOfItems(a)[1..] == MeaningOfItems(b)[1..];
      SortedUnique(a[0], b[0]);
      ItemsUnique(a[1..], b[1..]);
      assert a == [a[0]] + a[1..] && b == [b[0]] + b[1..];
    }
  }

  lemma SameFirstKey(a: seq<Field>, b: seq<Field>)
    requires a != [] && b != [] && SortedByKey(a) && SortedByKey(b) && Keys(a) == Keys(b)
    ensures a[0].key == b[0].key && Keys(a[1..]) == Keys(b[1..])
  {
    LessTotal(a[0].key, b[0].key);
    LessTotal(a[0].key, a[0].key);
    assert a[0].key in Keys(b) && b[0].key in Keys(a);
    assert Keys(a[1..]) == Keys(a) - {a[0].key} && Keys(b[1..]) == Keys(b) - {b[0].key};
  }

  lemma {:induction false} FieldsUnique(a: seq<Field>, b: seq<Field>)
    requires SortedByKey(a) && SortedInFields(a) && SortedByKey(b) && SortedInFields(b)
    requires MeaningOfFields(a) == MeaningOfFields(b)
    ensures a == b
    decreases a, 1
  {
    if a == [] {
      assert Keys(b) == {};
    } else {
      assert Keys(b) == Keys(a);
      SameFirstKey(a, b);
      SortedUnique(a[0].value, b[0].value);
      assert forall key :: key in Keys(a[1..]) ==> MeaningOfFields(a[1..])[key] == MeaningOfFields(b[1..])[key] by {
        LessTotal(a[0].key, a[0].key);
        assert forall key :: key in Keys(a[1..]) ==> MeaningOfFields(a)[key] == MeaningOfFields(b)[key];
      }
      FieldsUnique(a[1..], b[1..]);
      assert a == [a[0]] + a[1..] && b == [b[0]] + b[1..];
    }
  }

  // ----- the results -----

  /** A JSON parser recovers the value from its canonical print, whatever safe text follows. */
  lemma CanonicalParsesBack(v: Value, rest: Text)
    requires DistinctKeys(v) && Safe(rest)
    ensures var r := ParseValue(Canonical(v) + rest);
            r.Some? && r.value.rest == rest && SortedDeep(r.value.value) && MeaningOf(r.value.value) == MeaningOf(v)
  {
    CanonicalIsSortedPrint(v);
    ParsePrinted(SortDeep(v), rest);
    SortDeepKeeps(v);
  }

  /** Same canonical print if and only if equal as values with unordered keys. */
  lemma CanonicalIff(v: Value, w: Value)
    requires DistinctKeys(v) && DistinctKeys(w)
    ensures Canonical(v) == Canonical(w) <==> MeaningOf(v) == MeaningOf(w)
  {
    CanonicalIsSortedPrint(v);
    CanonicalIsSortedPrint(w);
    SortDeepKeeps(v);
    SortDeepKeeps(w);
    PrintInjective(SortDeep(v), SortDeep(w));
    if MeaningOf(v) == MeaningOf(w) {
      SortedUnique(SortDeep(v), SortDeep(w));
    }
  }
}
