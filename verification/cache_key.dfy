/** The cache key of a tool call: the JSON text of its scope, its tool name and its normalized arguments.

    Two readings of arguments meet here. `Normal` is the value that the code builds, with its property
    order and dropped properties; `Meaning` is a reference that uses maps and so has no order at all.
    The main result is that two calls have the same key exactly when they agree on scope, tool and
    meaning. */
module CacheKey {
  import opened Wrappers
  import opened JsonText

  // ----- Orders on property keys -----

  /** Order of strings by UTF-16 code units, as in `Array.prototype.sort` without a comparator. */
  predicate UnitsLess(a: Text, b: Text) {
    b != [] && (a == [] || a[0] < b[0] || (a[0] == b[0] && UnitsLess(a[1..], b[1..])))
  }

  predicate IsDigit(c: CodeUnit) { 48 <= c <= 57 }

  /** 4294967294, the largest array index. */
  const MAX_INDEX: Text := [52, 50, 57, 52, 57, 54, 55, 50, 57, 52]

  /** An array index in its canonical spelling (section 6.1.7 of ECMA-262). */
  predicate IsIndex(k: Text) {
    && 1 <= |k| <= 10
    && (forall i :: 0 <= i < |k| ==> IsDigit(k[i]))
    && (|k| > 1 ==> k[0] != 48)
    && (|k| == 10 ==> k == MAX_INDEX || UnitsLess(k, MAX_INDEX))
  }

  /** The order in which `JSON.stringify` meets the properties of an object whose keys were assigned in
      sorted order: array indices first and by value, then the other keys as they were assigned. */
  predicate KeyLess(a: Text, b: Text) {
    if IsIndex(a) && IsIndex(b) then |a| < |b| || (|a| == |b| && UnitsLess(a, b))
    else if IsIndex(a) != IsIndex(b) then IsIndex(a)
    else UnitsLess(a, b)
  }

  lemma {:induction false} UnitsLessIsTotal(a: Text, b: Text)
    ensures a == b || UnitsLess(a, b) || UnitsLess(b, a)
    ensures !(UnitsLess(a, b) && UnitsLess(b, a)) && !UnitsLess(a, a)
    decreases |a|
  {
    if a != [] {
      UnitsLessIsTotal(a[1..], a[1..]);
      if b != [] && a[0] == b[0] {
        UnitsLessIsTotal(a[1..], b[1..]);
        assert a == [a[0]] + a[1..] && b == [b[0]] + b[1..];
      }
    }
  }

  lemma {:induction false} UnitsLessIsTransitive(a: Text, b: Text, c: Text)
    requires UnitsLess(a, b) && UnitsLess(b, c)
    ensures UnitsLess(a, c)
    decreases |a|
  {
    if a != [] && a[0] == b[0] == c[0] {
      UnitsLessIsTransitive(a[1..], b[1..], c[1..]);
    }
  }

  lemma KeyLessIsTotal(a: Text, b: Text)
    ensures a == b || KeyLess(a, b) || KeyLess(b, a)
    ensures !(KeyLess(a, b) && KeyLess(b, a)) && !KeyLess(a, a)
  {
    UnitsLessIsTotal(a, b);
    UnitsLessIsTotal(a, a);
  }

  lemma KeyLessIsTransitive(a: Text, b: Text, c: Text)
    requires KeyLess(a, b) && KeyLess(b, c)
    ensures KeyLess(a, c)
  {
    hide IsIndex;
    if UnitsLess(a, b) && UnitsLess(b, c) {
      UnitsLessIsTransitive(a, b, c);
    }
  }

  // ----- Normalization -----

  /** `__proto__`: assigning this key sets a prototype and makes no property. */
  const PROTO: Text := [95, 95, 112, 114, 111, 116, 111, 95, 95]
  /** `__ts` */
  const TS: Text := [95, 95, 116, 115]

  /** `/\d{4}-\d{2}-\d{2}T/` matches at the start of `s`. */
  predicate DateAtStart(s: Text) {
    && |s| >= 11
    && IsDigit(s[0]) && IsDigit(s[1]) && IsDigit(s[2]) && IsDigit(s[3]) && s[4] == 45
    && IsDigit(s[5]) && IsDigit(s[6]) && s[7] == 45 && IsDigit(s[8]) && IsDigit(s[9]) && s[10] == 84
  }

  predicate HoldsDate(s: Text) {
    exists i :: 0 <= i < |s| && DateAtStart(s[i..])
  }

  /** `Date.parse` is a parameter: the text of the milliseconds, or `None` where it gives NaN. */
  type DateParser = Text -> Option<NumberText>

  predicate IsTimestamp(date: DateParser, s: Text) {
    HoldsDate(s) && date(s).Some?
  }

  function Normal(date: DateParser, v: Value): Value {
    match v
    case Undefined => Null
    case NonFinite(name) => Str(name)
    case Str(s) => if IsTimestamp(date, s) then Obj(Field(TS, Number(date(s).value), NoFields)) else v
    case Arr(items) => Arr(NormalItems(date, items))
    case Obj(fields) => Obj(NormalFields(date, fields))
    case _ => v
  }

  function NormalItems(date: DateParser, items: Values): Values {
    match items
    case NoItems => NoItems
    case Item(head, tail) => Item(Normal(date, head), NormalItems(date, tail))
  }

  /** Drops what normalizes to null and orders the rest. */
  function NormalFields(date: DateParser, fields: Fields): Fields {
    match fields
    case NoFields => NoFields
    case Field(key, value, rest) =>
      var others := NormalFields(date, rest);
      if key == PROTO || Normal(date, value) == Null then others
      else Insert(key, Normal(date, value), others)
  }

  function Insert(key: Text, value: Value, fields: Fields): Fields {
    if fields.Field? && KeyLess(fields.key, key)
    then Field(fields.key, fields.value, Insert(key, value, fields.rest))
    else Field(key, value, fields)
  }

  function Keys(fields: Fields): set<Text> {
    if fields.NoFields? then {} else {fields.key} + Keys(fields.rest)
  }

  /** `NaN` and `Infinity`, as `String(value)` spells them. */
  const NAN: Text := [78, 97, 78]
  const INFINITY: Text := [73, 110, 102, 105, 110, 105, 116, 121]

  /** What the language guarantees: no object has a key twice, and there are three non-finite numbers. */
  predicate WellFormed(v: Value) {
    match v
    case NonFinite(name) => name == NAN || name == INFINITY || name == [45] + INFINITY
    case Arr(items) => WellFormedItems(items)
    case Obj(fields) => WellFormedFields(fields)
    case _ => true
  }

  predicate WellFormedItems(items: Values) {
    items.Item? ==> WellFormed(items.head) && WellFormedItems(items.tail)
  }

  predicate WellFormedFields(fields: Fields) {
    fields.Field? ==> fields.key !in Keys(fields.rest) && WellFormed(fields.value) && WellFormedFields(fields.rest)
  }

  // ----- Meaning -----

  datatype Meaning =
    | MeansNull
    | MeansBool(b: bool)
    | MeansNumber(text: NumberText)
    | MeansText(s: Text)
    | MeansList(items: seq<Meaning>)
    | MeansRecord(fields: map<Text, Meaning>)

  /** What a value says to the cache, with no order among the properties of an object: null and missing
      are the same, a timestamp is its instant, and a non-finite number is its name. */
  function Mean(date: DateParser, v: Value): Meaning {
    match v
    case Undefined => MeansNull
    case Null => MeansNull
    case NonFinite(name) => MeansText(name)
    case Bool(b) => MeansBool(b)
    case Number(text) => MeansNumber(text)
    case Str(s) => if IsTimestamp(date, s) then MeansRecord(map[TS := MeansNumber(date(s).value)]) else MeansText(s)
    case Arr(items) => MeansList(MeanItems(date, items))
    case Obj(fields) => MeansRecord(MeanFields(date, fields))
  }

  function MeanItems(date: DateParser, items: Values): seq<Meaning> {
    if items.NoItems? then [] else [Mean(date, items.head)] + MeanItems(date, items.tail)
  }

  function MeanFields(date: DateParser, fields: Fields): map<Text, Meaning> {
    match fields
    case NoFields => map[]
    case Field(key, value, rest) =>
      var others := MeanFields(date, rest);
      if key == PROTO || Mean(date, value) == MeansNull then others else others[key := Mean(date, value)]
  }

  // ----- Normal forms -----

  predicate IsNormal(date: DateParser, v: Value) {
    match v
    case Undefined => false
    case NonFinite(_) => false
    case Str(s) => !IsTimestamp(date, s)
    case Arr(items) => AreNormal(date, items)
    case Obj(fields) => HoldNormal(date, fields)
    case _ => true
  }

  predicate AreNormal(date: DateParser, items: Values) {
    items.Item? ==> IsNormal(date, items.head) && AreNormal(date, items.tail)
  }

  /** Sorted, with normal values other than null. */
  predicate HoldNormal(date: DateParser, fields: Fields) {
    fields.Field? ==>
      && fields.key != PROTO
      && IsNormal(date, fields.value) && fields.value != Null
      && HoldNormal(date, fields.rest)
      && (fields.rest.Field? ==> KeyLess(fields.key, fields.rest.key))
  }

  lemma {:induction false} InsertKeepsMeaning(date: DateParser, key: Text, value: Value, fields: Fields)
    requires key !in Keys(fields) && Mean(date, value) != MeansNull
    ensures Keys(Insert(key, value, fields)) == Keys(fields) + {key}
    ensures MeanFields(date, Insert(key, value, fields)) == MeanFields(date, Field(key, value, fields))
    decreases fields
  {
    hide Mean, KeyLess;
    if fields.Field? {
      InsertKeepsMeaning(date, key, value, fields.rest);
    }
  }

  lemma {:induction false} InsertKeepsNormal(date: DateParser, key: Text, value: Value, fields: Fields)
    requires HoldNormal(date, fields) && key !in Keys(fields)
    requires key != PROTO && IsNormal(date, value) && value != Null
    ensures HoldNormal(date, Insert(key, value, fields))
    ensures Keys(Insert(key, value, fields)) == Keys(fields) + {key}
    ensures MeanFields(date, Insert(key, value, fields)) == MeanFields(date, Field(key, value, fields))
    decreases fields
  {
    NormalMeansSomething(date, value);
    InsertKeepsMeaning(date, key, value, fields);
    hide IsNormal, Mean, MeanFields, KeyLess;
    if fields.Field? {
      KeyLessIsTotal(key, fields.key);
      if KeyLess(fields.key, key) {
        InsertKeepsNormal(date, key, value, fields.rest);
      }
    }
  }

  lemma NormalMeansSomething(date: DateParser, v: Value)
    requires IsNormal(date, v) && v != Null
    ensures Mean(date, v) != MeansNull
  {
  }

  /** Normalizing gives a normal form that means the same. */
  lemma {:induction false} NormalIsNormal(date: DateParser, v: Value)
    requires WellFormed(v)
    ensures IsNormal(date, Normal(date, v))
    ensures Mean(date, Normal(date, v)) == Mean(date, v)
    decreases v
  {
    match v
    case Arr(items) => NormalItemsAreNormal(date, items);
    case Obj(fields) => NormalFieldsHoldNormal(date, fields);
    case Str(s) => if IsTimestamp(date, s) { TimestampIsNormal(date, s); }
    case NonFinite(name) => assert forall i :: 0 <= i < |name| ==> |name[i..]| < 11;
    case _ =>
  }

  lemma TimestampIsNormal(date: DateParser, s: Text)
    requires IsTimestamp(date, s)
    ensures IsNormal(date, Normal(date, Str(s))) && Mean(date, Normal(date, Str(s))) == Mean(date, Str(s))
  {
    var fields := Field(TS, Number(date(s).value), NoFields);
    assert |TS| != |PROTO|;
    assert HoldNormal(date, NoFields) && IsNormal(date, fields.value);
    assert HoldNormal(date, fields);
    assert MeanFields(date, fields) == MeanFields(date, NoFields)[TS := Mean(date, Number(date(s).value))];
  }

  lemma {:induction false} NormalItemsAreNormal(date: DateParser, items: Values)
    requires WellFormedItems(items)
    ensures AreNormal(date, NormalItems(date, items))
    ensures MeanItems(date, NormalItems(date, items)) == MeanItems(date, items)
    decreases items
  {
    if items.Item? {
      NormalIsNormal(date, items.head);
      NormalItemsAreNormal(date, items.tail);
    }
  }

  lemma {:induction false} NormalFieldsHoldNormal(date: DateParser, fields: Fields)
    requires WellFormedFields(fields)
    ensures HoldNormal(date, NormalFields(date, fields))
    ensures Keys(NormalFields(date, fields)) <= Keys(fields)
    ensures MeanFields(date, NormalFields(date, fields)) == MeanFields(date, fields)
    decreases fields
  {
    if fields.Field? {
      NormalIsNormal(date, fields.value);
      NormalFieldsHoldNormal(date, fields.rest);
      var others := NormalFields(date, fields.rest);
      if fields.key != PROTO && Normal(date, fields.value) != Null {
        InsertKeepsNormal(date, fields.key, Normal(date, fields.value), others);
      }
    }
  }

  lemma {:induction false} NormalFormsAreJson(date: DateParser, v: Value)
    requires IsNormal(date, v)
    ensures IsJson(v)
    decreases v
  {
    match v
    case Arr(items) => NormalItemsAreJson(date, items);
    case Obj(fields) => NormalFieldsAreJson(date, fields);
    case _ =>
  }

  lemma {:induction false} NormalItemsAreJson(date: DateParser, items: Values)
    requires AreNormal(date, items)
    ensures AreJson(items)
    decreases items
  {
    if items.Item? {
      NormalFormsAreJson(date, items.head);
      NormalItemsAreJson(date, items.tail);
    }
  }

  lemma {:induction false} NormalFieldsAreJson(date: DateParser, fields: Fields)
    requires HoldNormal(date, fields)
    ensures HoldJson(fields)
    decreases fields
  {
    if fields.Field? {
      NormalFormsAreJson(date, fields.value);
      NormalFieldsAreJson(date, fields.rest);
    }
  }

  // ----- Normal forms are canonical -----

  /** In a sorted record every key is at or after the first, and the meaning keeps exactly the keys. */
  lemma {:induction false} NormalRecordKeys(date: DateParser, fields: Fields)
    requires HoldNormal(date, fields)
    ensures MeanFields(date, fields).Keys == Keys(fields)
    ensures fields.Field? ==> forall k :: k in Keys(fields.rest) ==> KeyLess(fields.key, k)
    decreases fields
  {
    if fields.Field? {
      NormalRecordKeys(date, fields.rest);
      NormalMeansSomething(date, fields.value);
      if fields.rest.Field? {
        forall k | k in Keys(fields.rest.rest)
          ensures KeyLess(fields.key, k)
        {
          KeyLessIsTransitive(fields.key, fields.rest.key, k);
        }
      }
    }
  }

  /** Two normal forms with the same meaning are the same value. */
  lemma {:induction false} NormalFormsAreCanonical(date: DateParser, v: Value, w: Value)
    requires IsNormal(date, v) && IsNormal(date, w) && Mean(date, v) == Mean(date, w)
    ensures v == w
    decreases v
  {
    match v
    case Arr(items) => NormalItemsAreCanonical(date, items, w.items);
    case Obj(fields) => NormalFieldsAreCanonical(date, fields, w.fields);
    case _ =>
  }

  lemma {:induction false} NormalItemsAreCanonical(date: DateParser, a: Values, b: Values)
    requires AreNormal(date, a) && AreNormal(date, b) && MeanItems(date, a) == MeanItems(date, b)
    ensures a == b
    decreases a
  {
    if a.Item? {
      assert MeanItems(date, a)[0] == Mean(date, a.head) && MeanItems(date, a)[1..] == MeanItems(date, a.tail);
      assert MeanItems(date, b)[0] == Mean(date, b.head) && MeanItems(date, b)[1..] == MeanItems(date, b.tail);
      NormalFormsAreCanonical(date, a.head, b.head);
      NormalItemsAreCanonical(date, a.tail, b.tail);
    }
  }

  /** The first key of a sorted record is in the other record only at or after its first key. */
  lemma FirstKeysAgree(date: DateParser, a: Fields, b: Fields)
    requires HoldNormal(date, a) && HoldNormal(date, b) && a.Field? && b.Field?
    requires Keys(a) == Keys(b)
    ensures a.key == b.key && Keys(a.rest) == Keys(b.rest)
  {
    NormalRecordKeys(date, a);
    NormalRecordKeys(date, b);
    assert a.key in Keys(b) && b.key in Keys(a);
    KeyLessIsTotal(a.key, b.key);
    KeyLessIsTotal(a.key, a.key);
    assert a.key !in Keys(a.rest) && b.key !in Keys(b.rest);
    assert Keys(a.rest) == Keys(a) - {a.key} && Keys(b.rest) == Keys(b) - {b.key};
  }

  /** The first property of a sorted record, and the rest. */
  lemma FirstPropertyMeans(date: DateParser, a: Fields)
    requires HoldNormal(date, a) && a.Field?
    ensures a.key in MeanFields(date, a) && MeanFields(date, a)[a.key] == Mean(date, a.value)
    ensures MeanFields(date, a.rest) == MeanFields(date, a) - {a.key}
  {
    NormalRecordKeys(date, a);
    NormalRecordKeys(date, a.rest);
    NormalMeansSomething(date, a.value);
    KeyLessIsTotal(a.key, a.key);
    hide IsNormal, Mean, KeyLess;
  }

  lemma {:induction false} NormalFieldsAreCanonical(date: DateParser, a: Fields, b: Fields)
    requires HoldNormal(date, a) && HoldNormal(date, b) && MeanFields(date, a) == MeanFields(date, b)
    ensures a == b
    decreases a
  {
    hide IsNormal, Mean, KeyLess;
    NormalRecordKeys(date, a);
    NormalRecordKeys(date, b);
    assert Keys(a) == Keys(b);
    if a.Field? {
      assert a.key in Keys(b);
      FirstKeysAgree(date, a, b);
      FirstPropertyMeans(date, a);
      FirstPropertyMeans(date, b);
      NormalFormsAreCanonical(date, a.value, b.value);
      NormalFieldsAreCanonical(date, a.rest, b.rest);
    }
  }

  /** Normalization is idempotent. */
  lemma NormalIsIdempotent(date: DateParser, v: Value)
    requires WellFormed(v)
    ensures Normal(date, Normal(date, v)) == Normal(date, v)
  {
    NormalIsNormal(date, v);
    NormalFormsAreWellFormed(date, Normal(date, v));
    NormalIsNormal(date, Normal(date, v));
    NormalFormsAreCanonical(date, Normal(date, Normal(date, v)), Normal(date, v));
  }

  lemma {:induction false} NormalFormsAreWellFormed(date: DateParser, v: Value)
    requires IsNormal(date, v)
    ensures WellFormed(v)
    decreases v
  {
    match v
    case Arr(items) => NormalItemsAreWellFormed(date, items);
    case Obj(fields) => NormalFieldsAreWellFormed(date, fields);
    case _ =>
  }

  lemma {:induction false} NormalItemsAreWellFormed(date: DateParser, items: Values)
    requires AreNormal(date, items)
    ensures WellFormedItems(items)
    decreases items
  {
    if items.Item? {
      NormalFormsAreWellFormed(date, items.head);
      NormalItemsAreWellFormed(date, items.tail);
    }
  }

  lemma {:induction false} NormalFieldsAreWellFormed(date: DateParser, fields: Fields)
    requires HoldNormal(date, fields)
    ensures WellFormedFields(fields)
    decreases fields
  {
    if fields.Field? {
      NormalRecordKeys(date, fields);
      KeyLessIsTotal(fields.key, fields.key);
      NormalFormsAreWellFormed(date, fields.value);
      NormalFieldsAreWellFormed(date, fields.rest);
    }
  }

  /** Equal normal forms exactly for equal meanings. */
  lemma NormalFormIffMeaning(date: DateParser, v: Value, w: Value)
    requires WellFormed(v) && WellFormed(w)
    ensures Normal(date, v) == Normal(date, w) <==> Mean(date, v) == Mean(date, w)
  {
    NormalIsNormal(date, v);
    NormalIsNormal(date, w);
    if Mean(date, v) == Mean(date, w) {
      NormalFormsAreCanonical(date, Normal(date, v), Normal(date, w));
    }
  }

  // ----- Blindness to property order and to null properties -----

  /** Reading a property, as `record[key]` does. */
  function Lookup(fields: Fields, key: Text): Value {
    if fields.NoFields? then Undefined
    else if fields.key == key then fields.value else Lookup(fields.rest, key)
  }

  lemma {:induction false} MeanFieldsLookup(date: DateParser, fields: Fields, key: Text)
    requires WellFormedFields(fields)
    ensures key in MeanFields(date, fields) <==> key != PROTO && Mean(date, Lookup(fields, key)) != MeansNull
    ensures key in MeanFields(date, fields) ==> MeanFields(date, fields)[key] == Mean(date, Lookup(fields, key))
    decreases fields
  {
    if fields.Field? {
      MeanFieldsLookup(date, fields.rest, key);
      AbsentKeyIsUndefined(fields.rest, fields.key);
    }
  }

  lemma {:induction false} AbsentKeyIsUndefined(fields: Fields, key: Text)
    requires key !in Keys(fields)
    ensures Lookup(fields, key) == Undefined
    decreases fields
  {
    if fields.Field? {
      AbsentKeyIsUndefined(fields.rest, key);
    }
  }

  /** Objects whose properties read alike, in whatever order and with null for missing, have the same
      normal form. */
  lemma NormalIsBlindToOrderAndNulls(date: DateParser, a: Fields, b: Fields)
    requires WellFormedFields(a) && WellFormedFields(b)
    requires forall k :: k != PROTO ==> Mean(date, Lookup(a, k)) == Mean(date, Lookup(b, k))
    ensures Normal(date, Obj(a)) == Normal(date, Obj(b))
  {
    var ma, mb := MeanFields(date, a), MeanFields(date, b);
    forall k
      ensures k in ma <==> k in mb
      ensures k in ma ==> ma[k] == mb[k]
    {
      MeanFieldsLookup(date, a, k);
      MeanFieldsLookup(date, b, k);
    }
    assert ma == mb;
    NormalFormIffMeaning(date, Obj(a), Obj(b));
  }

  // ----- Listed string arrays -----

  function InsertString(s: Text, items: Values): Values {
    if items.Item? && items.head.Str? && UnitsLess(items.head.s, s)
    then Item(items.head, InsertString(s, items.tail))
    else Item(Str(s), items)
  }

  /** Keeps the strings of an array and sorts them. */
  function SortedStrings(items: Values): Values {
    match items
    case NoItems => NoItems
    case Item(head, tail) => if head.Str? then InsertString(head.s, SortedStrings(tail)) else SortedStrings(tail)
  }

  ghost function Strings(items: Values): multiset<Text> {
    if items.NoItems? then multiset{}
    else (if items.head.Str? then multiset{items.head.s} else multiset{}) + Strings(items.tail)
  }

  predicate InOrder(items: Values) {
    items.Item? ==>
      && items.head.Str?
      && InOrder(items.tail)
      && (items.tail.Item? ==> !UnitsLess(items.tail.head.s, items.head.s))
  }

  lemma {:induction false} InsertStringKeepsOrder(s: Text, items: Values)
    requires InOrder(items)
    ensures InOrder(InsertString(s, items))
    ensures Strings(InsertString(s, items)) == Strings(items) + multiset{s}
    decreases items
  {
    if items.Item? && UnitsLess(items.head.s, s) {
      InsertStringKeepsOrder(s, items.tail);
      UnitsLessIsTotal(s, items.head.s);
    }
  }

  lemma {:induction false} SortedStringsAreInOrder(items: Values)
    ensures InOrder(SortedStrings(items)) && Strings(SortedStrings(items)) == Strings(items)
    decreases items
  {
    if items.Item? {
      SortedStringsAreInOrder(items.tail);
      if items.head.Str? {
        InsertStringKeepsOrder(items.head.s, SortedStrings(items.tail));
      }
    }
  }

  lemma {:induction false} FirstStringIsLeast(items: Values, s: Text)
    requires InOrder(items) && items.Item? && s in Strings(items)
    ensures !UnitsLess(s, items.head.s)
    decreases items
  {
    UnitsLessIsTotal(s, s);
    if s != items.head.s {
      FirstStringIsLeast(items.tail, s);
      if UnitsLess(s, items.head.s) {
        UnitsLessIsTotal(s, items.tail.head.s);
        if s != items.tail.head.s {
          UnitsLessIsTransitive(items.tail.head.s, s, items.head.s);
        }
      }
    }
  }

  lemma {:induction false} OrderedStringsAreCanonical(a: Values, b: Values)
    requires InOrder(a) && InOrder(b) && Strings(a) == Strings(b)
    ensures a == b
    decreases a
  {
    if a.NoItems? {
      assert b.Item? ==> |Strings(b)| > 0;
    } else {
      assert a.head.s in Strings(b);
      assert b.head.s in Strings(a);
      FirstStringIsLeast(a, b.head.s);
      FirstStringIsLeast(b, a.head.s);
      UnitsLessIsTotal(a.head.s, b.head.s);
      assert Strings(a.tail) == Strings(a) - multiset{a.head.s};
      assert Strings(b.tail) == Strings(b) - multiset{a.head.s};
      OrderedStringsAreCanonical(a.tail, b.tail);
    }
  }

  /** The order of a listed array, and anything in it that is not a string, leave no trace. */
  lemma SortedStringsBlindToOrder(a: Values, b: Values)
    ensures SortedStrings(a) == SortedStrings(b) <==> Strings(a) == Strings(b)
  {
    SortedStringsAreInOrder(a);
    SortedStringsAreInOrder(b);
    if Strings(a) == Strings(b) {
      OrderedStringsAreCanonical(SortedStrings(a), SortedStrings(b));
    }
  }

  // ----- Keys -----

  /** The first loop of the key builder: listed arrays are reduced to their sorted strings. */
  function ListedSorted(args: Fields, listed: set<Text>): Fields {
    match args
    case NoFields => NoFields
    case Field(key, value, rest) =>
      Field(key, if key in listed && value.Arr? then Arr(SortedStrings(value.items)) else value,
            ListedSorted(rest, listed))
  }

  lemma {:induction false} OrderedStringsAreWellFormed(items: Values)
    requires InOrder(items)
    ensures WellFormedItems(items)
    decreases items
  {
    if items.Item? {
      OrderedStringsAreWellFormed(items.tail);
    }
  }

  lemma {:induction false} ListedSortedIsWellFormed(args: Fields, listed: set<Text>)
    requires WellFormedFields(args)
    ensures WellFormedFields(ListedSorted(args, listed)) && Keys(ListedSorted(args, listed)) == Keys(args)
    decreases args
  {
    if args.Field? {
      ListedSortedIsWellFormed(args.rest, listed);
      if args.value.Arr? {
        SortedStringsAreInOrder(args.value.items);
        OrderedStringsAreWellFormed(SortedStrings(args.value.items));
      }
    }
  }

  /** A tool call as the cache sees it. */
  datatype Call = Call(scope: Text, tool: Text, args: Fields)

  /** How a cache builds keys: its list of array arguments to sort, and the host's `Date.parse`. */
  datatype KeyRules = KeyRules(listed: set<Text>, date: DateParser)

  predicate ValidCall(call: Call) {
    WellFormedFields(call.args)
  }

  function NormalArgs(rules: KeyRules, call: Call): (v: Value)
    requires ValidCall(call)
    ensures IsNormal(rules.date, v) && IsJson(v)
    ensures Mean(rules.date, v) == Mean(rules.date, Obj(ListedSorted(call.args, rules.listed)))
  {
    var v := Obj(ListedSorted(call.args, rules.listed));
    ListedSortedIsWellFormed(call.args, rules.listed);
    NormalIsNormal(rules.date, v);
    NormalFormsAreJson(rules.date, Normal(rules.date, v));
    Normal(rules.date, v)
  }

  /** The properties of the key object after its scope. */
  function AfterScope(tool: Text, args: Value): (fields: Fields)
    requires IsJson(args)
    ensures HoldJson(fields)
  {
    var last := Field([97], args, NoFields);
    assert HoldJson(last);
    Field([110], Str(tool), last)
  }

  function KeyValue(scope: Text, tool: Text, args: Value): (v: Value)
    requires IsJson(args)
    ensures IsJson(v)
  {
    var fields := Field([116], Str(scope), AfterScope(tool, args));
    assert HoldJson(fields);
    Obj(fields)
  }

  function BuildKey(rules: KeyRules, call: Call): Text
    requires ValidCall(call)
  {
    Written(KeyValue(call.scope, call.tool, NormalArgs(rules, call)), [])
  }

  /** The reference reading of a call. */
  datatype CallMeaning = CallMeaning(scope: Text, tool: Text, args: map<Text, Meaning>)

  function MeanCall(rules: KeyRules, call: Call): CallMeaning {
    CallMeaning(call.scope, call.tool, MeanFields(rules.date, ListedSorted(call.args, rules.listed)))
  }

  /** Keys are canonical and injective: two calls share a key exactly when they share scope, tool and
      the meaning of their arguments. */
  lemma SameKeyIffSameMeaning(rules: KeyRules, a: Call, b: Call)
    requires ValidCall(a) && ValidCall(b)
    ensures BuildKey(rules, a) == BuildKey(rules, b) <==> MeanCall(rules, a) == MeanCall(rules, b)
  {
    var va, vb := NormalArgs(rules, a), NormalArgs(rules, b);
    if BuildKey(rules, a) == BuildKey(rules, b) {
      ValuesAreUniquelyReadable(KeyValue(a.scope, a.tool, va), KeyValue(b.scope, b.tool, vb), [], []);
    }
    if MeanCall(rules, a) == MeanCall(rules, b) {
      NormalFormsAreCanonical(rules.date, va, vb);
    }
  }

  /** The value of a property, if there is one. */
  function Property(fields: Fields, key: Text): Option<Value> {
    if fields.NoFields? then None else if fields.key == key then Some(fields.value) else Property(fields.rest, key)
  }

  lemma {:induction false} PropertyMeans(date: DateParser, fields: Fields, key: Text)
    requires WellFormedFields(fields)
    ensures var p := Property(fields, key);
            && (key in MeanFields(date, fields) <==> p.Some? && key != PROTO && Mean(date, p.value) != MeansNull)
            && (key in MeanFields(date, fields) ==> MeanFields(date, fields)[key] == Mean(date, p.value))
    decreases fields
  {
    hide Mean;
    if fields.Field? {
      PropertyMeans(date, fields.rest, key);
      AbsentIsNone(fields.rest, fields.key);
    }
  }

  lemma {:induction false} AbsentIsNone(fields: Fields, key: Text)
    requires key !in Keys(fields)
    ensures Property(fields, key) == None
    decreases fields
  {
    if fields.Field? {
      AbsentIsNone(fields.rest, key);
    }
  }

  lemma {:induction false} ListedProperty(args: Fields, listed: set<Text>, key: Text)
    ensures Property(ListedSorted(args, listed), key) ==
            match Property(args, key)
            case None => None
            case Some(v) => if v.Arr? && key in listed then Some(Arr(SortedStrings(v.items))) else Some(v)
    decreases args
  {
    if args.Field? {
      ListedProperty(args.rest, listed, key);
    }
  }

  /** What a call means, argument by argument: a listed array counts as the sorted list of its strings, any other
      argument as it is, and null as missing. */
  lemma ArgumentMeans(rules: KeyRules, call: Call, key: Text)
    requires ValidCall(call)
    ensures var m, p := MeanCall(rules, call), Property(call.args, key);
            && m.scope == call.scope && m.tool == call.tool
            && (key in m.args <==> p.Some? && key != PROTO && Mean(rules.date, p.value) != MeansNull)
            && (key in m.args ==>
                  m.args[key] == if key in rules.listed && p.value.Arr?
                                 then MeansList(MeanItems(rules.date, SortedStrings(p.value.items)))
                                 else Mean(rules.date, p.value))
  {
    ListedSortedIsWellFormed(call.args, rules.listed);
    PropertyMeans(rules.date, ListedSorted(call.args, rules.listed), key);
    ListedProperty(call.args, rules.listed, key);
    hide ListedSorted, MeanFields, SortedStrings, WellFormedFields, MeanItems, IsTimestamp;
  }

  /** A text is read as a timestamp wherever in it a date begins, if it can be parsed at all. */
  lemma DateAnywhere(date: DateParser, before: Text, s: Text)
    requires DateAtStart(s) && date(before + s).Some?
    ensures Mean(date, Str(before + s)) == MeansRecord(map[TS := MeansNumber(date(before + s).value)])
  {
    assert (before + s)[|before|..] == s;
    hide DateAtStart;
  }

  function ScopeObject(scope: Text): (v: Value)
    ensures IsJson(v)
  {
    var fields := Field([116], Str(scope), NoFields);
    assert HoldJson(NoFields) && IsJson(Str(scope)) && HoldJson(fields);
    Obj(fields)
  }

  /** What `clearScope` looks for: the text of the object that holds only the scope, less its brace. */
  function ScopePrefix(scope: Text): Text {
    var text := Written(ScopeObject(scope), []);
    text[..|text| - 1]
  }

  const KEY_HEAD: Text := [OPEN_BRACE, QUOTE, 116, QUOTE, COLON]

  lemma ScopeFieldText(scope: Text, more: Text)
    ensures WrittenString([116], [COLON] + WrittenString(scope, more)) == KEY_HEAD[1..] + WrittenString(scope, more)
  {
    var rest := [COLON] + WrittenString(scope, more);
    assert [116][1..] == [];
    assert WrittenChars([116], rest) == [116] + ([QUOTE] + rest);
  }

  lemma StringPrecedesRest(s: Text, rest: Text)
    ensures WrittenString(s, rest) == WrittenString(s, []) + rest
  {
    CharsPrecedeRest(s, rest);
    hide WrittenChars;
  }

  lemma ScopeObjectIsWritten(scope: Text)
    ensures Written(ScopeObject(scope), []) == KEY_HEAD + WrittenString(scope, [CLOSE_BRACE])
  {
    hide WrittenChars, WrittenString;
    var fields := Field([116], Str(scope), NoFields);
    ScopeFieldText(scope, [CLOSE_BRACE]);
    assert [CLOSE_BRACE] + [] == [CLOSE_BRACE];
    assert WrittenFields(fields, true, []) == WrittenString([116], [COLON] + WrittenString(scope, [CLOSE_BRACE]));
  }

  lemma ScopeObjectText(scope: Text)
    ensures ScopePrefix(scope) + [CLOSE_BRACE] == KEY_HEAD + WrittenString(scope, [CLOSE_BRACE])
  {
    ScopeObjectIsWritten(scope);
    StringPrecedesRest(scope, [CLOSE_BRACE]);
    hide WrittenChars, WrittenString;
    assert KEY_HEAD + (WrittenString(scope, []) + [CLOSE_BRACE]) == (KEY_HEAD + WrittenString(scope, []))
      + [CLOSE_BRACE];
  }

  lemma ScopePrefixText(scope: Text)
    ensures ScopePrefix(scope) == KEY_HEAD + WrittenString(scope, [])
  {
    ScopeObjectText(scope);
    StringPrecedesRest(scope, [CLOSE_BRACE]);
    hide *;
    SameBeforeLast(ScopePrefix(scope), KEY_HEAD + WrittenString(scope, []), [CLOSE_BRACE]);
    assert KEY_HEAD + (WrittenString(scope, []) + [CLOSE_BRACE]) == (KEY_HEAD + WrittenString(scope, []))
      + [CLOSE_BRACE];
  }

  lemma SameBeforeLast(a: Text, b: Text, last: Text)
    ensures a + last == b + last ==> a == b
  {
    if a + last == b + last {
      assert |a| == |b|;
      assert a == (a + last)[..|a|] && b == (b + last)[..|b|];
    }
  }

  /** A key is its head, its scope and the rest of its properties. */
  lemma KeyText(rules: KeyRules, call: Call)
    requires ValidCall(call)
    ensures BuildKey(rules, call) ==
            KEY_HEAD + WrittenString(call.scope,
                                     WrittenFields(AfterScope(call.tool, NormalArgs(rules, call)), false, []))
  {
    var args := NormalArgs(rules, call);
    var after := AfterScope(call.tool, args);
    var more := WrittenFields(after, false, []);
    var body := WrittenString(call.scope, more);
    ScopeFieldText(call.scope, more);
    hide WrittenChars, WrittenString, AfterScope;
    assert Written(Str(call.scope), more) == body;
    var fields := Field([116], Str(call.scope), after);
    assert HoldJson(fields);
    assert WrittenFields(fields, true, []) == WrittenString([116], [COLON] + body);
    assert BuildKey(rules, call) == [OPEN_BRACE] + WrittenString([116], [COLON] + body);
  }

  /** The prefix test finds exactly the keys of one scope, whatever quotes and backslashes scopes hold. */
  lemma PrefixIffScope(rules: KeyRules, scope: Text, call: Call)
    requires ValidCall(call)
    ensures ScopePrefix(scope) <= BuildKey(rules, call) <==> call.scope == scope
  {
    var args := NormalArgs(rules, call);
    var more := WrittenFields(AfterScope(call.tool, args), false, []);
    var body := WrittenString(call.scope, more);
    KeyText(rules, call);
    hide *;
    ScopePrefixText(scope);
    StringIsPrefixIff(scope, call.scope, more);
    PrefixUnderHead(KEY_HEAD, WrittenString(scope, []), body);
  }

  lemma PrefixUnderHead(head: Text, p: Text, t: Text)
    ensures head + p <= head + t <==> p <= t
  {
    assert (head + p)[|head|..] == p && (head + t)[|head|..] == t;
    if head + p <= head + t {
      assert (head + t)[..|head + p|] == head + p;
      assert t[..|p|] == (head + t)[|head|..|head| + |p|] == p;
    }
    if p <= t {
      assert head + t == head + p + t[|p|..];
    }
  }
}
