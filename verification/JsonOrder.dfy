/** The order canonical text puts keys in, by section 3.2.3 of RFC 8785: UTF-16 code units, the smaller
    first. Nothing here names the comparison `canonicalize` sorts by. */
module JsonOrder {
  import opened Basics
  import opened JsonText
  import opened JsonParse
  import opened JsonRoundTrip
  import opened JsonFacts
  import opened JsonCanonical

  /** The code units of one character: itself, or a surrogate pair. */
  function UnitsOf(c: char): seq<int> {
    var n := c as int;
    if n < 0x1_0000 then [n] else [0xD800 + (n - 0x1_0000) / 0x400, 0xDC00 + (n - 0x1_0000) % 0x400]
  }

  function CodeUnits(s: string): seq<int> {
    if s == "" then [] else UnitsOf(s[0]) + CodeUnits(s[1..])
  }

  /** Lexicographic order: the first unit in which they differ is smaller, or there is none left. */
  predicate Before(a: seq<int>, b: seq<int>)
    decreases |a|
  {
    |b| > 0 && (|a| == 0 || a[0] < b[0] || (a[0] == b[0] && Before(a[1..], b[1..])))
  }

  lemma {:induction false} TailsDecide(x: seq<int>, a: seq<int>, b: seq<int>)
    ensures Before(x + a, x + b) <==> Before(a, b)
  {
    if |x| == 0 {
      assert x + a == a && x + b == b;
    } else {
      TakeDrop(x, a);
      TakeDrop(x, b);
      TailsDecide(x[1..], a, b);
    }
  }

  /** Of two characters, by their units. */
  lemma UnitsDecide(c: char, d: char, a: seq<int>, b: seq<int>)
    requires c != d
    ensures Before(UnitsOf(c) + a, UnitsOf(d) + b) <==> CodeUnitRank(c) < CodeUnitRank(d)
  {
    var x, y := UnitsOf(c) + a, UnitsOf(d) + b;
    if x[0] == y[0] {
      var i, j := c as int - 0x1_0000, d as int - 0x1_0000;
      assert i / 0x400 == j / 0x400 && i % 0x400 != j % 0x400;
    }
  }

  /** The comparison the sort uses is this order. */
  lemma {:induction false} KeyLessIsBefore(a: string, b: string)
    ensures KeyLess(a, b) <==> Before(CodeUnits(a), CodeUnits(b))
    decreases |a|
  {
    if b != "" {
      if a == "" {
        assert |CodeUnits(b)| > 0;
      } else if a[0] == b[0] {
        KeyLessIsBefore(a[1..], b[1..]);
        TailsDecide(UnitsOf(a[0]), CodeUnits(a[1..]), CodeUnits(b[1..]));
      } else {
        UnitsDecide(a[0], b[0], CodeUnits(a[1..]), CodeUnits(b[1..]));
      }
    }
  }

  // ---- canonical text is in this order ------------------------------------------------

  ghost predicate KeysAscend(fields: Fields) {
    forall i, j :: 0 <= i < j < |fields| ==> Before(CodeUnits(fields[i].key), CodeUnits(fields[j].key))
  }

  /** Every object in it, however deep, has its keys in ascending order. */
  ghost predicate Ordered(v: Json)
    decreases v, 1
  {
    match v
    case Arr(items) => OrderedItems(items)
    case Obj(fields) => KeysAscend(fields) && OrderedFields(fields)
    case _ => true
  }

  ghost predicate OrderedItems(items: seq<Json>)
    decreases items, 0
  {
    |items| == 0 || (Ordered(items[0]) && OrderedItems(items[1..]))
  }

  ghost predicate OrderedFields(fields: Fields)
    decreases fields, 0
  {
    |fields| == 0 || (OrderedField(fields[0]) && OrderedFields(fields[1..]))
  }

  ghost predicate OrderedField(field: Slot<string, Json>)
    decreases field, 2
  {
    match field case Slot(_, value) => Ordered(value)
  }

  lemma {:induction false} AllOrdered(fields: Fields)
    requires forall x :: x in fields ==> OrderedField(x)
    ensures OrderedFields(fields)
  {
    if |fields| > 0 {
      assert fields[0] in fields;
      AllOrdered(fields[1..]);
    }
  }

  lemma {:induction false} NormalIsOrdered(v: Json)
    requires WellFormed(v)
    ensures Ordered(Normal(v))
    decreases v, 1
  {
    match v
    case Arr(items) => NormalItemsOrdered(items);
    case Obj(fields) =>
      var sorted := SortByKey(NormalFields(fields));
      NormalFieldsOrdered(fields);
      NormalFieldsDistinct(fields);
      SortAscends(NormalFields(fields));
      forall i, j | 0 <= i < j < |sorted| ensures Before(CodeUnits(sorted[i].key), CodeUnits(sorted[j].key)) {
        KeyLessIsBefore(sorted[i].key, sorted[j].key);
      }
      forall x | x in sorted ensures OrderedField(x) {
        SortMember(NormalFields(fields), x);
      }
      AllOrdered(sorted);
    case _ =>
  }

  lemma {:induction false} NormalItemsOrdered(items: seq<Json>)
    requires WellFormedItems(items)
    ensures OrderedItems(NormalItems(items))
    decreases items, 0
  {
    if |items| > 0 {
      NormalIsOrdered(items[0]);
      NormalItemsOrdered(items[1..]);
    }
  }

  lemma {:induction false} NormalFieldsOrdered(fields: Fields)
    requires WellFormedFields(fields)
    ensures forall x :: x in NormalFields(fields) ==> OrderedField(x)
    decreases fields, 0
  {
    if |fields| > 0 {
      NormalFieldOrdered(fields[0]);
      NormalFieldsOrdered(fields[1..]);
    }
  }

  lemma {:induction false} NormalFieldOrdered(field: Slot<string, Json>)
    requires WellFormedField(field)
    ensures forall x :: x in NormalField(field) ==> OrderedField(x)
    decreases field, 2
  {
    match field case Slot(_, value) => NormalIsOrdered(value);
  }

  // ---- making it normal twice changes nothing -----------------------------------------

  lemma {:induction false} NormalTwice(v: Json)
    requires WellFormed(v)
    ensures Normal(Normal(v)) == Normal(v)
    decreases v, 1
  {
    match v
    case Arr(items) => NormalItemsTwice(items);
    case Obj(fields) =>
      NormalFieldsTwice(fields);
      NormalFieldsDistinct(fields);
      SortedTwice(NormalFields(fields));
    case _ =>
  }

  lemma {:induction false} NormalItemsTwice(items: seq<Json>)
    requires WellFormedItems(items)
    ensures NormalItems(NormalItems(items)) == NormalItems(items)
    decreases items, 0
  {
    if |items| > 0 {
      NormalTwice(items[0]);
      NormalItemsTwice(items[1..]);
      Behead(Normal(items[0]), NormalItems(items[1..]));
    }
  }

  ghost predicate IsNormalField(field: Slot<string, Json>) {
    !field.value.Undefined? && Normal(field.value) == field.value
  }

  lemma {:induction false} NormalFieldsTwice(fields: Fields)
    requires WellFormedFields(fields)
    ensures forall x :: x in NormalFields(fields) ==> IsNormalField(x)
    decreases fields, 0
  {
    if |fields| > 0 {
      NormalFieldTwice(fields[0]);
      NormalFieldsTwice(fields[1..]);
    }
  }

  lemma {:induction false} NormalFieldTwice(field: Slot<string, Json>)
    requires WellFormedField(field)
    ensures forall x :: x in NormalField(field) ==> IsNormalField(x)
    decreases field, 2
  {
    match field case Slot(_, value) => NormalTwice(value);
  }

  lemma {:induction false} NormalFieldsStay(fields: Fields)
    requires forall x :: x in fields ==> IsNormalField(x)
    ensures NormalFields(fields) == fields
  {
    if |fields| > 0 {
      assert fields[0] in fields;
      NormalFieldsStay(fields[1..]);
      assert NormalField(fields[0]) == [fields[0]];
    }
  }

  lemma SortedTwice(fields: Fields)
    requires DistinctKeys(fields) && forall x :: x in fields ==> IsNormalField(x)
    ensures SortByKey(NormalFields(SortByKey(fields))) == SortByKey(fields)
  {
    var sorted := SortByKey(fields);
    SortAscends(fields);
    forall x ensures x in sorted <==> x in fields {
      SortMember(fields, x);
    }
    NormalFieldsStay(sorted);
    AscendingDistinct(sorted);
    SortAscends(sorted);
    forall x ensures x in SortByKey(sorted) <==> x in sorted {
      SortMember(sorted, x);
    }
    AscendingUnique(SortByKey(sorted), sorted);
  }

  /** What canonical text says, read back: the same data, with the keys of every object in ascending order
      of their code units. */
  lemma CanonicalIsOrdered(v: Json)
    requires WellFormed(v)
    ensures Parse(Canonicalize(v)).Some?
    ensures var w := Parse(Canonicalize(v)).value; Same(v, w) && Ordered(w) && Stringify(w) == Canonicalize(v)
  {
    CanonicalPrintsNormal(v);
    NormalIsPlain(v);
    ParseOfStringify(Normal(v));
    NormalIsOrdered(v);
    NormalTwice(v);
    PlainIsWellFormed(Normal(v));
    NormalIffSame(v, Normal(v));
  }
}
