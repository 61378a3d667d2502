/** `canonicalize` is unambiguous: two values get the same text exactly when they are the same
    data, whatever order their keys were written in. */
module JsonCanonical {
  import opened Basics
  import opened JsonText
  import opened JsonRoundTrip
  import opened JsonFacts

  // ---- what "the same data" means -----------------------------------------------------

  /** Equality of data: key order and undefined fields do not count, and an undefined item is a
      null. Nothing here mentions printing or sorting. */
  ghost predicate Same(a: Json, b: Json)
    decreases a, 1
  {
    match a
    case Undefined => b.Undefined? || b.Null?
    case Null => b.Undefined? || b.Null?
    case Arr(items) => b.Arr? && SameItems(items, b.items)
    case Obj(fields) => b.Obj? && FieldsWithin(fields, b.fields) && FieldsCovered(fields, b.fields)
    case _ => a == b
  }

  ghost predicate SameItems(a: seq<Json>, b: seq<Json>)
    decreases a, 0
  {
    |a| == |b| && (|a| == 0 || (Same(a[0], b[0]) && SameItems(a[1..], b[1..])))
  }

  /** Every defined field on the left has a counterpart on the right. */
  ghost predicate FieldsWithin(a: Fields, b: Fields)
    decreases a, 0
  {
    |a| == 0 ||
    ((a[0].value.Undefined? || exists j :: 0 <= j < |b| && !b[j].value.Undefined? && SameField(a[0], b[j])) &&
     FieldsWithin(a[1..], b))
  }

  /** Every defined key on the right is a defined key on the left. */
  ghost predicate FieldsCovered(a: Fields, b: Fields) {
    forall j :: 0 <= j < |b| && !b[j].value.Undefined? ==>
      exists i :: 0 <= i < |a| && !a[i].value.Undefined? && a[i].key == b[j].key
  }

  ghost predicate SameField(a: Slot<string, Json>, b: Slot<string, Json>)
    decreases a, 2
  {
    match a case Slot(key, value) => key == b.key && Same(value, b.value)
  }

  // ---- the key order is a strict total order ------------------------------------------

  lemma {:induction false} KeyLessTotal(a: string, b: string)
    ensures a == b <==> !KeyLess(a, b) && !KeyLess(b, a)
    ensures !(KeyLess(a, b) && KeyLess(b, a))
  {
    if a != "" && b != "" {
      if a[0] == b[0] {
        KeyLessTotal(a[1..], b[1..]);
        assert a == [a[0]] + a[1..] && b == [b[0]] + b[1..];
      } else if CodeUnitRank(a[0]) == CodeUnitRank(b[0]) {
      }
    }
  }

  lemma {:induction false} KeyLessTransitive(a: string, b: string, c: string)
    requires KeyLess(a, b) && KeyLess(b, c)
    ensures KeyLess(a, c)
  {
    if a != "" && b != "" && a[0] == b[0] == c[0] {
      KeyLessTransitive(a[1..], b[1..], c[1..]);
    }
  }

  // ---- sorting ------------------------------------------------------------------------

  ghost predicate Ascending<V>(s: seq<Slot<string, V>>) {
    forall i, j :: 0 <= i < j < |s| ==> KeyLess(s[i].key, s[j].key)
  }

  lemma {:induction false} InsertMember<V>(slot: Slot<string, V>, s: seq<Slot<string, V>>, x: Slot<string, V>)
    ensures x in Insert(slot, s) <==> x == slot || x in s
  {
    if |s| != 0 && KeyLess(s[0].key, slot.key) {
      InsertMember(slot, s[1..], x);
      assert s == [s[0]] + s[1..];
    }
  }

  /** Sorting keeps exactly the slots there were. */
  lemma {:induction false} SortMember<V>(s: seq<Slot<string, V>>, x: Slot<string, V>)
    ensures x in SortByKey(s) <==> x in s
  {
    if |s| != 0 {
      SortMember(s[1..], x);
      InsertMember(s[0], SortByKey(s[1..]), x);
      assert s == [s[0]] + s[1..];
    }
  }

  lemma {:induction false} InsertKeeps<V>(slot: Slot<string, V>, s: seq<Slot<string, V>>)
    requires Ascending(s) && forall i :: 0 <= i < |s| ==> s[i].key != slot.key
    ensures Ascending(Insert(slot, s))
  {
    if |s| != 0 {
      KeyLessTotal(s[0].key, slot.key);
      if KeyLess(s[0].key, slot.key) {
        InsertKeeps(slot, s[1..]);
        var t := Insert(slot, s[1..]);
        forall j | 0 <= j < |t| ensures KeyLess(s[0].key, t[j].key) {
          InsertMember(slot, s[1..], t[j]);
        }
      } else {
        forall j | 0 <= j < |s| ensures KeyLess(slot.key, s[j].key) {
          if j > 0 {
            KeyLessTransitive(slot.key, s[0].key, s[j].key);
          }
        }
      }
    }
  }

  /** Sorting distinct keys puts them in strictly ascending order. */
  lemma {:induction false} SortAscends<V>(s: seq<Slot<string, V>>)
    requires DistinctKeys(s)
    ensures Ascending(SortByKey(s))
  {
    if |s| != 0 {
      var t := SortByKey(s[1..]);
      SortAscends(s[1..]);
      forall i | 0 <= i < |t| ensures t[i].key != s[0].key {
        SortMember(s[1..], t[i]);
        var j :| 0 <= j < |s[1..]| && s[1..][j] == t[i];
        assert s[j + 1] == t[i];
      }
      InsertKeeps(s[0], t);
    }
  }

  /** There is only one ascending arrangement of a set of slots. */
  lemma {:induction false} AscendingUnique<V>(s: seq<Slot<string, V>>, t: seq<Slot<string, V>>)
    requires Ascending(s) && Ascending(t)
    requires forall x :: x in s <==> x in t
    ensures s == t
  {
    assert |s| > 0 ==> s[0] in s;
    assert |t| > 0 ==> t[0] in t;
    if |s| > 0 {
      HeadsAgree(s, t);
      forall x ensures x in s[1..] <==> x in t[1..] {
        TailMember(s, x);
        TailMember(t, x);
      }
      AscendingUnique(s[1..], t[1..]);
      assert s == [s[0]] + s[1..] && t == [t[0]] + t[1..];
    }
  }

  lemma HeadsAgree<V>(s: seq<Slot<string, V>>, t: seq<Slot<string, V>>)
    requires Ascending(s) && Ascending(t) && |s| > 0 && |t| > 0
    requires forall x :: x in s <==> x in t
    ensures s[0] == t[0]
  {
    assert s[0] in t && t[0] in s;
    var i :| 0 <= i < |t| && t[i] == s[0];
    var j :| 0 <= j < |s| && s[j] == t[0];
    KeyLessTotal(s[0].key, t[0].key);
  }

  lemma TailMember<V>(s: seq<Slot<string, V>>, x: Slot<string, V>)
    requires Ascending(s) && |s| > 0
    ensures x in s[1..] <==> x in s && x != s[0]
  {
    if x in s[1..] {
      var i :| 0 <= i < |s[1..]| && s[1..][i] == x;
      assert s[i + 1] == x;
      KeyLessTotal(s[0].key, s[i + 1].key);
    }
    if x in s && x != s[0] {
      var i :| 0 <= i < |s| && s[i] == x;
      assert s[1..][i - 1] == x;
    }
  }

  // ---- the normal form ----------------------------------------------------------------

  /** The value `canonicalize` prints: undefined becomes null or disappears, keys are sorted. */
  function Normal(v: Json): Json
    decreases v, 1
  {
    match v
    case Undefined => Null
    case Arr(items) => Arr(NormalItems(items))
    case Obj(fields) => Obj(SortByKey(NormalFields(fields)))
    case _ => v
  }

  function NormalItems(items: seq<Json>): (r: seq<Json>)
    ensures |r| == |items|
    decreases items, 0
  {
    if |items| == 0 then [] else [Normal(items[0])] + NormalItems(items[1..])
  }

  function NormalFields(fields: Fields): Fields
    decreases fields, 0
  {
    if |fields| == 0 then [] else NormalField(fields[0]) + NormalFields(fields[1..])
  }

  function NormalField(field: Slot<string, Json>): Fields
    decreases field, 2
  {
    match field
    case Slot(key, value) => if value.Undefined? then [] else [Slot(key, Normal(value))]
  }

  /** A normal field is a defined field with its value made normal, and nothing else is. */
  lemma {:induction false} NormalFieldsAre(fields: Fields, x: Slot<string, Json>)
    ensures x in NormalFields(fields) <==>
      exists i :: 0 <= i < |fields| && !fields[i].value.Undefined? && x == Slot(fields[i].key, Normal(fields[i].value))
  {
    if |fields| > 0 {
      NormalFieldsAre(fields[1..], x);
      assert NormalField(fields[0]) ==
        if fields[0].value.Undefined? then [] else [Slot(fields[0].key, Normal(fields[0].value))];
      if i :| 0 <= i < |fields| && !fields[i].value.Undefined? && x == Slot(fields[i].key, Normal(fields[i].value)) {
        if i > 0 {
          assert fields[1..][i - 1] == fields[i];
        }
      }
      if x in NormalFields(fields[1..]) {
        var i :| 0 <= i < |fields[1..]| && !fields[1..][i].value.Undefined? &&
                 x == Slot(fields[1..][i].key, Normal(fields[1..][i].value));
        assert fields[i + 1] == fields[1..][i];
      }
    }
  }

  lemma {:induction false} NormalFieldsDistinct(fields: Fields)
    requires DistinctKeys(fields)
    ensures DistinctKeys(NormalFields(fields))
  {
    if |fields| > 0 {
      NormalFieldsDistinct(fields[1..]);
      var t := NormalFields(fields[1..]);
      forall j | 0 <= j < |t| ensures t[j].key != fields[0].key {
        NormalFieldsAre(fields[1..], t[j]);
        var i :| 0 <= i < |fields[1..]| && t[j].key == fields[1..][i].key;
        assert fields[i + 1] == fields[1..][i];
      }
      assert NormalField(fields[0]) ==
        if fields[0].value.Undefined? then [] else [Slot(fields[0].key, Normal(fields[0].value))];
    }
  }

  // ---- a normal form is something JSON.parse could return -----------------------------

  lemma {:induction false} NormalIsPlain(v: Json)
    requires WellFormed(v)
    ensures Plain(Normal(v))
    decreases v, 1
  {
    match v
    case Arr(items) => NormalItemsPlain(items);
    case Obj(fields) =>
      NormalFieldsPlain(fields);
      NormalFieldsDistinct(fields);
      SortAscends(NormalFields(fields));
      AscendingDistinct(SortByKey(NormalFields(fields)));
      forall x | x in SortByKey(NormalFields(fields)) ensures PlainField(x) {
        SortMember(NormalFields(fields), x);
      }
      AllPlain(SortByKey(NormalFields(fields)));
    case _ =>
  }

  lemma {:induction false} NormalItemsPlain(items: seq<Json>)
    requires WellFormedItems(items)
    ensures PlainItems(NormalItems(items))
    decreases items, 0
  {
    if |items| > 0 {
      NormalIsPlain(items[0]);
      NormalItemsPlain(items[1..]);
    }
  }

  lemma {:induction false} NormalFieldsPlain(fields: Fields)
    requires WellFormedFields(fields)
    ensures forall x :: x in NormalFields(fields) ==> PlainField(x)
    decreases fields, 0
  {
    if |fields| > 0 {
      NormalFieldPlain(fields[0]);
      NormalFieldsPlain(fields[1..]);
    }
  }

  lemma {:induction false} NormalFieldPlain(field: Slot<string, Json>)
    requires WellFormedField(field)
    ensures forall x :: x in NormalField(field) ==> PlainField(x)
    decreases field, 2
  {
    match field case Slot(_, value) => NormalIsPlain(value);
  }

  lemma AscendingDistinct<V>(s: seq<Slot<string, V>>)
    requires Ascending(s)
    ensures DistinctKeys(s)
  {
    forall i, j | 0 <= i < j < |s| ensures s[i].key != s[j].key {
      KeyLessTotal(s[i].key, s[j].key);
    }
  }

  // ---- canonicalize prints the normal form --------------------------------------------

  function Texts(fields: Fields): seq<Slot<string, string>> {
    if |fields| == 0 then [] else [Slot(fields[0].key, Stringify(fields[0].value))] + Texts(fields[1..])
  }

  lemma {:induction false} JoinTexts(fields: Fields)
    ensures JoinFields(Texts(fields)) == FieldsText(fields)
  {
    if |fields| > 0 {
      JoinTexts(fields[1..]);
      assert FieldText(fields[0]) == Quoted(fields[0].key) + ":" + Stringify(fields[0].value);
    }
  }

  lemma {:induction false} InsertTexts(field: Slot<string, Json>, fields: Fields)
    ensures Texts(Insert(field, fields)) == Insert(Slot(field.key, Stringify(field.value)), Texts(fields))
  {
    if |fields| > 0 {
      InsertTexts(field, fields[1..]);
    }
  }

  lemma {:induction false} SortTexts(fields: Fields)
    ensures Texts(SortByKey(fields)) == SortByKey(Texts(fields))
  {
    if |fields| > 0 {
      SortTexts(fields[1..]);
      InsertTexts(fields[0], SortByKey(fields[1..]));
    }
  }

  lemma {:induction false} TextsAppend(a: Fields, b: Fields)
    ensures Texts(a + b) == Texts(a) + Texts(b)
  {
    if |a| > 0 {
      TextsAppend(a[1..], b);
      assert (a + b)[1..] == a[1..] + b;
    } else {
      assert a + b == b;
    }
  }

  lemma {:induction false} CanonicalPrintsNormal(v: Json)
    ensures Canonicalize(v) == Stringify(Normal(v))
    decreases v, 1
  {
    match v
    case Arr(items) => CanonicalItemsPrint(items);
    case Obj(fields) =>
      CanonicalFieldsPrint(fields);
      SortTexts(NormalFields(fields));
      JoinTexts(SortByKey(NormalFields(fields)));
    case _ =>
  }

  lemma {:induction false} CanonicalItemsPrint(items: seq<Json>)
    ensures CanonicalItems(items) == ItemsText(NormalItems(items))
    decreases items, 0
  {
    if |items| > 0 {
      CanonicalPrintsNormal(items[0]);
      CanonicalItemsPrint(items[1..]);
    }
  }

  lemma {:induction false} CanonicalFieldsPrint(fields: Fields)
    ensures CanonicalFields(fields) == Texts(NormalFields(fields))
    decreases fields, 0
  {
    if |fields| > 0 {
      CanonicalFieldPrint(fields[0]);
      CanonicalFieldsPrint(fields[1..]);
      TextsAppend(NormalField(fields[0]), NormalFields(fields[1..]));
    }
  }

  lemma {:induction false} CanonicalFieldPrint(field: Slot<string, Json>)
    ensures CanonicalField(field) == Texts(NormalField(field))
    decreases field, 2
  {
    match field
    case Slot(key, value) => CanonicalPrintsNormal(value);
  }

  // ---- same data, same normal form, and back ------------------------------------------

  lemma {:induction false} NormalIffSame(a: Json, b: Json)
    requires WellFormed(a) && WellFormed(b)
    ensures Normal(a) == Normal(b) <==> Same(a, b)
    decreases a, 1
  {
    match a
    case Arr(items) =>
      if b.Arr? {
        NormalItemsIffSame(items, b.items);
      }
    case Obj(fields) =>
      if b.Obj? {
        WithinIff(fields, b.fields);
        CoveredIff(fields, b.fields);
        SortedIff(fields, b.fields);
      }
    case _ =>
  }

  lemma {:induction false} NormalItemsIffSame(a: seq<Json>, b: seq<Json>)
    requires WellFormedItems(a) && WellFormedItems(b)
    ensures NormalItems(a) == NormalItems(b) <==> SameItems(a, b)
    decreases a, 0
  {
    if |a| == |b| && |a| > 0 {
      NormalIffSame(a[0], b[0]);
      NormalItemsIffSame(a[1..], b[1..]);
      Behead(Normal(a[0]), NormalItems(a[1..]));
      Behead(Normal(b[0]), NormalItems(b[1..]));
    }
  }

  lemma WellFormedAt(fields: Fields, i: nat)
    requires WellFormedFields(fields) && i < |fields|
    ensures WellFormedField(fields[i]) && WellFormed(fields[i].value)
  {
    if i > 0 {
      WellFormedAt(fields[1..], i - 1);
    }
    match fields[i] case Slot(_, _) =>
  }

  lemma {:induction false} FieldIff(a: Slot<string, Json>, b: Slot<string, Json>)
    requires WellFormedField(a) && WellFormed(b.value)
    ensures SameField(a, b) <==> Slot(a.key, Normal(a.value)) == Slot(b.key, Normal(b.value))
    decreases a, 2
  {
    match a case Slot(_, value) => NormalIffSame(value, b.value);
  }

  /** Every slot here is there. */
  ghost predicate Among(m: Fields, n: Fields) {
    forall x :: x in m ==> x in n
  }

  /** Every key there is a key here. */
  ghost predicate CoversKeys(m: Fields, n: Fields) {
    forall y :: y in n ==> HasSlot(m, y.key)
  }

  ghost predicate HasSlot(m: Fields, key: string) {
    exists x :: x in m && x.key == key
  }

  lemma {:induction false} WithinIff(a: Fields, b: Fields)
    requires WellFormedFields(a) && WellFormedFields(b)
    ensures FieldsWithin(a, b) <==> Among(NormalFields(a), NormalFields(b))
    decreases a, 0
  {
    if |a| > 0 {
      WithinIff(a[1..], b);
      forall j | 0 <= j < |b|
        ensures SameField(a[0], b[j]) <==> Slot(a[0].key, Normal(a[0].value)) == Slot(b[j].key, Normal(b[j].value))
      {
        WellFormedAt(b, j);
        FieldIff(a[0], b[j]);
      }
      NormalFieldsAre(b, Slot(a[0].key, Normal(a[0].value)));
      assert NormalField(a[0]) == if a[0].value.Undefined? then [] else [Slot(a[0].key, Normal(a[0].value))];
    }
  }

  lemma CoveredIff(a: Fields, b: Fields)
    ensures FieldsCovered(a, b) <==> CoversKeys(NormalFields(a), NormalFields(b))
  {
    if FieldsCovered(a, b) {
      forall y | y in NormalFields(b) ensures HasSlot(NormalFields(a), y.key) {
        NormalFieldsAre(b, y);
        var j :| 0 <= j < |b| && !b[j].value.Undefined? && y == Slot(b[j].key, Normal(b[j].value));
        var i :| 0 <= i < |a| && !a[i].value.Undefined? && a[i].key == b[j].key;
        NormalFieldsAre(a, Slot(a[i].key, Normal(a[i].value)));
      }
    }
    if CoversKeys(NormalFields(a), NormalFields(b)) {
      forall j | 0 <= j < |b| && !b[j].value.Undefined?
        ensures exists i :: 0 <= i < |a| && !a[i].value.Undefined? && a[i].key == b[j].key
      {
        NormalFieldsAre(b, Slot(b[j].key, Normal(b[j].value)));
        var x :| x in NormalFields(a) && x.key == b[j].key;
        NormalFieldsAre(a, x);
      }
    }
  }

  lemma SortedIff(a: Fields, b: Fields)
    requires DistinctKeys(a) && DistinctKeys(b)
    ensures SortByKey(NormalFields(a)) == SortByKey(NormalFields(b)) <==>
      Among(NormalFields(a), NormalFields(b)) && CoversKeys(NormalFields(a), NormalFields(b))
  {
    hide NormalFields, SortByKey, Among, CoversKeys;
    NormalFieldsDistinct(a);
    NormalFieldsDistinct(b);
    SortedSame(NormalFields(a), NormalFields(b));
    SameIff(NormalFields(a), NormalFields(b));
  }

  lemma SortedSame(m: Fields, n: Fields)
    requires DistinctKeys(m) && DistinctKeys(n)
    ensures SortByKey(m) == SortByKey(n) <==> Among(m, n) && Among(n, m)
  {
    hide SortByKey;
    SortAscends(m);
    SortAscends(n);
    forall x ensures (x in SortByKey(m) <==> x in m) && (x in SortByKey(n) <==> x in n) {
      SortMember(m, x);
      SortMember(n, x);
    }
    if Among(m, n) && Among(n, m) {
      AscendingUnique(SortByKey(m), SortByKey(n));
    }
  }

  lemma SameIff(m: Fields, n: Fields)
    requires DistinctKeys(m) && DistinctKeys(n)
    ensures Among(m, n) && Among(n, m) <==> Among(m, n) && CoversKeys(m, n)
  {
    hide HasSlot;
    if Among(m, n) && CoversKeys(m, n) {
      forall y | y in n ensures y in m {
        Covered(m, n, y);
      }
    }
    if Among(n, m) {
      forall y | y in n ensures HasSlot(m, y.key) {
        SlotIsThere(m, y);
      }
    }
  }

  lemma SlotIsThere(m: Fields, y: Slot<string, Json>)
    requires y in m
    ensures HasSlot(m, y.key)
  {
  }

  lemma Covered(m: Fields, n: Fields, y: Slot<string, Json>)
    requires DistinctKeys(n) && Among(m, n) && y in n && HasSlot(m, y.key)
    ensures y in m
  {
    var x :| x in m && x.key == y.key;
    var i :| 0 <= i < |n| && n[i] == x;
    var j :| 0 <= j < |n| && n[j] == y;
    assert i == j;
  }

  // ---- the theorem --------------------------------------------------------------------

  /** Same text exactly when same data. */
  lemma CanonicalIffSame(a: Json, b: Json)
    requires WellFormed(a) && WellFormed(b)
    ensures Canonicalize(a) == Canonicalize(b) <==> Same(a, b)
  {
    CanonicalPrintsNormal(a);
    CanonicalPrintsNormal(b);
    NormalIsPlain(a);
    NormalIsPlain(b);
    ParseOfStringify(Normal(a));
    ParseOfStringify(Normal(b));
    NormalIffSame(a, b);
  }
}
