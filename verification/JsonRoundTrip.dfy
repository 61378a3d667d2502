/** `JSON.parse` gives back exactly what `JSON.stringify` printed, whatever follows it. */
module JsonRoundTrip {
  import opened Basics
  import opened JsonText
  import opened JsonParse

  // ---- numbers ------------------------------------------------------------------------

  lemma {:induction false} DigitsAreDigits(n: nat)
    ensures Digits(n) != ""
    ensures forall i :: 0 <= i < |Digits(n)| ==> IsDigit(Digits(n)[i])
    ensures DigitsValue(Digits(n)) == n
    ensures Digits(n)[0] == '0' ==> n == 0 && |Digits(n)| == 1
  {
    if n >= 10 {
      DigitsAreDigits(n / 10);
      assert Digits(n)[..|Digits(n)| - 1] == Digits(n / 10);
    }
  }

  lemma {:induction false} SpanOfDigits(d: string, x: string)
    requires forall i :: 0 <= i < |d| ==> IsDigit(d[i])
    requires x == "" || !IsDigit(x[0])
    ensures SpanDigits(d + x) == |d|
  {
    if d == "" {
      assert d + x == x;
    } else {
      assert (d + x)[1..] == d[1..] + x;
      SpanOfDigits(d[1..], x);
    }
  }

  lemma DigitsRead(d: string, x: string)
    requires d != "" && AllDigits(d) && (x == "" || !IsDigit(x[0]))
    ensures ReadDigits(d + x) == Some(Read(d, x))
  {
    SpanOfDigits(d, x);
    TakeDrop(d, x);
  }

  /** An integer has no fraction and no exponent. */
  lemma IntegerReads(d: string, negative: bool, x: string)
    requires d != "" && AllDigits(d) && (d[0] == '0' ==> |d| == 1) && !ContinuesNumber(x)
    ensures ReadDecimal(d + x, negative) == Some(Read(Decimal(negative, DigitsValue(d), 0), x))
  {
    hide DigitsValue, ReadDigits;
    DigitsRead(d, x);
    assert d + "" == d;
  }

  lemma NumberReads(n: int, x: string)
    requires !ContinuesNumber(x)
    ensures ParseNumber(IntText(n) + x) == Some(Read(Num(n), x))
  {
    hide DigitsValue, ReadDecimal, Digits;
    var m: nat := if n < 0 then -n else n;
    DigitsAreDigits(m);
    IntegerReads(Digits(m), n < 0, x);
    TakeDrop(Digits(m), x);
    assert Integral(Decimal(n < 0, m, 0)) == Some(n);
    if n < 0 {
      Nest("-", Digits(m), x);
      Behead('-', Digits(m) + x);
    } else {
      assert IsDigit(Digits(m)[0]);
    }
  }

  // ---- strings ------------------------------------------------------------------------

  lemma ControlReads(c: char, x: string)
    requires c < ' '
    ensures ParseEscape("u00" + [HexDigit(c as int / 16), HexDigit(c as int % 16)] + x) == Some((c, 5))
  {
  }

  lemma EscapeReads(c: char, x: string)
    ensures EscapeChar(c) != ""
    ensures EscapeChar(c)[0] == '\\' ==> ParseEscape(EscapeChar(c)[1..] + x) == Some((c, |EscapeChar(c)| - 1))
    ensures EscapeChar(c)[0] != '\\' ==> EscapeChar(c) == [c] && c >= ' ' && c != '"'
  {
    if c < ' ' && c !in "\n\r\t\U{8}\U{C}" {
      ControlReads(c, x);
      assert EscapeChar(c)[1..] == "u00" + [HexDigit(c as int / 16), HexDigit(c as int % 16)];
    }
  }

  /** One printed character, given that what follows it reads back. */
  lemma CharReads(c: char, tail: string, s: string, x: string)
    requires ParseChars(tail) == Some(Read(s, x))
    ensures ParseChars(EscapeChar(c) + tail) == Some(Read([c] + s, x))
  {
    var e := EscapeChar(c);
    EscapeReads(c, tail);
    assert (e + tail)[1..] == e[1..] + tail;
    assert (e + tail)[|e|..] == tail;
  }

  lemma {:induction false} CharsRead(s: string, x: string)
    ensures ParseChars(Escaped(s) + ("\"" + x)) == Some(Read(s, x))
  {
    if s == "" {
      Behead('"', x);
      assert "" + ("\"" + x) == "\"" + x;
    } else {
      CharsRead(s[1..], x);
      var tail := Escaped(s[1..]) + ("\"" + x);
      CharReads(s[0], tail, s[1..], x);
      Nest(EscapeChar(s[0]), Escaped(s[1..]), "\"" + x);
      assert [s[0]] + s[1..] == s;
    }
  }

  lemma QuotedReads(s: string, x: string)
    ensures (Quoted(s) + x)[0] == '"'
    ensures ParseChars((Quoted(s) + x)[1..]) == Some(Read(s, x))
  {
    CharsRead(s, x);
    NestBracketed("\"", Escaped(s), "\"", x);
    Behead('"', Escaped(s) + ("\"" + x));
  }

  // ---- values -------------------------------------------------------------------------

  /** Printed text starts with a character that is not space, nor a closing bracket. */
  lemma StringifyHead(v: Json)
    ensures Stringify(v) != ""
    ensures !IsJsonSpace(Stringify(v)[0]) && Stringify(v)[0] != ']' && Stringify(v)[0] != '}'
    ensures v.Num? ==> Stringify(v)[0] == '-' || IsDigit(Stringify(v)[0])
  {
    if v.Num? {
      DigitsAreDigits(if v.n < 0 then -v.n else v.n);
      assert IsDigit(Digits(if v.n < 0 then -v.n else v.n)[0]);
    }
  }

  lemma NoSpaceToSkip(s: string, x: string)
    requires s != "" && !IsJsonSpace(s[0])
    ensures SkipSpace(s + x) == s + x
  {
  }

  lemma {:induction false} ValueReads(v: Json, x: string)
    requires Plain(v) && (v.Num? ==> !ContinuesNumber(x))
    ensures ParseValue(Stringify(v) + x) == Some(Read(v, x))
    decreases v, 1
  {
    match v
    case Arr(items) =>
      if |items| > 0 {
        ItemsRead(items, [], x);
      }
      ArrReads(items, x);
    case Obj(fields) =>
      if |fields| > 0 {
        assert [] + fields == fields;
        FieldsRead(fields, [], x);
      }
      ObjReads(fields, x);
    case _ => ScalarReads(v, x);
  }

  lemma ScalarReads(v: Json, x: string)
    requires v.Null? || v.Bool? || v.Num? || v.Str?
    requires v.Num? ==> !ContinuesNumber(x)
    ensures ParseValue(Stringify(v) + x) == Some(Read(v, x))
  {
    hide ParseNumber, ParseChars, ParseFields, ParseItems, Digits, Escaped;
    StringifyHead(v);
    NoSpaceToSkip(Stringify(v), x);
    match v
    case Null => LiteralReads("null", Null, x);
    case Bool(b) => LiteralReads(Stringify(v), v, x);
    case Num(n) => NumberReads(n, x);
    case Str(s) => QuotedReads(s, x);
  }

  lemma LiteralReads(word: string, v: Json, x: string)
    requires word != ""
    ensures ParseLiteral(word + x, word, v) == Some(Read(v, x))
  {
  }

  lemma ArrReads(items: seq<Json>, x: string)
    requires |items| > 0 ==> ParseItems(ItemsText(items) + ("]" + x), []) == Some(Read(Arr([] + items), x))
    ensures ParseValue(Stringify(Arr(items)) + x) == Some(Read(Arr(items), x))
  {
    var body := ItemsText(items) + ("]" + x);
    NestBracketed("[", ItemsText(items), "]", x);
    Behead('[', body);
    Behead(']', x);
    if |items| == 0 {
      assert body == "]" + x;
    } else {
      StringifyHead(items[0]);
      assert ItemsText(items)[0] == Stringify(items[0])[0];
      assert [] + items == items;
    }
  }

  lemma ObjReads(fields: Fields, x: string)
    requires |fields| > 0 ==> ParseFields(FieldsText(fields) + ("}" + x), []) == Some(Read(Obj(fields), x))
    ensures ParseValue(Stringify(Obj(fields)) + x) == Some(Read(Obj(fields), x))
  {
    hide ParseFields, FieldsText;
    var body := FieldsText(fields) + ("}" + x);
    NestBracketed("{", FieldsText(fields), "}", x);
    Behead('{', body);
    Behead('}', x);
    if |fields| == 0 {
      NoFields(fields);
      assert body == "}" + x;
    } else {
      FieldsHead(fields);
    }
  }

  lemma NoFields(fields: Fields)
    requires |fields| == 0
    ensures FieldsText(fields) == ""
  {
  }

  lemma FieldsHead(fields: Fields)
    requires |fields| > 0
    ensures FieldsText(fields) != "" && FieldsText(fields)[0] == '"'
  {
  }

  lemma {:induction false} ItemsRead(items: seq<Json>, acc: seq<Json>, x: string)
    requires |items| > 0 && PlainItems(items)
    ensures ParseItems(ItemsText(items) + ("]" + x), acc) == Some(Read(Arr(acc + items), x))
    decreases items, 0
  {
    var v := items[0];
    MoveHead(acc, items);
    if |items| == 1 {
      ValueReads(v, "]" + x);
      LastItemReads(v, acc, x);
    } else {
      var tail := ItemsText(items[1..]) + ("]" + x);
      ValueReads(v, "," + tail);
      NestBracketed(Stringify(v), ",", ItemsText(items[1..]), "]" + x);
      InnerItemReads(v, acc, tail);
      ItemsRead(items[1..], acc + [v], x);
    }
  }

  lemma LastItemReads(v: Json, acc: seq<Json>, x: string)
    requires ParseValue(Stringify(v) + ("]" + x)) == Some(Read(v, "]" + x))
    ensures ParseItems(Stringify(v) + ("]" + x), acc) == Some(Read(Arr(acc + [v]), x))
  {
  }

  lemma InnerItemReads(v: Json, acc: seq<Json>, tail: string)
    requires ParseValue(Stringify(v) + ("," + tail)) == Some(Read(v, "," + tail))
    ensures ParseItems(Stringify(v) + ("," + tail), acc) == ParseItems(tail, acc + [v])
  {
  }

  lemma KeyReads(key: string, x: string)
    ensures ParseKey(Quoted(key) + (":" + x)) == Some(Read(key, x))
  {
    QuotedReads(key, ":" + x);
    assert (":" + x)[1..] == x;
  }

  /** One field and the character after it. */
  lemma {:induction false} FieldReads(field: Slot<string, Json>, c: char, x: string)
    requires PlainField(field) && c in ",}"
    ensures ParseKey(FieldText(field) + ([c] + x)) == Some(Read(field.key, Stringify(field.value) + ([c] + x)))
    ensures ParseValue(Stringify(field.value) + ([c] + x)) == Some(Read(field.value, [c] + x))
    decreases field, 2
  {
    match field
    case Slot(key, value) =>
      KeyReads(key, Stringify(value) + ([c] + x));
      NestBracketed(Quoted(key), ":", Stringify(value), [c] + x);
      ValueReads(value, [c] + x);
  }

  lemma {:induction false} FieldsRead(fields: Fields, acc: Fields, x: string)
    requires |fields| > 0 && PlainFields(fields) && DistinctKeys(acc + fields)
    ensures ParseFields(FieldsText(fields) + ("}" + x), acc) == Some(Read(Obj(acc + fields), x))
    decreases fields, 0
  {
    var field := fields[0];
    NewKey(fields, acc);
    MoveHead(acc, fields);
    if |fields| == 1 {
      FieldReads(field, '}', x);
      LastFieldReads(field, acc, x);
    } else {
      var tail := FieldsText(fields[1..]) + ("}" + x);
      FieldReads(field, ',', tail);
      NestBracketed(FieldText(field), ",", FieldsText(fields[1..]), "}" + x);
      InnerFieldReads(field, acc, tail);
      FieldsRead(fields[1..], acc + [field], x);
    }
  }

  lemma LastFieldReads(field: Slot<string, Json>, acc: Fields, x: string)
    requires ParseKey(FieldText(field) + ("}" + x)) == Some(Read(field.key, Stringify(field.value) + ("}" + x)))
    requires ParseValue(Stringify(field.value) + ("}" + x)) == Some(Read(field.value, "}" + x))
    ensures ParseFields(FieldText(field) + ("}" + x), acc) == Some(Read(Obj(Put(acc, field.key, field.value)), x))
  {
  }

  lemma InnerFieldReads(field: Slot<string, Json>, acc: Fields, tail: string)
    requires ParseKey(FieldText(field) + ("," + tail)) == Some(Read(field.key, Stringify(field.value) + ("," + tail)))
    requires ParseValue(Stringify(field.value) + ("," + tail)) == Some(Read(field.value, "," + tail))
    ensures ParseFields(FieldText(field) + ("," + tail), acc) == ParseFields(tail, Put(acc, field.key, field.value))
  {
  }

  lemma NewKey(fields: Fields, acc: Fields)
    requires |fields| > 0 && DistinctKeys(acc + fields)
    ensures Put(acc, fields[0].key, fields[0].value) == acc + [fields[0]]
  {
    LookupFinds(acc, fields[0].key);
    assert (acc + fields)[|acc|] == fields[0];
    assert forall i :: 0 <= i < |acc| ==> (acc + fields)[i] == acc[i];
    PutNewAppends(acc, fields[0].key, fields[0].value);
  }

  /** The round trip, on every value `JSON.parse` can return. */
  lemma ParseOfStringify(v: Json)
    requires Plain(v)
    ensures Parse(Stringify(v)) == Some(v)
  {
    ValueReads(v, "");
    assert Stringify(v) + "" == Stringify(v);
  }

  // ---- how it is spelt ----------------------------------------------------------------

  /** Of the ways to write one character after a backslash, the printed one is the shortest. */
  lemma EscapeIsShortest(c: char, e: string)
    requires ParseEscape(e).Some? && ParseEscape(e).value.0 == c
    ensures EscapeChar(c)[0] == '\\' ==> |EscapeChar(c)| <= 1 + ParseEscape(e).value.1
    ensures EscapeChar(c)[0] != '\\' ==> EscapeChar(c) == [c]
  {
    hide Hex4;
  }

  /** Nothing but the tokens, in the order given. */
  lemma PrintsAs()
    ensures Stringify(Arr([Num(-10), Null])) == "[-10,null]"
    ensures Stringify(Obj([Slot("b", Str("\n")), Slot("a", Bool(true))])) == "{\"b\":\"\\n\",\"a\":true}"
  {
    ItemsPrint();
    FieldsPrint();
    hide ItemsText, FieldsText, Digits, Escaped;
    assert "[" + "-10,null" + "]" == "[-10,null]";
    assert "{" + "\"b\":\"\\n\",\"a\":true" + "}" == "{\"b\":\"\\n\",\"a\":true}";
  }

  lemma ItemsPrint()
    ensures ItemsText([Num(-10), Null]) == "-10,null"
  {
    assert Digits(1) == "1";
    assert [Num(-10), Null][1..] == [Null];
    assert ItemsText([Null]) == "null";
  }

  lemma FieldsPrint()
    ensures FieldsText([Slot("b", Str("\n")), Slot("a", Bool(true))]) == "\"b\":\"\\n\",\"a\":true"
  {
    TextsPrint();
    hide Quoted;
    assert [Slot("b", Str("\n")), Slot("a", Bool(true))][1..] == [Slot("a", Bool(true))];
    assert FieldText(Slot("b", Str("\n"))) == Quoted("b") + ":" + Quoted("\n");
    assert FieldText(Slot("a", Bool(true))) == Quoted("a") + ":" + "true";
  }

  lemma TextsPrint()
    ensures Quoted("a") == "\"a\"" && Quoted("b") == "\"b\"" && Quoted("\n") == "\"\\n\""
  {
    assert "a"[1..] == "" && "b"[1..] == "" && "\n"[1..] == "";
    assert Escaped("") == "";
    assert Escaped("a") == EscapeChar('a') + "" && Escaped("b") == EscapeChar('b') + "";
    assert Escaped("\n") == EscapeChar('\n') + "";
  }
}
