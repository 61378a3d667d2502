/** Two facts about `JSON.parse` on arbitrary text: what it returns is plain data, and text
    appended after a value that has ended is left over untouched. */
module JsonFacts {
  import opened Basics
  import opened JsonText
  import opened JsonParse

  // ---- parsed values are plain --------------------------------------------------------

  lemma {:induction false} ParsedIsPlain(s: string)
    requires ParseValue(s).Some?
    ensures Plain(ParseValue(s).value.value)
    decreases |s|, 1
  {
    var t := SkipSpace(s);
    if t[0] == '{' {
      var u := SkipSpace(t[1..]);
      if !(u != "" && u[0] == '}') {
        FieldsArePlain(t[1..], []);
      }
    } else if t[0] == '[' {
      var u := SkipSpace(t[1..]);
      if !(u != "" && u[0] == ']') {
        ItemsArePlain(t[1..], []);
      }
    }
  }

  lemma {:induction false} AllPlain(fields: Fields)
    requires forall x :: x in fields ==> PlainField(x)
    ensures PlainFields(fields)
  {
    if |fields| > 0 {
      assert fields[0] in fields;
      AllPlain(fields[1..]);
    }
  }

  lemma {:induction false} PlainItemsAppend(items: seq<Json>, v: Json)
    requires PlainItems(items) && Plain(v)
    ensures PlainItems(items + [v])
  {
    if |items| > 0 {
      PlainItemsAppend(items[1..], v);
      assert (items + [v])[1..] == items[1..] + [v];
    } else {
      assert (items + [v])[1..] == [];
    }
  }

  lemma {:induction false} ItemsArePlain(s: string, acc: seq<Json>)
    requires PlainItems(acc) && ParseItems(s, acc).Some?
    ensures Plain(ParseItems(s, acc).value.value)
    decreases |s|, 2
  {
    var Read(v, rest) := ParseValue(s).value;
    ParsedIsPlain(s);
    PlainItemsAppend(acc, v);
    var t := SkipSpace(rest);
    if t[0] == ',' {
      ItemsArePlain(t[1..], acc + [v]);
    }
  }

  lemma {:induction false} PlainFieldsPut(fields: Fields, key: string, v: Json)
    requires PlainFields(fields) && Plain(v)
    ensures PlainFields(Put(fields, key, v))
  {
    if |fields| > 0 {
      PlainFieldsPut(fields[1..], key, v);
    }
  }

  lemma {:induction false} FieldsArePlain(s: string, acc: Fields)
    requires PlainFields(acc) && DistinctKeys(acc) && ParseFields(s, acc).Some?
    ensures Plain(ParseFields(s, acc).value.value)
    decreases |s|, 2
  {
    var Read(key, afterKey) := ParseKey(s).value;
    var Read(v, rest) := ParseValue(afterKey).value;
    ParsedIsPlain(afterKey);
    PlainFieldsPut(acc, key, v);
    PutKeeps(acc, key, v);
    var t := SkipSpace(rest);
    if t[0] == ',' {
      FieldsArePlain(t[1..], Put(acc, key, v));
    }
  }

  lemma {:induction false} PlainIsWellFormed(v: Json)
    requires Plain(v)
    ensures WellFormed(v)
    decreases v, 1
  {
    match v
    case Arr(items) => PlainItemsWellFormed(items);
    case Obj(fields) => PlainFieldsWellFormed(fields);
    case _ =>
  }

  lemma {:induction false} PlainItemsWellFormed(items: seq<Json>)
    requires PlainItems(items)
    ensures WellFormedItems(items)
    decreases items, 0
  {
    if |items| > 0 {
      PlainIsWellFormed(items[0]);
      PlainItemsWellFormed(items[1..]);
    }
  }

  lemma {:induction false} PlainFieldsWellFormed(fields: Fields)
    requires PlainFields(fields)
    ensures WellFormedFields(fields)
    decreases fields, 0
  {
    if |fields| > 0 {
      PlainFieldWellFormed(fields[0]);
      PlainFieldsWellFormed(fields[1..]);
    }
  }

  lemma {:induction false} PlainFieldWellFormed(field: Slot<string, Json>)
    requires PlainField(field)
    ensures WellFormedField(field)
    decreases field, 2
  {
    match field case Slot(_, value) => PlainIsWellFormed(value);
  }

  lemma {:induction false} LeadingSpaceIsSkipped(s: string)
    ensures SkipSpace(SkipSpace(s)) == SkipSpace(s)
    ensures ParseValue(SkipSpace(s)) == ParseValue(s)
  {
  }

  // ---- one number, many spellings -----------------------------------------------------

  lemma TenTimes(n: nat, p: nat)
    requires p > 0
    ensures (10 * n) / (10 * p) == n / p && ((10 * n) % (10 * p) == 0 <==> n % p == 0)
  {
    var q, r := n / p, n % p;
    assert n == q * p + r;
    assert 10 * n == q * (10 * p) + 10 * r && 0 <= 10 * r < 10 * p;
    QuotientIs(10 * n, 10 * p, q, 10 * r);
  }

  lemma AtLeastOnce(k: int, d: int)
    requires k >= 1 && d > 0
    ensures k * d >= d
  {
  }

  /** There is one quotient and one remainder. */
  lemma QuotientIs(n: int, d: int, q: int, r: int)
    requires n == q * d + r && 0 <= r < d
    ensures n / d == q && n % d == r
  {
    var a := n / d;
    assert n == a * d + n % d;
    assert (a - q) * d == a * d - q * d && (q - a) * d == q * d - a * d;
    if a > q {
      AtLeastOnce(a - q, d);
    } else if a < q {
      AtLeastOnce(q - a, d);
    }
  }

  /** A zero more with the point one place to the left is the same number, whole or not. By such steps
      100, 1e2 and 100.0 are spellings of one number, and the reader takes them for it. */
  lemma OneMoreZero(negative: bool, digits: nat, shift: int)
    ensures Integral(Decimal(negative, 10 * digits, shift - 1)) == Integral(Decimal(negative, digits, shift))
  {
    if shift > 0 {
      assert 10 * digits * Pow10(shift - 1) == digits * (10 * Pow10(shift - 1));
    } else {
      TenTimes(digits, Pow10(-shift));
      assert Pow10(-(shift - 1)) == 10 * Pow10(-shift);
    }
  }

  // ---- appending after the end --------------------------------------------------------

  lemma {:induction false} SpaceExtends(s: string, x: string)
    ensures SkipSpace(s) != "" ==> SkipSpace(s + x) == SkipSpace(s) + x
    ensures SkipSpace(s) == "" ==> SkipSpace(s + x) == SkipSpace(x)
  {
    if s == "" {
      assert s + x == x;
    } else {
      TakeDrop(s, x);
      if IsJsonSpace(s[0]) {
        SpaceExtends(s[1..], x);
      }
    }
  }

  lemma {:induction false} SpanExtends(s: string, x: string)
    requires SpanDigits(s) < |s|
    ensures SpanDigits(s + x) == SpanDigits(s)
  {
    TakeDrop(s, x);
    if IsDigit(s[0]) {
      SpanExtends(s[1..], x);
    }
  }

  lemma DigitsExtend(s: string, x: string)
    requires ReadDigits(s).Some? && ReadDigits(s).value.rest != ""
    ensures ReadDigits(s + x) == Some(Read(ReadDigits(s).value.value, ReadDigits(s).value.rest + x))
  {
    var n := SpanDigits(s);
    SpanExtends(s, x);
    assert (s + x)[..n] == s[..n] && (s + x)[n..] == s[n..] + x;
  }

  lemma FractionExtends(s: string, x: string)
    requires ReadFraction(s).Some? && ReadFraction(s).value.rest != ""
    ensures ReadFraction(s + x) == Some(Read(ReadFraction(s).value.value, ReadFraction(s).value.rest + x))
  {
    hide ReadDigits;
    TakeDrop(s, x);
    if s[0] == '.' {
      DigitsExtend(s[1..], x);
    }
  }

  lemma ExponentExtends(s: string, x: string)
    requires ReadExponent(s).Some? && ReadExponent(s).value.rest != ""
    ensures ReadExponent(s + x) == Some(Read(ReadExponent(s).value.value, ReadExponent(s).value.rest + x))
  {
    hide ReadDigits, DigitsValue;
    TakeDrop(s, x);
    if s[0] == 'e' || s[0] == 'E' {
      var t := s[1..];
      TakeDrop(t, x);
      DigitsExtend(ReadSign(t).rest, x);
      assert ReadSign(t + x) == Read(ReadSign(t).value, ReadSign(t).rest + x);
    }
  }

  lemma DecimalExtends(s: string, negative: bool, x: string)
    requires ReadDecimal(s, negative).Some? && ReadDecimal(s, negative).value.rest != ""
    ensures ReadDecimal(s + x, negative) ==
      Some(Read(ReadDecimal(s, negative).value.value, ReadDecimal(s, negative).value.rest + x))
  {
    hide ReadDigits, ReadFraction, ReadExponent, DigitsValue;
    var afterDigits := ReadDigits(s).value.rest;
    ExponentExtends(ReadFraction(afterDigits).value.rest, x);
    FractionExtends(afterDigits, x);
    DigitsExtend(s, x);
  }

  lemma NumberExtends(s: string, x: string)
    requires ParseNumber(s).Some? && ParseNumber(s).value.rest != ""
    ensures ParseNumber(s + x) == Some(Read(ParseNumber(s).value.value, ParseNumber(s).value.rest + x))
  {
    hide ReadDecimal, Integral;
    TakeDrop(s, x);
    if s[0] == '-' {
      DecimalExtends(s[1..], true, x);
    } else {
      DecimalExtends(s, false, x);
    }
  }

  lemma EscapeExtends(s: string, x: string)
    requires ParseEscape(s).Some?
    ensures ParseEscape(s + x) == ParseEscape(s)
  {
    if s[0] == 'u' {
      assert (s + x)[1..5] == s[1..5];
      if |s| >= 11 {
        assert (s + x)[5] == s[5] && (s + x)[6] == s[6];
        assert (s + x)[7..11] == s[7..11];
      }
    }
  }

  lemma {:induction false} CharsExtend(s: string, x: string)
    requires ParseChars(s).Some?
    ensures ParseChars(s + x) == Some(Read(ParseChars(s).value.value, ParseChars(s).value.rest + x))
    decreases |s|
  {
    TakeDrop(s, x);
    if s[0] == '\\' {
      EscapeExtends(s[1..], x);
      var n := 1 + ParseEscape(s[1..]).value.1;
      assert (s + x)[n..] == s[n..] + x;
      CharsExtend(s[n..], x);
    } else if s[0] != '"' {
      CharsExtend(s[1..], x);
    }
  }

  /** A value that is over before `x` starts is read the same with `x` there. */
  lemma {:induction false} ValueExtends(s: string, x: string)
    requires ParseValue(s).Some?
    requires ParseValue(s).value.rest != "" || !ParseValue(s).value.value.Num?
    ensures ParseValue(s + x) == Some(Read(ParseValue(s).value.value, ParseValue(s).value.rest + x))
    decreases |s|, 1
  {
    var t := SkipSpace(s);
    SpaceExtends(s, x);
    TakeDrop(t, x);
    if t[0] == '{' || t[0] == '[' {
      var u := SkipSpace(t[1..]);
      SpaceExtends(t[1..], x);
      if u != "" {
        TakeDrop(u, x);
      }
      if t[0] == '{' {
        if !(u != "" && u[0] == '}') {
          FieldsExtend(t[1..], [], x);
        }
      } else if !(u != "" && u[0] == ']') {
        ItemsExtend(t[1..], [], x);
      }
    } else if t[0] == '"' {
      CharsExtend(t[1..], x);
    } else {
      ScalarExtends(t, x);
    }
  }

  lemma ScalarExtends(t: string, x: string)
    requires t != "" && !IsJsonSpace(t[0]) && t[0] !in "{[\"" && ParseValue(t).Some?
    requires ParseValue(t).value.rest != "" || !ParseValue(t).value.value.Num?
    ensures ParseValue(t + x) == Some(Read(ParseValue(t).value.value, ParseValue(t).value.rest + x))
  {
    TakeDrop(t, x);
    if t[0] == 't' || t[0] == 'f' || t[0] == 'n' {
      var word := if t[0] == 't' then "true" else if t[0] == 'f' then "false" else "null";
      assert word <= t;
      assert (t + x)[|word|..] == t[|word|..] + x;
    } else {
      NumberExtends(t, x);
    }
  }

  /** What follows a value inside brackets, with `x` further on. */
  lemma AfterExtends(rest: string, x: string)
    requires SkipSpace(rest) != ""
    ensures rest != "" && SkipSpace(rest + x) != "" && SkipSpace(rest + x)[0] == SkipSpace(rest)[0]
    ensures SkipSpace(rest + x)[1..] == SkipSpace(rest)[1..] + x
  {
    SpaceExtends(rest, x);
    TakeDrop(SkipSpace(rest), x);
  }

  lemma {:induction false} ItemsExtend(s: string, acc: seq<Json>, x: string)
    requires ParseItems(s, acc).Some?
    ensures ParseItems(s + x, acc) == Some(Read(ParseItems(s, acc).value.value, ParseItems(s, acc).value.rest + x))
    decreases |s|, 2
  {
    var Read(v, rest) := ParseValue(s).value;
    AfterExtends(rest, x);
    ValueExtends(s, x);
    var t := SkipSpace(rest);
    if t[0] == ',' {
      ItemsExtend(t[1..], acc + [v], x);
    }
  }

  lemma KeyExtends(s: string, x: string)
    requires ParseKey(s).Some?
    ensures ParseKey(s + x) == Some(Read(ParseKey(s).value.value, ParseKey(s).value.rest + x))
  {
    var t := SkipSpace(s);
    AfterExtends(s, x);
    CharsExtend(t[1..], x);
    AfterExtends(ParseChars(t[1..]).value.rest, x);
  }

  lemma {:induction false} FieldsExtend(s: string, acc: Fields, x: string)
    requires ParseFields(s, acc).Some?
    ensures ParseFields(s + x, acc) == Some(Read(ParseFields(s, acc).value.value, ParseFields(s, acc).value.rest + x))
    decreases |s|, 2
  {
    var Read(key, afterKey) := ParseKey(s).value;
    var Read(v, rest) := ParseValue(afterKey).value;
    KeyExtends(s, x);
    AfterExtends(rest, x);
    ValueExtends(afterKey, x);
    var t := SkipSpace(rest);
    if t[0] == ',' {
      FieldsExtend(t[1..], Put(acc, key, v), x);
    }
  }
}
