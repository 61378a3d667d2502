/** Finding the answer in an agent's turn (src/broker/parse.ts): every balanced brace region is
    taken, and the last one that is JSON is the answer. */
module AnswerScan {
  import opened Basics
  import opened JsonText
  import opened JsonParse
  import opened JsonRoundTrip
  import opened JsonGrammar
  import opened BraceRegions

  /** Where the scanner stands: `region` is the text since the brace that opened the current
      region, and is empty outside one. */
  datatype Scan = Scan(depth: nat, inString: bool, escaped: bool, region: string, found: seq<string>)

  const START := Scan(0, false, false, "", [])

  /** Outside every brace and every quote. */
  predicate Neutral(st: Scan) {
    st.depth == 0 && !st.inString && !st.escaped && st.region == ""
  }

  function Grow(st: Scan, text: string): Scan {
    if st.depth == 0 then st else st.(region := st.region + text)
  }

  /** One character of the loop in `jsonObjectsIn`. */
  function Step(st: Scan, c: char): Scan {
    if st.inString then
      var inside := Grow(st, [c]);
      if st.escaped then inside.(escaped := false)
      else if c == '\\' then inside.(escaped := true)
      else if c == '"' then inside.(inString := false)
      else inside
    else if c == '"' then Grow(st, [c]).(inString := true)
    else if c == '{' then
      if st.depth == 0 then st.(depth := 1, region := [c])
      else Grow(st, [c]).(depth := st.depth + 1)
    else if c == '}' && st.depth > 0 then
      if st.depth == 1 then st.(depth := 0, region := "", found := st.found + [st.region + [c]])
      else Grow(st, [c]).(depth := st.depth - 1)
    else Grow(st, [c])
  }

  function Run(st: Scan, text: string): Scan
    decreases |text|
  {
    if text == "" then st else Run(Step(st, text[0]), text[1..])
  }

  /** `jsonObjectsIn`. */
  function Objects(text: string): seq<string> {
    Run(START, text).found
  }

  // ---- the loop itself ----------------------------------------------------------------

  lemma {:induction false} RunAppend(st: Scan, a: string, b: string)
    ensures Run(st, a + b) == Run(Run(st, a), b)
    decreases |a|
  {
    if a == "" {
      assert a + b == b;
    } else {
      assert (a + b)[1..] == a[1..] + b;
      RunAppend(Step(st, a[0]), a[1..], b);
    }
  }

  lemma RunOne(st: Scan, text: string, i: nat)
    requires i < |text|
    ensures Run(st, text[..i + 1]) == Step(Run(st, text[..i]), text[i])
  {
    assert text[..i + 1] == text[..i] + [text[i]];
    RunAppend(st, text[..i], [text[i]]);
    assert Run(Run(st, text[..i]), [text[i]]) == Step(Run(st, text[..i]), text[i]);
  }

  method JsonObjectsIn(text: string) returns (objects: seq<string>)
    ensures objects == Regions(text) && objects == Objects(text)
  {
    objects := [];
    var depth, start, inString, escaped := 0, 0, false, false;
    var index := 0;
    while index < |text|
      invariant 0 <= start <= index <= |text| && 0 <= depth
      invariant Run(START, text[..index]) ==
        Scan(depth, inString, escaped, if depth == 0 then "" else text[start..index], objects)
    {
      var c := text[index];
      RunOne(START, text, index);
      assert text[start..index + 1] == text[start..index] + [c];
      if inString {
        if escaped {
          escaped := false;
        } else if c == '\\' {
          escaped := true;
        } else if c == '"' {
          inString := false;
        }
      } else if c == '"' {
        inString := true;
      } else if c == '{' {
        if depth == 0 {
          start := index;
        }
        depth := depth + 1;
      } else if c == '}' && depth > 0 {
        depth := depth - 1;
        if depth == 0 {
          objects := objects + [text[start..index + 1]];
        }
      }
      index := index + 1;
    }
    assert text[..index] == text;
    ObjectsAreRegions(text);
  }

  // ---- what the scanner never forgets -------------------------------------------------

  /** The states the scanner can be in. */
  ghost predicate Consistent(st: Scan) {
    (st.depth == 0 ==> st.region == "") && (st.escaped ==> st.inString)
  }

  lemma StepCarriesFound(st: Scan, c: char)
    ensures var next := Step(st.(found := []), c);
      Step(st, c) == next.(found := st.found + next.found)
  {
  }

  /** Regions already found stay where they are and do not affect what follows. */
  lemma {:induction false} FoundIsCarried(st: Scan, text: string)
    ensures Run(st, text) ==
      Run(st.(found := []), text).(found := st.found + Run(st.(found := []), text).found)
    decreases |text|
  {
    if text == "" {
      assert st.found + [] == st.found;
    } else {
      var next := Step(st.(found := []), text[0]);
      StepCarriesFound(st, text[0]);
      hide Step;
      FoundIsCarried(Step(st, text[0]), text[1..]);
      FoundIsCarried(next, text[1..]);
      Nest(st.found, next.found, Run(next.(found := []), text[1..]).found);
    }
  }

  // ---- the scanner agrees with JSON about where things end -----------------------------

  /** Inside a region, and outside a string: where every JSON token starts. */
  ghost predicate InRegion(st: Scan) {
    st.depth > 0 && !st.inString && !st.escaped
  }

  /** `read` is what a parse step consumed, and the scanner came out of it where it went in. */
  ghost predicate Passes(st: Scan, s: string, read: string, rest: string) {
    s == read + rest && Run(st, read) == st.(region := st.region + read)
  }

  lemma PassesThen(st: Scan, s: string, a: string, t: string, b: string, rest: string)
    requires InRegion(st) && Passes(st, s, a, t) && Passes(st.(region := st.region + a), t, b, rest)
    ensures Passes(st, s, a + b, rest)
  {
    RunAppend(st, a, b);
    Nest(a, b, rest);
    Nest(st.region, a, b);
  }

  /** A character that is neither quote nor brace changes nothing. */
  lemma PassesOne(st: Scan, s: string)
    requires InRegion(st) && s != "" && s[0] != '"' && s[0] != '{' && s[0] != '}'
    ensures Passes(st, s, [s[0]], s[1..])
  {
  }

  lemma {:induction false} SpacePasses(st: Scan, s: string) returns (read: string)
    requires InRegion(st)
    ensures Passes(st, s, read, SkipSpace(s))
    decreases |s|
  {
    if s != "" && IsJsonSpace(s[0]) {
      PassesOne(st, s);
      var more := SpacePasses(st.(region := st.region + [s[0]]), s[1..]);
      PassesThen(st, s, [s[0]], s[1..], more, SkipSpace(s));
      read := [s[0]] + more;
    } else {
      read := "";
      assert st.region + "" == st.region && "" + s == s;
    }
  }

  /** Plain characters: letters, digits, signs. */
  lemma {:induction false} PlainPasses(st: Scan, s: string, n: nat)
    requires InRegion(st) && n <= |s|
    requires forall i :: 0 <= i < n ==> s[i] != '"' && s[i] != '{' && s[i] != '}'
    ensures Passes(st, s, s[..n], s[n..])
    decreases n
  {
    if n == 0 {
      assert st.region + s[..0] == st.region;
      assert s == s[..0] + s[0..];
    } else {
      PassesOne(st, s);
      var t := s[1..];
      PlainPasses(st.(region := st.region + [s[0]]), t, n - 1);
      assert t[n - 1..] == s[n..] && [s[0]] + t[..n - 1] == s[..n];
      PassesThen(st, s, [s[0]], t, t[..n - 1], t[n - 1..]);
    }
  }

  /** The state inside a string of a region. */
  ghost predicate InQuotes(st: Scan) {
    st.depth > 0 && st.inString && !st.escaped
  }

  /** Text that stays inside the string it started in. */
  ghost predicate StaysQuoted(st: Scan, read: string) {
    Run(st, read) == st.(region := st.region + read)
  }

  lemma StaysThen(st: Scan, a: string, b: string)
    requires StaysQuoted(st, a) && StaysQuoted(st.(region := st.region + a), b)
    ensures StaysQuoted(st, a + b)
  {
    RunAppend(st, a, b);
    Nest(st.region, a, b);
  }

  /** A backslash and the character after it. */
  lemma PairStays(st: Scan, c: char)
    requires InQuotes(st)
    ensures StaysQuoted(st, ['\\', c])
  {
    var escaped := Step(st, '\\');
    Behead('\\', [c]);
    assert Run(escaped, [c]) == Step(escaped, c);
    Nest(st.region, ['\\'], [c]);
    assert ['\\'] + [c] == ['\\', c];
  }

  lemma {:induction false} HexStays(st: Scan, h: string)
    requires InQuotes(st) && forall i :: 0 <= i < |h| ==> h[i] != '"' && h[i] != '\\'
    ensures StaysQuoted(st, h)
    decreases |h|
  {
    if h == "" {
      assert st.region + h == st.region;
    } else {
      HexStays(Step(st, h[0]), h[1..]);
      Nest(st.region, [h[0]], h[1..]);
      assert [h[0]] + h[1..] == h;
    }
  }

  /** A backslash and its escape. */
  lemma EscapeStays(st: Scan, s: string)
    requires InQuotes(st) && s != "" && s[0] == '\\' && EscapeLength(s[1..]).Some?
    ensures StaysQuoted(st, s[..1 + EscapeLength(s[1..]).value])
  {
    PairStays(st, s[1]);
    assert s[..2] == [s[0], s[1]];
    if EscapeLength(s[1..]).value == 5 {
      assert s[1..][1..5] == s[2..6];
      HexStays(st.(region := st.region + s[..2]), s[2..6]);
      StaysThen(st, s[..2], s[2..6]);
      assert s[..6] == s[..2] + s[2..6];
    }
  }

  /** How much of a string's text one unit of it takes. */
  function UnitLength(s: string): (n: nat)
    requires s != "" && SkipChars(s).Some? && s[0] != '"'
    ensures 0 < n <= |s|
  {
    if s[0] == '\\' then 1 + EscapeLength(s[1..]).value else 1
  }

  lemma UnitStays(st: Scan, s: string)
    requires InQuotes(st) && s != "" && SkipChars(s).Some? && s[0] != '"'
    ensures StaysQuoted(st, s[..UnitLength(s)])
  {
    if s[0] == '\\' {
      EscapeStays(st, s);
    } else {
      assert s[..1] == [s[0]];
      assert Run(st, [s[0]]) == Step(st, s[0]);
    }
  }

  /** From just inside a string to just after its closing quote. */
  lemma {:induction false} CharsPass(st: Scan, s: string) returns (read: string)
    requires InQuotes(st) && SkipChars(s).Some?
    ensures s == read + SkipChars(s).value
    ensures Run(st, read) == st.(inString := false, region := st.region + read)
    decreases |s|
  {
    if s[0] == '"' {
      read := [s[0]];
      assert s == [s[0]] + s[1..];
      assert Run(st, read) == Step(st, s[0]);
    } else {
      var n := UnitLength(s);
      UnitStays(st, s);
      var more := CharsPass(st.(region := st.region + s[..n]), s[n..]);
      read := s[..n] + more;
      RunAppend(st, s[..n], more);
      Nest(st.region, s[..n], more);
      Nest(s[..n], more, SkipChars(s).value);
      assert s == s[..n] + s[n..];
    }
  }

  /** A whole string literal, from its opening quote. */
  lemma StringPasses(st: Scan, s: string) returns (read: string)
    requires InRegion(st) && s != "" && s[0] == '"' && SkipChars(s[1..]).Some?
    ensures Passes(st, s, read, SkipChars(s[1..]).value)
  {
    var inside := Step(st, s[0]);
    var more := CharsPass(inside, s[1..]);
    read := [s[0]] + more;
    assert s == [s[0]] + s[1..];
    Nest([s[0]], more, SkipChars(s[1..]).value);
    Behead(s[0], more);
    Nest(st.region, [s[0]], more);
  }

  /** Coming out of the brace a region is inside of. */
  function Closed(st: Scan, read: string): Scan
    requires st.depth > 0
  {
    if st.depth == 1
    then st.(depth := 0, region := "", found := st.found + [st.region + read])
    else st.(depth := st.depth - 1, region := st.region + read)
  }

  ghost predicate Closes(st: Scan, s: string, read: string, rest: string)
    requires st.depth > 0
  {
    s == read + rest && Run(st, read) == Closed(st, read)
  }

  lemma PassesThenCloses(st: Scan, s: string, a: string, t: string, b: string, rest: string)
    requires InRegion(st) && Passes(st, s, a, t) && Closes(st.(region := st.region + a), t, b, rest)
    ensures Closes(st, s, a + b, rest)
  {
    RunAppend(st, a, b);
    Nest(a, b, rest);
    Nest(st.region, a, b);
  }

  lemma BraceCloses(st: Scan, s: string)
    requires InRegion(st) && s != "" && s[0] == '}'
    ensures Closes(st, s, [s[0]], s[1..])
  {
  }

  /** An opening brace and everything to its own closing one. */
  lemma BracePairPasses(st: Scan, s: string, body: string, rest: string)
    requires InRegion(st) && s != "" && s[0] == '{'
    requires Closes(Step(st, s[0]), s[1..], body, rest)
    ensures Passes(st, s, [s[0]] + body, rest)
  {
  }

  lemma {:induction false} ValuePasses(st: Scan, s: string) returns (read: string)
    requires InRegion(st) && SkipValue(s).Some?
    ensures Passes(st, s, read, SkipValue(s).value)
    decreases |s|, 1
  {
    var t := SkipSpace(s);
    var space := SpacePasses(st, s);
    var at := st.(region := st.region + space);
    var token;
    if t[0] == '{' {
      var body := BodyCloses(Step(at, t[0]), t);
      BracePairPasses(at, t, body, SkipValue(s).value);
      token := [t[0]] + body;
    } else if t[0] == '[' {
      token := ArrayPasses(at, t);
    } else if t[0] == '"' {
      token := StringPasses(at, t);
    } else {
      token := ScalarPasses(at, t);
    }
    LeadingSpaceSkips(s);
    PassesThen(st, s, space, t, token, SkipValue(s).value);
    read := space + token;
  }

  /** Literals and numbers. */
  lemma ScalarPasses(st: Scan, t: string) returns (read: string)
    requires InRegion(st) && t != "" && !IsJsonSpace(t[0]) && t[0] !in "{[\"" && SkipValue(t).Some?
    ensures Passes(st, t, read, SkipValue(t).value)
  {
    var rest := SkipValue(t).value;
    if t[0] == 't' || t[0] == 'f' || t[0] == 'n' {
      var word := if t[0] == 't' then "true" else if t[0] == 'f' then "false" else "null";
      assert word <= t && rest == t[|word|..];
      assert forall i :: 0 <= i < |word| ==> t[i] == word[i];
      PlainPasses(st, t, |word|);
      read := t[..|word|];
    } else {
      NumberIsPlain(t);
      PlainPasses(st, t, |t| - |rest|);
      read := t[..|t| - |rest|];
    }
  }

  /** `rest` is the end of `s`, and nothing before it is a quote or a brace. */
  ghost predicate PlainUpTo(s: string, rest: string) {
    |rest| <= |s| && rest == s[|s| - |rest|..] &&
    forall i :: 0 <= i < |s| - |rest| ==> s[i] != '"' && s[i] != '{' && s[i] != '}'
  }

  lemma PlainThen(s: string, t: string, rest: string)
    requires PlainUpTo(s, t) && PlainUpTo(t, rest)
    ensures PlainUpTo(s, rest)
  {
    var n := |s| - |t|;
    assert forall i :: n <= i < |s| ==> s[i] == t[i - n];
  }

  lemma PlainHead(s: string)
    requires s != "" && s[0] != '"' && s[0] != '{' && s[0] != '}'
    ensures PlainUpTo(s, s[1..])
  {
  }

  lemma DigitsArePlain(s: string)
    requires ReadDigits(s).Some?
    ensures PlainUpTo(s, ReadDigits(s).value.rest)
  {
    var Read(digits, rest) := ReadDigits(s).value;
    assert forall i :: 0 <= i < |digits| ==> s[i] == digits[i] && IsDigit(digits[i]);
  }

  lemma ExponentIsPlain(s: string)
    requires ReadExponent(s).Some?
    ensures PlainUpTo(s, ReadExponent(s).value.rest)
  {
    hide ReadDigits, DigitsValue;
    if s != "" && (s[0] == 'e' || s[0] == 'E') {
      var t := s[1..];
      PlainHead(s);
      DigitsArePlain(ReadSign(t).rest);
      if t != "" && (t[0] == '+' || t[0] == '-') {
        PlainHead(t);
        PlainThen(s, t, t[1..]);
      }
      hide PlainUpTo;
      PlainThen(s, ReadSign(t).rest, ReadExponent(s).value.rest);
    }
  }

  lemma DecimalIsPlain(s: string, negative: bool)
    requires ReadDecimal(s, negative).Some?
    ensures PlainUpTo(s, ReadDecimal(s, negative).value.rest)
  {
    hide ReadDigits, DigitsValue, ReadExponent;
    var t := ReadDigits(s).value.rest;
    var u := ReadFraction(t).value.rest;
    DigitsArePlain(s);
    ExponentIsPlain(u);
    if t != "" && t[0] == '.' {
      PlainHead(t);
      DigitsArePlain(t[1..]);
      PlainThen(t, t[1..], u);
    }
    PlainThen(s, t, u);
    hide PlainUpTo;
    PlainThen(s, u, ReadDecimal(s, negative).value.rest);
  }

  lemma NumberIsPlain(s: string)
    requires SkipNumber(s).Some?
    ensures PlainUpTo(s, SkipNumber(s).value)
  {
    hide ReadDecimal;
    if s != "" && s[0] == '-' {
      PlainHead(s);
      DecimalIsPlain(s[1..], true);
      PlainThen(s, s[1..], SkipNumber(s).value);
    } else {
      DecimalIsPlain(s, false);
    }
  }

  lemma {:induction false} ArrayPasses(st: Scan, t: string) returns (read: string)
    requires InRegion(st) && t != "" && t[0] == '[' && SkipValue(t).Some?
    ensures Passes(st, t, read, SkipValue(t).value)
    decreases |t|, 0
  {
    PassesOne(st, t);
    var at := st.(region := st.region + [t[0]]);
    var u := SkipSpace(t[1..]);
    var more;
    if u != "" && u[0] == ']' {
      var space := SpacePasses(at, t[1..]);
      PassesOne(at.(region := at.region + space), u);
      PassesThen(at, t[1..], space, u, [u[0]], u[1..]);
      more := space + [u[0]];
    } else {
      more := ItemsPass(at, t[1..]);
    }
    PassesThen(st, t, [t[0]], t[1..], more, SkipValue(t).value);
    read := [t[0]] + more;
  }

  lemma {:induction false} ItemsPass(st: Scan, s: string) returns (read: string)
    requires InRegion(st) && SkipItems(s).Some?
    ensures Passes(st, s, read, SkipItems(s).value)
    decreases |s|, 2
  {
    var rest := SkipValue(s).value;
    var t := SkipSpace(rest);
    var a := ValuePasses(st, s);
    var b := SpacePasses(st.(region := st.region + a), rest);
    PassesThen(st, s, a, rest, b, t);
    var at := st.(region := st.region + (a + b));
    PassesOne(at, t);
    PassesThen(st, s, a + b, t, [t[0]], t[1..]);
    read := a + b + [t[0]];
    if t[0] == ',' {
      var more := ItemsPass(st.(region := st.region + read), t[1..]);
      PassesThen(st, s, read, t[1..], more, SkipItems(s).value);
      read := read + more;
    }
  }

  /** From just after an opening brace to its closing one. */
  lemma {:induction false} BodyCloses(st: Scan, t: string) returns (read: string)
    requires InRegion(st) && t != "" && t[0] == '{' && SkipValue(t).Some?
    ensures Closes(st, t[1..], read, SkipValue(t).value)
    decreases |t|, 0
  {
    var u := SkipSpace(t[1..]);
    if u != "" && u[0] == '}' {
      var space := SpacePasses(st, t[1..]);
      BraceCloses(st.(region := st.region + space), u);
      PassesThenCloses(st, t[1..], space, u, [u[0]], u[1..]);
      read := space + [u[0]];
    } else {
      read := FieldsClose(st, t[1..]);
    }
  }

  lemma KeyPasses(st: Scan, s: string) returns (read: string)
    requires InRegion(st) && SkipKey(s).Some?
    ensures Passes(st, s, read, SkipKey(s).value)
  {
    var t := SkipSpace(s);
    var a := SpacePasses(st, s);
    var b := StringPasses(st.(region := st.region + a), t);
    var r := SkipChars(t[1..]).value;
    PassesThen(st, s, a, t, b, r);
    var c := SpacePasses(st.(region := st.region + (a + b)), r);
    var u := SkipSpace(r);
    PassesThen(st, s, a + b, r, c, u);
    PassesOne(st.(region := st.region + (a + b + c)), u);
    PassesThen(st, s, a + b + c, u, [u[0]], u[1..]);
    read := a + b + c + [u[0]];
  }

  lemma {:induction false} FieldsClose(st: Scan, s: string) returns (read: string)
    requires InRegion(st) && SkipFields(s).Some?
    ensures Closes(st, s, read, SkipFields(s).value)
    decreases |s|, 2
  {
    var afterKey := SkipKey(s).value;
    var rest := SkipValue(afterKey).value;
    var t := SkipSpace(rest);
    var a := KeyPasses(st, s);
    var b := ValuePasses(st.(region := st.region + a), afterKey);
    PassesThen(st, s, a, afterKey, b, rest);
    var c := SpacePasses(st.(region := st.region + (a + b)), rest);
    PassesThen(st, s, a + b, rest, c, t);
    var at := st.(region := st.region + (a + b + c));
    if t[0] == '}' {
      BraceCloses(at, t);
      PassesThenCloses(st, s, a + b + c, t, [t[0]], t[1..]);
      read := a + b + c + [t[0]];
    } else {
      PassesOne(at, t);
      PassesThen(st, s, a + b + c, t, [t[0]], t[1..]);
      var comma := a + b + c + [t[0]];
      var more := FieldsClose(st.(region := st.region + comma), t[1..]);
      PassesThenCloses(st, s, comma, t[1..], more, SkipFields(s).value);
      read := comma + more;
    }
  }

  // ---- the scanner takes the regions of the text ---------------------------------------

  lemma GrowThen(st: Scan, a: string, b: string)
    requires Run(st, a) == Grow(st, a)
    ensures Run(st, a + b) == Run(Grow(st, a), b)
    ensures Grow(Grow(st, a), b) == Grow(st, a + b)
  {
    RunAppend(st, a, b);
    Nest(st.region, a, b);
  }

  lemma RunSingle(st: Scan, s: string)
    requires s != ""
    ensures Run(st, [s[0]]) == Step(st, s[0]) && s == [s[0]] + s[1..]
  {
  }

  lemma EscapeRuns(st: Scan, s: string)
    requires st.inString && !st.escaped && |s| >= 2 && s[0] == '\\'
    ensures Run(st, s[..2]) == Grow(st, s[..2])
  {
    assert s[..2] == [s[0]] + [s[1]];
    RunSingle(Step(st, s[0]), [s[1]]);
    Behead(s[0], [s[1]]);
    Nest(st.region, [s[0]], [s[1]]);
  }

  /** Through a quoted string, in a region or outside one. */
  lemma {:induction false} QuoteRuns(st: Scan, s: string) returns (read: string)
    requires st.inString && !st.escaped && PastQuote(s).Some?
    ensures s == read + PastQuote(s).value && Run(st, read) == Grow(st, read).(inString := false)
    decreases |s|
  {
    RunSingle(st, s);
    if s[0] == '"' {
      read := [s[0]];
    } else {
      var n := if s[0] == '\\' then 2 else 1;
      var head := s[..n];
      assert s == head + s[n..];
      if n == 2 {
        EscapeRuns(st, s);
      } else {
        assert head == [s[0]];
      }
      hide Run;
      var more := QuoteRuns(Grow(st, head), s[n..]);
      GrowThen(st, head, more);
      Nest(head, more, PastQuote(s).value);
      read := head + more;
    }
  }

  /** A string that is never closed keeps the scanner inside it. */
  lemma {:induction false} QuoteStaysOpen(st: Scan, s: string)
    requires st.inString && !st.escaped && PastQuote(s).None?
    ensures Run(st, s).inString && Run(st, s).depth == st.depth && Run(st, s).found == st.found
    decreases |s|
  {
    if s != "" {
      RunSingle(st, s);
      if s[0] == '\\' && |s| > 1 {
        EscapeRuns(st, s);
        GrowThen(st, s[..2], s[2..]);
        assert s == s[..2] + s[2..];
        hide Run;
        QuoteStaysOpen(Grow(st, s[..2]), s[2..]);
      } else if s[0] != '\\' {
        QuoteStaysOpen(Step(st, s[0]), s[1..]);
      } else {
        assert s[1..] == "";
      }
    }
  }

  lemma PassesQuote(st: Scan, s: string) returns (read: string)
    requires InRegion(st) && s != "" && s[0] == '"' && PastQuote(s[1..]).Some?
    ensures Passes(st, s, read, PastQuote(s[1..]).value) && read != ""
  {
    RunSingle(st, s);
    var more := QuoteRuns(Step(st, s[0]), s[1..]);
    read := [s[0]] + more;
    RunAppend(st, [s[0]], more);
    Nest([s[0]], more, PastQuote(s[1..]).value);
    Nest(st.region, [s[0]], more);
  }

  /** Through a region, from just after its opening brace. */
  lemma {:induction false} RegionRuns(st: Scan, s: string) returns (read: string)
    requires InRegion(st) && PastRegion(s).Some?
    ensures Closes(st, s, read, PastRegion(s).value)
    decreases |s|
  {
    hide Run, Passes, Closes;
    if s[0] == '}' {
      BraceCloses(st, s);
      read := [s[0]];
    } else {
      var head, rest;
      if s[0] == '"' {
        head := PassesQuote(st, s);
        rest := PastQuote(s[1..]).value;
      } else if s[0] == '{' {
        var body := RegionRuns(Step(st, s[0]), s[1..]);
        rest := PastRegion(s[1..]).value;
        BracePairPasses(st, s, body, rest);
        head := [s[0]] + body;
      } else {
        PassesOne(st, s);
        head, rest := [s[0]], s[1..];
      }
      var more := RegionRuns(st.(region := st.region + head), rest);
      PassesThenCloses(st, s, head, rest, more, PastRegion(s).value);
      read := head + more;
    }
  }

  /** A region that is never closed keeps the scanner inside it, and nothing is taken. */
  ghost predicate StaysIn(st: Scan, s: string) {
    Run(st, s).depth >= st.depth && Run(st, s).found == st.found
  }

  lemma StaysInAfter(st: Scan, s: string, head: string, rest: string)
    requires Passes(st, s, head, rest) && StaysIn(st.(region := st.region + head), rest)
    ensures StaysIn(st, s)
  {
    RunAppend(st, head, rest);
  }

  lemma {:induction false} RegionStaysOpen(st: Scan, s: string)
    requires InRegion(st) && PastRegion(s).None?
    ensures StaysIn(st, s)
    decreases |s|
  {
    if s != "" {
      RunSingle(st, s);
      hide Run, Passes, StaysIn;
      if s[0] == '"' {
        if PastQuote(s[1..]).None? {
          QuoteLeavesIn(st, s);
        } else {
          var head := PassesQuote(st, s);
          var rest := PastQuote(s[1..]).value;
          RegionStaysOpen(st.(region := st.region + head), rest);
          StaysInAfter(st, s, head, rest);
        }
      } else if s[0] == '{' {
        if PastRegion(s[1..]).None? {
          RegionStaysOpen(Step(st, s[0]), s[1..]);
          InnerStaysIn(st, s);
        } else {
          var body := RegionRuns(Step(st, s[0]), s[1..]);
          var rest := PastRegion(s[1..]).value;
          BracePairPasses(st, s, body, rest);
          RegionStaysOpen(st.(region := st.region + ([s[0]] + body)), rest);
          StaysInAfter(st, s, [s[0]] + body, rest);
        }
      } else {
        PassesOne(st, s);
        RegionStaysOpen(st.(region := st.region + [s[0]]), s[1..]);
        StaysInAfter(st, s, [s[0]], s[1..]);
      }
    } else {
      assert Run(st, s) == st;
    }
  }

  lemma QuoteLeavesIn(st: Scan, s: string)
    requires InRegion(st) && s != "" && s[0] == '"' && PastQuote(s[1..]).None?
    ensures StaysIn(st, s)
  {
    QuoteStaysOpen(Step(st, s[0]), s[1..]);
  }

  lemma InnerStaysIn(st: Scan, s: string)
    requires InRegion(st) && s != "" && s[0] == '{' && StaysIn(Step(st, s[0]), s[1..])
    ensures StaysIn(st, s)
  {
  }

  /** The automaton and the nesting of the text agree: it ends where nothing is left open exactly when
      nothing is, and what it has taken on the way are the regions. */
  lemma {:induction false} TextRuns(st: Scan, s: string)
    requires Neutral(st)
    ensures Neutral(Run(st, s)) <==> LeavesNothingOpen(s)
    ensures Run(st, s).found == st.found + Regions(s)
    decreases |s|
  {
    if s != "" {
      var next, t := Step(st, s[0]), s[1..];
      RunSingle(st, s);
      RunAppend(st, [s[0]], t);
      hide Run;
      if s[0] == '"' {
        if PastQuote(t).None? {
          QuoteStaysOpen(next, t);
        } else {
          var read := QuoteRuns(next, t);
          RunAppend(next, read, PastQuote(t).value);
          TextRuns(st, PastQuote(t).value);
        }
      } else if s[0] == '{' {
        if PastRegion(t).None? {
          RegionStaysOpen(next, t);
        } else {
          var rest := PastRegion(t).value;
          var read := RegionRuns(next, t);
          RunAppend(next, read, rest);
          var region := [s[0]] + read;
          assert region == s[..|s| - |rest|];
          TextRuns(st.(found := st.found + [region]), rest);
          Nest(st.found, [region], Regions(rest));
        }
      } else {
        TextRuns(st, t);
      }
    }
  }

  /** `jsonObjectsIn` takes the outermost balanced regions of the text, and leaves off where nothing is
      open exactly when the text leaves nothing open. */
  lemma ObjectsAreRegions(text: string)
    ensures Objects(text) == Regions(text)
    ensures Neutral(Run(START, text)) <==> LeavesNothingOpen(text)
  {
    TextRuns(START, text);
  }

  // ---- an embedded object is recovered ------------------------------------------------

  /** Text that is one JSON object, from its opening brace to its closing one. */
  ghost predicate IsObjectText(t: string) {
    t != "" && t[0] == '{' && SkipValue(t) == Some("")
  }

  /** What `JSON.stringify` prints for an object is such a text. */
  lemma StringifiedIsObjectText(fields: Fields)
    requires Plain(Obj(fields))
    ensures IsObjectText(Stringify(Obj(fields)))
  {
    var t := Stringify(Obj(fields));
    ValueReads(Obj(fields), "");
    assert t + "" == t;
    ReaderFollowsGrammar(t);
  }

  lemma ObjectIsOneRegion(st: Scan, t: string)
    requires Neutral(st) && IsObjectText(t)
    ensures Run(st, t) == st.(found := st.found + [t])
  {
    var within := Step(st, t[0]);
    var body := BodyCloses(within, t);
    assert t[1..] == body;
    assert [t[0]] + body == t;
  }

  /** Whatever surrounds it, an object that starts outside braces and quotes comes out as itself,
      and the text after it is scanned as if it stood alone. */
  lemma EmbeddedObjectRecovered(p: string, t: string, q: string)
    requires LeavesNothingOpen(p) && IsObjectText(t)
    ensures Objects(p + t + q) == Objects(p) + [t] + Objects(q)
  {
    ObjectsAreRegions(p);
    var st := Run(START, p);
    ObjectIsOneRegion(st, t);
    RunAppend(START, p, t);
    RunAppend(START, p + t, q);
    FoundIsCarried(Run(START, p + t), q);
    assert Run(START, p + t).(found := []) == START;
  }

  // ---- and when it is not -------------------------------------------------------------

  lemma {:induction false} RegionsAreShort(st: Scan, s: string, n: nat)
    requires Consistent(st) && |st.region| <= n && forall i :: 0 <= i < |st.found| ==> |st.found[i]| <= n + |s|
    ensures forall i :: 0 <= i < |Run(st, s).found| ==> |Run(st, s).found[i]| <= n + |s|
    decreases |s|
  {
    if s != "" {
      RegionsAreShort(Step(st, s[0]), s[1..], n + 1);
    }
  }

  /** After an unclosed quote the object is never taken as a region of its own. */
  lemma QuoteHides(st: Scan, t: string)
    requires Consistent(st) && st.depth == 0 && st.inString && t != ""
    ensures Run(st, t).found != st.found + [t]
  {
    var next := Step(st, t[0]).(found := []);
    FoundIsCarried(st, t);
    RegionsAreShort(next, t[1..], 0);
    assert Run(st.(found := []), t) == Run(next, t[1..]);
    var added := Run(st.(found := []), t).found;
    assert |added| == 1 ==> |added[0]| < |t|;
    CancelPrefix(st.found, added, [t]);
  }

  /** After an unclosed brace nothing in the object is found at all. */
  lemma BraceHides(st: Scan, t: string)
    requires InRegion(st) && IsObjectText(t)
    ensures Run(st, t).found == st.found
  {
    var body := BodyCloses(Step(st, t[0]), t);
    BracePairPasses(st, t, body, "");
    assert [t[0]] + body == t;
  }

  // ---- where the regions stand --------------------------------------------------------

  /** From the opening brace to just past the closing one. */
  datatype Span = Span(start: int, end: int)

  /** This character ends a region. */
  predicate Ends(st: Scan, c: char) {
    st.depth == 1 && !st.inString && c == '}'
  }

  /** The places of the regions `jsonObjectsIn` takes, in order. */
  function Spans(text: string): seq<Span> {
    if text == "" then []
    else
      var n := |text| - 1;
      var st := Run(START, text[..n]);
      Spans(text[..n]) + (if Ends(st, text[n]) then [Span(n - |st.region|, n + 1)] else [])
  }

  lemma RunLast(text: string)
    requires text != ""
    ensures Run(START, text) == Step(Run(START, text[..|text| - 1]), text[|text| - 1])
  {
    assert text[..|text|] == text;
    RunOne(START, text, |text| - 1);
  }

  lemma StepRegion(st: Scan, c: char)
    requires Consistent(st)
    ensures var next := Step(st, c);
      Consistent(next) && (next.depth > 0 ==>
        if st.depth > 0 then next.region == st.region + [c] else Neutral(st) && next.region == [c])
  {
  }

  /** The current region is the text since a place where the scanner was outside everything. */
  ghost predicate BeganNeutral(text: string) {
    var st := Run(START, text);
    var k := |text| - |st.region|;
    Consistent(st) && (st.depth > 0 ==> 0 <= k < |text| && st.region == text[k..] && Neutral(Run(START, text[..k])))
  }

  lemma {:induction false} RegionBeganNeutral(text: string)
    ensures BeganNeutral(text)
    decreases |text|
  {
    if text != "" {
      var n := |text| - 1;
      RegionBeganNeutral(text[..n]);
      RunLast(text);
      StepRegion(Run(START, text[..n]), text[n]);
      hide Run, Step;
      var k := |text| - |Run(START, text).region|;
      if Run(START, text).depth > 0 {
        Snip(text, k, |text|);
      }
    }
  }

  /** Cutting off the last character, or looking before it. */
  lemma Snip(text: string, k: int, end: int)
    requires 0 <= k < |text| && end == |text|
    ensures var n := |text| - 1;
      text[..n][..k] == text[..k] && text[..n][k..] == text[k..n] && text[k..] == text[k..n] + [text[n]] &&
      text[k..end] == text[k..]
  {
  }

  ghost predicate IsAt(text: string, s: Span, region: string) {
    0 <= s.start < s.end <= |text| && region == text[s.start..s.end] && Neutral(Run(START, text[..s.start]))
  }

  lemma StaysAt(text: string, s: Span, region: string)
    requires text != "" && IsAt(text[..|text| - 1], s, region)
    ensures IsAt(text, s, region)
  {
    assert text[..|text| - 1][s.start..s.end] == text[s.start..s.end] && text[..|text| - 1][..s.start] == text[..s.start];
  }

  /** The regions taken are the slices at these places, each begun outside everything. */
  lemma {:induction false} ObjectsAreSpans(text: string)
    ensures |Objects(text)| == |Spans(text)|
    ensures forall k :: 0 <= k < |Spans(text)| ==> IsAt(text, Spans(text)[k], Objects(text)[k])
    decreases |text|
  {
    if text != "" {
      var n := |text| - 1;
      ObjectsAreSpans(text[..n]);
      RegionBeganNeutral(text[..n]);
      RunLast(text);
      hide Run, Neutral;
      forall k | 0 <= k < |Spans(text)| ensures IsAt(text, Spans(text)[k], Objects(text)[k]) {
        if k < |Spans(text[..n])| {
          hide IsAt;
          StaysAt(text, Spans(text[..n])[k], Objects(text[..n])[k]);
        } else {
          Snip(text, Spans(text)[k].start, |text|);
        }
      }
    }
  }

  /** More text takes more regions, all of them ending in it. */
  lemma {:induction false} SpansGrow(text: string, more: string)
    ensures Spans(text) <= Spans(text + more)
    ensures forall k :: |Spans(text)| <= k < |Spans(text + more)| ==> Spans(text + more)[k].end > |text|
    decreases |more|
  {
    if more == "" {
      assert text + more == text;
    } else {
      var n := |more| - 1;
      assert (text + more)[..|text + more| - 1] == text + more[..n];
      SpansGrow(text, more[..n]);
    }
  }

  /** Too little text for a region this long. */
  lemma TooShortToFind(st: Scan, text: string, region: string)
    requires Neutral(st) && |text| < |region|
    ensures Run(st, text).found != st.found + [region]
  {
    FoundIsCarried(st, text);
    RegionsAreShort(st.(found := []), text, 0);
    var added := Run(st.(found := []), text).found;
    CancelPrefix(st.found, added, [region]);
    assert |added| == 1 ==> |added[0]| <= |text|;
  }

  /** An object that starts outside everything ends its region with its last brace. */
  lemma ObjectEnds(st: Scan, t: string)
    requires Neutral(st) && IsObjectText(t)
    ensures var before := Run(st, t[..|t| - 1]); Ends(before, t[|t| - 1]) && |before.region| == |t| - 1
  {
    hide SkipValue;
    var n := |t| - 1;
    var before := Run(st, t[..n]);
    ObjectIsOneRegion(st, t);
    RunOne(st, t, n);
    assert t[..n + 1] == t;
    TooShortToFind(st, t[..n], t);
    hide Run, IsObjectText;
    assert (st.found + [t])[|st.found|] == t;
    assert Ends(before, t[n]);
    CancelPrefix(before.found, [before.region + [t[n]]], [t]);
    assert |before.found| == |st.found|;
  }

  lemma SpansOfMore(text: string, c: char)
    ensures Spans(text + [c]) ==
      Spans(text) + (if Ends(Run(START, text), c) then [Span(|text| - |Run(START, text).region|, |text| + 1)] else [])
  {
    hide Run;
    assert (text + [c])[..|text|] == text && (text + [c])[|text|] == c;
  }

  lemma SplitLast(p: string, t: string)
    requires t != ""
    ensures p + t == (p + t[..|t| - 1]) + [t[|t| - 1]]
  {
  }

  lemma TakenLast(text: string, c: char)
    requires Ends(Run(START, text), c)
    ensures Span(|text| - |Run(START, text).region|, |text| + 1) in Spans(text + [c])
  {
    hide Run, Ends;
    SpansOfMore(text, c);
  }

  lemma ObjectIsTaken(p: string, t: string)
    requires Neutral(Run(START, p)) && IsObjectText(t)
    ensures Span(|p|, |p| + |t|) in Spans(p + t)
  {
    hide Run, Spans, SkipValue, Neutral, Ends;
    ObjectEnds(Run(START, p), t);
    RunAppend(START, p, t[..|t| - 1]);
    SplitLast(p, t);
    TakenLast(p + t[..|t| - 1], t[|t| - 1]);
  }

  /** The exact condition, whatever the prose before and after: the object's own place is one of the
      regions taken exactly when the prose before it left no quote and no brace open. */
  lemma RecoveredIffNothingOpen(p: string, t: string, q: string)
    requires IsObjectText(t)
    ensures Span(|p|, |p| + |t|) in Spans(p + t + q) <==> LeavesNothingOpen(p)
  {
    var text := p + t + q;
    ObjectsAreRegions(p);
    if LeavesNothingOpen(p) {
      ObjectIsTaken(p, t);
      SpansGrow(p + t, q);
    }
    if Span(|p|, |p| + |t|) in Spans(text) {
      ObjectsAreSpans(text);
      assert text[..|p|] == p;
    }
  }

  lemma ObjectCloses(st: Scan, text: string)
    requires st.depth == 1 && st.inString && !st.escaped && st.found == [] && text == ['{', '\"', '}']
    ensures Run(st, text) == Scan(0, false, false, "", [st.region + text])
  {
    var b := st.(region := st.region + ['{']);
    var c := b.(region := b.region + ['\"'], inString := false);
    assert text[1..] == ['\"', '}'] && text[2..] == ['}'] && text[3..] == [];
    assert c.region + ['}'] == st.region + text;
    assert Step(c, '}') == Scan(0, false, false, "", [st.region + text]);
    assert Run(Step(c, '}'), text[3..]) == Step(c, '}');
    assert Run(c, text[2..]) == Step(c, '}');
    assert Run(b, text[1..]) == Step(c, '}');
  }

  lemma ObjectIsQuoted(out: Scan, text: string)
    requires Neutral(out) && text == ['\"', ':', '\"', 'x']
    ensures Run(out, text) == out
  {
    var within := out.(inString := true);
    assert text[1..] == [':', '\"', 'x'] && text[2..] == ['\"', 'x'] && text[3..] == ['x'] && text[4..] == [];
    assert Run(out, text[4..]) == out;
    assert Run(out, text[3..]) == out;
    assert Run(within, text[2..]) == out;
    assert Run(within, text[1..]) == out;
  }

  lemma ObjectReopens(found: seq<string>)
    ensures Run(Scan(0, false, false, "", found), "{\"}") == Scan(1, true, false, "{\"}", found)
  {
  }

  lemma ProseRuns()
    ensures Run(START, "{\"}\":\"x") == Scan(1, true, false, "{\"}\":\"x", [])
  {
  }

  lemma ObjectRuns()
    ensures Run(Scan(1, true, false, "{\"}\":\"x", []), "{\"}\":\"x{\"}") == Scan(1, true, false, "{\"}", ["{\"}\":\"x{\"}"])
  {
    hide Run;
    ObjectCloses(Scan(1, true, false, "{\"}\":\"x", []), "{\"}");
    ObjectIsQuoted(Scan(0, false, false, "", ["{\"}\":\"x{\"}"]), "\":\"x");
    ObjectReopens(["{\"}\":\"x{\"}"]);
    RunAppend(Scan(1, true, false, "{\"}\":\"x", []), "{\"}", "\":\"x");
    RunAppend(Scan(1, true, false, "{\"}\":\"x", []), "{\"}\":\"x", "{\"}");
    assert "{\"}" + "\":\"x" == "{\"}\":\"x";
    assert "{\"}\":\"x" + "{\"}" == "{\"}\":\"x{\"}";
  }

  /** The object `{"}":"x{"}`. */
  lemma ObjectPrints()
    ensures Stringify(Obj([Slot("}", Str("x{"))])) == "{\"}\":\"x{\"}"
  {
  }

  /** Places matter: this prose leaves a brace and a quote open, so the object's own place is not
      taken, and yet the region the prose began closes on text that happens to spell the object. */
  lemma CoincidenceRecovers()
    ensures var p, t := "{\"}\":\"x", "{\"}\":\"x{\"}";
      IsObjectText(t) && !LeavesNothingOpen(p) && Objects(p + t) == Objects(p) + [t]
  {
    hide Run, Stringify, SkipValue;
    ObjectPrints();
    assert Plain(Obj([Slot("}", Str("x{"))])) by {
      assert [Slot("}", Str("x{"))][1..] == [];
    }
    StringifiedIsObjectText([Slot("}", Str("x{"))]);
    ProseRuns();
    ObjectRuns();
    RunAppend(START, "{\"}\":\"x", "{\"}\":\"x{\"}");
    ObjectsAreRegions("{\"}\":\"x");
  }

  // ---- judging the answer -------------------------------------------------------------

  datatype Answer<+V> = Unreadable | Rejected(value: V) | Accepted(value: V)

  /** What `read` makes of the regions it can read, in order. */
  function Readable<V>(read: string -> Option<V>, objects: seq<string>): seq<V> {
    if objects == [] then []
    else (match read(objects[0]) case Some(v) => [v] case None => []) + Readable(read, objects[1..])
  }

  /** `parseAgentJson` with any reader for `JSON.parse`: the last readable region, judged by the schema
      as it stands. */
  function ParseAgentJson<V>(read: string -> Option<V>, schema: V -> bool, text: string): Answer<V> {
    var values := Readable(read, Objects(text));
    if values == [] then Unreadable
    else
      var last := values[|values| - 1];
      if schema(last) then Accepted(last) else Rejected(last)
  }

  lemma {:induction false} ReadableAppend<V>(read: string -> Option<V>, a: seq<string>, b: seq<string>)
    ensures Readable(read, a + b) == Readable(read, a) + Readable(read, b)
  {
    if a == [] {
      assert a + b == b;
    } else {
      ReadableAppend(read, a[1..], b);
      TakeDrop(a, b);
      Nest(match read(a[0]) case Some(v) => [v] case None => [], Readable(read, a[1..]), Readable(read, b));
    }
  }

  lemma {:induction false} NothingReadable<V>(read: string -> Option<V>, objects: seq<string>)
    requires forall o :: o in objects ==> read(o).None?
    ensures Readable(read, objects) == []
  {
    if objects != [] {
      assert objects[0] in objects;
      NothingReadable(read, objects[1..]);
    }
  }

  /** The answer an agent settled on decides the turn, whatever its reader is: if the object can be read
      and no region after it can, the schema judges that object. Nothing the agent showed on the way is
      ever substituted, however well the schema would have liked it. */
  lemma LastObjectIsJudged<V>(read: string -> Option<V>, schema: V -> bool, p: string, t: string, q: string)
    requires LeavesNothingOpen(p) && IsObjectText(t)
    requires read(t).Some? && forall o :: o in Regions(q) ==> read(o).None?
    ensures ParseAgentJson(read, schema, p + t + q) ==
      if schema(read(t).value) then Accepted(read(t).value) else Rejected(read(t).value)
  {
    var v := read(t).value;
    EmbeddedObjectRecovered(p, t, q);
    ObjectsAreRegions(q);
    NothingReadable(read, Objects(q));
    ReadableAppend(read, Objects(p) + [t], Objects(q));
    ReadableAppend(read, Objects(p), [t]);
    assert Readable(read, [t]) == [v];
    assert Readable(read, Objects(p + t + q)) == Readable(read, Objects(p)) + [v];
  }

  /** A reader that reads exactly the JSON texts, as `JSON.parse` does. */
  ghost predicate ReadsJson<V>(read: string -> Option<V>) {
    forall text :: read(text).Some? <==> IsJsonText(text)
  }

  /** With such a reader: a final object is judged whenever the prose before it left nothing open and no
      region after it is JSON, and every object is readable, whatever numbers and escapes it holds. */
  lemma FinalJsonIsJudged<V>(read: string -> Option<V>, schema: V -> bool, p: string, t: string, q: string)
    requires ReadsJson(read) && LeavesNothingOpen(p) && IsObjectText(t)
    requires forall o :: o in Regions(q) ==> !IsJsonText(o)
    ensures read(t).Some?
    ensures ParseAgentJson(read, schema, p + t + q) ==
      if schema(read(t).value) then Accepted(read(t).value) else Rejected(read(t).value)
  {
    assert IsJsonText(t);
    LastObjectIsJudged(read, schema, p, t, q);
  }
}
