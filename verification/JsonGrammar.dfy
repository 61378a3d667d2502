/** The grammar of RFC 8259, with nothing left out: every number and every escape. Where the reader of
    this model returns a value, it has read by this grammar. */
module JsonGrammar {
  import opened Basics
  import opened JsonText
  import opened JsonParse

  /** How many characters an escape takes after its backslash. */
  function EscapeLength(s: string): (r: Option<nat>)
    ensures r.Some? ==> 0 < r.value <= |s|
  {
    if s == "" then None
    else if s[0] in "\"\\/bfnrt" then Some(1)
    else if s[0] == 'u' && |s| >= 5 && Hex4(s[1..5]).Some? then Some(5)
    else None
  }

  /** Past a string's closing quote, from just after its opening one. */
  function SkipChars(s: string): (rest: Option<string>)
    ensures rest.Some? ==> |rest.value| < |s|
    decreases |s|
  {
    if s == "" || s[0] < ' ' then None
    else if s[0] == '"' then Some(s[1..])
    else if s[0] == '\\' then
      match EscapeLength(s[1..])
      case None => None
      case Some(n) => SkipChars(s[1 + n..])
    else SkipChars(s[1..])
  }

  function SkipNumber(s: string): (rest: Option<string>)
    ensures rest.Some? ==> |rest.value| < |s|
  {
    match ReadNumber(s)
    case None => None
    case Some(Read(_, rest)) => Some(rest)
  }

  function SkipLiteral(s: string, word: string): (rest: Option<string>)
    requires word != ""
    ensures rest.Some? ==> |rest.value| < |s|
  {
    if word <= s then Some(s[|word|..]) else None
  }

  /** Past one value. */
  function SkipValue(s: string): (rest: Option<string>)
    ensures rest.Some? ==> |rest.value| < |s|
    decreases |s|, 1
  {
    var t := SkipSpace(s);
    if t == "" then None
    else match t[0]
      case '{' =>
        var u := SkipSpace(t[1..]);
        if u != "" && u[0] == '}' then Some(u[1..]) else SkipFields(t[1..])
      case '[' =>
        var u := SkipSpace(t[1..]);
        if u != "" && u[0] == ']' then Some(u[1..]) else SkipItems(t[1..])
      case '"' => SkipChars(t[1..])
      case 't' => SkipLiteral(t, "true")
      case 'f' => SkipLiteral(t, "false")
      case 'n' => SkipLiteral(t, "null")
      case _ => SkipNumber(t)
  }

  /** Past the items and the closing bracket. */
  function SkipItems(s: string): (rest: Option<string>)
    ensures rest.Some? ==> |rest.value| < |s|
    decreases |s|, 2
  {
    match SkipValue(s)
    case None => None
    case Some(rest) =>
      var t := SkipSpace(rest);
      if t == "" then None
      else if t[0] == ']' then Some(t[1..])
      else if t[0] == ',' then SkipItems(t[1..])
      else None
  }

  /** Past a key and its colon. */
  function SkipKey(s: string): (rest: Option<string>)
    ensures rest.Some? ==> |rest.value| < |s|
  {
    var t := SkipSpace(s);
    if t == "" || t[0] != '"' then None
    else match SkipChars(t[1..])
      case None => None
      case Some(rest) =>
        var u := SkipSpace(rest);
        if u == "" || u[0] != ':' then None else Some(u[1..])
  }

  /** Past the fields and the closing brace. */
  function SkipFields(s: string): (rest: Option<string>)
    ensures rest.Some? ==> |rest.value| < |s|
    decreases |s|, 2
  {
    match SkipKey(s)
    case None => None
    case Some(afterKey) =>
      match SkipValue(afterKey)
      case None => None
      case Some(rest) =>
        var t := SkipSpace(rest);
        if t == "" then None
        else if t[0] == '}' then Some(t[1..])
        else if t[0] == ',' then SkipFields(t[1..])
        else None
  }

  /** A JSON text: one value and nothing but space after it. */
  predicate IsJsonText(text: string) {
    var rest := SkipValue(text);
    rest.Some? && SkipSpace(rest.value) == ""
  }

  lemma LeadingSpaceSkips(s: string)
    ensures SkipValue(SkipSpace(s)) == SkipValue(s)
  {
    assert SkipSpace(SkipSpace(s)) == SkipSpace(s);
  }

  // ---- the reader reads by the grammar ------------------------------------------------

  lemma EscapeFollows(s: string)
    requires ParseEscape(s).Some?
    ensures var used := ParseEscape(s).value.1;
      EscapeLength(s).Some? &&
      (EscapeLength(s).value == used ||
       (EscapeLength(s).value == 5 && used == 11 && s[5] == '\\' && EscapeLength(s[6..]) == Some(5)))
  {
    if s[0] == 'u' && ParseEscape(s).value.1 == 11 {
      assert s[6..][1..5] == s[7..11];
    }
  }

  lemma {:induction false} CharsFollow(s: string)
    requires ParseChars(s).Some?
    ensures SkipChars(s) == Some(ParseChars(s).value.rest)
    decreases |s|
  {
    if s[0] == '\\' {
      hide ParseEscape, EscapeLength;
      EscapeFollows(s[1..]);
      var used := ParseEscape(s[1..]).value.1;
      CharsFollow(s[1 + used..]);
      if EscapeLength(s[1..]).value != used {
        assert s[6..][1..] == s[1..][6..] && s[6..][6..] == s[12..];
        assert SkipChars(s[6..]) == SkipChars(s[12..]);
      }
    } else if s[0] != '"' {
      CharsFollow(s[1..]);
    }
  }

  /** Whatever value the reader returns, and wherever it stops, the grammar stops there too. */
  lemma {:induction false} ReaderFollowsGrammar(s: string)
    requires ParseValue(s).Some?
    ensures SkipValue(s) == Some(ParseValue(s).value.rest)
    decreases |s|, 1
  {
    hide ReadNumber, Integral, ParseChars, SkipChars;
    var t := SkipSpace(s);
    if t[0] == '{' {
      var u := SkipSpace(t[1..]);
      if !(u != "" && u[0] == '}') {
        FieldsFollow(t[1..], []);
      }
    } else if t[0] == '[' {
      var u := SkipSpace(t[1..]);
      if !(u != "" && u[0] == ']') {
        ItemsFollow(t[1..], []);
      }
    } else if t[0] == '"' {
      CharsFollow(t[1..]);
    }
  }

  lemma {:induction false} ItemsFollow(s: string, acc: seq<Json>)
    requires ParseItems(s, acc).Some?
    ensures SkipItems(s) == Some(ParseItems(s, acc).value.rest)
    decreases |s|, 2
  {
    var Read(v, rest) := ParseValue(s).value;
    ReaderFollowsGrammar(s);
    var t := SkipSpace(rest);
    if t[0] == ',' {
      ItemsFollow(t[1..], acc + [v]);
    }
  }

  lemma KeyFollows(s: string)
    requires ParseKey(s).Some?
    ensures SkipKey(s) == Some(ParseKey(s).value.rest)
  {
    hide ParseChars, SkipChars;
    CharsFollow(SkipSpace(s)[1..]);
  }

  lemma {:induction false} FieldsFollow(s: string, acc: Fields)
    requires ParseFields(s, acc).Some?
    ensures SkipFields(s) == Some(ParseFields(s, acc).value.rest)
    decreases |s|, 2
  {
    var Read(key, afterKey) := ParseKey(s).value;
    var Read(v, rest) := ParseValue(afterKey).value;
    KeyFollows(s);
    ReaderFollowsGrammar(afterKey);
    var t := SkipSpace(rest);
    if t[0] == ',' {
      FieldsFollow(t[1..], Put(acc, key, v));
    }
  }
}
