/** `JSON.parse`, as the recursive descent of RFC 8259 over what is left of the text, for the values
    of this model: a number that is not whole and a lone surrogate are read by no value here. */
module JsonParse {
  import opened Basics
  import opened JsonText

  /** `rest` is what follows the part that was read. */
  datatype Read<+T> = Read(value: T, rest: string)

  predicate IsJsonSpace(c: char) {
    c == ' ' || c == '\t' || c == '\n' || c == '\r'
  }

  function SkipSpace(s: string): (rest: string)
    ensures |rest| <= |s|
    ensures rest != "" ==> !IsJsonSpace(rest[0])
  {
    if s != "" && IsJsonSpace(s[0]) then SkipSpace(s[1..]) else s
  }

  // ---- numbers ------------------------------------------------------------------------

  predicate IsDigit(c: char) {
    '0' <= c <= '9'
  }

  function SpanDigits(s: string): (n: nat)
    ensures n <= |s|
    ensures forall i :: 0 <= i < n ==> IsDigit(s[i])
    ensures n < |s| ==> !IsDigit(s[n])
  {
    if s != "" && IsDigit(s[0]) then 1 + SpanDigits(s[1..]) else 0
  }

  ghost predicate AllDigits(s: string) {
    forall i :: 0 <= i < |s| ==> IsDigit(s[i])
  }

  function DigitsValue(s: string): nat
    requires AllDigits(s)
  {
    if s == "" then 0
    else
      assert IsDigit(s[|s| - 1]);
      DigitsValue(s[..|s| - 1]) * 10 + (s[|s| - 1] as int - '0' as int)
  }

  /** What may not follow the digits of an integer. */
  predicate ContinuesNumber(s: string) {
    s != "" && (IsDigit(s[0]) || s[0] == '.' || s[0] == 'e' || s[0] == 'E')
  }

  /** One digit or more. */
  function ReadDigits(s: string): (r: Option<Read<string>>)
    ensures r.Some? ==> r.value.value != "" && AllDigits(r.value.value) && s == r.value.value + r.value.rest
  {
    var n := SpanDigits(s);
    if n == 0 then None else Some(Read(s[..n], s[n..]))
  }

  /** The digits of a fraction, if there is one. */
  function ReadFraction(s: string): (r: Option<Read<string>>)
    ensures r.Some? ==> AllDigits(r.value.value) && |r.value.rest| <= |s|
  {
    if s != "" && s[0] == '.' then ReadDigits(s[1..]) else Some(Read("", s))
  }

  /** The sign of an exponent, and whether it is negative. */
  function ReadSign(s: string): (r: Read<bool>)
    ensures |r.rest| <= |s|
  {
    if s != "" && (s[0] == '+' || s[0] == '-') then Read(s[0] == '-', s[1..]) else Read(false, s)
  }

  /** The exponent, if there is one. */
  function ReadExponent(s: string): (r: Option<Read<int>>)
    ensures r.Some? ==> |r.value.rest| <= |s|
  {
    if s == "" || (s[0] != 'e' && s[0] != 'E') then Some(Read(0, s))
    else
      var Read(negative, t) := ReadSign(s[1..]);
      match ReadDigits(t)
      case None => None
      case Some(Read(digits, rest)) =>
        var n: int := DigitsValue(digits);
        Some(Read(if negative then -n else n, rest))
  }

  /** `digits`, with the point this many places further right. */
  datatype Decimal = Decimal(negative: bool, digits: nat, shift: int)

  /** A number after its sign, by section 6 of RFC 8259. */
  function ReadDecimal(s: string, negative: bool): (r: Option<Read<Decimal>>)
    ensures r.Some? ==> |r.value.rest| < |s|
  {
    match ReadDigits(s)
    case None => None
    case Some(Read(digits, afterDigits)) =>
      if |digits| > 1 && digits[0] == '0' then None
      else match ReadFraction(afterDigits)
        case None => None
        case Some(Read(fraction, afterFraction)) =>
          match ReadExponent(afterFraction)
          case None => None
          case Some(Read(exponent, rest)) =>
            Some(Read(Decimal(negative, DigitsValue(digits + fraction), exponent - |fraction|), rest))
  }

  function ReadNumber(s: string): (r: Option<Read<Decimal>>)
    ensures r.Some? ==> |r.value.rest| < |s|
  {
    if s != "" && s[0] == '-' then ReadDecimal(s[1..], true) else ReadDecimal(s, false)
  }

  function Pow10(n: nat): (r: nat)
    ensures r > 0
  {
    if n == 0 then 1 else 10 * Pow10(n - 1)
  }

  function Size(d: Decimal): Option<nat> {
    if d.shift >= 0 then Some(d.digits * Pow10(d.shift))
    else if d.digits % Pow10(-d.shift) == 0 then Some(d.digits / Pow10(-d.shift))
    else None
  }

  /** The number a decimal spells, if it is whole: 100, 1e2 and 100.0 are one number. */
  function Integral(d: Decimal): Option<int> {
    match Size(d)
    case None => None
    case Some(size) =>
      var n: int := size;
      Some(if d.negative then -n else n)
  }

  function ParseNumber(s: string): (r: Option<Read<Json>>)
    ensures r.Some? ==> |r.value.rest| < |s|
  {
    match ReadNumber(s)
    case None => None
    case Some(Read(d, rest)) =>
      match Integral(d)
      case None => None
      case Some(n) => Some(Read(Num(n), rest))
  }

  // ---- strings ------------------------------------------------------------------------

  function HexValue(c: char): Option<nat> {
    if '0' <= c <= '9' then Some(c as int - '0' as int)
    else if 'a' <= c <= 'f' then Some(c as int - 'a' as int + 10)
    else if 'A' <= c <= 'F' then Some(c as int - 'A' as int + 10)
    else None
  }

  function Hex4(s: string): (r: Option<nat>)
    requires |s| == 4
    ensures r.Some? ==> r.value < 0x1_0000
    ensures r.Some? ==> forall i :: 0 <= i < 4 ==> s[i] != '"' && s[i] != '\\'
  {
    match (HexValue(s[0]), HexValue(s[1]), HexValue(s[2]), HexValue(s[3]))
    case (Some(a), Some(b), Some(c), Some(d)) =>
      if a < 16 && b < 16 && c < 16 && d < 16 then Some(((a * 16 + b) * 16 + c) * 16 + d) else None
    case _ => None
  }

  /** The escape after a backslash, and how many characters it took. */
  function ParseEscape(s: string): (r: Option<(char, nat)>)
    ensures r.Some? ==> 0 < r.value.1 <= |s|
  {
    if s == "" then None
    else match s[0]
      case '"' => Some(('"', 1))
      case '\\' => Some(('\\', 1))
      case '/' => Some(('/', 1))
      case 'b' => Some(('\U{8}', 1))
      case 'f' => Some(('\U{C}', 1))
      case 'n' => Some(('\n', 1))
      case 'r' => Some(('\r', 1))
      case 't' => Some(('\t', 1))
      case 'u' => ParseUnicode(s)
      case _ => None
  }

  /** A \u escape, or two that spell a surrogate pair. */
  function ParseUnicode(s: string): (r: Option<(char, nat)>)
    requires s != "" && s[0] == 'u'
    ensures r.Some? ==> (r.value.1 == 5 || r.value.1 == 11) && r.value.1 <= |s|
  {
    if |s| < 5 then None
    else match Hex4(s[1..5])
      case None => None
      case Some(unit) =>
        if unit < 0xD800 || 0xE000 <= unit then Some((unit as char, 5))
        else if unit < 0xDC00 && |s| >= 11 && s[5] == '\\' && s[6] == 'u' then
          match Hex4(s[7..11])
          case Some(low) =>
            if 0xDC00 <= low < 0xE000
            then Some(((0x1_0000 + (unit - 0xD800) * 0x400 + (low - 0xDC00)) as char, 11))
            else None
          case None => None
        else None
  }

  /** The characters of a string and its closing quote, from just after the opening one. */
  function ParseChars(s: string): (r: Option<Read<string>>)
    ensures r.Some? ==> |r.value.rest| < |s|
    decreases |s|
  {
    if s == "" || s[0] < ' ' then None
    else if s[0] == '"' then Some(Read("", s[1..]))
    else if s[0] == '\\' then
      match ParseEscape(s[1..])
      case None => None
      case Some((c, used)) =>
        match ParseChars(s[1 + used..])
        case None => None
        case Some(Read(text, rest)) => Some(Read([c] + text, rest))
    else
      match ParseChars(s[1..])
      case None => None
      case Some(Read(text, rest)) => Some(Read([s[0]] + text, rest))
  }

  // ---- values -------------------------------------------------------------------------

  function ParseLiteral(s: string, word: string, value: Json): (r: Option<Read<Json>>)
    requires word != ""
    ensures r.Some? ==> |r.value.rest| < |s|
  {
    if word <= s then Some(Read(value, s[|word|..])) else None
  }

  /** One value, after any leading space. */
  function ParseValue(s: string): (r: Option<Read<Json>>)
    ensures r.Some? ==> |r.value.rest| < |s|
    decreases |s|, 1
  {
    var t := SkipSpace(s);
    if t == "" then None
    else match t[0]
      case '{' =>
        var u := SkipSpace(t[1..]);
        if u != "" && u[0] == '}' then Some(Read(Obj([]), u[1..])) else ParseFields(t[1..], [])
      case '[' =>
        var u := SkipSpace(t[1..]);
        if u != "" && u[0] == ']' then Some(Read(Arr([]), u[1..])) else ParseItems(t[1..], [])
      case '"' =>
        (match ParseChars(t[1..])
         case None => None
         case Some(Read(text, rest)) => Some(Read(Str(text), rest)))
      case 't' => ParseLiteral(t, "true", Bool(true))
      case 'f' => ParseLiteral(t, "false", Bool(false))
      case 'n' => ParseLiteral(t, "null", Null)
      case _ => ParseNumber(t)
  }

  /** The items up to the closing bracket; `acc` holds those already read. */
  function ParseItems(s: string, acc: seq<Json>): (r: Option<Read<Json>>)
    ensures r.Some? ==> |r.value.rest| < |s|
    decreases |s|, 2
  {
    match ParseValue(s)
    case None => None
    case Some(Read(value, rest)) =>
      var t := SkipSpace(rest);
      if t == "" then None
      else if t[0] == ']' then Some(Read(Arr(acc + [value]), t[1..]))
      else if t[0] == ',' then ParseItems(t[1..], acc + [value])
      else None
  }

  /** A key and its colon. */
  function ParseKey(s: string): (r: Option<Read<string>>)
    ensures r.Some? ==> |r.value.rest| < |s|
  {
    var t := SkipSpace(s);
    if t == "" || t[0] != '"' then None
    else match ParseChars(t[1..])
      case None => None
      case Some(Read(key, rest)) =>
        var u := SkipSpace(rest);
        if u == "" || u[0] != ':' then None else Some(Read(key, u[1..]))
  }

  /** The fields up to the closing brace. A repeated key keeps its place and takes the last value. */
  function ParseFields(s: string, acc: Fields): (r: Option<Read<Json>>)
    ensures r.Some? ==> |r.value.rest| < |s|
    decreases |s|, 2
  {
    match ParseKey(s)
    case None => None
    case Some(Read(key, afterKey)) =>
      match ParseValue(afterKey)
      case None => None
      case Some(Read(value, rest)) =>
        var t := SkipSpace(rest);
        if t == "" then None
        else if t[0] == '}' then Some(Read(Obj(Put(acc, key, value)), t[1..]))
        else if t[0] == ',' then ParseFields(t[1..], Put(acc, key, value))
        else None
  }

  /** `JSON.parse`: one value and nothing but space after it. */
  function Parse(text: string): Option<Json> {
    match ParseValue(text)
    case Some(Read(value, rest)) => if SkipSpace(rest) == "" then Some(value) else None
    case None => None
  }
}
