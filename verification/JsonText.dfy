/** JSON values and the two printers of src/ledger: `JSON.stringify`, which writes a ledger
    line, and `canonicalize`, which writes the text that gets hashed. */
module JsonText {
  import opened Basics

  type Fields = seq<Slot<string, Json>>

  /** What `canonicalize` can be handed. Numbers are integers; strings hold Unicode scalar values. */
  datatype Json =
    | Undefined
    | Null
    | Bool(b: bool)
    | Num(n: int)
    | Str(s: string)
    | Arr(items: seq<Json>)
    | Obj(fields: Fields)

  // ---- strings and numbers ------------------------------------------------------------

  function HexDigit(n: nat): char
    requires n < 16
  {
    "0123456789abcdef"[n]
  }

  /** Section 7 of RFC 8259: the short escapes, and \u00xx for the other control characters. */
  function EscapeChar(c: char): string {
    if c == '"' then "\\\""
    else if c == '\\' then "\\\\"
    else if c == '\n' then "\\n"
    else if c == '\r' then "\\r"
    else if c == '\t' then "\\t"
    else if c == '\U{8}' then "\\b"
    else if c == '\U{C}' then "\\f"
    else if c < ' ' then "\\u00" + [HexDigit(c as int / 16), HexDigit(c as int % 16)]
    else [c]
  }

  function Escaped(s: string): string {
    if s == "" then "" else EscapeChar(s[0]) + Escaped(s[1..])
  }

  function Quoted(s: string): string {
    "\"" + Escaped(s) + "\""
  }

  function DigitChar(n: nat): char
    requires n < 10
  {
    "0123456789"[n]
  }

  function Digits(n: nat): string {
    if n < 10 then [DigitChar(n)] else Digits(n / 10) + [DigitChar(n % 10)]
  }

  function IntText(n: int): string {
    if n < 0 then "-" + Digits(-n) else Digits(n)
  }

  // ---- well-formed values -------------------------------------------------------------

  /** No object has the same key twice; fields and items may still be undefined. */
  ghost predicate WellFormed(v: Json)
    decreases v, 1
  {
    match v
    case Arr(items) => WellFormedItems(items)
    case Obj(fields) => DistinctKeys(fields) && WellFormedFields(fields)
    case _ => true
  }

  ghost predicate WellFormedItems(items: seq<Json>)
    decreases items, 0
  {
    |items| == 0 || (WellFormed(items[0]) && WellFormedItems(items[1..]))
  }

  ghost predicate WellFormedFields(fields: Fields)
    decreases fields, 0
  {
    |fields| == 0 || (WellFormedField(fields[0]) && WellFormedFields(fields[1..]))
  }

  ghost predicate WellFormedField(field: Slot<string, Json>)
    decreases field, 2
  {
    match field case Slot(_, value) => WellFormed(value)
  }

  /** Well formed, and nothing undefined anywhere: what `JSON.parse` can return. */
  ghost predicate Plain(v: Json)
    decreases v, 1
  {
    match v
    case Undefined => false
    case Arr(items) => PlainItems(items)
    case Obj(fields) => DistinctKeys(fields) && PlainFields(fields)
    case _ => true
  }

  ghost predicate PlainItems(items: seq<Json>)
    decreases items, 0
  {
    |items| == 0 || (Plain(items[0]) && PlainItems(items[1..]))
  }

  ghost predicate PlainFields(fields: Fields)
    decreases fields, 0
  {
    |fields| == 0 || (PlainField(fields[0]) && PlainFields(fields[1..]))
  }

  ghost predicate PlainField(field: Slot<string, Json>)
    decreases field, 2
  {
    match field case Slot(_, value) => Plain(value)
  }

  // ---- JSON.stringify -----------------------------------------------------------------

  function Stringify(v: Json): string
    decreases v, 1
  {
    match v
    case Undefined => "null"
    case Null => "null"
    case Bool(b) => if b then "true" else "false"
    case Num(n) => IntText(n)
    case Str(s) => Quoted(s)
    case Arr(items) => "[" + ItemsText(items) + "]"
    case Obj(fields) => "{" + FieldsText(fields) + "}"
  }

  function ItemsText(items: seq<Json>): string
    decreases items, 0
  {
    if |items| == 0 then ""
    else if |items| == 1 then Stringify(items[0])
    else Stringify(items[0]) + "," + ItemsText(items[1..])
  }

  function FieldText(field: Slot<string, Json>): string
    decreases field, 2
  {
    match field case Slot(key, value) => Quoted(key) + ":" + Stringify(value)
  }

  function FieldsText(fields: Fields): string
    decreases fields, 0
  {
    if |fields| == 0 then ""
    else if |fields| == 1 then FieldText(fields[0])
    else FieldText(fields[0]) + "," + FieldsText(fields[1..])
  }

  // ---- key order ----------------------------------------------------------------------

  /** JavaScript compares strings by UTF-16 code unit. A character outside the BMP starts with
      a surrogate, so it sorts after U+D7FF and before U+E000. */
  function CodeUnitRank(c: char): int {
    var n := c as int;
    if n < 0xD800 then n
    else if n >= 0x1_0000 then n - 0x1_0000 + 0xD800
    else n + 0x10_0000
  }

  /** `left < right` on strings. */
  predicate KeyLess(left: string, right: string) {
    if right == "" then false
    else if left == "" then true
    else if left[0] == right[0] then KeyLess(left[1..], right[1..])
    else CodeUnitRank(left[0]) < CodeUnitRank(right[0])
  }

  function Insert<V>(slot: Slot<string, V>, sorted: seq<Slot<string, V>>): seq<Slot<string, V>> {
    if |sorted| == 0 then [slot]
    else if KeyLess(sorted[0].key, slot.key) then [sorted[0]] + Insert(slot, sorted[1..])
    else [slot] + sorted
  }

  /** The stable sort by key. */
  function SortByKey<V>(slots: seq<Slot<string, V>>): seq<Slot<string, V>> {
    if |slots| == 0 then [] else Insert(slots[0], SortByKey(slots[1..]))
  }

  // ---- canonicalize -------------------------------------------------------------------

  function JoinFields(parts: seq<Slot<string, string>>): string {
    if |parts| == 0 then ""
    else if |parts| == 1 then Quoted(parts[0].key) + ":" + parts[0].value
    else Quoted(parts[0].key) + ":" + parts[0].value + "," + JoinFields(parts[1..])
  }

  /** The text a hash is taken of. Fields are printed before they are sorted rather than after,
      which changes nothing because the sort looks at keys only. */
  function Canonicalize(v: Json): string
    decreases v, 1
  {
    match v
    case Undefined => "null"
    case Arr(items) => "[" + CanonicalItems(items) + "]"
    case Obj(fields) => "{" + JoinFields(SortByKey(CanonicalFields(fields))) + "}"
    case _ => Stringify(v)
  }

  function CanonicalItems(items: seq<Json>): string
    decreases items, 0
  {
    if |items| == 0 then ""
    else if |items| == 1 then Canonicalize(items[0])
    else Canonicalize(items[0]) + "," + CanonicalItems(items[1..])
  }

  function CanonicalFields(fields: Fields): seq<Slot<string, string>>
    decreases fields, 0
  {
    if |fields| == 0 then [] else CanonicalField(fields[0]) + CanonicalFields(fields[1..])
  }

  function CanonicalField(field: Slot<string, Json>): seq<Slot<string, string>>
    decreases field, 2
  {
    match field
    case Slot(key, value) => if value.Undefined? then [] else [Slot(key, Canonicalize(value))]
  }
}
