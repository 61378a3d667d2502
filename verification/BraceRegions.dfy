/** What counts as a balanced brace region, said of the text alone: quoted strings and regions nest the
    way they are written, and everything else is plain. */
module BraceRegions {
  import opened Basics

  /** Past the closing quote, from just after the opening one. A backslash takes the next character with it. */
  function PastQuote(s: string): (rest: Option<string>)
    ensures rest.Some? ==> |rest.value| < |s|
    decreases |s|
  {
    if s == "" then None
    else if s[0] == '"' then Some(s[1..])
    else if s[0] == '\\' then (if |s| == 1 then None else PastQuote(s[2..]))
    else PastQuote(s[1..])
  }

  /** Past the closing brace, from just after the opening one. */
  function PastRegion(s: string): (rest: Option<string>)
    ensures rest.Some? ==> |rest.value| < |s|
    decreases |s|
  {
    if s == "" then None
    else if s[0] == '}' then Some(s[1..])
    else if s[0] == '"' then
      match PastQuote(s[1..]) case None => None case Some(rest) => PastRegion(rest)
    else if s[0] == '{' then
      match PastRegion(s[1..]) case None => None case Some(rest) => PastRegion(rest)
    else PastRegion(s[1..])
  }

  /** Every quote and every brace that is opened is closed again. */
  predicate LeavesNothingOpen(s: string)
    decreases |s|
  {
    if s == "" then true
    else if s[0] == '"' then
      match PastQuote(s[1..]) case None => false case Some(rest) => LeavesNothingOpen(rest)
    else if s[0] == '{' then
      match PastRegion(s[1..]) case None => false case Some(rest) => LeavesNothingOpen(rest)
    else LeavesNothingOpen(s[1..])
  }

  /** The outermost regions of a text, in order. What is left open holds none. */
  function Regions(s: string): seq<string>
    decreases |s|
  {
    if s == "" then []
    else if s[0] == '"' then
      match PastQuote(s[1..]) case None => [] case Some(rest) => Regions(rest)
    else if s[0] == '{' then
      match PastRegion(s[1..]) case None => [] case Some(rest) => [s[..|s| - |rest|]] + Regions(rest)
    else Regions(s[1..])
  }

  /** Prose without a double quote and without an opening brace leaves nothing open, whatever else is in it,
      apostrophes and closing braces too. */
  lemma {:induction false} PlainProseIsClosed(s: string)
    requires '"' !in s && '{' !in s
    ensures LeavesNothingOpen(s) && Regions(s) == []
    decreases |s|
  {
    if s != "" {
      PlainProseIsClosed(s[1..]);
    }
  }
}
