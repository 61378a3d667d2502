/** `shellQuote` of src/detection/exec.ts against the shell that reads it, and the repro commands the
    detectors compose with it. */
module Shell {
  import opened Basics

  // ---- the reader ---------------------------------------------------------------------

  datatype Token = Word(text: string) | Pipe

  /** Characters that mean something to the shell outside quotes and that no command here uses. Text
      with one of them is not read at all. */
  predicate IsSpecial(c: char) {
    c in "\"$`*?[#~<>&;(){}\n\0"
  }

  predicate IsBlank(c: char) {
    c == ' ' || c == '\t'
  }

  /** The characters the commands' own words are written in. */
  predicate IsWordChar(c: char) {
    'a' <= c <= 'z' || 'A' <= c <= 'Z' || '0' <= c <= '9' || c == '-' || c == '=' || c == '.' || c == '/' || c == '!'
  }

  function Text(word: Option<string>): string {
    match word case Some(text) => text case None => ""
  }

  function Ended(word: Option<string>): seq<Token> {
    match word case Some(text) => [Word(text)] case None => []
  }

  function Before(tokens: seq<Token>, rest: Option<seq<Token>>): Option<seq<Token>> {
    match rest case Some(more) => Some(tokens + more) case None => None
  }

  /** Token recognition with the quoting of sections 2.2.1 and 2.2.2 of the POSIX Shell Command
      Language (IEEE Std 1003.1). `word` is the word in progress; quotes make one even when empty. */
  function Lex(s: string, word: Option<string>): Option<seq<Token>>
    decreases |s|, 1
  {
    if s == "" then Some(Ended(word))
    else if s[0] == '\'' then LexQuoted(s[1..], Text(word))
    else if s[0] == '\\' then
      if |s| < 2 || s[1] == '\0' then None
      else if s[1] == '\n' then Lex(s[2..], word)
      else Lex(s[2..], Some(Text(word) + [s[1]]))
    else if IsBlank(s[0]) then Before(Ended(word), Lex(s[1..], None))
    else if s[0] == '|' then Before(Ended(word) + [Pipe], Lex(s[1..], None))
    else if IsSpecial(s[0]) then None
    else Lex(s[1..], Some(Text(word) + [s[0]]))
  }

  /** Inside single quotes everything is itself, up to the next single quote. */
  function LexQuoted(s: string, text: string): Option<seq<Token>>
    decreases |s|, 0
  {
    if s == "" || s[0] == '\0' then None
    else if s[0] == '\'' then Lex(s[1..], Some(text))
    else LexQuoted(s[1..], text + [s[0]])
  }

  // ---- shellQuote ---------------------------------------------------------------------

  /** `value.replaceAll("'", "'\\''")`. */
  function QuotesEscaped(value: string): string {
    if value == "" then "" else (if value[0] == '\'' then "'\\''" else [value[0]]) + QuotesEscaped(value[1..])
  }

  function ShellQuote(value: string): string {
    "'" + QuotesEscaped(value) + "'"
  }

  lemma LexEscapedQuote(text: string, rest: string)
    ensures LexQuoted("'\\''" + rest, text) == LexQuoted(rest, text + "'")
  {
    var a := "'\\''" + rest;
    assert a[0] == '\'' && a[1..] == "\\''" + rest;
    var b := "\\''" + rest;
    assert b[0] == '\\' && b[1] == '\'' && b[2..] == "'" + rest;
    var c := "'" + rest;
    assert c[0] == '\'' && c[1..] == rest;
    assert LexQuoted(a, text) == Lex(b, Some(text));
    assert Lex(b, Some(text)) == Lex(c, Some(text + "'"));
    assert Lex(c, Some(text + "'")) == LexQuoted(rest, text + "'");
  }

  lemma {:induction false} LexEscaped(value: string, rest: string, text: string)
    requires '\0' !in value
    ensures LexQuoted(QuotesEscaped(value) + "'" + rest, text) == Lex(rest, Some(text + value))
  {
    if value == "" {
      assert "" + "'" + rest == ['\''] + rest;
      Behead('\'', rest);
      assert text + "" == text;
    } else {
      var more := QuotesEscaped(value[1..]) + "'" + rest;
      LexEscaped(value[1..], rest, text + [value[0]]);
      assert text + [value[0]] + value[1..] == text + value;
      if value[0] == '\'' {
        assert QuotesEscaped(value) + "'" + rest == "'\\''" + more;
        LexEscapedQuote(text, more);
      } else {
        assert QuotesEscaped(value) + "'" + rest == [value[0]] + more;
        Behead(value[0], more);
      }
    }
  }

  /** Quoting is read back, in the middle of a word or at the start of one. */
  lemma QuoteReads(value: string, rest: string, word: Option<string>)
    requires '\0' !in value
    ensures Lex(ShellQuote(value) + rest, word) == Lex(rest, Some(Text(word) + value))
  {
    assert ShellQuote(value) + rest == ['\''] + (QuotesEscaped(value) + "'" + rest);
    Behead('\'', QuotesEscaped(value) + "'" + rest);
    LexEscaped(value, rest, Text(word));
  }

  lemma {:induction false} NulIsRefused(value: string, rest: string, text: string)
    requires '\0' in value
    ensures LexQuoted(QuotesEscaped(value) + rest, text).None?
  {
    var more := QuotesEscaped(value[1..]) + rest;
    if value[0] == '\'' {
      assert QuotesEscaped(value) + rest == "'\\''" + more;
      LexEscapedQuote(text, more);
      NulIsRefused(value[1..], rest, text + "'");
    } else {
      assert QuotesEscaped(value) + rest == [value[0]] + more;
      Behead(value[0], more);
      if value[0] != '\0' {
        NulIsRefused(value[1..], rest, text + [value[0]]);
      }
    }
  }

  /** A quoted value is one word, and that word is the value. The one exception is a value with a NUL,
      which no argument can hold. */
  lemma QuoteIsOneWord(value: string)
    ensures '\0' !in value ==> Lex(ShellQuote(value), None) == Some([Word(value)])
    ensures '\0' in value ==> Lex(ShellQuote(value), None).None?
  {
    if '\0' !in value {
      QuoteReads(value, "", None);
      assert ShellQuote(value) + "" == ShellQuote(value);
      assert "" + value == value;
    } else {
      NulIsRefused(value, "'", "");
      assert ShellQuote(value) == ['\''] + (QuotesEscaped(value) + "'");
      Behead('\'', QuotesEscaped(value) + "'");
    }
  }

  // ---- composed commands --------------------------------------------------------------

  /** A piece of a word: text written as it is, or a quoted value. */
  datatype Part = Plain(text: string) | Quote(value: string)

  datatype Item = Argument(parts: seq<Part>) | PipeSign

  ghost predicate PartOk(part: Part) {
    match part
    case Plain(text) => forall i :: 0 <= i < |text| ==> IsWordChar(text[i])
    case Quote(value) => '\0' !in value
  }

  ghost predicate ItemOk(item: Item) {
    item.Argument? ==>
      (forall i :: 0 <= i < |item.parts| ==> PartOk(item.parts[i])) &&
      (exists i :: 0 <= i < |item.parts| && (item.parts[i].Plain? ==> item.parts[i].text != ""))
  }

  function PartsText(parts: seq<Part>): string {
    if |parts| == 0 then ""
    else (match parts[0] case Plain(text) => text case Quote(value) => ShellQuote(value)) + PartsText(parts[1..])
  }

  function Meaning(parts: seq<Part>): string {
    if |parts| == 0 then ""
    else (match parts[0] case Plain(text) => text case Quote(value) => value) + Meaning(parts[1..])
  }

  function ItemText(item: Item): string {
    match item case Argument(parts) => PartsText(parts) case PipeSign => "|"
  }

  function TokenOf(item: Item): Token {
    match item case Argument(parts) => Word(Meaning(parts)) case PipeSign => Pipe
  }

  function Tokens(items: seq<Item>): (r: seq<Token>)
    ensures |r| == |items| && forall i :: 0 <= i < |r| ==> r[i] == TokenOf(items[i])
  {
    if |items| == 0 then [] else [TokenOf(items[0])] + Tokens(items[1..])
  }

  function Texts(items: seq<Item>): (r: seq<string>)
    ensures |r| == |items| && forall i :: 0 <= i < |r| ==> r[i] == ItemText(items[i])
  {
    if |items| == 0 then [] else [ItemText(items[0])] + Texts(items[1..])
  }

  /** `.join(" ")`. */
  function JoinSpace(texts: seq<string>): string {
    if |texts| == 0 then ""
    else if |texts| == 1 then texts[0]
    else texts[0] + " " + JoinSpace(texts[1..])
  }

  function CommandText(items: seq<Item>): string {
    JoinSpace(Texts(items))
  }

  lemma OrdinaryReads(c: char, rest: string, word: Option<string>)
    requires IsWordChar(c)
    ensures Lex([c] + rest, word) == Lex(rest, Some(Text(word) + [c]))
  {
    Behead(c, rest);
    assert !IsSpecial(c) by {
      hide Lex;
    }
  }

  lemma {:induction false} PlainReads(text: string, rest: string, word: Option<string>)
    requires forall i :: 0 <= i < |text| ==> IsWordChar(text[i])
    ensures Lex(text + rest, word) == Lex(rest, if text == "" then word else Some(Text(word) + text))
  {
    if text == "" {
      assert "" + rest == rest;
    } else {
      hide Lex, IsWordChar;
      assert text + rest == [text[0]] + (text[1..] + rest);
      var next := Some(Text(word) + [text[0]]);
      OrdinaryReads(text[0], text[1..] + rest, word);
      PlainReads(text[1..], rest, next);
      assert Text(word) + [text[0]] + text[1..] == Text(word) + text;
      if text[1..] == "" {
        assert text == [text[0]];
      }
    }
  }

  /** The parts of a word, read one after the other. */
  lemma {:induction false} PartsRead(parts: seq<Part>, rest: string, word: Option<string>)
    requires forall i :: 0 <= i < |parts| ==> PartOk(parts[i])
    requires word.Some? || exists i :: 0 <= i < |parts| && (parts[i].Plain? ==> parts[i].text != "")
    ensures Lex(PartsText(parts) + rest, word) == Lex(rest, Some(Text(word) + Meaning(parts)))
  {
    if |parts| == 0 {
      assert "" + rest == rest;
      assert Text(word) + "" == Text(word);
    } else {
      assert PartOk(parts[0]);
      var more := PartsText(parts[1..]) + rest;
      var said := match parts[0] case Plain(text) => text case Quote(value) => value;
      var next := if parts[0].Plain? && parts[0].text == "" then word else Some(Text(word) + said);
      hide Lex;
      match parts[0] {
        case Plain(text) =>
          Nest(text, PartsText(parts[1..]), rest);
          PlainReads(text, more, word);
        case Quote(value) =>
          Nest(ShellQuote(value), PartsText(parts[1..]), rest);
          QuoteReads(value, more, word);
      }
      if next.None? {
        var i :| 0 <= i < |parts| && (parts[i].Plain? ==> parts[i].text != "");
        assert parts[1..][i - 1] == parts[i];
      }
      PartsRead(parts[1..], rest, next);
      Nest(Text(word), said, Meaning(parts[1..]));
      assert Text(next) == Text(word) + said;
    }
  }

  lemma BlankEnds(rest: string, word: Option<string>)
    ensures Lex(" " + rest, word) == Before(Ended(word), Lex(rest, None))
  {
  }

  lemma {:induction false} CommandReads(items: seq<Item>)
    requires forall i :: 0 <= i < |items| ==> ItemOk(items[i])
    ensures Lex(CommandText(items), None) == Some(Tokens(items))
  {
    if |items| > 0 {
      var rest := if |items| == 1 then "" else " " + CommandText(items[1..]);
      CommandReads(items[1..]);
      assert Texts(items)[1..] == Texts(items[1..]);
      assert CommandText(items) == ItemText(items[0]) + rest by {
        if |items| == 1 {
          assert ItemText(items[0]) + "" == ItemText(items[0]);
        } else {
          Nest(ItemText(items[0]), " ", CommandText(items[1..]));
        }
      }
      RestReads(items, None);
      assert ItemOk(items[0]);
      match items[0]
      case Argument(parts) =>
        PartsRead(parts, rest, None);
        assert "" + Meaning(parts) == Meaning(parts);
        RestReads(items, Some(Meaning(parts)));
      case PipeSign =>
        Behead('|', rest);
        assert "|" + rest == ['|'] + rest;
        assert Ended(None) + [Pipe] == [Pipe];
        assert [] + Tokens(items[1..]) == Tokens(items[1..]);
    }
  }

  /** What follows the first item, once the rest of the command is known to read back. */
  lemma RestReads(items: seq<Item>, word: Option<string>)
    requires |items| > 0 && Lex(CommandText(items[1..]), None) == Some(Tokens(items[1..]))
    ensures Lex(if |items| == 1 then "" else " " + CommandText(items[1..]), word) == Some(Ended(word) + Tokens(items[1..]))
  {
    if |items| == 1 {
      assert Tokens(items[1..]) == [];
      assert Ended(word) + [] == Ended(word);
    } else {
      BlankEnds(CommandText(items[1..]), word);
    }
  }
}
