/** Splitting on newlines and trimming, as both the ledger reader and the wire tap do. */
module TextLines {
  import opened Basics

  /** What `String.prototype.trim` strips. */
  predicate IsTrimSpace(c: char) {
    c in " \t\n\r\U{B}\U{C}\U{A0}\U{1680}\U{2028}\U{2029}\U{202F}\U{205F}\U{3000}\U{FEFF}" ||
    '\U{2000}' <= c <= '\U{200A}'
  }

  function TrimStart(s: string): string {
    if s != "" && IsTrimSpace(s[0]) then TrimStart(s[1..]) else s
  }

  function TrimEnd(s: string): string {
    if s != "" && IsTrimSpace(s[|s| - 1]) then TrimEnd(s[..|s| - 1]) else s
  }

  function Trim(s: string): string {
    TrimEnd(TrimStart(s))
  }

  /** `s.split("\n")`. */
  function Split(s: string): (r: seq<string>)
    ensures |r| > 0
  {
    if s == "" then [""]
    else
      var rest := Split(s[1..]);
      if s[0] == '\n' then [""] + rest else [[s[0]] + rest[0]] + rest[1..]
  }

  // ---- trimming -----------------------------------------------------------------------

  ghost predicate Blank(s: string) {
    forall i :: 0 <= i < |s| ==> IsTrimSpace(s[i])
  }

  lemma {:induction false} TrimStartBlank(s: string)
    ensures TrimStart(s) == "" <==> Blank(s)
    ensures TrimStart(s) != "" ==> !IsTrimSpace(TrimStart(s)[0])
  {
    if s != "" && IsTrimSpace(s[0]) {
      TrimStartBlank(s[1..]);
      assert forall i :: 0 < i < |s| ==> s[i] == s[1..][i - 1];
    }
  }

  lemma {:induction false} TrimEndKeepsHead(s: string)
    requires s != "" && !IsTrimSpace(s[0])
    ensures TrimEnd(s) != ""
  {
    if IsTrimSpace(s[|s| - 1]) {
      TrimEndKeepsHead(s[..|s| - 1]);
    }
  }

  lemma TrimEmptyIffBlank(s: string)
    ensures Trim(s) == "" <==> Blank(s)
  {
    TrimStartBlank(s);
    if !Blank(s) {
      TrimEndKeepsHead(TrimStart(s));
    }
  }

  /** Trimming takes white space off both ends and nothing else, and leaves none there. */
  lemma TrimIs(s: string) returns (before: string, after: string)
    ensures s == before + Trim(s) + after && Blank(before) && Blank(after)
    ensures Trim(s) != "" ==> !IsTrimSpace(Trim(s)[0]) && !IsTrimSpace(Trim(s)[|Trim(s)| - 1])
  {
    before := TrimStartIs(s);
    after := TrimEndIs(TrimStart(s));
    TrimStartBlank(s);
    Nest(before, Trim(s), after);
    if Trim(s) != "" {
      assert TrimStart(s)[0] == Trim(s)[0];
    }
  }

  lemma {:induction false} TrimStartIs(s: string) returns (before: string)
    ensures s == before + TrimStart(s) && Blank(before)
  {
    before := "";
    if s != "" && IsTrimSpace(s[0]) {
      var more := TrimStartIs(s[1..]);
      before := [s[0]] + more;
    }
  }

  lemma {:induction false} TrimEndIs(s: string) returns (after: string)
    ensures s == TrimEnd(s) + after && Blank(after)
    ensures TrimEnd(s) != "" ==> !IsTrimSpace(TrimEnd(s)[|TrimEnd(s)| - 1])
  {
    hide IsTrimSpace;
    if s != "" && IsTrimSpace(s[|s| - 1]) {
      var t, c := s[..|s| - 1], s[|s| - 1];
      var more := TrimEndIs(t);
      after := more + [c];
      Nest(TrimEnd(t), more, [c]);
      assert s == t + [c];
    } else {
      after := "";
    }
  }

  // ---- splitting ----------------------------------------------------------------------

  lemma {:induction false} SplitLine(line: string)
    requires '\n' !in line
    ensures Split(line) == [line]
  {
    if line != "" {
      SplitLine(line[1..]);
      assert [line[0]] + line[1..] == line;
    }
  }

  /** A newline divides the pieces of what precedes it from the pieces of what follows. */
  lemma {:induction false} SplitAtNewline(a: string, b: string)
    ensures Split(a + "\n" + b) == Split(a) + Split(b)
  {
    var t := a + "\n" + b;
    if a == "" {
      assert t == ['\n'] + b;
      Behead('\n', b);
    } else {
      assert t == [a[0]] + (a[1..] + "\n" + b);
      Behead(a[0], a[1..] + "\n" + b);
      SplitAtNewline(a[1..], b);
      var r := Split(a[1..]);
      assert (r + Split(b))[1..] == r[1..] + Split(b);
      if a[0] == '\n' {
        Nest([""], r, Split(b));
      } else {
        Nest([[a[0]] + r[0]], r[1..], Split(b));
      }
    }
  }

  /** What the last line already holds: empty when the text is empty or ends in a newline. */
  function Tail(text: string): string {
    Split(text)[|Split(text)| - 1]
  }

  /** The lines before it. */
  function Whole(text: string): seq<string> {
    Split(text)[..|Split(text)| - 1]
  }

  /** More text only ever works on the last piece. */
  lemma {:induction false} SplitContinues(a: string, more: string)
    ensures Split(a + more) == Whole(a) + Split(Tail(a) + more)
  {
    if a == "" {
      assert a + more == more && Tail("") + more == more;
    } else {
      TakeDrop(a, more);
      SplitContinues(a[1..], more);
      var r := Split(a[1..]);
      if a[0] == '\n' {
        assert Whole(a) == [""] + r[..|r| - 1];
        Nest([""], r[..|r| - 1], Split(r[|r| - 1] + more));
      } else {
        ContinueFirst(a[0], r, more);
      }
    }
  }

  lemma ContinueFirst(c: char, r: seq<string>, more: string)
    requires |r| > 0 && c != '\n'
    ensures var q := r[..|r| - 1] + Split(r[|r| - 1] + more);
      var s := [[c] + r[0]] + r[1..];
      [[c] + q[0]] + q[1..] == s[..|s| - 1] + Split(s[|s| - 1] + more)
  {
    if |r| == 1 {
      Behead(c, r[0] + more);
      Nest([c], r[0], more);
      assert r[..0] + Split(r[0] + more) == Split(r[0] + more);
    } else {
      var s := [[c] + r[0]] + r[1..];
      var tail := Split(r[|r| - 1] + more);
      assert s[..|s| - 1] == [[c] + r[0]] + r[1..|r| - 1];
      assert (r[..|r| - 1] + tail)[1..] == r[1..|r| - 1] + tail;
    }
  }

  /** Text without a newline lengthens the last piece. */
  lemma SplitLengthensLast(a: string, line: string)
    requires '\n' !in line
    ensures Split(a + line) == Whole(a) + [Tail(a) + line]
  {
    SplitContinues(a, line);
    PiecesHoldNoNewline(a);
    SplitLine(Tail(a) + line);
  }

  /** Split pieces hold no newline. */
  lemma {:induction false} PiecesHoldNoNewline(s: string)
    ensures forall i :: 0 <= i < |Split(s)| ==> '\n' !in Split(s)[i]
  {
    if s != "" {
      PiecesHoldNoNewline(s[1..]);
    }
  }

  function JoinLines(pieces: seq<string>): string {
    if |pieces| == 0 then "" else if |pieces| == 1 then pieces[0] else pieces[0] + "\n" + JoinLines(pieces[1..])
  }

  /** The pieces, with a newline between each two, are the text; and no piece holds one. */
  lemma {:induction false} SplitIs(s: string)
    ensures JoinLines(Split(s)) == s && forall i :: 0 <= i < |Split(s)| ==> '\n' !in Split(s)[i]
  {
    PiecesHoldNoNewline(s);
    if s != "" {
      SplitIs(s[1..]);
      var rest := Split(s[1..]);
      assert s == [s[0]] + s[1..];
      if s[0] == '\n' {
        assert ([""] + rest)[1..] == rest;
        assert "" + "\n" + s[1..] == s;
      } else {
        assert ([[s[0]] + rest[0]] + rest[1..])[1..] == rest[1..];
        if |rest| > 1 {
          Nest([s[0]], rest[0] + "\n", JoinLines(rest[1..]));
          Nest([s[0]], rest[0], "\n");
        }
      }
    }
  }
}
