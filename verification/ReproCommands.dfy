/** The repro commands the detectors write, as the shell reads them back. */
module ReproCommands {
  import opened Basics
  import opened Shell

  // ---- as they are composed -----------------------------------------------------------

  /** src/detection/semgrep.ts. */
  function SemgrepRepro(ruleset: string, path: string, checkId: string): string {
    var scan := JoinSpace(["semgrep", "scan", "--config", ShellQuote(ruleset), "--json", "--quiet", "--metrics=off",
                           ShellQuote(path)]);
    scan + " | grep -q " + ShellQuote(checkId)
  }

  /** src/detection/osv-scanner.ts. */
  function OsvRepro(lockfile: string, advisoryId: string): string {
    var scan := JoinSpace(["osv-scanner", "scan", "source", "--lockfile=" + ShellQuote(lockfile), "--format=json"]);
    scan + " | grep -q " + ShellQuote(advisoryId)
  }

  /** src/detection/libfuzzer.ts. */
  function LibFuzzerRepro(entryPoint: string, artifact: string): string {
    "! " + ShellQuote("./" + entryPoint) + " -timeout=25 " + ShellQuote(artifact)
  }

  /** src/detection/jazzer-js.ts. */
  function JazzerRepro(entryPoint: string, artifact: string): string {
    JoinSpace(["!", ShellQuote("./node_modules/.bin/jazzer"), ShellQuote(entryPoint), ShellQuote(artifact), "--timeout",
               "25000"])
  }

  // ---- as they are read ---------------------------------------------------------------

  lemma {:induction false} JoinSpaceAppend(a: seq<string>, b: seq<string>)
    requires |a| > 0 && |b| > 0
    ensures JoinSpace(a + b) == JoinSpace(a) + " " + JoinSpace(b)
  {
    TakeDrop(a, b);
    if |a| == 1 {
      assert (a + b)[1..] == b;
    } else {
      JoinSpaceAppend(a[1..], b);
      assert JoinSpace(a + b) == a[0] + " " + (JoinSpace(a[1..]) + " " + JoinSpace(b));
    }
  }

  function PlainWord(text: string): Item {
    Argument([Plain(text)])
  }

  function QuotedWord(value: string): Item {
    Argument([Quote(value)])
  }

  ghost predicate IsWord(text: string) {
    text != "" && forall i :: 0 <= i < |text| ==> IsWordChar(text[i])
  }

  lemma OnePart(part: Part)
    ensures PartsText([part]) == match part case Plain(text) => text case Quote(value) => ShellQuote(value)
    ensures Meaning([part]) == match part case Plain(text) => text case Quote(value) => value
  {
  }

  /** The commands' own words need no quoting. */
  lemma GrepWords()
    ensures IsWord("grep") && IsWord("-q")
  {
  }

  lemma SemgrepWords()
    ensures IsWord("semgrep") && IsWord("scan") && IsWord("--config") && IsWord("--json") && IsWord("--quiet")
    ensures IsWord("--metrics=off")
  {
  }

  lemma OsvWords()
    ensures IsWord("osv-scanner") && IsWord("scan") && IsWord("source") && IsWord("--lockfile=") && IsWord("--format=json")
  {
  }

  lemma FuzzerWords()
    ensures IsWord("!") && IsWord("-timeout=25") && IsWord("--timeout") && IsWord("25000")
  {
  }

  lemma PlainWordIs(text: string)
    requires IsWord(text)
    ensures ItemOk(PlainWord(text)) && ItemText(PlainWord(text)) == text && TokenOf(PlainWord(text)) == Word(text)
  {
    var parts := [Plain(text)];
    OnePart(Plain(text));
    assert PartOk(parts[0]) && parts[0].text != "";
  }

  lemma QuotedWordIs(value: string)
    requires '\0' !in value
    ensures ItemOk(QuotedWord(value)) && ItemText(QuotedWord(value)) == ShellQuote(value)
    ensures TokenOf(QuotedWord(value)) == Word(value)
  {
    var parts := [Quote(value)];
    OnePart(Quote(value));
    assert PartOk(parts[0]) && parts[0].Quote?;
  }

  lemma SuffixedWordIs(text: string, value: string)
    requires IsWord(text) && '\0' !in value
    ensures var item := Argument([Plain(text), Quote(value)]);
      ItemOk(item) && ItemText(item) == text + ShellQuote(value) && TokenOf(item) == Word(text + value)
  {
    var parts := [Plain(text), Quote(value)];
    OnePart(Quote(value));
    assert parts[1..] == [Quote(value)];
    assert PartOk(parts[0]) && PartOk(parts[1]) && parts[1].Quote?;
  }

  lemma GrepTail(id: string)
    ensures JoinSpace(["|", "grep", "-q", ShellQuote(id)]) == "| grep -q " + ShellQuote(id)
  {
    var q := ShellQuote(id);
    hide ShellQuote;
    assert ["|", "grep", "-q", q][1..] == ["grep", "-q", q];
    assert ["grep", "-q", q][1..] == ["-q", q];
    assert ["-q", q][1..] == [q];
    assert JoinSpace(["-q", q]) == "-q " + q;
    assert JoinSpace(["grep", "-q", q]) == "grep " + ("-q " + q);
    assert "grep " + ("-q " + q) == "grep -q " + q;
    assert "|" + " " + ("grep -q " + q) == "| grep -q " + q;
  }

  function GrepItems(id: string): seq<Item> {
    [PipeSign, PlainWord("grep"), PlainWord("-q"), QuotedWord(id)]
  }

  lemma PipeSignIs()
    ensures ItemOk(PipeSign) && ItemText(PipeSign) == "|" && TokenOf(PipeSign) == Pipe
  {
  }

  lemma GrepReads(id: string)
    requires '\0' !in id
    ensures forall i :: 0 <= i < 4 ==> ItemOk(GrepItems(id)[i])
    ensures Texts(GrepItems(id)) == ["|", "grep", "-q", ShellQuote(id)]
    ensures Tokens(GrepItems(id)) == [Pipe, Word("grep"), Word("-q"), Word(id)]
  {
    hide ShellQuote, PlainWord, QuotedWord, IsWord, Texts, Tokens, ItemText, TokenOf, ItemOk, JoinSpace;
    GrepWords();
    PipeSignIs();
    PlainWordIs("grep");
    PlainWordIs("-q");
    QuotedWordIs(id);
  }

  lemma TextsAppend(a: seq<Item>, b: seq<Item>)
    ensures Texts(a + b) == Texts(a) + Texts(b) && Tokens(a + b) == Tokens(a) + Tokens(b)
  {
  }

  lemma PipeText(scan: string, q: string)
    ensures scan + " | grep -q " + q == scan + " " + ("| grep -q " + q)
  {
  }

  /** A scan piped into `grep -q`, for any scan that reads back. */
  lemma PipedReads(scan: seq<Item>, id: string)
    requires |scan| > 0 && (forall i :: 0 <= i < |scan| ==> ItemOk(scan[i])) && '\0' !in id
    ensures Lex(CommandText(scan) + " | grep -q " + ShellQuote(id), None) ==
      Some(Tokens(scan) + [Pipe, Word("grep"), Word("-q"), Word(id)])
  {
    hide Lex, ShellQuote, GrepItems, ItemOk, JoinSpace, TokenOf, ItemText, Texts, Tokens;
    var tail := GrepItems(id);
    GrepReads(id);
    GrepTail(id);
    TextsAppend(scan, tail);
    JoinSpaceAppend(Texts(scan), Texts(tail));
    PipeText(CommandText(scan), ShellQuote(id));
    CommandReads(scan + tail);
  }

  /** For every ruleset, path and rule without a NUL, the two commands are run with these arguments. */
  lemma SemgrepReproReads(ruleset: string, path: string, checkId: string)
    requires '\0' !in ruleset && '\0' !in path && '\0' !in checkId
    ensures Lex(SemgrepRepro(ruleset, path, checkId), None) ==
      Some([Word("semgrep"), Word("scan"), Word("--config"), Word(ruleset), Word("--json"), Word("--quiet"),
            Word("--metrics=off"), Word(path)] + [Pipe, Word("grep"), Word("-q"), Word(checkId)])
  {
    hide Lex, ShellQuote, PlainWord, QuotedWord, ItemOk, JoinSpace, IsWord, TokenOf, ItemText, IsWordChar, Texts, Tokens;
    var scan := [PlainWord("semgrep"), PlainWord("scan"), PlainWord("--config"), QuotedWord(ruleset), PlainWord("--json"),
                 PlainWord("--quiet"), PlainWord("--metrics=off"), QuotedWord(path)];
    SemgrepWords();
    PlainWordIs("semgrep");
    PlainWordIs("scan");
    PlainWordIs("--config");
    PlainWordIs("--json");
    PlainWordIs("--quiet");
    PlainWordIs("--metrics=off");
    QuotedWordIs(ruleset);
    QuotedWordIs(path);
    assert Texts(scan) == ["semgrep", "scan", "--config", ShellQuote(ruleset), "--json", "--quiet", "--metrics=off",
                           ShellQuote(path)];
    assert Tokens(scan) == [Word("semgrep"), Word("scan"), Word("--config"), Word(ruleset), Word("--json"), Word("--quiet"),
                            Word("--metrics=off"), Word(path)];
    PipedReads(scan, checkId);
  }

  /** The lockfile is one word together with its option. */
  lemma OsvReproReads(lockfile: string, advisoryId: string)
    requires '\0' !in lockfile && '\0' !in advisoryId
    ensures Lex(OsvRepro(lockfile, advisoryId), None) ==
      Some([Word("osv-scanner"), Word("scan"), Word("source"), Word("--lockfile=" + lockfile), Word("--format=json")] +
           [Pipe, Word("grep"), Word("-q"), Word(advisoryId)])
  {
    hide Lex, ShellQuote, PlainWord, ItemOk, JoinSpace, IsWord, TokenOf, ItemText, IsWordChar, Texts, Tokens;
    var lock := Argument([Plain("--lockfile="), Quote(lockfile)]);
    var scan := [PlainWord("osv-scanner"), PlainWord("scan"), PlainWord("source"), lock, PlainWord("--format=json")];
    OsvWords();
    PlainWordIs("osv-scanner");
    PlainWordIs("scan");
    PlainWordIs("source");
    SuffixedWordIs("--lockfile=", lockfile);
    PlainWordIs("--format=json");
    assert Texts(scan) == ["osv-scanner", "scan", "source", "--lockfile=" + ShellQuote(lockfile), "--format=json"];
    assert Tokens(scan) == [Word("osv-scanner"), Word("scan"), Word("source"), Word("--lockfile=" + lockfile),
                            Word("--format=json")];
    PipedReads(scan, advisoryId);
  }

  lemma LibFuzzerText(a: string, b: string)
    ensures JoinSpace(["!", a, "-timeout=25", b]) == "! " + a + " -timeout=25 " + b
  {
    assert ["!", a, "-timeout=25", b] == ["!", a] + ["-timeout=25", b];
    JoinSpaceAppend(["!", a], ["-timeout=25", b]);
    hide JoinSpace;
    assert " " + "-timeout=25 " == " -timeout=25 ";
    assert "!" + " " == "! " && "-timeout=25" + " " == "-timeout=25 ";
  }

  lemma LibFuzzerReproReads(entryPoint: string, artifact: string)
    requires '\0' !in entryPoint && '\0' !in artifact
    ensures Lex(LibFuzzerRepro(entryPoint, artifact), None) ==
      Some([Word("!"), Word("./" + entryPoint), Word("-timeout=25"), Word(artifact)])
  {
    hide Lex, ShellQuote, PlainWord, QuotedWord, ItemOk, JoinSpace, IsWord, TokenOf, ItemText, IsWordChar, Texts, Tokens;
    var items := [PlainWord("!"), QuotedWord("./" + entryPoint), PlainWord("-timeout=25"), QuotedWord(artifact)];
    FuzzerWords();
    PlainWordIs("!");
    QuotedWordIs("./" + entryPoint);
    PlainWordIs("-timeout=25");
    QuotedWordIs(artifact);
    assert Texts(items) == ["!", ShellQuote("./" + entryPoint), "-timeout=25", ShellQuote(artifact)];
    assert Tokens(items) == [Word("!"), Word("./" + entryPoint), Word("-timeout=25"), Word(artifact)];
    LibFuzzerText(ShellQuote("./" + entryPoint), ShellQuote(artifact));
    CommandReads(items);
  }

  lemma JazzerReproReads(entryPoint: string, artifact: string)
    requires '\0' !in entryPoint && '\0' !in artifact
    ensures Lex(JazzerRepro(entryPoint, artifact), None) ==
      Some([Word("!"), Word("./node_modules/.bin/jazzer"), Word(entryPoint), Word(artifact), Word("--timeout"), Word("25000")])
  {
    hide Lex, ShellQuote, PlainWord, QuotedWord, ItemOk, JoinSpace, IsWord, TokenOf, ItemText, IsWordChar, Texts, Tokens;
    var jazzer := "./node_modules/.bin/jazzer";
    var items := [PlainWord("!"), QuotedWord(jazzer), QuotedWord(entryPoint), QuotedWord(artifact), PlainWord("--timeout"),
                  PlainWord("25000")];
    FuzzerWords();
    PlainWordIs("!");
    QuotedWordIs(jazzer);
    QuotedWordIs(entryPoint);
    QuotedWordIs(artifact);
    PlainWordIs("--timeout");
    PlainWordIs("25000");
    assert Texts(items) == ["!", ShellQuote(jazzer), ShellQuote(entryPoint), ShellQuote(artifact), "--timeout", "25000"];
    assert Tokens(items) == [Word("!"), Word(jazzer), Word(entryPoint), Word(artifact), Word("--timeout"), Word("25000")];
    CommandReads(items);
  }
}
