/** What an append does to a ledger that verifies: it goes on verifying, one entry longer, exactly
    when the file ended where a line may start. */
module LedgerAppend {
  import opened Basics
  import opened JsonText
  import opened JsonParse
  import opened JsonRoundTrip
  import opened JsonFacts
  import opened TextLines
  import opened Ledger

  // ---- fields -------------------------------------------------------------------------

  lemma {:induction false} LookupAppend<V>(m: seq<Slot<string, V>>, slot: Slot<string, V>, key: string)
    ensures Lookup(m + [slot], key) ==
      if Lookup(m, key).Some? then Lookup(m, key) else if slot.key == key then Some(slot.value) else None
  {
    if |m| > 0 {
      LookupAppend(m[1..], slot, key);
      assert (m + [slot])[1..] == m[1..] + [slot];
    }
  }

  lemma {:induction false} WithoutAbsent(m: Fields, key: string)
    requires Lookup(m, key).None?
    ensures Without(m, key) == m
  {
    if |m| > 0 {
      WithoutAbsent(m[1..], key);
    }
  }

  lemma {:induction false} WithoutAppend(m: Fields, slot: Slot<string, Json>, key: string)
    ensures Without(m + [slot], key) == Without(m, key) + (if slot.key == key then [] else [slot])
  {
    if |m| > 0 {
      WithoutAppend(m[1..], slot, key);
      assert (m + [slot])[1..] == m[1..] + [slot];
    }
  }

  lemma DistinctAppend<V>(m: seq<Slot<string, V>>, slot: Slot<string, V>)
    requires DistinctKeys(m) && Lookup(m, slot.key).None?
    ensures DistinctKeys(m + [slot])
  {
    LookupFinds(m, slot.key);
  }

  lemma PlainAppend(m: Fields, key: string, v: Json)
    requires PlainFields(m) && Plain(v) && Lookup(m, key).None?
    ensures PlainFields(m + [Slot(key, v)])
  {
    PlainFieldsPut(m, key, v);
    PutNewAppends(m, key, v);
  }

  // ---- the entry that is written ------------------------------------------------------

  /** A body without verdicts is read as one with none, and any other as it stands. */
  lemma VerdictsDefault(body: Fields)
    ensures Lookup(body, "verdicts").None? ==> Lookup(WithDefaults(body), "verdicts") == Some(Arr([]))
    ensures Lookup(body, "verdicts").Some? ==> WithDefaults(body) == body
    ensures forall key :: key != "verdicts" ==> Lookup(WithDefaults(body), key) == Lookup(body, key)
  {
    forall key ensures key != "verdicts" ==> Lookup(WithDefaults(body), key) == Lookup(body, key) {
      LookupAppend(body, Slot("verdicts", Arr([])), key);
    }
    LookupAppend(body, Slot("verdicts", Arr([])), "verdicts");
  }

  lemma WithDefaultsPlain(body: Fields)
    requires Plain(Obj(body))
    ensures Plain(Obj(WithDefaults(body)))
  {
    if Lookup(body, "verdicts").None? {
      PlainAppend(body, "verdicts", Arr([]));
      DistinctAppend(body, Slot("verdicts", Arr([])));
    }
  }

  /** Reading back the fields of a written entry gives the entry that was returned. */
  lemma EntryFieldsRead(rules: Rules, data: Fields, prevHash: string)
    requires HexDigests(rules) && BodyOk(rules, data) && IsDigest(prevHash)
    ensures var linked := Obj(data + [Slot("prev_hash", Str(prevHash))]);
      ReadEntry(rules, EntryFields(rules, data, prevHash)) ==
      Some(Entry(RoundOf(data), prevHash, HashPayload(rules, linked), linked))
  {
    var prev := Slot("prev_hash", Str(prevHash));
    var linked := data + [prev];
    var hash := Slot("entry_hash", Str(HashPayload(rules, Obj(linked))));
    LookupAppend(data, prev, "verdicts");
    LookupAppend(linked, hash, "verdicts");
    LookupAppend(data, prev, "prev_hash");
    LookupAppend(linked, hash, "prev_hash");
    LookupAppend(data, prev, "entry_hash");
    LookupAppend(linked, hash, "entry_hash");
    WithoutAbsent(linked, "entry_hash");
    WithoutAppend(linked, hash, "entry_hash");
    assert linked + [] == linked;
    WithoutAbsent(data, "prev_hash");
    WithoutAppend(data, prev, "prev_hash");
    assert data + [] == data;
    assert IsDigest(HashPayload(rules, Obj(linked)));
  }

  lemma EntryFieldsPlain(rules: Rules, data: Fields, prevHash: string)
    requires Plain(Obj(data)) && BodyOk(rules, data)
    ensures Plain(Obj(EntryFields(rules, data, prevHash)))
  {
    var prev := Slot("prev_hash", Str(prevHash));
    var linked := data + [prev];
    var hash := Slot("entry_hash", Str(HashPayload(rules, Obj(linked))));
    PlainAppend(data, prev.key, prev.value);
    DistinctAppend(data, prev);
    LookupAppend(data, prev, "entry_hash");
    PlainAppend(linked, hash.key, hash.value);
    DistinctAppend(linked, hash);
  }

  // ---- the line that is written -------------------------------------------------------

  lemma {:induction false} EscapedHasNoNewline(s: string)
    ensures '\n' !in Escaped(s)
  {
    if s != "" {
      EscapedHasNoNewline(s[1..]);
    }
  }

  lemma {:induction false} DigitsHaveNoNewline(n: nat)
    ensures '\n' !in Digits(n)
  {
    if n >= 10 {
      DigitsHaveNoNewline(n / 10);
    }
  }

  /** JSON.stringify escapes every newline, so an entry is one line. */
  lemma {:induction false} StringifyIsOneLine(v: Json)
    ensures '\n' !in Stringify(v)
    decreases v, 1
  {
    hide Digits, Escaped;
    match v
    case Num(n) => DigitsHaveNoNewline(if n < 0 then -n else n);
    case Str(s) => EscapedHasNoNewline(s);
    case Arr(items) => ItemsAreOneLine(items);
    case Obj(fields) => FieldsAreOneLine(fields);
    case _ =>
  }

  lemma {:induction false} ItemsAreOneLine(items: seq<Json>)
    ensures '\n' !in ItemsText(items)
    decreases items, 0
  {
    if |items| > 0 {
      StringifyIsOneLine(items[0]);
      ItemsAreOneLine(items[1..]);
    }
  }

  lemma {:induction false} FieldIsOneLine(field: Slot<string, Json>)
    ensures '\n' !in FieldText(field)
    decreases field, 2
  {
    match field
    case Slot(key, value) =>
      EscapedHasNoNewline(key);
      StringifyIsOneLine(value);
  }

  lemma {:induction false} FieldsAreOneLine(fields: Fields)
    ensures '\n' !in FieldsText(fields)
    decreases fields, 0
  {
    if |fields| > 0 {
      FieldIsOneLine(fields[0]);
      FieldsAreOneLine(fields[1..]);
    }
  }

  // ---- reading lines ------------------------------------------------------------------

  lemma {:induction false} NonBlankAppend(a: seq<string>, b: seq<string>)
    ensures NonBlank(a + b) == NonBlank(a) + NonBlank(b)
  {
    hide Trim;
    if a == [] {
      assert a + b == b;
    } else {
      NonBlankAppend(a[1..], b);
      assert a + b == [a[0]] + (a[1..] + b);
      Behead(a[0], a[1..] + b);
      Nest(if Trim(a[0]) == "" then [] else [a[0]], NonBlank(a[1..]), NonBlank(b));
    }
  }

  lemma NonBlankOne(line: string)
    ensures NonBlank([line]) == if Blank(line) then [] else [line]
  {
    TrimEmptyIffBlank(line);
    hide Trim;
  }

  lemma LinesBefore(contents: string)
    ensures ReadLines(contents) == NonBlank(Whole(contents)) + NonBlank([Tail(contents)])
  {
    assert Split(contents) == Whole(contents) + [Tail(contents)];
    NonBlankAppend(Whole(contents), [Tail(contents)]);
  }

  /** An appended line joins whatever the last line already holds. */
  lemma LinesAfter(contents: string, line: string)
    requires '\n' !in line && line != "" && !IsTrimSpace(line[0])
    ensures ReadLines(contents + line + "\n") == NonBlank(Whole(contents)) + [Tail(contents) + line]
    ensures Tail(contents + line + "\n") == ""
  {
    SplitAtNewline(contents + line, "");
    assert contents + line + "\n" + "" == contents + line + "\n";
    SplitLengthensLast(contents, line);
    var joined := Tail(contents) + line;
    assert Split(contents + line + "\n") == Whole(contents) + [joined] + [""];
    NonBlankAppend(Whole(contents) + [joined], [""]);
    NonBlankAppend(Whole(contents), [joined]);
    assert joined[|Tail(contents)|] == line[0];
    TrimEmptyIffBlank(joined);
    assert NonBlank([joined]) == [joined];
    assert NonBlank([""]) == [];
  }

  lemma {:induction false} ParseAllAppend(rules: Rules, a: seq<string>, line: string)
    ensures ParseAll(rules, a + [line]) == ParseAll(rules, a) + [ParseEntry(rules, line)]
  {
    if a != [] {
      ParseAllAppend(rules, a[1..], line);
      assert (a + [line])[1..] == a[1..] + [line];
    }
  }

  /** In a ledger that verifies, the next round is one more than the number of entries. */
  lemma LastOfIntact(rules: Rules, contents: string)
    requires Intact(rules, Entries(rules, contents))
    ensures var es := Entries(rules, contents);
      LastEntry(rules, contents) == Some(if |es| == 0 then None else es[|es| - 1]) &&
      NextRound(LastEntry(rules, contents).value) == |es| + 1
  {
    hide Entries, Sealed, GenesisHash;
    var es := Entries(rules, contents);
    forall e | e in es ensures e.Some? {
      var i :| 0 <= i < |es| && es[i] == e;
      assert Links(rules, es, i);
    }
    assert |es| > 0 ==> Links(rules, es, |es| - 1);
  }

  // ---- what a written line parses to --------------------------------------------------

  lemma {:induction false} LeadingSpaceParses(space: string, text: string)
    requires forall i :: 0 <= i < |space| ==> IsJsonSpace(space[i])
    ensures SkipSpace(space + text) == SkipSpace(text)
  {
    if space == "" {
      assert space + text == text;
    } else {
      TakeDrop(space, text);
      LeadingSpaceParses(space[1..], text);
    }
  }

  lemma {:induction false} StopsAtOddSpace(tail: string, text: string)
    requires exists i :: 0 <= i < |tail| && !IsJsonSpace(tail[i])
    ensures SkipSpace(tail) != "" && SkipSpace(tail)[0] in tail
    ensures SkipSpace(tail + text) == SkipSpace(tail) + text
  {
    TakeDrop(tail, text);
    if IsJsonSpace(tail[0]) {
      var i :| 0 <= i < |tail| && !IsJsonSpace(tail[i]);
      assert tail[1..][i - 1] == tail[i];
      StopsAtOddSpace(tail[1..], text);
    }
  }

  /** A second object on the same line makes the line unreadable. */
  lemma JoinedObjectsDoNotParse(first: string, second: string)
    requires Parse(first).Some? && Parse(first).value.Obj?
    requires second != "" && second[0] == '{'
    ensures Parse(first + second).None?
  {
    ValueExtends(first, second);
    var rest := ParseValue(first).value.rest;
    SpaceExtends(rest, second);
  }

  /** A last line that is blank to `trim` but not to `JSON.parse` makes the line unreadable too. */
  lemma OddSpaceDoesNotParse(tail: string, text: string)
    requires Blank(tail) && exists i :: 0 <= i < |tail| && !IsJsonSpace(tail[i])
    ensures Parse(tail + text).None?
  {
    hide ParseValue;
    StopsAtOddSpace(tail, text);
    var t := SkipSpace(tail + text);
    TakeDrop(SkipSpace(tail), text);
    var i :| 0 <= i < |tail| && tail[i] == t[0];
    OddSpaceStartsNothing(t);
    LeadingSpaceIsSkipped(tail + text);
  }

  lemma OddSpaceStartsNothing(t: string)
    requires t != "" && IsTrimSpace(t[0]) && !IsJsonSpace(t[0])
    ensures ParseValue(t).None?
  {
  }

  // ---- the theorem --------------------------------------------------------------------

  /** The hash of the last entry of a ledger, or the genesis hash. */
  lemma NextPrevHashIsDigest(rules: Rules, contents: string)
    requires HexDigests(rules) && Intact(rules, Entries(rules, contents))
    ensures LastEntry(rules, contents).Some? && IsDigest(NextPrevHash(LastEntry(rules, contents).value))
  {
    LastOfIntact(rules, contents);
    var es := Entries(rules, contents);
    if |es| > 0 {
      assert Links(rules, es, |es| - 1);
      assert IsDigest(rules.digest(Canonicalize(es[|es| - 1].value.linked)));
    }
  }

  /** Everything an append that returns has done to the file. */
  lemma AppendWrites(rules: Rules, contents: string, body: Fields) returns (line: string)
    requires HexDigests(rules) && Plain(Obj(body)) && Intact(rules, Entries(rules, contents))
    requires Append(rules, contents, body).Appended?
    ensures Append(rules, contents, body).contents == contents + line + "\n"
    ensures line != "" && line[0] == '{' && '\n' !in line
    ensures ParseEntry(rules, line) == Some(Append(rules, contents, body).entry)
    ensures Fits(rules, Entries(rules, contents), Append(rules, contents, body).entry)
  {
    LastOfIntact(rules, contents);
    NextPrevHashIsDigest(rules, contents);
    var data := WithDefaults(body);
    var last := LastEntry(rules, contents).value;
    var prevHash := NextPrevHash(last);
    var fields := EntryFields(rules, data, prevHash);
    line := Stringify(Obj(fields));
    WithDefaultsPlain(body);
    EntryFieldsPlain(rules, data, prevHash);
    EntryFieldsRead(rules, data, prevHash);
    ParseOfStringify(Obj(fields));
    StringifyIsOneLine(Obj(fields));
  }

  /** An entry that continues a ledger. */
  ghost predicate Fits(rules: Rules, es: seq<Option<Entry>>, e: Entry) {
    e.round == |es| + 1 && Sealed(rules, e) &&
    if |es| == 0 then e.prevHash == GenesisHash()
    else es[|es| - 1].Some? && e.prevHash == es[|es| - 1].value.entryHash
  }

  lemma IntactAppend(rules: Rules, es: seq<Option<Entry>>, e: Option<Entry>)
    requires Intact(rules, es)
    ensures Intact(rules, es + [e]) <==> e.Some? && Fits(rules, es, e.value)
  {
    var all := es + [e];
    forall i | 0 <= i < |es| ensures Links(rules, all, i) {
      assert Links(rules, es, i);
      assert all[i] == es[i] && (i > 0 ==> all[i - 1] == es[i - 1]);
    }
    assert Links(rules, all, |es|) <==> e.Some? && Fits(rules, es, e.value);
  }

  /** The exact condition under which appending keeps a verifying ledger verifying: what already
      stands on the last line is space that `JSON.parse` skips. Neither the writer nor the verifier
      looks, and an append to a file cut short of its newline ruins two entries at once. */
  lemma AppendKeepsIntactIff(rules: Rules, contents: string, body: Fields)
    requires HexDigests(rules) && Plain(Obj(body)) && Intact(rules, Entries(rules, contents))
    requires Append(rules, contents, body).Appended?
    ensures Intact(rules, Entries(rules, Append(rules, contents, body).contents)) <==>
      forall i :: 0 <= i < |Tail(contents)| ==> IsJsonSpace(Tail(contents)[i])
  {
    hide ParseEntry, Append, Parse;
    var line := AppendWrites(rules, contents, body);
    var tail := Tail(contents);
    var whole := NonBlank(Whole(contents));
    LinesBefore(contents);
    LinesAfter(contents, line);
    ParseAllAppend(rules, whole, tail + line);
    TrimEmptyIffBlank(tail);
    if Blank(tail) {
      assert ReadLines(contents) == whole;
      IntactAppend(rules, ParseAll(rules, whole), ParseEntry(rules, tail + line));
      if forall i :: 0 <= i < |tail| ==> IsJsonSpace(tail[i]) {
        LeadingSpaceParses(tail, line);
        SameParse(rules, tail + line, line);
      } else {
        OddSpaceDoesNotParse(tail, line);
        EntriesAreObjects(rules, tail + line);
      }
    } else {
      assert ReadLines(contents) == whole + [tail];
      ParseAllAppend(rules, whole, tail);
      var es := Entries(rules, contents);
      assert Links(rules, es, |whole|);
      EntriesAreObjects(rules, tail);
      JoinedObjectsDoNotParse(tail, line);
      EntriesAreObjects(rules, tail + line);
      assert !Links(rules, Entries(rules, Append(rules, contents, body).contents), |whole|);
    }
  }

  lemma EntriesAreObjects(rules: Rules, line: string)
    ensures ParseEntry(rules, line).Some? ==> Parse(line).Some? && Parse(line).value.Obj?
  {
  }

  lemma SameParse(rules: Rules, a: string, b: string)
    requires SkipSpace(a) == SkipSpace(b)
    ensures ParseEntry(rules, a) == ParseEntry(rules, b)
  {
    assert ParseValue(a) == ParseValue(b);
  }

  /** The usual case: a file that is empty or ends in a newline grows by one verifying line. */
  lemma AppendExtends(rules: Rules, contents: string, body: Fields) returns (line: string)
    requires HexDigests(rules) && Plain(Obj(body)) && Intact(rules, Entries(rules, contents)) && Tail(contents) == ""
    requires Append(rules, contents, body).Appended?
    ensures Append(rules, contents, body).contents == contents + line + "\n"
    ensures var after := Append(rules, contents, body).contents;
      Entries(rules, after) == Entries(rules, contents) + [Some(Append(rules, contents, body).entry)] &&
      Intact(rules, Entries(rules, after)) && Tail(after) == ""
  {
    hide ParseEntry, Append;
    line := AppendWrites(rules, contents, body);
    LinesBefore(contents);
    LinesAfter(contents, line);
    assert NonBlank([""]) == [];
    assert "" + line == line;
    var whole := NonBlank(Whole(contents));
    assert ReadLines(contents) == whole;
    ParseAllAppend(rules, whole, line);
    IntactAppend(rules, Entries(rules, contents), ParseEntry(rules, line));
  }

  /** A file that fails: cut the last newline off one an append has just written. It still verifies, and
      the next append, whatever it writes, ruins it. */
  lemma CutNewlineThenAppendRuins(rules: Rules, contents: string, body: Fields, next: Fields)
    requires HexDigests(rules) && Plain(Obj(body)) && Intact(rules, Entries(rules, contents)) && Tail(contents) == ""
    requires Append(rules, contents, body).Appended? && Plain(Obj(next))
    ensures var after := Append(rules, contents, body).contents;
      |after| > 0 &&
      var cut := after[..|after| - 1];
      Entries(rules, cut) == Entries(rules, after) && Intact(rules, Entries(rules, cut)) &&
      (Append(rules, cut, next).Appended? ==> !Intact(rules, Entries(rules, Append(rules, cut, next).contents)))
  {
    hide ParseEntry, Append;
    var line := AppendExtends(rules, contents, body);
    var other := AppendWrites(rules, contents, body);
    assert contents + line + "\n" == contents + other + "\n";
    CutIsLastLine(rules, contents, other);
    var after := Append(rules, contents, body).contents;
    var cut := after[..|after| - 1];
    assert cut == contents + other;
    if Append(rules, cut, next).Appended? {
      AppendKeepsIntactIff(rules, cut, next);
      assert !IsJsonSpace(Tail(cut)[0]);
    }
  }

  lemma CutIsLastLine(rules: Rules, contents: string, line: string)
    requires Tail(contents) == "" && line != "" && line[0] == '{' && '\n' !in line
    ensures Tail(contents + line) == line && ReadLines(contents + line) == ReadLines(contents + line + "\n")
  {
    SplitLengthensLast(contents, line);
    assert "" + line == line;
    LinesAfter(contents, line);
    LinesBefore(contents + line);
    TrimEmptyIffBlank(line);
    assert NonBlank([line]) == [line];
  }
}
