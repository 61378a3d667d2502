/** What a verifying ledger proves about itself: which edits it shows, and where. */
module LedgerTamper {
  import opened Basics
  import opened JsonText
  import opened JsonParse
  import opened JsonFacts
  import opened JsonCanonical
  import opened TextLines
  import opened Ledger
  import opened LedgerAppend

  // ---- what one entry commits to ------------------------------------------------------

  /** Two entries with the same content, up to the order their keys were written in. */
  ghost predicate SameEntry(a: Entry, b: Entry) {
    a.entryHash == b.entryHash && Same(a.linked, b.linked)
  }

  /** What every entry that was read off a line is like: plain data, whose round and link are the
      fields of those names. */
  ghost predicate Faithful(e: Entry) {
    e.linked.Obj? && WellFormed(e.linked) &&
    Lookup(e.linked.fields, "round") == Some(Num(e.round)) &&
    Lookup(e.linked.fields, "prev_hash") == Some(Str(e.prevHash))
  }

  lemma {:induction false} WithoutKeeps(m: Fields, key: string, other: string)
    ensures key != other ==> Lookup(Without(m, key), other) == Lookup(m, other)
    ensures WellFormedFields(m) ==> WellFormedFields(Without(m, key))
  {
    if |m| > 0 {
      WithoutKeeps(m[1..], key, other);
      assert [] + Without(m[1..], key) == Without(m[1..], key);
    }
  }

  lemma {:induction false} WithoutFrom(m: Fields, key: string, x: Slot<string, Json>)
    requires x in Without(m, key)
    ensures x in m
  {
    if x !in Without(m[1..], key) {
      assert x == m[0];
    } else {
      WithoutFrom(m[1..], key, x);
    }
  }

  lemma {:induction false} WithoutDistinct(m: Fields, key: string)
    requires DistinctKeys(m)
    ensures DistinctKeys(Without(m, key))
  {
    if |m| > 0 {
      var t := Without(m[1..], key);
      WithoutDistinct(m[1..], key);
      forall j | 0 <= j < |t| ensures t[j].key != m[0].key {
        WithoutFrom(m[1..], key, t[j]);
        var i :| 0 <= i < |m[1..]| && m[1..][i] == t[j];
        assert m[i + 1] == t[j];
      }
    }
  }

  lemma ParsedEntriesAreFaithful(rules: Rules, line: string)
    ensures ParseEntry(rules, line).Some? ==> Faithful(ParseEntry(rules, line).value)
  {
    if ParseEntry(rules, line).Some? {
      ParsedIsPlain(line);
      var fields := Parse(line).value.fields;
      var data := WithDefaults(fields);
      hide Parse;
      WithDefaultsPlain(fields);
      PlainIsWellFormed(Obj(data));
      WithoutDistinct(data, "entry_hash");
      WithoutKeeps(data, "entry_hash", "prev_hash");
      WithoutKeeps(data, "entry_hash", "round");
      WithoutKeeps(Without(data, "entry_hash"), "prev_hash", "round");
    }
  }

  /** A line is an entry only if it keeps to the schema: rounds from 1, digests for both hashes, and a body
      the rest of the schema accepts. */
  lemma EntriesKeepToTheSchema(rules: Rules, line: string)
    requires ParseEntry(rules, line).Some?
    ensures var e := ParseEntry(rules, line).value;
      e.round >= 1 && IsDigest(e.prevHash) && IsDigest(e.entryHash) && e.linked.Obj? &&
      rules.bodyOk(Without(e.linked.fields, "prev_hash"))
  {
    hide Parse, IsDigest;
  }

  ghost predicate AllFaithful(es: seq<Option<Entry>>) {
    forall i :: 0 <= i < |es| && es[i].Some? ==> Faithful(es[i].value)
  }

  lemma ParseAllFaithful(rules: Rules, lines: seq<string>)
    ensures AllFaithful(ParseAll(rules, lines))
  {
    hide ParseEntry, Faithful;
    forall i | 0 <= i < |lines| && ParseAll(rules, lines)[i].Some?
      ensures Faithful(ParseAll(rules, lines)[i].value)
    {
      ParseAllAt(rules, lines, i);
      ParsedEntriesAreFaithful(rules, lines[i]);
    }
  }

  // ---- same data, same fields ---------------------------------------------------------

  lemma {:induction false} WithinAt(a: Fields, b: Fields, i: nat) returns (j: nat)
    requires FieldsWithin(a, b) && i < |a| && !a[i].value.Undefined?
    ensures j < |b| && SameField(a[i], b[j])
  {
    if i == 0 {
      j :| 0 <= j < |b| && !b[j].value.Undefined? && SameField(a[0], b[j]);
    } else {
      j := WithinAt(a[1..], b, i - 1);
    }
  }

  /** A scalar field of one is the same scalar field of the other. */
  lemma SameScalar(a: Json, b: Json, key: string, v: Json)
    requires Same(a, b) && a.Obj? && b.Obj? && DistinctKeys(b.fields)
    requires Lookup(a.fields, key) == Some(v) && (v.Num? || v.Str?)
    ensures Lookup(b.fields, key) == Some(v)
  {
    LookupFinds(a.fields, key);
    var i :| 0 <= i < |a.fields| && a.fields[i] == Slot(key, v);
    var j := WithinAt(a.fields, b.fields, i);
    match a.fields[i] case Slot(_, value) =>
      assert Same(value, b.fields[j].value);
      LookupAt(b.fields, j);
  }

  lemma SameEntryFields(a: Entry, b: Entry)
    requires Faithful(a) && Faithful(b) && Same(a.linked, b.linked)
    ensures a.round == b.round && a.prevHash == b.prevHash
  {
    hide Same, WellFormed;
    assert DistinctKeys(b.linked.fields) by { DistinctOfWellFormed(b.linked); }
    SameScalar(a.linked, b.linked, "round", Num(a.round));
    SameScalar(a.linked, b.linked, "prev_hash", Str(a.prevHash));
  }

  lemma DistinctOfWellFormed(v: Json)
    requires WellFormed(v) && v.Obj?
    ensures DistinctKeys(v.fields)
  {
  }

  // ---- the collision-resistance hypothesis --------------------------------------------

  /** The digest tells the texts these entries hash apart. A digest is 64 characters, so no digest
      is injective outright; this asks it only of the texts in hand. */
  ghost predicate TellsApart(rules: Rules, a: Entry, b: Entry) {
    HashPayload(rules, a.linked) == HashPayload(rules, b.linked) ==>
      Canonicalize(a.linked) == Canonicalize(b.linked)
  }

  ghost predicate CollisionFree(rules: Rules, a: seq<Option<Entry>>, b: seq<Option<Entry>>) {
    forall i, j :: 0 <= i < |a| && 0 <= j < |b| && a[i].Some? && b[j].Some? ==>
      TellsApart(rules, a[i].value, b[j].value)
  }

  /** Sealed entries with one hash have one content. */
  lemma HashDetermines(rules: Rules, a: Entry, b: Entry)
    requires Faithful(a) && Faithful(b) && Sealed(rules, a) && Sealed(rules, b) && TellsApart(rules, a, b)
    requires a.entryHash == b.entryHash
    ensures SameEntry(a, b) && a.round == b.round && a.prevHash == b.prevHash
  {
    CanonicalIffSame(a.linked, b.linked);
    SameEntryFields(a, b);
  }

  // ---- tamper evidence ----------------------------------------------------------------

  /** Walking back through `prev_hash` from a shared entry hash. */
  lemma {:induction false} SameBackTo(rules: Rules, a: seq<Option<Entry>>, b: seq<Option<Entry>>, last: nat, i: nat)
    requires Intact(rules, a) && Intact(rules, b) && AllFaithful(a) && AllFaithful(b) && CollisionFree(rules, a, b)
    requires i <= last < |a| && last < |b|
    requires a[last].Some? && b[last].Some? && a[last].value.entryHash == b[last].value.entryHash
    ensures a[i].Some? && b[i].Some? && SameEntry(a[i].value, b[i].value)
    decreases last - i
  {
    hide SameEntry, Faithful, TellsApart, Sealed;
    assert Links(rules, a, last) && Links(rules, b, last);
    HashDetermines(rules, a[last].value, b[last].value);
    if i < last {
      assert Links(rules, a, last - 1) && Links(rules, b, last - 1);
      SameBackTo(rules, a, b, last - 1, i);
    }
  }

  /** Tamper evidence. Two ledgers that verify and end in the same entry hash hold the same entries,
      however they came to be. */
  lemma SameHeadSameLedger(rules: Rules, contentsA: string, contentsB: string)
    requires var a, b := Entries(rules, contentsA), Entries(rules, contentsB);
      Intact(rules, a) && Intact(rules, b) && CollisionFree(rules, a, b) &&
      |a| > 0 && |b| > 0 && a[|a| - 1].Some? && b[|b| - 1].Some? &&
      a[|a| - 1].value.entryHash == b[|b| - 1].value.entryHash
    ensures var a, b := Entries(rules, contentsA), Entries(rules, contentsB);
      |a| == |b| &&
      forall i :: 0 <= i < |a| ==> a[i].Some? && b[i].Some? && SameEntry(a[i].value, b[i].value)
  {
    hide SameEntry, Faithful, TellsApart, Sealed, ReadLines;
    var a, b := Entries(rules, contentsA), Entries(rules, contentsB);
    ParseAllFaithful(rules, ReadLines(contentsA));
    ParseAllFaithful(rules, ReadLines(contentsB));
    assert Links(rules, a, |a| - 1) && Links(rules, b, |b| - 1);
    HashDetermines(rules, a[|a| - 1].value, b[|b| - 1].value);
    forall i | 0 <= i < |a| ensures a[i].Some? && b[i].Some? && SameEntry(a[i].value, b[i].value) {
      SameBackTo(rules, a, b, |a| - 1, i);
    }
  }

  // ---- rearranging --------------------------------------------------------------------

  /** A line that verifies where it stands says where that is. */
  lemma PositionIsRound(rules: Rules, lines: seq<string>, i: nat)
    requires Intact(rules, ParseAll(rules, lines)) && i < |lines|
    ensures ParseEntry(rules, lines[i]).Some? && ParseEntry(rules, lines[i]).value.round == i + 1
  {
    hide ParseEntry;
    ParseAllAt(rules, lines, i);
    assert Links(rules, ParseAll(rules, lines), i);
  }

  lemma {:induction false} ParseAllOfPrefix(rules: Rules, lines: seq<string>, n: nat)
    requires n <= |lines|
    ensures ParseAll(rules, lines[..n]) == ParseAll(rules, lines)[..n]
  {
    hide ParseEntry;
    if n > 0 {
      ParseAllOfPrefix(rules, lines[1..], n - 1);
      assert lines[..n][1..] == lines[1..][..n - 1];
    }
  }

  lemma PrefixIsIntact(rules: Rules, es: seq<Option<Entry>>, n: nat)
    requires Intact(rules, es) && n <= |es|
    ensures Intact(rules, es[..n])
  {
    forall i | 0 <= i < n ensures Links(rules, es[..n], i) {
      assert Links(rules, es, i);
    }
  }

  /** A line that verifies in both ledgers stands at the same place in both. */
  lemma SamePosition(rules: Rules, lines: seq<string>, picked: seq<string>, k: nat)
    requires Intact(rules, ParseAll(rules, lines)) && Intact(rules, ParseAll(rules, picked))
    requires k < |picked| && picked[k] in lines
    ensures k < |lines| && picked[k] == lines[k]
  {
    hide ParseEntry, ParseAll, Intact;
    var j :| 0 <= j < |lines| && lines[j] == picked[k];
    PositionIsRound(rules, picked, k);
    PositionIsRound(rules, lines, j);
  }

  lemma {:induction false} SameAtEveryIndex(rules: Rules, lines: seq<string>, picked: seq<string>, n: nat)
    requires Intact(rules, ParseAll(rules, lines)) && Intact(rules, ParseAll(rules, picked))
    requires n <= |picked| && forall k :: 0 <= k < |picked| ==> picked[k] in lines
    ensures n <= |lines| && picked[..n] == lines[..n]
  {
    hide ParseEntry, ParseAll, Intact;
    if n > 0 {
      SameAtEveryIndex(rules, lines, picked, n - 1);
      SamePosition(rules, lines, picked, n - 1);
      assert picked[..n] == picked[..n - 1] + [picked[n - 1]];
      assert lines[..n] == lines[..n - 1] + [lines[n - 1]];
    }
  }

  /** No hash assumption: lines taken from a verifying ledger, in any order and any number, verify
      exactly when they are its first lines in their own order. */
  lemma RearrangedIffPrefix(rules: Rules, lines: seq<string>, picked: seq<string>)
    requires Intact(rules, ParseAll(rules, lines))
    requires forall k :: 0 <= k < |picked| ==> picked[k] in lines
    ensures Intact(rules, ParseAll(rules, picked)) <==> picked <= lines
  {
    hide ParseEntry, ParseAll, Intact;
    if Intact(rules, ParseAll(rules, picked)) {
      SameAtEveryIndex(rules, lines, picked, |picked|);
      assert picked[..|picked|] == picked;
    }
    if picked <= lines {
      assert picked == lines[..|picked|];
      ParseAllOfPrefix(rules, lines, |picked|);
      PrefixIsIntact(rules, ParseAll(rules, lines), |picked|);
    }
  }

  // ---- editing one entry --------------------------------------------------------------

  /** An edit that keeps the recorded entry hash is caught at the entry it was made to. */
  lemma EditKeepingHashFailsThere(rules: Rules, a: seq<Option<Entry>>, i: nat, e: Entry)
    requires Intact(rules, a) && AllFaithful(a) && Faithful(e) && i < |a|
    requires a[i].Some? && TellsApart(rules, a[i].value, e)
    requires e.entryHash == a[i].value.entryHash && !Same(a[i].value.linked, e.linked)
    ensures FailsFirstAt(rules, a[i := Some(e)], i)
  {
    hide Same, Faithful, TellsApart;
    var b := a[i := Some(e)];
    assert Links(rules, a, i);
    if Links(rules, b, i) {
      HashDetermines(rules, a[i].value, e);
    }
    forall j | 0 <= j < i ensures Links(rules, b, j) {
      assert Links(rules, a, j);
    }
  }

  /** The whole story of one edited entry. Keeping its content keeps the ledger verifying. Changing
      it fails at that entry, unless the edit also recomputed `entry_hash`: then it fails at the
      next entry, and on the last entry it does not fail at all. */
  lemma EditIsLocalised(rules: Rules, a: seq<Option<Entry>>, i: nat, e: Option<Entry>)
    requires Intact(rules, a) && AllFaithful(a) && i < |a| && a[i].Some?
    requires e.Some? ==> Faithful(e.value) && TellsApart(rules, a[i].value, e.value)
    ensures var b := a[i := e];
      if e.Some? && SameEntry(a[i].value, e.value) then Intact(rules, b)
      else if !Links(rules, b, i) then FailsFirstAt(rules, b, i)
      else if i + 1 < |a| then FailsFirstAt(rules, b, i + 1)
      else Intact(rules, b)
  {
    hide Same, Faithful, TellsApart;
    var b := a[i := e];
    forall j | 0 <= j < i ensures Links(rules, b, j) {
      assert Links(rules, a, j);
    }
    forall j | i + 1 < j < |b| ensures Links(rules, b, j) {
      assert Links(rules, a, j);
    }
    assert Links(rules, a, i);
    if e.Some? && SameEntry(a[i].value, e.value) {
      SameLinks(rules, a, i, e.value);
    } else if Links(rules, b, i) && i + 1 < |a| {
      assert Links(rules, a, i + 1);
      if Links(rules, b, i + 1) {
        HashDetermines(rules, a[i].value, e.value);
      }
    }
  }

  lemma SameLinks(rules: Rules, a: seq<Option<Entry>>, i: nat, e: Entry)
    requires Intact(rules, a) && AllFaithful(a) && Faithful(e) && i < |a|
    requires a[i].Some? && SameEntry(a[i].value, e)
    ensures Links(rules, a[i := Some(e)], i)
    ensures i + 1 < |a| ==> Links(rules, a[i := Some(e)], i + 1)
  {
    assert Links(rules, a, i);
    SameEntryFields(a[i].value, e);
    CanonicalIffSame(a[i].value.linked, e.linked);
    if i + 1 < |a| {
      assert Links(rules, a, i + 1);
    }
  }

  /** On the file: replacing one line of a verifying ledger leaves it verifying exactly when the
      content is unchanged, or the line was the last and the new one is a sealed continuation. */
  lemma EditedLineVerifiesIff(rules: Rules, lines: seq<string>, i: nat, line: string)
    requires Intact(rules, ParseAll(rules, lines)) && i < |lines|
    requires var a, e := ParseAll(rules, lines)[i], ParseEntry(rules, line);
      a.Some? && e.Some? ==> TellsApart(rules, a.value, e.value)
    ensures var a, b := ParseAll(rules, lines), ParseAll(rules, lines[i := line]);
      Intact(rules, b) <==>
        (a[i].Some? && b[i].Some? && SameEntry(a[i].value, b[i].value)) || (i + 1 == |lines| && Links(rules, b, i))
  {
    hide ParseEntry, SameEntry, Faithful, TellsApart, Sealed;
    var a, b := ParseAll(rules, lines), ParseAll(rules, lines[i := line]);
    var e := ParseEntry(rules, line);
    forall j | 0 <= j < |lines| ensures b[j] == a[i := e][j] {
      ParseAllAt(rules, lines, j);
      ParseAllAt(rules, lines[i := line], j);
    }
    assert b == a[i := e];
    ParseAllFaithful(rules, lines);
    ParsedEntriesAreFaithful(rules, line);
    assert Links(rules, a, i);
    EditIsLocalised(rules, a, i, e);
  }

  /** An edit that goes unnoticed: the last entry written anew, with another body and its `entry_hash`
      computed afresh. Both files verify, and they differ in nothing but that entry. */
  lemma ResealedLastEntryGoesUnnoticed(rules: Rules, contents: string, body: Fields, other: Fields)
    requires HexDigests(rules) && Intact(rules, Entries(rules, contents)) && Tail(contents) == ""
    requires Plain(Obj(body)) && Append(rules, contents, body).Appended?
    requires Plain(Obj(other)) && Append(rules, contents, other).Appended?
    ensures var n := |Entries(rules, contents)|;
      var written := Entries(rules, Append(rules, contents, body).contents);
      var rewritten := Entries(rules, Append(rules, contents, other).contents);
      Intact(rules, written) && Intact(rules, rewritten) && n < |written| &&
      rewritten == written[n := Some(Append(rules, contents, other).entry)] &&
      (written == rewritten ==> WithDefaults(body) == WithDefaults(other))
  {
    hide Entries, Append, WithDefaults, Tail;
    var line := AppendExtends(rules, contents, body);
    var edited := AppendExtends(rules, contents, other);
    LinkedBody(rules, contents, body);
    LinkedBody(rules, contents, other);
    CancelSuffix(WithDefaults(body), WithDefaults(other), Slot("prev_hash", Str(NextPrevHash(LastEntry(rules, contents).value))));
    var n := |Entries(rules, contents)|;
    var written := Entries(rules, Append(rules, contents, body).contents);
    assert written[n] == Some(Append(rules, contents, body).entry);
  }

  lemma LinkedBody(rules: Rules, contents: string, body: Fields)
    requires Append(rules, contents, body).Appended?
    ensures LastEntry(rules, contents).Some?
    ensures Append(rules, contents, body).entry.linked ==
      Obj(WithDefaults(body) + [Slot("prev_hash", Str(NextPrevHash(LastEntry(rules, contents).value)))])
  {
    hide LastEntry, Stringify, HashPayload, WithDefaults, BodyOk;
  }

  lemma CancelSuffix(a: Fields, b: Fields, last: Slot<string, Json>)
    ensures a + [last] == b + [last] ==> a == b
  {
    assert (a + [last])[..|a|] == a && (b + [last])[..|b|] == b;
  }
}
