/** The hash-chained ledger: src/ledger/hash.ts, writer.ts and verify.ts over the text of the file. */
module Ledger {
  import opened Basics
  import opened JsonText
  import opened JsonParse
  import opened TextLines

  /** What the ledger is built over and does not define itself: SHA-256 as a hexadecimal digest,
      and the part of the entry schema that looks at the other fields. */
  datatype Rules = Rules(digest: string -> string, bodyOk: Fields -> bool)

  predicate IsDigest(s: string) {
    |s| == 64 && forall i :: 0 <= i < 64 ==> '0' <= s[i] <= '9' || 'a' <= s[i] <= 'f'
  }

  /** GENESIS_HASH: what the first entry links to. */
  function GenesisHash(): (s: string)
    ensures IsDigest(s) && forall i :: 0 <= i < |s| ==> s[i] == '0'
  {
    seq(64, i => '0')
  }

  ghost predicate HexDigests(rules: Rules) {
    forall text: string :: IsDigest(rules.digest(text))
  }

  // ---- entries ------------------------------------------------------------------------

  /** One parsed entry. `linked` is all of it but `entry_hash`, which is what gets hashed; `round`
      and `prevHash` are two of its fields. */
  datatype Entry = Entry(round: nat, prevHash: string, entryHash: string, linked: Json)

  function Without(fields: Fields, key: string): Fields {
    if |fields| == 0 then []
    else (if fields[0].key == key then [] else [fields[0]]) + Without(fields[1..], key)
  }

  /** `verdicts` is the one field with a default. */
  function WithDefaults(fields: Fields): Fields {
    if Lookup(fields, "verdicts").None? then fields + [Slot("verdicts", Arr([]))] else fields
  }

  /** LedgerEntryBodySchema on parsed data: strict, and rounds are numbered from 1. */
  predicate BodyOk(rules: Rules, data: Fields) {
    var round := Lookup(data, "round");
    round.Some? && round.value.Num? && round.value.n >= 1 &&
    Lookup(data, "prev_hash").None? && Lookup(data, "entry_hash").None? &&
    Lookup(data, "verdicts").Some? && rules.bodyOk(data)
  }

  function RoundOf(data: Fields): nat
    requires Lookup(data, "round").Some? && Lookup(data, "round").value.Num? && Lookup(data, "round").value.n >= 1
  {
    Lookup(data, "round").value.n
  }

  /** LedgerEntrySchema: the body and the two hashes. */
  function ReadEntry(rules: Rules, fields: Fields): Option<Entry> {
    var data := WithDefaults(fields);
    var prev, hash := Lookup(data, "prev_hash"), Lookup(data, "entry_hash");
    var body := Without(Without(data, "entry_hash"), "prev_hash");
    if prev.Some? && prev.value.Str? && IsDigest(prev.value.s) &&
       hash.Some? && hash.value.Str? && IsDigest(hash.value.s) && BodyOk(rules, body)
    then Some(Entry(RoundOf(body), prev.value.s, hash.value.s, Obj(Without(data, "entry_hash"))))
    else None
  }

  function ParseEntry(rules: Rules, line: string): Option<Entry> {
    match Parse(line)
    case Some(Obj(fields)) => ReadEntry(rules, fields)
    case _ => None
  }

  function HashPayload(rules: Rules, value: Json): string {
    rules.digest(Canonicalize(value))
  }

  // ---- reading ------------------------------------------------------------------------

  function NonBlank(lines: seq<string>): seq<string> {
    if lines == [] then []
    else (if Trim(lines[0]) == "" then [] else [lines[0]]) + NonBlank(lines[1..])
  }

  function ReadLines(contents: string): seq<string> {
    NonBlank(Split(contents))
  }

  /** Each line parsed and schema-checked on its own. */
  function ParseAll(rules: Rules, lines: seq<string>): (r: seq<Option<Entry>>)
    ensures |r| == |lines|
  {
    if lines == [] then [] else [ParseEntry(rules, lines[0])] + ParseAll(rules, lines[1..])
  }

  function Entries(rules: Rules, contents: string): seq<Option<Entry>> {
    ParseAll(rules, ReadLines(contents))
  }

  /** `lastEntry`: one bad line anywhere is an error; an empty ledger has no last entry. */
  function LastEntry(rules: Rules, contents: string): Option<Option<Entry>> {
    var es := Entries(rules, contents);
    if exists e :: e in es && e.None? then None
    else Some(if |es| == 0 then None else es[|es| - 1])
  }

  // ---- appending ----------------------------------------------------------------------

  datatype Appended = Appended(contents: string, entry: Entry) | LedgerError

  /** The object an append writes: the body, then the link, then the hash over both. */
  function EntryFields(rules: Rules, data: Fields, prevHash: string): Fields {
    var linked := data + [Slot("prev_hash", Str(prevHash))];
    linked + [Slot("entry_hash", Str(HashPayload(rules, Obj(linked))))]
  }

  function NextRound(last: Option<Entry>): nat {
    match last case None => 1 case Some(e) => e.round + 1
  }

  function NextPrevHash(last: Option<Entry>): string {
    match last case None => GenesisHash() case Some(e) => e.entryHash
  }

  function AppendAfter(rules: Rules, contents: string, data: Fields, last: Option<Entry>): Appended
    requires BodyOk(rules, data)
  {
    if RoundOf(data) != NextRound(last) then LedgerError
    else
      var linked := Obj(data + [Slot("prev_hash", Str(NextPrevHash(last)))]);
      Appended(contents + Stringify(Obj(EntryFields(rules, data, NextPrevHash(last)))) + "\n",
               Entry(RoundOf(data), NextPrevHash(last), HashPayload(rules, linked), linked))
  }

  function Append(rules: Rules, contents: string, body: Fields): Appended {
    if !BodyOk(rules, WithDefaults(body)) then LedgerError
    else match LastEntry(rules, contents)
      case None => LedgerError
      case Some(last) => AppendAfter(rules, contents, WithDefaults(body), last)
  }

  class LedgerWriter {
    const rules: Rules
    var contents: string

    constructor (rules: Rules, contents: string)
      ensures this.rules == rules && this.contents == contents
    {
      this.rules := rules;
      this.contents := contents;
    }

    /** Reads every line: one that does not parse to an entry is an error, wherever it stands. */
    method LastEntryOf() returns (r: Option<Option<Entry>>)
      ensures r.None? <==> exists i :: 0 <= i < |ReadLines(contents)| && ParseEntry(rules, ReadLines(contents)[i]).None?
      ensures r.Some? ==>
        r.value == if ReadLines(contents) == [] then None else ParseEntry(rules, ReadLines(contents)[|ReadLines(contents)| - 1])
      ensures r == LastEntry(rules, contents)
    {
      hide ParseEntry, ReadLines;
      var lines := ReadLines(contents);
      ghost var es := Entries(rules, contents);
      var last := None;
      for i := 0 to |lines|
        invariant last == if i == 0 then None else es[i - 1]
        invariant forall k :: 0 <= k < i ==> ParseEntry(rules, lines[k]).Some? && es[k] == ParseEntry(rules, lines[k])
      {
        last := ParseEntry(rules, lines[i]);
        ParseAllAt(rules, lines, i);
        if last.None? {
          assert es[i] in es;
          return None;
        }
      }
      r := Some(last);
    }

    /** Appends one line, or changes nothing. */
    method AppendBody(body: Fields) returns (r: Option<Entry>)
      modifies this`contents
      ensures match Append(rules, old(contents), body)
        case Appended(text, entry) => contents == text && r == Some(entry)
        case LedgerError => contents == old(contents) && r == None
    {
      r := None;
      var data := WithDefaults(body);
      if !BodyOk(rules, data) {
        return;
      }
      var last := LastEntryOf();
      if last.None? {
        return;
      }
      var expectedRound, prevHash := 1, GenesisHash();
      if last.value.Some? {
        expectedRound, prevHash := last.value.value.round + 1, last.value.value.entryHash;
      }
      if RoundOf(data) != expectedRound {
        return;
      }
      var linked := data + [Slot("prev_hash", Str(prevHash))];
      var hash := HashPayload(rules, Obj(linked));
      contents := contents + Stringify(Obj(linked + [Slot("entry_hash", Str(hash))])) + "\n";
      r := Some(Entry(RoundOf(data), prevHash, hash, Obj(linked)));
    }
  }

  // ---- verifying ----------------------------------------------------------------------

  datatype Fault = BadLine | BadPrevHash | BadEntryHash | BadRound

  datatype Verification = Verified(entries: nat) | Broken(failedAtIndex: nat, fault: Fault)

  /** An entry whose recorded hash is the hash of the rest of it. */
  ghost predicate Sealed(rules: Rules, e: Entry) {
    e.entryHash == HashPayload(rules, e.linked)
  }

  /** What one entry owes itself and the entry before it. */
  ghost predicate Links(rules: Rules, es: seq<Option<Entry>>, i: nat)
    requires i < |es|
  {
    es[i].Some? && Sealed(rules, es[i].value) && es[i].value.round == i + 1 &&
    if i == 0 then es[i].value.prevHash == GenesisHash()
    else es[i - 1].Some? && es[i].value.prevHash == es[i - 1].value.entryHash
  }

  /** A ledger that verifies. */
  ghost predicate Intact(rules: Rules, es: seq<Option<Entry>>) {
    forall i :: 0 <= i < |es| ==> Links(rules, es, i)
  }

  /** The least entry that does not link. */
  ghost predicate FailsFirstAt(rules: Rules, es: seq<Option<Entry>>, i: nat) {
    i < |es| && !Links(rules, es, i) && forall j :: 0 <= j < i ==> Links(rules, es, j)
  }

  /** What an entry at this place has to link to. */
  ghost predicate LinksBack(es: seq<Option<Entry>>, i: nat)
    requires i < |es|
  {
    es[i].Some? &&
    if i == 0 then es[i].value.prevHash == GenesisHash()
    else es[i - 1].Some? && es[i].value.prevHash == es[i - 1].value.entryHash
  }

  /** The fault is the first of the four checks that the entry does not pass. */
  ghost predicate Explains(rules: Rules, es: seq<Option<Entry>>, i: nat, fault: Fault)
    requires i < |es|
  {
    match fault
    case BadLine => es[i].None?
    case BadPrevHash => es[i].Some? && !LinksBack(es, i)
    case BadEntryHash => LinksBack(es, i) && !Sealed(rules, es[i].value)
    case BadRound => LinksBack(es, i) && Sealed(rules, es[i].value) && es[i].value.round != i + 1
  }

  lemma {:induction false} ParseAllAt(rules: Rules, lines: seq<string>, i: nat)
    requires i < |lines|
    ensures ParseAll(rules, lines)[i] == ParseEntry(rules, lines[i])
  {
    if i > 0 {
      ParseAllAt(rules, lines[1..], i - 1);
    }
  }

  method VerifyLedger(rules: Rules, contents: string) returns (r: Verification)
    ensures r.Verified? <==> Intact(rules, Entries(rules, contents))
    ensures r.Verified? ==> r.entries == |Entries(rules, contents)|
    ensures r.Broken? ==>
      FailsFirstAt(rules, Entries(rules, contents), r.failedAtIndex) &&
      Explains(rules, Entries(rules, contents), r.failedAtIndex, r.fault)
  {
    hide ParseEntry, HashPayload;
    var lines := ReadLines(contents);
    ghost var es := Entries(rules, contents);
    var expectedPrevHash, expectedRound := GenesisHash(), 1;
    var index := 0;
    while index < |lines|
      invariant 0 <= index <= |lines| == |es|
      invariant forall j :: 0 <= j < index ==> Links(rules, es, j)
      invariant expectedRound == index + 1
      invariant if index == 0 then expectedPrevHash == GenesisHash()
        else es[index - 1].Some? && expectedPrevHash == es[index - 1].value.entryHash
    {
      var parsed := ParseEntry(rules, lines[index]);
      ParseAllAt(rules, lines, index);
      if parsed.None? {
        assert !Links(rules, es, index);
        return Broken(index, BadLine);
      }
      var entry := parsed.value;
      if entry.prevHash != expectedPrevHash {
        assert !Links(rules, es, index);
        return Broken(index, BadPrevHash);
      }
      if HashPayload(rules, entry.linked) != entry.entryHash {
        assert !Links(rules, es, index);
        return Broken(index, BadEntryHash);
      }
      if entry.round != expectedRound {
        assert !Links(rules, es, index);
        return Broken(index, BadRound);
      }
      expectedPrevHash := entry.entryHash;
      expectedRound := entry.round + 1;
      index := index + 1;
    }
    return Verified(|lines|);
  }
}
