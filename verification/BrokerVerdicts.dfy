/** Verdict memory over whole rounds and whole runs. */
module BrokerVerdicts {
  import opened Basics
  import opened Contracts
  import opened Gates
  import opened BrokerModel
  import opened BrokerFrames
  import opened BrokerMemory
  import opened BrokerRuns

  // ---- recording a round --------------------------------------------------------------

  lemma VerdictOkLater(entries: seq<Record>, rec: Record, upTo: nat, journal: seq<Event>, v: FindingVerdict)
    requires upTo <= |entries| && VerdictOk(entries, upTo, journal, v)
    ensures VerdictOk(entries + [rec], upTo, journal, v) && VerdictOk(entries + [rec], |entries| + 1, journal, v)
  {
    if v.verdict.VerdictClosed? {
      var j :| 0 <= j < upTo && entries[j].round == v.decidedInRound && ClosedIn(entries[j], v.findingId, v.repro.value);
      assert (entries + [rec])[j] == entries[j];
    }
  }

  /** A new entry has been written and its closures are about to be remembered. */
  ghost predicate Remembering(st: State, rec: Record) {
    MemoryOk(st) && RulingsKept(st.remembered, st.journal) && |st.entries| > 0 &&
    st.entries[|st.entries| - 1] == rec && PastGrows(st.entries[..|st.entries| - 1], st.remembered)
  }

  lemma PutClosedKeepsRulings(memory: Memory, journal: seq<Event>, id: string, v: FindingVerdict)
    requires RulingsKept(memory, journal) && v.verdict.VerdictClosed?
    ensures RulingsKept(Put(memory, id, v), journal)
  {
    forall k | 0 <= k < |journal| && journal[k].Ruled?
      ensures journal[k].confirmed || Outlives(Lookup(Put(memory, id, v), journal[k].id), journal[k].round)
    {
      LookupPut(memory, id, v, journal[k].id);
    }
  }

  lemma RememberOneClosed(st: State, rec: Record, k: nat)
    requires Remembering(st, rec) && Matches(rec.batch, rec.verifyResults)
    requires k < |rec.batch| && rec.verifyResults[k].outcome == Closed
    ensures var f := rec.batch[k];
      Remembering(Remember(st, FindingVerdict(f.id, VerdictClosed, Some(f.repro), rec.round)), rec)
  {
    var f := rec.batch[k];
    var v := FindingVerdict(f.id, VerdictClosed, Some(f.repro), rec.round);
    var past := st.(entries := st.entries[..|st.entries| - 1]);
    assert ClosedIn(st.entries[|st.entries| - 1], f.id, f.repro);
    assert VerdictOk(st.entries, |st.entries|, st.journal, v);
    PutKeepsMemoryOk(st, f.id, v);
    PutClosedKeepsRulings(st.remembered, st.journal, f.id, v);
    forall i | 0 <= i < |past.entries|
      ensures GrowsTo(past.entries[i].verdicts, Verdicts(Put(st.remembered, f.id, v)))
    {
      PutGrows(past.entries[i].verdicts, st.remembered, f.id, v);
    }
    hide VerdictOk, RulingsKept, Put, Lookup, GrowsTo;
  }

  /** The loop over the batch after the commit, from finding `k` on. */
  lemma {:induction false} RememberClosedKeeps(st: State, rec: Record, k: nat)
    requires Remembering(st, rec) && Matches(rec.batch, rec.verifyResults) && k <= |rec.batch|
    ensures Remembering(
      st.(remembered := RememberClosed(st.remembered, rec.round, rec.batch[k..], rec.verifyResults[k..])), rec)
    decreases |rec.batch| - k
  {
    hide Remembering, Put;
    if k == |rec.batch| {
      assert st == st.(remembered := st.remembered);
    } else {
      var f := rec.batch[k];
      var next := st;
      if rec.verifyResults[k].outcome == Closed {
        next := Remember(st, FindingVerdict(f.id, VerdictClosed, Some(f.repro), rec.round));
        RememberOneClosed(st, rec, k);
      }
      RememberClosedKeeps(next, rec, k + 1);
      assert rec.batch[k..][1..] == rec.batch[k + 1..] && rec.verifyResults[k..][1..] == rec.verifyResults[k + 1..];
      assert next.(remembered := RememberClosed(next.remembered, rec.round, rec.batch[k + 1..], rec.verifyResults[k + 1..]))
          == st.(remembered := RememberClosed(st.remembered, rec.round, rec.batch[k..], rec.verifyResults[k..]));
    }
  }

  lemma BackedBySelf(st: State)
    requires MemoryOk(st)
    ensures VerdictsOk(st.entries, |st.entries|, st.journal, Verdicts(st.remembered))
  {
  }

  lemma BackedAppends(entries: seq<Record>, journal: seq<Event>, rec: Record)
    requires Backed(entries, journal) && VerdictsOk(entries + [rec], |entries| + 1, journal, rec.verdicts)
    ensures Backed(entries + [rec], journal)
  {
    var after := entries + [rec];
    forall i | 0 <= i < |after| ensures VerdictsOk(after, i + 1, journal, after[i].verdicts) {
      if i < |entries| {
        assert after[i] == entries[i];
        assert VerdictsOk(entries, i + 1, journal, entries[i].verdicts);
        forall n | 0 <= n < |after[i].verdicts| ensures VerdictOk(after, i + 1, journal, after[i].verdicts[n]) {
          VerdictOkLater(entries, rec, i + 1, journal, entries[i].verdicts[n]);
        }
      }
    }
  }

  lemma FilingStartsRemembering(mid: State, rec: Record)
    requires MemoryInv(mid, rec.round)
    ensures Remembering(mid.(entries := mid.entries + [rec]), rec)
  {
    var filed := mid.(entries := mid.entries + [rec]);
    assert filed.entries[..|filed.entries| - 1] == mid.entries;
    forall i | 0 <= i < |mid.remembered|
      ensures VerdictOk(filed.entries, |filed.entries|, filed.journal, mid.remembered[i].value)
    {
      VerdictOkLater(mid.entries, rec, |mid.entries|, mid.journal, mid.remembered[i].value);
    }
    hide VerdictOk, RulingsKept, PastGrows;
  }

  lemma RecordKeepsMemory(cfg: Config, w: World, mid: State, rec: Record, end: State)
    requires MemoryInv(mid, rec.round) && Records(cfg, w, mid, rec, end) && Matches(rec.batch, rec.verifyResults)
    ensures MemoryInv(end, rec.round)
  {
    var filed := mid.(entries := mid.entries + [rec]);
    FilingStartsRemembering(mid, rec);
    RememberClosedKeeps(filed, rec, 0);
    assert rec.batch[0..] == rec.batch && rec.verifyResults[0..] == rec.verifyResults;
    var kept := filed.(remembered := end.remembered);
    assert Remembering(kept, rec);
    BackedBySelf(kept);
    hide VerdictOk, VerdictsOk, RulingsKept, GrowsTo, RecordsClosed, Outlives, RememberClosed, Merge, Unresolved, RunTests, Filed;
    assert kept.entries[..|kept.entries| - 1] == mid.entries;
    RecordedIsLasting(mid, rec, end.remembered);
    assert end.entries == kept.entries && end.journal == kept.journal;
  }

  lemma RecordedIsLasting(mid: State, rec: Record, memory: Memory)
    requires Lasting(mid.entries, mid.journal) && UpTo(mid.journal, rec.round) && PastGrows(mid.entries, memory)
    requires rec.verdicts == Verdicts(memory)
    requires VerdictsOk(mid.entries + [rec], |mid.entries| + 1, mid.journal, rec.verdicts)
    ensures Lasting(mid.entries + [rec], mid.journal) && PastGrows(mid.entries + [rec], memory)
  {
    BackedAppends(mid.entries, mid.journal, rec);
    hide Backed, PastGrows, ClosedIsSettled, Spaced, UpTo, VerdictsOk, Verdicts, VerdictsGrow;
  }

  // ---- rounds and runs ----------------------------------------------------------------

  lemma GoingKeepsMemory(cfg: Config, baseline: TestResult, round: nat, w: World, st: State)
    requires MemoryInv(st, round) && Round(cfg, baseline, round, w, st).Go?
    ensures MemoryInv(Round(cfg, baseline, round, w, st).st, round)
  {
    hide Round, Prepare, Records, Quiet, Reopens, MemoryInv, PostFix, VerifyBatch, StopAfter;
    PrepareKeepsMemory(cfg, round, w, st);
    var prepared, before, mid, rec := RoundGoes(cfg, baseline, round, w, st);
    QuietKeepsMemory(prepared, before, round, false);
    QuietKeepsMemory(before, mid, round, false);
    VerifyMatches(w, before, rec.batch, rec.batch != []);
    RecordKeepsMemory(cfg, w, mid, rec, Round(cfg, baseline, round, w, st).st);
  }

  lemma StoppingKeepsLasting(cfg: Config, baseline: TestResult, round: nat, w: World, st: State)
    requires MemoryInv(st, round) && Round(cfg, baseline, round, w, st).Halt?
    ensures var r := Round(cfg, baseline, round, w, st).st; Lasting(r.entries, r.journal)
  {
    hide Round, Prepare, Lasting, MemoryOk, RulingsKept, PastGrows, UpTo;
    PrepareKeepsMemory(cfg, round, w, st);
    RoundStops(cfg, baseline, round, w, st);
    var p := Prepare(cfg, round, w, st);
    if p.Go? {
      QuietKeepsLasting(p.st.entries, p.st.journal, Round(cfg, baseline, round, w, st).st.journal);
    }
  }

  lemma {:induction false} RoundsKeepMemory(cfg: Config, baseline: TestResult, worlds: nat -> World, round: nat, st: State)
    requires MemoryInv(st, round)
    ensures var end := RoundsFrom(cfg, baseline, worlds, round, st).st; Lasting(end.entries, end.journal)
    decreases cfg.iterationCap + 1 - round
  {
    hide Round, Lasting, MemoryOk, RulingsKept, PastGrows;
    if round <= cfg.iterationCap && !worlds(round).aborted(AtStart) {
      var r := Round(cfg, baseline, round, worlds(round), st);
      if r.Halt? {
        StoppingKeepsLasting(cfg, baseline, round, worlds(round), st);
      } else {
        GoingKeepsMemory(cfg, baseline, round, worlds(round), st);
        if r.value.None? {
          RoundsKeepMemory(cfg, baseline, worlds, round + 1, r.st);
        }
      }
    }
  }

  lemma InitialMemory(file: string, round: nat)
    ensures MemoryInv(InitialState(file), round)
  {
  }

  lemma RunIsLasting(cfg: Config, setup: Setup, worlds: nat -> World, file: string)
    ensures var end := RunLoop(cfg, setup, worlds, file).st; Lasting(end.entries, end.journal)
  {
    hide RoundsFrom, RunLoop, InitialState, FirstOf, Lasting, MemoryOk, RulingsKept, PastGrows, UpTo;
    RunIsRounds(cfg, setup, worlds, file);
    InitialMemory(file, FirstOf(cfg, file));
    RoundsKeepMemory(cfg, RunTests(cfg.testCommand, setup.baseline), worlds, FirstOf(cfg, file), InitialState(file));
  }

  /** In every run: each entry has at most one verdict per id; a closed verdict names a round of this
      run whose verify results close that id with that repro; a dismissed one names a round in which
      the broker ruled against it; ids only accumulate and a closed id stays closed; and no
      confirmation turn is bought for an id once an entry has it closed. */
  lemma VerdictsAreBackedAndFinal(cfg: Config, setup: Setup, worlds: nat -> World, file: string)
    ensures var end := RunLoop(cfg, setup, worlds, file).st;
      Backed(end.entries, end.journal) && VerdictsGrow(end.entries) && ClosedIsSettled(end.entries, end.journal)
  {
    hide RunLoop, Backed, VerdictsGrow, ClosedIsSettled;
    RunIsLasting(cfg, setup, worlds, file);
  }

  // ---- what confirmation costs --------------------------------------------------------

  /** How many rulings against an id the journal holds. */
  function RulingsAgainst(journal: seq<Event>, id: string): nat {
    if journal == [] then 0
    else (if journal[0].Ruled? && !journal[0].confirmed && journal[0].id == id then 1 else 0) +
         RulingsAgainst(journal[1..], id)
  }

  lemma {:induction false} SpacedCount(journal: seq<Event>, id: string, first: int, last: int)
    requires Spaced(journal)
    requires forall k :: 0 <= k < |journal| && Against(journal[k], id) ==> first <= journal[k].round <= last
    ensures RulingsAgainst(journal, id) == 0 || DISMISSAL_LIFE * RulingsAgainst(journal, id) <= last - first + DISMISSAL_LIFE
  {
    if journal != [] {
      var rest := journal[1..];
      var from := if Against(journal[0], id) then journal[0].round + DISMISSAL_LIFE else first;
      assert forall k :: 0 <= k < |rest| ==> rest[k] == journal[k + 1];
      SpacedCount(rest, id, from, last);
    }
  }

  /** A run that plays `n` rounds spends at most ceil(n / 5) dismissing confirmations on one id. */
  lemma DismissalsAreRare(cfg: Config, setup: Setup, worlds: nat -> World, file: string, id: string, n: nat)
    requires RoundsWithin(RunLoop(cfg, setup, worlds, file).st.journal, FirstOf(cfg, file), FirstOf(cfg, file) + n)
    ensures RulingsAgainst(RunLoop(cfg, setup, worlds, file).st.journal, id) <= (n + 4) / 5
  {
    hide RunLoop, ClosedIsSettled, Backed, VerdictsGrow, FirstOf;
    RunIsLasting(cfg, setup, worlds, file);
    SpacedCount(RunLoop(cfg, setup, worlds, file).st.journal, id, FirstOf(cfg, file), FirstOf(cfg, file) + n - 1);
  }

  /** The rounds a run plays are those it recorded and at most one more. */
  lemma DismissalsPerRun(cfg: Config, setup: Setup, worlds: nat -> World, file: string, id: string)
    ensures var end := RunLoop(cfg, setup, worlds, file).st;
      RulingsAgainst(end.journal, id) <= (|end.entries| + 5) / 5
  {
    hide RunLoop, FirstOf, RoundsWithin, RulingsAgainst;
    RoundsAreConsecutive(cfg, setup, worlds, file);
    DismissalsAreRare(cfg, setup, worlds, file, id, |RunLoop(cfg, setup, worlds, file).st.entries| + 1);
  }
}
