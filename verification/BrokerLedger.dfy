/** The ledger over any sequence of runs. */
module BrokerLedger {
  import opened Basics
  import opened JsonText
  import opened JsonFacts
  import opened TextLines
  import opened Contracts
  import opened ContractFacts
  import opened Gates
  import opened Ledger
  import opened LedgerAppend
  import opened BrokerModel
  import opened BrokerFrames
  import opened BrokerRuns
  import opened BrokerStops
  import opened BrokerCommits

  // ---- the entry a round writes -------------------------------------------------------

  lemma BodyIsPlain(cfg: Config, rec: Record)
    ensures Plain(Obj(Body(cfg, rec)))
  {
    var body := Body(cfg, rec);
    DetectorRunsArePlain(rec.runs);
    VerifyResultsArePlain(rec.verifyResults);
    VerdictsArePlain(rec.verdicts);
    TestResultIsPlain(rec.test);
    hide DetectorRunsJson, VerifyResultsJson, VerdictsJson, TestResultJson, HashPayload, BatchJson, FixReportJson,
      DistinctKeys;
    AllPlain(body);
    BodyKeysDiffer(cfg, rec);
  }

  lemma BodyKeysDiffer(cfg: Config, rec: Record)
    ensures DistinctKeys(Body(cfg, rec))
  {
    hide DetectorRunsJson, VerifyResultsJson, VerdictsJson, TestResultJson, HashPayload, BatchJson, FixReportJson;
    assert "started_at"[0] != "fixes_hash"[0];
    assert "ended_at"[0] != "verdicts"[0];
    assert "detector_runs"[0] != "findings_hash"[0];
  }

  /** The entry says of the round all there is to say: when it was, what the detectors did, the hashes of
      the batch and of the fix report, the results, verdicts and tests, and the commit. */
  ghost predicate Attests(rules: Rules, e: Option<Entry>, rec: Record) {
    e.Some? && e.value.round == rec.round && e.value.linked.Obj? && Says(rules, e.value.linked.fields, rec)
  }

  ghost predicate Says(rules: Rules, fields: Fields, rec: Record) {
    Lookup(fields, "round") == Some(Num(rec.round)) &&
    Lookup(fields, "started_at") == Some(Str(rec.startedAt)) &&
    Lookup(fields, "ended_at") == Some(Str(rec.endedAt)) &&
    Lookup(fields, "detector_runs") == Some(Arr(DetectorRunsJson(rec.runs))) &&
    Lookup(fields, "findings_hash") == Some(Str(HashPayload(rules, BatchJson(rec.round, rec.batch)))) &&
    Lookup(fields, "fixes_hash") == Some(Str(HashPayload(rules, FixReportJson(rec.report)))) &&
    Lookup(fields, "verify_results") == Some(Arr(VerifyResultsJson(rec.verifyResults))) &&
    Lookup(fields, "verdicts") == Some(Arr(VerdictsJson(rec.verdicts))) &&
    Lookup(fields, "test_result") == Some(TestResultJson(rec.test)) &&
    Lookup(fields, "git_sha") == Some(Str(rec.sha))
  }

  lemma BodyAttests(cfg: Config, rec: Record, prev: Json)
    ensures WithDefaults(Body(cfg, rec)) == Body(cfg, rec) && Says(cfg.rules, Body(cfg, rec) + [Slot("prev_hash", prev)], rec)
  {
    var body := Body(cfg, rec);
    BodyKeysDiffer(cfg, rec);
    forall i | 0 <= i < |body| ensures Lookup(body + [Slot("prev_hash", prev)], body[i].key) == Some(body[i].value) {
      LookupAt(body, i);
      LookupAppend(body, Slot("prev_hash", prev), body[i].key);
    }
    hide Lookup, DistinctKeys, DetectorRunsJson, VerifyResultsJson, VerdictsJson, TestResultJson, HashPayload, BatchJson,
      FixReportJson;
    assert body[7].key == "verdicts";
    assert Lookup(body + [Slot("prev_hash", prev)], body[0].key) == Some(body[0].value);
    assert Lookup(body + [Slot("prev_hash", prev)], body[1].key) == Some(body[1].value);
    assert Lookup(body + [Slot("prev_hash", prev)], body[2].key) == Some(body[2].value);
    assert Lookup(body + [Slot("prev_hash", prev)], body[3].key) == Some(body[3].value);
    assert Lookup(body + [Slot("prev_hash", prev)], body[4].key) == Some(body[4].value);
    assert Lookup(body + [Slot("prev_hash", prev)], body[5].key) == Some(body[5].value);
    assert Lookup(body + [Slot("prev_hash", prev)], body[6].key) == Some(body[6].value);
    assert Lookup(body + [Slot("prev_hash", prev)], body[7].key) == Some(body[7].value);
    assert Lookup(body + [Slot("prev_hash", prev)], body[8].key) == Some(body[8].value);
    assert Lookup(body + [Slot("prev_hash", prev)], body[9].key) == Some(body[9].value);
    LookupAt(body, 7);
  }

  lemma BodyRound(cfg: Config, rec: Record)
    ensures var data := WithDefaults(Body(cfg, rec));
      Lookup(data, "round") == Some(Num(rec.round))
  {
  }

  lemma BodyIsOk(cfg: Config, rec: Record)
    ensures var body := Body(cfg, rec);
      WithDefaults(body) == body && Lookup(body, "round") == Some(Num(rec.round)) &&
      Lookup(body, "verdicts").Some? && Lookup(body, "prev_hash").None? && Lookup(body, "entry_hash").None?
  {
    hide DetectorRunsJson, VerifyResultsJson, VerdictsJson, TestResultJson, HashPayload, BatchJson, FixReportJson;
    var body := Body(cfg, rec);
    LookupFinds(body, "verdicts");
    LookupFinds(body, "prev_hash");
    LookupFinds(body, "entry_hash");
    assert body[7].key == "verdicts";
    assert "prev_hash"[0] == 'p' && "entry_hash"[1] == 'n';
    assert "started_at"[0] == 's' && "fixes_hash"[0] == 'f';
  }

  /** A ledger that verifies takes the entry of a round exactly when the round comes next and the schema
      accepts its body. */
  lemma FiledIff(cfg: Config, before: string, rec: Record)
    requires Intact(cfg.rules, Entries(cfg.rules, before))
    ensures Append(cfg.rules, before, Body(cfg, rec)).Appended? <==>
      rec.round == |Entries(cfg.rules, before)| + 1 && cfg.rules.bodyOk(Body(cfg, rec))
  {
    BodyIsOk(cfg, rec);
    LastOfIntact(cfg.rules, before);
    hide Body, Entries, LastEntry, EntryFields, Stringify, HashPayload, WithDefaults, Lookup;
  }

  // ---- one round on the ledger --------------------------------------------------------

  /** A ledger that verifies, ends where a line may start, and holds no more rounds than the cap. */
  ghost predicate Sound(rules: Rules, file: string, cap: nat) {
    Intact(rules, Entries(rules, file)) && Tail(file) == "" && |Entries(rules, file)| <= cap
  }

  /** The ledger's entries from `start` on are these rounds. */
  ghost predicate Attested(rules: Rules, file: string, start: nat, entries: seq<Record>) {
    var es := Entries(rules, file);
    |es| == start + |entries| && forall i :: 0 <= i < |entries| ==> Attests(rules, es[start + i], entries[i])
  }

  /** A recorded round is one more line, it says what the round was, and the round number is its place. */
  lemma FiledIsSound(cfg: Config, before: string, rec: Record, after: string, cap: nat)
    returns (e: Option<Entry>)
    requires HexDigests(cfg.rules) && Sound(cfg.rules, before, cap) && rec.round <= cap
    requires Filed(cfg, before, rec, after)
    ensures Sound(cfg.rules, after, cap) && |Entries(cfg.rules, after)| == rec.round
    ensures Entries(cfg.rules, after) == Entries(cfg.rules, before) + [e] && Attests(cfg.rules, e, rec)
  {
    hide Body, Entries, LastEntry, Stringify, Tail, Intact, HashPayload, HexDigests, EntryFields, WithDefaults, Lookup,
      VerifyResultsJson, VerdictsJson, TestResultJson, BatchJson;
    var body := Body(cfg, rec);
    BodyIsPlain(cfg, rec);
    BodyRound(cfg, rec);
    LastOfIntact(cfg.rules, before);
    var _ := AppendExtends(cfg.rules, before, body);
    e := Some(Append(cfg.rules, before, body).entry);
    assert rec.round == NextRound(LastEntry(cfg.rules, before).value);
    BodyAttests(cfg, rec, Str(NextPrevHash(LastEntry(cfg.rules, before).value)));
  }

  lemma AttestedGrows(rules: Rules, before: string, after: string, start: nat, entries: seq<Record>, e: Option<Entry>,
                      rec: Record)
    requires Attested(rules, before, start, entries)
    requires Entries(rules, after) == Entries(rules, before) + [e] && Attests(rules, e, rec)
    ensures Attested(rules, after, start, entries + [rec])
  {
    hide Attests, Entries;
  }

  lemma RecordIsFiled(cfg: Config, w: World, mid: State, rec: Record, end: State)
    requires Records(cfg, w, mid, rec, end)
    ensures Filed(cfg, mid.file, rec, end.file)
  {
  }

  /** Whatever state the file is in, an append only adds to its end. */
  lemma FiledGrows(cfg: Config, before: string, rec: Record, after: string)
    requires Filed(cfg, before, rec, after)
    ensures before <= after
  {
    hide Body, LastEntry, BodyOk, EntryFields, Stringify, HashPayload;
    assert exists line :: after == before + line + "\n";
  }

  /** The file of this state is sound and says what the run has recorded. */
  ghost predicate InStep(cfg: Config, st: State, start: nat, cap: nat) {
    Sound(cfg.rules, st.file, cap) && Attested(cfg.rules, st.file, start, st.entries)
  }

  lemma RoundOnLedger(cfg: Config, baseline: TestResult, round: nat, w: World, st: State, start: nat, cap: nat)
    ensures st.file <= Round(cfg, baseline, round, w, st).st.file
    ensures HexDigests(cfg.rules) && InStep(cfg, st, start, cap) && round <= cap ==>
      var r := Round(cfg, baseline, round, w, st);
      InStep(cfg, r.st, start, cap) &&
      (r.Go? ==> |r.st.entries| == |st.entries| + 1 && |Entries(cfg.rules, r.st.file)| == round)
  {
    hide Round, Prepare, PostFix, VerifyBatch, StopAfter, Reopens, Records, Sound, Filed, Attested, Entries, Attests, HexDigests;
    PrepareIsQuiet(cfg, round, w, st);
    var r := Round(cfg, baseline, round, w, st);
    if r.Go? {
      var prepared, before, mid, rec := RoundGoes(cfg, baseline, round, w, st);
      Recorded(cfg, w, st, prepared, before, mid, rec, r.st, round);
      assert Filed(cfg, mid.file, rec, r.st.file) by { RecordIsFiled(cfg, w, mid, rec, r.st); }
      FiledGrows(cfg, mid.file, rec, r.st.file);
      if HexDigests(cfg.rules) && InStep(cfg, st, start, cap) && round <= cap {
        var e := FiledIsSound(cfg, mid.file, rec, r.st.file, cap);
        AttestedGrows(cfg.rules, st.file, r.st.file, start, st.entries, e, rec);
      }
    } else {
      RoundStops(cfg, baseline, round, w, st);
    }
  }

  lemma {:induction false} RoundsOnLedger(cfg: Config, baseline: TestResult, worlds: nat -> World, round: nat, st: State,
                                          start: nat, cap: nat)
    requires cfg.iterationCap <= cap
    ensures st.file <= RoundsFrom(cfg, baseline, worlds, round, st).st.file
    ensures HexDigests(cfg.rules) && InStep(cfg, st, start, cap) ==>
      InStep(cfg, RoundsFrom(cfg, baseline, worlds, round, st).st, start, cap)
    decreases cfg.iterationCap + 1 - round
  {
    hide Round, InStep, HexDigests;
    if round <= cfg.iterationCap && !worlds(round).aborted(AtStart) {
      RoundOnLedger(cfg, baseline, round, worlds(round), st, start, cap);
      var r := Round(cfg, baseline, round, worlds(round), st);
      if r.Go? && r.value.None? {
        RoundsOnLedger(cfg, baseline, worlds, round + 1, r.st, start, cap);
      }
    }
  }

  /** Whatever the ledger was, a run only adds to its end. A sound ledger stays sound, and what is
      added, read back from the file, is the run's recorded rounds one for one. */
  lemma RunOnLedger(cfg: Config, setup: Setup, worlds: nat -> World, file: string, cap: nat)
    requires cfg.iterationCap <= cap
    ensures file <= RunLoop(cfg, setup, worlds, file).st.file
    ensures HexDigests(cfg.rules) && Sound(cfg.rules, file, cap) ==>
      InStep(cfg, RunLoop(cfg, setup, worlds, file).st, |Entries(cfg.rules, file)|, cap)
  {
    assert Attested(cfg.rules, file, |Entries(cfg.rules, file)|, []);
    hide RoundsFrom, RunLoop, FirstOf, Sound, Attested, HexDigests, Entries;
    RunIsRounds(cfg, setup, worlds, file);
    RoundsOnLedger(cfg, RunTests(cfg.testCommand, setup.baseline), worlds, FirstOf(cfg, file), InitialState(file),
                   |Entries(cfg.rules, file)|, cap);
  }

  // ---- any sequence of runs -----------------------------------------------------------

  datatype Job = Job(cfg: Config, setup: Setup, worlds: nat -> World)

  /** The ledger after each job has run in turn, resuming or not, whatever happened in it. */
  function AfterRuns(jobs: seq<Job>, file: string): string {
    if jobs == [] then file
    else AfterRuns(jobs[1..], RunLoop(jobs[0].cfg, jobs[0].setup, jobs[0].worlds, file).st.file)
  }

  ghost predicate UnderCap(jobs: seq<Job>, rules: Rules, cap: nat) {
    forall j :: 0 <= j < |jobs| ==> jobs[j].cfg.rules == rules && jobs[j].cfg.iterationCap <= cap
  }

  /** Over any sequence of runs under one cap, a ledger that verifies goes on verifying, only ever
      grows at its end, and never holds more rounds than the cap. */
  lemma {:induction false} LedgerOverRuns(jobs: seq<Job>, rules: Rules, cap: nat, file: string)
    requires UnderCap(jobs, rules, cap) && HexDigests(rules) && Sound(rules, file, cap)
    ensures Sound(rules, AfterRuns(jobs, file), cap) && file <= AfterRuns(jobs, file)
  {
    hide RunLoop, Sound, HexDigests;
    if jobs != [] {
      var job := jobs[0];
      RunOnLedger(job.cfg, job.setup, job.worlds, file, cap);
      LedgerOverRuns(jobs[1..], rules, cap, RunLoop(job.cfg, job.setup, job.worlds, file).st.file);
    }
  }

  lemma FromNothing(jobs: seq<Job>, rules: Rules, cap: nat)
    requires UnderCap(jobs, rules, cap) && HexDigests(rules)
    ensures Sound(rules, AfterRuns(jobs, ""), cap)
  {
    assert Sound(rules, "", cap) by {
      assert NonBlank([""]) == [] && Split("") == [""];
    }
    LedgerOverRuns(jobs, rules, cap, "");
  }

  // ---- resuming -----------------------------------------------------------------------

  /** A resumed run takes up the round after the ledger's last. */
  lemma ResumeContinues(cfg: Config, file: string)
    requires cfg.resume && Intact(cfg.rules, Entries(cfg.rules, file))
    ensures FirstRound(cfg, file) == Some(|Entries(cfg.rules, file)| + 1)
  {
    LastOfIntact(cfg.rules, file);
  }

  // ---- commits without an entry -------------------------------------------------------

  /** The commit of this round is made, and then its sha cannot be read or the schema refuses its entry. */
  ghost predicate UnreadOrRefused(cfg: Config, baseline: TestResult, round: nat, w: World, st: State) {
    !cfg.dryRun && GetsToCommit(cfg, baseline, round, w, st) &&
    match w.git
    case NotCommitted => false
    case CommittedUnread => true
    case Committed(sha) => !cfg.rules.bodyOk(Written(cfg, baseline, round, w, st, sha))
  }

  lemma LosesIff(cfg: Config, baseline: TestResult, round: nat, w: World, st: State)
    requires Intact(cfg.rules, Entries(cfg.rules, st.file))
    ensures LosesCommit(cfg, baseline, round, w, st) <==>
      if round == |Entries(cfg.rules, st.file)| + 1 then UnreadOrRefused(cfg, baseline, round, w, st)
      else !cfg.dryRun && GetsToCommit(cfg, baseline, round, w, st) && !w.git.NotCommitted?
  {
    hide Intact, Entries, Append, GetsToCommit, Written, Body;
    if GetsToCommit(cfg, baseline, round, w, st) && w.git.Committed? {
      var rec := WrittenIsBody(cfg, baseline, round, w, st, w.git.sha);
      FiledIff(cfg, st.file, rec);
    }
  }

  /** The round after `n` entries was begun, and its commit has no entry for one of those two reasons. */
  ghost predicate RoundLeavesCommit(cfg: Config, baseline: TestResult, worlds: nat -> World, first: nat, file: string, n: nat) {
    var reached := Reached(cfg, baseline, worlds, first, file, first + n);
    reached.Some? && first + n <= cfg.iterationCap && !worlds(first + n).aborted(AtStart) &&
    UnreadOrRefused(cfg, baseline, first + n, worlds(first + n), reached.value)
  }

  /** On a sound ledger whose next round is the run's first, the ledger never refuses a round for its
      number: a run that is not dry has one commit more than entries exactly when the round it stopped
      in was committed and git could not say as what, or the entry schema refused the body. */
  lemma CommitWithoutEntryIff(cfg: Config, setup: Setup, worlds: nat -> World, file: string, cap: nat)
    requires HexDigests(cfg.rules) && Sound(cfg.rules, file, cap) && cfg.iterationCap <= cap && !cfg.dryRun
    requires FirstOf(cfg, file) == |Entries(cfg.rules, file)| + 1
    ensures var end := RunLoop(cfg, setup, worlds, file);
      var n := |end.st.entries|;
      end.st.commits == n + 1 <==>
        Starts(cfg, setup, file) &&
        RoundLeavesCommit(cfg, RunTests(cfg.testCommand, setup.baseline), worlds, FirstOf(cfg, file), file, n)
  {
    hide RunLoop, RunTests, FirstOf, Starts, AllPlayed, Entries, HexDigests, LosesCommit, UnreadOrRefused, Round, Reached,
      Tail, Attests, Intact;
    var baseline, first := RunTests(cfg.testCommand, setup.baseline), FirstOf(cfg, file);
    CommitsMatchEntries(cfg, setup, worlds, file);
    if Starts(cfg, setup, file) {
      RecordedRoundsAreReached(cfg, setup, worlds, file);
      RunOnLedger(cfg, setup, worlds, file, cap);
      var end := RunLoop(cfg, setup, worlds, file);
      var round := first + |end.st.entries|;
      var reached := Reached(cfg, baseline, worlds, first, file, round);
      if reached.Some? {
        LosesIff(cfg, baseline, round, worlds(round), reached.value);
      }
    }
  }

  /** A run that does not resume records nothing on a ledger that already has rounds. It finds out only
      at the append: if its first round gets to the commit and git makes it, that commit stays, and no
      entry ever attests it. */
  lemma FreshRunNeedsFreshLedger(cfg: Config, setup: Setup, worlds: nat -> World, file: string)
    requires !cfg.resume && HexDigests(cfg.rules)
    requires Intact(cfg.rules, Entries(cfg.rules, file)) && |Entries(cfg.rules, file)| > 0 && Tail(file) == ""
    ensures var end := RunLoop(cfg, setup, worlds, file);
      end.st.entries == [] && end.st.file == file &&
      (end.Returned? ==> end.reason == ManualAbort || cfg.iterationCap == 0)
    ensures var baseline := RunTests(cfg.testCommand, setup.baseline);
      RunLoop(cfg, setup, worlds, file).st.commits ==
        if Starts(cfg, setup, file) && cfg.iterationCap >= 1 && !worlds(1).aborted(AtStart) && !cfg.dryRun &&
           GetsToCommit(cfg, baseline, 1, worlds(1), InitialState(file)) && !worlds(1).git.NotCommitted?
        then 1 else 0
  {
    assert Sound(cfg.rules, file, |Entries(cfg.rules, file)|);
    hide Round, Sound, Entries, RunTests, Starts, GetsToCommit;
    var baseline := RunTests(cfg.testCommand, setup.baseline);
    var st := InitialState(file);
    RunIsRounds(cfg, setup, worlds, file);
    hide RunLoop;
    if cfg.iterationCap >= 1 && !worlds(1).aborted(AtStart) {
      FreshRoundStops(cfg, baseline, worlds(1), st);
      RoundCommitsIff(cfg, baseline, 1, worlds(1), st);
    }
  }

  lemma FreshRoundStops(cfg: Config, baseline: TestResult, w: World, st: State)
    requires HexDigests(cfg.rules) && Sound(cfg.rules, st.file, |Entries(cfg.rules, st.file)|)
    requires |Entries(cfg.rules, st.file)| > 0 && st.entries == []
    ensures var r := Round(cfg, baseline, 1, w, st);
      r.Halt? && r.st.entries == st.entries && r.st.file == st.file
  {
    var n := |Entries(cfg.rules, st.file)|;
    assert InStep(cfg, st, n, n);
    hide Round, Prepare, Sound, Entries, HexDigests, Attests;
    RoundOnLedger(cfg, baseline, 1, w, st, n, n);
    PrepareIsQuiet(cfg, 1, w, st);
    var r := Round(cfg, baseline, 1, w, st);
    if r.Halt? {
      RoundStops(cfg, baseline, 1, w, st);
    }
  }
}
