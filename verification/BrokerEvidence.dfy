/** Nothing enters a fix round on anybody's word: every batch finding's command was either reported
    as a working one by a detector pass, or run by the broker itself and seen to reproduce. */
module BrokerEvidence {
  import opened Basics
  import opened Contracts
  import opened Gates
  import opened BrokerModel
  import opened BrokerLists
  import opened BrokerFrames
  import opened BrokerRuns
  import opened BrokerStops

  /** The broker ran this command for this id, and it still reproduced. */
  ghost predicate SeenToSurvive(journal: seq<Event>, id: string, repro: string) {
    exists k :: 0 <= k < |journal| && journal[k].ReproRan? && journal[k].id == id && journal[k].repro == repro &&
      journal[k].outcome == Survived
  }

  ghost predicate IsScan(e: Event) {
    e.Detected? || e.Refuzzed? || e.Rescanned?
  }

  ghost predicate IsReportOf(g: Finding, f: Finding) {
    g.id == f.id && g.repro == f.repro && g.source == f.source && g.state == Confirmed
  }

  /** A detector pass came back with this command, already confirmed. */
  ghost predicate Reported(journal: seq<Event>, f: Finding) {
    exists k, m :: 0 <= k < |journal| && IsScan(journal[k]) && 0 <= m < |journal[k].findings| &&
      IsReportOf(journal[k].findings[m], f)
  }

  ghost predicate Evidenced(journal: seq<Event>, f: Finding) {
    SeenToSurvive(journal, f.id, f.repro) || Reported(journal, f)
  }

  /** Every finding here that counts as confirmed has its evidence. */
  ghost predicate ConfirmedEvidenced(fs: seq<Finding>, journal: seq<Event>) {
    forall f :: f in fs && f.state == Confirmed ==> Evidenced(journal, f)
  }

  ghost predicate BatchEvidenced(fs: seq<Finding>, journal: seq<Event>) {
    forall f :: f in fs ==> f.state == Confirmed && Evidenced(journal, f)
  }

  ghost predicate BatchesEvidenced(entries: seq<Record>, journal: seq<Event>) {
    forall i :: 0 <= i < |entries| ==> BatchEvidenced(entries[i].batch, journal)
  }

  ghost predicate EvidenceInv(st: State) {
    ConfirmedEvidenced(st.open, st.journal) && BatchesEvidenced(st.entries, st.journal)
  }

  // ---- evidence lasts -----------------------------------------------------------------

  lemma EvidenceLasts(a: seq<Event>, b: seq<Event>, f: Finding)
    requires Extends(a, b) && Evidenced(a, f)
    ensures Evidenced(b, f)
  {
  }

  lemma ConfirmedLasts(fs: seq<Finding>, a: seq<Event>, b: seq<Event>)
    requires Extends(a, b) && ConfirmedEvidenced(fs, a)
    ensures ConfirmedEvidenced(fs, b)
  {
  }

  lemma QuietLasts(fs: seq<Finding>, a: State, b: State, round: nat, confirms: bool, analyzes: bool)
    requires Quiet(a, b, round, confirms, analyzes)
    ensures ConfirmedEvidenced(fs, a.journal) ==> ConfirmedEvidenced(fs, b.journal)
    ensures BatchEvidenced(fs, a.journal) ==> BatchEvidenced(fs, b.journal)
    ensures BatchesEvidenced(a.entries, a.journal) ==> BatchesEvidenced(b.entries, b.journal)
  {
  }

  /** A scan on the record is the evidence for what it reported. */
  lemma ScanIsEvidence(journal: seq<Event>, k: nat, fs: seq<Finding>)
    requires k < |journal| && IsScan(journal[k]) && journal[k].findings == fs
    ensures ConfirmedEvidenced(fs, journal)
  {
  }

  // ---- DETECT -------------------------------------------------------------------------

  lemma {:induction false} RaisedAreCandidates(cfg: Config, raises: seq<Raise>, f: Finding)
    requires f in RaisedCandidates(cfg, raises)
    ensures f.state == Candidate
  {
    if f != RaisedCandidate(cfg, raises[0]) {
      RaisedAreCandidates(cfg, raises[1..], f);
    }
  }

  lemma HuntRaisesCandidates(cfg: Config, round: nat, w: World, st: State)
    ensures var r := Hunt(cfg, round, w, st); r.Go? ==> forall f :: f in r.value ==> f.state == Candidate
  {
    if cfg.coldHunt && w.hunt.Answered? {
      forall f | f in RaisedCandidates(cfg, w.hunt.value) ensures f.state == Candidate {
        RaisedAreCandidates(cfg, w.hunt.value, f);
      }
    }
  }

  lemma MergeEvidenced(preferred: seq<Finding>, others: seq<Finding>, bar: Severity, journal: seq<Event>)
    requires ConfirmedEvidenced(preferred, journal) && ConfirmedEvidenced(others, journal)
    ensures ConfirmedEvidenced(Merge(preferred, others), journal)
    ensures ConfirmedEvidenced(WithinBar(Merge(preferred, others), bar), journal)
  {
    MergeKeeps(preferred, others);
    forall f | f in WithinBar(Merge(preferred, others), bar) && f.state == Confirmed ensures Evidenced(journal, f) {
      WithinBarMember(Merge(preferred, others), bar, f);
    }
  }

  lemma DetectEvidenced(cfg: Config, round: nat, w: World, st: State)
    requires ConfirmedEvidenced(st.open, st.journal)
    ensures var r := Detect(cfg, round, w, st); r.Go? ==> ConfirmedEvidenced(r.value.0, r.st.journal)
  {
    var r := Detect(cfg, round, w, st);
    if r.Go? {
      var scan := w.detect.value;
      var seen := Saw(st, Detected(round, scan.findings));
      ScanIsEvidence(seen.journal, |st.journal|, scan.findings);
      ConfirmedLasts(st.open, st.journal, seen.journal);
      MergeEvidenced(st.open, scan.findings, cfg.severityBar, seen.journal);
      var hunted := Hunt(cfg, round, w, seen);
      HuntIsQuiet(cfg, round, w, seen);
      HuntRaisesCandidates(cfg, round, w, seen);
      hide Hunt, Quiet, Merge, WithinBar, Evidenced;
      QuietLasts(Merge(st.open, scan.findings), seen, hunted.st, round, false, false);
      MergeEvidenced(Merge(st.open, scan.findings), hunted.value, cfg.severityBar, hunted.st.journal);
    }
  }

  // ---- CONFIRM and ANALYZE ------------------------------------------------------------

  lemma RunIsEvidence(st: State, round: nat, f: Finding, run: Attempt<ReproRun>)
    ensures var r := RunRepro(st, round, f, run);
      r.Go? && r.value == Survived ==> SeenToSurvive(r.st.journal, f.id, f.repro)
  {
    var r := RunRepro(st, round, f, run);
    if r.Go? {
      assert r.st.journal[|st.journal|] == ReproRan(round, f.id, f.repro, r.value);
    }
  }

  lemma ConfirmCandidateEvidenced(round: nat, w: World, st: State, f: Finding)
    ensures var r := ConfirmCandidate(round, w, st, f);
      r.Go? && r.value.Some? ==>
        r.value.value.state == Confirmed && r.value.value.id == f.id &&
        SeenToSurvive(r.st.journal, f.id, r.value.value.repro)
  {
    var r := ConfirmCandidate(round, w, st, f);
    if r.Go? && r.value.Some? {
      var asked := Saw(st, TurnTaken(round, CandidateConfirmation, f.id));
      RunIsEvidence(asked, round, r.value.value, w.confirmRepro(f.id));
      var ran := RunRepro(asked, round, r.value.value, w.confirmRepro(f.id)).st;
      hide RunRepro;
      var k :| 0 <= k < |ran.journal| && ran.journal[k].ReproRan? && ran.journal[k].id == f.id &&
        ran.journal[k].repro == r.value.value.repro && ran.journal[k].outcome == Survived;
      assert r.st.journal[k] == ran.journal[k];
    }
  }

  lemma ConfirmOneEvidenced(round: nat, w: World, st: State, f: Finding)
    requires f.state == Confirmed ==> Evidenced(st.journal, f)
    ensures var r := ConfirmOne(round, w, st, f); r.Go? ==> BatchEvidenced(r.value, r.st.journal)
  {
    hide Lookup, Put, VerifyOne, ConfirmCandidate, RunRepro;
    if f.state.Candidate? {
      ConfirmCandidateEvidenced(round, w, st, f);
      var carried := Lookup(st.remembered, f.id);
      if CarriedClosure(carried) {
        RunIsEvidence(st, round, Reopen(f, carried.value.repro.value), w.recheck(f.id));
      }
    }
  }

  lemma {:induction false} ConfirmAllEvidenced(round: nat, w: World, st: State, fs: seq<Finding>)
    requires ConfirmedEvidenced(fs, st.journal)
    ensures var r := ConfirmAll(round, w, st, fs); r.Go? ==> BatchEvidenced(r.value, r.st.journal)
    decreases |fs|
  {
    hide ConfirmOne, Quiet, Evidenced;
    if fs != [] {
      var first := ConfirmOne(round, w, st, fs[0]);
      ConfirmOneEvidenced(round, w, st, fs[0]);
      ConfirmOneIsQuiet(round, w, st, fs[0]);
      if first.Go? {
        QuietLasts(fs[1..], st, first.st, round, true, false);
        ConfirmAllEvidenced(round, w, first.st, fs[1..]);
        ConfirmAllIsQuiet(round, w, first.st, fs[1..]);
        QuietLasts(first.value, first.st, ConfirmAll(round, w, first.st, fs[1..]).st, round, true, false);
      }
    }
  }

  lemma AnalyzeOneEvidenced(round: nat, w: World, st: State, f: Finding)
    requires f.state == Confirmed && Evidenced(st.journal, f)
    ensures var r := AnalyzeOne(round, w, st, f); r.Go? ==> r.value.state == Confirmed && Evidenced(r.st.journal, r.value)
  {
    AnalyzeOneIsQuiet(round, w, st, f);
    var r := AnalyzeOne(round, w, st, f);
    if r.Go? {
      EvidenceLasts(st.journal, r.st.journal, f);
      if f.source == Fuzzer && f.id !in st.analyzed {
        var asked := Saw(st, TurnTaken(round, CrashAnalysisTurn, f.id));
        var a := w.analyze(f.id).value;
        var analyzed := f.(severity := a.severity, expected := a.expected,
                           description := f.description + " Root cause: " + a.rootCause);
        RunIsEvidence(asked, round, analyzed.(repro := a.repro), w.analyzeRepro(f.id));
        hide RunRepro, VerifyOne;
        SameReport(r.st.journal, f, analyzed);
      }
    }
  }

  /** Evidence is about an id, a command and a source. */
  lemma SameReport(journal: seq<Event>, f: Finding, g: Finding)
    requires f.id == g.id && f.repro == g.repro && f.source == g.source
    ensures Evidenced(journal, f) ==> Evidenced(journal, g)
  {
  }

  lemma {:induction false} AnalyzeAllEvidenced(round: nat, w: World, st: State, fs: seq<Finding>)
    requires BatchEvidenced(fs, st.journal)
    ensures var r := AnalyzeAll(round, w, st, fs); r.Go? ==> BatchEvidenced(r.value, r.st.journal)
    decreases |fs|
  {
    hide AnalyzeOne, Quiet, Evidenced;
    if fs != [] {
      var first := AnalyzeOne(round, w, st, fs[0]);
      AnalyzeOneEvidenced(round, w, st, fs[0]);
      AnalyzeOneIsQuiet(round, w, st, fs[0]);
      if first.Go? {
        QuietLasts(fs[1..], st, first.st, round, false, true);
        AnalyzeAllEvidenced(round, w, first.st, fs[1..]);
        AnalyzeAllIsQuiet(round, w, first.st, fs[1..]);
        assert BatchEvidenced([first.value], first.st.journal);
        QuietLasts([first.value], first.st, AnalyzeAll(round, w, first.st, fs[1..]).st, round, false, true);
        assert first.value in [first.value];
      }
    }
  }

  /** In every reachable round, even one that never gets recorded: the batch handed to the fix agent
      holds confirmed findings only, each with its evidence already on the record. */
  lemma PreparedIsEvidenced(cfg: Config, round: nat, w: World, st: State)
    requires EvidenceInv(st)
    ensures var r := Prepare(cfg, round, w, st);
      BatchesEvidenced(r.st.entries, r.st.journal) && (r.Go? ==> BatchEvidenced(r.value.0, r.st.journal))
  {
    hide Detect, ConfirmAll, AnalyzeAll, Quiet, Evidenced, BatchesEvidenced;
    PrepareIsQuiet(cfg, round, w, st);
    QuietLasts([], st, Prepare(cfg, round, w, st).st, round, true, true);
    var detected := Detect(cfg, round, w, st);
    DetectEvidenced(cfg, round, w, st);
    if detected.Go? {
      var confirmed := ConfirmAll(round, w, detected.st, detected.value.0);
      ConfirmAllEvidenced(round, w, detected.st, detected.value.0);
      if confirmed.Go? {
        AnalyzeAllEvidenced(round, w, confirmed.st, confirmed.value);
      }
    }
  }

  // ---- what a round leaves open -------------------------------------------------------

  lemma PostFixEvidenced(cfg: Config, round: nat, w: World, st: State, crossCheck: bool)
    ensures var r := PostFix(cfg, round, w, st, crossCheck); r.Go? ==> ConfirmedEvidenced(r.value.0, r.st.journal)
  {
    var r := PostFix(cfg, round, w, st, crossCheck);
    if r.Go? && crossCheck {
      var scan := w.refuzz.value;
      var st1 := Saw(st, Refuzzed(round, scan.findings));
      ScanIsEvidence(st1.journal, |st.journal|, scan.findings);
      if w.rescan.Some? {
        var again := w.rescan.value.value;
        var st2 := Saw(st1, Rescanned(round, again.findings));
        ScanIsEvidence(st2.journal, |st1.journal|, again.findings);
        ConfirmedLasts(scan.findings, st1.journal, st2.journal);
        var within := WithinBar(again.findings, cfg.severityBar);
        var unseen := WithoutDismissed(st1.remembered, within);
        forall f | f in unseen && f.state == Confirmed ensures Evidenced(st2.journal, f) {
          WithoutDismissedMember(st1.remembered, within, f);
          WithinBarMember(again.findings, cfg.severityBar, f);
        }
        MergeEvidenced(scan.findings, unseen, cfg.severityBar, st2.journal);
        hide Merge, WithinBar, WithoutDismissed, Evidenced;
      }
    }
  }

  lemma OpenAfterEvidenced(rec: Record, journal: seq<Event>)
    requires |rec.batch| == |rec.verifyResults|
    requires BatchEvidenced(rec.batch, journal) && ConfirmedEvidenced(rec.reopened, journal)
    ensures ConfirmedEvidenced(Merge(Unresolved(rec.batch, rec.verifyResults), rec.reopened), journal)
  {
    hide Evidenced, Merge;
    var left := Unresolved(rec.batch, rec.verifyResults);
    forall f | f in left && f.state == Confirmed ensures Evidenced(journal, f) {
      UnresolvedMember(rec.batch, rec.verifyResults, f);
    }
    MergeKeeps(left, rec.reopened);
  }

  lemma RecordKeepsEvidence(cfg: Config, w: World, mid: State, rec: Record, end: State)
    requires Records(cfg, w, mid, rec, end) && BatchesEvidenced(mid.entries, mid.journal)
    requires BatchEvidenced(rec.batch, mid.journal) && ConfirmedEvidenced(rec.reopened, mid.journal)
    ensures EvidenceInv(end)
  {
    hide RememberClosed, Filed, Merge, Unresolved, BatchEvidenced, ConfirmedEvidenced;
    OpenAfterEvidenced(rec, mid.journal);
  }

  lemma RoundKeepsEvidence(cfg: Config, baseline: TestResult, round: nat, w: World, st: State)
    requires EvidenceInv(st)
    ensures var r := Round(cfg, baseline, round, w, st);
      BatchesEvidenced(r.st.entries, r.st.journal) && (r.Go? ==> EvidenceInv(r.st))
  {
    hide Round, Prepare, BatchesEvidenced, BatchEvidenced, ConfirmedEvidenced, PostFix, VerifyBatch, StopAfter, Quiet, Records, Reopens;
    PreparedIsEvidenced(cfg, round, w, st);
    var r := Round(cfg, baseline, round, w, st);
    if r.Go? {
      var prepared, before, mid, rec := RoundGoes(cfg, baseline, round, w, st);
      QuietLasts(rec.batch, prepared, before, round, false, false);
      QuietLasts(rec.batch, before, mid, round, false, false);
      PostFixEvidenced(cfg, round, w, before, rec.batch != [] && !Regressed(baseline, rec.test));
      RecordKeepsEvidence(cfg, w, mid, rec, r.st);
    } else {
      RoundStops(cfg, baseline, round, w, st);
      var p := Prepare(cfg, round, w, st);
      if p.Go? {
        StoppingKeepsEvidence(cfg, p.st, r.st, round);
      }
    }
  }

  lemma StoppingKeepsEvidence(cfg: Config, a: State, b: State, round: nat)
    requires BatchesEvidenced(a.entries, a.journal) && Stopped(cfg, a, b, round)
    ensures BatchesEvidenced(b.entries, b.journal)
  {
  }

  lemma {:induction false} RoundsKeepEvidence(cfg: Config, baseline: TestResult, worlds: nat -> World, round: nat, st: State)
    requires EvidenceInv(st)
    ensures var end := RoundsFrom(cfg, baseline, worlds, round, st).st; BatchesEvidenced(end.entries, end.journal)
    decreases cfg.iterationCap + 1 - round
  {
    hide Round, BatchesEvidenced, ConfirmedEvidenced;
    if round <= cfg.iterationCap && !worlds(round).aborted(AtStart) {
      RoundKeepsEvidence(cfg, baseline, round, worlds(round), st);
      var r := Round(cfg, baseline, round, worlds(round), st);
      if r.Go? && r.value.None? {
        RoundsKeepEvidence(cfg, baseline, worlds, round + 1, r.st);
      }
    }
  }

  /** In every run, however it ends: each finding in each recorded batch was confirmed, and its id
      and command were either reported by a detector pass of this run as a confirmed finding, or run
      by the broker in this run and seen to reproduce. */
  lemma EveryFixHasEvidence(cfg: Config, setup: Setup, worlds: nat -> World, file: string)
    ensures var end := RunLoop(cfg, setup, worlds, file).st; BatchesEvidenced(end.entries, end.journal)
  {
    hide RoundsFrom;
    var first := FirstRound(cfg, file);
    if first.Some? {
      RoundsKeepEvidence(cfg, RunTests(cfg.testCommand, setup.baseline), worlds, first.value, InitialState(file));
    }
  }

  /** The same of every round a run gets to, recorded or not: what it hands to the fix agent. */
  lemma {:induction false} EveryReachedBatchHasEvidence(cfg: Config, baseline: TestResult, worlds: nat -> World,
                                                        first: nat, file: string, round: nat)
    requires first <= round && Reached(cfg, baseline, worlds, first, file, round).Some?
    ensures var st := Reached(cfg, baseline, worlds, first, file, round).value;
      var p := Prepare(cfg, round, worlds(round), st);
      EvidenceInv(st) && (p.Go? ==> BatchEvidenced(p.value.0, p.st.journal))
    decreases round
  {
    hide Round, Prepare, Evidenced;
    var st := Reached(cfg, baseline, worlds, first, file, round).value;
    if round > first {
      EveryReachedBatchHasEvidence(cfg, baseline, worlds, first, file, round - 1);
      var before := Reached(cfg, baseline, worlds, first, file, round - 1).value;
      RoundKeepsEvidence(cfg, baseline, round - 1, worlds(round - 1), before);
    }
    PreparedIsEvidenced(cfg, round, worlds(round), st);
  }

  /** The detectors of this run called nothing confirmed but crashes, as the shipped ones do. */
  ghost predicate OnlyCrashesComeConfirmed(journal: seq<Event>) {
    forall k, m :: 0 <= k < |journal| && IsScan(journal[k]) && 0 <= m < |journal[k].findings| ==>
      journal[k].findings[m].state == Confirmed ==> journal[k].findings[m].source == Fuzzer
  }

  /** This finding is in the batch that this round prepared. */
  ghost predicate InBatchOf(cfg: Config, baseline: TestResult, worlds: nat -> World, first: nat, file: string,
                            round: nat, f: Finding)
    requires first <= round
  {
    match Reached(cfg, baseline, worlds, first, file, round)
    case None => false
    case Some(st) => Prepare(cfg, round, worlds(round), st).Go? && f in Prepare(cfg, round, worlds(round), st).value.0
  }

  /** Then a scanner's or a cold hunt's finding is in the batch of any round a run gets to, recorded or
      not, only because the broker had run its command by then and seen it reproduce. */
  lemma OtherFindingsWereRun(cfg: Config, baseline: TestResult, worlds: nat -> World, first: nat, file: string,
                             round: nat, f: Finding)
    requires first <= round && InBatchOf(cfg, baseline, worlds, first, file, round, f) && f.source != Fuzzer
    requires OnlyCrashesComeConfirmed(NotedBy(cfg, baseline, worlds, first, file, round))
    ensures SeenToSurvive(NotedBy(cfg, baseline, worlds, first, file, round), f.id, f.repro)
  {
    EveryReachedBatchHasEvidence(cfg, baseline, worlds, first, file, round);
    hide Prepare, Reached, SeenToSurvive;
    assert Evidenced(NotedBy(cfg, baseline, worlds, first, file, round), f);
  }

  /** And so in every recorded batch, with the evidence from before the round's fix. */
  lemma OtherRecordedFindingsWereRun(cfg: Config, setup: Setup, worlds: nat -> World, file: string, i: nat, f: Finding)
    requires var end := RunLoop(cfg, setup, worlds, file).st;
      OnlyCrashesComeConfirmed(end.journal) && i < |end.entries| && f in end.entries[i].batch && f.source != Fuzzer
    ensures var baseline, first := RunTests(cfg.testCommand, setup.baseline), FirstOf(cfg, file);
      InBatchOf(cfg, baseline, worlds, first, file, first + i, f) &&
      SeenToSurvive(NotedBy(cfg, baseline, worlds, first, file, first + i), f.id, f.repro)
  {
    hide RunLoop, RunTests, FirstOf, Played, InBatchOf, SeenToSurvive, NotedBy;
    var baseline, first := RunTests(cfg.testCommand, setup.baseline), FirstOf(cfg, file);
    PlayedIsOnRecord(cfg, setup, worlds, file, i);
    PlayedBatch(cfg, baseline, worlds, first, file, RunLoop(cfg, setup, worlds, file).st.entries, i, f);
    FewerScans(NotedBy(cfg, baseline, worlds, first, file, first + i), RunLoop(cfg, setup, worlds, file).st.journal);
    OtherFindingsWereRun(cfg, baseline, worlds, first, file, first + i, f);
  }

  lemma PlayedBatch(cfg: Config, baseline: TestResult, worlds: nat -> World, first: nat, file: string,
                    entries: seq<Record>, i: nat, f: Finding)
    requires i < |entries| && Played(cfg, baseline, worlds, first, file, entries, i) && f in entries[i].batch
    ensures InBatchOf(cfg, baseline, worlds, first, file, first + i, f)
  {
    hide Reached, Prepare, Round;
  }

  lemma FewerScans(a: seq<Event>, b: seq<Event>)
    requires Extends(a, b) && OnlyCrashesComeConfirmed(b)
    ensures OnlyCrashesComeConfirmed(a)
  {
    assert forall k :: 0 <= k < |a| && IsScan(a[k]) ==> IsScan(b[k]) && b[k].findings == a[k].findings;
  }
}
