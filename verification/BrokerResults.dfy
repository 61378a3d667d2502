/** What a recorded round says, held against what the round met. */
module BrokerResults {
  import opened Basics
  import opened Contracts
  import opened Gates
  import opened BrokerModel
  import opened BrokerLists
  import opened BrokerFrames
  import opened BrokerBatches
  import opened BrokerAdmission
  import opened BrokerProgress
  import opened BrokerRuns
  import opened BrokerStops

  // ---- VERIFY -------------------------------------------------------------------------

  /** Each result is about the batch finding in its place. When the build failed after a fix, nothing is
      judged: every result is inconclusive, and all of the batch stays open. Otherwise each is the judgment
      on that finding's own run. */
  ghost predicate VerifiedRight(w: World, rec: Record) {
    |rec.verifyResults| == |rec.batch| &&
    if rec.batch != [] && w.build == BuildFailed then
      forall k :: 0 <= k < |rec.batch| ==>
        rec.verifyResults[k].findingId == rec.batch[k].id && rec.verifyResults[k].outcome == Inconclusive &&
        rec.verifyResults[k].note.Some? && rec.batch[k] in rec.openAfter
    else
      w.scopeOk &&
      forall k :: 0 <= k < |rec.batch| ==> Judges(rec.verifyResults[k], rec.batch[k], w.verify(rec.batch[k].id))
  }

  /** A batch finding stays open exactly when its result is anything but a closure, and with it whatever
      was reopened. */
  ghost predicate LeftOpen(rec: Record) {
    |rec.verifyResults| == |rec.batch| &&
    (forall k :: 0 <= k < |rec.batch| && rec.verifyResults[k].outcome != Closed ==> rec.batch[k] in rec.openAfter) &&
    (forall id :: HasId(rec.openAfter, id) <==>
      HasId(rec.reopened, id) ||
      exists k :: 0 <= k < |rec.batch| && rec.batch[k].id == id && rec.verifyResults[k].outcome != Closed)
  }

  // ---- the passes after a fix ---------------------------------------------------------

  /** They are made when something was fixed and the tests that passed at baseline still pass. */
  ghost predicate Rechecked(baseline: TestResult, rec: Record) {
    rec.batch != [] && !(baseline.status == Pass && rec.test.status == Fail)
  }

  ghost predicate MeetsBarIn(fs: seq<Finding>, id: string, bar: Severity) {
    exists i :: 0 <= i < |fs| && fs[i].id == id && MeetsBar(fs[i].severity, bar)
  }

  /** What came back, and what the detectors report of it all. */
  ghost predicate ReopenedRight(cfg: Config, baseline: TestResult, w: World, memory: Memory, rec: Record) {
    w.detect.Done? &&
    if !Rechecked(baseline, rec) then rec.reopened == [] && rec.runs == w.detect.value.runs
    else
      w.refuzz.Done? &&
      match w.rescan
      case None => rec.reopened == w.refuzz.value.findings && rec.runs == w.detect.value.runs + w.refuzz.value.runs
      case Some(again) =>
        again.Done? && rec.runs == w.detect.value.runs + (w.refuzz.value.runs + again.value.runs) &&
        (forall id :: HasId(rec.reopened, id) <==>
          HasId(w.refuzz.value.findings, id) ||
          (!IsDismissed(memory, id) && MeetsBarIn(again.value.findings, id, cfg.severityBar))) &&
        (forall f :: f in rec.reopened ==> f in w.refuzz.value.findings || f in again.value.findings)
  }

  // ---- the rest of the record ---------------------------------------------------------

  /** The report that was taken, the commit that was made, and when it all was. */
  ghost predicate FiledRight(w: World, rec: Record) {
    rec.startedAt == w.startedAt && rec.endedAt == w.endedAt && w.git == Committed(rec.sha) &&
    if rec.batch == [] then rec.report == FixReport(rec.round, Claude, [])
    else
      w.fix == Answered(rec.report) && rec.report.round == rec.round && rec.report.agent == Claude &&
      forall fix :: fix in rec.report.fixes ==> HasId(rec.batch, fix.findingId)
  }

  /** Every closure is remembered with its command and its round, and nothing else has changed. */
  ghost predicate RemembersRight(memory: Memory, rec: Record, after: Memory) {
    |rec.verifyResults| == |rec.batch| && rec.verdicts == Verdicts(after) &&
    (forall k :: 0 <= k < |rec.batch| && rec.verifyResults[k].outcome == Closed ==>
      Lookup(after, rec.batch[k].id) ==
        Some(FindingVerdict(rec.batch[k].id, VerdictClosed, Some(rec.batch[k].repro), rec.round))) &&
    (forall id :: (forall k :: 0 <= k < |rec.batch| && rec.verifyResults[k].outcome == Closed ==> rec.batch[k].id != id) ==>
      Lookup(after, id) == Lookup(memory, id))
  }

  ghost predicate RecordIsTrue(cfg: Config, baseline: TestResult, w: World, memory: Memory, rec: Record, after: Memory) {
    VerifiedRight(w, rec) && LeftOpen(rec) && Reports(rec.test, cfg.testCommand, w.tests) &&
    ReopenedRight(cfg, baseline, w, memory, rec) && FiledRight(w, rec) && RemembersRight(memory, rec, after)
  }

  // ---- one round ----------------------------------------------------------------------

  lemma LeavesRight(rec: Record)
    requires |rec.batch| == |rec.verifyResults| && UniqueIds(rec.batch) && LeavesOpen(rec)
    ensures LeftOpen(rec)
  {
    hide Merge;
    var left := Unresolved(rec.batch, rec.verifyResults);
    UnresolvedUnique(rec.batch, rec.verifyResults);
    MergeKeeps(left, rec.reopened);
    forall k | 0 <= k < |rec.batch| && rec.verifyResults[k].outcome != Closed ensures rec.batch[k] in rec.openAfter {
      UnresolvedMember(rec.batch, rec.verifyResults, rec.batch[k]);
    }
    forall id
      ensures HasId(left, id) <==> exists k :: 0 <= k < |rec.batch| && rec.batch[k].id == id && rec.verifyResults[k].outcome != Closed
    {
      UnresolvedIds(rec.batch, rec.verifyResults, id);
    }
  }

  lemma UnresolvedIds(batch: seq<Finding>, results: seq<VerifyResult>, id: string)
    requires |batch| == |results|
    ensures HasId(Unresolved(batch, results), id) <==>
      exists k :: 0 <= k < |batch| && batch[k].id == id && results[k].outcome != Closed
  {
    var left := Unresolved(batch, results);
    if i :| 0 <= i < |left| && left[i].id == id {
      UnresolvedMember(batch, results, left[i]);
    }
    if k :| 0 <= k < |batch| && batch[k].id == id && results[k].outcome != Closed {
      UnresolvedMember(batch, results, batch[k]);
    }
  }

  lemma ResultsAreRight(w: World, st: State, rec: Record)
    requires Verifies(w, st, rec) && LeftOpen(rec)
    ensures VerifiedRight(w, rec)
  {
    hide LeftOpen, Judges;
    if !(rec.batch != [] && w.build == BuildFailed) {
      forall k | 0 <= k < |rec.batch| ensures Judges(rec.verifyResults[k], rec.batch[k], w.verify(rec.batch[k].id)) {
        OneIsJudged(rec.batch[k], w.verify(rec.batch[k].id));
      }
    } else {
      InconclusiveStays(rec);
    }
  }

  lemma OneIsJudged(f: Finding, run: ReproRun)
    ensures Judges(VerifyOne(f, run), f, run)
  {
  }

  lemma InconclusiveStays(rec: Record)
    requires LeftOpen(rec)
    ensures forall k :: 0 <= k < |rec.batch| && rec.verifyResults[k].outcome != Closed ==> rec.batch[k] in rec.openAfter
  {
  }

  lemma {:induction false} RememberedRight(memory: Memory, round: nat, batch: seq<Finding>, results: seq<VerifyResult>, id: string)
    requires |batch| == |results| && UniqueIds(batch)
    ensures var after := RememberClosed(memory, round, batch, results);
      (forall k :: 0 <= k < |batch| && batch[k].id == id && results[k].outcome == Closed ==>
        Lookup(after, id) == Some(FindingVerdict(id, VerdictClosed, Some(batch[k].repro), round))) &&
      ((forall k :: 0 <= k < |batch| && results[k].outcome == Closed ==> batch[k].id != id) ==>
        Lookup(after, id) == Lookup(memory, id))
    decreases |batch|
  {
    hide Lookup, Put;
    if batch != [] {
      var v := FindingVerdict(batch[0].id, VerdictClosed, Some(batch[0].repro), round);
      var next := if results[0].outcome == Closed then Put(memory, batch[0].id, v) else memory;
      LookupPut(memory, batch[0].id, v, id);
      RememberedRight(next, round, batch[1..], results[1..], id);
      assert forall k :: 0 < k < |batch| ==> batch[k] == batch[1..][k - 1] && results[k] == results[1..][k - 1];
    }
  }

  lemma RemembersAll(memory: Memory, rec: Record, after: Memory)
    requires |rec.batch| == |rec.verifyResults| && UniqueIds(rec.batch)
    requires after == RememberClosed(memory, rec.round, rec.batch, rec.verifyResults) && rec.verdicts == Verdicts(after)
    ensures RemembersRight(memory, rec, after)
  {
    hide Lookup, Verdicts, RememberClosed;
    forall k | 0 <= k < |rec.batch| && rec.verifyResults[k].outcome == Closed
      ensures Lookup(after, rec.batch[k].id) ==
        Some(FindingVerdict(rec.batch[k].id, VerdictClosed, Some(rec.batch[k].repro), rec.round))
    {
      RememberedRight(memory, rec.round, rec.batch, rec.verifyResults, rec.batch[k].id);
    }
    forall id | forall k :: 0 <= k < |rec.batch| && rec.verifyResults[k].outcome == Closed ==> rec.batch[k].id != id
      ensures Lookup(after, id) == Lookup(memory, id)
    {
      RememberedRight(memory, rec.round, rec.batch, rec.verifyResults, id);
    }
  }

  lemma BarIds(fs: seq<Finding>, bar: Severity, id: string)
    ensures HasId(WithinBar(fs, bar), id) <==> MeetsBarIn(fs, id, bar)
  {
    var within := WithinBar(fs, bar);
    if i :| 0 <= i < |within| && within[i].id == id {
      WithinBarMember(fs, bar, within[i]);
    }
    if i :| 0 <= i < |fs| && fs[i].id == id && MeetsBar(fs[i].severity, bar) {
      WithinBarMember(fs, bar, fs[i]);
    }
  }

  /** What the passes bring back, and the runs they report. */
  lemma RescanIsRight(cfg: Config, round: nat, w: World, st: State)
    requires PostFix(cfg, round, w, st, true).Go?
    ensures var (again, runs) := PostFix(cfg, round, w, st, true).value;
      w.refuzz.Done? &&
      match w.rescan
      case None => again == w.refuzz.value.findings && runs == w.refuzz.value.runs
      case Some(scan) =>
        scan.Done? && runs == w.refuzz.value.runs + scan.value.runs &&
        (forall id :: HasId(again, id) <==>
          HasId(w.refuzz.value.findings, id) ||
          (!IsDismissed(st.remembered, id) && MeetsBarIn(scan.value.findings, id, cfg.severityBar))) &&
        (forall f :: f in again ==> f in w.refuzz.value.findings || f in scan.value.findings)
  {
    hide Merge, WithinBar, WithoutDismissed, IsDismissed, MeetsBarIn;
    if w.rescan.Some? {
      var scan := w.rescan.value.value;
      var within := WithinBar(scan.findings, cfg.severityBar);
      var unseen := WithoutDismissed(st.remembered, within);
      MergeKeeps(w.refuzz.value.findings, unseen);
      forall f | f in unseen ensures f in scan.findings {
        WithoutDismissedMember(st.remembered, within, f);
        WithinBarMember(scan.findings, cfg.severityBar, f);
      }
      forall id ensures HasId(PostFix(cfg, round, w, st, true).value.0, id) <==>
        HasId(w.refuzz.value.findings, id) ||
        (!IsDismissed(st.remembered, id) && MeetsBarIn(scan.findings, id, cfg.severityBar))
      {
        ReopenedIff(cfg, round, w, st, id);
        BarIds(scan.findings, cfg.severityBar, id);
      }
    }
  }

  /** The runs on record: those of the detectors and then those of the passes after the fix. */
  lemma RoundRecords(cfg: Config, baseline: TestResult, round: nat, w: World, st: State)
    returns (prepared: State, rec: Record)
    requires Round(cfg, baseline, round, w, st).Go?
    ensures var r := Round(cfg, baseline, round, w, st);
      prepared == Prepare(cfg, round, w, st).st && r.st.entries == st.entries + [rec] &&
      RecordIsTrue(cfg, baseline, w, prepared.remembered, rec, r.st.remembered)
  {
    hide Round, Prepare, PostFix, VerifyBatch, StopAfter, Quiet, Reopens, Records, LeftOpen, RememberClosed, Merge, Unresolved,
      Verdicts, RunTests, Verifies;
    PrepareIsQuiet(cfg, round, w, st);
    BatchIsSettled(cfg, round, w, st);
    var before, mid;
    prepared, before, mid, rec := RoundGoes(cfg, baseline, round, w, st);
    var end := Round(cfg, baseline, round, w, st).st;
    Recorded(cfg, w, st, prepared, before, mid, rec, end, round);
    RecordsAre(cfg, w, mid, rec, end);
    LeavesRight(rec);
    ResultsAreRight(w, before, rec);
    TestsAreRight(cfg.testCommand, w.tests);
    SameMemory(prepared, before, mid, round);
    RemembersAll(mid.remembered, rec, end.remembered);
    FixGoesIff(cfg, round, w, prepared, rec.batch);
    DetectedRuns(cfg, round, w, st);
    var wanted := rec.batch != [] && !Regressed(baseline, rec.test);
    WantedIsRechecked(baseline, rec);
    if wanted {
      RescanIsRight(cfg, round, w, before);
    }
    NotWanted(cfg, round, w, before);
  }

  lemma DetectedRuns(cfg: Config, round: nat, w: World, st: State)
    requires Prepare(cfg, round, w, st).Go?
    ensures w.detect.Done? && Prepare(cfg, round, w, st).value.1 == w.detect.value.runs
  {
    hide ConfirmAll, AnalyzeAll, Hunt, Merge, WithinBar;
  }

  lemma RecordsAre(cfg: Config, w: World, mid: State, rec: Record, end: State)
    requires Records(cfg, w, mid, rec, end)
    ensures |rec.batch| == |rec.verifyResults| && LeavesOpen(rec) && rec.test == RunTests(cfg.testCommand, w.tests)
    ensures rec.startedAt == w.startedAt && rec.endedAt == w.endedAt && w.git == Committed(rec.sha)
    ensures end.remembered == RememberClosed(mid.remembered, rec.round, rec.batch, rec.verifyResults)
    ensures rec.verdicts == Verdicts(end.remembered)
  {
    hide Filed;
  }

  lemma TestsAreRight(command: string, result: ToolResult)
    ensures Reports(RunTests(command, result), command, result)
  {
  }

  lemma SameMemory(prepared: State, before: State, mid: State, round: nat)
    requires Quiet(prepared, before, round, false, false) && Quiet(before, mid, round, false, false)
    ensures before.remembered == prepared.remembered && mid.remembered == prepared.remembered
  {
  }

  lemma WantedIsRechecked(baseline: TestResult, rec: Record)
    ensures Rechecked(baseline, rec) <==> rec.batch != [] && !Regressed(baseline, rec.test)
  {
  }

  lemma NotWanted(cfg: Config, round: nat, w: World, st: State)
    ensures PostFix(cfg, round, w, st, false) == Go(st, ([], []))
  {
  }

  // ---- every recorded round -----------------------------------------------------------

  /** The memory a round had when its batch was ready, and when it was over. */
  ghost predicate RoundIsTrue(cfg: Config, baseline: TestResult, worlds: nat -> World, first: nat, file: string,
                              entries: seq<Record>, i: nat)
    requires i < |entries|
  {
    var round := first + i;
    match Reached(cfg, baseline, worlds, first, file, round)
    case None => false
    case Some(st) =>
      entries[i].round == round &&
      RecordIsTrue(cfg, baseline, worlds(round), Prepare(cfg, round, worlds(round), st).st.remembered, entries[i],
                   Round(cfg, baseline, round, worlds(round), st).st.remembered)
  }

  lemma PlayedIsTrue(cfg: Config, baseline: TestResult, worlds: nat -> World, first: nat, file: string,
                     entries: seq<Record>, i: nat)
    requires i < |entries| && Played(cfg, baseline, worlds, first, file, entries, i) && entries[i].round == first + i
    ensures RoundIsTrue(cfg, baseline, worlds, first, file, entries, i)
  {
    hide Round, Prepare, Reached, RecordIsTrue;
    var round := first + i;
    var st := Reached(cfg, baseline, worlds, first, file, round).value;
    var prepared, rec := RoundRecords(cfg, baseline, round, worlds(round), st);
    assert (entries[..i] + [rec])[i] == rec && entries[..i + 1][i] == entries[i];
  }

  /** Everything on the record of a run is true of what the run met. */
  lemma EveryRecordIsTrue(cfg: Config, setup: Setup, worlds: nat -> World, file: string, i: nat)
    requires i < |RunLoop(cfg, setup, worlds, file).st.entries|
    ensures RoundIsTrue(cfg, RunTests(cfg.testCommand, setup.baseline), worlds, FirstOf(cfg, file), file,
                        RunLoop(cfg, setup, worlds, file).st.entries, i)
  {
    hide RunLoop, RunTests, FirstOf, Played, RoundIsTrue, NotedBy, Extends;
    PlayedIsOnRecord(cfg, setup, worlds, file, i);
    RoundsAreConsecutive(cfg, setup, worlds, file);
    PlayedIsTrue(cfg, RunTests(cfg.testCommand, setup.baseline), worlds, FirstOf(cfg, file), file,
                 RunLoop(cfg, setup, worlds, file).st.entries, i);
  }

  /** A run never ends clean on a build that failed: the last round fixed nothing, or its fix built. */
  lemma CleanNeedsABuild(cfg: Config, setup: Setup, worlds: nat -> World, file: string)
    requires Gives(RunLoop(cfg, setup, worlds, file), Clean)
    ensures var end := RunLoop(cfg, setup, worlds, file);
      |end.st.entries| > 0 &&
      var last := end.st.entries[|end.st.entries| - 1];
      last.batch == [] || worlds(last.round).build != BuildFailed
  {
    hide RunLoop, RunTests, FirstOf, Starts, TellsWhy, AllGoOn, RoundIsTrue, FinishedClean, BrokeTheTests, VerifiedRight;
    var baseline := RunTests(cfg.testCommand, setup.baseline);
    var es := RunLoop(cfg, setup, worlds, file).st.entries;
    StopReasonIsTrue(cfg, setup, worlds, file);
    assert |es| > 0 by { FinishedHasLast(baseline, es); }
    EveryRecordIsTrue(cfg, setup, worlds, file, |es| - 1);
    RoundIsVerified(cfg, baseline, worlds, FirstOf(cfg, file), file, es, |es| - 1);
    CleanIsBuilt(baseline, es, worlds(es[|es| - 1].round));
  }

  lemma FinishedHasLast(baseline: TestResult, es: seq<Record>)
    requires FinishedClean(baseline, es)
    ensures |es| > 0
  {
  }

  lemma RoundIsVerified(cfg: Config, baseline: TestResult, worlds: nat -> World, first: nat, file: string,
                        entries: seq<Record>, i: nat)
    requires i < |entries| && RoundIsTrue(cfg, baseline, worlds, first, file, entries, i)
    ensures VerifiedRight(worlds(entries[i].round), entries[i])
  {
    hide Reached, Prepare, Round, VerifiedRight, LeftOpen, Reports, ReopenedRight, FiledRight, RemembersRight;
  }

  lemma CleanIsBuilt(baseline: TestResult, es: seq<Record>, w: World)
    requires FinishedClean(baseline, es) && VerifiedRight(w, es[|es| - 1])
    ensures es[|es| - 1].batch == [] || w.build != BuildFailed
  {
    hide Judges;
    if Last(es).batch != [] {
      assert Last(es).verifyResults[0].outcome == Closed;
    }
  }
}
