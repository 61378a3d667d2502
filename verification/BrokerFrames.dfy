/** What each phase of a round leaves alone. */
module BrokerFrames {
  import opened Basics
  import opened Contracts
  import opened Gates
  import opened BrokerModel
  import Ledger

  ghost predicate IsConfirmEvent(e: Event) {
    e.Ruled? || (e.TurnTaken? && e.subtask.CandidateConfirmation?)
  }

  ghost predicate IsAnalysisTurn(e: Event) {
    e.TurnTaken? && e.subtask.CrashAnalysisTurn?
  }

  /** The journal only grows. */
  ghost predicate Extends(a: seq<Event>, b: seq<Event>) {
    |a| <= |b| && forall i :: 0 <= i < |a| ==> b[i] == a[i]
  }

  /** Everything noted since then belongs to this round. */
  ghost predicate Stamped(a: seq<Event>, b: seq<Event>, round: nat) {
    forall i :: |a| <= i < |b| ==> b[i].round == round
  }

  /** Nothing that outlives the round has changed yet. Only a phase that `confirms` touches the
      memory or takes confirmation turns, and only one that `analyzes` takes analysis turns. */
  ghost predicate Quiet(a: State, b: State, round: nat, confirms: bool, analyzes: bool) {
    a.open == b.open && a.entries == b.entries && a.file == b.file && a.commits == b.commits &&
    Extends(a.journal, b.journal) && Stamped(a.journal, b.journal, round) &&
    (confirms || (a.remembered == b.remembered &&
                  forall i :: |a.journal| <= i < |b.journal| ==> !IsConfirmEvent(b.journal[i]))) &&
    (analyzes || (a.analyzed == b.analyzed &&
                  forall i :: |a.journal| <= i < |b.journal| ==> !IsAnalysisTurn(b.journal[i])))
  }

  lemma QuietThen(a: State, b: State, c: State, round: nat, confirms: bool, analyzes: bool)
    requires Quiet(a, b, round, confirms, analyzes) && Quiet(b, c, round, confirms, analyzes)
    ensures Quiet(a, c, round, confirms, analyzes)
  {
  }

  lemma QuietAs(a: State, b: State, round: nat, confirms: bool, analyzes: bool)
    requires Quiet(a, b, round, confirms, false) || Quiet(a, b, round, false, analyzes) || Quiet(a, b, round, false, false)
    ensures Quiet(a, b, round, confirms, analyzes)
  {
  }

  lemma HuntIsQuiet(cfg: Config, round: nat, w: World, st: State)
    ensures Quiet(st, Hunt(cfg, round, w, st).st, round, false, false)
  {
  }

  lemma DetectIsQuiet(cfg: Config, round: nat, w: World, st: State)
    ensures Quiet(st, Detect(cfg, round, w, st).st, round, false, false)
  {
    match w.detect
    case Threw =>
    case Done(scan) =>
      var st2 := Saw(st, Detected(round, scan.findings));
      HuntIsQuiet(cfg, round, w, st2);
      hide Hunt, Merge, WithinBar;
      QuietThen(st, st2, Hunt(cfg, round, w, st2).st, round, false, false);
  }

  lemma ConfirmCandidateIsQuiet(round: nat, w: World, st: State, f: Finding)
    ensures Quiet(st, ConfirmCandidate(round, w, st, f).st, round, true, false)
    ensures ConfirmCandidate(round, w, st, f).st.remembered == st.remembered
  {
  }

  lemma ConfirmOneIsQuiet(round: nat, w: World, st: State, f: Finding)
    ensures Quiet(st, ConfirmOne(round, w, st, f).st, round, true, false)
  {
    hide VerifyOne, Lookup, Put, ConfirmCandidate;
    ConfirmCandidateIsQuiet(round, w, st, f);
  }

  lemma {:induction false} ConfirmAllIsQuiet(round: nat, w: World, st: State, fs: seq<Finding>)
    ensures Quiet(st, ConfirmAll(round, w, st, fs).st, round, true, false)
    decreases |fs|
  {
    hide ConfirmOne, Quiet;
    if fs != [] {
      ConfirmOneIsQuiet(round, w, st, fs[0]);
      var first := ConfirmOne(round, w, st, fs[0]);
      if first.Go? {
        ConfirmAllIsQuiet(round, w, first.st, fs[1..]);
        QuietThen(st, first.st, ConfirmAll(round, w, first.st, fs[1..]).st, round, true, false);
      }
    } else {
      QuietSelf(st, round, true, false);
    }
  }

  lemma QuietSelf(st: State, round: nat, confirms: bool, analyzes: bool)
    ensures Quiet(st, st, round, confirms, analyzes)
  {
  }

  lemma AnalyzeOneIsQuiet(round: nat, w: World, st: State, f: Finding)
    ensures Quiet(st, AnalyzeOne(round, w, st, f).st, round, false, true)
  {
  }

  lemma {:induction false} AnalyzeAllIsQuiet(round: nat, w: World, st: State, fs: seq<Finding>)
    ensures Quiet(st, AnalyzeAll(round, w, st, fs).st, round, false, true)
    decreases |fs|
  {
    hide AnalyzeOne, Quiet;
    if fs != [] {
      AnalyzeOneIsQuiet(round, w, st, fs[0]);
      var first := AnalyzeOne(round, w, st, fs[0]);
      if first.Go? {
        AnalyzeAllIsQuiet(round, w, first.st, fs[1..]);
        QuietThen(st, first.st, AnalyzeAll(round, w, first.st, fs[1..]).st, round, false, true);
      }
    } else {
      QuietSelf(st, round, false, true);
    }
  }

  lemma PlanIsQuiet(cfg: Config, round: nat, w: World, st: State)
    ensures Quiet(st, Plan(cfg, round, w, st).st, round, false, false)
  {
  }

  lemma MaybeFixIsQuiet(cfg: Config, round: nat, w: World, st: State, batch: seq<Finding>)
    ensures Quiet(st, MaybeFix(cfg, round, w, st, batch).st, round, false, false)
  {
    PlanIsQuiet(cfg, round, w, st);
    var planned := Plan(cfg, round, w, st).st;
    hide Plan, HasId;
    QuietThen(st, planned, Saw(planned, TurnTaken(round, FixTurn, "")), round, false, false);
  }

  lemma VerifyBatchIsQuiet(w: World, st: State, batch: seq<Finding>, fixed: bool)
    ensures VerifyBatch(w, st, batch, fixed).st == st
  {
  }

  /** Result by result, about the batch's own ids. */
  ghost predicate Matches(batch: seq<Finding>, results: seq<VerifyResult>) {
    |batch| == |results| && forall k :: 0 <= k < |batch| ==> results[k].findingId == batch[k].id
  }

  lemma VerifyMatches(w: World, st: State, batch: seq<Finding>, fixed: bool)
    ensures var r := VerifyBatch(w, st, batch, fixed); r.Go? ==> Matches(batch, r.value)
  {
    hide VerifyAll, UnverifiableAll;
  }

  lemma PostFixIsQuiet(cfg: Config, round: nat, w: World, st: State, crossCheck: bool)
    ensures Quiet(st, PostFix(cfg, round, w, st, crossCheck).st, round, false, false)
    ensures PostFix(cfg, round, w, st, crossCheck).Halt? ==> PostFix(cfg, round, w, st, crossCheck).why == Failed
  {
  }

  // ---- whole rounds -------------------------------------------------------------------

  lemma PrepareIsQuiet(cfg: Config, round: nat, w: World, st: State)
    ensures Quiet(st, Prepare(cfg, round, w, st).st, round, true, true)
  {
    hide Detect, ConfirmAll, AnalyzeAll, Quiet;
    var detected := Detect(cfg, round, w, st);
    DetectIsQuiet(cfg, round, w, st);
    QuietAs(st, detected.st, round, true, true);
    if detected.Go? {
      var confirmed := ConfirmAll(round, w, detected.st, detected.value.0);
      ConfirmAllIsQuiet(round, w, detected.st, detected.value.0);
      QuietAs(detected.st, confirmed.st, round, true, true);
      QuietThen(st, detected.st, confirmed.st, round, true, true);
      if confirmed.Go? {
        var analyzed := AnalyzeAll(round, w, confirmed.st, confirmed.value);
        AnalyzeAllIsQuiet(round, w, confirmed.st, confirmed.value);
        QuietAs(confirmed.st, analyzed.st, round, true, true);
        QuietThen(st, confirmed.st, analyzed.st, round, true, true);
      }
    }
  }

  /** The round has stopped for good somewhere after its batch was ready: nothing was recorded, and
      the commit may or may not have been made. */
  ghost predicate Stopped(cfg: Config, a: State, b: State, round: nat) {
    Quiet(a, b.(commits := a.commits, remembered := a.remembered), round, false, false) &&
    a.commits <= b.commits <= a.commits + 1 && (cfg.dryRun ==> b.commits == a.commits)
  }

  /** The entry of this round is what was appended. */
  ghost predicate Filed(cfg: Config, before: string, rec: Record, after: string) {
    var appended := Ledger.Append(cfg.rules, before, Body(cfg, rec));
    appended.Appended? && appended.contents == after
  }

  /** From `mid`, a round that verified its batch is committed and recorded as `rec`, leaving `end`. */
  ghost predicate Records(cfg: Config, w: World, mid: State, rec: Record, end: State) {
    |rec.batch| == |rec.verifyResults| &&
    rec.openAfter == Merge(Unresolved(rec.batch, rec.verifyResults), rec.reopened) &&
    rec.test == RunTests(cfg.testCommand, w.tests) &&
    Filed(cfg, mid.file, rec, end.file) &&
    rec.startedAt == w.startedAt && rec.endedAt == w.endedAt && w.git == Committed(rec.sha) &&
    var memory := RememberClosed(mid.remembered, rec.round, rec.batch, rec.verifyResults);
    rec.verdicts == Verdicts(memory) &&
    end == mid.(commits := if cfg.dryRun then mid.commits else mid.commits + 1, remembered := memory,
                file := end.file, entries := mid.entries + [rec], open := rec.openAfter)
  }

  /** The results on record are those the round's batch was verified with. */
  ghost predicate Verifies(w: World, st: State, rec: Record) {
    VerifyBatch(w, st, rec.batch, rec.batch != []) == Go(st, rec.verifyResults)
  }

  /** What the passes over the patched source may bring back. */
  ghost predicate Reopens(baseline: TestResult, mid: State, rec: Record) {
    rec.reopened != [] ==> rec.batch != [] && !Regressed(baseline, rec.test)
  }

  /** What a round without a fix turn files in its place. */
  function ReportOf(round: nat, report: Option<FixReport>): FixReport {
    match report case Some(r) => r case None => FixReport(round, Claude, [])
  }

  lemma ConcludeGoes(cfg: Config, baseline: TestResult, round: nat, w: World, st: State, batch: seq<Finding>,
                     report: Option<FixReport>, results: seq<VerifyResult>, runs: seq<DetectorRun>)
    returns (mid: State, rec: Record)
    requires |batch| == |results|
    requires Conclude(cfg, baseline, round, w, st, batch, report, results, runs).Go?
    ensures rec.round == round && rec.batch == batch && rec.verifyResults == results
    ensures rec.report == ReportOf(round, report)
    ensures rec.reopened != [] ==> report.Some? && !Regressed(baseline, rec.test)
    ensures PostFix(cfg, round, w, st, report.Some? && !Regressed(baseline, rec.test)).Go?
    ensures mid == PostFix(cfg, round, w, st, report.Some? && !Regressed(baseline, rec.test)).st
    ensures rec.reopened == PostFix(cfg, round, w, st, report.Some? && !Regressed(baseline, rec.test)).value.0
    ensures Records(cfg, w, mid, rec, Conclude(cfg, baseline, round, w, st, batch, report, results, runs).st)
    ensures Conclude(cfg, baseline, round, w, st, batch, report, results, runs).value == StopAfter(baseline, rec)
    ensures rec.runs == runs + PostFix(cfg, round, w, st, report.Some? && !Regressed(baseline, rec.test)).value.1
  {
    hide Body, Ledger.Append, Rescan, Merge, Unresolved, RememberClosed, Verdicts, RunTests, Regressed;
    var test := RunTests(cfg.testCommand, w.tests);
    var post := PostFix(cfg, round, w, st, report.Some? && !Regressed(baseline, test));
    mid := post.st;
    var memory := RememberClosed(mid.remembered, round, batch, results);
    var filed := match report case Some(r) => r case None => FixReport(round, FIX_AGENT, []);
    rec := Record(round, w.startedAt, w.endedAt, runs + post.value.1, batch, filed, results, Verdicts(memory), test,
                  w.git.sha, post.value.0, Merge(Unresolved(batch, results), post.value.0));
    var end := Conclude(cfg, baseline, round, w, st, batch, report, results, runs).st;
    assert Filed(cfg, mid.file, rec, end.file);
  }

  lemma ConcludeStops(cfg: Config, baseline: TestResult, round: nat, w: World, st: State, batch: seq<Finding>,
                      report: Option<FixReport>, results: seq<VerifyResult>, runs: seq<DetectorRun>)
    requires |batch| == |results|
    ensures var r := Conclude(cfg, baseline, round, w, st, batch, report, results, runs);
      r.Halt? ==> Stopped(cfg, st, r.st, round) && r.why == Failed
  {
    PostFixIsQuiet(cfg, round, w, st, report.Some? && !Regressed(baseline, RunTests(cfg.testCommand, w.tests)));
    hide PostFix, Body, Ledger.Append, Merge, Unresolved, RememberClosed, Verdicts, RunTests, Regressed;
  }

  lemma FixAndVerifyGoes(cfg: Config, baseline: TestResult, round: nat, w: World, st: State, batch: seq<Finding>,
                         runs: seq<DetectorRun>)
    returns (before: State, mid: State, rec: Record)
    requires FixAndVerify(cfg, baseline, round, w, st, batch, runs).Go?
    ensures Quiet(st, before, round, false, false) && Quiet(before, mid, round, false, false)
    ensures rec.round == round && rec.batch == batch && Reopens(baseline, mid, rec)
    ensures Verifies(w, before, rec)
    ensures var post := PostFix(cfg, round, w, before, batch != [] && !Regressed(baseline, rec.test));
      post.Go? && post.st == mid && post.value.0 == rec.reopened && rec.runs == runs + post.value.1
    ensures var fixing := MaybeFix(cfg, round, w, st, batch); fixing.Go? && rec.report == ReportOf(round, fixing.value)
    ensures Records(cfg, w, mid, rec, FixAndVerify(cfg, baseline, round, w, st, batch, runs).st)
    ensures FixAndVerify(cfg, baseline, round, w, st, batch, runs).value == StopAfter(baseline, rec)
  {
    hide Quiet, Conclude, PostFix, VerifyBatch, Records, Regressed, StopAfter, FixBatch;
    var fixing := MaybeFix(cfg, round, w, st, batch);
    MaybeFixIsQuiet(cfg, round, w, st, batch);
    VerifyBatchIsQuiet(w, fixing.st, batch, fixing.value.Some?);
    before := fixing.st;
    var results := VerifyBatch(w, before, batch, fixing.value.Some?).value;
    mid, rec := ConcludeGoes(cfg, baseline, round, w, before, batch, fixing.value, results, runs);
    PostFixIsQuiet(cfg, round, w, before, fixing.value.Some? && !Regressed(baseline, rec.test));
  }

  lemma FixAndVerifyStops(cfg: Config, baseline: TestResult, round: nat, w: World, st: State, batch: seq<Finding>,
                          runs: seq<DetectorRun>)
    ensures var r := FixAndVerify(cfg, baseline, round, w, st, batch, runs);
      r.Halt? ==> Stopped(cfg, st, r.st, round) && (r.why == Aborted ==> r.st.commits == st.commits)
  {
    var r := FixAndVerify(cfg, baseline, round, w, st, batch, runs);
    var fixing := MaybeFix(cfg, round, w, st, batch);
    MaybeFixIsQuiet(cfg, round, w, st, batch);
    hide Conclude, MaybeFix, VerifyBatch;
    if r.Halt? {
      if fixing.Halt? || w.aborted(AfterFix) {
        assert r.st == fixing.st;
        QuietStops(cfg, st, r.st, round);
      } else {
        var verified := VerifyBatch(w, fixing.st, batch, fixing.value.Some?);
        VerifyBatchIsQuiet(w, fixing.st, batch, fixing.value.Some?);
        if verified.Halt? || w.aborted(AfterVerify) {
          assert r.st == fixing.st;
          QuietStops(cfg, st, r.st, round);
        } else {
          ConcludeStops(cfg, baseline, round, w, fixing.st, batch, fixing.value, verified.value, runs);
          QuietThenStops(cfg, st, fixing.st, r.st, round);
        }
      }
    }
  }

  lemma QuietStops(cfg: Config, a: State, b: State, round: nat)
    requires Quiet(a, b, round, false, false)
    ensures Stopped(cfg, a, b, round)
  {
  }

  lemma QuietThenStops(cfg: Config, a: State, b: State, c: State, round: nat)
    requires Quiet(a, b, round, false, false) && Stopped(cfg, b, c, round)
    ensures Stopped(cfg, a, c, round)
  {
  }

  /** A round that goes through: its batch is prepared, worked on, verified and recorded. */
  lemma RoundGoes(cfg: Config, baseline: TestResult, round: nat, w: World, st: State)
    returns (prepared: State, before: State, mid: State, rec: Record)
    requires Round(cfg, baseline, round, w, st).Go?
    ensures var p := Prepare(cfg, round, w, st); p.Go? && p.st == prepared && p.value.0 == rec.batch
    ensures Quiet(prepared, before, round, false, false) && Quiet(before, mid, round, false, false)
    ensures rec.round == round && Reopens(baseline, mid, rec)
    ensures Verifies(w, before, rec)
    ensures var post := PostFix(cfg, round, w, before, rec.batch != [] && !Regressed(baseline, rec.test));
      post.Go? && post.st == mid && post.value.0 == rec.reopened &&
      rec.runs == Prepare(cfg, round, w, st).value.1 + post.value.1
    ensures var fixing := MaybeFix(cfg, round, w, prepared, rec.batch); fixing.Go? && rec.report == ReportOf(round, fixing.value)
    ensures Records(cfg, w, mid, rec, Round(cfg, baseline, round, w, st).st)
    ensures Round(cfg, baseline, round, w, st).value == StopAfter(baseline, rec)
  {
    hide FixAndVerify, Prepare, Quiet, PostFix, VerifyBatch, Records, Regressed, StopAfter, Reopens;
    var p := Prepare(cfg, round, w, st);
    prepared := p.st;
    before, mid, rec := FixAndVerifyGoes(cfg, baseline, round, w, p.st, p.value.0, p.value.1);
  }

  /** A round that stops the run has recorded nothing. */
  lemma RoundStops(cfg: Config, baseline: TestResult, round: nat, w: World, st: State)
    ensures var r := Round(cfg, baseline, round, w, st); r.Halt? ==>
      var p := Prepare(cfg, round, w, st);
      if p.Halt? then r == Halt(p.st, p.why)
      else Stopped(cfg, p.st, r.st, round) && (r.why == Aborted ==> r.st.commits == p.st.commits)
  {
    hide FixAndVerify, Prepare, Stopped, Quiet;
    PrepareIsQuiet(cfg, round, w, st);
    var p := Prepare(cfg, round, w, st);
    if p.Go? {
      FixAndVerifyStops(cfg, baseline, round, w, p.st, p.value.0, p.value.1);
    }
  }
}
