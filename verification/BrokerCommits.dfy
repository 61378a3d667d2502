/** Which commits have no entry. The commit comes before the entry, so a round that stops between the
    two leaves a commit behind that no entry attests. */
module BrokerCommits {
  import opened Basics
  import opened JsonText
  import opened Contracts
  import opened Gates
  import opened BrokerModel
  import opened BrokerFrames
  import opened BrokerAborts
  import opened BrokerRuns
  import opened BrokerStops
  import Ledger

  // ---- one round ----------------------------------------------------------------------

  /** Whether the passes over the patched source are wanted. */
  predicate WantsCheck(cfg: Config, baseline: TestResult, w: World, report: Option<FixReport>) {
    report.Some? && !Regressed(baseline, RunTests(cfg.testCommand, w.tests))
  }

  /** The round gets all the way to its commit: its batch was verified, no look saw the signal, and the
      passes over the patched source came back. */
  ghost predicate GetsToCommit(cfg: Config, baseline: TestResult, round: nat, w: World, st: State) {
    GetsTo(cfg, round, w, st, AfterVerify) && !w.aborted(AfterVerify) &&
    var fixing := Fixing(cfg, round, w, st);
    PostFix(cfg, round, w, fixing.st, WantsCheck(cfg, baseline, w, fixing.value)).Go?
  }

  ghost function Fixing(cfg: Config, round: nat, w: World, st: State): Flow<Option<FixReport>>
    requires Prepare(cfg, round, w, st).Go?
  {
    var p := Prepare(cfg, round, w, st);
    MaybeFix(cfg, round, w, p.st, p.value.0)
  }

  /** The body such a round hands to the ledger, once git has answered with this sha. */
  ghost function Written(cfg: Config, baseline: TestResult, round: nat, w: World, st: State, sha: string): Fields
    requires GetsToCommit(cfg, baseline, round, w, st)
  {
    var p := Prepare(cfg, round, w, st);
    var fixing := Fixing(cfg, round, w, st);
    var results := VerifyBatch(w, fixing.st, p.value.0, fixing.value.Some?).value;
    ConcludedBody(cfg, baseline, round, w, fixing.st, p.value.0, fixing.value, results, p.value.1, sha)
  }

  ghost function ConcludedBody(cfg: Config, baseline: TestResult, round: nat, w: World, st: State, batch: seq<Finding>,
                               report: Option<FixReport>, results: seq<VerifyResult>, runs: seq<DetectorRun>, sha: string)
    : Fields
    requires |batch| == |results| && PostFix(cfg, round, w, st, WantsCheck(cfg, baseline, w, report)).Go?
  {
    var post := PostFix(cfg, round, w, st, WantsCheck(cfg, baseline, w, report));
    var memory := RememberClosed(post.st.remembered, round, batch, results);
    var filed := match report case Some(r) => r case None => FixReport(round, FIX_AGENT, []);
    Body(cfg, Record(round, w.startedAt, w.endedAt, runs + post.value.1, batch, filed, results, Verdicts(memory),
                     RunTests(cfg.testCommand, w.tests), sha, post.value.0,
                     Merge(Unresolved(batch, results), post.value.0)))
  }

  lemma WrittenIsBody(cfg: Config, baseline: TestResult, round: nat, w: World, st: State, sha: string)
    returns (rec: Record)
    requires GetsToCommit(cfg, baseline, round, w, st)
    ensures rec.round == round && Written(cfg, baseline, round, w, st, sha) == Body(cfg, rec)
  {
    hide Prepare, MaybeFix, VerifyBatch, PostFix, Body, Merge, Unresolved, RememberClosed, Verdicts, RunTests, WantsCheck;
    var p := Prepare(cfg, round, w, st);
    var fixing := Fixing(cfg, round, w, st);
    var results := VerifyBatch(w, fixing.st, p.value.0, fixing.value.Some?).value;
    var post := PostFix(cfg, round, w, fixing.st, WantsCheck(cfg, baseline, w, fixing.value));
    var memory := RememberClosed(post.st.remembered, round, p.value.0, results);
    var filed := match fixing.value case Some(r) => r case None => FixReport(round, FIX_AGENT, []);
    rec := Record(round, w.startedAt, w.endedAt, p.value.1 + post.value.1, p.value.0, filed, results, Verdicts(memory),
                  RunTests(cfg.testCommand, w.tests), sha, post.value.0,
                  Merge(Unresolved(p.value.0, results), post.value.0));
  }

  /** The commit is made and nothing will attest it: its sha cannot be read back, or the ledger does not
      take the entry. */
  ghost predicate LosesCommit(cfg: Config, baseline: TestResult, round: nat, w: World, st: State) {
    !cfg.dryRun && GetsToCommit(cfg, baseline, round, w, st) &&
    match w.git
    case NotCommitted => false
    case CommittedUnread => true
    case Committed(sha) => Ledger.Append(cfg.rules, st.file, Written(cfg, baseline, round, w, st, sha)).LedgerError?
  }

  lemma ConcludeCommits(cfg: Config, baseline: TestResult, round: nat, w: World, st: State, batch: seq<Finding>,
                        report: Option<FixReport>, results: seq<VerifyResult>, runs: seq<DetectorRun>)
    requires |batch| == |results|
    ensures var r := Conclude(cfg, baseline, round, w, st, batch, report, results, runs);
      var post := PostFix(cfg, round, w, st, WantsCheck(cfg, baseline, w, report));
      r.st.commits == st.commits + (if !cfg.dryRun && post.Go? && !w.git.NotCommitted? then 1 else 0) &&
      (r.Go? <==>
        post.Go? && w.git.Committed? &&
        var body := ConcludedBody(cfg, baseline, round, w, st, batch, report, results, runs, w.git.sha);
        Ledger.Append(cfg.rules, st.file, body).Appended?)
  {
    PostFixIsQuiet(cfg, round, w, st, WantsCheck(cfg, baseline, w, report));
    hide PostFix, Body, Ledger.Append, Merge, Unresolved, RememberClosed, Verdicts, RunTests, Regressed;
  }

  /** A round that is not dry makes its commit exactly when it gets that far and git makes one, and goes
      through exactly when the sha is read and the ledger takes the entry as well. */
  lemma RoundCommitsIff(cfg: Config, baseline: TestResult, round: nat, w: World, st: State)
    ensures var r := Round(cfg, baseline, round, w, st);
      var gets := GetsToCommit(cfg, baseline, round, w, st);
      r.st.commits == st.commits + (if !cfg.dryRun && gets && !w.git.NotCommitted? then 1 else 0) &&
      (r.Go? <==>
        gets && w.git.Committed? &&
        Ledger.Append(cfg.rules, st.file, Written(cfg, baseline, round, w, st, w.git.sha)).Appended?)
  {
    hide Prepare, MaybeFix, VerifyBatch, Conclude, PostFix, ConcludedBody, Ledger.Append, Detect, WantsCheck;
    PrepareIsQuiet(cfg, round, w, st);
    var p := Prepare(cfg, round, w, st);
    if p.Go? {
      var fixing := MaybeFix(cfg, round, w, p.st, p.value.0);
      MaybeFixIsQuiet(cfg, round, w, p.st, p.value.0);
      if fixing.Go? {
        var verified := VerifyBatch(w, fixing.st, p.value.0, fixing.value.Some?);
        VerifyBatchIsQuiet(w, fixing.st, p.value.0, fixing.value.Some?);
        if verified.Go? {
          ConcludeCommits(cfg, baseline, round, w, fixing.st, p.value.0, fixing.value, verified.value, p.value.1);
        }
      }
    }
  }

  /** A round that stops has committed exactly when it lost its commit. */
  lemma HaltCommits(cfg: Config, baseline: TestResult, round: nat, w: World, st: State)
    ensures var r := Round(cfg, baseline, round, w, st);
      (LosesCommit(cfg, baseline, round, w, st) ==> r.Halt?) &&
      (r.Halt? ==> r.st.commits == st.commits + (if LosesCommit(cfg, baseline, round, w, st) then 1 else 0))
  {
    hide Round, GetsToCommit, Written, Ledger.Append;
    RoundCommitsIff(cfg, baseline, round, w, st);
  }

  // ---- the run ------------------------------------------------------------------------

  /** The round after `n` entries was begun and lost its commit. */
  ghost predicate RoundLoses(cfg: Config, baseline: TestResult, worlds: nat -> World, first: nat, file: string, n: nat) {
    var reached := Reached(cfg, baseline, worlds, first, file, first + n);
    reached.Some? && first + n <= cfg.iterationCap && !worlds(first + n).aborted(AtStart) &&
    LosesCommit(cfg, baseline, first + n, worlds(first + n), reached.value)
  }

  ghost predicate EndsWithLoss(cfg: Config, setup: Setup, worlds: nat -> World, file: string, n: nat) {
    Starts(cfg, setup, file) &&
    RoundLoses(cfg, RunTests(cfg.testCommand, setup.baseline), worlds, FirstOf(cfg, file), file, n)
  }

  lemma StopCommits(cfg: Config, baseline: TestResult, worlds: nat -> World, first: nat, file: string, end: End)
    requires StopsWhere(cfg, baseline, worlds, first, file, end) && Ended(cfg, baseline, first, end)
    ensures var n := |end.st.entries|;
      var lost := RoundLoses(cfg, baseline, worlds, first, file, n);
      end.st.commits == (if cfg.dryRun then 0 else if lost then n + 1 else n) && (lost ==> end.Thrown?)
  {
    hide Reached, Round, LosesCommit, Consecutive, RoundsWithin, AllGoOn, OpenIsLast, EndsClean, EndsRegressed;
    var round := first + |end.st.entries|;
    var reached := Reached(cfg, baseline, worlds, first, file, round);
    if reached.Some? {
      ReachedIsStarted(cfg, baseline, worlds, first, file, round);
      HaltCommits(cfg, baseline, round, worlds(round), reached.value);
    }
    if RoundLoses(cfg, baseline, worlds, first, file, |end.st.entries|) {
      LossIsNotDry(cfg, baseline, round, worlds(round), reached.value);
    }
  }

  lemma LossIsNotDry(cfg: Config, baseline: TestResult, round: nat, w: World, st: State)
    requires LosesCommit(cfg, baseline, round, w, st)
    ensures !cfg.dryRun
  {
  }

  /** A dry run commits nothing. Any other run makes one commit for each entry it records, and one more
      exactly when the round it stopped in lost its commit: that round was not aborted, got all the way
      to the commit, git made it, and either its sha could not be read or the ledger refused the entry.
      Then the run throws. */
  lemma CommitsMatchEntries(cfg: Config, setup: Setup, worlds: nat -> World, file: string)
    ensures var end := RunLoop(cfg, setup, worlds, file);
      var n := |end.st.entries|;
      end.st.commits ==
        (if cfg.dryRun then 0 else if EndsWithLoss(cfg, setup, worlds, file, n) then n + 1 else n) &&
      (EndsWithLoss(cfg, setup, worlds, file, n) ==> end.Thrown?)
  {
    hide RunLoop, RunTests, FirstOf, Starts, StopsWhere, AllPlayed, RoundsFrom, RoundLoses, Ended;
    RunIsRounds(cfg, setup, worlds, file);
    if Starts(cfg, setup, file) {
      RunEnds(cfg, setup, worlds, file);
      RecordedRoundsAreReached(cfg, setup, worlds, file);
      StopCommits(cfg, RunTests(cfg.testCommand, setup.baseline), worlds, FirstOf(cfg, file), file,
                  RunLoop(cfg, setup, worlds, file));
    }
  }
}
