/** Whole runs: which rounds they play, why they stop, what they commit. */
module BrokerRuns {
  import opened Basics
  import opened Contracts
  import opened Gates
  import opened BrokerModel
  import opened BrokerLists
  import opened BrokerFrames

  // ---- what an entry says about going on ----------------------------------------------

  /** A round that neither broke the tests nor left nothing open. */
  ghost predicate GoesOn(baseline: TestResult, rec: Record) {
    !Regressed(baseline, rec.test) && rec.openAfter != []
  }

  ghost predicate EndsClean(baseline: TestResult, entries: seq<Record>) {
    |entries| > 0 && !Regressed(baseline, entries[|entries| - 1].test) && entries[|entries| - 1].openAfter == []
  }

  ghost predicate EndsRegressed(baseline: TestResult, entries: seq<Record>) {
    |entries| > 0 && Regressed(baseline, entries[|entries| - 1].test)
  }

  /** What a round leaves open is what it did not close and what came back. */
  ghost predicate LeavesOpen(rec: Record) {
    |rec.batch| == |rec.verifyResults| &&
    rec.openAfter == Merge(Unresolved(rec.batch, rec.verifyResults), rec.reopened)
  }

  ghost predicate Consecutive(entries: seq<Record>, first: nat) {
    forall i :: 0 <= i < |entries| ==> entries[i].round == first + i && LeavesOpen(entries[i])
  }

  ghost predicate AllGoOn(baseline: TestResult, entries: seq<Record>, n: int) {
    forall i :: 0 <= i < n && i < |entries| ==> GoesOn(baseline, entries[i])
  }

  ghost predicate OpenIsLast(st: State) {
    st.open == if |st.entries| == 0 then [] else st.entries[|st.entries| - 1].openAfter
  }

  ghost predicate RoundsWithin(journal: seq<Event>, first: nat, end: nat) {
    forall k :: 0 <= k < |journal| ==> first <= journal[k].round < end
  }

  /** The state at the start of `round`, in a run that began at `first`. */
  ghost predicate Started(cfg: Config, baseline: TestResult, first: nat, round: nat, st: State) {
    round == first + |st.entries| && Consecutive(st.entries, first) && AllGoOn(baseline, st.entries, |st.entries|) &&
    OpenIsLast(st) && st.commits == (if cfg.dryRun then 0 else |st.entries|) && RoundsWithin(st.journal, first, round)
  }

  // ---- one round ----------------------------------------------------------------------

  lemma QuietWithin(a: State, b: State, first: nat, round: nat, confirms: bool, analyzes: bool)
    requires Quiet(a, b, round, confirms, analyzes) && first <= round && RoundsWithin(a.journal, first, round + 1)
    ensures RoundsWithin(b.journal, first, round + 1)
  {
  }

  lemma QuietWithinStops(cfg: Config, a: State, b: State, first: nat, round: nat)
    requires Stopped(cfg, a, b, round) && first <= round && RoundsWithin(a.journal, first, round + 1)
    ensures RoundsWithin(b.journal, first, round + 1)
  {
  }

  /** A round that goes through adds one entry and, unless it is dry, one commit. */
  lemma RoundAdvances(cfg: Config, baseline: TestResult, first: nat, round: nat, w: World, st: State)
    requires Started(cfg, baseline, first, round, st) && Round(cfg, baseline, round, w, st).Go?
    ensures var Go(end, stop) := Round(cfg, baseline, round, w, st);
      |end.entries| == |st.entries| + 1 && Consecutive(end.entries, first) && OpenIsLast(end) &&
      AllGoOn(baseline, end.entries, |st.entries|) && RoundsWithin(end.journal, first, round + 1) &&
      end.commits == (if cfg.dryRun then 0 else |end.entries|) &&
      stop == StopAfter(baseline, end.entries[|st.entries|])
  {
    hide Round, Prepare, PostFix, VerifyBatch, Regressed, Reopens, Quiet, Records, StopAfter, GoesOn, RoundsWithin, LeavesOpen;
    var prepared, before, mid, rec := RoundGoes(cfg, baseline, round, w, st);
    PrepareIsQuiet(cfg, round, w, st);
    assert RoundsWithin(st.journal, first, round + 1) by { WithinMore(st.journal, first, round); }
    QuietWithin(st, prepared, first, round, true, true);
    QuietWithin(prepared, before, first, round, false, false);
    QuietWithin(before, mid, first, round, false, false);
    Recorded(cfg, w, st, prepared, before, mid, rec, Round(cfg, baseline, round, w, st).st, round);
  }

  lemma WithinMore(journal: seq<Event>, first: nat, end: nat)
    requires RoundsWithin(journal, first, end)
    ensures RoundsWithin(journal, first, end + 1)
  {
  }

  lemma Recorded(cfg: Config, w: World, st: State, prepared: State, before: State, mid: State, rec: Record,
                 end: State, round: nat)
    requires Quiet(st, prepared, round, true, true) && Quiet(prepared, before, round, false, false)
    requires Quiet(before, mid, round, false, false) && Records(cfg, w, mid, rec, end)
    ensures end.entries == st.entries + [rec] && end.open == rec.openAfter && end.journal == mid.journal
    ensures end.commits == if cfg.dryRun then st.commits else st.commits + 1
    ensures mid.file == st.file && LeavesOpen(rec)
  {
    hide RememberClosed, Filed, Merge, Unresolved;
  }

  /** A round that stops the run adds no entry; only one that fails can have committed anyway. */
  lemma RoundHalts(cfg: Config, baseline: TestResult, first: nat, round: nat, w: World, st: State)
    requires Started(cfg, baseline, first, round, st) && Round(cfg, baseline, round, w, st).Halt?
    ensures var Halt(end, why) := Round(cfg, baseline, round, w, st);
      end.entries == st.entries && end.open == st.open && end.file == st.file &&
      RoundsWithin(end.journal, first, round + 1) &&
      st.commits <= end.commits <= st.commits + (if cfg.dryRun || why == Aborted then 0 else 1)
  {
    hide Round, Prepare, RoundsWithin, Consecutive, AllGoOn, LeavesOpen;
    RoundStops(cfg, baseline, round, w, st);
    PrepareIsQuiet(cfg, round, w, st);
    var p := Prepare(cfg, round, w, st);
    WithinMore(st.journal, first, round);
    QuietWithin(st, p.st, first, round, true, true);
    if p.Go? {
      QuietWithinStops(cfg, p.st, Round(cfg, baseline, round, w, st).st, first, round);
    }
  }

  // ---- the run ------------------------------------------------------------------------

  /** What a run looks like once it is over. */
  ghost predicate Ended(cfg: Config, baseline: TestResult, first: nat, end: End) {
    var st := end.st;
    Consecutive(st.entries, first) && AllGoOn(baseline, st.entries, |st.entries| - 1) && OpenIsLast(st) &&
    RoundsWithin(st.journal, first, first + |st.entries| + 1) &&
    (if cfg.dryRun then st.commits == 0
     else if end.Returned? then st.commits == |st.entries|
     else |st.entries| <= st.commits <= |st.entries| + 1) &&
    (EndsClean(baseline, st.entries) <==> end.Returned? && end.reason == Clean) &&
    (EndsRegressed(baseline, st.entries) <==> end.Returned? && end.reason == TestRegression)
  }

  lemma StoppedEarly(cfg: Config, baseline: TestResult, first: nat, round: nat, st: State, end: End)
    requires Started(cfg, baseline, first, round, st)
    requires end.st.entries == st.entries && end.st.open == st.open
    requires RoundsWithin(end.st.journal, first, round + 1)
    requires st.commits <= end.st.commits <= st.commits + (if cfg.dryRun || end.Returned? then 0 else 1)
    requires end.Returned? ==> end.reason == ManualAbort || end.reason == IterationCap
    ensures Ended(cfg, baseline, first, end)
  {
  }

  lemma StoppedAfter(cfg: Config, baseline: TestResult, first: nat, st: State, reason: Reason)
    requires |st.entries| > 0 && Consecutive(st.entries, first) && OpenIsLast(st)
    requires AllGoOn(baseline, st.entries, |st.entries| - 1)
    requires RoundsWithin(st.journal, first, first + |st.entries|)
    requires st.commits == (if cfg.dryRun then 0 else |st.entries|)
    requires StopAfter(baseline, st.entries[|st.entries| - 1]) == Some(reason)
    ensures Ended(cfg, baseline, first, Returned(st, reason))
  {
  }

  lemma GoesOnAll(baseline: TestResult, entries: seq<Record>)
    requires |entries| > 0 && AllGoOn(baseline, entries, |entries| - 1)
    requires StopAfter(baseline, entries[|entries| - 1]) == None
    ensures AllGoOn(baseline, entries, |entries|)
  {
  }

  lemma {:induction false} RoundsEnd(cfg: Config, baseline: TestResult, worlds: nat -> World, first: nat, round: nat, st: State)
    requires Started(cfg, baseline, first, round, st)
    ensures Ended(cfg, baseline, first, RoundsFrom(cfg, baseline, worlds, round, st))
    decreases cfg.iterationCap + 1 - round
  {
    hide Round, Ended, Consecutive, RoundsWithin, AllGoOn, StopAfter;
    var end := RoundsFrom(cfg, baseline, worlds, round, st);
    WithinMore(st.journal, first, round);
    if round > cfg.iterationCap || worlds(round).aborted(AtStart) {
      StoppedEarly(cfg, baseline, first, round, st, end);
    } else {
      var r := Round(cfg, baseline, round, worlds(round), st);
      if r.Halt? {
        RoundHalts(cfg, baseline, first, round, worlds(round), st);
        StoppedEarly(cfg, baseline, first, round, st, end);
      } else {
        RoundAdvances(cfg, baseline, first, round, worlds(round), st);
        if r.value.Some? {
          StoppedAfter(cfg, baseline, first, r.st, r.value.value);
        } else {
          GoesOnAll(baseline, r.st.entries);
          RoundsEnd(cfg, baseline, worlds, first, round + 1, r.st);
        }
      }
    }
  }

  lemma {:induction false} UnresolvedEmptyIff(batch: seq<Finding>, results: seq<VerifyResult>)
    requires |batch| == |results|
    ensures Unresolved(batch, results) == [] <==> forall k :: 0 <= k < |results| ==> results[k].outcome == Closed
  {
    if batch != [] {
      UnresolvedEmptyIff(batch[1..], results[1..]);
      assert forall k :: 0 < k < |results| ==> results[k] == results[1..][k - 1];
    }
  }

  lemma MergeEmptyIff(a: seq<Finding>, b: seq<Finding>)
    ensures Merge(a, b) == [] <==> a == [] && b == []
  {
    MergeKeeps(a, b);
    hide Merge;
    if a != [] {
      assert HasId(a, a[0].id);
    }
    if b != [] {
      assert HasId(b, b[0].id);
    }
    if Merge(a, b) != [] {
      assert Merge(a, b)[0] in a || Merge(a, b)[0] in b;
    }
  }

  /** A round leaves nothing open exactly when every verify result is a closure and the passes over
      the patched source brought nothing back. */
  lemma EmptyOpenMeansClosed(rec: Record)
    requires |rec.batch| == |rec.verifyResults|
    ensures Merge(Unresolved(rec.batch, rec.verifyResults), rec.reopened) == [] <==>
      rec.reopened == [] && forall k :: 0 <= k < |rec.verifyResults| ==> rec.verifyResults[k].outcome == Closed
  {
    MergeEmptyIff(Unresolved(rec.batch, rec.verifyResults), rec.reopened);
    UnresolvedEmptyIff(rec.batch, rec.verifyResults);
  }

  // ---- the theorems -------------------------------------------------------------------

  function FirstOf(cfg: Config, file: string): nat {
    match FirstRound(cfg, file) case Some(n) => n case None => 1
  }

  lemma RunStarts(cfg: Config, baseline: TestResult, first: nat, file: string)
    ensures Started(cfg, baseline, first, first, InitialState(file))
    ensures Ended(cfg, baseline, first, Thrown(InitialState(file)))
  {
  }

  /** A git repository that builds, a ledger that can be read if it is to be resumed, a head to diff from. */
  ghost predicate Starts(cfg: Config, setup: Setup, file: string) {
    setup.isGitRepo && setup.firstBuild != BuildFailed && FirstRound(cfg, file).Some? && setup.head.Done?
  }

  /** Either the run never starts, or it is its rounds. */
  lemma RunIsRounds(cfg: Config, setup: Setup, worlds: nat -> World, file: string)
    ensures RunLoop(cfg, setup, worlds, file) ==
      if Starts(cfg, setup, file)
      then RoundsFrom(cfg, RunTests(cfg.testCommand, setup.baseline), worlds, FirstOf(cfg, file), InitialState(file))
      else Thrown(InitialState(file))
  {
  }

  lemma RunEnds(cfg: Config, setup: Setup, worlds: nat -> World, file: string)
    ensures Ended(cfg, RunTests(cfg.testCommand, setup.baseline), FirstOf(cfg, file), RunLoop(cfg, setup, worlds, file))
  {
    hide RoundsFrom, RunLoop, RunTests, InitialState, FirstOf, Ended, Started, Starts;
    var baseline, first := RunTests(cfg.testCommand, setup.baseline), FirstOf(cfg, file);
    RunIsRounds(cfg, setup, worlds, file);
    RunStarts(cfg, baseline, first, file);
    RoundsEnd(cfg, baseline, worlds, first, first, InitialState(file));
  }

  /** A run's entries are consecutive rounds from its first, every event on its record belongs to one
      of them or to the round it stopped in, and none goes past the cap. */
  lemma RoundsAreConsecutive(cfg: Config, setup: Setup, worlds: nat -> World, file: string)
    ensures var end := RunLoop(cfg, setup, worlds, file);
      var first := FirstOf(cfg, file);
      (forall i :: 0 <= i < |end.st.entries| ==> end.st.entries[i].round == first + i) &&
      RoundsWithin(end.st.journal, first, first + |end.st.entries| + 1)
  {
    RunEnds(cfg, setup, worlds, file);
  }
}
