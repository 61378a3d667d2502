/** Where a run stops, and why: the states its rounds start in, the round it stops in, and the truth
    of the reason it gives. */
module BrokerStops {
  import opened Basics
  import opened Contracts
  import opened Gates
  import opened BrokerModel
  import opened BrokerFrames
  import opened BrokerAborts
  import opened BrokerRuns

  // ---- the rounds a run gets to -------------------------------------------------------

  /** Entry `i` is a round this run got to: it started with the entries before it, and its batch is
      the one the round prepared. */
  ghost predicate Played(cfg: Config, baseline: TestResult, worlds: nat -> World, first: nat, file: string,
                         entries: seq<Record>, i: nat)
    requires i < |entries|
  {
    var round := first + i;
    var reached := Reached(cfg, baseline, worlds, first, file, round);
    round <= cfg.iterationCap && !worlds(round).aborted(AtStart) &&
    reached.Some? && reached.value.entries == entries[..i] &&
    var p := Prepare(cfg, round, worlds(round), reached.value);
    var r := Round(cfg, baseline, round, worlds(round), reached.value);
    p.Go? && p.value.0 == entries[i].batch && r.Go? && r.st.entries == entries[..i + 1]
  }

  ghost predicate AllPlayed(cfg: Config, baseline: TestResult, worlds: nat -> World, first: nat, file: string,
                            entries: seq<Record>, n: nat)
    requires n <= |entries|
  {
    forall i :: 0 <= i < n ==> Played(cfg, baseline, worlds, first, file, entries, i)
  }

  /** The run ends in `round`, which started in `st`: used up, seen to be aborted, or stopped inside. */
  ghost predicate EndsIn(cfg: Config, baseline: TestResult, worlds: nat -> World, round: nat, st: State, end: End) {
    st.entries == end.st.entries && st.file == end.st.file &&
    if round > cfg.iterationCap then end == Returned(st, IterationCap)
    else if worlds(round).aborted(AtStart) then end == Returned(st, ManualAbort)
    else
      var r := Round(cfg, baseline, round, worlds(round), st);
      r.Halt? && end == if r.why == Aborted then Returned(r.st, ManualAbort) else Thrown(r.st)
  }

  /** Either the run ends in the round after its last entry, or it decided to stop after that entry. */
  ghost predicate StopsWhere(cfg: Config, baseline: TestResult, worlds: nat -> World, first: nat, file: string, end: End) {
    var next := first + |end.st.entries|;
    match Reached(cfg, baseline, worlds, first, file, next)
    case Some(st) => EndsIn(cfg, baseline, worlds, next, st, end)
    case None => end.Returned? && (end.reason == Clean || end.reason == TestRegression)
  }

  /** A round adds its one entry, about the batch it prepared, or none. */
  lemma RoundEntries(cfg: Config, baseline: TestResult, round: nat, w: World, st: State)
    ensures var r := Round(cfg, baseline, round, w, st);
      if r.Go? then
        var p := Prepare(cfg, round, w, st);
        |r.st.entries| == |st.entries| + 1 && r.st.entries[..|st.entries|] == st.entries && p.Go? &&
        r.st.entries[|st.entries|].batch == p.value.0 && r.value != Some(IterationCap) && r.value != Some(ManualAbort)
      else r.st.entries == st.entries && r.st.file == st.file
  {
    hide Round, Prepare, PostFix, VerifyBatch, Regressed, Reopens, Quiet, Records;
    PrepareIsQuiet(cfg, round, w, st);
    var r := Round(cfg, baseline, round, w, st);
    if r.Go? {
      var prepared, before, mid, rec := RoundGoes(cfg, baseline, round, w, st);
      Recorded(cfg, w, st, prepared, before, mid, rec, r.st, round);
    } else {
      RoundStops(cfg, baseline, round, w, st);
      SameFile(cfg, st, Prepare(cfg, round, w, st), r.st, round);
    }
  }

  lemma SameFile<T>(cfg: Config, st: State, p: Flow<T>, end: State, round: nat)
    requires Quiet(st, p.st, round, true, true) && (if p.Go? then Stopped(cfg, p.st, end, round) else end == p.st)
    ensures end.entries == st.entries && end.file == st.file
  {
  }

  lemma {:induction false} RoundsStop(cfg: Config, baseline: TestResult, worlds: nat -> World, first: nat, file: string,
                                      round: nat, st: State)
    requires round == first + |st.entries| && Reached(cfg, baseline, worlds, first, file, round) == Some(st)
    requires AllPlayed(cfg, baseline, worlds, first, file, st.entries, |st.entries|)
    ensures var end := RoundsFrom(cfg, baseline, worlds, round, st);
      AllPlayed(cfg, baseline, worlds, first, file, end.st.entries, |end.st.entries|) &&
      StopsWhere(cfg, baseline, worlds, first, file, end)
    decreases cfg.iterationCap + 1 - round
  {
    hide Round, Prepare;
    if round <= cfg.iterationCap && !worlds(round).aborted(AtStart) {
      var r := Round(cfg, baseline, round, worlds(round), st);
      RoundEntries(cfg, baseline, round, worlds(round), st);
      if r.Go? {
        PlaysOneMore(cfg, baseline, worlds, first, file, st, r.st.entries);
        if r.value.None? {
          RoundsStop(cfg, baseline, worlds, first, file, round + 1, r.st);
        }
      }
    }
  }

  lemma PlaysOneMore(cfg: Config, baseline: TestResult, worlds: nat -> World, first: nat, file: string, st: State,
                     after: seq<Record>)
    requires var r := Round(cfg, baseline, first + |st.entries|, worlds(first + |st.entries|), st);
      r.Go? && r.st.entries == after
    requires Reached(cfg, baseline, worlds, first, file, first + |st.entries|) == Some(st)
    requires AllPlayed(cfg, baseline, worlds, first, file, st.entries, |st.entries|)
    requires |after| == |st.entries| + 1 && after[..|st.entries|] == st.entries
    requires first + |st.entries| <= cfg.iterationCap && !worlds(first + |st.entries|).aborted(AtStart)
    requires var p := Prepare(cfg, first + |st.entries|, worlds(first + |st.entries|), st);
      p.Go? && p.value.0 == after[|st.entries|].batch
    ensures AllPlayed(cfg, baseline, worlds, first, file, after, |after|)
  {
    hide Reached, Prepare, Round;
    assert after[..|after|] == after;
    forall i | 0 <= i < |after| ensures Played(cfg, baseline, worlds, first, file, after, i) {
      if i < |st.entries| {
        assert Played(cfg, baseline, worlds, first, file, st.entries, i);
        assert after[..i] == st.entries[..i] && after[i] == st.entries[i] && after[..i + 1] == st.entries[..i + 1];
      }
    }
  }

  /** A run that starts has an entry for exactly the rounds it got to and finished, each made from the
      state that round was reached in, and it stops in the round after the last or by decision. */
  lemma RecordedRoundsAreReached(cfg: Config, setup: Setup, worlds: nat -> World, file: string)
    requires Starts(cfg, setup, file)
    ensures var baseline, first := RunTests(cfg.testCommand, setup.baseline), FirstOf(cfg, file);
      var end := RunLoop(cfg, setup, worlds, file);
      AllPlayed(cfg, baseline, worlds, first, file, end.st.entries, |end.st.entries|) &&
      StopsWhere(cfg, baseline, worlds, first, file, end)
  {
    hide RunLoop, RoundsFrom, RunTests, FirstOf, StopsWhere, Played;
    RunIsRounds(cfg, setup, worlds, file);
    RoundsStop(cfg, RunTests(cfg.testCommand, setup.baseline), worlds, FirstOf(cfg, file), file, FirstOf(cfg, file),
               InitialState(file));
  }

  /** The state a round is reached in has all the rounds before it on the record. */
  lemma {:induction false} ReachedIsStarted(cfg: Config, baseline: TestResult, worlds: nat -> World, first: nat,
                                            file: string, round: nat)
    requires first <= round && Reached(cfg, baseline, worlds, first, file, round).Some?
    ensures Started(cfg, baseline, first, round, Reached(cfg, baseline, worlds, first, file, round).value)
    decreases round
  {
    hide Round, Started, StopAfter, InitialState;
    if round == first {
      RunStarts(cfg, baseline, first, file);
    } else {
      ReachedIsStarted(cfg, baseline, worlds, first, file, round - 1);
      var st := Reached(cfg, baseline, worlds, first, file, round - 1).value;
      RoundStarts(cfg, baseline, first, round - 1, worlds(round - 1), st);
    }
  }

  lemma RoundStarts(cfg: Config, baseline: TestResult, first: nat, round: nat, w: World, st: State)
    requires Started(cfg, baseline, first, round, st) && Round(cfg, baseline, round, w, st).Go?
    requires Round(cfg, baseline, round, w, st).value == None
    ensures Started(cfg, baseline, first, round + 1, Round(cfg, baseline, round, w, st).st)
  {
    hide Round, Consecutive, RoundsWithin, AllGoOn, StopAfter;
    RoundAdvances(cfg, baseline, first, round, w, st);
    GoesOnAll(baseline, Round(cfg, baseline, round, w, st).st.entries);
  }

  // ---- the record only grows ----------------------------------------------------------

  lemma RoundExtends(cfg: Config, baseline: TestResult, round: nat, w: World, st: State)
    ensures Extends(st.journal, Prepare(cfg, round, w, st).st.journal)
    ensures Extends(Prepare(cfg, round, w, st).st.journal, Round(cfg, baseline, round, w, st).st.journal)
  {
    hide Prepare, PostFix, VerifyBatch, Regressed, Reopens, Filed, RememberClosed, Merge, Unresolved, StopAfter;
    PrepareIsQuiet(cfg, round, w, st);
    if Round(cfg, baseline, round, w, st).Go? {
      hide Round;
      var prepared, before, mid, rec := RoundGoes(cfg, baseline, round, w, st);
    } else {
      hide Round;
      RoundStops(cfg, baseline, round, w, st);
    }
  }

  lemma {:induction false} RoundsExtend(cfg: Config, baseline: TestResult, worlds: nat -> World, round: nat, st: State)
    ensures Extends(st.journal, RoundsFrom(cfg, baseline, worlds, round, st).st.journal)
    decreases cfg.iterationCap + 1 - round
  {
    hide Round, Prepare;
    if round <= cfg.iterationCap && !worlds(round).aborted(AtStart) {
      RoundExtends(cfg, baseline, round, worlds(round), st);
      var r := Round(cfg, baseline, round, worlds(round), st);
      if r.Go? && r.value.None? {
        RoundsExtend(cfg, baseline, worlds, round + 1, r.st);
      }
    }
  }

  /** From any round it reaches, the run goes on as it would have from its start. */
  lemma {:induction false} ReachedGoesOn(cfg: Config, baseline: TestResult, worlds: nat -> World, first: nat, file: string,
                                         round: nat)
    requires first <= round && Reached(cfg, baseline, worlds, first, file, round).Some?
    ensures RoundsFrom(cfg, baseline, worlds, first, InitialState(file)) ==
      RoundsFrom(cfg, baseline, worlds, round, Reached(cfg, baseline, worlds, first, file, round).value)
    decreases round
  {
    hide Round, InitialState;
    if round > first {
      ReachedGoesOn(cfg, baseline, worlds, first, file, round - 1);
    }
  }

  /** What had been noted when this round had its batch ready. */
  ghost function NotedBy(cfg: Config, baseline: TestResult, worlds: nat -> World, first: nat, file: string, round: nat)
    : seq<Event>
    requires first <= round
  {
    match Reached(cfg, baseline, worlds, first, file, round)
    case None => []
    case Some(st) => Prepare(cfg, round, worlds(round), st).st.journal
  }

  lemma ReachedIsOnRecord(cfg: Config, baseline: TestResult, worlds: nat -> World, first: nat, file: string, round: nat)
    requires first <= round <= cfg.iterationCap && !worlds(round).aborted(AtStart)
    requires Reached(cfg, baseline, worlds, first, file, round).Some?
    ensures Extends(NotedBy(cfg, baseline, worlds, first, file, round),
                    RoundsFrom(cfg, baseline, worlds, first, InitialState(file)).st.journal)
  {
    hide Prepare, Round, Reached, InitialState;
    ReachedGoesOn(cfg, baseline, worlds, first, file, round);
    var st := Reached(cfg, baseline, worlds, first, file, round).value;
    RoundExtends(cfg, baseline, round, worlds(round), st);
    var r := Round(cfg, baseline, round, worlds(round), st);
    if r.Go? && r.value.None? {
      RoundsExtend(cfg, baseline, worlds, round + 1, r.st);
    }
  }

  /** It is all on the record of the run, for every round that was recorded. */
  lemma PlayedIsOnRecord(cfg: Config, setup: Setup, worlds: nat -> World, file: string, i: nat)
    requires i < |RunLoop(cfg, setup, worlds, file).st.entries|
    ensures var baseline, first := RunTests(cfg.testCommand, setup.baseline), FirstOf(cfg, file);
      var end := RunLoop(cfg, setup, worlds, file).st;
      Played(cfg, baseline, worlds, first, file, end.entries, i) &&
      Extends(NotedBy(cfg, baseline, worlds, first, file, first + i), end.journal)
  {
    var baseline, first := RunTests(cfg.testCommand, setup.baseline), FirstOf(cfg, file);
    RunIsRounds(cfg, setup, worlds, file);
    hide RunLoop, RunTests, FirstOf, StopsWhere, Prepare, Round, Starts, Reached, RoundsFrom, NotedBy, Extends;
    assert Starts(cfg, setup, file);
    RecordedRoundsAreReached(cfg, setup, worlds, file);
    assert Played(cfg, baseline, worlds, first, file, RunLoop(cfg, setup, worlds, file).st.entries, i);
    ReachedIsOnRecord(cfg, baseline, worlds, first, file, first + i);
  }

  // ---- why ----------------------------------------------------------------------------

  function Last(entries: seq<Record>): Record
    requires |entries| > 0
  {
    entries[|entries| - 1]
  }

  ghost predicate AllClosed(rec: Record) {
    forall k :: 0 <= k < |rec.verifyResults| ==> rec.verifyResults[k].outcome == Closed
  }

  /** Nothing was wrong with the last entry: every verify result a closure, nothing brought back by the
      passes over the patched source, and the tests not broken. */
  ghost predicate FinishedClean(baseline: TestResult, es: seq<Record>) {
    |es| > 0 && AllClosed(Last(es)) && Last(es).reopened == [] && !Regressed(baseline, Last(es).test)
  }

  ghost predicate BrokeTheTests(baseline: TestResult, es: seq<Record>) {
    |es| > 0 && Last(es).test.status == Fail && baseline.status == Pass
  }

  ghost predicate Gives(end: End, reason: Reason) {
    end.Returned? && end.reason == reason
  }

  /** About the last entry: `clean` and `test-regression` are given exactly when they are true of it,
      and neither was true of an earlier one. */
  ghost predicate TellsTruth(baseline: TestResult, end: End) {
    (Gives(end, Clean) <==> FinishedClean(baseline, end.st.entries)) &&
    (Gives(end, TestRegression) <==> BrokeTheTests(baseline, end.st.entries)) &&
    AllGoOn(baseline, end.st.entries, |end.st.entries| - 1) && (Gives(end, Clean) ==> end.st.open == [])
  }

  /** About the round after it: the cap is given exactly when there is no such round left, and an abort
      exactly when the broker met the signal in it. */
  ghost predicate TellsWhy(cfg: Config, baseline: TestResult, worlds: nat -> World, first: nat, file: string, end: End) {
    var next := first + |end.st.entries|;
    var reached := Reached(cfg, baseline, worlds, first, file, next);
    (Gives(end, IterationCap) <==> reached.Some? && next > cfg.iterationCap) &&
    (Gives(end, ManualAbort) <==>
      reached.Some? && next <= cfg.iterationCap && MetSignal(cfg, next, worlds(next), reached.value, end.st))
  }

  lemma EndedTellsTruth(cfg: Config, baseline: TestResult, first: nat, end: End)
    requires Ended(cfg, baseline, first, end)
    ensures TellsTruth(baseline, end)
  {
    hide AllGoOn, RoundsWithin, Merge, Unresolved;
    var es := end.st.entries;
    if |es| > 0 {
      EmptyOpenMeansClosed(Last(es));
    }
  }

  lemma StopTellsWhy(cfg: Config, baseline: TestResult, worlds: nat -> World, first: nat, file: string, end: End)
    requires StopsWhere(cfg, baseline, worlds, first, file, end)
    ensures TellsWhy(cfg, baseline, worlds, first, file, end)
  {
    hide Reached, Round, TurnSaw, GetsTo;
    var next := first + |end.st.entries|;
    var reached := Reached(cfg, baseline, worlds, first, file, next);
    if reached.Some? && next <= cfg.iterationCap {
      if worlds(next).aborted(AtStart) {
        StartIsLookedAt(cfg, next, worlds(next), reached.value);
      } else {
        RoundAbortsIff(cfg, baseline, next, worlds(next), reached.value);
      }
    }
  }

  lemma StartIsLookedAt(cfg: Config, round: nat, w: World, st: State)
    requires w.aborted(AtStart)
    ensures LookSaw(cfg, round, w, st, AtStart)
  {
  }

  /** The reason a run gives is true, and the only one it could give. */
  lemma StopReasonIsTrue(cfg: Config, setup: Setup, worlds: nat -> World, file: string)
    ensures var baseline := RunTests(cfg.testCommand, setup.baseline);
      var end := RunLoop(cfg, setup, worlds, file);
      TellsTruth(baseline, end) &&
      if Starts(cfg, setup, file) then TellsWhy(cfg, baseline, worlds, FirstOf(cfg, file), file, end) else end.Thrown?
  {
    hide RunTests, RunLoop, Ended, TellsTruth, TellsWhy, StopsWhere, FirstOf, Starts, AllPlayed, RoundsFrom;
    var baseline, first := RunTests(cfg.testCommand, setup.baseline), FirstOf(cfg, file);
    RunEnds(cfg, setup, worlds, file);
    EndedTellsTruth(cfg, baseline, first, RunLoop(cfg, setup, worlds, file));
    RunIsRounds(cfg, setup, worlds, file);
    if Starts(cfg, setup, file) {
      RecordedRoundsAreReached(cfg, setup, worlds, file);
      StopTellsWhy(cfg, baseline, worlds, first, file, RunLoop(cfg, setup, worlds, file));
    }
  }
}
