/** Nothing is lost: a finding once in a batch is closed on the record or still open at the end, as
    long as its severity meets the bar, and a finding below the bar is dropped by the next round. */
module BrokerConservation {
  import opened Contracts
  import opened Gates
  import opened BrokerModel
  import opened BrokerLists
  import opened BrokerFrames
  import opened BrokerBatches

  // ---- the invariant ------------------------------------------------------------------

  /** Closed on the record, with the same command, by this round. */
  ghost predicate ClosesIt(rec: Record, f: Finding) {
    exists k :: 0 <= k < |rec.batch| && k < |rec.verifyResults| && rec.batch[k] == f &&
      rec.verifyResults[k].findingId == f.id && rec.verifyResults[k].outcome == Closed
  }

  ghost predicate ClosedFrom(entries: seq<Record>, i: nat, f: Finding) {
    exists j :: i <= j < |entries| && ClosesIt(entries[j], f)
  }

  ghost predicate OpenOk(st: State) {
    UniqueIds(st.open) &&
    (forall i, f :: 0 <= i < |st.entries| && f in st.entries[i].batch ==> Settled(f, st.analyzed))
  }

  ghost predicate Accounted(entries: seq<Record>, i: nat, f: Finding, open: seq<Finding>) {
    ClosedFrom(entries, i, f) || f in open
  }

  /** Every batch finding that meets the bar is closed by its own or a later round, or open. */
  ghost predicate Conserved(cfg: Config, st: State) {
    forall i, f :: 0 <= i < |st.entries| && f in st.entries[i].batch && MeetsBar(f.severity, cfg.severityBar) ==>
      Accounted(st.entries, i, f, st.open)
  }

  lemma UnclosedStaysOpen(w: World, st: State, rec: Record, f: Finding)
    requires Verifies(w, st, rec)
    requires UniqueIds(rec.batch) && f in rec.batch
    requires rec.openAfter == Merge(Unresolved(rec.batch, rec.verifyResults), rec.reopened)
    ensures ClosesIt(rec, f) || f in rec.openAfter
  {
    hide Merge, VerifyBatch;
    VerifyMatches(w, st, rec.batch, rec.batch != []);
    var left := Unresolved(rec.batch, rec.verifyResults);
    var k :| 0 <= k < |rec.batch| && rec.batch[k] == f;
    UnresolvedMember(rec.batch, rec.verifyResults, f);
    UnresolvedUnique(rec.batch, rec.verifyResults);
    MergeKeeps(left, rec.reopened);
  }

  /** What was left open at the start of the round is accounted for at its end. */
  lemma AccountedOnwards(entries: seq<Record>, i: nat, f: Finding, open: seq<Finding>, rec: Record)
    requires i < |entries| && Accounted(entries, i, f, open)
    requires f in open ==> ClosesIt(rec, f) || f in rec.openAfter
    ensures Accounted(entries + [rec], i, f, rec.openAfter)
  {
    var after := entries + [rec];
    if ClosedFrom(entries, i, f) {
      var j :| i <= j < |entries| && ClosesIt(entries[j], f);
      assert after[j] == entries[j];
    } else if ClosesIt(rec, f) {
      assert after[|entries|] == rec;
    }
  }

  lemma RecordConserves(cfg: Config, round: nat, w: World, st: State, before: State, rec: Record)
    requires Conserved(cfg, st) && OpenOk(st)
    requires Prepare(cfg, round, w, st).Go? && rec.batch == Prepare(cfg, round, w, st).value.0
    requires Verifies(w, before, rec)
    requires rec.openAfter == Merge(Unresolved(rec.batch, rec.verifyResults), rec.reopened)
    ensures Conserved(cfg, st.(entries := st.entries + [rec], open := rec.openAfter))
  {
    hide Prepare, VerifyBatch, Merge, Unresolved, MeetsBar, ClosesIt;
    BatchIsSettled(cfg, round, w, st);
    var after := st.entries + [rec];
    forall i, f | 0 <= i < |after| && f in after[i].batch && MeetsBar(f.severity, cfg.severityBar)
      ensures Accounted(after, i, f, rec.openAfter)
    {
      if i < |st.entries| {
        assert after[i] == st.entries[i];
        if f in st.open {
          assert Settled(f, st.analyzed);
          OpenReachesBatchIff(cfg, round, w, st, f);
          UnclosedStaysOpen(w, before, rec, f);
        }
        AccountedOnwards(st.entries, i, f, st.open, rec);
      } else {
        UnclosedStaysOpen(w, before, rec, f);
        assert ClosesIt(rec, f) ==> ClosesIt(after[|st.entries|], f);
      }
    }
  }

  /** From each recorded round to the next: a confirmed finding left open, brought back by the fuzzers or
      not closed, is in the next batch exactly when its severity meets the bar, and otherwise nothing
      with its id is. One that was in the batch before is the same record again. */
  ghost predicate CarriesOver(cfg: Config, a: Record, b: Record) {
    (forall f :: f in a.openAfter && f.state == Confirmed ==>
      (HasId(b.batch, f.id) <==> MeetsBar(f.severity, cfg.severityBar))) &&
    (forall f :: f in a.batch && !ClosesIt(a, f) ==>
      (f in b.batch <==> MeetsBar(f.severity, cfg.severityBar)) &&
      (HasId(b.batch, f.id) <==> MeetsBar(f.severity, cfg.severityBar)))
  }

  ghost predicate Carried(cfg: Config, st: State) {
    (forall i :: 0 < i < |st.entries| ==> CarriesOver(cfg, st.entries[i - 1], st.entries[i])) &&
    (|st.entries| > 0 ==>
      var last := st.entries[|st.entries| - 1];
      st.open == last.openAfter && forall f :: f in last.batch ==> ClosesIt(last, f) || f in st.open)
  }

  lemma RecordCarries(cfg: Config, round: nat, w: World, st: State, before: State, rec: Record)
    requires Carried(cfg, st) && OpenOk(st)
    requires Prepare(cfg, round, w, st).Go? && rec.batch == Prepare(cfg, round, w, st).value.0
    requires Verifies(w, before, rec)
    requires rec.openAfter == Merge(Unresolved(rec.batch, rec.verifyResults), rec.reopened)
    ensures Carried(cfg, st.(entries := st.entries + [rec], open := rec.openAfter))
  {
    hide Prepare, VerifyBatch, Merge, Unresolved, MeetsBar, ClosesIt;
    BatchIsSettled(cfg, round, w, st);
    forall f | f in rec.batch ensures ClosesIt(rec, f) || f in rec.openAfter {
      UnclosedStaysOpen(w, before, rec, f);
    }
    if |st.entries| > 0 {
      var last := st.entries[|st.entries| - 1];
      forall f | f in last.batch && !ClosesIt(last, f)
        ensures (f in rec.batch <==> MeetsBar(f.severity, cfg.severityBar)) &&
                (HasId(rec.batch, f.id) <==> MeetsBar(f.severity, cfg.severityBar))
      {
        assert Settled(f, st.analyzed);
        OpenReachesBatchIff(cfg, round, w, st, f);
      }
      forall f | f in last.openAfter && f.state == Confirmed
        ensures HasId(rec.batch, f.id) <==> MeetsBar(f.severity, cfg.severityBar)
      {
        OpenReachesBatchIff(cfg, round, w, st, f);
      }
      assert CarriesOver(cfg, last, rec);
    }
    hide CarriesOver;
    var after := st.entries + [rec];
    forall i | 0 < i < |after| ensures CarriesOver(cfg, after[i - 1], after[i]) {
      if i < |st.entries| {
        assert after[i - 1] == st.entries[i - 1] && after[i] == st.entries[i];
      }
    }
  }

  lemma RecordKeepsOpenOk(cfg: Config, round: nat, w: World, st: State, rec: Record, analyzed: set<string>)
    requires OpenOk(st) && st.analyzed <= analyzed
    requires UniqueIds(rec.batch) && AllSettled(rec.batch, analyzed) && |rec.batch| == |rec.verifyResults|
    requires rec.openAfter == Merge(Unresolved(rec.batch, rec.verifyResults), rec.reopened)
    ensures OpenOk(st.(entries := st.entries + [rec], open := rec.openAfter, analyzed := analyzed))
  {
    hide Merge, Unresolved;
    MergeKeeps(Unresolved(rec.batch, rec.verifyResults), rec.reopened);
    var after := st.entries + [rec];
    forall i, f | 0 <= i < |after| && f in after[i].batch ensures Settled(f, analyzed) {
      if i < |st.entries| {
        assert f in st.entries[i].batch;
        assert Settled(f, st.analyzed);
      } else {
        assert after[i] == rec;
      }
    }
  }

  lemma PrepareOnlyAddsAnalyses(cfg: Config, round: nat, w: World, st: State)
    ensures st.analyzed <= Prepare(cfg, round, w, st).st.analyzed
  {
    hide Detect, ConfirmAll, AnalyzeAll;
    var detected := Detect(cfg, round, w, st);
    DetectIsQuiet(cfg, round, w, st);
    if detected.Go? {
      var confirmed := ConfirmAll(round, w, detected.st, detected.value.0);
      ConfirmAllIsQuiet(round, w, detected.st, detected.value.0);
      if confirmed.Go? {
        AnalyzeAllGives(round, w, confirmed.st, confirmed.value);
      }
    }
  }

  lemma RoundConserves(cfg: Config, baseline: TestResult, round: nat, w: World, st: State)
    requires Conserved(cfg, st) && Carried(cfg, st) && OpenOk(st)
    ensures var r := Round(cfg, baseline, round, w, st);
      Conserved(cfg, r.st) && Carried(cfg, r.st) && (r.Go? ==> OpenOk(r.st))
  {
    hide Round, Prepare, PostFix, VerifyBatch, StopAfter, Conserved, Carried, OpenOk, Reopens;
    PrepareIsQuiet(cfg, round, w, st);
    var r := Round(cfg, baseline, round, w, st);
    if r.Go? {
      var prepared, before, mid, rec := RoundGoes(cfg, baseline, round, w, st);
      RecordConserves(cfg, round, w, st, before, rec);
      RecordCarries(cfg, round, w, st, before, rec);
      BatchIsSettled(cfg, round, w, st);
      PrepareOnlyAddsAnalyses(cfg, round, w, st);
      RecordKeepsOpenOk(cfg, round, w, st, rec, prepared.analyzed);
      RecordedState(cfg, w, st, prepared, before, mid, rec, r.st, round);
      SameLists(cfg, st.(entries := st.entries + [rec], open := rec.openAfter, analyzed := prepared.analyzed), r.st);
      SameLists(cfg, st.(entries := st.entries + [rec], open := rec.openAfter), r.st);
    } else {
      RoundStops(cfg, baseline, round, w, st);
      SameLists(cfg, st, r.st);
    }
  }

  lemma RecordedState(cfg: Config, w: World, st: State, prepared: State, before: State, mid: State, rec: Record,
                      end: State, round: nat)
    requires Quiet(st, prepared, round, true, true) && Quiet(prepared, before, round, false, false)
    requires Quiet(before, mid, round, false, false) && Records(cfg, w, mid, rec, end)
    ensures end.entries == st.entries + [rec] && end.open == rec.openAfter && end.analyzed == prepared.analyzed
  {
    hide RememberClosed, Filed, Merge, Unresolved;
  }

  lemma SameLists(cfg: Config, a: State, b: State)
    requires a.entries == b.entries && a.open == b.open
    ensures Conserved(cfg, a) ==> Conserved(cfg, b)
    ensures Carried(cfg, a) ==> Carried(cfg, b)
    ensures OpenOk(a) && a.analyzed == b.analyzed ==> OpenOk(b)
  {
    hide Accounted, Settled, CarriesOver, ClosesIt;
  }

  lemma {:induction false} RoundsConserve(cfg: Config, baseline: TestResult, worlds: nat -> World, round: nat, st: State)
    requires Conserved(cfg, st) && Carried(cfg, st) && OpenOk(st)
    ensures var end := RoundsFrom(cfg, baseline, worlds, round, st).st; Conserved(cfg, end) && Carried(cfg, end)
    decreases cfg.iterationCap + 1 - round
  {
    hide Round, Conserved, Carried, OpenOk;
    if round <= cfg.iterationCap && !worlds(round).aborted(AtStart) {
      RoundConserves(cfg, baseline, round, worlds(round), st);
      var r := Round(cfg, baseline, round, worlds(round), st);
      if r.Go? && r.value.None? {
        RoundsConserve(cfg, baseline, worlds, round + 1, r.st);
      }
    }
  }

  /** Over a whole run, however it ends: a finding that was in a recorded batch with a severity that
      meets the bar has been closed on the record by that round or a later one, or is among the open
      findings the run ends with, as the same record. Between two recorded rounds, a finding left
      unresolved is worked on again exactly when its severity meets the bar. */
  lemma NothingAboveTheBarIsLost(cfg: Config, setup: Setup, worlds: nat -> World, file: string)
    ensures var end := RunLoop(cfg, setup, worlds, file).st; Conserved(cfg, end) && Carried(cfg, end)
  {
    hide RoundsFrom;
    var first := FirstRound(cfg, file);
    if first.Some? {
      RoundsConserve(cfg, RunTests(cfg.testCommand, setup.baseline), worlds, first.value, InitialState(file));
    }
  }

  // ---- when agents keep to the bar ----------------------------------------------------

  ghost predicate BatchesMeetBar(cfg: Config, entries: seq<Record>) {
    forall i :: 0 <= i < |entries| ==> AllMeetBar(cfg, entries[i].batch)
  }

  lemma RoundMeetsBar(cfg: Config, baseline: TestResult, round: nat, w: World, st: State)
    requires AgentsMeetBar(cfg, w) && BatchesMeetBar(cfg, st.entries)
    ensures BatchesMeetBar(cfg, Round(cfg, baseline, round, w, st).st.entries)
  {
    hide Round, Prepare, PostFix, VerifyBatch, StopAfter, AllMeetBar, AgentsMeetBar, Reopens;
    PrepareIsQuiet(cfg, round, w, st);
    PrepareMeetsBar(cfg, round, w, st);
    var r := Round(cfg, baseline, round, w, st);
    if r.Go? {
      var prepared, before, mid, rec := RoundGoes(cfg, baseline, round, w, st);
      RecordedState(cfg, w, st, prepared, before, mid, rec, r.st, round);
    } else {
      RoundStops(cfg, baseline, round, w, st);
    }
  }

  lemma {:induction false} RoundsMeetBar(cfg: Config, baseline: TestResult, worlds: nat -> World, round: nat, st: State)
    requires (forall n :: AgentsMeetBar(cfg, worlds(n))) && BatchesMeetBar(cfg, st.entries)
    ensures BatchesMeetBar(cfg, RoundsFrom(cfg, baseline, worlds, round, st).st.entries)
    decreases cfg.iterationCap + 1 - round
  {
    hide Round, AgentsMeetBar, BatchesMeetBar;
    if round <= cfg.iterationCap && !worlds(round).aborted(AtStart) {
      RoundMeetsBar(cfg, baseline, round, worlds(round), st);
      var r := Round(cfg, baseline, round, worlds(round), st);
      if r.Go? && r.value.None? {
        RoundsMeetBar(cfg, baseline, worlds, round + 1, r.st);
      }
    }
  }

  /** When every severity an agent gives meets the bar, no finding of any batch is ever lost. */
  lemma NothingIsLost(cfg: Config, setup: Setup, worlds: nat -> World, file: string, i: nat, f: Finding)
    requires forall n :: AgentsMeetBar(cfg, worlds(n))
    requires var end := RunLoop(cfg, setup, worlds, file).st; i < |end.entries| && f in end.entries[i].batch
    ensures var end := RunLoop(cfg, setup, worlds, file).st; ClosedFrom(end.entries, i, f) || f in end.open
  {
    hide RoundsFrom, AgentsMeetBar, MeetsBar, ClosedFrom;
    NothingAboveTheBarIsLost(cfg, setup, worlds, file);
    var first := FirstRound(cfg, file);
    if first.Some? {
      RoundsMeetBar(cfg, RunTests(cfg.testCommand, setup.baseline), worlds, first.value, InitialState(file));
    }
    var end := RunLoop(cfg, setup, worlds, file).st;
    assert BatchesMeetBar(cfg, end.entries);
    assert AllMeetBar(cfg, end.entries[i].batch);
  }
}
