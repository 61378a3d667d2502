/** Nothing is noted that did not happen: every scan, ruling and repro on the record of a run is one that
    the world of its round answered with. */
module BrokerJournal {
  import opened Basics
  import opened Contracts
  import opened Gates
  import opened BrokerModel
  import opened BrokerFrames
  import opened BrokerAdmission
  import opened BrokerRuns
  import Ledger

  ghost predicate SawOf(outcome: Outcome, run: Attempt<ReproRun>) {
    run.Done? && (outcome == Survived <==> Survives(run.value)) && (outcome == Inconclusive <==> !Completed(run.value))
  }

  /** A repro that was run is the one an answer proposed, or one that had closed its finding before. */
  ghost predicate TrueEvent(w: World, e: Event) {
    match e
    case Detected(_, findings) => w.detect.Done? && w.detect.value.findings == findings
    case Refuzzed(_, findings) => w.refuzz.Done? && w.refuzz.value.findings == findings
    case Rescanned(_, findings) => w.rescan.Some? && w.rescan.value.Done? && w.rescan.value.value.findings == findings
    case TurnTaken(_, _, _) => true
    case Ruled(_, id, confirmed) =>
      w.confirm(id).Answered? && w.confirm(id).value.findingId == id &&
      (confirmed <==> w.confirm(id).value.SaysConfirmed? && Holds(w.confirmRepro(id)))
    case ReproRan(_, id, repro, outcome) =>
      SawOf(outcome, w.recheck(id)) ||
      (w.confirm(id).Answered? && w.confirm(id).value.SaysConfirmed? && repro == w.confirm(id).value.repro &&
       SawOf(outcome, w.confirmRepro(id))) ||
      (w.analyze(id).Answered? && repro == w.analyze(id).value.repro && SawOf(outcome, w.analyzeRepro(id)))
  }

  /** What was noted between these two states, all of it true. */
  ghost predicate NotesTruly(w: World, a: State, b: State) {
    Extends(a.journal, b.journal) && forall k :: |a.journal| <= k < |b.journal| ==> TrueEvent(w, b.journal[k])
  }

  lemma NotesThen(w: World, a: State, b: State, c: State)
    requires NotesTruly(w, a, b) && NotesTruly(w, b, c)
    ensures NotesTruly(w, a, c)
  {
    hide TrueEvent;
    forall k | |a.journal| <= k < |c.journal| ensures TrueEvent(w, c.journal[k]) {
      if k < |b.journal| {
        assert c.journal[k] == b.journal[k];
      }
    }
  }

  lemma NotesNothing(w: World, a: State, b: State)
    requires a.journal == b.journal
    ensures NotesTruly(w, a, b)
  {
  }

  // ---- phase by phase -----------------------------------------------------------------

  lemma DetectNotes(cfg: Config, round: nat, w: World, st: State)
    ensures NotesTruly(w, st, Detect(cfg, round, w, st).st)
  {
    hide Merge, WithinBar;
  }

  lemma ConfirmOneNotes(round: nat, w: World, st: State, f: Finding)
    ensures NotesTruly(w, st, ConfirmOne(round, w, st, f).st)
  {
    hide Lookup, Put;
  }

  lemma {:induction false} ConfirmAllNotes(round: nat, w: World, st: State, fs: seq<Finding>)
    ensures NotesTruly(w, st, ConfirmAll(round, w, st, fs).st)
    decreases |fs|
  {
    hide ConfirmOne, NotesTruly;
    if fs == [] {
      NotesNothing(w, st, st);
    } else {
      var first := ConfirmOne(round, w, st, fs[0]);
      ConfirmOneNotes(round, w, st, fs[0]);
      if first.Go? {
        ConfirmAllNotes(round, w, first.st, fs[1..]);
        NotesThen(w, st, first.st, ConfirmAll(round, w, first.st, fs[1..]).st);
      }
    }
  }

  lemma AnalyzeOneNotes(round: nat, w: World, st: State, f: Finding)
    ensures NotesTruly(w, st, AnalyzeOne(round, w, st, f).st)
  {
  }

  lemma {:induction false} AnalyzeAllNotes(round: nat, w: World, st: State, fs: seq<Finding>)
    ensures NotesTruly(w, st, AnalyzeAll(round, w, st, fs).st)
    decreases |fs|
  {
    hide AnalyzeOne, NotesTruly;
    if fs == [] {
      NotesNothing(w, st, st);
    } else {
      var first := AnalyzeOne(round, w, st, fs[0]);
      AnalyzeOneNotes(round, w, st, fs[0]);
      if first.Go? {
        AnalyzeAllNotes(round, w, first.st, fs[1..]);
        NotesThen(w, st, first.st, AnalyzeAll(round, w, first.st, fs[1..]).st);
      }
    }
  }

  lemma MaybeFixNotes(cfg: Config, round: nat, w: World, st: State, batch: seq<Finding>)
    ensures NotesTruly(w, st, MaybeFix(cfg, round, w, st, batch).st)
  {
    hide HasId;
  }

  lemma PostFixNotes(cfg: Config, round: nat, w: World, st: State, crossCheck: bool)
    ensures NotesTruly(w, st, PostFix(cfg, round, w, st, crossCheck).st)
  {
    hide Merge, WithinBar, WithoutDismissed;
  }

  lemma PrepareNotes(cfg: Config, round: nat, w: World, st: State)
    ensures NotesTruly(w, st, Prepare(cfg, round, w, st).st)
  {
    hide Detect, ConfirmAll, AnalyzeAll, NotesTruly;
    var detected := Detect(cfg, round, w, st);
    DetectNotes(cfg, round, w, st);
    if detected.Go? {
      var confirmed := ConfirmAll(round, w, detected.st, detected.value.0);
      ConfirmAllNotes(round, w, detected.st, detected.value.0);
      NotesThen(w, st, detected.st, confirmed.st);
      if confirmed.Go? {
        AnalyzeAllNotes(round, w, confirmed.st, confirmed.value);
        NotesThen(w, st, confirmed.st, AnalyzeAll(round, w, confirmed.st, confirmed.value).st);
      }
    }
  }

  lemma ConcludeNotes(cfg: Config, baseline: TestResult, round: nat, w: World, st: State, batch: seq<Finding>,
                      report: Option<FixReport>, results: seq<VerifyResult>, runs: seq<DetectorRun>)
    requires |batch| == |results|
    ensures NotesTruly(w, st, Conclude(cfg, baseline, round, w, st, batch, report, results, runs).st)
  {
    var wanted := report.Some? && !Regressed(baseline, RunTests(cfg.testCommand, w.tests));
    PostFixNotes(cfg, round, w, st, wanted);
    hide PostFix, Body, Ledger.Append, Merge, Unresolved, RememberClosed, Verdicts, RunTests, Regressed, TrueEvent;
  }

  lemma FixAndVerifyNotes(cfg: Config, baseline: TestResult, round: nat, w: World, st: State, batch: seq<Finding>,
                          runs: seq<DetectorRun>)
    ensures NotesTruly(w, st, FixAndVerify(cfg, baseline, round, w, st, batch, runs).st)
  {
    hide MaybeFix, Conclude, NotesTruly;
    var fixing := MaybeFix(cfg, round, w, st, batch);
    MaybeFixNotes(cfg, round, w, st, batch);
    if fixing.Go? {
      var verified := VerifyBatch(w, fixing.st, batch, fixing.value.Some?);
      if verified.Go? {
        ConcludeNotes(cfg, baseline, round, w, fixing.st, batch, fixing.value, verified.value, runs);
        NotesThen(w, st, fixing.st, Conclude(cfg, baseline, round, w, fixing.st, batch, fixing.value, verified.value, runs).st);
      }
    }
  }

  lemma RoundNotes(cfg: Config, baseline: TestResult, round: nat, w: World, st: State)
    ensures NotesTruly(w, st, Round(cfg, baseline, round, w, st).st)
  {
    hide Prepare, FixAndVerify, NotesTruly;
    PrepareNotes(cfg, round, w, st);
    var p := Prepare(cfg, round, w, st);
    if p.Go? {
      FixAndVerifyNotes(cfg, baseline, round, w, p.st, p.value.0, p.value.1);
      NotesThen(w, st, p.st, FixAndVerify(cfg, baseline, round, w, p.st, p.value.0, p.value.1).st);
    }
  }

  // ---- the run ------------------------------------------------------------------------

  ghost predicate AllTrue(worlds: nat -> World, journal: seq<Event>) {
    forall k :: 0 <= k < |journal| ==> TrueEvent(worlds(journal[k].round), journal[k])
  }

  lemma RoundStamps(cfg: Config, baseline: TestResult, round: nat, w: World, st: State)
    ensures Stamped(st.journal, Round(cfg, baseline, round, w, st).st.journal, round)
  {
    hide Prepare, PostFix, VerifyBatch, Regressed, Reopens, Filed, RememberClosed, Merge, Unresolved, StopAfter;
    PrepareIsQuiet(cfg, round, w, st);
    if Round(cfg, baseline, round, w, st).Go? {
      hide Round;
      var prepared, before, mid, rec := RoundGoes(cfg, baseline, round, w, st);
    } else {
      hide Round;
      RoundStops(cfg, baseline, round, w, st);
    }
  }

  lemma StaysTrue(worlds: nat -> World, round: nat, a: State, b: State)
    requires AllTrue(worlds, a.journal) && NotesTruly(worlds(round), a, b) && Stamped(a.journal, b.journal, round)
    ensures AllTrue(worlds, b.journal)
  {
    hide TrueEvent;
  }

  lemma {:induction false} RoundsNoteTruly(cfg: Config, baseline: TestResult, worlds: nat -> World, round: nat, st: State)
    requires AllTrue(worlds, st.journal)
    ensures AllTrue(worlds, RoundsFrom(cfg, baseline, worlds, round, st).st.journal)
    decreases cfg.iterationCap + 1 - round
  {
    hide Round, AllTrue, NotesTruly, Stamped;
    if round <= cfg.iterationCap && !worlds(round).aborted(AtStart) {
      var r := Round(cfg, baseline, round, worlds(round), st);
      RoundNotes(cfg, baseline, round, worlds(round), st);
      RoundStamps(cfg, baseline, round, worlds(round), st);
      StaysTrue(worlds, round, st, r.st);
      if r.Go? && r.value.None? {
        RoundsNoteTruly(cfg, baseline, worlds, round + 1, r.st);
      }
    }
  }

  /** In every run, however it ends. */
  lemma JournalIsTrue(cfg: Config, setup: Setup, worlds: nat -> World, file: string)
    ensures AllTrue(worlds, RunLoop(cfg, setup, worlds, file).st.journal)
  {
    hide RoundsFrom, RunTests, AllTrue;
    var st := InitialState(file);
    assert AllTrue(worlds, st.journal) by { NothingNoted(worlds, st); }
    RunIsRounds(cfg, setup, worlds, file);
    RoundsNoteTruly(cfg, RunTests(cfg.testCommand, setup.baseline), worlds, FirstOf(cfg, file), st);
  }

  lemma NothingNoted(worlds: nat -> World, st: State)
    requires st.journal == []
    ensures AllTrue(worlds, st.journal)
  {
  }
}
