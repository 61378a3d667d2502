/** Each crash is analysed once. */
module BrokerAnalyses {
  import opened Contracts
  import opened Gates
  import opened BrokerModel
  import opened BrokerFrames

  /** No two analysis turns are about the same crash. */
  ghost predicate AnalyzedOnce(journal: seq<Event>) {
    forall i, j :: 0 <= i < j < |journal| && IsAnalysisTurn(journal[i]) && IsAnalysisTurn(journal[j]) ==>
      journal[i].id != journal[j].id
  }

  ghost predicate AnalysesKnown(st: State) {
    forall k :: 0 <= k < |st.journal| && IsAnalysisTurn(st.journal[k]) ==> st.journal[k].id in st.analyzed
  }

  lemma QuietKeepsAnalyses(a: State, b: State)
    requires AnalyzedOnce(a.journal) && Extends(a.journal, b.journal)
    requires forall k :: |a.journal| <= k < |b.journal| ==> !IsAnalysisTurn(b.journal[k])
    ensures AnalyzedOnce(b.journal)
    ensures AnalysesKnown(a) && a.analyzed == b.analyzed ==> AnalysesKnown(b)
  {
  }

  lemma {:induction false} AnalyzeAllKeeps(round: nat, w: World, st: State, fs: seq<Finding>)
    requires AnalyzedOnce(st.journal) && AnalysesKnown(st)
    ensures var r := AnalyzeAll(round, w, st, fs);
      AnalyzedOnce(r.st.journal) && (r.Go? ==> AnalysesKnown(r.st))
    decreases |fs|
  {
    if fs != [] {
      hide AnalyzeOne, AnalyzedOnce, AnalysesKnown;
      var first := AnalyzeOne(round, w, st, fs[0]);
      if first.Go? {
        AnalyzeAllKeeps(round, w, first.st, fs[1..]);
      }
    }
  }

  lemma PhaseKeepsAnalyses(a: State, b: State, round: nat, confirms: bool)
    requires AnalyzedOnce(a.journal) && AnalysesKnown(a) && Quiet(a, b, round, confirms, false)
    ensures AnalyzedOnce(b.journal) && AnalysesKnown(b)
  {
  }

  lemma PrepareKeepsAnalyses(cfg: Config, round: nat, w: World, st: State)
    requires AnalyzedOnce(st.journal) && AnalysesKnown(st)
    ensures var r := Prepare(cfg, round, w, st);
      AnalyzedOnce(r.st.journal) && (r.Go? ==> AnalysesKnown(r.st))
  {
    hide Detect, ConfirmAll, AnalyzeAll, AnalyzedOnce, AnalysesKnown, Quiet;
    var detected := Detect(cfg, round, w, st);
    DetectIsQuiet(cfg, round, w, st);
    PhaseKeepsAnalyses(st, detected.st, round, false);
    if detected.Go? {
      var confirmed := ConfirmAll(round, w, detected.st, detected.value.0);
      ConfirmAllIsQuiet(round, w, detected.st, detected.value.0);
      PhaseKeepsAnalyses(detected.st, confirmed.st, round, true);
      if confirmed.Go? {
        AnalyzeAllKeeps(round, w, confirmed.st, confirmed.value);
      }
    }
  }

  lemma RecordKeepsAnalyses(cfg: Config, w: World, mid: State, rec: Record, end: State)
    requires AnalyzedOnce(mid.journal) && AnalysesKnown(mid) && Records(cfg, w, mid, rec, end)
    ensures AnalyzedOnce(end.journal) && AnalysesKnown(end)
  {
    hide RememberClosed, Filed, Merge, Unresolved;
    QuietKeepsAnalyses(mid, end);
  }

  lemma RoundKeepsAnalyses(cfg: Config, baseline: TestResult, round: nat, w: World, st: State)
    requires AnalyzedOnce(st.journal) && AnalysesKnown(st)
    ensures var r := Round(cfg, baseline, round, w, st);
      AnalyzedOnce(r.st.journal) && (r.Go? ==> AnalysesKnown(r.st))
  {
    hide Round, Prepare, AnalyzedOnce, AnalysesKnown, PostFix, VerifyBatch, StopAfter, Quiet, Records, Reopens;
    PrepareKeepsAnalyses(cfg, round, w, st);
    var r := Round(cfg, baseline, round, w, st);
    if r.Go? {
      var prepared, before, mid, rec := RoundGoes(cfg, baseline, round, w, st);
      PhaseKeepsAnalyses(prepared, before, round, false);
      PhaseKeepsAnalyses(before, mid, round, false);
      RecordKeepsAnalyses(cfg, w, mid, rec, r.st);
    } else {
      RoundStops(cfg, baseline, round, w, st);
      var p := Prepare(cfg, round, w, st);
      if p.Go? {
        StoppingKeepsAnalyses(cfg, p.st, r.st, round);
      }
    }
  }

  lemma StoppingKeepsAnalyses(cfg: Config, a: State, b: State, round: nat)
    requires AnalyzedOnce(a.journal) && Stopped(cfg, a, b, round)
    ensures AnalyzedOnce(b.journal)
  {
  }

  lemma {:induction false} RoundsKeepAnalyses(cfg: Config, baseline: TestResult, worlds: nat -> World, round: nat, st: State)
    requires AnalyzedOnce(st.journal) && AnalysesKnown(st)
    ensures AnalyzedOnce(RoundsFrom(cfg, baseline, worlds, round, st).st.journal)
    decreases cfg.iterationCap + 1 - round
  {
    hide Round, AnalyzedOnce, AnalysesKnown;
    if round <= cfg.iterationCap && !worlds(round).aborted(AtStart) {
      RoundKeepsAnalyses(cfg, baseline, round, worlds(round), st);
      var r := Round(cfg, baseline, round, worlds(round), st);
      if r.Go? && r.value.None? {
        RoundsKeepAnalyses(cfg, baseline, worlds, round + 1, r.st);
      }
    }
  }

  /** However a run ends, it has taken at most one analysis turn about each crash. */
  lemma EachCrashIsAnalyzedOnce(cfg: Config, setup: Setup, worlds: nat -> World, file: string)
    ensures AnalyzedOnce(RunLoop(cfg, setup, worlds, file).st.journal)
  {
    hide RoundsFrom;
    var first := FirstRound(cfg, file);
    if first.Some? {
      RoundsKeepAnalyses(cfg, RunTests(cfg.testCommand, setup.baseline), worlds, first.value, InitialState(file));
    }
  }
}
