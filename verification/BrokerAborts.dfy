/** When a round ends on the abort signal: exactly when the broker looked and saw it set, or took a
    turn that ended on it. */
module BrokerAborts {
  import opened Basics
  import opened Contracts
  import opened Gates
  import opened BrokerModel
  import opened BrokerFrames

  /** This turn ended on the signal. */
  ghost predicate AbortedTurn(w: World, e: Event) {
    e.TurnTaken? &&
    match e.subtask
    case CandidateConfirmation => w.confirm(e.id).TurnAborted?
    case CrashAnalysisTurn => w.analyze(e.id).TurnAborted?
    case ColdHuntTurn => w.hunt.TurnAborted?
    case FixPlanning => w.plan.TurnAborted?
    case FixTurn => w.fix.TurnAborted?
  }

  /** Between these two states such a turn was taken. */
  ghost predicate TurnSaw(w: World, a: State, b: State) {
    exists k :: |a.journal| <= k < |b.journal| && AbortedTurn(w, b.journal[k])
  }

  predicate EndsAborted<T>(r: Flow<T>) {
    r.Halt? && r.why == Aborted
  }

  /** Whether the round gets as far as looking at the signal here. */
  ghost predicate GetsTo(cfg: Config, round: nat, w: World, st: State, phase: Phase) {
    var detected := Detect(cfg, round, w, st);
    var prepared := Prepare(cfg, round, w, st);
    match phase
    case AtStart => true
    case AfterDetect => w.detect.Done?
    case AfterHunt =>
      w.detect.Done? && !w.aborted(AfterDetect) &&
      Hunt(cfg, round, w, Saw(st, Detected(round, w.detect.value.findings))).Go?
    case AfterConfirm => detected.Go? && ConfirmAll(round, w, detected.st, detected.value.0).Go?
    case AfterAnalyze =>
      detected.Go? && !w.aborted(AfterConfirm) &&
      var confirmed := ConfirmAll(round, w, detected.st, detected.value.0);
      confirmed.Go? && AnalyzeAll(round, w, confirmed.st, confirmed.value).Go?
    case AfterFix => prepared.Go? && MaybeFix(cfg, round, w, prepared.st, prepared.value.0).Go?
    case AfterVerify =>
      prepared.Go? && !w.aborted(AfterFix) &&
      var fixing := MaybeFix(cfg, round, w, prepared.st, prepared.value.0);
      fixing.Go? && VerifyBatch(w, fixing.st, prepared.value.0, fixing.value.Some?).Go?
  }

  ghost predicate LookSaw(cfg: Config, round: nat, w: World, st: State, phase: Phase) {
    w.aborted(phase) && GetsTo(cfg, round, w, st, phase)
  }

  // ---- phase by phase -----------------------------------------------------------------

  lemma TurnSawThen(w: World, a: State, b: State, c: State)
    requires Extends(a.journal, b.journal) && Extends(b.journal, c.journal)
    ensures TurnSaw(w, a, c) <==> TurnSaw(w, a, b) || TurnSaw(w, b, c)
  {
    hide AbortedTurn;
    if TurnSaw(w, a, b) {
      var k :| |a.journal| <= k < |b.journal| && AbortedTurn(w, b.journal[k]);
      assert AbortedTurn(w, c.journal[k]);
    }
    if TurnSaw(w, a, c) {
      var k :| |a.journal| <= k < |c.journal| && AbortedTurn(w, c.journal[k]);
      assert k < |b.journal| ==> AbortedTurn(w, b.journal[k]);
    }
  }

  lemma HuntAborts(cfg: Config, round: nat, w: World, st: State)
    ensures EndsAborted(Hunt(cfg, round, w, st)) <==> TurnSaw(w, st, Hunt(cfg, round, w, st).st)
  {
    if cfg.coldHunt {
      assert Hunt(cfg, round, w, st).st.journal[|st.journal|] == TurnTaken(round, ColdHuntTurn, "");
    }
  }

  lemma DetectAborts(cfg: Config, round: nat, w: World, st: State)
    ensures EndsAborted(Detect(cfg, round, w, st)) <==>
      TurnSaw(w, st, Detect(cfg, round, w, st).st) || LookSaw(cfg, round, w, st, AfterDetect) ||
      LookSaw(cfg, round, w, st, AfterHunt)
  {
    hide Hunt, Merge, WithinBar, Prepare, ConfirmAll;
    if w.detect.Done? {
      var seen := Saw(st, Detected(round, w.detect.value.findings));
      HuntAborts(cfg, round, w, seen);
      HuntIsQuiet(cfg, round, w, seen);
      TurnSawThen(w, st, seen, Hunt(cfg, round, w, seen).st);
    }
  }

  lemma ConfirmOneAborts(round: nat, w: World, st: State, f: Finding)
    ensures EndsAborted(ConfirmOne(round, w, st, f)) <==> TurnSaw(w, st, ConfirmOne(round, w, st, f).st)
  {
    hide VerifyOne, Lookup, Put;
    var r := ConfirmOne(round, w, st, f);
    if |r.st.journal| > |st.journal| && r.st.journal[|st.journal|].TurnTaken? {
      assert r.st.journal[|st.journal|] == TurnTaken(round, CandidateConfirmation, f.id);
    }
  }

  lemma {:induction false} ConfirmAllAborts(round: nat, w: World, st: State, fs: seq<Finding>)
    ensures EndsAborted(ConfirmAll(round, w, st, fs)) <==> TurnSaw(w, st, ConfirmAll(round, w, st, fs).st)
    decreases |fs|
  {
    hide ConfirmOne, TurnSaw;
    if fs == [] {
      NothingSaw(w, st);
    } else {
      var first := ConfirmOne(round, w, st, fs[0]);
      ConfirmOneAborts(round, w, st, fs[0]);
      ConfirmOneIsQuiet(round, w, st, fs[0]);
      if first.Go? {
        var rest := ConfirmAll(round, w, first.st, fs[1..]);
        ConfirmAllAborts(round, w, first.st, fs[1..]);
        ConfirmAllIsQuiet(round, w, first.st, fs[1..]);
        TurnSawThen(w, st, first.st, rest.st);
      }
    }
  }

  lemma NothingSaw(w: World, st: State)
    ensures !TurnSaw(w, st, st)
  {
  }

  lemma AnalyzeOneAborts(round: nat, w: World, st: State, f: Finding)
    ensures EndsAborted(AnalyzeOne(round, w, st, f)) <==> TurnSaw(w, st, AnalyzeOne(round, w, st, f).st)
  {
    hide VerifyOne;
    var r := AnalyzeOne(round, w, st, f);
    if f.source == Fuzzer && f.id !in st.analyzed {
      assert r.st.journal[|st.journal|] == TurnTaken(round, CrashAnalysisTurn, f.id);
    }
  }

  lemma {:induction false} AnalyzeAllAborts(round: nat, w: World, st: State, fs: seq<Finding>)
    ensures EndsAborted(AnalyzeAll(round, w, st, fs)) <==> TurnSaw(w, st, AnalyzeAll(round, w, st, fs).st)
    decreases |fs|
  {
    hide AnalyzeOne, TurnSaw;
    if fs == [] {
      NothingSaw(w, st);
    } else {
      var first := AnalyzeOne(round, w, st, fs[0]);
      AnalyzeOneAborts(round, w, st, fs[0]);
      AnalyzeOneIsQuiet(round, w, st, fs[0]);
      if first.Go? {
        var rest := AnalyzeAll(round, w, first.st, fs[1..]);
        AnalyzeAllAborts(round, w, first.st, fs[1..]);
        AnalyzeAllIsQuiet(round, w, first.st, fs[1..]);
        TurnSawThen(w, st, first.st, rest.st);
      }
    }
  }

  lemma PlanAborts(cfg: Config, round: nat, w: World, st: State)
    ensures EndsAborted(Plan(cfg, round, w, st)) <==> TurnSaw(w, st, Plan(cfg, round, w, st).st)
  {
    if cfg.planner {
      assert Plan(cfg, round, w, st).st.journal[|st.journal|] == TurnTaken(round, FixPlanning, "");
    }
  }

  lemma MaybeFixAborts(cfg: Config, round: nat, w: World, st: State, batch: seq<Finding>)
    ensures EndsAborted(MaybeFix(cfg, round, w, st, batch)) <==> TurnSaw(w, st, MaybeFix(cfg, round, w, st, batch).st)
  {
    hide Plan, HasId, TurnSaw;
    NothingSaw(w, st);
    PlanAborts(cfg, round, w, st);
    PlanIsQuiet(cfg, round, w, st);
    var planned := Plan(cfg, round, w, st).st;
    var asked := Saw(planned, TurnTaken(round, FixTurn, ""));
    assert TurnSaw(w, planned, asked) <==> w.fix.TurnAborted? by { OneTurnSaw(w, planned, FixTurn, round); }
    TurnSawThen(w, st, planned, asked);
  }

  lemma OneTurnSaw(w: World, st: State, subtask: Subtask, round: nat)
    ensures TurnSaw(w, st, Saw(st, TurnTaken(round, subtask, ""))) <==> AbortedTurn(w, TurnTaken(round, subtask, ""))
  {
    assert Saw(st, TurnTaken(round, subtask, "")).journal[|st.journal|] == TurnTaken(round, subtask, "");
  }

  lemma PostFixSawNothing(cfg: Config, round: nat, w: World, st: State, crossCheck: bool)
    ensures !TurnSaw(w, st, PostFix(cfg, round, w, st, crossCheck).st)
  {
    hide Merge, WithinBar, WithoutDismissed;
  }

  // ---- the round ----------------------------------------------------------------------

  lemma PrepareAborts(cfg: Config, round: nat, w: World, st: State)
    ensures EndsAborted(Prepare(cfg, round, w, st)) <==>
      TurnSaw(w, st, Prepare(cfg, round, w, st).st) || LookSaw(cfg, round, w, st, AfterDetect) ||
      LookSaw(cfg, round, w, st, AfterHunt) || LookSaw(cfg, round, w, st, AfterConfirm) ||
      LookSaw(cfg, round, w, st, AfterAnalyze)
  {
    hide Detect, Hunt, ConfirmAll, AnalyzeAll, MaybeFix, VerifyBatch, TurnSaw;
    var detected := Detect(cfg, round, w, st);
    DetectAborts(cfg, round, w, st);
    DetectIsQuiet(cfg, round, w, st);
    if detected.Go? {
      var confirmed := ConfirmAll(round, w, detected.st, detected.value.0);
      ConfirmAllAborts(round, w, detected.st, detected.value.0);
      ConfirmAllIsQuiet(round, w, detected.st, detected.value.0);
      TurnSawThen(w, st, detected.st, confirmed.st);
      if confirmed.Go? {
        var analyzed := AnalyzeAll(round, w, confirmed.st, confirmed.value);
        AnalyzeAllAborts(round, w, confirmed.st, confirmed.value);
        AnalyzeAllIsQuiet(round, w, confirmed.st, confirmed.value);
        TurnSawThen(w, st, confirmed.st, analyzed.st);
      }
    }
  }

  lemma ConcludeSawNothing(cfg: Config, baseline: TestResult, round: nat, w: World, st: State, batch: seq<Finding>,
                           report: Option<FixReport>, results: seq<VerifyResult>, runs: seq<DetectorRun>)
    requires |batch| == |results|
    ensures var r := Conclude(cfg, baseline, round, w, st, batch, report, results, runs);
      !TurnSaw(w, st, r.st) && !EndsAborted(r) && Extends(st.journal, r.st.journal)
  {
    var wanted := report.Some? && !Regressed(baseline, RunTests(cfg.testCommand, w.tests));
    PostFixIsQuiet(cfg, round, w, st, wanted);
    PostFixSawNothing(cfg, round, w, st, wanted);
    hide PostFix, Body, Merge, Unresolved, RememberClosed, Verdicts, RunTests, Regressed, AbortedTurn;
  }

  lemma FixAndVerifyAborts(cfg: Config, baseline: TestResult, round: nat, w: World, st: State, batch: seq<Finding>,
                           runs: seq<DetectorRun>)
    ensures var r := FixAndVerify(cfg, baseline, round, w, st, batch, runs);
      var fixing := MaybeFix(cfg, round, w, st, batch);
      Extends(st.journal, r.st.journal) &&
      (EndsAborted(r) <==>
        TurnSaw(w, st, r.st) || (fixing.Go? && w.aborted(AfterFix)) ||
        (fixing.Go? && !w.aborted(AfterFix) && w.aborted(AfterVerify) &&
         VerifyBatch(w, fixing.st, batch, fixing.value.Some?).Go?))
  {
    hide MaybeFix, Conclude, TurnSaw;
    var fixing := MaybeFix(cfg, round, w, st, batch);
    MaybeFixAborts(cfg, round, w, st, batch);
    MaybeFixIsQuiet(cfg, round, w, st, batch);
    if fixing.Go? {
      var verified := VerifyBatch(w, fixing.st, batch, fixing.value.Some?);
      VerifyBatchIsQuiet(w, fixing.st, batch, fixing.value.Some?);
      if verified.Go? {
        ConcludeSawNothing(cfg, baseline, round, w, fixing.st, batch, fixing.value, verified.value, runs);
        TurnSawThen(w, st, fixing.st, Conclude(cfg, baseline, round, w, fixing.st, batch, fixing.value, verified.value, runs).st);
      }
    }
  }

  /** What the broker met of the signal from this state to that one: a look that saw it, or a turn that
      ended on it. */
  ghost predicate MetSignal(cfg: Config, round: nat, w: World, st: State, end: State) {
    TurnSaw(w, st, end) || exists phase :: LookSaw(cfg, round, w, st, phase)
  }

  lemma SomeLook(cfg: Config, round: nat, w: World, st: State)
    requires !w.aborted(AtStart)
    ensures (exists phase :: LookSaw(cfg, round, w, st, phase)) <==>
      LookSaw(cfg, round, w, st, AfterDetect) || LookSaw(cfg, round, w, st, AfterHunt) ||
      LookSaw(cfg, round, w, st, AfterConfirm) || LookSaw(cfg, round, w, st, AfterAnalyze) ||
      LookSaw(cfg, round, w, st, AfterFix) || LookSaw(cfg, round, w, st, AfterVerify)
  {
    hide GetsTo;
    if phase :| LookSaw(cfg, round, w, st, phase) {
      assert phase != AtStart;
    }
  }

  /** A round that has begun ends on an abort exactly when it met the signal. */
  lemma RoundAbortsIff(cfg: Config, baseline: TestResult, round: nat, w: World, st: State)
    requires !w.aborted(AtStart)
    ensures EndsAborted(Round(cfg, baseline, round, w, st)) <==>
      MetSignal(cfg, round, w, st, Round(cfg, baseline, round, w, st).st)
  {
    hide Prepare, FixAndVerify, MaybeFix, VerifyBatch, LookSaw, TurnSaw;
    SomeLook(cfg, round, w, st);
    PrepareAborts(cfg, round, w, st);
    PrepareIsQuiet(cfg, round, w, st);
    LooksAfterPrepare(cfg, round, w, st);
    var p := Prepare(cfg, round, w, st);
    if p.Go? {
      FixAndVerifyAborts(cfg, baseline, round, w, p.st, p.value.0, p.value.1);
      TurnSawThen(w, st, p.st, Round(cfg, baseline, round, w, st).st);
    }
  }

  /** The two looks after the batch is prepared. */
  lemma LooksAfterPrepare(cfg: Config, round: nat, w: World, st: State)
    ensures var p := Prepare(cfg, round, w, st);
      (LookSaw(cfg, round, w, st, AfterFix) <==>
        p.Go? && w.aborted(AfterFix) && MaybeFix(cfg, round, w, p.st, p.value.0).Go?) &&
      (LookSaw(cfg, round, w, st, AfterVerify) <==>
        p.Go? && w.aborted(AfterVerify) && !w.aborted(AfterFix) &&
        var fixing := MaybeFix(cfg, round, w, p.st, p.value.0);
        fixing.Go? && VerifyBatch(w, fixing.st, p.value.0, fixing.value.Some?).Go?)
  {
    hide Prepare, Detect, MaybeFix, VerifyBatch;
  }
}
