/** When a phase goes on: exactly when nothing it asks for fails. */
module BrokerProgress {
  import opened Basics
  import opened Contracts
  import opened Gates
  import opened BrokerModel
  import opened BrokerLists
  import opened BrokerFrames
  import opened BrokerBatches
  import opened BrokerAdmission
  import opened BrokerDecisions
  import opened BrokerCommits

  // ---- what each phase asks for -------------------------------------------------------

  /** The detectors come back, the hunt if there is one answers with findings only, and neither look sees
      the signal. */
  ghost predicate DetectionWorks(cfg: Config, w: World) {
    w.detect.Done? && !w.aborted(AfterDetect) && !w.aborted(AfterHunt) &&
    (cfg.coldHunt ==> w.hunt.Answered? && forall f :: f in RaisedBy(cfg, w) ==> cfg.findingOk(f))
  }

  /** A candidate with no standing dismissal is run again, or answered for and run. */
  ghost predicate ConfirmationWorks(round: nat, w: World, memory: Memory, f: Finding) {
    var verdict := Lookup(memory, f.id);
    f.state == Candidate && !Dismisses(verdict, round) ==>
      if Closes(verdict) then w.recheck(f.id).Done?
      else
        w.confirm(f.id).Answered? && w.confirm(f.id).value.findingId == f.id &&
        (w.confirm(f.id).value.SaysConfirmed? ==> w.confirmRepro(f.id).Done?)
  }

  ghost predicate AnalysisWorks(w: World, analyzed: set<string>, f: Finding) {
    f.source == Fuzzer && f.id !in analyzed ==>
      w.analyze(f.id).Answered? && w.analyze(f.id).value.findingId == f.id && w.analyzeRepro(f.id).Done?
  }

  /** A fix report about this round, by the fixing agent, for findings of this batch. */
  ghost predicate FixWorks(cfg: Config, round: nat, w: World, batch: seq<Finding>) {
    batch != [] ==>
      w.diff.Done? && (cfg.planner ==> w.plan.Answered? && w.plan.value.round == round) && w.fix.Answered? &&
      w.fix.value.round == round && w.fix.value.agent == Claude &&
      forall fix :: fix in w.fix.value.fixes ==> HasId(batch, fix.findingId)
  }

  ghost predicate RescanWorks(w: World) {
    w.refuzz.Done? && (w.rescan.Some? ==> w.rescan.value.Done?)
  }

  // ---- and nothing else ---------------------------------------------------------------

  lemma DetectGoesIff(cfg: Config, round: nat, w: World, st: State)
    ensures Detect(cfg, round, w, st).Go? <==> DetectionWorks(cfg, w)
  {
    hide Merge, WithinBar;
    if w.detect.Done? && cfg.coldHunt && w.hunt.Answered? {
      var raised := RaisedCandidates(cfg, w.hunt.value);
      if w.hunt.value != [] {
        RaisedAt(cfg, w.hunt.value, 0);
      }
      forall i | 0 <= i < |w.hunt.value| ensures raised[i] == RaisedBy(cfg, w)[i] {
        RaisedAt(cfg, w.hunt.value, i);
      }
      assert raised == RaisedBy(cfg, w);
    }
  }

  lemma ConfirmOneGoesIff(round: nat, w: World, st: State, f: Finding)
    ensures ConfirmOne(round, w, st, f).Go? <==> ConfirmationWorks(round, w, st.remembered, f)
  {
    hide Lookup, Put, VerifyOne;
  }

  lemma {:induction false} ConfirmAllGoesIff(round: nat, w: World, st: State, fs: seq<Finding>)
    requires UniqueIds(fs)
    ensures ConfirmAll(round, w, st, fs).Go? <==> forall f :: f in fs ==> ConfirmationWorks(round, w, st.remembered, f)
    decreases |fs|
  {
    hide ConfirmOne, ConfirmationWorks, Lookup;
    if fs != [] {
      var first := ConfirmOne(round, w, st, fs[0]);
      ConfirmOneGoesIff(round, w, st, fs[0]);
      if first.Go? {
        ConfirmAllGoesIff(round, w, first.st, fs[1..]);
        HeadIdIsGone(fs);
        forall f | f in fs[1..]
          ensures ConfirmationWorks(round, w, first.st.remembered, f) <==> ConfirmationWorks(round, w, st.remembered, f)
        {
          var i :| 0 <= i < |fs[1..]| && fs[1..][i] == f;
          assert fs[i + 1] == f;
          ConfirmOneTouchesItsId(round, w, st, fs[0], f.id);
          SameMemoryWorks(round, w, first.st.remembered, st.remembered, f);
        }
        assert forall f :: f in fs <==> f == fs[0] || f in fs[1..];
      } else {
        assert fs[0] in fs;
      }
    }
  }

  lemma SameMemoryWorks(round: nat, w: World, a: Memory, b: Memory, f: Finding)
    requires Lookup(a, f.id) == Lookup(b, f.id)
    ensures ConfirmationWorks(round, w, a, f) <==> ConfirmationWorks(round, w, b, f)
  {
  }

  lemma {:induction false} AnalyzeAllGoesIff(round: nat, w: World, st: State, fs: seq<Finding>)
    requires UniqueIds(fs)
    ensures AnalyzeAll(round, w, st, fs).Go? <==> forall f :: f in fs ==> AnalysisWorks(w, st.analyzed, f)
    decreases |fs|
  {
    hide AnalyzeOne, HasId;
    if fs != [] {
      var first := AnalyzeOne(round, w, st, fs[0]);
      AnalyzeOneGoesIff(round, w, st, fs[0]);
      if first.Go? {
        AnalyzeAllGoesIff(round, w, first.st, fs[1..]);
        AnalyzeOneIsExact(round, w, st, fs[0]);
        forall f | f in fs[1..] ensures AnalysisWorks(w, first.st.analyzed, f) <==> AnalysisWorks(w, st.analyzed, f) {
          var i :| 0 <= i < |fs[1..]| && fs[1..][i] == f;
          assert fs[i + 1] == f && f.id != fs[0].id;
        }
        assert forall f :: f in fs <==> f == fs[0] || f in fs[1..];
      } else {
        assert fs[0] in fs;
      }
    }
  }

  lemma AnalyzeOneGoesIff(round: nat, w: World, st: State, f: Finding)
    ensures AnalyzeOne(round, w, st, f).Go? <==> AnalysisWorks(w, st.analyzed, f)
  {
    hide VerifyOne;
  }

  /** Everything asked for on the way to the batch. */
  ghost predicate PreparationWorks(cfg: Config, round: nat, w: World, st: State) {
    DetectionWorks(cfg, w) && !w.aborted(AfterConfirm) && !w.aborted(AfterAnalyze) &&
    (forall f :: f in Working(cfg, w, st.open) ==> ConfirmationWorks(round, w, st.remembered, f)) &&
    (forall f :: f in Entering(round, w, st.remembered, Working(cfg, w, st.open)) ==> AnalysisWorks(w, st.analyzed, f))
  }

  /** A round gets its batch ready exactly when the detectors come back, every candidate that needs it is
      confirmed or turned down by an answer about itself and a run, every crash that enters is analysed,
      and no look on the way sees the signal. */
  lemma PrepareGoesIff(cfg: Config, round: nat, w: World, st: State)
    ensures Prepare(cfg, round, w, st).Go? <==> PreparationWorks(cfg, round, w, st)
  {
    hide Detect, ConfirmAll, AnalyzeAll, Quiet, WithinBar, Entering, Working, ConfirmationWorks, AnalysisWorks, Lookup, Remembers;
    DetectGoesIff(cfg, round, w, st);
    var detected := Detect(cfg, round, w, st);
    if detected.Go? {
      var working := detected.value.0;
      DetectIsExact(cfg, round, w, st);
      DetectIsQuiet(cfg, round, w, st);
      QuietKeeps(st, detected.st, round, false, false);
      var all := DetectWorks(cfg, round, w, st);
      WithinBarUnique(all, cfg.severityBar);
      ConfirmAllGoesIff(round, w, detected.st, working);
      var confirmed := ConfirmAll(round, w, detected.st, working);
      if confirmed.Go? {
        ConfirmAllIsExact(round, w, detected.st, working);
        ConfirmAllGives(round, w, detected.st, working);
        ConfirmAllIsQuiet(round, w, detected.st, working);
        QuietKeeps(detected.st, confirmed.st, round, true, false);
        AnalyzeAllGoesIff(round, w, confirmed.st, confirmed.value);
      }
    }
  }

  /** The fix is taken exactly when it is about this round and this batch, and it is taken as it is. */
  lemma FixGoesIff(cfg: Config, round: nat, w: World, st: State, batch: seq<Finding>)
    ensures var r := MaybeFix(cfg, round, w, st, batch);
      (r.Go? <==> FixWorks(cfg, round, w, batch)) &&
      (r.Go? ==> r.value == if batch == [] then None else Some(w.fix.value))
  {
    hide HasId;
  }

  lemma PostFixGoesIff(cfg: Config, round: nat, w: World, st: State, crossCheck: bool)
    ensures PostFix(cfg, round, w, st, crossCheck).Go? <==> (crossCheck ==> RescanWorks(w))
  {
    hide Merge, WithinBar, WithoutDismissed;
  }

  // ---- all the way to the commit ------------------------------------------------------

  /** The batch such a round hands to the fix agent. */
  ghost function BatchOf(cfg: Config, round: nat, w: World, st: State): seq<Finding>
    requires w.detect.Done?
  {
    AllAnalyzed(w, st.analyzed, Entering(round, w, st.remembered, Working(cfg, w, st.open)))
  }

  /** Everything asked for on the way to the commit: the batch, a fix report about it, a scope in which
      repros may be run unless the build failed, the passes over the patched source when something was
      fixed and the tests that passed at baseline still pass, and no look that sees the signal. */
  ghost predicate RoundWorks(cfg: Config, baseline: TestResult, round: nat, w: World, st: State) {
    PreparationWorks(cfg, round, w, st) &&
    var batch := BatchOf(cfg, round, w, st);
    FixWorks(cfg, round, w, batch) && !w.aborted(AfterFix) && !w.aborted(AfterVerify) &&
    (w.scopeOk || (batch != [] && w.build == BuildFailed)) &&
    (batch != [] && !(baseline.status == Pass && w.tests.exitCode != Some(0)) ==> RescanWorks(w))
  }

  /** A round gets to its commit exactly when nothing it asks for on the way fails. */
  lemma GetsToCommitIff(cfg: Config, baseline: TestResult, round: nat, w: World, st: State)
    ensures GetsToCommit(cfg, baseline, round, w, st) <==> RoundWorks(cfg, baseline, round, w, st)
  {
    hide Prepare, Detect, MaybeFix, PostFix, FixWorks, RescanWorks, Entering, AllAnalyzed, Working, ConfirmationWorks,
      AnalysisWorks, Remembers;
    PrepareGoesIff(cfg, round, w, st);
    if Prepare(cfg, round, w, st).Go? {
      BatchIsExact(cfg, round, w, st);
      var p := Prepare(cfg, round, w, st);
      FixGoesIff(cfg, round, w, p.st, p.value.0);
      var fixing := MaybeFix(cfg, round, w, p.st, p.value.0);
      if fixing.Go? {
        PostFixGoesIff(cfg, round, w, fixing.st, WantsCheck(cfg, baseline, w, fixing.value));
      }
    }
  }
}
