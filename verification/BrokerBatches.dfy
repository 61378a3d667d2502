/** How a batch comes about: which findings a round works on, and what it hands to the fix agent. */
module BrokerBatches {
  import opened Basics
  import opened Contracts
  import opened Gates
  import opened BrokerModel
  import opened BrokerLists
  import opened BrokerFrames

  // ---- what CONFIRM and ANALYZE make of a finding -------------------------------------

  /** The same bug: an agent may have changed its state, severity, texts and command, nothing else. */
  ghost predicate SameBug(f: Finding, g: Finding) {
    g == f.(state := g.state, severity := g.severity, repro := g.repro, expected := g.expected, description := g.description)
  }

  ghost predicate ComesFrom(g: Finding, fs: seq<Finding>) {
    exists i :: 0 <= i < |fs| && SameBug(fs[i], g)
  }

  /** Nothing left to do to it: confirmed, and analysed if it is a crash. */
  ghost predicate Settled(f: Finding, analyzed: set<string>) {
    f.state == Confirmed && (f.source == Fuzzer ==> f.id in analyzed)
  }

  ghost predicate AllSettled(fs: seq<Finding>, analyzed: set<string>) {
    forall f :: f in fs ==> Settled(f, analyzed)
  }

  lemma ConfirmOneGives(round: nat, w: World, st: State, f: Finding)
    ensures var r := ConfirmOne(round, w, st, f);
      r.Go? ==> |r.value| <= 1 && forall g :: g in r.value ==> SameBug(f, g) && g.state == Confirmed
    ensures f.state == Confirmed ==> ConfirmOne(round, w, st, f) == Go(st, [f])
  {
    hide Lookup, Put, VerifyOne;
  }

  ghost predicate ConfirmedFrom(g: Finding, fs: seq<Finding>) {
    g.state == Confirmed && ComesFrom(g, fs) && HasId(fs, g.id)
  }

  /** Confirmation gives confirmed findings, invents no bug and repeats none. */
  lemma {:induction false} ConfirmAllGives(round: nat, w: World, st: State, fs: seq<Finding>)
    ensures var r := ConfirmAll(round, w, st, fs);
      r.Go? ==> (forall g :: g in r.value ==> ConfirmedFrom(g, fs)) && (UniqueIds(fs) ==> UniqueIds(r.value))
    decreases |fs|
  {
    hide ConfirmOne, SameBug;
    if fs != [] {
      var first := ConfirmOne(round, w, st, fs[0]);
      ConfirmOneGives(round, w, st, fs[0]);
      if first.Go? {
        var rest := ConfirmAll(round, w, first.st, fs[1..]);
        ConfirmAllGives(round, w, first.st, fs[1..]);
        if rest.Go? {
          forall g | g in rest.value ensures ConfirmedFrom(g, fs) && (UniqueIds(fs) ==> g.id != fs[0].id) {
            assert ConfirmedFrom(g, fs[1..]);
            var i :| 0 <= i < |fs[1..]| && SameBug(fs[1..][i], g);
            assert SameBug(fs[i + 1], g);
            SameBugSameId(fs[i + 1], g);
          }
          forall g | g in first.value ensures ConfirmedFrom(g, fs) && g.id == fs[0].id {
            SameBugSameId(fs[0], g);
          }
        }
      }
    }
  }

  lemma SameBugSameId(f: Finding, g: Finding)
    requires SameBug(f, g)
    ensures f.id == g.id
  {
  }

  /** A finding that is already confirmed goes straight through. */
  lemma {:induction false} ConfirmedPasses(round: nat, w: World, st: State, fs: seq<Finding>, f: Finding)
    requires f in fs && f.state == Confirmed
    ensures var r := ConfirmAll(round, w, st, fs); r.Go? ==> f in r.value
    decreases |fs|
  {
    hide ConfirmOne;
    var first := ConfirmOne(round, w, st, fs[0]);
    ConfirmOneGives(round, w, st, fs[0]);
    if first.Go? && f != fs[0] {
      assert f in fs[1..];
      ConfirmedPasses(round, w, first.st, fs[1..], f);
    }
  }

  lemma AnalyzeOneGives(round: nat, w: World, st: State, f: Finding)
    ensures var r := AnalyzeOne(round, w, st, f);
      st.analyzed <= r.st.analyzed &&
      (r.Go? ==> SameBug(f, r.value) && (f.state == Confirmed ==> Settled(r.value, r.st.analyzed)))
    ensures (f.source == Fuzzer ==> f.id in st.analyzed) ==> AnalyzeOne(round, w, st, f) == Go(st, f)
  {
    hide VerifyOne;
  }

  /** Analysis answers finding by finding, in place, and settles what was confirmed. */
  lemma {:induction false} AnalyzeAllGives(round: nat, w: World, st: State, fs: seq<Finding>)
    ensures var r := AnalyzeAll(round, w, st, fs);
      st.analyzed <= r.st.analyzed &&
      (r.Go? ==> |r.value| == |fs| && forall i :: 0 <= i < |fs| ==>
        SameBug(fs[i], r.value[i]) && (fs[i].state == Confirmed ==> Settled(r.value[i], r.st.analyzed)))
    decreases |fs|
  {
    hide AnalyzeOne, SameBug;
    if fs != [] {
      var first := AnalyzeOne(round, w, st, fs[0]);
      AnalyzeOneGives(round, w, st, fs[0]);
      if first.Go? {
        AnalyzeAllGives(round, w, first.st, fs[1..]);
        var r := AnalyzeAll(round, w, st, fs);
        if r.Go? {
          forall i | 0 <= i < |fs|
            ensures SameBug(fs[i], r.value[i]) && (fs[i].state == Confirmed ==> Settled(r.value[i], r.st.analyzed))
          {
            if i > 0 {
              assert fs[1..][i - 1] == fs[i];
            }
          }
        }
      }
    }
  }

  /** A crash that has had its analysis, or a finding that needs none, goes straight through. */
  lemma {:induction false} AnalyzedPasses(round: nat, w: World, st: State, fs: seq<Finding>, f: Finding)
    requires f in fs && (f.source == Fuzzer ==> f.id in st.analyzed)
    ensures var r := AnalyzeAll(round, w, st, fs); r.Go? ==> f in r.value
    decreases |fs|
  {
    hide AnalyzeOne;
    var first := AnalyzeOne(round, w, st, fs[0]);
    AnalyzeOneGives(round, w, st, fs[0]);
    if first.Go? && f != fs[0] {
      assert f in fs[1..];
      AnalyzedPasses(round, w, first.st, fs[1..], f);
    }
  }

  // ---- PREPARE ------------------------------------------------------------------------

  /** What DETECT hands on: one record for each id that was open, detected or raised, the open ones
      first and as they were, of those whose severity meets the bar. */
  lemma DetectWorks(cfg: Config, round: nat, w: World, st: State) returns (all: seq<Finding>)
    requires Detect(cfg, round, w, st).Go?
    ensures w.detect.Done? && Hunt(cfg, round, w, Saw(st, Detected(round, w.detect.value.findings))).Go?
    ensures Detect(cfg, round, w, st).value.0 == WithinBar(all, cfg.severityBar) && UniqueIds(all)
    ensures UniqueIds(st.open) ==> st.open <= all
    ensures forall id :: HasId(all, id) <==>
      HasId(st.open, id) || HasId(w.detect.value.findings, id) ||
      HasId(Hunt(cfg, round, w, Saw(st, Detected(round, w.detect.value.findings))).value, id)
  {
    hide Merge, WithinBar, Hunt;
    var scan := w.detect.value;
    var detected := Merge(st.open, scan.findings);
    var raised := Hunt(cfg, round, w, Saw(st, Detected(round, scan.findings))).value;
    all := Merge(detected, raised);
    MergeKeeps(st.open, scan.findings);
    MergeKeeps(detected, raised);
  }

  /** A batch holds settled findings with distinct ids, each of them the bug that was open, detected or
      raised under its id: no agent answer adds one, renames one or moves one. */
  lemma BatchIsSettled(cfg: Config, round: nat, w: World, st: State)
    ensures var r := Prepare(cfg, round, w, st);
      r.Go? ==>
        UniqueIds(r.value.0) && AllSettled(r.value.0, r.st.analyzed) &&
        forall g :: g in r.value.0 ==> ComesFrom(g, Detect(cfg, round, w, st).value.0)
  {
    hide Detect, ConfirmAll, AnalyzeAll, WithinBar, SameBug, Settled;
    if Prepare(cfg, round, w, st).Go? {
      var detected := Detect(cfg, round, w, st);
      var all := DetectWorks(cfg, round, w, st);
      WithinBarUnique(all, cfg.severityBar);
      var confirmed := ConfirmAll(round, w, detected.st, detected.value.0);
      ConfirmAllGives(round, w, detected.st, detected.value.0);
      AnalyzeAllGives(round, w, confirmed.st, confirmed.value);
      var batch := AnalyzeAll(round, w, confirmed.st, confirmed.value);
      forall k | 0 <= k < |batch.value|
        ensures batch.value[k].id == confirmed.value[k].id && Settled(batch.value[k], batch.st.analyzed) &&
          ComesFrom(batch.value[k], detected.value.0)
      {
        SameBugSameId(confirmed.value[k], batch.value[k]);
        assert ConfirmedFrom(confirmed.value[k], detected.value.0);
        SameBugComesFrom(confirmed.value[k], batch.value[k], detected.value.0);
      }
    }
  }

  lemma SameBugComesFrom(f: Finding, g: Finding, fs: seq<Finding>)
    requires SameBug(f, g) && ComesFrom(f, fs)
    ensures ComesFrom(g, fs)
  {
    var i :| 0 <= i < |fs| && SameBug(fs[i], f);
    assert SameBug(fs[i], g);
  }

  /** What the next round makes of a confirmed finding left open by the last: exactly when its severity
      meets the bar it is in the batch, and otherwise nothing with its id is. A crash that has yet to be
      analysed, such as one the fuzzers brought back, is analysed on the way; any other stays the same
      record. */
  lemma OpenReachesBatchIff(cfg: Config, round: nat, w: World, st: State, f: Finding)
    requires UniqueIds(st.open) && f in st.open && f.state == Confirmed
    requires Prepare(cfg, round, w, st).Go?
    ensures var batch := Prepare(cfg, round, w, st).value.0;
      (HasId(batch, f.id) <==> MeetsBar(f.severity, cfg.severityBar)) &&
      (Settled(f, st.analyzed) ==> (f in batch <==> MeetsBar(f.severity, cfg.severityBar)))
  {
    hide Detect, ConfirmAll, AnalyzeAll, WithinBar, MeetsBar, Quiet;
    var detected := Detect(cfg, round, w, st);
    OpenWorksIff(cfg, round, w, st, f);
    var working := detected.value.0;
    var confirmed := ConfirmAll(round, w, detected.st, working);
    var analyzed := AnalyzeAll(round, w, confirmed.st, confirmed.value);
    AnalysisKeepsIds(round, w, confirmed.st, confirmed.value, f.id);
    if f in working {
      ConfirmedPasses(round, w, detected.st, working, f);
      if Settled(f, st.analyzed) {
        SettledStaysSettled(cfg, round, w, st, f);
        AnalyzedPasses(round, w, confirmed.st, confirmed.value, f);
      }
    } else {
      UnworkedStaysOut(cfg, round, w, st, f.id);
    }
  }

  /** An open finding is worked on, as it is, exactly when its severity meets the bar; otherwise nothing
      with its id is. */
  lemma OpenWorksIff(cfg: Config, round: nat, w: World, st: State, f: Finding)
    requires UniqueIds(st.open) && f in st.open && Detect(cfg, round, w, st).Go?
    ensures var working := Detect(cfg, round, w, st).value.0;
      UniqueIds(working) && (f in working <==> MeetsBar(f.severity, cfg.severityBar)) &&
      (HasId(working, f.id) <==> MeetsBar(f.severity, cfg.severityBar))
  {
    hide Detect, WithinBar, MeetsBar;
    var working := Detect(cfg, round, w, st).value.0;
    var all := DetectWorks(cfg, round, w, st);
    var i :| 0 <= i < |st.open| && st.open[i] == f;
    assert all[i] == f;
    WithinBarMember(all, cfg.severityBar, f);
    WithinBarUnique(all, cfg.severityBar);
    if m :| 0 <= m < |working| && working[m].id == f.id {
      WithinBarMember(all, cfg.severityBar, working[m]);
    }
  }

  lemma NoneAmong(xs: seq<Finding>, fs: seq<Finding>, id: string)
    requires !HasId(fs, id) && forall g :: g in xs ==> HasId(fs, g.id)
    ensures !HasId(xs, id)
  {
  }

  lemma UnworkedStaysOut(cfg: Config, round: nat, w: World, st: State, id: string)
    requires Prepare(cfg, round, w, st).Go? && !HasId(Detect(cfg, round, w, st).value.0, id)
    ensures !HasId(Prepare(cfg, round, w, st).value.0, id)
  {
    hide Detect, ConfirmAll, AnalyzeAll, HasId, SameBug;
    var detected := Detect(cfg, round, w, st);
    var confirmed := ConfirmAll(round, w, detected.st, detected.value.0);
    ConfirmAllGives(round, w, detected.st, detected.value.0);
    NoneAmong(confirmed.value, detected.value.0, id);
    AnalysisKeepsIds(round, w, confirmed.st, confirmed.value, id);
  }

  /** Analysis renames nothing. */
  lemma AnalysisKeepsIds(round: nat, w: World, st: State, fs: seq<Finding>, id: string)
    requires AnalyzeAll(round, w, st, fs).Go?
    ensures HasId(AnalyzeAll(round, w, st, fs).value, id) <==> HasId(fs, id)
  {
    hide AnalyzeAll, SameBug, Settled;
    AnalyzeAllGives(round, w, st, fs);
    var analyzed := AnalyzeAll(round, w, st, fs).value;
    forall i | 0 <= i < |fs| ensures analyzed[i].id == fs[i].id {
      SameBugSameId(fs[i], analyzed[i]);
    }
  }

  /** The set of analysed crashes is untouched until ANALYZE. */
  lemma SettledStaysSettled(cfg: Config, round: nat, w: World, st: State, f: Finding)
    requires Settled(f, st.analyzed) && Detect(cfg, round, w, st).Go?
    ensures var detected := Detect(cfg, round, w, st);
      Settled(f, ConfirmAll(round, w, detected.st, detected.value.0).st.analyzed)
  {
    hide Detect, ConfirmAll;
    DetectIsQuiet(cfg, round, w, st);
    var detected := Detect(cfg, round, w, st);
    ConfirmAllIsQuiet(round, w, detected.st, detected.value.0);
  }

  // ---- agents that keep to the bar ----------------------------------------------------

  /** Every severity an agent gives in this round meets the bar. */
  ghost predicate AgentsMeetBar(cfg: Config, w: World) {
    forall id ::
      (w.confirm(id).Answered? && w.confirm(id).value.SaysConfirmed? ==>
        MeetsBar(w.confirm(id).value.severity, cfg.severityBar)) &&
      (w.analyze(id).Answered? ==> MeetsBar(w.analyze(id).value.severity, cfg.severityBar))
  }

  ghost predicate AllMeetBar(cfg: Config, fs: seq<Finding>) {
    forall f :: f in fs ==> MeetsBar(f.severity, cfg.severityBar)
  }

  lemma ConfirmOneMeetsBar(cfg: Config, round: nat, w: World, st: State, f: Finding)
    requires AgentsMeetBar(cfg, w) && MeetsBar(f.severity, cfg.severityBar)
    ensures var r := ConfirmOne(round, w, st, f); r.Go? ==> AllMeetBar(cfg, r.value)
  {
    hide Lookup, Put, VerifyOne, MeetsBar;
  }

  lemma {:induction false} ConfirmAllMeetsBar(cfg: Config, round: nat, w: World, st: State, fs: seq<Finding>)
    requires AgentsMeetBar(cfg, w) && AllMeetBar(cfg, fs)
    ensures var r := ConfirmAll(round, w, st, fs); r.Go? ==> AllMeetBar(cfg, r.value)
    decreases |fs|
  {
    hide ConfirmOne, AgentsMeetBar, MeetsBar;
    if fs != [] {
      var first := ConfirmOne(round, w, st, fs[0]);
      ConfirmOneMeetsBar(cfg, round, w, st, fs[0]);
      if first.Go? {
        ConfirmAllMeetsBar(cfg, round, w, first.st, fs[1..]);
      }
    }
  }

  lemma AnalyzeOneMeetsBar(cfg: Config, round: nat, w: World, st: State, f: Finding)
    requires AgentsMeetBar(cfg, w) && MeetsBar(f.severity, cfg.severityBar)
    ensures var r := AnalyzeOne(round, w, st, f); r.Go? ==> MeetsBar(r.value.severity, cfg.severityBar)
  {
    hide VerifyOne, MeetsBar;
  }

  lemma {:induction false} AnalyzeAllMeetsBar(cfg: Config, round: nat, w: World, st: State, fs: seq<Finding>)
    requires AgentsMeetBar(cfg, w) && AllMeetBar(cfg, fs)
    ensures var r := AnalyzeAll(round, w, st, fs); r.Go? ==> AllMeetBar(cfg, r.value)
    decreases |fs|
  {
    hide AnalyzeOne, AgentsMeetBar, MeetsBar;
    if fs != [] {
      var first := AnalyzeOne(round, w, st, fs[0]);
      AnalyzeOneMeetsBar(cfg, round, w, st, fs[0]);
      if first.Go? {
        AnalyzeAllMeetsBar(cfg, round, w, first.st, fs[1..]);
      }
    }
  }

  lemma PrepareMeetsBar(cfg: Config, round: nat, w: World, st: State)
    requires AgentsMeetBar(cfg, w)
    ensures var r := Prepare(cfg, round, w, st); r.Go? ==> AllMeetBar(cfg, r.value.0)
  {
    hide Detect, ConfirmAll, AnalyzeAll, WithinBar, MeetsBar, AgentsMeetBar;
    if Prepare(cfg, round, w, st).Go? {
      var detected := Detect(cfg, round, w, st);
      var all := DetectWorks(cfg, round, w, st);
      forall f | f in detected.value.0 ensures MeetsBar(f.severity, cfg.severityBar) {
        WithinBarMember(all, cfg.severityBar, f);
      }
      ConfirmAllMeetsBar(cfg, round, w, detected.st, detected.value.0);
      var confirmed := ConfirmAll(round, w, detected.st, detected.value.0);
      AnalyzeAllMeetsBar(cfg, round, w, confirmed.st, confirmed.value);
    }
  }
}
