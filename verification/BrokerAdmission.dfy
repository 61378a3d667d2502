/** What decides whether a finding gets into a round's batch. */
module BrokerAdmission {
  import opened Basics
  import opened Contracts
  import opened Gates
  import opened BrokerModel
  import opened BrokerLists
  import opened BrokerFrames
  import opened BrokerBatches

  ghost predicate Holds(run: Attempt<ReproRun>) {
    run.Done? && Survives(run.value)
  }

  /** A verdict that spares a candidate its turn: a dismissal less than five rounds old, or a closure with
      the command that closed it. */
  ghost predicate Dismisses(verdict: Option<FindingVerdict>, round: nat) {
    verdict.Some? && verdict.value.verdict.VerdictDismissed? && round < verdict.value.decidedInRound + 5
  }

  ghost predicate Closes(verdict: Option<FindingVerdict>) {
    verdict.Some? && verdict.value.verdict.VerdictClosed? && verdict.value.repro.Some?
  }

  /** Judged against what was remembered before the round looked at any finding. */
  ghost predicate Admitted(round: nat, w: World, memory: Memory, f: Finding) {
    var verdict := Lookup(memory, f.id);
    match f.state
    case Confirmed => true
    case Dismissed => false
    case Candidate =>
      if Dismisses(verdict, round) then false
      else if Closes(verdict) then Holds(w.recheck(f.id))
      else w.confirm(f.id).Answered? && w.confirm(f.id).value.SaysConfirmed? && Holds(w.confirmRepro(f.id))
  }

  lemma ConfirmOneTouchesItsId(round: nat, w: World, st: State, f: Finding, id: string)
    requires id != f.id
    ensures Lookup(ConfirmOne(round, w, st, f).st.remembered, id) == Lookup(st.remembered, id)
  {
    LookupPut(st.remembered, f.id, FindingVerdict(f.id, VerdictDismissed, None, round), id);
    ConfirmCandidateIsQuiet(round, w, st, f);
    hide Lookup, Put, VerifyOne, ConfirmCandidate;
  }

  lemma ConfirmOneAdmits(round: nat, w: World, st: State, f: Finding)
    requires ConfirmOne(round, w, st, f).Go?
    ensures HasId(ConfirmOne(round, w, st, f).value, f.id) <==> Admitted(round, w, st.remembered, f)
  {
    var r := ConfirmOne(round, w, st, f).value;
    assert HasId(r, f.id) <==> r != [] by {
      if r != [] {
        assert r[0] in r;
      }
    }
    hide Lookup, Put, VerifyOne, HasId;
  }

  /** A finding gets through confirmation exactly when it is admitted. */
  lemma {:induction false} ConfirmedIff(round: nat, w: World, st: State, fs: seq<Finding>, f: Finding)
    requires UniqueIds(fs) && f in fs && ConfirmAll(round, w, st, fs).Go?
    ensures HasId(ConfirmAll(round, w, st, fs).value, f.id) <==> Admitted(round, w, st.remembered, f)
    decreases |fs|
  {
    hide ConfirmOne;
    var first := ConfirmOne(round, w, st, fs[0]);
    ConfirmOneGives(round, w, st, fs[0]);
    ConfirmOneAdmits(round, w, st, fs[0]);
    var rest := ConfirmAll(round, w, first.st, fs[1..]);
    ConfirmAllGives(round, w, first.st, fs[1..]);
    HasIdConcat(first.value, rest.value, f.id);
    hide Admitted, ConfirmAll, HasId;
    if f == fs[0] {
      HeadIdIsGone(fs);
      NoneAmong(rest.value, fs[1..], f.id);
    } else {
      assert f in fs[1..];
      var i :| 0 <= i < |fs| && fs[i] == f;
      assert f.id != fs[0].id;
      ConfirmedIff(round, w, first.st, fs[1..], f);
      SameMemorySameAdmission(round, w, st, first.st, fs[0], f);
      AnotherId(first.value, fs[0].id, f.id);
    }
  }

  lemma HeadIdIsGone(fs: seq<Finding>)
    requires UniqueIds(fs) && fs != []
    ensures !HasId(fs[1..], fs[0].id)
  {
  }

  lemma AnotherId(xs: seq<Finding>, only: string, id: string)
    requires only != id && forall g :: g in xs ==> g.id == only
    ensures !HasId(xs, id)
  {
  }

  lemma SameMemorySameAdmission(round: nat, w: World, st: State, after: State, g: Finding, f: Finding)
    requires g.id != f.id && after == ConfirmOne(round, w, st, g).st
    ensures Admitted(round, w, after.remembered, f) <==> Admitted(round, w, st.remembered, f)
  {
    ConfirmOneTouchesItsId(round, w, st, g, f.id);
    hide ConfirmOne, Lookup, Holds;
  }

  /** A finding the round works on gets into the batch exactly when it is admitted, judged against what
      was remembered when the round began: no other finding has any say in it. */
  lemma AdmissionIff(cfg: Config, round: nat, w: World, st: State, f: Finding)
    requires Prepare(cfg, round, w, st).Go? && f in Detect(cfg, round, w, st).value.0
    ensures HasId(Prepare(cfg, round, w, st).value.0, f.id) <==> Admitted(round, w, st.remembered, f)
  {
    hide Detect, ConfirmAll, AnalyzeAll, Quiet, WithinBar, HasId, Admitted;
    var detected := Detect(cfg, round, w, st);
    DetectIsQuiet(cfg, round, w, st);
    RememberedIsQuiet(st, detected.st, round);
    var all := DetectWorks(cfg, round, w, st);
    WithinBarUnique(all, cfg.severityBar);
    ConfirmedIff(round, w, detected.st, detected.value.0, f);
    var confirmed := ConfirmAll(round, w, detected.st, detected.value.0);
    AnalysisKeepsIds(round, w, confirmed.st, confirmed.value, f.id);
  }

  /** Any finding left open, whether a confirmed one, a crash the fuzzers brought back or a candidate a
      scanner did, is in the next batch exactly when its severity meets the bar and it is admitted. */
  lemma OpenIsTakenUpIff(cfg: Config, round: nat, w: World, st: State, f: Finding)
    requires UniqueIds(st.open) && f in st.open && Prepare(cfg, round, w, st).Go?
    ensures HasId(Prepare(cfg, round, w, st).value.0, f.id) <==>
      MeetsBar(f.severity, cfg.severityBar) && Admitted(round, w, st.remembered, f)
  {
    hide Detect, ConfirmAll, AnalyzeAll, HasId, Admitted, MeetsBar;
    OpenWorksIff(cfg, round, w, st, f);
    var working := Detect(cfg, round, w, st).value.0;
    if f in working {
      AdmissionIff(cfg, round, w, st, f);
    } else {
      UnworkedStaysOut(cfg, round, w, st, f.id);
    }
  }

  /** A candidate that an earlier round closed is dropped for the round when its repro can no longer
      be judged: inconclusive is not enough to bring it back, while a batch finding stays open on it. */
  lemma InconclusiveRecheckDrops(cfg: Config, round: nat, w: World, st: State, f: Finding)
    requires Prepare(cfg, round, w, st).Go? && f in Detect(cfg, round, w, st).value.0
    requires f.state == Candidate && Closes(Lookup(st.remembered, f.id))
    requires w.recheck(f.id).Done? && !Completed(w.recheck(f.id).value)
    ensures !HasId(Prepare(cfg, round, w, st).value.0, f.id)
  {
    AdmissionIff(cfg, round, w, st, f);
    hide Prepare, Detect, VerifyOne, Lookup;
  }

  // ---- what the passes after the fix bring back ---------------------------------------

  ghost predicate IsDismissed(memory: Memory, id: string) {
    Lookup(memory, id).Some? && Lookup(memory, id).value.verdict.VerdictDismissed?
  }

  /** What is reopened: whatever the fuzzers found again, and whatever the scanners found again at or
      above the bar, except what memory has dismissed. How old the dismissal is makes no difference
      here, though the next round would no longer count one of five rounds or more. */
  lemma ReopenedIff(cfg: Config, round: nat, w: World, st: State, id: string)
    requires PostFix(cfg, round, w, st, true).Go? && w.rescan.Some?
    ensures w.refuzz.Done? && w.rescan.value.Done?
    ensures HasId(PostFix(cfg, round, w, st, true).value.0, id) <==>
      HasId(w.refuzz.value.findings, id) ||
      (!IsDismissed(st.remembered, id) && HasId(WithinBar(w.rescan.value.value.findings, cfg.severityBar), id))
  {
    var within := WithinBar(w.rescan.value.value.findings, cfg.severityBar);
    var unseen := WithoutDismissed(st.remembered, within);
    MergeKeeps(w.refuzz.value.findings, unseen);
    hide Merge, WithinBar, Lookup;
    if i :| 0 <= i < |unseen| && unseen[i].id == id {
      WithoutDismissedMember(st.remembered, within, unseen[i]);
    }
    if i :| 0 <= i < |within| && within[i].id == id {
      WithoutDismissedMember(st.remembered, within, within[i]);
    }
  }

  // ---- what a resumed run inherits ----------------------------------------------------

  ghost predicate TurnBought(journal: seq<Event>, round: nat, id: string) {
    exists k :: 0 <= k < |journal| && journal[k] == TurnTaken(round, CandidateConfirmation, id)
  }

  lemma ConfirmOneBuys(round: nat, w: World, st: State, f: Finding)
    requires f.state == Candidate && Lookup(st.remembered, f.id).None?
    ensures TurnBought(ConfirmOne(round, w, st, f).st.journal, round, f.id)
  {
    hide Lookup, Put, VerifyOne;
    var asked := Saw(st, TurnTaken(round, CandidateConfirmation, f.id));
    assert asked.journal[|st.journal|] == TurnTaken(round, CandidateConfirmation, f.id);
    assert ConfirmOne(round, w, st, f).st.journal[|st.journal|] == TurnTaken(round, CandidateConfirmation, f.id);
  }

  lemma TurnStaysBought(a: State, b: State, round: nat, id: string, confirms: bool, analyzes: bool)
    requires Quiet(a, b, round, confirms, analyzes) && TurnBought(a.journal, round, id)
    ensures TurnBought(b.journal, round, id)
  {
  }

  lemma {:induction false} ConfirmAllBuys(round: nat, w: World, st: State, fs: seq<Finding>, f: Finding)
    requires UniqueIds(fs) && f in fs && ConfirmAll(round, w, st, fs).Go?
    requires f.state == Candidate && Lookup(st.remembered, f.id).None?
    ensures TurnBought(ConfirmAll(round, w, st, fs).st.journal, round, f.id)
    decreases |fs|
  {
    hide ConfirmOne, Quiet;
    var first := ConfirmOne(round, w, st, fs[0]);
    if f == fs[0] {
      ConfirmOneBuys(round, w, st, f);
      ConfirmAllIsQuiet(round, w, first.st, fs[1..]);
      TurnStaysBought(first.st, ConfirmAll(round, w, first.st, fs[1..]).st, round, f.id, true, false);
    } else {
      assert f in fs[1..];
      var i :| 0 <= i < |fs| && fs[i] == f;
      ConfirmOneTouchesItsId(round, w, st, fs[0], f.id);
      ConfirmAllBuys(round, w, first.st, fs[1..], f);
    }
  }

  /** The first round of any run, resumed or not, buys a confirmation turn for every candidate it
      works on, whatever verdicts the ledger holds: the memory is filled from a list of entries that
      is still empty. */
  lemma NoVerdictIsInherited(cfg: Config, round: nat, w: World, file: string, f: Finding)
    requires Prepare(cfg, round, w, InitialState(file)).Go?
    requires f in Detect(cfg, round, w, InitialState(file)).value.0 && f.state == Candidate
    ensures TurnBought(Prepare(cfg, round, w, InitialState(file)).st.journal, round, f.id)
  {
    hide Detect, ConfirmAll, AnalyzeAll, Quiet, WithinBar;
    var st := InitialState(file);
    var detected := Detect(cfg, round, w, st);
    DetectIsQuiet(cfg, round, w, st);
    assert detected.st.remembered == st.remembered by {
      RememberedIsQuiet(st, detected.st, round);
    }
    var all := DetectWorks(cfg, round, w, st);
    WithinBarUnique(all, cfg.severityBar);
    ConfirmAllBuys(round, w, detected.st, detected.value.0, f);
    var confirmed := ConfirmAll(round, w, detected.st, detected.value.0);
    AnalyzeAllIsQuiet(round, w, confirmed.st, confirmed.value);
    TurnStaysBought(confirmed.st, AnalyzeAll(round, w, confirmed.st, confirmed.value).st, round, f.id, false, true);
  }

  lemma RememberedIsQuiet(a: State, b: State, round: nat)
    requires Quiet(a, b, round, false, false)
    ensures b.remembered == a.remembered
  {
  }
}
