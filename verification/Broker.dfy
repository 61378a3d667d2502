/** The broker as src/broker/state-machine.ts writes it: one object whose fields the round updates,
    each method tied to the function that says what it does to the whole state. */
module Broker {
  import opened Basics
  import opened Contracts
  import opened Gates
  import opened BrokerModel
  import opened BrokerLists
  import Ledger

  /** What a call comes back with, or the error that ends the run. */
  datatype Signal<+T> = Got(value: T) | Stopped(why: Why) {
    predicate IsFailure() {
      Stopped?
    }

    function PropagateFailure<U>(): Signal<U>
      requires Stopped?
    {
      Stopped(why)
    }

    function Extract(): T
      requires Got?
    {
      value
    }
  }

  /** The signal and the state it leaves, as one value. */
  ghost function Ending<T>(st: State, r: Signal<T>): Flow<T> {
    match r case Got(value) => Go(st, value) case Stopped(why) => Halt(st, why)
  }

  /** A loop that has collected `prefix` so far and has the rest to do. */
  ghost function Collecting<T>(prefix: seq<T>, rest: Flow<seq<T>>): Flow<seq<T>> {
    match rest case Go(st, value) => Go(st, prefix + value) case Halt(st, why) => Halt(st, why)
  }

  /** A fix report that is believed: about this round, signed by the fixing agent, claiming nothing
      outside the batch. */
  ghost predicate IsAbout(report: FixReport, round: nat, batch: seq<Finding>) {
    report.round == round && report.agent == Claude && forall fix :: fix in report.fixes ==> HasId(batch, fix.findingId)
  }

  class Run {
    const cfg: Config
    const ledger: Ledger.LedgerWriter
    var open: seq<Finding>
    var remembered: Memory
    var analyzedCrashes: set<string>
    var entries: seq<Record>
    var commits: nat
    var currentRound: nat
    var journal: seq<Event>

    ghost predicate Valid() {
      ledger.rules == cfg.rules
    }

    function St(): State
      reads this, ledger
    {
      State(open, remembered, analyzedCrashes, entries, ledger.contents, commits, journal)
    }

    constructor (cfg: Config, ledger: Ledger.LedgerWriter)
      requires ledger.rules == cfg.rules
      ensures this.cfg == cfg && this.ledger == ledger && Valid()
      ensures St() == InitialState(ledger.contents)
    {
      this.cfg := cfg;
      this.ledger := ledger;
      open, remembered, analyzedCrashes, entries, commits, currentRound, journal := [], [], {}, [], 0, 0, [];
    }

    /** Fills the memory from the entries the run holds, which at the start are none. */
    method SeedRemembered()
      modifies `remembered
      ensures remembered == SeedFromAll(old(remembered), entries)
    {
      for i := 0 to |entries|
        invariant SeedFromAll(old(remembered), entries) == SeedFromAll(remembered, entries[i..])
      {
        var verdicts := entries[i].verdicts;
        ghost var before := remembered;
        for k := 0 to |verdicts|
          invariant SeedFrom(before, verdicts) == SeedFrom(remembered, verdicts[k..])
        {
          remembered := Put(remembered, verdicts[k].findingId, verdicts[k]);
          assert verdicts[k..][1..] == verdicts[k + 1..];
        }
        assert entries[i..][1..] == entries[i + 1..];
      }
    }

    method Note(e: Event)
      modifies `journal
      ensures St() == Saw(old(St()), e)
    {
      journal := journal + [e];
    }

    method ThrowIfAborted(w: World, phase: Phase) returns (r: Signal<()>)
      ensures Ending(St(), r) == CheckAbort(w, phase, St())
    {
      r := if w.aborted(phase) then Stopped(Aborted) else Got(());
    }

    method TakeTurn<T>(subtask: Subtask, id: string, answer: Turn<T>) returns (r: Signal<T>)
      modifies `journal
      ensures Ending(St(), r) == Ask(old(St()), currentRound, subtask, id, answer)
    {
      Note(TurnTaken(currentRound, subtask, id));
      match answer
      case Answered(value) => r := Got(value);
      case TurnAborted => r := Stopped(Aborted);
      case TurnFailed => r := Stopped(Failed);
    }

    method Reproduces(f: Finding, run: Attempt<ReproRun>) returns (r: Signal<Outcome>)
      modifies `journal
      ensures Ending(St(), r) == RunRepro(old(St()), currentRound, f, run)
    {
      match run
      case Threw => r := Stopped(Failed);
      case Done(answer) =>
        var results := VerifyFindings([f], id => answer);
        assert results == [VerifyOne(f, answer)];
        Note(ReproRan(currentRound, f.id, f.repro, results[0].outcome));
        r := Got(results[0].outcome);
    }

    method ConfirmCandidate(w: World, candidate: Finding) returns (r: Signal<Option<Finding>>)
      modifies `journal
      ensures Ending(St(), r) == BrokerModel.ConfirmCandidate(currentRound, w, old(St()), candidate)
    {
      var verdict :- TakeTurn(CandidateConfirmation, candidate.id, w.confirm(candidate.id));
      if verdict.findingId != candidate.id {
        return Stopped(Failed);
      }
      match verdict
      case SaysDismissed(_) =>
        Note(Ruled(currentRound, candidate.id, false));
        return Got(None);
      case SaysConfirmed(_, severity, repro, expected) =>
        var promoted := Promote(candidate, severity, repro, expected);
        var outcome :- Reproduces(promoted, w.confirmRepro(candidate.id));
        var holds := outcome == Survived;
        Note(Ruled(currentRound, candidate.id, holds));
        return Got(if holds then Some(promoted) else None);
    }

    method RememberVerdict(v: FindingVerdict)
      modifies `remembered
      ensures St() == Remember(old(St()), v)
    {
      remembered := Put(remembered, v.findingId, v);
    }

    /** One pass of the confirmation loop: what the finding adds to the confirmed list. */
    method ConfirmFinding(w: World, finding: Finding) returns (r: Signal<seq<Finding>>)
      modifies `journal, `remembered
      ensures Ending(St(), r) == ConfirmOne(currentRound, w, old(St()), finding)
    {
      hide VerifyOne, Lookup, Put, BrokerModel.ConfirmCandidate;
      if finding.state == Dismissed {
        return Got([]);
      }
      if finding.state == Confirmed {
        return Got([finding]);
      }
      var carried := Lookup(remembered, finding.id);
      if CarriedDismissal(carried, currentRound) {
        return Got([]);
      }
      if CarriedClosure(carried) {
        var reopened := Reopen(finding, carried.value.repro.value);
        var outcome :- Reproduces(reopened, w.recheck(finding.id));
        return Got(if outcome == Survived then [reopened] else []);
      }
      var promoted :- ConfirmCandidate(w, finding);
      if promoted.Some? {
        return Got([promoted.value]);
      }
      RememberVerdict(FindingVerdict(finding.id, VerdictDismissed, None, currentRound));
      return Got([]);
    }

    method ConfirmWorking(w: World, working: seq<Finding>) returns (r: Signal<seq<Finding>>)
      modifies `journal, `remembered
      ensures Ending(St(), r) == ConfirmAll(currentRound, w, old(St()), working)
    {
      hide ConfirmOne;
      var confirmed := [];
      CollectingNothing(ConfirmAll(currentRound, w, St(), working));
      assert working[0..] == working;
      for i := 0 to |working|
        invariant Collecting(confirmed, ConfirmAll(currentRound, w, St(), working[i..])) ==
          ConfirmAll(currentRound, w, old(St()), working)
      {
        ghost var st := St();
        assert working[i..][0] == working[i] && working[i..][1..] == working[i + 1..];
        var kept :- ConfirmFinding(w, working[i]);
        CollectingMore(confirmed, kept, ConfirmAll(currentRound, w, St(), working[i + 1..]));
        confirmed := confirmed + kept;
      }
      r := Got(confirmed);
      assert confirmed + [] == confirmed;
    }

    method AnalyzeCrash(w: World, crash: Finding) returns (r: Signal<Finding>)
      modifies `journal
      ensures Ending(St(), r) == BrokerModel.AnalyzeCrash(currentRound, w, old(St()), crash)
    {
      var analysis :- TakeTurn(CrashAnalysisTurn, crash.id, w.analyze(crash.id));
      if analysis.findingId != crash.id {
        return Stopped(Failed);
      }
      var analyzed := crash.(severity := analysis.severity, expected := analysis.expected,
                             description := crash.description + " Root cause: " + analysis.rootCause);
      var proposed := analyzed.(repro := analysis.repro);
      var outcome :- Reproduces(proposed, w.analyzeRepro(crash.id));
      r := Got(if outcome == Survived then proposed else analyzed);
    }

    method AnalyzeConfirmed(w: World, confirmed: seq<Finding>) returns (r: Signal<seq<Finding>>)
      modifies `journal, `analyzedCrashes
      ensures Ending(St(), r) == AnalyzeAll(currentRound, w, old(St()), confirmed)
    {
      hide BrokerModel.AnalyzeCrash;
      var batch := [];
      CollectingNothing(AnalyzeAll(currentRound, w, St(), confirmed));
      assert confirmed[0..] == confirmed;
      for i := 0 to |confirmed|
        invariant Collecting(batch, AnalyzeAll(currentRound, w, St(), confirmed[i..])) ==
          AnalyzeAll(currentRound, w, old(St()), confirmed)
      {
        var finding := confirmed[i];
        assert confirmed[i..][0] == finding && confirmed[i..][1..] == confirmed[i + 1..];
        if finding.source == Fuzzer && finding.id !in analyzedCrashes {
          var analyzed :- AnalyzeCrash(w, finding);
          analyzedCrashes := analyzedCrashes + {finding.id};
          CollectingMore(batch, [analyzed], AnalyzeAll(currentRound, w, St(), confirmed[i + 1..]));
          batch := batch + [analyzed];
        } else {
          CollectingMore(batch, [finding], AnalyzeAll(currentRound, w, St(), confirmed[i + 1..]));
          batch := batch + [finding];
        }
      }
      r := Got(batch);
      assert batch + [] == batch;
    }

    method ColdHunt(w: World) returns (r: Signal<seq<Finding>>)
      modifies `journal
      ensures Ending(St(), r) == Hunt(cfg, currentRound, w, old(St()))
    {
      if !cfg.coldHunt {
        return Got([]);
      }
      var raises :- TakeTurn(ColdHuntTurn, "", w.hunt);
      var raised := RaisedCandidates(cfg, raises);
      for i := 0 to |raised|
        invariant forall k :: 0 <= k < i ==> cfg.findingOk(raised[k])
      {
        if !cfg.findingOk(raised[i]) {
          return Stopped(Failed);
        }
      }
      r := Got(raised);
    }

    method DetectWorking(w: World) returns (r: Signal<(seq<Finding>, seq<DetectorRun>)>)
      modifies `journal
      ensures Ending(St(), r) == Detect(cfg, currentRound, w, old(St()))
    {
      hide Hunt, Merge, WithinBar;
      if w.detect.Threw? {
        return Stopped(Failed);
      }
      var scan := w.detect.value;
      Note(Detected(currentRound, scan.findings));
      var _ :- ThrowIfAborted(w, AfterDetect);
      var detected := MergeFindings(open, scan.findings);
      var raised :- ColdHunt(w);
      var _ :- ThrowIfAborted(w, AfterHunt);
      var all := MergeFindings(detected, raised);
      r := Got((WithinBar(all, cfg.severityBar), scan.runs));
    }

    method PlanFix(w: World) returns (r: Signal<()>)
      modifies `journal
      ensures Ending(St(), r) == Plan(cfg, currentRound, w, old(St()))
    {
      if !cfg.planner {
        return Got(());
      }
      var plan :- TakeTurn(FixPlanning, "", w.plan);
      r := if plan.round != currentRound then Stopped(Failed) else Got(());
    }

    method FixFindings(w: World, batch: seq<Finding>) returns (r: Signal<Option<FixReport>>)
      modifies `journal
      ensures Ending(St(), r) == MaybeFix(cfg, currentRound, w, old(St()), batch)
      ensures r.Got? ==> (r.value.Some? <==> batch != []) && (r.value.Some? ==> IsAbout(r.value.value, currentRound, batch))
    {
      hide Plan;
      if batch == [] {
        return Got(None);
      }
      if w.diff.Threw? {
        return Stopped(Failed);
      }
      var _ :- PlanFix(w);
      var report :- TakeTurn(FixTurn, "", w.fix);
      if report.round != currentRound || report.agent != FIX_AGENT {
        return Stopped(Failed);
      }
      for i := 0 to |report.fixes|
        invariant forall k :: 0 <= k < i ==> HasId(batch, report.fixes[k].findingId)
      {
        if !HasId(batch, report.fixes[i].findingId) {
          return Stopped(Failed);
        }
      }
      r := Got(Some(report));
    }

    method VerifyFixed(w: World, batch: seq<Finding>, fixed: bool) returns (r: Signal<seq<VerifyResult>>)
      ensures Ending(St(), r) == VerifyBatch(w, St(), batch, fixed)
    {
      if fixed && w.build == BuildFailed {
        return Got(UnverifiableAll(batch));
      }
      if !w.scopeOk {
        return Stopped(Failed);
      }
      var results := VerifyFindings(batch, w.verify);
      r := Got(results);
    }

    method CrossCheck(w: World, wanted: bool) returns (r: Signal<(seq<Finding>, seq<DetectorRun>)>)
      modifies `journal
      ensures Ending(St(), r) == PostFix(cfg, currentRound, w, old(St()), wanted)
    {
      hide Merge, WithinBar, WithoutDismissed;
      if !wanted {
        return Got(([], []));
      }
      if w.refuzz.Threw? {
        return Stopped(Failed);
      }
      var scan := w.refuzz.value;
      var reopened, runs := scan.findings, scan.runs;
      Note(Refuzzed(currentRound, scan.findings));
      if w.rescan.Some? {
        if w.rescan.value.Threw? {
          return Stopped(Failed);
        }
        var again := w.rescan.value.value;
        var unseen := WithoutDismissed(remembered, WithinBar(again.findings, cfg.severityBar));
        reopened := MergeFindings(scan.findings, unseen);
        runs := runs + again.runs;
        Note(Rescanned(currentRound, again.findings));
      }
      r := Got((reopened, runs));
    }

    method CommitRound(w: World) returns (r: Signal<string>)
      modifies `commits
      ensures Ending(St(), r) == Commit(cfg, w, old(St()))
    {
      if !cfg.dryRun && !w.git.NotCommitted? {
        commits := commits + 1;
      }
      r := if w.git.Committed? then Got(w.git.sha) else Stopped(Failed);
    }

    method RememberClosures(batch: seq<Finding>, results: seq<VerifyResult>)
      requires |batch| == |results|
      modifies `remembered
      ensures remembered == RememberClosed(old(remembered), currentRound, batch, results)
    {
      assert batch[0..] == batch && results[0..] == results;
      for i := 0 to |batch|
        invariant RememberClosed(remembered, currentRound, batch[i..], results[i..]) ==
          RememberClosed(old(remembered), currentRound, batch, results)
      {
        var f := batch[i];
        assert batch[i..][0] == f && batch[i..][1..] == batch[i + 1..];
        assert results[i..][0] == results[i] && results[i..][1..] == results[i + 1..];
        if results[i].outcome == Closed {
          RememberVerdict(FindingVerdict(f.id, VerdictClosed, Some(f.repro), currentRound));
        }
      }
    }

    /** From the verified batch to the recorded round. */
    method ConcludeRound(baseline: TestResult, w: World, batch: seq<Finding>, report: Option<FixReport>,
                         results: seq<VerifyResult>, detectorRuns: seq<DetectorRun>)
      returns (r: Signal<Option<Reason>>)
      requires Valid() && |batch| == |results|
      modifies `open, `remembered, `entries, `commits, `journal, ledger`contents
      ensures Ending(St(), r) ==
        Conclude(cfg, baseline, currentRound, w, old(St()), batch, report, results, detectorRuns)
    {
      hide PostFix, Merge, Unresolved, RememberClosed, Body, Ledger.Append, RunTests, Regressed;
      var test := RunTests(cfg.testCommand, w.tests);
      var regressed := Regressed(baseline, test);
      var again :- CrossCheck(w, report.Some? && !regressed);
      var sha :- CommitRound(w);
      RememberClosures(batch, results);
      var left := MergeFindings(Unresolved(batch, results), again.0);
      var filed := match report case Some(fixes) => fixes case None => FixReport(currentRound, FIX_AGENT, []);
      var rec := Record(currentRound, w.startedAt, w.endedAt, detectorRuns + again.1, batch, filed, results,
                        Verdicts(remembered), test, sha, again.0, left);
      var entry := ledger.AppendBody(Body(cfg, rec));
      if entry.None? {
        return Stopped(Failed);
      }
      entries := entries + [rec];
      open := left;
      r := Got(if regressed then Some(TestRegression) else if open == [] then Some(Clean) else None);
    }

    method PlayRound(baseline: TestResult, w: World) returns (r: Signal<Option<Reason>>)
      requires Valid()
      modifies `open, `remembered, `analyzedCrashes, `entries, `commits, `journal, ledger`contents
      ensures Ending(St(), r) == Round(cfg, baseline, currentRound, w, old(St()))
    {
      hide Detect, ConfirmAll, AnalyzeAll, MaybeFix, VerifyBatch, Conclude;
      var found :- DetectWorking(w);
      var confirmed :- ConfirmWorking(w, found.0);
      var _ :- ThrowIfAborted(w, AfterConfirm);
      var batch :- AnalyzeConfirmed(w, confirmed);
      var _ :- ThrowIfAborted(w, AfterAnalyze);
      var report :- FixFindings(w, batch);
      var _ :- ThrowIfAborted(w, AfterFix);
      var results :- VerifyFixed(w, batch, report.Some?);
      var _ :- ThrowIfAborted(w, AfterVerify);
      r := ConcludeRound(baseline, w, batch, report, results, found.1);
    }
  }

  lemma CollectingNothing<T>(rest: Flow<seq<T>>)
    ensures Collecting([], rest) == rest
  {
    if rest.Go? {
      assert [] + rest.value == rest.value;
    }
  }

  lemma CollectingMore<T>(a: seq<T>, b: seq<T>, rest: Flow<seq<T>>)
    ensures Collecting(a, Collecting(b, rest)) == Collecting(a + b, rest)
  {
    if rest.Go? {
      Nest(a, b, rest.value);
    }
  }

  /** `runLoop`, on a ledger file. */
  method RunLoop(cfg: Config, setup: Setup, worlds: nat -> World, ledger: Ledger.LedgerWriter) returns (end: End)
    requires ledger.rules == cfg.rules
    modifies ledger
    ensures end == BrokerModel.RunLoop(cfg, setup, worlds, old(ledger.contents))
    ensures ledger.contents == end.st.file
  {
    hide Round, RunTests, Ledger.LastEntry, Ledger.ReadLines, Ledger.ParseEntry, SeedFrom;
    var run := new Run(cfg, ledger);
    if !setup.isGitRepo || setup.firstBuild == BuildFailed {
      return Thrown(run.St());
    }
    var firstRound := 1;
    if cfg.resume {
      var last := ledger.LastEntryOf();
      if last.None? {
        return Thrown(run.St());
      }
      firstRound := Ledger.NextRound(last.value);
    }
    var baseline := RunTests(cfg.testCommand, setup.baseline);
    if setup.head.Threw? {
      return Thrown(run.St());
    }
    run.SeedRemembered();
    var round := firstRound;
    while round <= cfg.iterationCap
      invariant fresh(run)
      invariant RoundsFrom(cfg, baseline, worlds, round, run.St()) ==
        RoundsFrom(cfg, baseline, worlds, firstRound, InitialState(old(ledger.contents)))
      decreases cfg.iterationCap + 1 - round
    {
      var w := worlds(round);
      if w.aborted(AtStart) {
        return Returned(run.St(), ManualAbort);
      }
      run.currentRound := round;
      var r := run.PlayRound(baseline, w);
      match r
      case Stopped(Aborted) => return Returned(run.St(), ManualAbort);
      case Stopped(Failed) => return Thrown(run.St());
      case Got(Some(reason)) => return Returned(run.St(), reason);
      case Got(None) => round := round + 1;
    }
    end := Returned(run.St(), IterationCap);
  }
}
