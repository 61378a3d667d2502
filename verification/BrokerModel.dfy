/** The loop of src/broker/state-machine.ts as functions over the five pieces of state it keeps.
    Detectors, agents, repros, builds, tests, git and the abort signal are oracles that may answer
    anything at all. */
module BrokerModel {
  import opened Basics
  import opened JsonText
  import opened Contracts
  import opened Gates
  import Ledger

  /** How many rounds a carried dismissal is worth. */
  const DISMISSAL_LIFE := 5

  const FIX_AGENT := Claude

  // ---- the oracles --------------------------------------------------------------------

  /** A turn that timed out, answered with no readable JSON or missed its schema has failed. */
  datatype Turn<+T> = Answered(value: T) | TurnAborted | TurnFailed

  datatype Attempt<+T> = Done(value: T) | Threw

  /** Committing can fail before the commit exists, or after it when its sha is read back. */
  datatype GitOutcome = NotCommitted | CommittedUnread | Committed(sha: string)

  datatype CandidateAnswer =
    | SaysConfirmed(findingId: string, severity: Severity, repro: string, expected: string)
    | SaysDismissed(findingId: string)

  datatype CrashAnalysis = CrashAnalysis(
    findingId: string, rootCause: string, severity: Severity, repro: string, expected: string)

  datatype FixPlan = FixPlan(round: nat, summary: string)

  datatype Raise = Raise(
    bugClass: string, file: string, line: Option<nat>, severity: Severity, description: string, expected: string)

  datatype Scan = Scan(runs: seq<DetectorRun>, findings: seq<Finding>)

  /** Where the broker looks at the abort signal. */
  datatype Phase = AtStart | AfterDetect | AfterHunt | AfterConfirm | AfterAnalyze | AfterFix | AfterVerify

  /** Everything outside the broker, for one round. Each question is asked at most once per finding
      and round, so one answer per finding id is all there is to choose. */
  datatype World = World(
    aborted: Phase -> bool,
    startedAt: string,
    endedAt: string,
    detect: Attempt<Scan>,
    hunt: Turn<seq<Raise>>,
    confirm: string -> Turn<CandidateAnswer>,
    confirmRepro: string -> Attempt<ReproRun>,
    recheck: string -> Attempt<ReproRun>,
    analyze: string -> Turn<CrashAnalysis>,
    analyzeRepro: string -> Attempt<ReproRun>,
    diff: Attempt<string>,
    plan: Turn<FixPlan>,
    fix: Turn<FixReport>,
    build: BuildStatus,
    scopeOk: bool,
    verify: string -> ReproRun,
    tests: ToolResult,
    refuzz: Attempt<Scan>,
    rescan: Option<Attempt<Scan>>,
    git: GitOutcome)

  datatype Config = Config(
    iterationCap: nat,
    severityBar: Severity,
    coldHunt: bool,
    planner: bool,
    dryRun: bool,
    resume: bool,
    testCommand: string,
    huntId: Raise -> string,
    findingOk: Finding -> bool,
    rules: Ledger.Rules)

  // ---- the state ----------------------------------------------------------------------

  datatype Subtask = CandidateConfirmation | CrashAnalysisTurn | ColdHuntTurn | FixPlanning | FixTurn

  /** What the broker did and saw, in order. */
  datatype Event =
    | Detected(round: nat, findings: seq<Finding>)
    | Refuzzed(round: nat, findings: seq<Finding>)
    | Rescanned(round: nat, findings: seq<Finding>)
    | TurnTaken(round: nat, subtask: Subtask, id: string)
    | Ruled(round: nat, id: string, confirmed: bool)
    | ReproRan(round: nat, id: string, repro: string, outcome: Outcome)

  /** One completed round: what its ledger entry was made from, and what it left open. */
  datatype Record = Record(
    round: nat,
    startedAt: string,
    endedAt: string,
    runs: seq<DetectorRun>,
    batch: seq<Finding>,
    report: FixReport,
    verifyResults: seq<VerifyResult>,
    verdicts: seq<FindingVerdict>,
    test: TestResult,
    sha: string,
    reopened: seq<Finding>,
    openAfter: seq<Finding>)

  type Memory = seq<Slot<string, FindingVerdict>>

  datatype State = State(
    open: seq<Finding>,
    remembered: Memory,
    analyzed: set<string>,
    entries: seq<Record>,
    file: string,
    commits: nat,
    journal: seq<Event>)

  function Saw(st: State, e: Event): State {
    st.(journal := st.journal + [e])
  }

  datatype Why = Aborted | Failed

  /** A step that goes on, or stops the run. Either way the state so far is kept. */
  datatype Flow<+T> = Go(st: State, value: T) | Halt(st: State, why: Why) {
    predicate IsFailure() {
      Halt?
    }

    function PropagateFailure<U>(): Flow<U>
      requires Halt?
    {
      Halt(st, why)
    }

    function Extract(): (State, T)
      requires Go?
    {
      (st, value)
    }
  }

  function CheckAbort(w: World, phase: Phase, st: State): Flow<()> {
    if w.aborted(phase) then Halt(st, Aborted) else Go(st, ())
  }

  function Await<T>(st: State, attempt: Attempt<T>): Flow<T> {
    match attempt case Done(value) => Go(st, value) case Threw => Halt(st, Failed)
  }

  /** One agent turn. */
  function Ask<T>(st: State, round: nat, subtask: Subtask, id: string, answer: Turn<T>): Flow<T> {
    var asked := Saw(st, TurnTaken(round, subtask, id));
    match answer
    case Answered(value) => Go(asked, value)
    case TurnAborted => Halt(asked, Aborted)
    case TurnFailed => Halt(asked, Failed)
  }

  /** The broker runs a finding's command itself and believes the exit code. */
  function RunRepro(st: State, round: nat, f: Finding, run: Attempt<ReproRun>): Flow<Outcome> {
    match run
    case Threw => Halt(st, Failed)
    case Done(r) =>
      var outcome := VerifyOne(f, r).outcome;
      Go(Saw(st, ReproRan(round, f.id, f.repro, outcome)), outcome)
  }

  // ---- lists of findings --------------------------------------------------------------

  predicate HasId(fs: seq<Finding>, id: string) {
    exists i :: 0 <= i < |fs| && fs[i].id == id
  }

  function AddNew(kept: seq<Finding>, fs: seq<Finding>): seq<Finding>
    decreases |fs|
  {
    if fs == [] then kept
    else AddNew(if HasId(kept, fs[0].id) then kept else kept + [fs[0]], fs[1..])
  }

  /** The first finding with each id, in order of first appearance. */
  function Merge(preferred: seq<Finding>, others: seq<Finding>): seq<Finding> {
    AddNew([], preferred + others)
  }

  function WithinBar(fs: seq<Finding>, bar: Severity): seq<Finding> {
    if fs == [] then []
    else (if MeetsBar(fs[0].severity, bar) then [fs[0]] else []) + WithinBar(fs[1..], bar)
  }

  // ---- DETECT -------------------------------------------------------------------------

  function RaisedCandidate(cfg: Config, raise: Raise): Finding {
    Finding(cfg.huntId(raise), ColdHunt, Candidate, raise.severity, raise.bugClass, raise.file, raise.line,
            raise.description, "false", raise.expected, None)
  }

  function RaisedCandidates(cfg: Config, raises: seq<Raise>): seq<Finding> {
    if raises == [] then [] else [RaisedCandidate(cfg, raises[0])] + RaisedCandidates(cfg, raises[1..])
  }

  function Hunt(cfg: Config, round: nat, w: World, st: State): Flow<seq<Finding>> {
    if !cfg.coldHunt then Go(st, [])
    else
      var (st1, raises) :- Ask(st, round, ColdHuntTurn, "", w.hunt);
      var raised := RaisedCandidates(cfg, raises);
      if forall f | f in raised :: cfg.findingOk(f) then Go(st1, raised) else Halt(st1, Failed)
  }

  /** The findings a round works on. A carried finding wins over a fresh copy of itself. */
  function Detect(cfg: Config, round: nat, w: World, st: State): Flow<(seq<Finding>, seq<DetectorRun>)> {
    var (st1, scan) :- Await(st, w.detect);
    var st2 := Saw(st1, Detected(round, scan.findings));
    var (st3, _) :- CheckAbort(w, AfterDetect, st2);
    var detected := Merge(st3.open, scan.findings);
    var (st4, raised) :- Hunt(cfg, round, w, st3);
    var (st5, _) :- CheckAbort(w, AfterHunt, st4);
    Go(st5, (WithinBar(Merge(detected, raised), cfg.severityBar), scan.runs))
  }

  // ---- CONFIRM ------------------------------------------------------------------------

  function Promote(f: Finding, severity: Severity, repro: string, expected: string): Finding {
    f.(state := Confirmed, severity := severity, repro := repro, expected := expected)
  }

  function ConfirmCandidate(round: nat, w: World, st: State, f: Finding): Flow<Option<Finding>> {
    var (st1, answer) :- Ask(st, round, CandidateConfirmation, f.id, w.confirm(f.id));
    if answer.findingId != f.id then Halt(st1, Failed)
    else match answer
      case SaysDismissed(_) => Go(Saw(st1, Ruled(round, f.id, false)), None)
      case SaysConfirmed(_, severity, repro, expected) =>
        var promoted := Promote(f, severity, repro, expected);
        var (st2, outcome) :- RunRepro(st1, round, promoted, w.confirmRepro(f.id));
        var holds := outcome == Survived;
        Go(Saw(st2, Ruled(round, f.id, holds)), if holds then Some(promoted) else None)
  }

  function Remember(st: State, v: FindingVerdict): State {
    st.(remembered := Put(st.remembered, v.findingId, v))
  }

  /** A standing dismissal that has not gone stale. */
  predicate CarriedDismissal(carried: Option<FindingVerdict>, round: nat) {
    carried.Some? && carried.value.verdict.VerdictDismissed? &&
    round - carried.value.decidedInRound < DISMISSAL_LIFE
  }

  predicate CarriedClosure(carried: Option<FindingVerdict>) {
    carried.Some? && carried.value.verdict.VerdictClosed? && carried.value.repro.Some?
  }

  function Reopen(f: Finding, repro: string): Finding {
    f.(state := Confirmed, repro := repro)
  }

  /** What one finding contributes to the confirmed list. */
  function ConfirmOne(round: nat, w: World, st: State, f: Finding): Flow<seq<Finding>> {
    match f.state
    case Dismissed => Go(st, [])
    case Confirmed => Go(st, [f])
    case Candidate =>
      var carried := Lookup(st.remembered, f.id);
      if CarriedDismissal(carried, round) then Go(st, [])
      else if CarriedClosure(carried) then
        var reopened := Reopen(f, carried.value.repro.value);
        var (st1, outcome) :- RunRepro(st, round, reopened, w.recheck(f.id));
        Go(st1, if outcome == Survived then [reopened] else [])
      else
        var (st1, promoted) :- ConfirmCandidate(round, w, st, f);
        match promoted
        case Some(p) => Go(st1, [p])
        case None => Go(Remember(st1, FindingVerdict(f.id, VerdictDismissed, None, round)), [])
  }

  function ConfirmAll(round: nat, w: World, st: State, fs: seq<Finding>): Flow<seq<Finding>>
    decreases |fs|
  {
    if fs == [] then Go(st, [])
    else
      var (st1, first) :- ConfirmOne(round, w, st, fs[0]);
      var (st2, rest) :- ConfirmAll(round, w, st1, fs[1..]);
      Go(st2, first + rest)
  }

  // ---- ANALYZE ------------------------------------------------------------------------

  function AnalyzeCrash(round: nat, w: World, st: State, crash: Finding): Flow<Finding> {
    var (st1, a) :- Ask(st, round, CrashAnalysisTurn, crash.id, w.analyze(crash.id));
    if a.findingId != crash.id then Halt(st1, Failed)
    else
      var analyzed := crash.(severity := a.severity, expected := a.expected,
                             description := crash.description + " Root cause: " + a.rootCause);
      var proposed := analyzed.(repro := a.repro);
      var (st2, outcome) :- RunRepro(st1, round, proposed, w.analyzeRepro(crash.id));
      Go(st2, if outcome == Survived then proposed else analyzed)
  }

  function AnalyzeOne(round: nat, w: World, st: State, f: Finding): Flow<Finding> {
    if f.source == Fuzzer && f.id !in st.analyzed then
      var (st1, analyzed) :- AnalyzeCrash(round, w, st, f);
      Go(st1.(analyzed := st1.analyzed + {f.id}), analyzed)
    else Go(st, f)
  }

  function AnalyzeAll(round: nat, w: World, st: State, fs: seq<Finding>): Flow<seq<Finding>>
    decreases |fs|
  {
    if fs == [] then Go(st, [])
    else
      var (st1, first) :- AnalyzeOne(round, w, st, fs[0]);
      var (st2, rest) :- AnalyzeAll(round, w, st1, fs[1..]);
      Go(st2, [first] + rest)
  }

  // ---- FIX ----------------------------------------------------------------------------

  function Plan(cfg: Config, round: nat, w: World, st: State): Flow<()> {
    if !cfg.planner then Go(st, ())
    else
      var (st1, plan) :- Ask(st, round, FixPlanning, "", w.plan);
      if plan.round != round then Halt(st1, Failed) else Go(st1, ())
  }

  function FixBatch(cfg: Config, round: nat, w: World, st: State, batch: seq<Finding>): Flow<FixReport> {
    var (st1, _) :- Await(st, w.diff);
    var (st2, _) :- Plan(cfg, round, w, st1);
    var (st3, report) :- Ask(st2, round, FixTurn, "", w.fix);
    if report.round != round || report.agent != FIX_AGENT then Halt(st3, Failed)
    else if exists fix | fix in report.fixes :: !HasId(batch, fix.findingId) then Halt(st3, Failed)
    else Go(st3, report)
  }

  function MaybeFix(cfg: Config, round: nat, w: World, st: State, batch: seq<Finding>): Flow<Option<FixReport>> {
    if batch == [] then Go(st, None)
    else
      var (st1, report) :- FixBatch(cfg, round, w, st, batch);
      Go(st1, Some(report))
  }

  // ---- VERIFY -------------------------------------------------------------------------

  function VerifyBatch(w: World, st: State, batch: seq<Finding>, fixed: bool): (r: Flow<seq<VerifyResult>>)
    ensures r.Go? ==> |r.value| == |batch|
  {
    if fixed && w.build == BuildFailed then Go(st, UnverifiableAll(batch))
    else if !w.scopeOk then Halt(st, Failed)
    else Go(st, VerifyAll(batch, w.verify))
  }

  /** The batch findings whose repro did not close. */
  function Unresolved(batch: seq<Finding>, results: seq<VerifyResult>): seq<Finding>
    requires |batch| == |results|
  {
    if batch == [] then []
    else (if results[0].outcome != Closed then [batch[0]] else []) + Unresolved(batch[1..], results[1..])
  }

  function WithoutDismissed(memory: Memory, fs: seq<Finding>): seq<Finding> {
    if fs == [] then []
    else
      var v := Lookup(memory, fs[0].id);
      (if v.Some? && v.value.verdict.VerdictDismissed? then [] else [fs[0]]) + WithoutDismissed(memory, fs[1..])
  }

  /** The passes over the patched source: the fuzzers again, then the scanners again. */
  function Rescan(cfg: Config, round: nat, w: World, st: State, scan: Scan): Flow<(seq<Finding>, seq<DetectorRun>)> {
    var st1 := Saw(st, Refuzzed(round, scan.findings));
    match w.rescan
    case None => Go(st1, (scan.findings, scan.runs))
    case Some(attempt) =>
      var (st2, again) :- Await(st1, attempt);
      var unseen := WithoutDismissed(st2.remembered, WithinBar(again.findings, cfg.severityBar));
      Go(Saw(st2, Rescanned(round, again.findings)), (Merge(scan.findings, unseen), scan.runs + again.runs))
  }

  function PostFix(cfg: Config, round: nat, w: World, st: State, crossCheck: bool)
    : Flow<(seq<Finding>, seq<DetectorRun>)>
  {
    if !crossCheck then Go(st, ([], []))
    else
      var (st1, scan) :- Await(st, w.refuzz);
      Rescan(cfg, round, w, st1, scan)
  }

  // ---- COMMIT and RECORD --------------------------------------------------------------

  function Commit(cfg: Config, w: World, st: State): Flow<string> {
    var after := if cfg.dryRun || w.git.NotCommitted? then st else st.(commits := st.commits + 1);
    match w.git
    case Committed(sha) => Go(after, sha)
    case _ => Halt(after, Failed)
  }

  function RememberClosed(memory: Memory, round: nat, batch: seq<Finding>, results: seq<VerifyResult>): Memory
    requires |batch| == |results|
    decreases |batch|
  {
    if batch == [] then memory
    else
      var f := batch[0];
      var next := if results[0].outcome == Closed
        then Put(memory, f.id, FindingVerdict(f.id, VerdictClosed, Some(f.repro), round)) else memory;
      RememberClosed(next, round, batch[1..], results[1..])
  }

  function Verdicts(memory: Memory): (r: seq<FindingVerdict>)
    ensures |r| == |memory|
    ensures forall i :: 0 <= i < |r| ==> r[i] == memory[i].value
  {
    if |memory| == 0 then [] else [memory[0].value] + Verdicts(memory[1..])
  }

  /** The body of a ledger entry. */
  function Body(cfg: Config, rec: Record): Fields {
    [Slot("round", Num(rec.round)),
     Slot("started_at", Str(rec.startedAt)),
     Slot("ended_at", Str(rec.endedAt)),
     Slot("detector_runs", Arr(DetectorRunsJson(rec.runs))),
     Slot("findings_hash", Str(Ledger.HashPayload(cfg.rules, BatchJson(rec.round, rec.batch)))),
     Slot("fixes_hash", Str(Ledger.HashPayload(cfg.rules, FixReportJson(rec.report)))),
     Slot("verify_results", Arr(VerifyResultsJson(rec.verifyResults))),
     Slot("verdicts", Arr(VerdictsJson(rec.verdicts))),
     Slot("test_result", TestResultJson(rec.test)),
     Slot("git_sha", Str(rec.sha))]
  }

  function AppendRecord(cfg: Config, st: State, rec: Record): Flow<()> {
    match Ledger.Append(cfg.rules, st.file, Body(cfg, rec))
    case LedgerError => Halt(st, Failed)
    case Appended(contents, _) =>
      Go(st.(file := contents, entries := st.entries + [rec], open := rec.openAfter), ())
  }

  datatype Reason = Clean | IterationCap | TestRegression | ManualAbort

  function StopAfter(baseline: TestResult, rec: Record): Option<Reason> {
    if Regressed(baseline, rec.test) then Some(TestRegression)
    else if rec.openAfter == [] then Some(Clean)
    else None
  }

  /** From the verified batch to the end of the round. */
  function Conclude(cfg: Config, baseline: TestResult, round: nat, w: World, st: State, batch: seq<Finding>,
                    report: Option<FixReport>, results: seq<VerifyResult>, runs: seq<DetectorRun>): Flow<Option<Reason>>
    requires |batch| == |results|
  {
    var test := RunTests(cfg.testCommand, w.tests);
    var (st1, again) :- PostFix(cfg, round, w, st, report.Some? && !Regressed(baseline, test));
    var (st2, sha) :- Commit(cfg, w, st1);
    var memory := RememberClosed(st2.remembered, round, batch, results);
    var st3 := st2.(remembered := memory);
    var filed := match report case Some(r) => r case None => FixReport(round, FIX_AGENT, []);
    var rec := Record(round, w.startedAt, w.endedAt, runs + again.1, batch, filed, results, Verdicts(memory), test, sha,
                      again.0, Merge(Unresolved(batch, results), again.0));
    var (st4, _) :- AppendRecord(cfg, st3, rec);
    Go(st4, StopAfter(baseline, rec))
  }

  function FixAndVerify(cfg: Config, baseline: TestResult, round: nat, w: World, st: State, batch: seq<Finding>,
                        runs: seq<DetectorRun>): Flow<Option<Reason>>
  {
    var (st1, report) :- MaybeFix(cfg, round, w, st, batch);
    var (st2, _) :- CheckAbort(w, AfterFix, st1);
    var (st3, results) :- VerifyBatch(w, st2, batch, report.Some?);
    var (st4, _) :- CheckAbort(w, AfterVerify, st3);
    Conclude(cfg, baseline, round, w, st4, batch, report, results, runs)
  }

  // ---- the round and the run ----------------------------------------------------------

  /** The batch a round works on, and the state it starts fixing from. */
  function Prepare(cfg: Config, round: nat, w: World, st: State): Flow<(seq<Finding>, seq<DetectorRun>)> {
    var (st1, found) :- Detect(cfg, round, w, st);
    var (st2, confirmed) :- ConfirmAll(round, w, st1, found.0);
    var (st3, _) :- CheckAbort(w, AfterConfirm, st2);
    var (st4, batch) :- AnalyzeAll(round, w, st3, confirmed);
    var (st5, _) :- CheckAbort(w, AfterAnalyze, st4);
    Go(st5, (batch, found.1))
  }

  function Round(cfg: Config, baseline: TestResult, round: nat, w: World, st: State): Flow<Option<Reason>> {
    var (st1, work) :- Prepare(cfg, round, w, st);
    FixAndVerify(cfg, baseline, round, w, st1, work.0, work.1)
  }

  datatype End = Returned(st: State, reason: Reason) | Thrown(st: State)

  function RoundsFrom(cfg: Config, baseline: TestResult, worlds: nat -> World, round: nat, st: State): End
    decreases cfg.iterationCap + 1 - round
  {
    if round > cfg.iterationCap then Returned(st, IterationCap)
    else if worlds(round).aborted(AtStart) then Returned(st, ManualAbort)
    else match Round(cfg, baseline, round, worlds(round), st)
      case Halt(st1, Aborted) => Returned(st1, ManualAbort)
      case Halt(st1, Failed) => Thrown(st1)
      case Go(st1, Some(reason)) => Returned(st1, reason)
      case Go(st1, None) => RoundsFrom(cfg, baseline, worlds, round + 1, st1)
  }

  /** The state in which a run that began at `first` starts `round`, if it gets that far. */
  function Reached(cfg: Config, baseline: TestResult, worlds: nat -> World, first: nat, file: string, round: nat)
    : Option<State>
    requires first <= round
    decreases round
  {
    if round == first then Some(InitialState(file))
    else match Reached(cfg, baseline, worlds, first, file, round - 1)
      case None => None
      case Some(st) =>
        if round - 1 > cfg.iterationCap || worlds(round - 1).aborted(AtStart) then None
        else match Round(cfg, baseline, round - 1, worlds(round - 1), st)
          case Go(st1, None) => Some(st1)
          case _ => None
  }

  /** What a run meets before its first round. */
  datatype Setup = Setup(isGitRepo: bool, firstBuild: BuildStatus, baseline: ToolResult, head: Attempt<string>)

  /** `remembered` is filled from `entries`, which is a list the run has only just made. */
  function SeedFromAll(memory: Memory, entries: seq<Record>): Memory
    decreases |entries|
  {
    if entries == [] then memory else SeedFromAll(SeedFrom(memory, entries[0].verdicts), entries[1..])
  }

  function SeedFrom(memory: Memory, verdicts: seq<FindingVerdict>): Memory
    decreases |verdicts|
  {
    if verdicts == [] then memory
    else SeedFrom(Put(memory, verdicts[0].findingId, verdicts[0]), verdicts[1..])
  }

  function InitialState(file: string): State {
    State([], SeedFromAll([], []), {}, [], file, 0, [])
  }

  function FirstRound(cfg: Config, file: string): Option<nat> {
    if !cfg.resume then Some(1)
    else match Ledger.LastEntry(cfg.rules, file)
      case None => None
      case Some(last) => Some(Ledger.NextRound(last))
  }

  /** `runLoop`. */
  function RunLoop(cfg: Config, setup: Setup, worlds: nat -> World, file: string): End {
    var st := InitialState(file);
    var first := FirstRound(cfg, file);
    if !setup.isGitRepo || setup.firstBuild == BuildFailed || first.None? || setup.head.Threw? then Thrown(st)
    else RoundsFrom(cfg, RunTests(cfg.testCommand, setup.baseline), worlds, first.value, st)
  }
}
