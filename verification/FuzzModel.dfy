/** The restart loop of src/detection/libfuzzer-driver.ts and the pass of src/detection/fuzz.ts as
    functions. Time is counted in milliseconds. */
module FuzzModel {
  import opened Basics
  import opened Contracts

  const MIN_RUN_MS := 1000.0
  const MAX_RUNS := 32
  const DRY_RUNS_BEFORE_STOP := 2
  const MINIMIZE_TIMEOUT_MS := 60000.0
  const REPLAY_TIMEOUT_MS := 60000.0
  const KILL_GRACE_MS := 15000.0

  // ---- the tools ----------------------------------------------------------------------

  datatype Report = Report(kind: string, signature: string)

  type Duration = x: real | 0.0 <= x witness 0.0

  /** What one process did. `report` is what the engine's parser makes of its stderr. */
  datatype Process = Process(
    took: Duration, timedOut: bool, spawnError: Option<string>, exitCode: Option<int>, report: Option<Report>)

  /** The processes of the restart with this index. */
  datatype Call = Fuzz(run: nat) | ReplayRaw(run: nat) | Minimize(run: nat) | ReplayMinimized(run: nat)

  /** What the engine brings: its name, the processes it starts under a timeout, and the files they leave. */
  datatype Target = Target(
    id: string,
    tool: (Call, real) -> Process,
    artifact: nat -> Option<Bytes>,
    minimized: nat -> Option<Bytes>,
    severityByKind: string -> Option<Severity>,
    locate: Report -> (string, Option<nat>),
    describe: Report -> string,
    expected: Report -> string,
    reproCommand: string -> string)

  /** A harness and how long it has. `blocked` is the scope or build reason it cannot be run at all. */
  datatype Job = Job(
    harnessId: string, blocked: Option<string>, timeBudgetMs: nat, findingId: string -> string)

  // ---- the state of one harness -------------------------------------------------------

  datatype Replay = Replay(content: Bytes, process: Process)

  /** One start of the harness: when, under which timeout, and what came of it. */
  datatype Launch = Launch(at: real, timeout: real, process: Process)

  datatype Progress = Progress(
    now: real,
    runIndex: nat,
    dryRuns: nat,
    findings: seq<Slot<string, Finding>>,
    seen: set<string>,
    notes: seq<string>,
    shipped: map<string, Bytes>,
    replays: seq<Replay>,
    emitted: seq<string>,
    launches: seq<Launch>)

  datatype Halt = Finished | Broke(note: string)

  function Start(now: real, shipped: map<string, Bytes>): Progress {
    Progress(now, 0, 0, [], {}, [], shipped, [], [], [])
  }

  predicate Shows(process: Process, signature: string) {
    !process.timedOut && process.exitCode != Some(0) &&
    process.report.Some? && process.report.value.signature == signature
  }

  function ArtifactPath(job: Job, id: string): string {
    ".crossfire/crashes/" + job.harnessId + "/" + id + ".min"
  }

  function RawPath(job: Job, id: string): string {
    ".crossfire/crashes/" + job.harnessId + "/" + id + ".raw"
  }

  function CrashFinding(t: Target, job: Job, report: Report): Finding {
    var id := job.findingId(report.signature);
    var (file, line) := t.locate(report);
    var severity := match t.severityByKind(report.kind) case Some(s) => s case None => High;
    Finding(id, Fuzzer, Confirmed, severity, report.kind, file, line, t.describe(report),
            t.reproCommand(ArtifactPath(job, id)), t.expected(report), Some(ArtifactPath(job, id)))
  }

  /** Runs one artifact again and keeps what was seen. */
  function Replayed(t: Target, call: Call, content: Bytes, p: Progress): Progress {
    var process := t.tool(call, REPLAY_TIMEOUT_MS);
    p.(now := p.now + process.took, replays := p.replays + [Replay(content, process)])
  }

  /** `emitCrash`: nothing is shipped that has not just been replayed to the same signature. */
  function EmitCrash(t: Target, job: Job, i: nat, raw: Bytes, report: Report, p: Progress): Progress {
    var p1 := Replayed(t, ReplayRaw(i), raw, p.(emitted := p.emitted + [report.signature]));
    if !Shows(t.tool(ReplayRaw(i), REPLAY_TIMEOUT_MS), report.signature) then
      p1.(notes := p1.notes + ["dropped a " + report.kind + " that would not replay from its own artifact"])
    else
      var minimizing := t.tool(Minimize(i), MINIMIZE_TIMEOUT_MS);
      var p2 := p1.(now := p1.now + minimizing.took);
      if minimizing.timedOut || t.minimized(i).None? then Ship(t, job, raw, raw, report, false, p2)
      else
        var p3 := Replayed(t, ReplayMinimized(i), t.minimized(i).value, p2);
        if Shows(t.tool(ReplayMinimized(i), REPLAY_TIMEOUT_MS), report.signature)
        then Ship(t, job, t.minimized(i).value, raw, report, true, p3)
        else Ship(t, job, raw, raw, report, false, p3)
  }

  function Ship(t: Target, job: Job, content: Bytes, raw: Bytes, report: Report, minimized: bool, p: Progress): Progress {
    var id := job.findingId(report.signature);
    var notes := if minimized then [] else [id + " ships its raw artifact, minimization did not hold up"];
    p.(shipped := p.shipped[ArtifactPath(job, id) := content][RawPath(job, id) := raw],
       findings := Put(p.findings, report.signature, CrashFinding(t, job, report)),
       notes := p.notes + notes)
  }

  // ---- the loop -----------------------------------------------------------------------

  datatype Step = Again(p: Progress) | Stop(p: Progress, halt: Halt)

  function Launched(p: Progress, timeout: real, run: Process): Progress {
    p.(now := p.now + run.took, runIndex := p.runIndex + 1, launches := p.launches + [Launch(p.now, timeout, run)])
  }

  /** One turn of the restart loop. */
  function RunOnce(t: Target, job: Job, deadline: real, p: Progress): (s: Step)
    ensures s.Again? ==> s.p.runIndex == p.runIndex + 1 <= MAX_RUNS
  {
    if !(p.now + MIN_RUN_MS < deadline) then Stop(p, Finished)
    else if p.runIndex >= MAX_RUNS then
      Stop(p.(notes := p.notes + ["stopped at the run cap with budget left"]), Finished)
    else
      var i := p.runIndex;
      var timeout := deadline - p.now + KILL_GRACE_MS;
      var run := t.tool(Fuzz(i), timeout);
      var p1 := Launched(p, timeout, run);
      if run.spawnError.Some? then Stop(p1, Broke(run.spawnError.value))
      else if run.timedOut then Stop(p1.(notes := p1.notes + [t.id + " overran its budget and was killed"]), Finished)
      else if run.exitCode == Some(0) then Stop(p1, Finished)
      else if t.artifact(i).None? then Stop(p1, Broke(t.id + " exited without a crash artifact"))
      else if run.report.None? then Stop(p1, Broke(t.id + " crashed with an unreadable report"))
      else AfterCrash(t, job, i, t.artifact(i).value, run.report.value, p1)
  }

  function AfterCrash(t: Target, job: Job, i: nat, raw: Bytes, report: Report, p: Progress): Step {
    if report.signature in p.seen then
      var p1 := p.(dryRuns := p.dryRuns + 1);
      if p1.dryRuns >= DRY_RUNS_BEFORE_STOP then Stop(p1, Finished) else Again(p1)
    else Again(EmitCrash(t, job, i, raw, report, p.(seen := p.seen + {report.signature}, dryRuns := 0)))
  }

  /** The restart loop from here on. */
  function DriveFrom(t: Target, job: Job, deadline: real, p: Progress): (Progress, Halt)
    decreases MAX_RUNS - p.runIndex
  {
    match RunOnce(t, job, deadline, p)
    case Stop(end, halt) => (end, halt)
    case Again(next) => DriveFrom(t, job, deadline, next)
  }

  datatype HarnessOutcome = HarnessOutcome(run: DetectorRun, findings: seq<Finding>)

  function Values<V>(m: seq<Slot<string, V>>): (r: seq<V>)
    ensures |r| == |m|
    ensures forall i :: 0 <= i < |r| ==> r[i] == m[i].value
  {
    if |m| == 0 then [] else [m[0].value] + Values(m[1..])
  }

  function Joined(notes: seq<string>): string {
    if |notes| == 0 then "" else if |notes| == 1 then notes[0] else notes[0] + "; " + Joined(notes[1..])
  }

  function Elapsed(since: real, now: real): nat {
    if now < since then 0 else (now - since + 0.5).Floor
  }

  function Refused(job: Job, since: real, now: real, note: string): HarnessOutcome {
    HarnessOutcome(DetectorRun("fuzz", Some(job.harnessId), "error", Elapsed(since, now), 0, Some(note)), [])
  }

  function Summary(job: Job, since: real, now: real, starts: nat, notes: seq<string>, findings: seq<Slot<string, Finding>>)
    : HarnessOutcome
  {
    var all := notes + (if starts == 0 then ["the budget was too short to start the harness"] else []);
    HarnessOutcome(DetectorRun("fuzz", Some(job.harnessId), "ok", Elapsed(since, now), |findings|,
                               if |all| > 0 then Some(Joined(all)) else None),
                   Values(findings))
  }

  /** `drive`. A harness that breaks reports none of its findings, not even those already shipped. */
  function Drive(t: Target, job: Job, now: real, shipped: map<string, Bytes>): (HarnessOutcome, Progress) {
    if job.blocked.Some? then (Refused(job, now, now, job.blocked.value), Start(now, shipped))
    else match DriveFrom(t, job, now + job.timeBudgetMs as real, Start(now, shipped))
      case (end, Broke(note)) => (Refused(job, now, end.now, note), end)
      case (end, Finished) => (Summary(job, now, end.now, end.runIndex, end.notes, end.findings), end)
  }

  // ---- the pass -----------------------------------------------------------------------

  /** A configured harness, with the adapter for its engine if there is one. */
  datatype Harness = Harness(id: string, engine: Option<Target>, blocked: Option<string>)

  datatype FuzzPass = FuzzPass(now: real, runs: seq<DetectorRun>, collected: seq<Finding>, shipped: map<string, Bytes>)

  function RunHarness(h: Harness, share: nat, findingId: string -> string, pass: FuzzPass): FuzzPass {
    match h.engine
    case None =>
      pass.(runs := pass.runs + [DetectorRun("fuzz", Some(h.id), "error", 0, 0, Some("no fuzz engine adapter"))])
    case Some(t) =>
      var (outcome, end) := Drive(t, Job(h.id, h.blocked, share, findingId), pass.now, pass.shipped);
      FuzzPass(end.now, pass.runs + [outcome.run], pass.collected + outcome.findings, end.shipped)
  }

  function RunHarnesses(hs: seq<Harness>, share: nat, findingId: string -> string, pass: FuzzPass): FuzzPass
    decreases |hs|
  {
    if |hs| == 0 then pass else RunHarnesses(hs[1..], share, findingId, RunHarness(hs[0], share, findingId, pass))
  }

  /** The budget of a pass is split evenly and rounded down. */
  function Share(total: nat, n: nat): nat {
    if n == 0 then 0 else total / n
  }

  /** `runFuzzers`, up to the deduplication of what it collected. */
  function RunFuzzers(enabled: bool, hs: seq<Harness>, total: nat, findingId: string -> string, now: real,
                      shipped: map<string, Bytes>): FuzzPass {
    if !enabled then
      FuzzPass(now, [DetectorRun("fuzz", None, "skipped", 0, 0, Some("disabled in the run config"))], [], shipped)
    else RunHarnesses(hs, Share(total, |hs|), findingId, FuzzPass(now, [], [], shipped))
  }
}
