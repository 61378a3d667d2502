/** What the broker makes of a command it ran itself: src/gates/verify.ts, test-gate.ts, build.ts. */
module Gates {
  import opened Basics
  import opened Contracts

  /** How a process ended. `exitCode` is absent when a signal ended it or it never ran. */
  datatype ToolResult = ToolResult(exitCode: Option<int>, timedOut: bool, spawnError: Option<string>, durationMs: nat)

  /** A repro is run unless its crash artifact is gone or out of scope. */
  datatype ReproRun = Unusable(why: string) | Ran(result: ToolResult)

  function VerifyOne(finding: Finding, run: ReproRun): VerifyResult {
    match run
    case Unusable(why) => VerifyResult(finding.id, Inconclusive, None, 0, Some(why))
    case Ran(result) =>
      if result.timedOut then
        VerifyResult(finding.id, Inconclusive, result.exitCode, result.durationMs, Some("the repro timed out"))
      else match result.spawnError
        case Some(error) => VerifyResult(finding.id, Inconclusive, result.exitCode, result.durationMs, Some(error))
        case None =>
          match result.exitCode
          case None =>
            VerifyResult(finding.id, Inconclusive, None, result.durationMs, Some("the repro was killed before it reported"))
          case Some(code) =>
            VerifyResult(finding.id, if code == 0 then Survived else Closed, Some(code), result.durationMs, None)
  }

  function VerifyAll(findings: seq<Finding>, runs: string -> ReproRun): (r: seq<VerifyResult>)
    ensures |r| == |findings|
    ensures forall i :: 0 <= i < |r| ==> r[i] == VerifyOne(findings[i], runs(findings[i].id))
  {
    if findings == [] then []
    else [VerifyOne(findings[0], runs(findings[0].id))] + VerifyAll(findings[1..], runs)
  }

  /** The repro ran to its end and reported. */
  ghost predicate Completed(run: ReproRun) {
    run.Ran? && !run.result.timedOut && run.result.spawnError.None? && run.result.exitCode.Some?
  }

  /** One exit code decides everything, and only a repro that ran to its end has one: a finding is
      closed by a completed non-zero exit and by nothing else. */
  ghost predicate Judges(result: VerifyResult, finding: Finding, run: ReproRun) {
    result.findingId == finding.id &&
    (result.outcome == Inconclusive <==> !Completed(run)) &&
    (result.outcome == Closed <==> Completed(run) && run.result.exitCode.value != 0) &&
    (result.outcome == Survived <==> Completed(run) && run.result.exitCode.value == 0) &&
    result.exitCode == (if run.Ran? then run.result.exitCode else None) && (result.note.None? <==> Completed(run))
  }

  /** The repro still reproduces. */
  ghost predicate Survives(run: ReproRun) {
    Completed(run) && run.result.exitCode == Some(0)
  }

  /** A suite that was not seen to pass has failed, and when its exit code alone does not say why, a note does. */
  ghost predicate Reports(test: TestResult, command: string, result: ToolResult) {
    test.command == command && test.exitCode == result.exitCode && test.durationMs == result.durationMs &&
    (test.status == Pass <==> result.exitCode == Some(0)) &&
    (test.note.None? <==> !result.timedOut && result.spawnError.None? && result.exitCode.Some?)
  }

  /** One repro after another, in the order the broker handed them over. */
  method VerifyFindings(findings: seq<Finding>, runs: string -> ReproRun) returns (results: seq<VerifyResult>)
    ensures |results| == |findings|
    ensures forall i :: 0 <= i < |results| ==> Judges(results[i], findings[i], runs(findings[i].id))
    ensures results == VerifyAll(findings, runs)
  {
    results := [];
    for i := 0 to |findings|
      invariant |results| == i
      invariant forall k :: 0 <= k < i ==> results[k] == VerifyOne(findings[k], runs(findings[k].id))
    {
      results := results + [VerifyOne(findings[i], runs(findings[i].id))];
    }
  }

  // ---- tests --------------------------------------------------------------------------

  function FailureNote(result: ToolResult): Option<string> {
    if result.timedOut then Some("the test command timed out")
    else if result.spawnError.Some? then Some("the test command could not be run")
    else if result.exitCode.None? then Some("the test command was killed")
    else None
  }

  function RunTests(command: string, result: ToolResult): TestResult {
    TestResult(if result.exitCode == Some(0) then Pass else Fail, command, result.exitCode, result.durationMs,
               FailureNote(result))
  }

  /** True only when a suite that passed at baseline now fails. */
  predicate Regressed(baseline: TestResult, result: TestResult) {
    if result.status == Pass then false
    else if baseline.status != Pass then false
    else true
  }

  // ---- build --------------------------------------------------------------------------

  datatype BuildStatus = BuildOk | BuildFailed | NotConfigured

  /** A build that failed leaves nothing judgeable. */
  function Unverifiable(finding: Finding): VerifyResult {
    VerifyResult(finding.id, Inconclusive, None, 0, Some("the target did not build, so its repro could not be run"))
  }

  function UnverifiableAll(findings: seq<Finding>): (r: seq<VerifyResult>)
    ensures |r| == |findings|
    ensures forall i :: 0 <= i < |r| ==> r[i] == Unverifiable(findings[i])
  {
    if findings == [] then [] else [Unverifiable(findings[0])] + UnverifiableAll(findings[1..])
  }
}
