/** The records that cross boundaries (src/contracts), and what they look like as JSON. */
module Contracts {
  import opened Basics
  import opened JsonText

  datatype Severity = Info | Low | Medium | High | Critical

  function SeverityRank(s: Severity): nat {
    match s case Info => 0 case Low => 1 case Medium => 2 case High => 3 case Critical => 4
  }

  predicate MeetsBar(severity: Severity, bar: Severity) {
    SeverityRank(severity) >= SeverityRank(bar)
  }

  datatype Source = Fuzzer | Sast | Sca | Secret | ColdHunt

  datatype Confirmation = Confirmed | Candidate | Dismissed

  datatype Finding = Finding(
    id: string,
    source: Source,
    state: Confirmation,
    severity: Severity,
    bugClass: string,
    file: string,
    line: Option<nat>,
    description: string,
    repro: string,
    expected: string,
    artifact: Option<string>)

  datatype Agent = Claude | Grok

  datatype Fix = Fix(findingId: string, filesChanged: seq<string>, summary: string)

  datatype FixReport = FixReport(round: nat, agent: Agent, fixes: seq<Fix>)

  datatype Outcome = Survived | Closed | Inconclusive

  datatype VerifyResult = VerifyResult(
    findingId: string, outcome: Outcome, exitCode: Option<int>, durationMs: nat, note: Option<string>)

  datatype TestStatus = Pass | Fail

  datatype TestResult = TestResult(
    status: TestStatus, command: string, exitCode: Option<int>, durationMs: nat, note: Option<string>)

  datatype DetectorRun = DetectorRun(
    detector: string, harnessId: Option<string>, status: string, durationMs: nat, findingsEmitted: nat,
    note: Option<string>)

  datatype Verdict = VerdictDismissed | VerdictClosed

  /** What a round decided about a finding. A closure carries the repro that closed it. */
  datatype FindingVerdict = FindingVerdict(
    findingId: string, verdict: Verdict, repro: Option<string>, decidedInRound: nat)

  // ---- as JSON ------------------------------------------------------------------------

  /** A field that is left out when there is nothing to say. */
  function PutSome(fields: Fields, key: string, value: Option<Json>): Fields {
    match value case None => fields case Some(v) => Put(fields, key, v)
  }

  function OptionText(s: Option<string>): Option<Json> {
    match s case None => None case Some(text) => Some(Str(text))
  }

  function NullableInt(n: Option<int>): Json {
    match n case None => Null case Some(i) => Num(i)
  }

  function SeverityText(s: Severity): string {
    match s
    case Info => "info" case Low => "low" case Medium => "medium" case High => "high" case Critical => "critical"
  }

  function SourceText(s: Source): string {
    match s
    case Fuzzer => "fuzzer" case Sast => "sast" case Sca => "sca" case Secret => "secret" case ColdHunt => "cold-hunt"
  }

  function ConfirmationText(c: Confirmation): string {
    match c case Confirmed => "confirmed" case Candidate => "candidate" case Dismissed => "dismissed"
  }

  function OutcomeText(o: Outcome): string {
    match o case Survived => "survived" case Closed => "closed" case Inconclusive => "inconclusive"
  }

  function FindingJson(f: Finding): Json {
    var start := [
      Slot("id", Str(f.id)),
      Slot("source", Str(SourceText(f.source))),
      Slot("confirmation_state", Str(ConfirmationText(f.state))),
      Slot("severity", Str(SeverityText(f.severity))),
      Slot("class", Str(f.bugClass)),
      Slot("file", Str(f.file))];
    var line := match f.line case None => [] case Some(n) => [Slot("line", Num(n))];
    var texts := [
      Slot("description", Str(f.description)),
      Slot("repro_command", Str(f.repro)),
      Slot("expected_secure_behavior", Str(f.expected))];
    Obj(PutSome(start + line + texts, "crash_artifact", OptionText(f.artifact)))
  }

  function FindingsJson(fs: seq<Finding>): seq<Json> {
    if fs == [] then [] else [FindingJson(fs[0])] + FindingsJson(fs[1..])
  }

  function BatchJson(round: nat, batch: seq<Finding>): Json {
    Obj([Slot("round", Num(round)), Slot("findings", Arr(FindingsJson(batch)))])
  }

  function TextsJson(texts: seq<string>): seq<Json> {
    if texts == [] then [] else [Str(texts[0])] + TextsJson(texts[1..])
  }

  function FixesJson(fixes: seq<Fix>): seq<Json> {
    if fixes == [] then []
    else [Obj([
      Slot("finding_id", Str(fixes[0].findingId)),
      Slot("files_changed", Arr(TextsJson(fixes[0].filesChanged))),
      Slot("summary", Str(fixes[0].summary))])] + FixesJson(fixes[1..])
  }

  function FixReportJson(report: FixReport): Json {
    Obj([
      Slot("round", Num(report.round)),
      Slot("agent", Str(match report.agent case Claude => "claude" case Grok => "grok")),
      Slot("fixes", Arr(FixesJson(report.fixes)))])
  }

  function VerifyResultJson(r: VerifyResult): Json {
    var fields := [
      Slot("finding_id", Str(r.findingId)),
      Slot("outcome", Str(OutcomeText(r.outcome))),
      Slot("exit_code", NullableInt(r.exitCode)),
      Slot("duration_ms", Num(r.durationMs))];
    Obj(PutSome(fields, "note", OptionText(r.note)))
  }

  function VerifyResultsJson(rs: seq<VerifyResult>): seq<Json> {
    if rs == [] then [] else [VerifyResultJson(rs[0])] + VerifyResultsJson(rs[1..])
  }

  function VerdictJson(v: FindingVerdict): Json {
    var start := [
      Slot("finding_id", Str(v.findingId)),
      Slot("verdict", Str(if v.verdict.VerdictClosed? then "closed" else "dismissed"))];
    Obj(Put(PutSome(start, "repro_command", OptionText(v.repro)), "decided_in_round", Num(v.decidedInRound)))
  }

  function VerdictsJson(vs: seq<FindingVerdict>): seq<Json> {
    if vs == [] then [] else [VerdictJson(vs[0])] + VerdictsJson(vs[1..])
  }

  function DetectorRunJson(r: DetectorRun): Json {
    var start := PutSome([Slot("detector", Str(r.detector))], "harness_id", OptionText(r.harnessId));
    var counts := Put(Put(Put(start, "status", Str(r.status)), "duration_ms", Num(r.durationMs)),
                      "findings_emitted", Num(r.findingsEmitted));
    Obj(PutSome(counts, "note", OptionText(r.note)))
  }

  function DetectorRunsJson(rs: seq<DetectorRun>): seq<Json> {
    if rs == [] then [] else [DetectorRunJson(rs[0])] + DetectorRunsJson(rs[1..])
  }

  function TestResultJson(t: TestResult): Json {
    var fields := [
      Slot("status", Str(if t.status.Pass? then "pass" else "fail")),
      Slot("command", Str(t.command)),
      Slot("exit_code", NullableInt(t.exitCode)),
      Slot("duration_ms", Num(t.durationMs))];
    Obj(PutSome(fields, "note", OptionText(t.note)))
  }
}
