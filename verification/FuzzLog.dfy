/** The restart loop told from its log: when it starts the harness again, when it stops, and what it makes
    of each crash. The numbers are those of the source, written out. */
module FuzzLog {
  import opened Basics
  import opened Contracts
  import opened FuzzModel

  // ---- what a log says ----------------------------------------------------------------

  function SignatureOf(l: Launch): string {
    match l.process.report case Some(r) => r.signature case None => ""
  }

  /** The harness came up, ended in time with a failure, and left an artifact and a report to read. */
  ghost predicate Crashed(t: Target, launches: seq<Launch>, k: nat)
    requires k < |launches|
  {
    var process := launches[k].process;
    process.spawnError.None? && !process.timedOut && process.exitCode != Some(0) && t.artifact(k).Some? && process.report.Some?
  }

  /** No start before it crashed with its signature. */
  ghost predicate IsNew(launches: seq<Launch>, k: nat)
    requires k < |launches|
  {
    forall j :: 0 <= j < k ==> SignatureOf(launches[j]) != SignatureOf(launches[k])
  }

  /** After this crash the harness is worth another start: of the last two crashes, one was new. */
  ghost predicate GoesOn(launches: seq<Launch>, k: nat)
    requires k < |launches|
  {
    IsNew(launches, k) || (k > 0 && IsNew(launches, k - 1))
  }

  /** When replayed within a minute, the artifact of this start shows its own crash again. */
  ghost predicate Reproduces(t: Target, launches: seq<Launch>, k: nat)
    requires k < |launches|
  {
    var process := t.tool(ReplayRaw(k), 60000.0);
    !process.timedOut && process.exitCode != Some(0) && process.report.Some? &&
    process.report.value.signature == SignatureOf(launches[k])
  }

  /** The new signatures among the first `n` starts. */
  ghost function NewSignatures(launches: seq<Launch>, n: nat): seq<string>
    requires n <= |launches|
  {
    if n == 0 then []
    else NewSignatures(launches, n - 1) + (if IsNew(launches, n - 1) then [SignatureOf(launches[n - 1])] else [])
  }

  /** What is reported of the first `n` starts: each new crash that reproduces, in order. */
  ghost function Reported(t: Target, job: Job, launches: seq<Launch>, n: nat): seq<Slot<string, Finding>>
    requires n <= |launches|
  {
    if n == 0 then []
    else
      Reported(t, job, launches, n - 1) +
      (match launches[n - 1].process.report
       case Some(report) =>
         if IsNew(launches, n - 1) && Reproduces(t, launches, n - 1)
         then [Slot(report.signature, CrashFinding(t, job, report))] else []
       case None => [])
  }

  /** Every start was made with more than a second left, under a timeout of what was left and 15 seconds. */
  ghost predicate Truthful(t: Target, deadline: real, p: Progress) {
    |p.launches| == p.runIndex <= 32 &&
    forall k :: 0 <= k < |p.launches| ==>
      var l := p.launches[k];
      l.at + 1000.0 < deadline && l.timeout == deadline - l.at + 15000.0 && l.process == t.tool(Fuzz(k), l.timeout)
  }

  ghost predicate WentOn(t: Target, launches: seq<Launch>, n: nat)
    requires n <= |launches|
  {
    forall k :: 0 <= k < n ==> Crashed(t, launches, k) && GoesOn(launches, k)
  }

  ghost predicate SeenIs(seen: set<string>, launches: seq<Launch>, n: nat)
    requires n <= |launches|
  {
    forall s :: s in seen <==> exists k :: 0 <= k < n && SignatureOf(launches[k]) == s
  }

  /** Before each turn of the loop. */
  ghost predicate Going(t: Target, job: Job, deadline: real, p: Progress) {
    var n := |p.launches|;
    Truthful(t, deadline, p) && WentOn(t, p.launches, n) &&
    p.dryRuns == (if n == 0 || IsNew(p.launches, n - 1) then 0 else 1) &&
    SeenIs(p.seen, p.launches, n) && p.emitted == NewSignatures(p.launches, n) && p.findings == Reported(t, job, p.launches, n)
  }

  /** The harness could not be started, or it failed and left nothing to go by. */
  ghost predicate Fails(process: Process) {
    process.spawnError.Some? || (!process.timedOut && process.exitCode != Some(0))
  }

  /** When the loop is over. It went on after every start but the last. If the last one was no crash to
      work on, the harness is broken exactly when it failed. Otherwise that crash brought nothing new for
      the second time, or it was the 32nd start, or there is no more than a second left. */
  ghost predicate Over(t: Target, job: Job, deadline: real, end: Progress, halt: Halt) {
    var n := |end.launches|;
    Truthful(t, deadline, end) && (n > 0 ==> WentOn(t, end.launches, n - 1)) &&
    if n > 0 && !Crashed(t, end.launches, n - 1) then
      end.emitted == NewSignatures(end.launches, n - 1) && end.findings == Reported(t, job, end.launches, n - 1) &&
      (halt.Broke? <==> Fails(end.launches[n - 1].process))
    else
      end.emitted == NewSignatures(end.launches, n) && end.findings == Reported(t, job, end.launches, n) &&
      halt == Finished &&
      ((n > 0 && !GoesOn(end.launches, n - 1)) || n == 32 || deadline <= end.now + 1000.0)
  }

  // ---- the loop keeps its log ---------------------------------------------------------

  lemma {:induction false} SamePast(t: Target, job: Job, a: seq<Launch>, b: seq<Launch>, n: nat)
    requires a <= b && n <= |a|
    ensures NewSignatures(a, n) == NewSignatures(b, n) && Reported(t, job, a, n) == Reported(t, job, b, n)
    ensures WentOn(t, a, n) ==> WentOn(t, b, n)
  {
    if n > 0 {
      SamePast(t, job, a, b, n - 1);
      assert IsNew(a, n - 1) <==> IsNew(b, n - 1);
    }
    if WentOn(t, a, n) {
      forall k | 0 <= k < n ensures Crashed(t, b, k) && GoesOn(b, k) {
        assert Crashed(t, a, k) && GoesOn(a, k);
        assert IsNew(a, k) <==> IsNew(b, k);
        assert k > 0 ==> (IsNew(a, k - 1) <==> IsNew(b, k - 1));
      }
    }
  }

  lemma {:induction false} ReportedAreOld(t: Target, job: Job, launches: seq<Launch>, n: nat, key: string)
    requires n <= |launches| && forall k :: 0 <= k < n ==> SignatureOf(launches[k]) != key
    ensures Lookup(Reported(t, job, launches, n), key).None?
  {
    if n > 0 {
      ReportedAreOld(t, job, launches, n - 1, key);
      LookupFinds(Reported(t, job, launches, n - 1), key);
      LookupFinds(Reported(t, job, launches, n), key);
    }
  }

  /** What one crash leaves in the bookkeeping. */
  lemma EmitLogs(t: Target, job: Job, i: nat, raw: Bytes, report: Report, p: Progress)
    ensures var e := EmitCrash(t, job, i, raw, report, p);
      e.launches == p.launches && e.runIndex == p.runIndex && e.seen == p.seen && e.dryRuns == p.dryRuns &&
      e.emitted == p.emitted + [report.signature] &&
      e.findings == if Shows(t.tool(ReplayRaw(i), 60000.0), report.signature)
        then Put(p.findings, report.signature, CrashFinding(t, job, report)) else p.findings
  {
    hide Put, CrashFinding, ArtifactPath, RawPath, Shows;
  }

  lemma LaunchLogs(t: Target, job: Job, deadline: real, p: Progress)
    requires Going(t, job, deadline, p) && p.now + 1000.0 < deadline && p.runIndex < 32
    ensures var timeout := deadline - p.now + 15000.0;
      var q := Launched(p, timeout, t.tool(Fuzz(p.runIndex), timeout));
      Truthful(t, deadline, q) && WentOn(t, q.launches, |p.launches|) &&
      NewSignatures(q.launches, |p.launches|) == p.emitted && Reported(t, job, q.launches, |p.launches|) == p.findings &&
      SeenIs(p.seen, q.launches, |p.launches|) &&
      p.dryRuns == (if |p.launches| == 0 || IsNew(q.launches, |p.launches| - 1) then 0 else 1)
  {
    var timeout := deadline - p.now + 15000.0;
    var n, q := |p.launches|, Launched(p, timeout, t.tool(Fuzz(p.runIndex), timeout));
    SamePast(t, job, p.launches, q.launches, n);
    SameSeen(p.seen, p.launches, q.launches, n);
    assert n > 0 ==> (IsNew(p.launches, n - 1) <==> IsNew(q.launches, n - 1));
    hide WentOn, NewSignatures, Reported, IsNew, SeenIs;
  }

  lemma SameSeen(seen: set<string>, a: seq<Launch>, b: seq<Launch>, n: nat)
    requires a <= b && n <= |a| && SeenIs(seen, a, n)
    ensures SeenIs(seen, b, n)
  {
    assert forall k :: 0 <= k < n ==> SignatureOf(a[k]) == SignatureOf(b[k]);
  }

  /** One start more, not yet worked on: the books are as they were before it. */
  ghost predicate Fresh(t: Target, job: Job, deadline: real, n: nat, q: Progress) {
    |q.launches| == n + 1 && Truthful(t, deadline, q) && WentOn(t, q.launches, n) &&
    q.emitted == NewSignatures(q.launches, n) && q.findings == Reported(t, job, q.launches, n) &&
    SeenIs(q.seen, q.launches, n) &&
    q.dryRuns == (if n == 0 || IsNew(q.launches, n - 1) then 0 else 1)
  }

  lemma NewCrashFindings(t: Target, job: Job, n: nat, q: Progress)
    requires |q.launches| == n + 1 && Crashed(t, q.launches, n) && IsNew(q.launches, n)
    requires q.findings == Reported(t, job, q.launches, n)
    ensures var report := q.launches[n].process.report.value;
      EmitCrash(t, job, n, t.artifact(n).value, report, q).findings == Reported(t, job, q.launches, n + 1)
  {
    var report := q.launches[n].process.report.value;
    EmitLogs(t, job, n, t.artifact(n).value, report, q);
    hide EmitCrash, CrashFinding;
    ReportedAreOld(t, job, q.launches, n, report.signature);
    PutNewAppends(q.findings, report.signature, CrashFinding(t, job, report));
    hide Put, Lookup;
    assert Reproduces(t, q.launches, n) <==> Shows(t.tool(ReplayRaw(n), 60000.0), report.signature);
  }

  lemma NewIsNew(launches: seq<Launch>, n: nat, seen: set<string>)
    requires |launches| == n + 1 && SignatureOf(launches[n]) !in seen
    requires SeenIs(seen, launches, n)
    ensures IsNew(launches, n) && NewSignatures(launches, n + 1) == NewSignatures(launches, n) + [SignatureOf(launches[n])]
    ensures SeenIs(seen + {SignatureOf(launches[n])}, launches, n + 1)
  {
    forall s
      ensures s in seen + {SignatureOf(launches[n])} <==> exists k :: 0 <= k < n + 1 && SignatureOf(launches[k]) == s
    {
      if s == SignatureOf(launches[n]) {
        assert SignatureOf(launches[n]) == s;
      }
    }
  }

  lemma WentOnMore(t: Target, launches: seq<Launch>, n: nat)
    requires n < |launches| && WentOn(t, launches, n) && Crashed(t, launches, n) && GoesOn(launches, n)
    ensures WentOn(t, launches, n + 1)
  {
  }

  /** A crash the loop has not seen. */
  lemma NewCrashLogs(t: Target, job: Job, deadline: real, n: nat, q: Progress)
    requires Fresh(t, job, deadline, n, q) && Crashed(t, q.launches, n) && SignatureOf(q.launches[n]) !in q.seen
    ensures var report := q.launches[n].process.report.value;
      Going(t, job, deadline, EmitCrash(t, job, n, t.artifact(n).value, report, q.(seen := q.seen + {report.signature}, dryRuns := 0)))
  {
    var report := q.launches[n].process.report.value;
    var q1 := q.(seen := q.seen + {report.signature}, dryRuns := 0);
    NewIsNew(q.launches, n, q.seen);
    NewCrashFindings(t, job, n, q1);
    EmitLogs(t, job, n, t.artifact(n).value, report, q1);
    WentOnMore(t, q.launches, n);
    hide EmitCrash, Put, CrashFinding, Shows, NewSignatures, Reported, IsNew, WentOn, Crashed, Truthful, SeenIs;
    var e := EmitCrash(t, job, n, t.artifact(n).value, report, q1);
    assert Truthful(t, deadline, e) by {
      SameLaunches(t, deadline, q, e);
    }
  }

  lemma SameLaunches(t: Target, deadline: real, p: Progress, q: Progress)
    requires Truthful(t, deadline, p) && q.launches == p.launches && q.runIndex == p.runIndex
    ensures Truthful(t, deadline, q)
  {
  }

  /** One it has seen: the first in a row is let pass, the second ends the loop. */
  lemma OldCrashLogs(t: Target, job: Job, deadline: real, n: nat, q: Progress)
    requires Fresh(t, job, deadline, n, q) && Crashed(t, q.launches, n) && SignatureOf(q.launches[n]) in q.seen
    ensures var next := q.(dryRuns := q.dryRuns + 1);
      if q.dryRuns == 0 then Going(t, job, deadline, next) else Over(t, job, deadline, next, Finished)
  {
    OldIsOld(t, job, q.launches, n, q.seen);
    var next := q.(dryRuns := q.dryRuns + 1);
    SameLaunches(t, deadline, q, next);
    if q.dryRuns == 0 {
      assert GoesOn(q.launches, n);
      WentOnMore(t, q.launches, n);
    }
    hide NewSignatures, Reported, IsNew, Crashed, Truthful, WentOn, SeenIs;
  }

  lemma OldIsOld(t: Target, job: Job, launches: seq<Launch>, n: nat, seen: set<string>)
    requires |launches| == n + 1 && SignatureOf(launches[n]) in seen
    requires SeenIs(seen, launches, n)
    ensures n > 0 && !IsNew(launches, n) && NewSignatures(launches, n + 1) == NewSignatures(launches, n)
    ensures Reported(t, job, launches, n + 1) == Reported(t, job, launches, n)
    ensures SeenIs(seen, launches, n + 1)
  {
    hide Reproduces, CrashFinding;
    StillSeen(launches, n, seen);
    assert !IsNew(launches, n);
    hide SeenIs, IsNew;
  }

  lemma StillSeen(launches: seq<Launch>, n: nat, seen: set<string>)
    requires |launches| == n + 1 && SignatureOf(launches[n]) in seen && SeenIs(seen, launches, n)
    ensures SeenIs(seen, launches, n + 1) && exists k :: 0 <= k < n && SignatureOf(launches[k]) == SignatureOf(launches[n])
  {
    hide SignatureOf;
  }

  lemma NoCrashIsOver(t: Target, job: Job, deadline: real, n: nat, q: Progress, notes: seq<string>, halt: Halt)
    requires Fresh(t, job, deadline, n, q) && !Crashed(t, q.launches, n)
    requires halt.Broke? <==> Fails(q.launches[n].process)
    ensures Over(t, job, deadline, q.(notes := notes), halt)
  {
    hide Crashed, Fails, NewSignatures, Reported, IsNew, SeenIs;
  }

  lemma NoStartIsOver(t: Target, job: Job, deadline: real, p: Progress, notes: seq<string>)
    requires Going(t, job, deadline, p) && (deadline <= p.now + 1000.0 || p.runIndex == 32)
    ensures Over(t, job, deadline, p.(notes := notes), Finished)
  {
    hide Crashed, NewSignatures, Reported, IsNew, SeenIs;
  }

  /** One turn that starts the harness, by what came of it. */
  lemma TurnIs(t: Target, job: Job, deadline: real, p: Progress)
    requires p.now + 1000.0 < deadline && p.runIndex < 32 && |p.launches| == p.runIndex
    ensures var n, timeout := p.runIndex, deadline - p.now + 15000.0;
      var run := t.tool(Fuzz(n), timeout);
      var q := Launched(p, timeout, run);
      var s := RunOnce(t, job, deadline, p);
      if Crashed(t, q.launches, n) then s == AfterCrash(t, job, n, t.artifact(n).value, run.report.value, q)
      else s.Stop? && s.p == q.(notes := s.p.notes) && (s.halt.Broke? <==> Fails(run))
  {
    hide AfterCrash;
  }

  lemma RunOnceLogs(t: Target, job: Job, deadline: real, p: Progress)
    requires Going(t, job, deadline, p)
    ensures match RunOnce(t, job, deadline, p)
      case Again(next) => Going(t, job, deadline, next)
      case Stop(end, halt) => Over(t, job, deadline, end, halt)
  {
    GoingCounts(t, job, deadline, p);
    hide EmitCrash, Going, Over, AfterCrash;
    if deadline <= p.now + 1000.0 || p.runIndex == 32 {
      NoStartIsOver(t, job, deadline, p, RunOnce(t, job, deadline, p).p.notes);
    } else {
      hide RunOnce;
      StartLogs(t, job, deadline, p);
    }
  }

  lemma StartLogs(t: Target, job: Job, deadline: real, p: Progress)
    requires Going(t, job, deadline, p) && p.now + 1000.0 < deadline && p.runIndex < 32
    ensures match RunOnce(t, job, deadline, p)
      case Again(next) => Going(t, job, deadline, next)
      case Stop(end, halt) => Over(t, job, deadline, end, halt)
  {
    hide RunOnce, Going, Over, Fresh, AfterCrash, Crashed, Fails;
    GoingCounts(t, job, deadline, p);
    TurnIs(t, job, deadline, p);
    LaunchIsFresh(t, job, deadline, p);
    var n, timeout := |p.launches|, deadline - p.now + 15000.0;
    var q := Launched(p, timeout, t.tool(Fuzz(n), timeout));
    if Crashed(t, q.launches, n) {
      CrashLogs(t, job, deadline, n, q);
    } else {
      var s := RunOnce(t, job, deadline, p);
      NoCrashIsOver(t, job, deadline, n, q, s.p.notes, s.halt);
    }
  }

  lemma CrashLogs(t: Target, job: Job, deadline: real, n: nat, q: Progress)
    requires Fresh(t, job, deadline, n, q) && Crashed(t, q.launches, n)
    ensures match AfterCrash(t, job, n, t.artifact(n).value, q.launches[n].process.report.value, q)
      case Again(next) => Going(t, job, deadline, next)
      case Stop(end, halt) => Over(t, job, deadline, end, halt)
  {
    FreshIsDry(t, job, deadline, n, q);
    hide EmitCrash, Going, Over, Fresh;
    if SignatureOf(q.launches[n]) in q.seen {
      OldCrashLogs(t, job, deadline, n, q);
    } else {
      NewCrashLogs(t, job, deadline, n, q);
    }
  }

  lemma FreshIsDry(t: Target, job: Job, deadline: real, n: nat, q: Progress)
    requires Fresh(t, job, deadline, n, q)
    ensures q.dryRuns <= 1
  {
  }

  lemma LaunchIsFresh(t: Target, job: Job, deadline: real, p: Progress)
    requires Going(t, job, deadline, p) && p.now + 1000.0 < deadline && p.runIndex < 32
    ensures var timeout := deadline - p.now + 15000.0;
      Fresh(t, job, deadline, |p.launches|, Launched(p, timeout, t.tool(Fuzz(|p.launches|), timeout)))
  {
    LaunchLogs(t, job, deadline, p);
    hide Going, Truthful, WentOn, NewSignatures, Reported, IsNew, SeenIs;
    assert p.runIndex == |p.launches| by { GoingCounts(t, job, deadline, p); }
  }

  lemma GoingCounts(t: Target, job: Job, deadline: real, p: Progress)
    requires Going(t, job, deadline, p)
    ensures p.runIndex == |p.launches| <= 32
  {
  }

  lemma {:induction false} DriveLogs(t: Target, job: Job, deadline: real, p: Progress)
    requires Going(t, job, deadline, p)
    ensures var (end, halt) := DriveFrom(t, job, deadline, p); Over(t, job, deadline, end, halt)
    decreases MAX_RUNS - p.runIndex
  {
    RunOnceLogs(t, job, deadline, p);
    hide RunOnce, Going, Over;
    match RunOnce(t, job, deadline, p)
    case Stop(_, _) =>
    case Again(next) => DriveLogs(t, job, deadline, next);
  }

  // ---- what the harness reports -------------------------------------------------------

  /** The report on a crash: confirmed, with the command that replays its own artifact. */
  ghost predicate Describes(t: Target, job: Job, slot: Slot<string, Finding>) {
    var f := slot.value;
    f.id == job.findingId(slot.key) && f.source == Fuzzer && f.state == Confirmed &&
    f.artifact == Some(".crossfire/crashes/" + job.harnessId + "/" + f.id + ".min") &&
    f.repro == t.reproCommand(f.artifact.value) &&
    f.severity == (match t.severityByKind(f.bugClass) case Some(s) => s case None => High)
  }

  lemma {:induction false} ReportedDescribes(t: Target, job: Job, launches: seq<Launch>, n: nat)
    requires n <= |launches|
    ensures forall i :: 0 <= i < |Reported(t, job, launches, n)| ==> Describes(t, job, Reported(t, job, launches, n)[i])
  {
    if n > 0 {
      ReportedDescribes(t, job, launches, n - 1);
    }
  }

  /** One harness, start to end. A blocked one is never started. Otherwise its log is that of a loop that
      is over; and unless it broke, it reports all its findings and their number, and a broken one none. */
  ghost predicate Tells(t: Target, job: Job, now: real, outcome: HarnessOutcome, end: Progress) {
    outcome.run.harnessId == Some(job.harnessId) && outcome.run.findingsEmitted == |outcome.findings| &&
    if job.blocked.Some? then
      outcome.run.status == "error" && outcome.findings == [] && end.launches == [] && end.now == now
    else
      exists halt :: Over(t, job, now + job.timeBudgetMs as real, end, halt) && Reports(t, job, outcome, end, halt)
  }

  ghost predicate Reports(t: Target, job: Job, outcome: HarnessOutcome, end: Progress, halt: Halt) {
    if halt.Broke? then outcome.run.status == "error" && outcome.findings == []
    else
      outcome.run.status == "ok" && |outcome.findings| == |end.findings| &&
      forall i :: 0 <= i < |end.findings| ==>
        outcome.findings[i] == end.findings[i].value && Describes(t, job, end.findings[i])
  }

  lemma HarnessTells(t: Target, job: Job, now: real, shipped: map<string, Bytes>)
    ensures var (outcome, end) := Drive(t, job, now, shipped); Tells(t, job, now, outcome, end)
  {
    hide RunOnce, DriveFrom, Over, Joined, Elapsed, Describes;
    var deadline := now + job.timeBudgetMs as real;
    StartGoes(t, job, deadline, now, shipped);
    DriveLogs(t, job, deadline, Start(now, shipped));
    var (end, halt) := DriveFrom(t, job, deadline, Start(now, shipped));
    if job.blocked.None? {
      OverDescribes(t, job, deadline, end, halt);
      var (outcome, last) := Drive(t, job, now, shipped);
      assert last == end && Over(t, job, now + job.timeBudgetMs as real, last, halt);
      assert Reports(t, job, outcome, end, halt);
    }
  }

  lemma StartGoes(t: Target, job: Job, deadline: real, now: real, shipped: map<string, Bytes>)
    ensures Going(t, job, deadline, Start(now, shipped))
  {
  }

  lemma OverDescribes(t: Target, job: Job, deadline: real, end: Progress, halt: Halt)
    requires Over(t, job, deadline, end, halt)
    ensures forall i :: 0 <= i < |end.findings| ==> Describes(t, job, end.findings[i])
  {
    hide Describes, Truthful, WentOn, Reported;
    var n := |end.launches|;
    ReportedDescribes(t, job, end.launches, n);
    if n > 0 {
      ReportedDescribes(t, job, end.launches, n - 1);
    }
  }
}
