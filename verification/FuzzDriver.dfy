/** The loops of src/detection/libfuzzer-driver.ts and src/detection/fuzz.ts as they are written, over
    a machine whose clock runs and whose crash directory fills up. */
module FuzzDriver {
  import opened Basics
  import opened Contracts
  import opened FuzzModel

  class Machine {
    var now: real
    var shipped: map<string, Bytes>
    var replays: seq<Replay>

    constructor (now: real, shipped: map<string, Bytes>)
      ensures this.now == now && this.shipped == shipped && replays == []
    {
      this.now, this.shipped, replays := now, shipped, [];
    }

    method RunTool(t: Target, call: Call, timeoutMs: real) returns (process: Process)
      modifies `now
      ensures process == t.tool(call, timeoutMs) && now == old(now) + process.took
    {
      process := t.tool(call, timeoutMs);
      now := now + process.took;
    }

    method ReplaysWithSignature(t: Target, call: Call, content: Bytes, signature: string) returns (same: bool)
      modifies `now, `replays
      ensures var process := t.tool(call, REPLAY_TIMEOUT_MS);
        same == Shows(process, signature) && now == old(now) + process.took &&
        replays == old(replays) + [Replay(content, process)]
    {
      var replay := RunTool(t, call, REPLAY_TIMEOUT_MS);
      replays := replays + [Replay(content, replay)];
      if replay.timedOut || replay.exitCode == Some(0) {
        return false;
      }
      same := replay.report.Some? && replay.report.value.signature == signature;
    }

    /** `p` is the progress of the loop that calls this. */
    method EmitCrash(t: Target, job: Job, i: nat, raw: Bytes, report: Report, ghost p: Progress)
      returns (finding: Option<Finding>, note: seq<string>)
      requires p.now == now && p.shipped == shipped && p.replays == replays
      modifies this
      ensures var e := FuzzModel.EmitCrash(t, job, i, raw, report, p);
        now == e.now && shipped == e.shipped && replays == e.replays && e.notes == p.notes + note &&
        e.findings == match finding case Some(f) => Put(p.findings, report.signature, f) case None => p.findings
    {
      hide CrashFinding, Put, ArtifactPath, RawPath, Shows;
      var live := ReplaysWithSignature(t, ReplayRaw(i), raw, report.signature);
      if !live {
        return None, ["dropped a " + report.kind + " that would not replay from its own artifact"];
      }
      var minimizing := RunTool(t, Minimize(i), MINIMIZE_TIMEOUT_MS);
      var small := t.minimized(i);
      var minimized := !minimizing.timedOut && small.Some?;
      if minimized {
        minimized := ReplaysWithSignature(t, ReplayMinimized(i), small.value, report.signature);
      }
      note := CopyArtifacts(job, if minimized then small.value else raw, raw, report, minimized);
      finding := Some(CrashFinding(t, job, report));
    }

    method CopyArtifacts(job: Job, content: Bytes, raw: Bytes, report: Report, minimized: bool) returns (note: seq<string>)
      modifies `shipped
      ensures var id := job.findingId(report.signature);
        shipped == old(shipped)[ArtifactPath(job, id) := content][RawPath(job, id) := raw] &&
        note == if minimized then [] else [id + " ships its raw artifact, minimization did not hold up"]
    {
      var id := job.findingId(report.signature);
      shipped := shipped[ArtifactPath(job, id) := content];
      shipped := shipped[RawPath(job, id) := raw];
      note := if minimized then [] else [id + " ships its raw artifact, minimization did not hold up"];
    }

    method Drive(t: Target, job: Job) returns (outcome: HarnessOutcome, ghost end: Progress)
      modifies this
      ensures (outcome, end) == FuzzModel.Drive(t, job, old(now), old(shipped))
      ensures now == end.now && shipped == end.shipped && (job.blocked.None? ==> replays == end.replays)
    {
      hide FuzzModel.EmitCrash, Summary, Refused, DriveFrom, RunOnce, AfterCrash, Put, Shows;
      var startedAt := now;
      end := Start(now, shipped);
      if job.blocked.Some? {
        return Refused(job, startedAt, now, job.blocked.value), end;
      }
      replays := [];
      var deadline := startedAt + job.timeBudgetMs as real;
      var findings: seq<Slot<string, Finding>>, seenSignatures: set<string>, notes: seq<string> := [], {}, [];
      var runIndex, runsWithoutNewCrash := 0, 0;
      var halt := Finished;
      ghost var decided := false;
      while now + MIN_RUN_MS < deadline
        invariant end == Progress(now, runIndex, runsWithoutNewCrash, findings, seenSignatures, notes, shipped, replays, end.emitted,
                                    end.launches)
        invariant !decided && halt == Finished && runIndex <= MAX_RUNS
        invariant DriveFrom(t, job, deadline, end) == DriveFrom(t, job, deadline, Start(startedAt, old(shipped)))
        decreases MAX_RUNS + 1 - runIndex
      {
        ghost var before := end;
        DriveStep(t, job, deadline, before);
        if runIndex >= MAX_RUNS {
          notes := notes + ["stopped at the run cap with budget left"];
          end := end.(notes := notes);
          CapStops(t, job, deadline, before);
          decided := true;
          break;
        }
        var i := runIndex;
        var remainingMs := deadline - now;
        var result := RunTool(t, Fuzz(i), remainingMs + KILL_GRACE_MS);
        runIndex := runIndex + 1;
        end := Launched(before, remainingMs + KILL_GRACE_MS, result);
        RunIs(t, job, deadline, before, result);
        if result.spawnError.Some? {
          halt := Broke(result.spawnError.value);
          decided := true;
          break;
        }
        if result.timedOut {
          notes := notes + [t.id + " overran its budget and was killed"];
          end := end.(notes := notes);
          decided := true;
          break;
        }
        if result.exitCode == Some(0) {
          decided := true;
          break;
        }
        var artifact := t.artifact(i);
        if artifact.None? {
          halt := Broke(t.id + " exited without a crash artifact");
          decided := true;
          break;
        }
        if result.report.None? {
          halt := Broke(t.id + " crashed with an unreadable report");
          decided := true;
          break;
        }
        var report := result.report.value;
        CrashIs(t, job, i, artifact.value, report, end);
        if report.signature in seenSignatures {
          runsWithoutNewCrash := runsWithoutNewCrash + 1;
          end := end.(dryRuns := runsWithoutNewCrash);
          if runsWithoutNewCrash >= DRY_RUNS_BEFORE_STOP {
            decided := true;
            break;
          }
          continue;
        }
        seenSignatures := seenSignatures + {report.signature};
        runsWithoutNewCrash := 0;
        end := end.(seen := seenSignatures, dryRuns := 0);
        EmitKeepsCounters(t, job, i, artifact.value, report, end);
        var finding, note := EmitCrash(t, job, i, artifact.value, report, end);
        notes := notes + note;
        if finding.Some? {
          findings := Put(findings, report.signature, finding.value);
        }
        end := FuzzModel.EmitCrash(t, job, i, artifact.value, report, end);
      }
      if !decided {
        OutOfTime(t, job, deadline, end);
      }
      if halt.Broke? {
        return Refused(job, startedAt, now, halt.note), end;
      }
      outcome := Summary(job, startedAt, now, runIndex, notes, findings);
    }

    /** `runFuzzers`, up to the deduplication of what it collected. */
    method RunFuzzers(enabled: bool, harnesses: seq<Harness>, timeBudgetMs: nat, findingId: string -> string)
      returns (runs: seq<DetectorRun>, collected: seq<Finding>)
      modifies this
      ensures FuzzPass(now, runs, collected, shipped) ==
        FuzzModel.RunFuzzers(enabled, harnesses, timeBudgetMs, findingId, old(now), old(shipped))
    {
      hide FuzzModel.Drive, Share;
      runs, collected := [], [];
      if !enabled {
        runs := [DetectorRun("fuzz", None, "skipped", 0, 0, Some("disabled in the run config"))];
        return;
      }
      var share := Share(timeBudgetMs, |harnesses|);
      assert harnesses[0..] == harnesses;
      for i := 0 to |harnesses|
        invariant RunHarnesses(harnesses[i..], share, findingId, FuzzPass(now, runs, collected, shipped)) ==
          RunHarnesses(harnesses, share, findingId, FuzzPass(old(now), [], [], old(shipped)))
      {
        var harness := harnesses[i];
        assert harnesses[i..][0] == harness && harnesses[i..][1..] == harnesses[i + 1..];
        if harness.engine.None? {
          runs := runs + [DetectorRun("fuzz", Some(harness.id), "error", 0, 0, Some("no fuzz engine adapter"))];
          continue;
        }
        var outcome, _ := Drive(harness.engine.value, Job(harness.id, harness.blocked, share, findingId));
        runs := runs + [outcome.run];
        collected := collected + outcome.findings;
      }
    }
  }

  lemma EmitKeepsCounters(t: Target, job: Job, i: nat, raw: Bytes, report: Report, p: Progress)
    ensures var e := FuzzModel.EmitCrash(t, job, i, raw, report, p);
      e.runIndex == p.runIndex && e.seen == p.seen && e.dryRuns == p.dryRuns
  {
  }

  // ---- one turn of the loop, branch by branch -----------------------------------------

  lemma DriveStep(t: Target, job: Job, deadline: real, p: Progress)
    ensures DriveFrom(t, job, deadline, p) ==
      match RunOnce(t, job, deadline, p) case Stop(end, halt) => (end, halt) case Again(next) => DriveFrom(t, job, deadline, next)
  {
  }

  lemma OutOfTime(t: Target, job: Job, deadline: real, p: Progress)
    requires !(p.now + MIN_RUN_MS < deadline)
    ensures DriveFrom(t, job, deadline, p) == (p, Finished)
  {
  }

  lemma CapStops(t: Target, job: Job, deadline: real, p: Progress)
    requires p.now + MIN_RUN_MS < deadline && p.runIndex >= MAX_RUNS
    ensures RunOnce(t, job, deadline, p) ==
      Stop(p.(notes := p.notes + ["stopped at the run cap with budget left"]), Finished)
  {
  }

  lemma RunIs(t: Target, job: Job, deadline: real, p: Progress, run: Process)
    requires p.now + MIN_RUN_MS < deadline && p.runIndex < MAX_RUNS
    requires run == t.tool(Fuzz(p.runIndex), deadline - p.now + KILL_GRACE_MS)
    ensures var p1 := Launched(p, deadline - p.now + KILL_GRACE_MS, run);
      RunOnce(t, job, deadline, p) ==
        if run.spawnError.Some? then Stop(p1, Broke(run.spawnError.value))
        else if run.timedOut then Stop(p1.(notes := p1.notes + [t.id + " overran its budget and was killed"]), Finished)
        else if run.exitCode == Some(0) then Stop(p1, Finished)
        else if t.artifact(p.runIndex).None? then Stop(p1, Broke(t.id + " exited without a crash artifact"))
        else if run.report.None? then Stop(p1, Broke(t.id + " crashed with an unreadable report"))
        else AfterCrash(t, job, p.runIndex, t.artifact(p.runIndex).value, run.report.value, p1)
  {
    hide AfterCrash;
  }

  lemma CrashIs(t: Target, job: Job, i: nat, raw: Bytes, report: Report, p: Progress)
    ensures AfterCrash(t, job, i, raw, report, p) ==
      if report.signature in p.seen then
        if p.dryRuns + 1 >= DRY_RUNS_BEFORE_STOP then Stop(p.(dryRuns := p.dryRuns + 1), Finished)
        else Again(p.(dryRuns := p.dryRuns + 1))
      else Again(FuzzModel.EmitCrash(t, job, i, raw, report, p.(seen := p.seen + {report.signature}, dryRuns := 0)))
  {
  }
}
