/** What the restart loop promises: how often it starts a harness, how long it can take, and that no
    artifact is shipped whose crash was not seen again. */
module FuzzFacts {
  import opened Basics
  import opened Contracts
  import opened FuzzModel

  // ---- how often ----------------------------------------------------------------------

  /** Between two restarts there has been at most one dry run since the last new crash. */
  ghost predicate Counted(p: Progress) {
    p.runIndex <= MAX_RUNS &&
    if |p.seen| == 0 then p.runIndex == 0
    else p.dryRuns <= 1 && p.runIndex + 1 <= 2 * |p.seen| + p.dryRuns
  }

  ghost predicate FewStarts(p: Progress) {
    p.runIndex <= 32 && p.runIndex <= 2 * |p.seen| + 1
  }

  lemma EmitCounts(t: Target, job: Job, i: nat, raw: Bytes, report: Report, p: Progress)
    ensures var e := EmitCrash(t, job, i, raw, report, p);
      e.runIndex == p.runIndex && e.seen == p.seen && e.dryRuns == p.dryRuns && e.emitted == p.emitted + [report.signature]
  {
  }

  lemma AfterCrashCounts(t: Target, job: Job, i: nat, raw: Bytes, report: Report, p: Progress)
    requires i < MAX_RUNS && p.runIndex == i + 1 && Counted(p.(runIndex := i))
    ensures match AfterCrash(t, job, i, raw, report, p)
      case Again(next) => Counted(next)
      case Stop(end, _) => FewStarts(end)
  {
    hide EmitCrash;
    var seen := p.seen + {report.signature};
    EmitCounts(t, job, i, raw, report, p.(seen := seen, dryRuns := 0));
    assert report.signature !in p.seen ==> |seen| == |p.seen| + 1;
    assert report.signature in p.seen ==> |p.seen| > 0;
  }

  lemma RunOnceCounts(t: Target, job: Job, deadline: real, p: Progress)
    requires Counted(p)
    ensures match RunOnce(t, job, deadline, p)
      case Again(next) => Counted(next)
      case Stop(end, _) => FewStarts(end)
  {
    hide AfterCrash;
    var i := p.runIndex;
    var run := t.tool(Fuzz(i), deadline - p.now + KILL_GRACE_MS);
    if i < MAX_RUNS && t.artifact(i).Some? && run.report.Some? {
      AfterCrashCounts(t, job, i, t.artifact(i).value, run.report.value, Launched(p, deadline - p.now + KILL_GRACE_MS, run));
    }
  }

  /** The harness is started at most 32 times, and at most twice for each crash signature seen and
      once more. */
  lemma {:induction false} StartsAreBounded(t: Target, job: Job, deadline: real, p: Progress)
    requires Counted(p)
    ensures FewStarts(DriveFrom(t, job, deadline, p).0)
    decreases MAX_RUNS - p.runIndex
  {
    RunOnceCounts(t, job, deadline, p);
    hide RunOnce, Counted, FewStarts;
    match RunOnce(t, job, deadline, p)
    case Stop(_, _) =>
    case Again(next) => StartsAreBounded(t, job, deadline, next);
  }

  // ---- each signature once ------------------------------------------------------------

  ghost predicate Distinct(names: seq<string>) {
    forall i, j :: 0 <= i < j < |names| ==> names[i] != names[j]
  }

  /** Every signature seen has been worked on exactly once, and findings are among them. */
  ghost predicate OnceEach(p: Progress) {
    Distinct(p.emitted) && (forall s :: s in p.emitted <==> s in p.seen) &&
    DistinctKeys(p.findings) && (forall i :: 0 <= i < |p.findings| ==> p.findings[i].key in p.seen)
  }

  lemma ShipKeepsOnce(t: Target, job: Job, content: Bytes, raw: Bytes, report: Report, minimized: bool, p: Progress)
    requires OnceEach(p) && report.signature in p.seen
    ensures OnceEach(Ship(t, job, content, raw, report, minimized, p))
  {
    PutKeeps(p.findings, report.signature, CrashFinding(t, job, report));
    PutKeys(p.findings, report.signature, CrashFinding(t, job, report));
    hide Put, CrashFinding;
  }

  lemma EmitKeepsOnce(t: Target, job: Job, i: nat, raw: Bytes, report: Report, p: Progress)
    requires Distinct(p.emitted) && report.signature !in p.emitted
    requires forall s :: s in p.emitted + [report.signature] <==> s in p.seen
    requires DistinctKeys(p.findings) && (forall k :: 0 <= k < |p.findings| ==> p.findings[k].key in p.seen)
    ensures OnceEach(EmitCrash(t, job, i, raw, report, p))
  {
    hide Ship, OnceEach;
    var p1 := Replayed(t, ReplayRaw(i), raw, p.(emitted := p.emitted + [report.signature]));
    assert OnceEach(p1) by { EmittedKeepsOnce(p, p1, report.signature); }
    var p2 := p1.(now := p1.now + t.tool(Minimize(i), MINIMIZE_TIMEOUT_MS).took);
    SameOnce(p1, p2);
    assert report.signature in p2.seen by {
      assert report.signature in p.emitted + [report.signature];
    }
    ShipKeepsOnce(t, job, raw, raw, report, false, p2);
    if t.minimized(i).Some? {
      var p3 := Replayed(t, ReplayMinimized(i), t.minimized(i).value, p2);
      SameOnce(p2, p3);
      ShipKeepsOnce(t, job, t.minimized(i).value, raw, report, true, p3);
      ShipKeepsOnce(t, job, raw, raw, report, false, p3);
    }
    SameOnce(p1, p1.(notes := p1.notes + ["dropped a " + report.kind + " that would not replay from its own artifact"]));
  }

  lemma EmittedKeepsOnce(p: Progress, q: Progress, signature: string)
    requires Distinct(p.emitted) && signature !in p.emitted
    requires forall s :: s in p.emitted + [signature] <==> s in p.seen
    requires DistinctKeys(p.findings) && (forall k :: 0 <= k < |p.findings| ==> p.findings[k].key in p.seen)
    requires q.emitted == p.emitted + [signature] && q.seen == p.seen && q.findings == p.findings
    ensures OnceEach(q)
  {
  }

  lemma SameOnce(p: Progress, q: Progress)
    requires q.emitted == p.emitted && q.seen == p.seen && q.findings == p.findings
    ensures OnceEach(p) <==> OnceEach(q)
  {
  }

  lemma RunOnceKeepsOnce(t: Target, job: Job, deadline: real, p: Progress)
    requires OnceEach(p)
    ensures OnceEach(RunOnce(t, job, deadline, p).p)
  {
    hide EmitCrash;
    var i := p.runIndex;
    var run := t.tool(Fuzz(i), deadline - p.now + KILL_GRACE_MS);
    if t.artifact(i).Some? && run.report.Some? && run.report.value.signature !in p.seen {
      var report := run.report.value;
      var p1 := Launched(p, deadline - p.now + KILL_GRACE_MS, run).(seen := p.seen + {report.signature}, dryRuns := 0);
      EmitKeepsOnce(t, job, i, t.artifact(i).value, report, p1);
    }
  }

  /** Each signature is emitted at most once, and each finding has its own. */
  lemma {:induction false} EachSignatureOnce(t: Target, job: Job, deadline: real, p: Progress)
    requires OnceEach(p)
    ensures OnceEach(DriveFrom(t, job, deadline, p).0)
    decreases MAX_RUNS - p.runIndex
  {
    RunOnceKeepsOnce(t, job, deadline, p);
    hide RunOnce, OnceEach;
    match RunOnce(t, job, deadline, p)
    case Stop(_, _) =>
    case Again(next) => EachSignatureOnce(t, job, deadline, next);
  }

  // ---- how long -----------------------------------------------------------------------

  /** Every process is back by its timeout. */
  ghost predicate Punctual(t: Target) {
    forall call, timeout :: 0.0 <= timeout ==> t.tool(call, timeout).took <= timeout
  }

  const EMIT_MS := REPLAY_TIMEOUT_MS + MINIMIZE_TIMEOUT_MS + REPLAY_TIMEOUT_MS

  lemma EmitTakes(t: Target, job: Job, i: nat, raw: Bytes, report: Report, p: Progress)
    requires Punctual(t)
    ensures p.now <= EmitCrash(t, job, i, raw, report, p).now <= p.now + EMIT_MS
  {
  }

  lemma RunOnceTakes(t: Target, job: Job, deadline: real, p: Progress)
    requires Punctual(t)
    ensures var end := RunOnce(t, job, deadline, p).p;
      p.now <= end.now && (end.now <= p.now || end.now <= deadline + KILL_GRACE_MS + EMIT_MS)
  {
    hide EmitCrash;
    var i := p.runIndex;
    if p.now + MIN_RUN_MS < deadline {
      var timeout := deadline - p.now + KILL_GRACE_MS;
      var run := t.tool(Fuzz(i), timeout);
      assert run.took <= timeout;
      if t.artifact(i).Some? && run.report.Some? {
        var report := run.report.value;
        EmitTakes(t, job, i, t.artifact(i).value, report,
                  Launched(p, timeout, run).(seen := p.seen + {report.signature}, dryRuns := 0));
      }
    }
  }

  /** If every process is back by its timeout, the loop is over 15 + 180 seconds after its deadline,
      or it never started. */
  lemma {:induction false} DriveIsTimely(t: Target, job: Job, deadline: real, p: Progress)
    requires Punctual(t)
    ensures var end := DriveFrom(t, job, deadline, p).0;
      p.now <= end.now && (end.now <= p.now || end.now <= deadline + 15000.0 + 180000.0)
    decreases MAX_RUNS - p.runIndex
  {
    RunOnceTakes(t, job, deadline, p);
    hide RunOnce, Punctual;
    match RunOnce(t, job, deadline, p)
    case Stop(_, _) =>
    case Again(next) => DriveIsTimely(t, job, deadline, next);
  }

  lemma HarnessIsTimely(h: Harness, share: nat, findingId: string -> string, pass: FuzzPass)
    requires h.engine.Some? ==> Punctual(h.engine.value)
    ensures pass.now <= RunHarness(h, share, findingId, pass).now <= pass.now + share as real + KILL_GRACE_MS + EMIT_MS
  {
    hide DriveFrom, Punctual, Summary, Refused;
    if h.engine.Some? {
      var job := Job(h.id, h.blocked, share, findingId);
      DriveIsTimely(h.engine.value, job, pass.now + share as real, Start(pass.now, pass.shipped));
    }
  }

  lemma {:induction false} HarnessesAreTimely(hs: seq<Harness>, share: nat, findingId: string -> string, pass: FuzzPass)
    requires forall h :: h in hs && h.engine.Some? ==> Punctual(h.engine.value)
    ensures RunHarnesses(hs, share, findingId, pass).now <=
      pass.now + (|hs| * share) as real + |hs| as real * (KILL_GRACE_MS + EMIT_MS)
    decreases |hs|
  {
    hide RunHarness, Punctual;
    if |hs| > 0 {
      HarnessIsTimely(hs[0], share, findingId, pass);
      HarnessesAreTimely(hs[1..], share, findingId, RunHarness(hs[0], share, findingId, pass));
      assert |hs| * share == |hs[1..]| * share + share;
    }
  }

  /** The shares never add up to more than the whole. */
  lemma SharesFit(total: nat, n: nat)
    ensures n * Share(total, n) <= total
  {
  }

  /** A pass over `n` harnesses is over within its budget and 195 seconds for each of them. */
  lemma PassIsTimely(enabled: bool, hs: seq<Harness>, total: nat, findingId: string -> string, now: real,
                     shipped: map<string, Bytes>)
    requires forall h :: h in hs && h.engine.Some? ==> Punctual(h.engine.value)
    ensures RunFuzzers(enabled, hs, total, findingId, now, shipped).now <= now + total as real + |hs| as real * 195000.0
  {
    hide RunHarnesses, Punctual, Share;
    var share := Share(total, |hs|);
    HarnessesAreTimely(hs, share, findingId, FuzzPass(now, [], [], shipped));
    SharesFit(total, |hs|);
    assert KILL_GRACE_MS + EMIT_MS == 195000.0;
  }

  // ---- what is shipped ----------------------------------------------------------------

  /** This content was run again in this pass, and showed this crash. */
  ghost predicate Witnessed(replays: seq<Replay>, content: Bytes, signature: string) {
    exists k :: 0 <= k < |replays| && replays[k].content == content && Shows(replays[k].process, signature)
  }

  /** The file at `path` was seen to show the crash of a finding with this id. */
  ghost predicate ShowsId(job: Job, p: Progress, path: string, id: string) {
    path in p.shipped &&
    exists s :: HasKey(p.findings, s) && job.findingId(s) == id && Witnessed(p.replays, p.shipped[path], s)
  }

  ghost predicate HasKey(findings: seq<Slot<string, Finding>>, key: string) {
    exists i :: 0 <= i < |findings| && findings[i].key == key
  }

  /** The finding points at a file that was seen to show a crash with its id, and so was the raw input. */
  ghost predicate Backed(job: Job, p: Progress, slot: Slot<string, Finding>) {
    var id := job.findingId(slot.key);
    slot.value.id == id && slot.value.artifact == Some(ArtifactPath(job, id)) &&
    ShowsId(job, p, ArtifactPath(job, id), id) && ShowsId(job, p, RawPath(job, id), id)
  }

  ghost predicate AllBacked(job: Job, p: Progress) {
    forall i :: 0 <= i < |p.findings| ==> Backed(job, p, p.findings[i])
  }

  lemma PathsDiffer(job: Job, a: string, b: string)
    ensures ArtifactPath(job, a) == ArtifactPath(job, b) ==> a == b
    ensures RawPath(job, a) == RawPath(job, b) ==> a == b
    ensures ArtifactPath(job, a) != RawPath(job, b)
  {
    var dir := ".crossfire/crashes/" + job.harnessId + "/";
    Nest(dir, a, ".min");
    Nest(dir, b, ".min");
    Nest(dir, a, ".raw");
    Nest(dir, b, ".raw");
    CancelPrefix(dir, a + ".min", b + ".min");
    CancelPrefix(dir, a + ".raw", b + ".raw");
    assert (a + ".min")[..|a + ".min"| - 4] == a && (b + ".min")[..|b + ".min"| - 4] == b;
    assert (a + ".raw")[..|a + ".raw"| - 4] == a && (b + ".raw")[..|b + ".raw"| - 4] == b;
    assert ArtifactPath(job, a)[|ArtifactPath(job, a)| - 1] == 'n';
    assert RawPath(job, b)[|RawPath(job, b)| - 1] == 'w';
  }

  lemma WitnessLasts(a: seq<Replay>, b: seq<Replay>, content: Bytes, signature: string)
    requires a <= b && Witnessed(a, content, signature)
    ensures Witnessed(b, content, signature)
  {
  }

  ghost predicate KeysKept(a: seq<Slot<string, Finding>>, b: seq<Slot<string, Finding>>) {
    forall s :: HasKey(a, s) ==> HasKey(b, s)
  }

  /** Seeing more takes nothing back. */
  lemma MoreSeen(job: Job, p: Progress, q: Progress)
    requires AllBacked(job, p) && p.replays <= q.replays
    requires q.findings == p.findings && q.shipped == p.shipped
    ensures AllBacked(job, q)
  {
  }

  lemma StillShows(job: Job, p: Progress, q: Progress, path: string, id: string)
    requires ShowsId(job, p, path, id) && p.replays <= q.replays && KeysKept(p.findings, q.findings)
    requires path in q.shipped && q.shipped[path] == p.shipped[path]
    ensures ShowsId(job, q, path, id)
  {
  }

  /** Another finding's files are not touched by shipping this one's. */
  lemma OthersStay(job: Job, p: Progress, q: Progress, id: string, content: Bytes, raw: Bytes, slot: Slot<string, Finding>)
    requires Backed(job, p, slot) && job.findingId(slot.key) != id
    requires q.replays == p.replays && KeysKept(p.findings, q.findings)
    requires q.shipped == p.shipped[ArtifactPath(job, id) := content][RawPath(job, id) := raw]
    ensures Backed(job, q, slot)
  {
    var other := job.findingId(slot.key);
    PathsDiffer(job, id, other);
    PathsDiffer(job, other, id);
    hide Witnessed, ArtifactPath, RawPath, HasKey, KeysKept;
    StillShows(job, p, q, ArtifactPath(job, other), other);
    StillShows(job, p, q, RawPath(job, other), other);
  }

  /** The files just shipped, for every finding with this id. */
  lemma ShippedNow(job: Job, p: Progress, q: Progress, sig: string, content: Bytes, raw: Bytes)
    requires Witnessed(p.replays, content, sig) && Witnessed(p.replays, raw, sig)
    requires q.replays == p.replays && HasKey(q.findings, sig)
    requires var id := job.findingId(sig);
      q.shipped == p.shipped[ArtifactPath(job, id) := content][RawPath(job, id) := raw]
    ensures var id := job.findingId(sig);
      ShowsId(job, q, ArtifactPath(job, id), id) && ShowsId(job, q, RawPath(job, id), id)
  {
  }

  lemma PutHasKey(findings: seq<Slot<string, Finding>>, key: string, f: Finding)
    ensures HasKey(Put(findings, key, f), key) && KeysKept(findings, Put(findings, key, f))
  {
    PutKeys(findings, key, f);
    LookupPut(findings, key, f, key);
    LookupFinds(Put(findings, key, f), key);
    hide Put, Lookup;
  }

  lemma ShipBacks(t: Target, job: Job, content: Bytes, raw: Bytes, report: Report, minimized: bool, p: Progress)
    requires AllBacked(job, p) && DistinctKeys(p.findings)
    requires Witnessed(p.replays, content, report.signature) && Witnessed(p.replays, raw, report.signature)
    ensures AllBacked(job, Ship(t, job, content, raw, report, minimized, p))
  {
    hide Put, Witnessed, ArtifactPath, RawPath, ShowsId, HasKey, KeysKept;
    var q := Ship(t, job, content, raw, report, minimized, p);
    var sig := report.signature;
    var id := job.findingId(sig);
    PutSlots(p.findings, sig, CrashFinding(t, job, report));
    PutHasKey(p.findings, sig, CrashFinding(t, job, report));
    ShippedNow(job, p, q, sig, content, raw);
    forall i | 0 <= i < |q.findings| ensures Backed(job, q, q.findings[i]) {
      if i < |p.findings| && job.findingId(p.findings[i].key) != id {
        OthersStay(job, p, q, id, content, raw, p.findings[i]);
      }
    }
  }

  lemma ReplayWitnesses(t: Target, call: Call, content: Bytes, p: Progress, signature: string)
    ensures var q := Replayed(t, call, content, p);
      p.replays <= q.replays && (Shows(t.tool(call, REPLAY_TIMEOUT_MS), signature) ==> Witnessed(q.replays, content, signature))
  {
    var q := Replayed(t, call, content, p);
    assert q.replays[|p.replays|] == Replay(content, t.tool(call, REPLAY_TIMEOUT_MS));
  }

  lemma EmitBacks(t: Target, job: Job, i: nat, raw: Bytes, report: Report, p: Progress)
    requires AllBacked(job, p) && DistinctKeys(p.findings)
    ensures AllBacked(job, EmitCrash(t, job, i, raw, report, p))
  {
    hide Ship, AllBacked, Witnessed, Shows;
    var p0 := p.(emitted := p.emitted + [report.signature]);
    var p1 := Replayed(t, ReplayRaw(i), raw, p0);
    ReplayWitnesses(t, ReplayRaw(i), raw, p0, report.signature);
    MoreSeen(job, p, p1);
    if !Shows(t.tool(ReplayRaw(i), REPLAY_TIMEOUT_MS), report.signature) {
      MoreSeen(job, p1, EmitCrash(t, job, i, raw, report, p));
    } else {
      var p2 := p1.(now := p1.now + t.tool(Minimize(i), MINIMIZE_TIMEOUT_MS).took);
      MoreSeen(job, p1, p2);
      ShipBacks(t, job, raw, raw, report, false, p2);
      if t.minimized(i).Some? {
        var p3 := Replayed(t, ReplayMinimized(i), t.minimized(i).value, p2);
        ReplayWitnesses(t, ReplayMinimized(i), t.minimized(i).value, p2, report.signature);
        MoreSeen(job, p2, p3);
        WitnessLasts(p2.replays, p3.replays, raw, report.signature);
        ShipBacks(t, job, raw, raw, report, false, p3);
        if Shows(t.tool(ReplayMinimized(i), REPLAY_TIMEOUT_MS), report.signature) {
          ShipBacks(t, job, t.minimized(i).value, raw, report, true, p3);
        }
      }
    }
  }

  lemma RunOnceBacks(t: Target, job: Job, deadline: real, p: Progress)
    requires AllBacked(job, p) && OnceEach(p)
    ensures AllBacked(job, RunOnce(t, job, deadline, p).p)
  {
    hide EmitCrash, AllBacked;
    var q := RunOnce(t, job, deadline, p).p;
    var i := p.runIndex;
    var run := t.tool(Fuzz(i), deadline - p.now + KILL_GRACE_MS);
    if t.artifact(i).Some? && run.report.Some? && run.report.value.signature !in p.seen {
      var report := run.report.value;
      var p1 := Launched(p, deadline - p.now + KILL_GRACE_MS, run).(seen := p.seen + {report.signature}, dryRuns := 0);
      MoreSeen(job, p, p1);
      EmitBacks(t, job, i, t.artifact(i).value, report, p1);
    }
    if q.shipped == p.shipped && q.findings == p.findings && q.replays == p.replays {
      MoreSeen(job, p, q);
    }
  }

  lemma {:induction false} DriveBacks(t: Target, job: Job, deadline: real, p: Progress)
    requires AllBacked(job, p) && OnceEach(p)
    ensures AllBacked(job, DriveFrom(t, job, deadline, p).0)
    decreases MAX_RUNS - p.runIndex
  {
    RunOnceBacks(t, job, deadline, p);
    RunOnceKeepsOnce(t, job, deadline, p);
    hide RunOnce, OnceEach, AllBacked;
    match RunOnce(t, job, deadline, p)
    case Stop(_, _) =>
    case Again(next) => DriveBacks(t, job, deadline, next);
  }

  /** Every artifact a pass ships, and the raw input beside it, was itself run again in that pass and
      seen to crash with a signature that has the finding's id. */
  lemma ShippedIsReplayed(t: Target, job: Job, now: real, shipped: map<string, Bytes>)
    ensures AllBacked(job, Drive(t, job, now, shipped).1)
  {
    hide RunOnce, Summary, Refused;
    DriveBacks(t, job, now + job.timeBudgetMs as real, Start(now, shipped));
  }

  /** The finding's artifact was seen to show the finding's own crash. */
  ghost predicate Owns(job: Job, p: Progress, slot: Slot<string, Finding>) {
    var path := ArtifactPath(job, slot.value.id);
    slot.value.artifact == Some(path) && path in p.shipped && Witnessed(p.replays, p.shipped[path], slot.key)
  }

  ghost predicate AllOwn(job: Job, p: Progress) {
    forall i :: 0 <= i < |p.findings| ==> Owns(job, p, p.findings[i])
  }

  ghost predicate DistinctIds(findings: seq<Slot<string, Finding>>) {
    forall i, j :: 0 <= i < j < |findings| ==> findings[i].value.id != findings[j].value.id
  }

  /** No content was seen to show two different crashes. */
  ghost predicate OneCrashEach(replays: seq<Replay>) {
    forall content, s, u :: Witnessed(replays, content, s) && Witnessed(replays, content, u) ==> s == u
  }

  lemma BackedOwns(job: Job, p: Progress, i: nat)
    requires AllBacked(job, p) && DistinctIds(p.findings) && i < |p.findings|
    ensures Owns(job, p, p.findings[i])
  {
    assert Backed(job, p, p.findings[i]);
    hide Witnessed, ArtifactPath, RawPath;
    var path := ArtifactPath(job, p.findings[i].value.id);
    var s :| HasKey(p.findings, s) && job.findingId(s) == p.findings[i].value.id && Witnessed(p.replays, p.shipped[path], s);
    var j :| 0 <= j < |p.findings| && p.findings[j].key == s;
    assert Backed(job, p, p.findings[j]);
  }

  lemma OwningIsDistinct(job: Job, p: Progress)
    requires OnceEach(p) && AllOwn(job, p) && OneCrashEach(p.replays)
    ensures DistinctIds(p.findings)
  {
    hide Witnessed, ArtifactPath;
    forall i, j | 0 <= i < j < |p.findings| ensures p.findings[i].value.id != p.findings[j].value.id {
      assert Owns(job, p, p.findings[i]) && Owns(job, p, p.findings[j]);
    }
  }

  /** One pass: findings whose ids differ all ship the very input that was seen to show them; and where
      no input shows two crashes, only then do they. */
  lemma ShippedIsItsOwn(t: Target, job: Job, now: real, shipped: map<string, Bytes>)
    ensures var end := Drive(t, job, now, shipped).1;
      (DistinctIds(end.findings) ==> AllOwn(job, end)) &&
      (OneCrashEach(end.replays) ==> (AllOwn(job, end) <==> DistinctIds(end.findings)))
  {
    hide Drive, OnceEach, AllBacked, OneCrashEach, DistinctIds, Owns;
    var end := Drive(t, job, now, shipped).1;
    HarnessStaysInBounds(t, job, now, shipped);
    ShippedIsReplayed(t, job, now, shipped);
    if DistinctIds(end.findings) {
      forall i | 0 <= i < |end.findings| ensures Owns(job, end, end.findings[i]) {
        BackedOwns(job, end, i);
      }
    }
    if AllOwn(job, end) && OneCrashEach(end.replays) {
      OwningIsDistinct(job, end);
    }
  }

  /** A crash becomes a finding exactly when its own artifact shows it again, and what is shipped is
      the minimized input exactly when that one was made in time and shows it too. */
  lemma EmitReportsIff(t: Target, job: Job, i: nat, raw: Bytes, report: Report, p: Progress)
    requires Lookup(p.findings, report.signature).None?
    ensures var e := EmitCrash(t, job, i, raw, report, p);
      var path := ArtifactPath(job, job.findingId(report.signature));
      var small := !t.tool(Minimize(i), 60000.0).timedOut && t.minimized(i).Some? &&
        Shows(t.tool(ReplayMinimized(i), 60000.0), report.signature);
      if Shows(t.tool(ReplayRaw(i), 60000.0), report.signature)
      then Lookup(e.findings, report.signature) == Some(CrashFinding(t, job, report)) && path in e.shipped &&
           e.shipped[path] == if small then t.minimized(i).value else raw
      else e.findings == p.findings && e.shipped == p.shipped
  {
    LookupPut(p.findings, report.signature, CrashFinding(t, job, report), report.signature);
    PathsDiffer(job, job.findingId(report.signature), job.findingId(report.signature));
    hide ArtifactPath, RawPath, CrashFinding, Shows, Lookup, Put;
  }

  /** A pass reports once for each harness, in the order they are configured. */
  lemma {:induction false} OneRunPerHarness(hs: seq<Harness>, share: nat, findingId: string -> string, pass: FuzzPass)
    ensures var runs := RunHarnesses(hs, share, findingId, pass).runs;
      |runs| == |pass.runs| + |hs| && pass.runs <= runs &&
      forall i :: 0 <= i < |hs| ==> runs[|pass.runs| + i].harnessId == Some(hs[i].id)
    decreases |hs|
  {
    if |hs| > 0 {
      var next := RunHarness(hs[0], share, findingId, pass);
      OneRunPerHarness(hs[1..], share, findingId, next);
      var runs := RunHarnesses(hs[1..], share, findingId, next).runs;
      forall i | 0 <= i < |hs| ensures runs[|pass.runs| + i].harnessId == Some(hs[i].id) {
        if i > 0 {
          assert runs[|next.runs| + (i - 1)].harnessId == Some(hs[1..][i - 1].id);
        } else {
          assert runs[|pass.runs|] == next.runs[|pass.runs|];
        }
      }
    }
  }

  /** The whole of one harness: started at most 32 times and at most twice per signature and once
      more; each signature worked on once, and every finding under its own. */
  lemma HarnessStaysInBounds(t: Target, job: Job, now: real, shipped: map<string, Bytes>)
    ensures var end := Drive(t, job, now, shipped).1; FewStarts(end) && OnceEach(end) && |end.findings| <= |end.emitted|
  {
    hide RunOnce, Summary, Refused;
    StartsAreBounded(t, job, now + job.timeBudgetMs as real, Start(now, shipped));
    EachSignatureOnce(t, job, now + job.timeBudgetMs as real, Start(now, shipped));
    NoMoreThanEmitted(Drive(t, job, now, shipped).1);
  }

  lemma NoMoreThanEmitted(p: Progress)
    requires OnceEach(p)
    ensures |p.findings| <= |p.emitted|
  {
    var keys := set i | 0 <= i < |p.findings| :: p.findings[i].key;
    KeysCount(p.findings);
    NamesCount(p.emitted);
    var names := set s | s in p.emitted;
    assert keys <= names;
    SubsetCount(keys, names);
  }

  lemma {:induction false} KeysCount<V>(m: seq<Slot<string, V>>)
    requires DistinctKeys(m)
    ensures |set i | 0 <= i < |m| :: m[i].key| == |m|
  {
    if |m| > 0 {
      var n := |m| - 1;
      KeysCount(m[..n]);
      var rest := set i | 0 <= i < |m[..n]| :: m[..n][i].key;
      assert (set i | 0 <= i < |m| :: m[i].key) == rest + {m[n].key};
    }
  }

  lemma {:induction false} NamesCount(names: seq<string>)
    requires Distinct(names)
    ensures |set s | s in names| == |names|
  {
    if |names| > 0 {
      var n := |names| - 1;
      NamesCount(names[..n]);
      assert names == names[..n] + [names[n]];
      assert (set s | s in names) == (set s | s in names[..n]) + {names[n]};
    }
  }

  lemma {:induction false} SubsetCount(a: set<string>, b: set<string>)
    requires a <= b
    ensures |a| <= |b|
  {
    if a != {} {
      var x :| x in a;
      SubsetCount(a - {x}, b - {x});
    }
  }

  // ---- two signatures, one id ---------------------------------------------------------

  /** A target whose harness crashes twice, first as `s` and then as `u`, on two different inputs. */
  function ClashTarget(s: string, u: string): Target {
    Target("libfuzzer",
           (call: Call, timeout: real) => match call
             case Fuzz(n) => Process(0.0, false, None, if n < 2 then Some(77) else Some(0), Some(ClashReport(s, u, n)))
             case ReplayRaw(n) => Process(0.0, false, None, Some(77), Some(ClashReport(s, u, n)))
             case Minimize(_) => Process(0.0, true, None, None, None)
             case ReplayMinimized(_) => Process(0.0, true, None, None, None),
           (n: nat) => Some(ClashInput(n)), (n: nat) => None, kind => None, report => ("f", None),
           report => "", report => "", path => path)
  }

  function ClashInput(n: nat): Bytes {
    if n == 0 then [0] else [1]
  }

  function ClashReport(s: string, u: string, n: nat): Report {
    Report("segv", if n == 0 then s else u)
  }

  function ClashReplay(s: string, u: string, n: nat): Replay {
    Replay(ClashInput(n), Process(0.0, false, None, Some(77), Some(ClashReport(s, u, n))))
  }

  function ClashJob(findingId: string -> string): Job {
    Job("h", None, 5000, findingId)
  }

  /** One crash of this pass: replayed, not minimized, shipped raw. */
  lemma ClashEmits(s: string, u: string, findingId: string -> string, n: nat, p: Progress)
    ensures var t, job, report := ClashTarget(s, u), ClashJob(findingId), ClashReport(s, u, n);
      var id := findingId(report.signature);
      var e := EmitCrash(t, job, n, ClashInput(n), report, p);
      e.now == p.now && e.replays == p.replays + [ClashReplay(s, u, n)] &&
      e.findings == Put(p.findings, report.signature, CrashFinding(t, job, report)) &&
      e.shipped == p.shipped[ArtifactPath(job, id) := ClashInput(n)][RawPath(job, id) := ClashInput(n)]
  {
    hide Put, CrashFinding, ArtifactPath, RawPath;
  }

  function ClashLaunched(s: string, u: string, n: nat, p: Progress): Progress {
    Launched(p, 20000.0, ClashTarget(s, u).tool(Fuzz(n), 20000.0))
  }

  lemma ClashRuns(s: string, u: string, findingId: string -> string, n: nat, p: Progress)
    requires p.runIndex == n && n < 2 && p.now == 0.0 && ClashReport(s, u, n).signature !in p.seen
    ensures var t, job, report := ClashTarget(s, u), ClashJob(findingId), ClashReport(s, u, n);
      RunOnce(t, job, 5000.0, p) ==
        Again(EmitCrash(t, job, n, ClashInput(n), report,
                        ClashLaunched(s, u, n, p).(seen := p.seen + {report.signature}, dryRuns := 0)))
  {
    hide EmitCrash;
  }

  lemma ClashedFinding(s: string, u: string, job: Job, p: Progress, f: Finding)
    requires s != u && p.replays == [ClashReplay(s, u, 0), ClashReplay(s, u, 1)]
    requires var path := ArtifactPath(job, f.id); path in p.shipped && p.shipped[path] == ClashInput(1)
    ensures !Owns(job, p, Slot(s, f))
  {
    hide ArtifactPath;
  }

  /** Ids are cut to twelve hexadecimal digits. Whichever two signatures share one, there is a target on
      which the second crash takes the first one's file, and the first finding points at an input that
      was never seen to show it. */
  lemma ClashingIdsSwapArtifacts(findingId: string -> string, s: string, u: string)
    requires s != u && findingId(s) == findingId(u)
    ensures !AllOwn(ClashJob(findingId), Drive(ClashTarget(s, u), ClashJob(findingId), 0.0, map[]).1)
  {
    hide EmitCrash, Summary, Refused, Owns, ArtifactPath, RawPath;
    var t, job := ClashTarget(s, u), ClashJob(findingId);
    var id := findingId(s);
    var p0 := Start(0.0, map[]);
    var q0 := ClashLaunched(s, u, 0, p0).(seen := {s}, dryRuns := 0);
    assert p0.seen + {s} == {s};
    ClashRuns(s, u, findingId, 0, p0);
    ClashEmits(s, u, findingId, 0, q0);
    EmitCounts(t, job, 0, ClashInput(0), ClashReport(s, u, 0), q0);
    var p1 := EmitCrash(t, job, 0, ClashInput(0), ClashReport(s, u, 0), q0);
    var q1 := ClashLaunched(s, u, 1, p1).(seen := p1.seen + {u}, dryRuns := 0);
    ClashRuns(s, u, findingId, 1, p1);
    ClashEmits(s, u, findingId, 1, q1);
    EmitCounts(t, job, 1, ClashInput(1), ClashReport(s, u, 1), q1);
    var p2 := EmitCrash(t, job, 1, ClashInput(1), ClashReport(s, u, 1), q1);
    var first := CrashFinding(t, job, ClashReport(s, u, 0));
    PathsDiffer(job, id, id);
    assert p2.findings[0] == Slot(s, first);
    var end := ClashLaunched(s, u, 2, p2);
    ClashedFinding(s, u, job, end, first);
    assert RunOnce(t, job, 5000.0, p2) == Stop(end, Finished);
    hide RunOnce;
    assert DriveFrom(t, job, 5000.0, p1) == (end, Finished);
  }

  ghost predicate PassOwns(t: Target, job: Job, now: real, shipped: map<string, Bytes>) {
    AllOwn(job, Drive(t, job, now, shipped).1)
  }

  ghost predicate Injective(findingId: string -> string) {
    forall s, u :: findingId(s) == findingId(u) ==> s == u
  }

  ghost predicate EveryPassOwns(findingId: string -> string) {
    forall t: Target, job: Job, now: real, shipped: map<string, Bytes> ::
      job.findingId == findingId ==> PassOwns(t, job, now, shipped)
  }

  /** Every pass over every target ships each finding its own crash exactly when no two signatures
      share an id. */
  lemma OwnArtifactsIffInjective(findingId: string -> string)
    ensures EveryPassOwns(findingId) <==> Injective(findingId)
  {
    hide Drive, AllOwn;
    if Injective(findingId) {
      forall t: Target, job: Job, now: real, shipped: map<string, Bytes> | job.findingId == findingId
        ensures PassOwns(t, job, now, shipped)
      {
        InjectiveOwns(t, job, now, shipped);
      }
    }
    forall s, u | findingId(s) == findingId(u) && s != u ensures !EveryPassOwns(findingId) {
      ClashingIdsSwapArtifacts(findingId, s, u);
      assert !PassOwns(ClashTarget(s, u), ClashJob(findingId), 0.0, map[]);
    }
  }

  lemma InjectiveOwns(t: Target, job: Job, now: real, shipped: map<string, Bytes>)
    requires Injective(job.findingId)
    ensures AllOwn(job, Drive(t, job, now, shipped).1)
  {
    hide Drive, AllOwn;
    var end := Drive(t, job, now, shipped).1;
    HarnessStaysInBounds(t, job, now, shipped);
    ShippedIsReplayed(t, job, now, shipped);
    ShippedIsItsOwn(t, job, now, shipped);
    hide ShowsId, FewStarts, OneCrashEach, Distinct;
    assert forall i :: 0 <= i < |end.findings| ==> Backed(job, end, end.findings[i]);
  }

  // ---- ids are cut short --------------------------------------------------------------

  predicate IsHexDigit(c: char) {
    '0' <= c <= '9' || 'a' <= c <= 'f'
  }

  function HexRank(c: char): (n: nat)
    requires IsHexDigit(c)
    ensures n < 16
  {
    if c <= '9' then c as int - '0' as int else c as int - 'a' as int + 10
  }

  ghost predicate IsHex(s: string) {
    forall i :: 0 <= i < |s| ==> IsHexDigit(s[i])
  }

  function Pow16(n: nat): (r: nat)
    ensures r > 0
  {
    if n == 0 then 1 else 16 * Pow16(n - 1)
  }

  function Rank(s: string): (n: nat)
    requires IsHex(s)
    ensures n < Pow16(|s|)
    decreases |s|
  {
    if s == "" then 0 else 16 * Rank(s[..|s| - 1]) + HexRank(s[|s| - 1])
  }

  lemma {:induction false} RankIsInjective(a: string, b: string)
    requires IsHex(a) && IsHex(b) && |a| == |b| && Rank(a) == Rank(b)
    ensures a == b
    decreases |a|
  {
    if a != "" {
      var n := |a| - 1;
      RankIsInjective(a[..n], b[..n]);
      assert a == a[..n] + [a[n]] && b == b[..n] + [b[n]];
    }
  }

  /** More arguments than values: two arguments share one. */
  lemma {:induction false} Pigeonhole(f: nat -> nat, n: nat) returns (i: nat, j: nat)
    requires forall k :: 0 <= k <= n ==> f(k) < n
    ensures i < j <= n && f(i) == f(j)
    decreases n
  {
    var last := f(n);
    if k :| 0 <= k < n && f(k) == last {
      i, j := k, n;
    } else {
      var g := (k: nat) => if f(k) > last then f(k) - 1 else f(k);
      i, j := Pigeonhole(g, n - 1);
    }
  }

  function Repeated(n: nat): string {
    seq(n, i => 'a')
  }

  /** Ids that are a fixed prefix and a fixed number of hexadecimal digits cannot tell all signatures
      apart. */
  lemma HexIdsClash(findingId: string -> string, prefix: string, width: nat)
    requires forall s :: |findingId(s)| == |prefix| + width && prefix <= findingId(s) && IsHex(findingId(s)[|prefix|..])
    ensures !Injective(findingId)
  {
    var f := (k: nat) => Rank(findingId(Repeated(k))[|prefix|..]);
    var n := Pow16(width);
    forall k: nat | k <= n ensures f(k) < n {
      assert |findingId(Repeated(k))[|prefix|..]| == width;
    }
    var i, j := Pigeonhole(f, n);
    var a, b := findingId(Repeated(i)), findingId(Repeated(j));
    RankIsInjective(a[|prefix|..], b[|prefix|..]);
    assert a == prefix + a[|prefix|..] && b == prefix + b[|prefix|..];
    assert |Repeated(i)| != |Repeated(j)|;
  }

  /** So there is always a target on which some finding points at an input that never showed it. */
  lemma ShortIdsSwapSomewhere(findingId: string -> string, prefix: string)
    requires forall s :: |findingId(s)| == |prefix| + 12 && prefix <= findingId(s) && IsHex(findingId(s)[|prefix|..])
    ensures !EveryPassOwns(findingId)
  {
    HexIdsClash(findingId, prefix, 12);
    OwnArtifactsIffInjective(findingId);
    hide EveryPassOwns, Injective;
  }
}
