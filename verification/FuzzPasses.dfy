/** What is on disk after a whole pass over the configured harnesses: each writes under its own id, so
    what one has shipped no later one takes away. */
module FuzzPasses {
  import opened Basics
  import opened Contracts
  import opened FuzzModel
  import opened FuzzFacts
  import opened FuzzLog

  // ---- whose file it is ---------------------------------------------------------------

  function Directory(harnessId: string): string {
    ".crossfire/crashes/" + harnessId + "/"
  }

  /** Harness ids are distinct slugs. */
  ghost predicate DistinctSlugs(hs: seq<Harness>) {
    (forall i :: 0 <= i < |hs| ==> '/' !in hs[i].id) && (forall i, j :: 0 <= i < j < |hs| ==> hs[i].id != hs[j].id)
  }

  /** Files elsewhere are as they were. */
  ghost predicate OnlyIn(harnessId: string, before: map<string, Bytes>, after: map<string, Bytes>) {
    forall p :: p in before && !(Directory(harnessId) <= p) ==> p in after && after[p] == before[p]
  }

  /** The files of this harness are the same. */
  ghost predicate Keeps(harnessId: string, before: map<string, Bytes>, after: map<string, Bytes>) {
    forall p :: p in before && Directory(harnessId) <= p ==> p in after && after[p] == before[p]
  }

  /** The id can be read off the path: it is what stands before the next slash. */
  lemma IdStands(id: string, path: string, rest: string)
    requires '/' !in id && Directory(id) <= path && path == ".crossfire/crashes/" + rest
    ensures |id| < |rest| && rest[|id|] == '/' && id == rest[..|id|]
    ensures forall i :: 0 <= i < |rest| && rest[i] == '/' ==> |id| <= i
  {
    var more := path[|Directory(id)|..];
    Nest(".crossfire/crashes/", id, "/");
    Nest(".crossfire/crashes/", id + "/", more);
    CancelPrefix(".crossfire/crashes/", rest, id + "/" + more);
    assert forall i :: 0 <= i < |id| ==> rest[i] == id[i];
  }

  lemma DirectoriesDiffer(a: string, b: string, path: string)
    requires '/' !in a && '/' !in b && Directory(a) <= path && Directory(b) <= path
    ensures a == b
  {
    var rest := path[|".crossfire/crashes/"|..];
    assert path == ".crossfire/crashes/" + rest;
    IdStands(a, path, rest);
    IdStands(b, path, rest);
  }

  lemma OthersKeep(a: string, b: string, before: map<string, Bytes>, after: map<string, Bytes>)
    requires '/' !in a && '/' !in b && a != b && OnlyIn(b, before, after)
    ensures Keeps(a, before, after)
  {
    hide Directory;
    forall p | p in before && Directory(a) <= p ensures p in after && after[p] == before[p] {
      if Directory(b) <= p {
        DirectoriesDiffer(a, b, p);
      }
    }
  }

  // ---- one harness --------------------------------------------------------------------

  lemma PathsAreInDirectory(job: Job, id: string)
    ensures Directory(job.harnessId) <= ArtifactPath(job, id) && Directory(job.harnessId) <= RawPath(job, id)
  {
    Nest(Directory(job.harnessId), id, ".min");
    Nest(Directory(job.harnessId), id, ".raw");
  }

  lemma ShipOnlyIn(t: Target, job: Job, content: Bytes, raw: Bytes, report: Report, minimized: bool, p: Progress)
    ensures OnlyIn(job.harnessId, p.shipped, Ship(t, job, content, raw, report, minimized, p).shipped)
  {
    PathsAreInDirectory(job, job.findingId(report.signature));
    hide Directory, ArtifactPath, RawPath, Put, CrashFinding;
  }

  lemma EmitOnlyIn(t: Target, job: Job, i: nat, raw: Bytes, report: Report, p: Progress)
    ensures OnlyIn(job.harnessId, p.shipped, EmitCrash(t, job, i, raw, report, p).shipped)
  {
    hide Ship, Shows, Directory;
    var p1 := Replayed(t, ReplayRaw(i), raw, p.(emitted := p.emitted + [report.signature]));
    var p2 := p1.(now := p1.now + t.tool(Minimize(i), MINIMIZE_TIMEOUT_MS).took);
    ShipOnlyIn(t, job, raw, raw, report, false, p2);
    if t.minimized(i).Some? {
      var p3 := Replayed(t, ReplayMinimized(i), t.minimized(i).value, p2);
      ShipOnlyIn(t, job, raw, raw, report, false, p3);
      ShipOnlyIn(t, job, t.minimized(i).value, raw, report, true, p3);
    }
  }

  lemma RunOnceOnlyIn(t: Target, job: Job, deadline: real, p: Progress)
    ensures OnlyIn(job.harnessId, p.shipped, RunOnce(t, job, deadline, p).p.shipped)
  {
    hide EmitCrash, Directory;
    var i := p.runIndex;
    var run := t.tool(Fuzz(i), deadline - p.now + KILL_GRACE_MS);
    if t.artifact(i).Some? && run.report.Some? {
      var report := run.report.value;
      var p1 := Launched(p, deadline - p.now + KILL_GRACE_MS, run).(seen := p.seen + {report.signature}, dryRuns := 0);
      EmitOnlyIn(t, job, i, t.artifact(i).value, report, p1);
    }
  }

  lemma {:induction false} DriveOnlyIn(t: Target, job: Job, deadline: real, p: Progress)
    ensures OnlyIn(job.harnessId, p.shipped, DriveFrom(t, job, deadline, p).0.shipped)
    decreases MAX_RUNS - p.runIndex
  {
    RunOnceOnlyIn(t, job, deadline, p);
    hide RunOnce, Directory;
    match RunOnce(t, job, deadline, p)
    case Stop(_, _) =>
    case Again(next) => DriveOnlyIn(t, job, deadline, next);
  }

  lemma HarnessOnlyIn(h: Harness, share: nat, findingId: string -> string, pass: FuzzPass)
    ensures OnlyIn(h.id, pass.shipped, RunHarness(h, share, findingId, pass).shipped)
  {
    hide DriveFrom, Directory, Summary, Refused;
    if h.engine.Some? {
      var job := Job(h.id, h.blocked, share, findingId);
      DriveOnlyIn(h.engine.value, job, pass.now + share as real, Start(pass.now, pass.shipped));
    }
  }

  // ---- what a finding can be held to --------------------------------------------------

  /** This harness, started then, reported the finding, and what is on disk now, in its artifact and in
      the raw input beside it, was run again by the harness and seen to crash with the finding's id; with
      its own signature, if the ids of that harness differ. */
  ghost predicate HeldBy(h: Harness, share: nat, findingId: string -> string, now: real, before: map<string, Bytes>,
                         f: Finding, shipped: map<string, Bytes>)
  {
    h.engine.Some? &&
    var job := Job(h.id, h.blocked, share, findingId);
    var end := Drive(h.engine.value, job, now, before).1;
    exists i :: 0 <= i < |end.findings| && Holds(job, end, i, f, shipped)
  }

  ghost predicate Holds(job: Job, end: Progress, i: nat, f: Finding, shipped: map<string, Bytes>)
    requires i < |end.findings|
  {
    end.findings[i].value == f && Backed(job, end.(shipped := shipped), end.findings[i]) &&
    (DistinctIds(end.findings) ==> Owns(job, end.(shipped := shipped), end.findings[i]))
  }

  /** Keeping the harness's files keeps what they show. */
  lemma StillHolds(job: Job, end: Progress, i: nat, f: Finding, a: map<string, Bytes>, b: map<string, Bytes>)
    requires i < |end.findings| && Holds(job, end, i, f, a) && Keeps(job.harnessId, a, b)
    ensures Holds(job, end, i, f, b)
  {
    var id := job.findingId(end.findings[i].key);
    PathsAreInDirectory(job, id);
    hide Directory, ArtifactPath, RawPath, Witnessed, HasKey, DistinctIds;
  }

  lemma StillHeld(h: Harness, share: nat, findingId: string -> string, now: real, before: map<string, Bytes>, f: Finding,
                  a: map<string, Bytes>, b: map<string, Bytes>)
    requires HeldBy(h, share, findingId, now, before, f, a) && Keeps(h.id, a, b)
    ensures HeldBy(h, share, findingId, now, before, f, b)
  {
    hide Drive, Holds, Keeps;
    var job := Job(h.id, h.blocked, share, findingId);
    var end := Drive(h.engine.value, job, now, before).1;
    var i :| 0 <= i < |end.findings| && Holds(job, end, i, f, a);
    StillHolds(job, end, i, f, a, b);
  }

  lemma DriveReports(t: Target, job: Job, now: real, before: map<string, Bytes>, f: Finding)
    requires f in Drive(t, job, now, before).0.findings
    ensures exists i :: 0 <= i < |Drive(t, job, now, before).1.findings| && Drive(t, job, now, before).1.findings[i].value == f
  {
    hide DriveFrom;
  }

  /** Straight after its harness. */
  lemma HarnessHolds(h: Harness, share: nat, findingId: string -> string, pass: FuzzPass, f: Finding)
    requires f in RunHarness(h, share, findingId, pass).collected && f !in pass.collected
    ensures HeldBy(h, share, findingId, pass.now, pass.shipped, f, RunHarness(h, share, findingId, pass).shipped)
  {
    var t, job := h.engine.value, Job(h.id, h.blocked, share, findingId);
    var end := Drive(t, job, pass.now, pass.shipped).1;
    hide Drive;
    DriveReports(t, job, pass.now, pass.shipped, f);
    ShippedIsReplayed(t, job, pass.now, pass.shipped);
    ShippedIsItsOwn(t, job, pass.now, pass.shipped);
    hide DistinctIds, Owns, OneCrashEach, Backed;
    var i :| 0 <= i < |end.findings| && end.findings[i].value == f;
    assert end.(shipped := end.shipped) == end;
    assert Holds(job, end, i, f, end.shipped);
  }

  // ---- the whole pass -----------------------------------------------------------------

  /** The harness at this place holds the finding, from the time and the files it was started with. */
  ghost predicate HeldAt(hs: seq<Harness>, share: nat, findingId: string -> string, pass: FuzzPass, j: nat, f: Finding,
                         shipped: map<string, Bytes>)
    requires j < |hs|
  {
    var before := RunHarnesses(hs[..j], share, findingId, pass);
    HeldBy(hs[j], share, findingId, before.now, before.shipped, f, shipped)
  }

  /** Some harness of the pass does. */
  ghost predicate Held(hs: seq<Harness>, share: nat, findingId: string -> string, pass: FuzzPass, f: Finding,
                       shipped: map<string, Bytes>)
  {
    exists j :: 0 <= j < |hs| && HeldAt(hs, share, findingId, pass, j, f, shipped)
  }

  lemma {:induction false} LaterHarnessesKeep(hs: seq<Harness>, share: nat, findingId: string -> string, pass: FuzzPass,
                                              id: string)
    requires '/' !in id && forall j :: 0 <= j < |hs| ==> '/' !in hs[j].id && hs[j].id != id
    ensures Keeps(id, pass.shipped, RunHarnesses(hs, share, findingId, pass).shipped)
    decreases |hs|
  {
    hide RunHarness, Directory;
    if |hs| > 0 {
      var next := RunHarness(hs[0], share, findingId, pass);
      HarnessOnlyIn(hs[0], share, findingId, pass);
      OthersKeep(id, hs[0].id, pass.shipped, next.shipped);
      LaterHarnessesKeep(hs[1..], share, findingId, next, id);
    }
  }

  lemma HeldAmongMore(hs: seq<Harness>, share: nat, findingId: string -> string, pass: FuzzPass, f: Finding,
                      shipped: map<string, Bytes>)
    requires |hs| > 0 && Held(hs[1..], share, findingId, RunHarness(hs[0], share, findingId, pass), f, shipped)
    ensures Held(hs, share, findingId, pass, f, shipped)
  {
    hide HeldBy, RunHarness;
    var next := RunHarness(hs[0], share, findingId, pass);
    var j :| 0 <= j < |hs[1..]| && HeldAt(hs[1..], share, findingId, next, j, f, shipped);
    assert hs[..j + 1][1..] == hs[1..][..j];
    assert HeldAt(hs, share, findingId, pass, j + 1, f, shipped);
  }

  lemma HeldByFirst(hs: seq<Harness>, share: nat, findingId: string -> string, pass: FuzzPass, f: Finding,
                    shipped: map<string, Bytes>)
    requires |hs| > 0 && HeldBy(hs[0], share, findingId, pass.now, pass.shipped, f, shipped)
    ensures Held(hs, share, findingId, pass, f, shipped)
  {
    hide HeldBy;
    assert HeldAt(hs, share, findingId, pass, 0, f, shipped);
  }

  lemma {:induction false} HarnessesHold(hs: seq<Harness>, share: nat, findingId: string -> string, pass: FuzzPass, f: Finding)
    requires DistinctSlugs(hs)
    requires f in RunHarnesses(hs, share, findingId, pass).collected && f !in pass.collected
    ensures Held(hs, share, findingId, pass, f, RunHarnesses(hs, share, findingId, pass).shipped)
    decreases |hs|
  {
    hide RunHarness, HeldBy, Held, Keeps;
    var next := RunHarness(hs[0], share, findingId, pass);
    var end := RunHarnesses(hs[1..], share, findingId, next);
    if f in next.collected {
      HarnessHolds(hs[0], share, findingId, pass, f);
      LaterHarnessesKeep(hs[1..], share, findingId, next, hs[0].id);
      StillHeld(hs[0], share, findingId, pass.now, pass.shipped, f, next.shipped, end.shipped);
      HeldByFirst(hs, share, findingId, pass, f, end.shipped);
    } else {
      HarnessesHold(hs[1..], share, findingId, next, f);
      HeldAmongMore(hs, share, findingId, pass, f, end.shipped);
    }
  }

  /** After a whole pass, whatever was on disk before it: each collected finding points at an input that
      is still there, and that the harness which found it ran again and saw crash. */
  lemma CollectedIsStillShipped(enabled: bool, hs: seq<Harness>, total: nat, findingId: string -> string, now: real,
                                shipped: map<string, Bytes>, f: Finding)
    requires DistinctSlugs(hs)
    requires f in RunFuzzers(enabled, hs, total, findingId, now, shipped).collected
    ensures Held(hs, Share(total, |hs|), findingId, FuzzPass(now, [], [], shipped), f,
                 RunFuzzers(enabled, hs, total, findingId, now, shipped).shipped)
  {
    hide RunHarnesses, Held;
    HarnessesHold(hs, Share(total, |hs|), findingId, FuzzPass(now, [], [], shipped), f);
  }

  // ---- everything is collected --------------------------------------------------------

  /** What a pass is handed: the harnesses, the even share of each, and how ids are made. */
  datatype Order = Order(hs: seq<Harness>, share: nat, findingId: string -> string, now: real, shipped: map<string, Bytes>)

  /** The clock and the files the first `j` harnesses leave. */
  ghost function LeftBy(o: Order, j: nat): (real, map<string, Bytes>)
    requires j <= |o.hs|
  {
    if j == 0 then (o.now, o.shipped)
    else match o.hs[j - 1].engine
      case None => LeftBy(o, j - 1)
      case Some(t) =>
        var end := Drive(t, JobOf(o, j - 1), LeftBy(o, j - 1).0, LeftBy(o, j - 1).1).1;
        (end.now, end.shipped)
  }

  ghost function JobOf(o: Order, j: nat): Job
    requires j < |o.hs|
  {
    Job(o.hs[j].id, o.hs[j].blocked, o.share, o.findingId)
  }

  /** What one harness comes back with, started at the clock and with the files of those before it. */
  ghost function OutcomeOf(o: Order, j: nat): HarnessOutcome
    requires j < |o.hs|
  {
    match o.hs[j].engine
    case None => HarnessOutcome(DetectorRun("fuzz", Some(o.hs[j].id), "error", 0, 0, Some("no fuzz engine adapter")), [])
    case Some(t) => Drive(t, JobOf(o, j), LeftBy(o, j).0, LeftBy(o, j).1).0
  }

  ghost function FoundBy(o: Order, j: nat): seq<Finding>
    requires j <= |o.hs|
  {
    if j == 0 then [] else FoundBy(o, j - 1) + OutcomeOf(o, j - 1).findings
  }

  ghost function RunsOf(o: Order, j: nat): (r: seq<DetectorRun>)
    requires j <= |o.hs|
    ensures |r| == j
    ensures forall i :: 0 <= i < j ==> r[i] == OutcomeOf(o, i).run
  {
    if j == 0 then [] else RunsOf(o, j - 1) + [OutcomeOf(o, j - 1).run]
  }

  function TotalEmitted(runs: seq<DetectorRun>): nat {
    if |runs| == 0 then 0 else TotalEmitted(runs[..|runs| - 1]) + runs[|runs| - 1].findingsEmitted
  }

  ghost function After(o: Order, j: nat): FuzzPass
    requires j <= |o.hs|
  {
    FuzzPass(LeftBy(o, j).0, RunsOf(o, j), FoundBy(o, j), LeftBy(o, j).1)
  }

  lemma OneMoreHarness(o: Order, j: nat)
    requires j < |o.hs|
    ensures RunHarness(o.hs[j], o.share, o.findingId, After(o, j)) == After(o, j + 1)
  {
    hide Drive;
    if o.hs[j].engine.None? {
      assert FoundBy(o, j) + [] == FoundBy(o, j);
    }
  }

  lemma {:induction false} HarnessesFrom(o: Order, j: nat)
    requires j <= |o.hs|
    ensures RunHarnesses(o.hs[j..], o.share, o.findingId, After(o, j)) == After(o, |o.hs|)
    decreases |o.hs| - j
  {
    hide RunHarness, After;
    if j < |o.hs| {
      OneMoreHarness(o, j);
      assert o.hs[j..][0] == o.hs[j] && o.hs[j..][1..] == o.hs[j + 1..];
      HarnessesFrom(o, j + 1);
    }
  }

  lemma {:induction false} FoundIsCounted(o: Order, j: nat)
    requires j <= |o.hs|
    ensures |FoundBy(o, j)| == TotalEmitted(RunsOf(o, j))
  {
    hide OutcomeOf;
    if j > 0 {
      FoundIsCounted(o, j - 1);
      var runs := RunsOf(o, j - 1);
      assert RunsOf(o, j) == runs + [OutcomeOf(o, j - 1).run];
      assert (runs + [OutcomeOf(o, j - 1).run])[..j - 1] == runs;
      OutcomeIsCounted(o, j - 1);
    }
  }

  lemma OutcomeIsCounted(o: Order, j: nat)
    requires j < |o.hs|
    ensures OutcomeOf(o, j).run.findingsEmitted == |OutcomeOf(o, j).findings|
  {
    hide Drive, LeftBy;
    match o.hs[j].engine
    case None =>
    case Some(t) => HarnessTells(t, JobOf(o, j), LeftBy(o, j).0, LeftBy(o, j).1);
  }

  lemma {:induction false} FoundIsAll(o: Order, j: nat, i: nat, f: Finding)
    requires i < j <= |o.hs| && f in OutcomeOf(o, i).findings
    ensures f in FoundBy(o, j)
  {
    hide OutcomeOf;
    if i < j - 1 {
      FoundIsAll(o, j - 1, i, f);
    }
  }

  /** A pass that is not disabled: harness after harness, each with an even share of the budget rounded
      down, each reports its own run, and what they find is all collected, in their order; as many as
      they said. */
  lemma PassCollectsAll(hs: seq<Harness>, total: nat, findingId: string -> string, now: real, shipped: map<string, Bytes>)
    ensures var o := Order(hs, if |hs| == 0 then 0 else total / |hs|, findingId, now, shipped);
      var pass := RunFuzzers(true, hs, total, findingId, now, shipped);
      |pass.runs| == |hs| && (forall j :: 0 <= j < |hs| ==> pass.runs[j] == OutcomeOf(o, j).run) &&
      pass.collected == FoundBy(o, |hs|) && |pass.collected| == TotalEmitted(pass.runs) &&
      (forall j, f :: 0 <= j < |hs| && f in OutcomeOf(o, j).findings ==> f in pass.collected) &&
      (pass.now, pass.shipped) == LeftBy(o, |hs|)
  {
    var o := Order(hs, if |hs| == 0 then 0 else total / |hs|, findingId, now, shipped);
    HarnessesFrom(o, 0);
    assert hs[0..] == hs;
    FoundIsCounted(o, |hs|);
    hide RunHarnesses, OutcomeOf;
    forall j, f | 0 <= j < |hs| && f in OutcomeOf(o, j).findings ensures f in FoundBy(o, |hs|) {
      FoundIsAll(o, |hs|, j, f);
    }
    hide FoundBy, TotalEmitted;
  }
}
