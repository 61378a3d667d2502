/** What the loop loses. An agent that confirms a finding with a severity below the bar puts it
    in the batch; if the fix does not close it, the next round filters it out before looking at it,
    and the run ends clean with the repro still reproducing. And a commit whose sha cannot be read, or
    that a second run makes on top of a finished ledger, has no entry. */
module BrokerLosses {
  import opened Basics
  import opened Contracts
  import opened Gates
  import opened TextLines
  import opened Ledger
  import opened BrokerModel
  import opened BrokerFrames
  import opened BrokerLedger
  import opened BrokerConservation
  import opened BrokerRuns
  import opened BrokerStops
  import opened BrokerCommits

  const SHA := "4b825dc642cb6eb9a060e54bf8d69288fbee4904"

  function Found(): Finding {
    Finding("a", Sast, Candidate, High, "injection", "src/a.c", None, "d", "false", "e", None)
  }

  function Promoted(): Finding {
    Promote(Found(), Low, "./repro", "e")
  }

  function Success(): ToolResult {
    ToolResult(Some(0), false, None, 0)
  }

  function LossConfig(): Config {
    Config(2, High, false, false, false, false, "make test", raise => "", finding => true,
           Rules(text => GenesisHash(), data => true))
  }

  function LossWorld(round: nat): World {
    World(phase => false, "2026-01-05T10:00:00.000Z", "2026-01-05T10:30:00.000Z",
          Done(Scan([], if round == 1 then [Found()] else [])), Answered([]),
          id => Answered(SaysConfirmed(id, Low, "./repro", "e")), id => Done(Ran(Success())), id => Done(Ran(Success())),
          id => TurnFailed, id => Threw, Done(""), TurnFailed, Answered(FixReport(round, Claude, [])), NotConfigured,
          true, id => Ran(Success()), Success(), Done(Scan([], [])), None, Committed(SHA))
  }

  function LossSetup(): Setup {
    Setup(true, NotConfigured, Success(), Done(SHA))
  }

  // ---- the two rounds -----------------------------------------------------------------

  lemma FirstDetects(file: string)
    ensures var d := Detect(LossConfig(), 1, LossWorld(1), InitialState(file)); d.Go? && d.value == ([Found()], [])
  {
    assert [] + [Found()] == [Found()] && [Found()] + [] == [Found()];
    assert AddNew([], [Found()]) == [Found()];
    assert WithinBar([Found()], High) == [Found()];
  }

  lemma FirstConfirms(st: State)
    requires st.remembered == []
    ensures var c := ConfirmAll(1, LossWorld(1), st, [Found()]); c.Go? && c.value == [Promoted()]
  {
    var w := LossWorld(1);
    var one := ConfirmOne(1, w, st, Found());
    assert one.Go? && one.value == [Promoted()];
    assert ConfirmAll(1, w, one.st, []) == Go(one.st, []);
    assert [Found()][1..] == [];
  }

  lemma FirstRoundPrepares(file: string)
    ensures var p := Prepare(LossConfig(), 1, LossWorld(1), InitialState(file)); p.Go? && p.value == ([Promoted()], [])
  {
    var cfg, w := LossConfig(), LossWorld(1);
    var st := InitialState(file);
    var d := Detect(cfg, 1, w, st);
    FirstDetects(file);
    FirstConfirms(d.st);
    hide Detect, ConfirmAll;
    var c := ConfirmAll(1, w, d.st, [Found()]);
    assert [Promoted()][1..] == [];
    assert AnalyzeAll(1, w, c.st, [Promoted()]) == Go(c.st, [Promoted()]);
  }

  function Baseline(): TestResult {
    RunTests("make test", Success())
  }

  lemma LossPostFixGoes(n: nat, st: State, crossCheck: bool)
    ensures PostFix(LossConfig(), n, LossWorld(n), st, crossCheck).Go?
  {
  }

  lemma LossConcludes(n: nat, st: State, batch: seq<Finding>, report: Option<FixReport>, results: seq<VerifyResult>)
    requires |batch| == |results|
    requires Sound(LossConfig().rules, st.file, n) && |Entries(LossConfig().rules, st.file)| + 1 == n
    ensures Conclude(LossConfig(), Baseline(), n, LossWorld(n), st, batch, report, results, []).Go?
  {
    hide Body, Append, PostFix, Merge, Unresolved, RememberClosed, Verdicts, RunTests, Regressed, Entries, Intact, Tail;
    var cfg, w := LossConfig(), LossWorld(n);
    var test := RunTests(cfg.testCommand, w.tests);
    var wanted := report.Some? && !Regressed(Baseline(), test);
    var post := PostFix(cfg, n, w, st, wanted);
    PostFixIsQuiet(cfg, n, w, st, wanted);
    LossPostFixGoes(n, st, wanted);
    var memory := RememberClosed(post.st.remembered, n, batch, results);
    var filed := match report case Some(r) => r case None => FixReport(n, FIX_AGENT, []);
    var rec := Record(n, w.startedAt, w.endedAt, [] + post.value.1, batch, filed, results, Verdicts(memory), test,
                      w.git.sha, post.value.0, Merge(Unresolved(batch, results), post.value.0));
    FiledIff(cfg, st.file, rec);
  }

  /** Both rounds of this run go through, whatever their batch. */
  lemma LossRoundGoes(n: nat, st: State, batch: seq<Finding>)
    requires Sound(LossConfig().rules, st.file, n) && |Entries(LossConfig().rules, st.file)| + 1 == n
    ensures FixAndVerify(LossConfig(), Baseline(), n, LossWorld(n), st, batch, []).Go?
  {
    var cfg, w := LossConfig(), LossWorld(n);
    hide Conclude, Sound, Entries;
    var fixing := MaybeFix(cfg, n, w, st, batch);
    assert fixing.Go?;
    var verified := VerifyBatch(w, fixing.st, batch, fixing.value.Some?);
    assert verified.Go?;
    LossConcludes(n, fixing.st, batch, fixing.value, verified.value);
  }

  /** What a round of this run leaves behind. */
  lemma LossRecords(n: nat, st: State, batch: seq<Finding>) returns (rec: Record)
    requires var p := Prepare(LossConfig(), n, LossWorld(n), st); p.Go? && p.value.0 == batch && p.value.1 == []
    requires Sound(LossConfig().rules, st.file, n) && |Entries(LossConfig().rules, st.file)| + 1 == n
    requires |batch| <= 1
    ensures var r := Round(LossConfig(), Baseline(), n, LossWorld(n), st);
      r.Go? && r.st.entries == st.entries + [rec] && rec.batch == batch && r.st.open == batch &&
      |rec.verifyResults| == |batch| && (forall k :: 0 <= k < |batch| ==> rec.verifyResults[k].outcome == Survived) &&
      r.value == (if batch == [] then Some(Clean) else None)
  {
    var cfg, w := LossConfig(), LossWorld(n);
    hide Sound, Entries, Prepare, FixAndVerify;
    PrepareIsQuiet(cfg, n, w, st);
    var p := Prepare(cfg, n, w, st);
    LossRoundGoes(n, p.st, batch);
    assert Round(cfg, Baseline(), n, w, st).Go?;
    var prepared, before, mid, r := RoundGoes(cfg, Baseline(), n, w, st);
    rec := r;
    LossResults(n, before, mid, rec);
    Recorded(cfg, w, st, prepared, before, mid, rec, Round(cfg, Baseline(), n, w, st).st, n);
    hide Round, Records, Quiet, Reopens, PostFix, VerifyBatch, Merge, Unresolved;
    assert rec.openAfter == batch;
  }

  lemma LossResults(n: nat, before: State, mid: State, rec: Record)
    requires |rec.batch| <= 1 && LeavesOpen(rec) && rec.test == Baseline()
    requires Verifies(LossWorld(n), before, rec)
    requires var post := PostFix(LossConfig(), n, LossWorld(n), before, rec.batch != [] && !Regressed(Baseline(), rec.test));
      post.Go? && post.value.0 == rec.reopened
    ensures rec.openAfter == rec.batch && !Regressed(Baseline(), rec.test)
    ensures forall k :: 0 <= k < |rec.batch| ==> rec.verifyResults[k].outcome == Survived
  {
    assert rec.reopened == [];
    if rec.batch != [] {
      assert rec.batch == [rec.batch[0]];
      assert Unresolved(rec.batch, rec.verifyResults) == [rec.batch[0]];
      assert [rec.batch[0]] + [] == [rec.batch[0]];
      assert AddNew([], [rec.batch[0]]) == [rec.batch[0]];
    }
  }

  lemma SecondRoundPrepares(st: State)
    requires st.open == [Promoted()]
    ensures var p := Prepare(LossConfig(), 2, LossWorld(2), st); p.Go? && p.value == ([], [])
  {
    assert [Promoted()] + [] == [Promoted()];
    assert AddNew([], [Promoted()]) == [Promoted()];
    assert WithinBar([Promoted()], High) == [];
    var d := Detect(LossConfig(), 2, LossWorld(2), st);
    assert d.Go? && d.value == ([], []);
  }

  ghost predicate SurvivesIn(rec: Record, f: Finding) {
    exists k :: 0 <= k < |rec.batch| && k < |rec.verifyResults| && rec.batch[k] == f &&
      rec.verifyResults[k].outcome == Survived
  }

  /** Called clean, though a batch finding survived its round and no round ever closed it. */
  ghost predicate EndsCleanWithout(end: End, f: Finding) {
    end.Returned? && end.reason == Clean && end.st.open == [] && |end.st.entries| == 2 &&
    SurvivesIn(end.st.entries[0], f) && !ClosedFrom(end.st.entries, 0, f)
  }

  /** The run: in its first round the promoted finding's repro still reproduces after the fix, no round
      ever closes it, and the run ends clean with nothing open. */
  lemma SurvivorIsLost()
    ensures EndsCleanWithout(RunLoop(LossConfig(), LossSetup(), LossWorld, ""), Promoted())
  {
    hide Round, Prepare, Sound;
    var cfg, worlds := LossConfig(), LossWorld;
    var st := InitialState("");
    assert Sound(cfg.rules, "", 1) && |Entries(cfg.rules, "")| == 0 by { NothingIsSound(cfg.rules); }
    FirstRoundPrepares("");
    var rec1 := LossRecords(1, st, [Promoted()]);
    RoundOnLedger(cfg, Baseline(), 1, worlds(1), st, 0, 1);
    var mid := Round(cfg, Baseline(), 1, worlds(1), st).st;
    assert Sound(cfg.rules, mid.file, 2) by { MoreRoom(cfg.rules, mid.file); }
    SecondRoundPrepares(mid);
    var rec2 := LossRecords(2, mid, []);
    var end := Round(cfg, Baseline(), 2, worlds(2), mid).st;
    assert end.entries == [rec1, rec2];
    assert rec1.batch[0] == Promoted();
    assert !ClosesIt(rec1, Promoted()) && !ClosesIt(rec2, Promoted());
    assert RoundsFrom(cfg, Baseline(), worlds, 2, mid) == Returned(end, Clean);
    assert RoundsFrom(cfg, Baseline(), worlds, 1, st) == Returned(end, Clean);
  }

  lemma NothingIsSound(rules: Rules)
    ensures Sound(rules, "", 1) && |Entries(rules, "")| == 0
  {
    assert NonBlank([""]) == [] && Split("") == [""];
  }

  lemma MoreRoom(rules: Rules, file: string)
    requires Sound(rules, file, 1)
    ensures Sound(rules, file, 2)
  {
  }

  // ---- commits without an entry -------------------------------------------------------

  /** Nothing to find and nothing to fix, and then git answers this. */
  function QuietWorld(git: GitOutcome): nat -> World {
    (round: nat) => LossWorld(round + 1).(git := git)
  }

  lemma QuietRoundGetsToCommit(git: GitOutcome, file: string)
    ensures GetsToCommit(LossConfig(), Baseline(), 1, QuietWorld(git)(1), InitialState(file))
  {
    var w, st := QuietWorld(git)(1), InitialState(file);
    assert AddNew([], []) == [] && WithinBar([], High) == [];
    var d := Detect(LossConfig(), 1, w, st);
    assert d.Go? && d.value == ([], []);
    assert ConfirmAll(1, w, d.st, []) == Go(d.st, []) && AnalyzeAll(1, w, d.st, []) == Go(d.st, []);
    assert Prepare(LossConfig(), 1, w, st) == Go(d.st, ([], []));
    hide Prepare, Detect;
  }

  lemma QuietRunStops(git: GitOutcome, file: string)
    requires Round(LossConfig(), Baseline(), 1, QuietWorld(git)(1), InitialState(file)).Halt?
    ensures RunLoop(LossConfig(), LossSetup(), QuietWorld(git), file).st.entries == []
    ensures Starts(LossConfig(), LossSetup(), file)
  {
    RoundEntries(LossConfig(), Baseline(), 1, QuietWorld(git)(1), InitialState(file));
    hide Round;
  }

  ghost predicate LeavesOneCommit(end: End, file: string) {
    end.Thrown? && end.st.commits == 1 && end.st.entries == [] && end.st.file == file
  }

  /** The commit is made, its sha cannot be read, and the run throws with nothing recorded. */
  lemma UnreadCommitHasNoEntry()
    ensures LeavesOneCommit(RunLoop(LossConfig(), LossSetup(), QuietWorld(CommittedUnread), ""), "")
  {
    hide Round, GetsToCommit, RunLoop;
    var cfg, worlds, st := LossConfig(), QuietWorld(CommittedUnread), InitialState("");
    QuietRoundGetsToCommit(CommittedUnread, "");
    RoundCommitsIff(cfg, Baseline(), 1, worlds(1), st);
    QuietRunStops(CommittedUnread, "");
    CommitsMatchEntries(cfg, LossSetup(), worlds, "");
    RecordedRoundsAreReached(cfg, LossSetup(), worlds, "");
    assert Reached(cfg, Baseline(), worlds, 1, "", 1) == Some(st);
    assert EndsWithLoss(cfg, LossSetup(), worlds, "", 0);
  }

  /** The run above, started once more on its own ledger without asking to resume: the commit is made,
      the ledger refuses the round for its number, and the run throws with nothing recorded. */
  lemma SecondRunHasNoEntry()
    ensures var file := RunLoop(LossConfig(), LossSetup(), LossWorld, "").st.file;
      LeavesOneCommit(RunLoop(LossConfig(), LossSetup(), QuietWorld(Committed(SHA)), file), file)
  {
    var cfg, worlds := LossConfig(), QuietWorld(Committed(SHA));
    assert Starts(cfg, LossSetup(), RunLoop(cfg, LossSetup(), LossWorld, "").st.file);
    hide Round, GetsToCommit, RunLoop, Entries, LossWorld, EndsWithLoss, Starts;
    SurvivorIsLost();
    assert Sound(cfg.rules, "", 2) && |Entries(cfg.rules, "")| == 0 by {
      NothingIsSound(cfg.rules);
      MoreRoom(cfg.rules, "");
    }
    RunOnLedger(cfg, LossSetup(), LossWorld, "", 2);
    var file := RunLoop(cfg, LossSetup(), LossWorld, "").st.file;
    QuietRoundGetsToCommit(Committed(SHA), file);
    FreshRunNeedsFreshLedger(cfg, LossSetup(), worlds, file);
    CommitsMatchEntries(cfg, LossSetup(), worlds, file);
  }
}
