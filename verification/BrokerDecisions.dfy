/** What a round decides before its fix, said of the answers alone: which findings it works on, which of
    them enter the batch and as what, what it remembers of the rest, and which commands it ran to know. */
module BrokerDecisions {
  import opened Basics
  import opened Contracts
  import opened Gates
  import opened BrokerModel
  import opened BrokerLists
  import opened BrokerFrames
  import opened BrokerBatches
  import opened BrokerAdmission

  // ---- DETECT -------------------------------------------------------------------------

  /** What a cold hunt raises: candidates with the raise's own words, and a command that reproduces nothing. */
  ghost function RaisedBy(cfg: Config, w: World): seq<Finding> {
    if cfg.coldHunt && w.hunt.Answered? then
      seq(|w.hunt.value|, (i: nat) requires i < |w.hunt.value| =>
        var r := w.hunt.value[i];
        Finding(cfg.huntId(r), ColdHunt, Candidate, r.severity, r.bugClass, r.file, r.line, r.description, "false", r.expected,
                None))
    else []
  }

  /** The first finding with each id, of those at or above the bar, in order. */
  ghost function AtBar(fs: seq<Finding>, bar: Severity): seq<Finding>
    decreases |fs|
  {
    if fs == [] then []
    else
      var n := |fs| - 1;
      AtBar(fs[..n], bar) + (if FirstWithId(fs, n) && MeetsBar(fs[n].severity, bar) then [fs[n]] else [])
  }

  lemma {:induction false} BarOfFirsts(fs: seq<Finding>, bar: Severity)
    ensures WithinBar(Firsts(fs), bar) == AtBar(fs, bar)
    decreases |fs|
  {
    if fs != [] {
      var n := |fs| - 1;
      BarOfFirsts(fs[..n], bar);
      WithinBarConcat(Firsts(fs[..n]), if FirstWithId(fs, n) then [fs[n]] else [], bar);
      assert WithinBar([fs[n]], bar) == if MeetsBar(fs[n].severity, bar) then [fs[n]] else [];
    }
  }

  lemma {:induction false} RaisedAt(cfg: Config, raises: seq<Raise>, i: nat)
    requires i < |raises|
    ensures |RaisedCandidates(cfg, raises)| == |raises| && RaisedCandidates(cfg, raises)[i] == RaisedCandidate(cfg, raises[i])
  {
    if i > 0 {
      RaisedAt(cfg, raises[1..], i - 1);
    } else if |raises| > 1 {
      RaisedAt(cfg, raises[1..], 0);
    }
  }

  lemma HuntRaises(cfg: Config, round: nat, w: World, st: State)
    requires Hunt(cfg, round, w, st).Go?
    ensures Hunt(cfg, round, w, st).value == RaisedBy(cfg, w)
  {
    if cfg.coldHunt {
      var raised := RaisedCandidates(cfg, w.hunt.value);
      if w.hunt.value != [] {
        RaisedAt(cfg, w.hunt.value, 0);
      }
      forall i | 0 <= i < |w.hunt.value| ensures raised[i] == RaisedBy(cfg, w)[i] {
        RaisedAt(cfg, w.hunt.value, i);
      }
    }
  }

  /** What the round works on: what is open, then what is detected, then what is raised. */
  ghost function Working(cfg: Config, w: World, open: seq<Finding>): seq<Finding>
    requires w.detect.Done?
  {
    AtBar(open + w.detect.value.findings + RaisedBy(cfg, w), cfg.severityBar)
  }

  lemma DetectIsExact(cfg: Config, round: nat, w: World, st: State)
    requires Detect(cfg, round, w, st).Go?
    ensures w.detect.Done? && Detect(cfg, round, w, st).value == (Working(cfg, w, st.open), w.detect.value.runs)
  {
    hide Hunt, Merge, WithinBar, AtBar, Firsts, RaisedBy;
    var seen := Saw(st, Detected(round, w.detect.value.findings));
    HuntRaises(cfg, round, w, seen);
    MergeIsFirsts(st.open, w.detect.value.findings);
    MergeIsFirsts(Merge(st.open, w.detect.value.findings), RaisedBy(cfg, w));
    FirstsOfFirsts(st.open + w.detect.value.findings, RaisedBy(cfg, w));
    BarOfFirsts(st.open + w.detect.value.findings + RaisedBy(cfg, w), cfg.severityBar);
  }

  // ---- CONFIRM ------------------------------------------------------------------------

  /** As what an admitted finding enters: a confirmed one as it is, one an earlier round closed with the
      command that closed it, and any other with the severity, the command and the text of the answer. */
  ghost function ConfirmedAs(w: World, memory: Memory, f: Finding): Finding {
    var verdict := Lookup(memory, f.id);
    if f.state == Confirmed then f
    else if Closes(verdict) then f.(state := Confirmed, repro := verdict.value.repro.value)
    else match w.confirm(f.id)
      case Answered(SaysConfirmed(_, severity, repro, expected)) =>
        f.(state := Confirmed, severity := severity, repro := repro, expected := expected)
      case _ => f
  }

  ghost function Entering(round: nat, w: World, memory: Memory, fs: seq<Finding>): seq<Finding> {
    if fs == [] then []
    else (if Admitted(round, w, memory, fs[0]) then [ConfirmedAs(w, memory, fs[0])] else []) +
         Entering(round, w, memory, fs[1..])
  }

  /** A candidate that the round asked about and turned down. */
  ghost predicate Refused(round: nat, w: World, memory: Memory, f: Finding) {
    f.state == Candidate && !Dismisses(Lookup(memory, f.id), round) && !Closes(Lookup(memory, f.id)) &&
    !Admitted(round, w, memory, f)
  }

  /** What is remembered of an id afterwards. */
  ghost predicate Remembers(round: nat, w: World, before: Memory, after: Memory, f: Finding) {
    Lookup(after, f.id) ==
      if Refused(round, w, before, f) then Some(FindingVerdict(f.id, VerdictDismissed, None, round)) else Lookup(before, f.id)
  }

  lemma ConfirmOneIsExact(round: nat, w: World, st: State, f: Finding)
    requires ConfirmOne(round, w, st, f).Go?
    ensures ConfirmOne(round, w, st, f).value ==
      if Admitted(round, w, st.remembered, f) then [ConfirmedAs(w, st.remembered, f)] else []
    ensures Remembers(round, w, st.remembered, ConfirmOne(round, w, st, f).st.remembered, f)
  {
    LookupPut(st.remembered, f.id, FindingVerdict(f.id, VerdictDismissed, None, round), f.id);
    hide Lookup, Put;
  }

  lemma {:induction false} SameMemorySameEntering(round: nat, w: World, a: Memory, b: Memory, fs: seq<Finding>)
    requires forall f :: f in fs ==> Lookup(a, f.id) == Lookup(b, f.id)
    ensures Entering(round, w, a, fs) == Entering(round, w, b, fs)
  {
    hide Holds, Lookup;
    if fs != [] {
      assert fs[0] in fs;
      SameMemorySameEntering(round, w, a, b, fs[1..]);
    }
  }

  lemma {:induction false} ConfirmAllIsExact(round: nat, w: World, st: State, fs: seq<Finding>)
    requires UniqueIds(fs) && ConfirmAll(round, w, st, fs).Go?
    ensures ConfirmAll(round, w, st, fs).value == Entering(round, w, st.remembered, fs)
    ensures forall f :: f in fs ==> Remembers(round, w, st.remembered, ConfirmAll(round, w, st, fs).st.remembered, f)
    ensures forall id :: !HasId(fs, id) ==>
      Lookup(ConfirmAll(round, w, st, fs).st.remembered, id) == Lookup(st.remembered, id)
    decreases |fs|
  {
    hide ConfirmOne, Admitted, ConfirmedAs, Lookup, Remembers;
    if fs != [] {
      var first := ConfirmOne(round, w, st, fs[0]);
      var after := ConfirmAll(round, w, first.st, fs[1..]).st.remembered;
      ConfirmOneIsExact(round, w, st, fs[0]);
      ConfirmAllIsExact(round, w, first.st, fs[1..]);
      forall id | id != fs[0].id ensures Lookup(first.st.remembered, id) == Lookup(st.remembered, id) {
        ConfirmOneTouchesItsId(round, w, st, fs[0], id);
      }
      HeadIdIsGone(fs);
      forall f | f in fs[1..] ensures f.id != fs[0].id && HasId(fs[1..], f.id) {
        var i :| 0 <= i < |fs[1..]| && fs[1..][i] == f;
        assert fs[i + 1] == f;
      }
      SameMemorySameEntering(round, w, first.st.remembered, st.remembered, fs[1..]);
      forall f | f in fs ensures Remembers(round, w, st.remembered, after, f) {
        if f != fs[0] {
          assert f in fs[1..];
          RemembersFrom(round, w, st.remembered, first.st.remembered, after, f);
        } else {
          RemembersStill(round, w, st.remembered, first.st.remembered, after, f);
        }
      }
      forall id | !HasId(fs, id) ensures Lookup(after, id) == Lookup(st.remembered, id) {
        NotAmongFewer(fs, id);
      }
    }
  }

  lemma NotAmongFewer(fs: seq<Finding>, id: string)
    requires fs != [] && !HasId(fs, id)
    ensures !HasId(fs[1..], id) && id != fs[0].id
  {
    assert forall i :: 0 <= i < |fs[1..]| ==> fs[1..][i] == fs[i + 1];
  }

  lemma RemembersFrom(round: nat, w: World, a: Memory, b: Memory, after: Memory, f: Finding)
    requires Lookup(a, f.id) == Lookup(b, f.id) && Remembers(round, w, b, after, f)
    ensures Remembers(round, w, a, after, f)
  {
    hide Lookup, Holds;
  }

  lemma RemembersStill(round: nat, w: World, a: Memory, b: Memory, after: Memory, f: Finding)
    requires Lookup(b, f.id) == Lookup(after, f.id) && Remembers(round, w, a, b, f)
    ensures Remembers(round, w, a, after, f)
  {
  }

  // ---- ANALYZE ------------------------------------------------------------------------

  /** A crash that has not had its analysis takes its severity and texts, and the command it proposes if
      that still reproduces. Anything else stays as it is. */
  ghost function AnalyzedAs(w: World, analyzed: set<string>, f: Finding): Finding {
    if f.source != Fuzzer || f.id in analyzed then f
    else match w.analyze(f.id)
      case Answered(a) =>
        f.(severity := a.severity, expected := a.expected,
           description := f.description + " Root cause: " + a.rootCause,
           repro := if Holds(w.analyzeRepro(f.id)) then a.repro else f.repro)
      case _ => f
  }

  ghost function AllAnalyzed(w: World, analyzed: set<string>, fs: seq<Finding>): seq<Finding> {
    if fs == [] then [] else [AnalyzedAs(w, analyzed, fs[0])] + AllAnalyzed(w, analyzed, fs[1..])
  }

  lemma {:induction false} MoreAnalyzed(w: World, analyzed: set<string>, id: string, fs: seq<Finding>)
    requires !HasId(fs, id)
    ensures AllAnalyzed(w, analyzed + {id}, fs) == AllAnalyzed(w, analyzed, fs)
  {
    if fs != [] {
      NotAmongFewer(fs, id);
      MoreAnalyzed(w, analyzed, id, fs[1..]);
    }
  }

  lemma AnalyzeOneIsExact(round: nat, w: World, st: State, f: Finding)
    requires AnalyzeOne(round, w, st, f).Go?
    ensures AnalyzeOne(round, w, st, f).value == AnalyzedAs(w, st.analyzed, f)
    ensures AnalyzeOne(round, w, st, f).st.analyzed == if f.source == Fuzzer then st.analyzed + {f.id} else st.analyzed
  {
  }

  lemma {:induction false} AnalyzeAllIsExact(round: nat, w: World, st: State, fs: seq<Finding>)
    requires UniqueIds(fs) && AnalyzeAll(round, w, st, fs).Go?
    ensures AnalyzeAll(round, w, st, fs).value == AllAnalyzed(w, st.analyzed, fs)
    decreases |fs|
  {
    hide AnalyzeOne, AnalyzedAs, HasId;
    if fs != [] {
      var first := AnalyzeOne(round, w, st, fs[0]);
      AnalyzeOneIsExact(round, w, st, fs[0]);
      AnalyzeAllIsExact(round, w, first.st, fs[1..]);
      HeadIdIsGone(fs);
      MoreAnalyzed(w, st.analyzed, fs[0].id, fs[1..]);
    }
  }

  // ---- the batch ----------------------------------------------------------------------

  /** The batch, exactly: of what the round works on, each admitted finding, in order, as what it enters
      and as what analysis makes of it. And of each finding it works on, what is remembered. */
  lemma BatchIsExact(cfg: Config, round: nat, w: World, st: State)
    requires Prepare(cfg, round, w, st).Go?
    ensures w.detect.Done?
    ensures var working := Working(cfg, w, st.open);
      var p := Prepare(cfg, round, w, st);
      p.value == (AllAnalyzed(w, st.analyzed, Entering(round, w, st.remembered, working)), w.detect.value.runs) &&
      (forall f :: f in working ==> Remembers(round, w, st.remembered, p.st.remembered, f)) &&
      (forall id :: !HasId(working, id) ==> Lookup(p.st.remembered, id) == Lookup(st.remembered, id))
  {
    hide Detect, ConfirmAll, AnalyzeAll, Quiet, WithinBar, Entering, AllAnalyzed, Working, Remembers, Lookup, HasId;
    var detected := Detect(cfg, round, w, st);
    var working := detected.value.0;
    DetectIsExact(cfg, round, w, st);
    DetectIsQuiet(cfg, round, w, st);
    QuietKeeps(st, detected.st, round, false, false);
    var all := DetectWorks(cfg, round, w, st);
    WithinBarUnique(all, cfg.severityBar);
    var confirmed := ConfirmAll(round, w, detected.st, working);
    ConfirmAllIsExact(round, w, detected.st, working);
    ConfirmAllGives(round, w, detected.st, working);
    ConfirmAllIsQuiet(round, w, detected.st, working);
    QuietKeeps(detected.st, confirmed.st, round, true, false);
    AnalyzeAllIsExact(round, w, confirmed.st, confirmed.value);
    AnalyzeAllIsQuiet(round, w, confirmed.st, confirmed.value);
    QuietKeeps(confirmed.st, AnalyzeAll(round, w, confirmed.st, confirmed.value).st, round, false, true);
  }

  lemma QuietKeeps(a: State, b: State, round: nat, confirms: bool, analyzes: bool)
    requires Quiet(a, b, round, confirms, analyzes)
    ensures !confirms ==> b.remembered == a.remembered
    ensures !analyzes ==> b.analyzed == a.analyzed
  {
  }

  // ---- the commands that were run -----------------------------------------------------

  /** Between these two states the broker ran this command for this id, and saw it reproduce exactly when
      this run of it does. */
  ghost predicate Ran(a: State, b: State, round: nat, id: string, repro: string, run: Attempt<ReproRun>) {
    exists k :: |a.journal| <= k < |b.journal| && IsRunOf(b.journal[k], round, id, repro, run)
  }

  ghost predicate IsRunOf(e: Event, round: nat, id: string, repro: string, run: Attempt<ReproRun>) {
    e.ReproRan? && e.round == round && e.id == id && e.repro == repro && run.Done? &&
    (e.outcome == Survived <==> Holds(run)) && (e.outcome == Inconclusive <==> !Completed(run.value))
  }

  /** How a finding was judged. A carried closure has its own command run again. A candidate with no
      standing verdict has an answer about itself, and if that confirms it, the command the answer gives. */
  ghost predicate Judged(a: State, b: State, round: nat, w: World, memory: Memory, f: Finding) {
    var verdict := Lookup(memory, f.id);
    f.state == Candidate && !Dismisses(verdict, round) ==>
      if Closes(verdict) then Ran(a, b, round, f.id, verdict.value.repro.value, w.recheck(f.id))
      else
        w.confirm(f.id).Answered? && w.confirm(f.id).value.findingId == f.id &&
        Noted(a, b, TurnTaken(round, CandidateConfirmation, f.id)) &&
        Noted(a, b, Ruled(round, f.id, w.confirm(f.id).value.SaysConfirmed? && Holds(w.confirmRepro(f.id)))) &&
        (w.confirm(f.id).value.SaysConfirmed? ==>
          Ran(a, b, round, f.id, w.confirm(f.id).value.repro, w.confirmRepro(f.id)))
  }

  ghost predicate Noted(a: State, b: State, e: Event) {
    exists k :: |a.journal| <= k < |b.journal| && b.journal[k] == e
  }

  /** How a crash was analysed: an answer about itself, and the command it proposes. */
  ghost predicate Examined(a: State, b: State, round: nat, w: World, analyzed: set<string>, f: Finding) {
    f.source == Fuzzer && f.id !in analyzed ==>
      w.analyze(f.id).Answered? && w.analyze(f.id).value.findingId == f.id &&
      Noted(a, b, TurnTaken(round, CrashAnalysisTurn, f.id)) &&
      Ran(a, b, round, f.id, w.analyze(f.id).value.repro, w.analyzeRepro(f.id))
  }

  lemma RanStays(a: State, b: State, c: State, d: State, round: nat, id: string, repro: string, run: Attempt<ReproRun>)
    requires Extends(a.journal, b.journal) && Extends(b.journal, c.journal) && Extends(c.journal, d.journal)
    requires Ran(b, c, round, id, repro, run)
    ensures Ran(a, d, round, id, repro, run)
  {
    hide IsRunOf;
    var k :| |b.journal| <= k < |c.journal| && IsRunOf(c.journal[k], round, id, repro, run);
    assert d.journal[k] == c.journal[k];
  }

  lemma NotedStays(a: State, b: State, c: State, d: State, e: Event)
    requires Extends(a.journal, b.journal) && Extends(b.journal, c.journal) && Extends(c.journal, d.journal)
    requires Noted(b, c, e)
    ensures Noted(a, d, e)
  {
    var k :| |b.journal| <= k < |c.journal| && c.journal[k] == e;
    assert d.journal[k] == e;
  }

  lemma JudgedStays(a: State, b: State, c: State, d: State, round: nat, w: World, memory: Memory, f: Finding)
    requires Extends(a.journal, b.journal) && Extends(b.journal, c.journal) && Extends(c.journal, d.journal)
    requires Judged(b, c, round, w, memory, f)
    ensures Judged(a, d, round, w, memory, f)
  {
    hide Ran, Noted, Lookup, Extends, Holds;
    var verdict := Lookup(memory, f.id);
    if f.state == Candidate && !Dismisses(verdict, round) {
      if Closes(verdict) {
        RanStays(a, b, c, d, round, f.id, verdict.value.repro.value, w.recheck(f.id));
      } else {
        var answer := w.confirm(f.id).value;
        NotedStays(a, b, c, d, TurnTaken(round, CandidateConfirmation, f.id));
        NotedStays(a, b, c, d, Ruled(round, f.id, answer.SaysConfirmed? && Holds(w.confirmRepro(f.id))));
        if answer.SaysConfirmed? {
          RanStays(a, b, c, d, round, f.id, answer.repro, w.confirmRepro(f.id));
        }
      }
    }
  }

  lemma ExaminedStays(a: State, b: State, c: State, d: State, round: nat, w: World, analyzed: set<string>, f: Finding)
    requires Extends(a.journal, b.journal) && Extends(b.journal, c.journal) && Extends(c.journal, d.journal)
    requires Examined(b, c, round, w, analyzed, f)
    ensures Examined(a, d, round, w, analyzed, f)
  {
    hide Ran, Noted, Extends;
    if f.source == Fuzzer && f.id !in analyzed {
      NotedStays(a, b, c, d, TurnTaken(round, CrashAnalysisTurn, f.id));
      RanStays(a, b, c, d, round, f.id, w.analyze(f.id).value.repro, w.analyzeRepro(f.id));
    }
  }

  lemma ExtendsSelf(a: seq<Event>)
    ensures Extends(a, a)
  {
  }

  lemma RunIsNoted(st: State, round: nat, f: Finding, run: Attempt<ReproRun>)
    requires RunRepro(st, round, f, run).Go?
    ensures var r := RunRepro(st, round, f, run);
      Ran(st, r.st, round, f.id, f.repro, run) && (r.value == Survived <==> Holds(run)) && Extends(st.journal, r.st.journal)
  {
    var r := RunRepro(st, round, f, run);
    assert IsRunOf(r.st.journal[|st.journal|], round, f.id, f.repro, run);
  }

  lemma CandidateIsJudged(round: nat, w: World, st: State, f: Finding)
    requires ConfirmCandidate(round, w, st, f).Go?
    ensures w.confirm(f.id).Answered? && w.confirm(f.id).value.findingId == f.id
    ensures w.confirm(f.id).value.SaysConfirmed? ==>
      Ran(st, ConfirmCandidate(round, w, st, f).st, round, f.id, w.confirm(f.id).value.repro, w.confirmRepro(f.id))
    ensures Noted(st, ConfirmCandidate(round, w, st, f).st, TurnTaken(round, CandidateConfirmation, f.id))
    ensures Noted(st, ConfirmCandidate(round, w, st, f).st,
                  Ruled(round, f.id, w.confirm(f.id).value.SaysConfirmed? && Holds(w.confirmRepro(f.id))))
  {
    CandidateIsNoted(round, w, st, f);
    hide Noted;
    match w.confirm(f.id).value
    case SaysDismissed(_) =>
    case SaysConfirmed(_, severity, repro, expected) =>
      var asked := Saw(st, TurnTaken(round, CandidateConfirmation, f.id));
      var promoted := Promote(f, severity, repro, expected);
      RunIsNoted(asked, round, promoted, w.confirmRepro(f.id));
      var ran := RunRepro(asked, round, promoted, w.confirmRepro(f.id));
      hide RunRepro, Ran;
      RanStays(st, asked, ran.st, ConfirmCandidate(round, w, st, f).st, round, f.id, repro, w.confirmRepro(f.id));
  }

  /** The turn first, the ruling last. */
  lemma CandidateIsNoted(round: nat, w: World, st: State, f: Finding)
    requires ConfirmCandidate(round, w, st, f).Go?
    ensures Noted(st, ConfirmCandidate(round, w, st, f).st, TurnTaken(round, CandidateConfirmation, f.id))
    ensures Noted(st, ConfirmCandidate(round, w, st, f).st,
                  Ruled(round, f.id, w.confirm(f.id).value.SaysConfirmed? && Holds(w.confirmRepro(f.id))))
  {
    var journal := ConfirmCandidate(round, w, st, f).st.journal;
    assert journal[|st.journal|] == TurnTaken(round, CandidateConfirmation, f.id);
    assert journal[|journal| - 1] == Ruled(round, f.id, w.confirm(f.id).value.SaysConfirmed? && Holds(w.confirmRepro(f.id)));
  }

  lemma ConfirmOneJudges(round: nat, w: World, st: State, f: Finding)
    requires ConfirmOne(round, w, st, f).Go?
    ensures Judged(st, ConfirmOne(round, w, st, f).st, round, w, st.remembered, f)
  {
    hide Lookup, Put, RunRepro, ConfirmCandidate, Ran, Holds;
    var verdict := Lookup(st.remembered, f.id);
    if f.state == Candidate && !Dismisses(verdict, round) {
      if Closes(verdict) {
        RunIsNoted(st, round, Reopen(f, verdict.value.repro.value), w.recheck(f.id));
      } else {
        CandidateIsJudged(round, w, st, f);
        var asked := ConfirmCandidate(round, w, st, f).st;
        SameNotes(st, asked, ConfirmOne(round, w, st, f).st, round, f.id, w.confirm(f.id).value, w.confirmRepro(f.id));
      }
    }
  }

  lemma SameNotes(st: State, a: State, b: State, round: nat, id: string, answer: CandidateAnswer, run: Attempt<ReproRun>)
    requires a.journal == b.journal
    ensures answer.SaysConfirmed? && Ran(st, a, round, id, answer.repro, run) ==> Ran(st, b, round, id, answer.repro, run)
    ensures forall e :: Noted(st, a, e) ==> Noted(st, b, e)
  {
  }

  lemma {:induction false} ConfirmAllJudges(round: nat, w: World, st: State, fs: seq<Finding>, f: Finding)
    requires UniqueIds(fs) && f in fs && ConfirmAll(round, w, st, fs).Go?
    ensures Judged(st, ConfirmAll(round, w, st, fs).st, round, w, st.remembered, f)
    decreases |fs|
  {
    hide ConfirmOne, Judged, Lookup, Extends;
    var first := ConfirmOne(round, w, st, fs[0]);
    var all := ConfirmAll(round, w, first.st, fs[1..]);
    ConfirmOneExtends(round, w, st, fs[0]);
    ConfirmAllExtends(round, w, first.st, fs[1..]);
    ExtendsSelf(st.journal);
    ExtendsSelf(all.st.journal);
    if f == fs[0] {
      ConfirmOneJudges(round, w, st, f);
      JudgedStays(st, st, first.st, all.st, round, w, st.remembered, f);
    } else {
      assert f in fs[1..];
      var i :| 0 <= i < |fs| && fs[i] == f;
      assert f.id != fs[0].id;
      ConfirmAllJudges(round, w, first.st, fs[1..], f);
      ConfirmOneTouchesItsId(round, w, st, fs[0], f.id);
      JudgedSameMemory(first.st, all.st, round, w, first.st.remembered, st.remembered, f);
      JudgedStays(st, first.st, all.st, all.st, round, w, st.remembered, f);
    }
  }

  lemma JudgedSameMemory(a: State, b: State, round: nat, w: World, x: Memory, y: Memory, f: Finding)
    requires Lookup(x, f.id) == Lookup(y, f.id) && Judged(a, b, round, w, x, f)
    ensures Judged(a, b, round, w, y, f)
  {
  }

  lemma ConfirmOneExtends(round: nat, w: World, st: State, f: Finding)
    ensures Extends(st.journal, ConfirmOne(round, w, st, f).st.journal)
  {
    ConfirmOneIsQuiet(round, w, st, f);
    hide ConfirmOne;
  }

  lemma ConfirmAllExtends(round: nat, w: World, st: State, fs: seq<Finding>)
    ensures Extends(st.journal, ConfirmAll(round, w, st, fs).st.journal)
  {
    ConfirmAllIsQuiet(round, w, st, fs);
    hide ConfirmAll;
  }

  lemma AnalyzeAllExtends(round: nat, w: World, st: State, fs: seq<Finding>)
    ensures Extends(st.journal, AnalyzeAll(round, w, st, fs).st.journal)
  {
    AnalyzeAllIsQuiet(round, w, st, fs);
    hide AnalyzeAll;
  }

  lemma AnalyzeOneExamines(round: nat, w: World, st: State, f: Finding)
    requires AnalyzeOne(round, w, st, f).Go?
    ensures Examined(st, AnalyzeOne(round, w, st, f).st, round, w, st.analyzed, f)
    ensures Extends(st.journal, AnalyzeOne(round, w, st, f).st.journal)
  {
    AnalyzeOneIsQuiet(round, w, st, f);
    if f.source == Fuzzer && f.id !in st.analyzed {
      var a := w.analyze(f.id).value;
      var asked := Saw(st, TurnTaken(round, CrashAnalysisTurn, f.id));
      var proposed := f.(severity := a.severity, expected := a.expected,
                         description := f.description + " Root cause: " + a.rootCause, repro := a.repro);
      RunIsNoted(asked, round, proposed, w.analyzeRepro(f.id));
      var ran := RunRepro(asked, round, proposed, w.analyzeRepro(f.id));
      assert ran.st.journal[|st.journal|] == TurnTaken(round, CrashAnalysisTurn, f.id);
      hide RunRepro, Ran;
      RanStays(st, asked, ran.st, ran.st, round, f.id, a.repro, w.analyzeRepro(f.id));
      SameRun(st, ran.st, AnalyzeOne(round, w, st, f).st, round, f.id, a.repro, w.analyzeRepro(f.id));
    }
  }

  lemma SameRun(st: State, a: State, b: State, round: nat, id: string, repro: string, run: Attempt<ReproRun>)
    requires a.journal == b.journal && Ran(st, a, round, id, repro, run)
    ensures Ran(st, b, round, id, repro, run)
  {
  }

  lemma {:induction false} AnalyzeAllExamines(round: nat, w: World, st: State, fs: seq<Finding>, f: Finding)
    requires UniqueIds(fs) && f in fs && AnalyzeAll(round, w, st, fs).Go?
    ensures Examined(st, AnalyzeAll(round, w, st, fs).st, round, w, st.analyzed, f)
    decreases |fs|
  {
    hide AnalyzeOne, Examined, Extends;
    var first := AnalyzeOne(round, w, st, fs[0]);
    var all := AnalyzeAll(round, w, first.st, fs[1..]);
    AnalyzeOneExamines(round, w, st, fs[0]);
    AnalyzeAllExtends(round, w, first.st, fs[1..]);
    ExtendsSelf(st.journal);
    ExtendsSelf(all.st.journal);
    if f == fs[0] {
      ExaminedStays(st, st, first.st, all.st, round, w, st.analyzed, f);
    } else {
      assert f in fs[1..];
      var i :| 0 <= i < |fs| && fs[i] == f;
      assert f.id != fs[0].id;
      AnalyzeAllExamines(round, w, first.st, fs[1..], f);
      AnalyzeOneIsExact(round, w, st, fs[0]);
      ExaminedSame(first.st, all.st, round, w, first.st.analyzed, st.analyzed, f);
      ExaminedStays(st, first.st, all.st, all.st, round, w, st.analyzed, f);
    }
  }

  lemma ExaminedSame(a: State, b: State, round: nat, w: World, x: set<string>, y: set<string>, f: Finding)
    requires (f.id in x <==> f.id in y) && Examined(a, b, round, w, x, f)
    ensures Examined(a, b, round, w, y, f)
  {
  }

  /** By the time the batch is ready, every finding the round works on has been judged by running the very
      command at issue, and every crash that enters has been examined. */
  lemma BatchIsJudged(cfg: Config, round: nat, w: World, st: State)
    requires Prepare(cfg, round, w, st).Go?
    ensures w.detect.Done?
    ensures var working := Working(cfg, w, st.open);
      var end := Prepare(cfg, round, w, st).st;
      (forall f :: f in working ==> Judged(st, end, round, w, st.remembered, f)) &&
      (forall f :: f in Entering(round, w, st.remembered, working) ==> Examined(st, end, round, w, st.analyzed, f))
  {
    hide Detect, ConfirmAll, AnalyzeAll, Quiet, WithinBar, Entering, Working, Judged, Examined, Extends, Remembers, Lookup;
    var detected := Detect(cfg, round, w, st);
    var working := detected.value.0;
    DetectIsExact(cfg, round, w, st);
    DetectIsQuiet(cfg, round, w, st);
    QuietKeeps(st, detected.st, round, false, false);
    QuietExtends(st, detected.st, round, false, false);
    var all := DetectWorks(cfg, round, w, st);
    WithinBarUnique(all, cfg.severityBar);
    var confirmed := ConfirmAll(round, w, detected.st, working);
    ConfirmAllIsExact(round, w, detected.st, working);
    ConfirmAllGives(round, w, detected.st, working);
    ConfirmAllIsQuiet(round, w, detected.st, working);
    QuietKeeps(detected.st, confirmed.st, round, true, false);
    QuietExtends(detected.st, confirmed.st, round, true, false);
    var analyzed := AnalyzeAll(round, w, confirmed.st, confirmed.value);
    AnalyzeAllExtends(round, w, confirmed.st, confirmed.value);
    ExtendsThen(st.journal, detected.st.journal, confirmed.st.journal);
    ExtendsSelf(analyzed.st.journal);
    forall f | f in working ensures Judged(st, analyzed.st, round, w, st.remembered, f) {
      ConfirmAllJudges(round, w, detected.st, working, f);
      JudgedStays(st, detected.st, confirmed.st, analyzed.st, round, w, st.remembered, f);
    }
    forall f | f in confirmed.value ensures Examined(st, analyzed.st, round, w, st.analyzed, f) {
      AnalyzeAllExamines(round, w, confirmed.st, confirmed.value, f);
      ExaminedStays(st, confirmed.st, analyzed.st, analyzed.st, round, w, st.analyzed, f);
    }
  }

  lemma QuietExtends(a: State, b: State, round: nat, confirms: bool, analyzes: bool)
    requires Quiet(a, b, round, confirms, analyzes)
    ensures Extends(a.journal, b.journal)
  {
  }

  lemma ExtendsThen(a: seq<Event>, b: seq<Event>, c: seq<Event>)
    requires Extends(a, b) && Extends(b, c)
    ensures Extends(a, c)
  {
  }
}
