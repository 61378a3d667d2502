/** Verdict memory: every verdict has its evidence, a closure is never taken back, and neither is
    bought twice. */
module BrokerMemory {
  import opened Basics
  import opened Contracts
  import opened Gates
  import opened BrokerModel
  import opened BrokerFrames

  // ---- what a verdict rests on --------------------------------------------------------

  /** A completed round whose verify results close this id with this repro. */
  ghost predicate ClosedIn(rec: Record, id: string, repro: string) {
    exists k :: 0 <= k < |rec.batch| && k < |rec.verifyResults| &&
      rec.batch[k].id == id && rec.batch[k].repro == repro &&
      rec.verifyResults[k].findingId == id && rec.verifyResults[k].outcome == Closed
  }

  /** One of the first `upTo` entries is that round. */
  ghost predicate ClosedBy(entries: seq<Record>, upTo: nat, id: string, repro: string, round: nat) {
    exists j :: 0 <= j < upTo && j < |entries| && entries[j].round == round && ClosedIn(entries[j], id, repro)
  }

  /** The broker ruled on this id and no working repro came of it. */
  ghost predicate Against(e: Event, id: string) {
    e.Ruled? && !e.confirmed && e.id == id
  }

  /** A confirmation turn bought for this id. */
  ghost predicate Asks(e: Event, id: string) {
    e.TurnTaken? && e.subtask.CandidateConfirmation? && e.id == id
  }

  ghost predicate RuledAgainst(journal: seq<Event>, id: string, round: nat) {
    exists k :: 0 <= k < |journal| && journal[k] == Ruled(round, id, false)
  }

  /** A closure names a round of this run that closed the id with that repro; a dismissal names a
      round in which the broker ruled against it. */
  ghost predicate VerdictOk(entries: seq<Record>, upTo: nat, journal: seq<Event>, v: FindingVerdict) {
    if v.verdict.VerdictClosed?
    then v.repro.Some? && ClosedBy(entries, upTo, v.findingId, v.repro.value, v.decidedInRound)
    else RuledAgainst(journal, v.findingId, v.decidedInRound)
  }

  /** One verdict per id, each with its evidence. */
  ghost predicate VerdictsOk(entries: seq<Record>, upTo: nat, journal: seq<Event>, vs: seq<FindingVerdict>) {
    (forall m, n :: 0 <= m < n < |vs| ==> vs[m].findingId != vs[n].findingId) &&
    (forall n :: 0 <= n < |vs| ==> VerdictOk(entries, upTo, journal, vs[n]))
  }

  /** An entry's verdicts rest on that entry or an earlier one. */
  ghost predicate Backed(entries: seq<Record>, journal: seq<Event>) {
    forall i :: 0 <= i < |entries| ==> VerdictsOk(entries, i + 1, journal, entries[i].verdicts)
  }

  // ---- how verdicts and turns relate over a run ---------------------------------------

  ghost predicate RecordsClosed(rec: Record, id: string) {
    exists n :: 0 <= n < |rec.verdicts| && rec.verdicts[n].findingId == id && rec.verdicts[n].verdict.VerdictClosed?
  }

  /** Two rulings against one id are at least five rounds apart. */
  ghost predicate Spaced(journal: seq<Event>) {
    forall i, j :: 0 <= i < j < |journal| && journal[i].Ruled? && Against(journal[j], journal[i].id) ==>
      journal[i].confirmed || journal[i].round + 5 <= journal[j].round
  }

  /** No confirmation turn is taken about an id after a round that recorded it closed. */
  ghost predicate ClosedIsSettled(entries: seq<Record>, journal: seq<Event>) {
    forall i, k :: 0 <= i < |entries| && 0 <= k < |journal| && journal[k].TurnTaken? ==>
      Asks(journal[k], journal[k].id) && RecordsClosed(entries[i], journal[k].id) ==> journal[k].round <= entries[i].round
  }

  /** Later verdicts continue earlier ones: same ids in the same places, closed ones still closed. */
  ghost predicate GrowsTo(a: seq<FindingVerdict>, b: seq<FindingVerdict>) {
    |a| <= |b| &&
    forall i :: 0 <= i < |a| ==>
      a[i].findingId == b[i].findingId && (a[i].verdict.VerdictClosed? ==> b[i].verdict.VerdictClosed?)
  }

  ghost predicate VerdictsGrow(entries: seq<Record>) {
    forall i, j :: 0 <= i < j < |entries| ==> GrowsTo(entries[i].verdicts, entries[j].verdicts)
  }

  /** What holds of the record at every moment of a run, even one that stops in the middle of a round. */
  ghost predicate Lasting(entries: seq<Record>, journal: seq<Event>) {
    Spaced(journal) && ClosedIsSettled(entries, journal) && Backed(entries, journal) && VerdictsGrow(entries)
  }

  // ---- the invariant ------------------------------------------------------------------

  ghost predicate MemoryOk(st: State) {
    DistinctKeys(st.remembered) &&
    forall i :: 0 <= i < |st.remembered| ==>
      st.remembered[i].key == st.remembered[i].value.findingId &&
      VerdictOk(st.entries, |st.entries|, st.journal, st.remembered[i].value)
  }

  ghost predicate Outlives(v: Option<FindingVerdict>, round: nat) {
    v.Some? && (v.value.verdict.VerdictDismissed? ==> round <= v.value.decidedInRound)
  }

  /** Every ruling against an id is still remembered, as a closure or as a dismissal no older. */
  ghost predicate RulingsKept(memory: Memory, journal: seq<Event>) {
    forall k :: 0 <= k < |journal| && journal[k].Ruled? ==>
      journal[k].confirmed || Outlives(Lookup(memory, journal[k].id), journal[k].round)
  }

  ghost predicate UpTo(journal: seq<Event>, round: nat) {
    forall k :: 0 <= k < |journal| ==> journal[k].round <= round
  }

  ghost predicate PastGrows(entries: seq<Record>, memory: Memory) {
    forall i :: 0 <= i < |entries| ==> GrowsTo(entries[i].verdicts, Verdicts(memory))
  }

  /** What holds whenever the broker is between two findings of a round or between two rounds. */
  ghost predicate MemoryInv(st: State, round: nat) {
    Lasting(st.entries, st.journal) && MemoryOk(st) && RulingsKept(st.remembered, st.journal) &&
    PastGrows(st.entries, st.remembered) && UpTo(st.journal, round)
  }

  // ---- frames -------------------------------------------------------------------------

  lemma BackedExtends(entries: seq<Record>, a: seq<Event>, b: seq<Event>)
    requires Backed(entries, a) && Extends(a, b)
    ensures Backed(entries, b)
  {
  }

  lemma MemoryOkExtends(a: State, b: State)
    requires MemoryOk(a) && Extends(a.journal, b.journal) && a.remembered == b.remembered && a.entries == b.entries
    ensures MemoryOk(b)
  {
  }

  /** Events that are neither confirmation turns nor rulings change nothing here. */
  lemma QuietKeepsLasting(entries: seq<Record>, a: seq<Event>, b: seq<Event>)
    requires Lasting(entries, a) && Extends(a, b)
    requires forall k :: |a| <= k < |b| ==> !IsConfirmEvent(b[k])
    ensures Lasting(entries, b)
  {
  }

  /** A phase that takes no confirmation turn keeps the invariant. */
  lemma QuietKeepsMemory(a: State, b: State, round: nat, analyzes: bool)
    requires MemoryInv(a, round) && Quiet(a, b, round, false, analyzes)
    ensures MemoryInv(b, round)
  {
  }

  // ---- buying a turn ------------------------------------------------------------------

  /** A turn is only ever bought when memory has nothing that still counts. */
  ghost predicate MayAsk(memory: Memory, round: nat, id: string) {
    !CarriedDismissal(Lookup(memory, id), round) && !CarriedClosure(Lookup(memory, id))
  }

  ghost predicate IsClosed(memory: Memory, id: string) {
    Lookup(memory, id).Some? && Lookup(memory, id).value.verdict.VerdictClosed?
  }

  lemma LookupIsOk(st: State, id: string)
    requires MemoryOk(st) && Lookup(st.remembered, id).Some?
    ensures Lookup(st.remembered, id).value.findingId == id
    ensures VerdictOk(st.entries, |st.entries|, st.journal, Lookup(st.remembered, id).value)
  {
    LookupFinds(st.remembered, id);
  }

  lemma MayAskMeans(st: State, round: nat, id: string)
    requires MemoryInv(st, round) && MayAsk(st.remembered, round, id)
    ensures !IsClosed(st.remembered, id)
    ensures forall k :: 0 <= k < |st.journal| && Against(st.journal[k], id) ==> st.journal[k].round + DISMISSAL_LIFE <= round
  {
    if Lookup(st.remembered, id).Some? {
      LookupIsOk(st, id);
    }
  }

  /** An id that is not closed in memory is closed in no entry. */
  lemma OpenInMemoryOpenInHistory(st: State, round: nat, id: string)
    requires MemoryInv(st, round) && !IsClosed(st.remembered, id)
    ensures forall i :: 0 <= i < |st.entries| ==> !RecordsClosed(st.entries[i], id)
  {
    forall i | 0 <= i < |st.entries| ensures !RecordsClosed(st.entries[i], id) {
      if n :| 0 <= n < |st.entries[i].verdicts| && st.entries[i].verdicts[n].findingId == id &&
              st.entries[i].verdicts[n].verdict.VerdictClosed? {
        assert GrowsTo(st.entries[i].verdicts, Verdicts(st.remembered));
        assert Verdicts(st.remembered)[n] == st.remembered[n].value;
        LookupAt(st.remembered, n);
      }
    }
  }

  /** One event that is not a ruling against anything. */
  lemma EventKeepsMemory(st: State, round: nat, e: Event)
    requires MemoryInv(st, round) && e.round <= round && (e.Ruled? ==> e.confirmed)
    requires e.TurnTaken? && Asks(e, e.id) ==> forall i :: 0 <= i < |st.entries| ==> !RecordsClosed(st.entries[i], e.id)
    ensures MemoryInv(Saw(st, e), round)
  {
    var next := Saw(st, e);
    MemoryOkExtends(st, next);
    BackedExtends(st.entries, st.journal, next.journal);
    hide MemoryOk, Backed, RecordsClosed, PastGrows, VerdictsGrow, Outlives, Lookup;
  }

  lemma RulingKeepsLasting(st: State, round: nat, id: string)
    requires Lasting(st.entries, st.journal)
    requires forall k :: 0 <= k < |st.journal| && Against(st.journal[k], id) ==> st.journal[k].round + DISMISSAL_LIFE <= round
    ensures Lasting(st.entries, st.journal + [Ruled(round, id, false)])
  {
    BackedExtends(st.entries, st.journal, st.journal + [Ruled(round, id, false)]);
    hide Backed, RecordsClosed, VerdictsGrow;
  }

  lemma DismissKeepsRulings(memory: Memory, journal: seq<Event>, round: nat, id: string)
    requires RulingsKept(memory, journal)
    requires UpTo(journal, round)
    ensures RulingsKept(Put(memory, id, FindingVerdict(id, VerdictDismissed, None, round)),
                        journal + [Ruled(round, id, false)])
  {
    var v := FindingVerdict(id, VerdictDismissed, None, round);
    var after := journal + [Ruled(round, id, false)];
    forall k | 0 <= k < |after| && after[k].Ruled?
      ensures after[k].confirmed || Outlives(Lookup(Put(memory, id, v), after[k].id), after[k].round)
    {
      LookupPut(memory, id, v, after[k].id);
      if k < |journal| {
        assert after[k] == journal[k];
      }
    }
  }

  // ---- writing a verdict --------------------------------------------------------------

  lemma PutKeepsMemoryOk(st: State, id: string, v: FindingVerdict)
    requires MemoryOk(st) && v.findingId == id && VerdictOk(st.entries, |st.entries|, st.journal, v)
    ensures MemoryOk(st.(remembered := Put(st.remembered, id, v)))
  {
    hide VerdictOk;
    PutKeeps(st.remembered, id, v);
    PutSlots(st.remembered, id, v);
  }

  /** Writing a verdict continues every earlier list of verdicts, unless it takes back a closure. */
  lemma PutGrows(past: seq<FindingVerdict>, memory: Memory, id: string, v: FindingVerdict)
    requires DistinctKeys(memory) && GrowsTo(past, Verdicts(memory))
    requires forall i :: 0 <= i < |memory| ==> memory[i].key == memory[i].value.findingId
    requires v.findingId == id && (IsClosed(memory, id) ==> v.verdict.VerdictClosed?)
    ensures GrowsTo(past, Verdicts(Put(memory, id, v)))
  {
    PutSlots(memory, id, v);
    var after := Verdicts(Put(memory, id, v));
    forall i | 0 <= i < |past|
      ensures i < |after| && past[i].findingId == after[i].findingId &&
        (past[i].verdict.VerdictClosed? ==> after[i].verdict.VerdictClosed?)
    {
      assert Verdicts(memory)[i] == memory[i].value;
      LookupAt(memory, i);
    }
  }

  lemma PutKeepsPast(st: State, id: string, v: FindingVerdict)
    requires MemoryOk(st) && PastGrows(st.entries, st.remembered)
    requires v.findingId == id && (IsClosed(st.remembered, id) ==> v.verdict.VerdictClosed?)
    ensures PastGrows(st.entries, Put(st.remembered, id, v))
  {
    forall i | 0 <= i < |st.entries| ensures GrowsTo(st.entries[i].verdicts, Verdicts(Put(st.remembered, id, v))) {
      PutGrows(st.entries[i].verdicts, st.remembered, id, v);
    }
  }

  /** Ruling against an id and remembering it, in one step. */
  lemma DismissKeepsMemory(st: State, round: nat, id: string)
    requires MemoryInv(st, round) && MayAsk(st.remembered, round, id)
    ensures MemoryInv(Remember(Saw(st, Ruled(round, id, false)), FindingVerdict(id, VerdictDismissed, None, round)), round)
  {
    var v := FindingVerdict(id, VerdictDismissed, None, round);
    var seen := Saw(st, Ruled(round, id, false));
    MayAskMeans(st, round, id);
    RulingKeepsLasting(st, round, id);
    DismissKeepsRulings(st.remembered, st.journal, round, id);
    MemoryOkExtends(st, seen);
    assert seen.journal[|st.journal|] == Ruled(round, id, false);
    assert VerdictOk(st.entries, |st.entries|, seen.journal, v);
    PutKeepsMemoryOk(seen, id, v);
    PutKeepsPast(st, id, v);
    hide MemoryOk, Lasting, RulingsKept, PastGrows, VerdictOk, Put, Lookup;
  }

  // ---- CONFIRM ------------------------------------------------------------------------

  lemma ConfirmCandidateKeepsMemory(round: nat, w: World, st: State, f: Finding)
    requires MemoryInv(st, round) && MayAsk(st.remembered, round, f.id)
    ensures var r := ConfirmCandidate(round, w, st, f);
      match r
      case Halt(st1, _) => Lasting(st1.entries, st1.journal)
      case Go(st1, Some(_)) => MemoryInv(st1, round)
      case Go(st1, None) => MemoryInv(Remember(st1, FindingVerdict(f.id, VerdictDismissed, None, round)), round)
  {
    var asked := Saw(st, TurnTaken(round, CandidateConfirmation, f.id));
    MayAskMeans(st, round, f.id);
    OpenInMemoryOpenInHistory(st, round, f.id);
    EventKeepsMemory(st, round, TurnTaken(round, CandidateConfirmation, f.id));
    hide MayAsk, MemoryOk, Lasting, RulingsKept, PastGrows, UpTo, RecordsClosed, VerifyOne, Put, Lookup;
    match w.confirm(f.id)
    case TurnAborted =>
    case TurnFailed =>
    case Answered(answer) =>
      if answer.findingId == f.id {
        match answer
        case SaysDismissed(_) => DismissKeepsMemory(asked, round, f.id);
        case SaysConfirmed(_, severity, repro, expected) =>
          match w.confirmRepro(f.id)
          case Threw =>
          case Done(run) =>
            var e := ReproRan(round, f.id, repro, VerifyOne(Promote(f, severity, repro, expected), run).outcome);
            EventKeepsMemory(asked, round, e);
            if e.outcome == Survived {
              EventKeepsMemory(Saw(asked, e), round, Ruled(round, f.id, true));
            } else {
              DismissKeepsMemory(Saw(asked, e), round, f.id);
            }
      }
  }

  lemma ConfirmOneKeepsMemory(round: nat, w: World, st: State, f: Finding)
    requires MemoryInv(st, round)
    ensures var r := ConfirmOne(round, w, st, f);
      Lasting(r.st.entries, r.st.journal) && (r.Go? ==> MemoryInv(r.st, round))
  {
    var carried := Lookup(st.remembered, f.id);
    if f.state.Candidate? && !CarriedDismissal(carried, round) {
      if CarriedClosure(carried) {
        var reopened := Reopen(f, carried.value.repro.value);
        if w.recheck(f.id).Done? {
          EventKeepsMemory(st, round, ReproRan(round, f.id, reopened.repro, VerifyOne(reopened, w.recheck(f.id).value).outcome));
        }
      } else {
        ConfirmCandidateKeepsMemory(round, w, st, f);
      }
    }
    hide ConfirmCandidate, MemoryOk, Lasting, RulingsKept, PastGrows, UpTo, VerifyOne, Put, Lookup;
  }

  lemma {:induction false} ConfirmAllKeepsMemory(round: nat, w: World, st: State, fs: seq<Finding>)
    requires MemoryInv(st, round)
    ensures var r := ConfirmAll(round, w, st, fs);
      Lasting(r.st.entries, r.st.journal) && (r.Go? ==> MemoryInv(r.st, round))
    decreases |fs|
  {
    if fs != [] {
      ConfirmOneKeepsMemory(round, w, st, fs[0]);
      var first := ConfirmOne(round, w, st, fs[0]);
      hide ConfirmOne, Lasting, MemoryOk, RulingsKept, PastGrows, UpTo;
      if first.Go? {
        ConfirmAllKeepsMemory(round, w, first.st, fs[1..]);
      }
    }
  }

  lemma PrepareKeepsMemory(cfg: Config, round: nat, w: World, st: State)
    requires MemoryInv(st, round)
    ensures var r := Prepare(cfg, round, w, st);
      Lasting(r.st.entries, r.st.journal) && (r.Go? ==> MemoryInv(r.st, round))
  {
    hide Detect, ConfirmAll, AnalyzeAll, Quiet, Lasting, MemoryOk, RulingsKept, PastGrows, UpTo;
    var detected := Detect(cfg, round, w, st);
    DetectIsQuiet(cfg, round, w, st);
    QuietKeepsMemory(st, detected.st, round, false);
    if detected.Go? {
      var confirmed := ConfirmAll(round, w, detected.st, detected.value.0);
      ConfirmAllKeepsMemory(round, w, detected.st, detected.value.0);
      if confirmed.Go? {
        AnalyzeAllIsQuiet(round, w, confirmed.st, confirmed.value);
        QuietKeepsMemory(confirmed.st, AnalyzeAll(round, w, confirmed.st, confirmed.value).st, round, true);
      }
    }
  }
}
