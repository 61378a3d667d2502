/** The records that cross boundaries are plain data, with no key twice and nothing undefined; and what is
    written of one leaves no other it could be. */
module ContractFacts {
  import opened Basics
  import opened JsonText
  import opened JsonFacts
  import opened Contracts

  lemma PlainPut(fields: Fields, key: string, v: Json)
    requires Plain(Obj(fields)) && Plain(v)
    ensures Plain(Obj(Put(fields, key, v)))
  {
    PlainFieldsPut(fields, key, v);
    PutKeeps(fields, key, v);
  }

  lemma PlainPutSome(fields: Fields, key: string, s: Option<string>)
    requires Plain(Obj(fields))
    ensures Plain(Obj(PutSome(fields, key, OptionText(s))))
  {
    if s.Some? {
      PlainPut(fields, key, Str(s.value));
    }
  }

  lemma VerifyResultIsPlain(r: VerifyResult)
    ensures Plain(VerifyResultJson(r))
  {
    var fields := [
      Slot("finding_id", Str(r.findingId)),
      Slot("outcome", Str(OutcomeText(r.outcome))),
      Slot("exit_code", NullableInt(r.exitCode)),
      Slot("duration_ms", Num(r.durationMs))];
    AllPlain(fields);
    PlainPutSome(fields, "note", r.note);
  }

  lemma {:induction false} VerifyResultsArePlain(rs: seq<VerifyResult>)
    ensures PlainItems(VerifyResultsJson(rs))
  {
    if rs != [] {
      VerifyResultIsPlain(rs[0]);
      VerifyResultsArePlain(rs[1..]);
    }
  }

  lemma VerdictIsPlain(v: FindingVerdict)
    ensures Plain(VerdictJson(v))
  {
    var start := [
      Slot("finding_id", Str(v.findingId)),
      Slot("verdict", Str(if v.verdict.VerdictClosed? then "closed" else "dismissed"))];
    AllPlain(start);
    PlainPutSome(start, "repro_command", v.repro);
    PlainPut(PutSome(start, "repro_command", OptionText(v.repro)), "decided_in_round", Num(v.decidedInRound));
  }

  lemma {:induction false} VerdictsArePlain(vs: seq<FindingVerdict>)
    ensures PlainItems(VerdictsJson(vs))
  {
    if vs != [] {
      VerdictIsPlain(vs[0]);
      VerdictsArePlain(vs[1..]);
    }
  }

  lemma DetectorRunIsPlain(r: DetectorRun)
    ensures Plain(DetectorRunJson(r))
  {
    var first := [Slot("detector", Str(r.detector))];
    AllPlain(first);
    PlainPutSome(first, "harness_id", r.harnessId);
    var start := PutSome(first, "harness_id", OptionText(r.harnessId));
    hide PutSome, Put;
    PlainPut(start, "status", Str(r.status));
    PlainPut(Put(start, "status", Str(r.status)), "duration_ms", Num(r.durationMs));
    var two := Put(Put(start, "status", Str(r.status)), "duration_ms", Num(r.durationMs));
    PlainPut(two, "findings_emitted", Num(r.findingsEmitted));
    PlainPutSome(Put(two, "findings_emitted", Num(r.findingsEmitted)), "note", r.note);
  }

  lemma {:induction false} DetectorRunsArePlain(rs: seq<DetectorRun>)
    ensures PlainItems(DetectorRunsJson(rs))
  {
    hide DetectorRunJson;
    if rs != [] {
      DetectorRunIsPlain(rs[0]);
      DetectorRunsArePlain(rs[1..]);
    }
  }

  lemma TestResultIsPlain(t: TestResult)
    ensures Plain(TestResultJson(t))
  {
    var fields := [
      Slot("status", Str(if t.status.Pass? then "pass" else "fail")),
      Slot("command", Str(t.command)),
      Slot("exit_code", NullableInt(t.exitCode)),
      Slot("duration_ms", Num(t.durationMs))];
    AllPlain(fields);
    PlainPutSome(fields, "note", t.note);
  }

  // ---- nothing is left out ------------------------------------------------------------

  ghost predicate Lacks(fields: Fields, key: string) {
    forall i :: 0 <= i < |fields| ==> fields[i].key != key
  }

  lemma PutSomeIs(fields: Fields, key: string, s: Option<string>)
    requires Lacks(fields, key)
    ensures PutSome(fields, key, OptionText(s)) == fields + (match s case None => [] case Some(text) => [Slot(key, Str(text))])
  {
    LookupFinds(fields, key);
    if s.Some? {
      PutNewAppends(fields, key, Str(s.value));
    }
  }

  /** A field that is left out when there is nothing to say hides nothing. */
  lemma PutSomeTells(a: Fields, b: Fields, key: string, s: Option<string>, t: Option<string>)
    requires Lacks(a, key) && Lacks(b, key)
    requires PutSome(a, key, OptionText(s)) == PutSome(b, key, OptionText(t))
    ensures a == b && s == t
  {
    PutSomeIs(a, key, s);
    PutSomeIs(b, key, t);
    var x, y := PutSome(a, key, OptionText(s)), PutSome(b, key, OptionText(t));
    assert s.Some? <==> |x| > 0 && x[|x| - 1].key == key;
    assert t.Some? <==> |y| > 0 && y[|y| - 1].key == key;
    if s.Some? {
      assert x[|a|] == Slot(key, Str(s.value)) && y[|b|] == Slot(key, Str(t.value));
      assert x[..|a|] == a && y[..|b|] == b;
    }
  }

  lemma NumberTells(m: Option<int>, n: Option<int>)
    requires NullableInt(m) == NullableInt(n)
    ensures m == n
  {
  }

  lemma OutcomeTells(a: Outcome, b: Outcome)
    requires OutcomeText(a) == OutcomeText(b)
    ensures a == b
  {
    assert OutcomeText(a)[0] == OutcomeText(b)[0];
  }

  lemma VerifyResultTells(a: VerifyResult, b: VerifyResult)
    requires VerifyResultJson(a) == VerifyResultJson(b)
    ensures a == b
  {
    var x := [Slot("finding_id", Str(a.findingId)), Slot("outcome", Str(OutcomeText(a.outcome))),
              Slot("exit_code", NullableInt(a.exitCode)), Slot("duration_ms", Num(a.durationMs))];
    var y := [Slot("finding_id", Str(b.findingId)), Slot("outcome", Str(OutcomeText(b.outcome))),
              Slot("exit_code", NullableInt(b.exitCode)), Slot("duration_ms", Num(b.durationMs))];
    hide OutcomeText, PutSome;
    assert "note"[0] == 'n';
    PutSomeTells(x, y, "note", a.note, b.note);
    assert x[0] == y[0] && x[1] == y[1] && x[2] == y[2] && x[3] == y[3];
    OutcomeTells(a.outcome, b.outcome);
    NumberTells(a.exitCode, b.exitCode);
  }

  lemma TestResultTells(a: TestResult, b: TestResult)
    requires TestResultJson(a) == TestResultJson(b)
    ensures a == b
  {
    var x := [Slot("status", Str(if a.status.Pass? then "pass" else "fail")), Slot("command", Str(a.command)),
              Slot("exit_code", NullableInt(a.exitCode)), Slot("duration_ms", Num(a.durationMs))];
    var y := [Slot("status", Str(if b.status.Pass? then "pass" else "fail")), Slot("command", Str(b.command)),
              Slot("exit_code", NullableInt(b.exitCode)), Slot("duration_ms", Num(b.durationMs))];
    hide PutSome;
    assert "note"[0] == 'n';
    PutSomeTells(x, y, "note", a.note, b.note);
    assert x[0] == y[0] && x[1] == y[1] && x[2] == y[2] && x[3] == y[3];
    assert "pass"[0] != "fail"[0];
    NumberTells(a.exitCode, b.exitCode);
  }

  lemma VerdictTells(a: FindingVerdict, b: FindingVerdict)
    requires VerdictJson(a) == VerdictJson(b)
    ensures a == b
  {
    var x := [Slot("finding_id", Str(a.findingId)), Slot("verdict", Str(if a.verdict.VerdictClosed? then "closed" else "dismissed"))];
    var y := [Slot("finding_id", Str(b.findingId)), Slot("verdict", Str(if b.verdict.VerdictClosed? then "closed" else "dismissed"))];
    assert "repro_command"[0] == 'r' && "decided_in_round"[0] == 'd' && "closed"[0] != "dismissed"[0];
    PutSomeIs(x, "repro_command", a.repro);
    PutSomeIs(y, "repro_command", b.repro);
    var m, n := PutSome(x, "repro_command", OptionText(a.repro)), PutSome(y, "repro_command", OptionText(b.repro));
    hide PutSome;
    LookupFinds(m, "decided_in_round");
    LookupFinds(n, "decided_in_round");
    PutNewAppends(m, "decided_in_round", Num(a.decidedInRound));
    PutNewAppends(n, "decided_in_round", Num(b.decidedInRound));
    hide Lookup, Put;
    assert (m + [Slot("decided_in_round", Num(a.decidedInRound))])[|m|] == (n + [Slot("decided_in_round", Num(b.decidedInRound))])[|m|];
    assert (m + [Slot("decided_in_round", Num(a.decidedInRound))])[..|m|] == m;
    assert (n + [Slot("decided_in_round", Num(b.decidedInRound))])[..|n|] == n;
    PutSomeTells(x, y, "repro_command", a.repro, b.repro);
    assert x[0] == y[0] && x[1] == y[1];
  }

  lemma {:induction false} VerifyResultsTell(a: seq<VerifyResult>, b: seq<VerifyResult>)
    requires VerifyResultsJson(a) == VerifyResultsJson(b)
    ensures a == b
  {
    hide VerifyResultJson;
    if a != [] && b != [] {
      Behead(VerifyResultJson(a[0]), VerifyResultsJson(a[1..]));
      Behead(VerifyResultJson(b[0]), VerifyResultsJson(b[1..]));
      VerifyResultTells(a[0], b[0]);
      VerifyResultsTell(a[1..], b[1..]);
      assert a == [a[0]] + a[1..] && b == [b[0]] + b[1..];
    }
  }

  lemma {:induction false} VerdictsTell(a: seq<FindingVerdict>, b: seq<FindingVerdict>)
    requires VerdictsJson(a) == VerdictsJson(b)
    ensures a == b
  {
    hide VerdictJson;
    if a != [] && b != [] {
      Behead(VerdictJson(a[0]), VerdictsJson(a[1..]));
      Behead(VerdictJson(b[0]), VerdictsJson(b[1..]));
      VerdictTells(a[0], b[0]);
      VerdictsTell(a[1..], b[1..]);
      assert a == [a[0]] + a[1..] && b == [b[0]] + b[1..];
    }
  }

  // ---- the batch ----------------------------------------------------------------------

  lemma SourceTells(a: Source, b: Source)
    requires SourceText(a) == SourceText(b)
    ensures a == b
  {
    assert |SourceText(a)| == |SourceText(b)| && SourceText(a)[0] == SourceText(b)[0];
    assert |SourceText(a)| > 2 && SourceText(a)[2] == SourceText(b)[2];
  }

  lemma SeverityTells(a: Severity, b: Severity)
    requires SeverityText(a) == SeverityText(b)
    ensures a == b
  {
    assert SeverityText(a)[0] == SeverityText(b)[0];
  }

  lemma ConfirmationTells(a: Confirmation, b: Confirmation)
    requires ConfirmationText(a) == ConfirmationText(b)
    ensures a == b
  {
    assert |ConfirmationText(a)| == |ConfirmationText(b)| && ConfirmationText(a)[0] == ConfirmationText(b)[0];
    assert ConfirmationText(a)[1] == ConfirmationText(b)[1];
  }

  function StartFields(f: Finding): Fields {
    [Slot("id", Str(f.id)), Slot("source", Str(SourceText(f.source))), Slot("confirmation_state", Str(ConfirmationText(f.state))),
     Slot("severity", Str(SeverityText(f.severity))), Slot("class", Str(f.bugClass)), Slot("file", Str(f.file))]
  }

  function LineFields(f: Finding): Fields {
    match f.line case None => [] case Some(n) => [Slot("line", Num(n))]
  }

  function TextFields(f: Finding): Fields {
    [Slot("description", Str(f.description)), Slot("repro_command", Str(f.repro)),
     Slot("expected_secure_behavior", Str(f.expected))]
  }

  lemma PartsTell(f: Finding, g: Finding)
    requires StartFields(f) + LineFields(f) + TextFields(f) == StartFields(g) + LineFields(g) + TextFields(g)
    ensures StartFields(f) == StartFields(g) && f.line == g.line && TextFields(f) == TextFields(g)
  {
    var x, y := StartFields(f) + LineFields(f) + TextFields(f), StartFields(g) + LineFields(g) + TextFields(g);
    hide SourceText, SeverityText, ConfirmationText;
    assert x[..6] == StartFields(f) && y[..6] == StartFields(g);
    assert x[|x| - 3..] == TextFields(f) && y[|y| - 3..] == TextFields(g);
    if f.line.Some? {
      assert x[6] == Slot("line", Num(f.line.value)) && y[6] == Slot("line", Num(g.line.value));
    }
  }

  /** What is written of a finding is all of it. */
  lemma FindingTells(f: Finding, g: Finding)
    requires FindingJson(f) == FindingJson(g)
    ensures f == g
  {
    var x, y := StartFields(f) + LineFields(f) + TextFields(f), StartFields(g) + LineFields(g) + TextFields(g);
    hide SourceText, SeverityText, ConfirmationText, PutSome;
    NoArtifactYet(f);
    NoArtifactYet(g);
    PutSomeTells(x, y, "crash_artifact", f.artifact, g.artifact);
    PartsTell(f, g);
    var a, b := StartFields(f), StartFields(g);
    assert a[0] == b[0] && a[1] == b[1] && a[2] == b[2] && a[3] == b[3] && a[4] == b[4] && a[5] == b[5];
    var c, d := TextFields(f), TextFields(g);
    assert c[0] == d[0] && c[1] == d[1] && c[2] == d[2];
    SourceTells(f.source, g.source);
    SeverityTells(f.severity, g.severity);
    ConfirmationTells(f.state, g.state);
  }

  lemma NoArtifactYet(f: Finding)
    ensures Lacks(StartFields(f) + LineFields(f) + TextFields(f), "crash_artifact")
  {
    hide SourceText, SeverityText, ConfirmationText;
    assert |"crash_artifact"| == 14 && |"confirmation_state"| == 18 && |"class"| == 5;
  }

  lemma {:induction false} FindingsTell(a: seq<Finding>, b: seq<Finding>)
    requires FindingsJson(a) == FindingsJson(b)
    ensures a == b
  {
    hide FindingJson;
    if a != [] && b != [] {
      Behead(FindingJson(a[0]), FindingsJson(a[1..]));
      Behead(FindingJson(b[0]), FindingsJson(b[1..]));
      FindingTells(a[0], b[0]);
      FindingsTell(a[1..], b[1..]);
      assert a == [a[0]] + a[1..] && b == [b[0]] + b[1..];
    }
  }

  /** The batch that is hashed into an entry is the whole batch of that round: no other gives the same data. */
  lemma BatchTells(m: nat, a: seq<Finding>, n: nat, b: seq<Finding>)
    requires BatchJson(m, a) == BatchJson(n, b)
    ensures m == n && a == b
  {
    hide FindingsJson;
    var x, y := BatchJson(m, a).fields, BatchJson(n, b).fields;
    assert x[0] == y[0] && x[1] == y[1];
    FindingsTell(a, b);
  }

  // ---- the fix report -----------------------------------------------------------------

  lemma {:induction false} TextsTell(a: seq<string>, b: seq<string>)
    requires TextsJson(a) == TextsJson(b)
    ensures a == b
  {
    if a != [] && b != [] {
      Behead(Str(a[0]), TextsJson(a[1..]));
      Behead(Str(b[0]), TextsJson(b[1..]));
      TextsTell(a[1..], b[1..]);
      assert a == [a[0]] + a[1..] && b == [b[0]] + b[1..];
    }
  }

  function OneFix(fix: Fix): Fields {
    [Slot("finding_id", Str(fix.findingId)), Slot("files_changed", Arr(TextsJson(fix.filesChanged))), Slot("summary", Str(fix.summary))]
  }

  lemma {:induction false} FixesTell(a: seq<Fix>, b: seq<Fix>)
    requires FixesJson(a) == FixesJson(b)
    ensures a == b
  {
    hide TextsJson;
    if a != [] && b != [] {
      Behead(Obj(OneFix(a[0])), FixesJson(a[1..]));
      Behead(Obj(OneFix(b[0])), FixesJson(b[1..]));
      var x, y := OneFix(a[0]), OneFix(b[0]);
      assert x == y;
      assert x[0] == y[0] && x[1] == y[1] && x[2] == y[2];
      TextsTell(a[0].filesChanged, b[0].filesChanged);
      FixesTell(a[1..], b[1..]);
      assert a == [a[0]] + a[1..] && b == [b[0]] + b[1..];
    }
  }

  /** And the fix report that is hashed is the whole report. */
  lemma FixReportTells(a: FixReport, b: FixReport)
    requires FixReportJson(a) == FixReportJson(b)
    ensures a == b
  {
    hide FixesJson;
    var x, y := FixReportJson(a).fields, FixReportJson(b).fields;
    assert x[0] == y[0] && x[1] == y[1] && x[2] == y[2];
    assert "claude"[0] != "grok"[0];
    FixesTell(a.fixes, b.fixes);
  }
}
