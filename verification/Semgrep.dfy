/** The outermost-match filter of src/detection/semgrep.ts. */
module Semgrep {
  import opened Basics

  /** What the filter looks at. The end object and either offset may be missing. */
  datatype Match = Match(checkId: string, path: string, start: Option<nat>, end: Option<nat>, extra: string)

  predicate Located(m: Match) {
    m.start.Some? && m.end.Some?
  }

  predicate Contains(outer: Match, inner: Match) {
    if !Located(outer) || !Located(inner) then false
    else
      var sameSpan := outer.start == inner.start && outer.end == inner.end;
      !sameSpan && outer.start.value <= inner.start.value && inner.end.value <= outer.end.value
  }

  /** The other match is the outer spelling of this one. */
  predicate Covers(other: Match, candidate: Match) {
    other.checkId == candidate.checkId && other.path == candidate.path && Contains(other, candidate)
  }

  predicate IsOutermost(results: seq<Match>, candidate: Match) {
    forall i :: 0 <= i < |results| ==> !Covers(results[i], candidate)
  }

  function KeepOutermost(results: seq<Match>, among: seq<Match>): seq<Match> {
    if among == [] then []
    else (if IsOutermost(results, among[0]) then [among[0]] else []) + KeepOutermost(results, among[1..])
  }

  function OutermostMatches(results: seq<Match>): seq<Match> {
    KeepOutermost(results, results)
  }

  // ---- covering is a strict order -----------------------------------------------------

  lemma {:induction false} KeptMember(results: seq<Match>, among: seq<Match>, m: Match)
    ensures m in KeepOutermost(results, among) <==> m in among && IsOutermost(results, m)
  {
    if among != [] {
      KeptMember(results, among[1..], m);
    }
  }

  /** How many bytes a match leaves of the largest there is: what shrinks on the way outwards. */
  function Room(results: seq<Match>): nat {
    if results == [] then 0
    else
      var rest := Room(results[1..]);
      if Located(results[0]) && results[0].end.value > rest then results[0].end.value else rest
  }

  lemma {:induction false} WithinRoom(results: seq<Match>, m: Match)
    requires m in results && Located(m)
    ensures m.end.value <= Room(results)
  {
    if m != results[0] {
      WithinRoom(results[1..], m);
    }
  }

  /** Going outwards from a covered match ends at an outermost one that covers it. */
  lemma {:induction false} OutermostCover(results: seq<Match>, m: Match) returns (outer: Match)
    requires m in results && !IsOutermost(results, m)
    ensures outer in results && IsOutermost(results, outer) && Covers(outer, m)
    decreases m.start.value + (Room(results) - m.end.value)
  {
    var i :| 0 <= i < |results| && Covers(results[i], m);
    var other := results[i];
    WithinRoom(results, m);
    WithinRoom(results, other);
    if IsOutermost(results, other) {
      outer := other;
    } else {
      outer := OutermostCover(results, other);
    }
  }

  // ---- what the filter keeps ----------------------------------------------------------

  /** The same matches in the same order, some of them left out. */
  predicate IsSubsequence(s: seq<Match>, t: seq<Match>) {
    s == [] || (t != [] && ((s[0] == t[0] && IsSubsequence(s[1..], t[1..])) || IsSubsequence(s, t[1..])))
  }

  lemma {:induction false} KeptInOrder(results: seq<Match>, among: seq<Match>)
    ensures IsSubsequence(KeepOutermost(results, among), among)
  {
    if among != [] {
      KeptInOrder(results, among[1..]);
      if IsOutermost(results, among[0]) {
      } else {
        assert [] + KeepOutermost(results, among[1..]) == KeepOutermost(results, among[1..]);
      }
    }
  }

  /** A kept match is kept as often as it was reported. */
  lemma {:induction false} KeptAsOften(results: seq<Match>, among: seq<Match>, m: Match)
    requires IsOutermost(results, m)
    ensures multiset(KeepOutermost(results, among))[m] == multiset(among)[m]
  {
    if among != [] {
      KeptAsOften(results, among[1..], m);
      assert among == [among[0]] + among[1..];
    }
  }

  /** No kept match covers another; every match that was dropped is covered by one that was kept; a
      match without offsets always stays. */
  lemma KeepsTheOutermost(results: seq<Match>)
    ensures forall a, b :: a in OutermostMatches(results) && b in OutermostMatches(results) ==> !Covers(a, b)
    ensures forall m :: m in results && m !in OutermostMatches(results) ==>
      exists outer :: outer in OutermostMatches(results) && Covers(outer, m)
    ensures forall m :: m in results && !Located(m) ==> m in OutermostMatches(results)
    ensures forall m :: m in OutermostMatches(results) ==> m in results
    ensures IsSubsequence(OutermostMatches(results), results)
  {
    var kept := OutermostMatches(results);
    KeptInOrder(results, results);
    forall m ensures m in kept <==> m in results && IsOutermost(results, m) {
      KeptMember(results, results, m);
    }
    forall a, b | a in kept && b in kept ensures !Covers(a, b) {
      var i :| 0 <= i < |results| && results[i] == a;
    }
    forall m | m in results && m !in kept ensures exists outer :: outer in kept && Covers(outer, m) {
      var outer := OutermostCover(results, m);
      assert outer in kept;
    }
  }

  lemma {:induction false} KeepsAll(results: seq<Match>, among: seq<Match>)
    requires forall m :: m in among ==> IsOutermost(results, m)
    ensures KeepOutermost(results, among) == among
  {
    if among != [] {
      KeepsAll(results, among[1..]);
    }
  }

  /** Filtering again changes nothing. */
  lemma FilterIsIdempotent(results: seq<Match>)
    ensures OutermostMatches(OutermostMatches(results)) == OutermostMatches(results)
  {
    KeepsTheOutermost(results);
    KeepsAll(OutermostMatches(results), OutermostMatches(results));
  }

  /** What is dropped, offset by offset: a match that another of the same rule and file spans from no later
      to no earlier, unless they span the same. */
  lemma KeptIff(results: seq<Match>, m: Match)
    ensures m in OutermostMatches(results) <==>
      m in results &&
      !exists o :: o in results && o.checkId == m.checkId && o.path == m.path &&
        o.start.Some? && o.end.Some? && m.start.Some? && m.end.Some? &&
        o.start.value <= m.start.value && m.end.value <= o.end.value &&
        (o.start.value < m.start.value || m.end.value < o.end.value)
  {
    KeptMember(results, results, m);
    if o :| o in results && Covers(o, m) {
      var i :| 0 <= i < |results| && results[i] == o;
      assert Covers(results[i], m);
    }
  }
}
