/** What the broker's list operations keep and lose. */
module BrokerLists {
  import opened Basics
  import opened Contracts
  import opened BrokerModel

  ghost predicate UniqueIds(fs: seq<Finding>) {
    forall i, j :: 0 <= i < j < |fs| ==> fs[i].id != fs[j].id
  }

  // ---- merge --------------------------------------------------------------------------

  /** Merging keeps one finding per id: what was kept already, then the first newcomer with each id. */
  lemma {:induction false} AddNewKeeps(kept: seq<Finding>, fs: seq<Finding>)
    requires UniqueIds(kept)
    ensures UniqueIds(AddNew(kept, fs)) && kept <= AddNew(kept, fs)
    ensures forall f :: f in AddNew(kept, fs) ==> f in kept || f in fs
    decreases |fs|
  {
    if fs != [] {
      AddNewKeeps(if HasId(kept, fs[0].id) then kept else kept + [fs[0]], fs[1..]);
    }
  }

  /** Every id that went in comes out. */
  lemma {:induction false} AddNewCovers(kept: seq<Finding>, fs: seq<Finding>, id: string)
    ensures HasId(AddNew(kept, fs), id) <==> HasId(kept, id) || HasId(fs, id)
    decreases |fs|
  {
    if fs != [] {
      var next := if HasId(kept, fs[0].id) then kept else kept + [fs[0]];
      AddNewCovers(next, fs[1..], id);
      HasIdSnoc(kept, fs[0], id);
    }
  }

  lemma HasIdSnoc(fs: seq<Finding>, f: Finding, id: string)
    ensures HasId(fs + [f], id) <==> HasId(fs, id) || f.id == id
  {
    if i :| 0 <= i < |fs| && fs[i].id == id {
      assert (fs + [f])[i].id == id;
    }
    assert (fs + [f])[|fs|] == f;
  }

  lemma {:induction false} AddNewPrefix(kept: seq<Finding>, fs: seq<Finding>, more: seq<Finding>)
    requires UniqueIds(kept + fs)
    ensures AddNew(kept, fs + more) == AddNew(kept + fs, more)
    decreases |fs|
  {
    if fs == [] {
      assert fs + more == more && kept + fs == kept;
    } else {
      assert (kept + fs)[|kept|] == fs[0];
      assert forall i :: 0 <= i < |kept| ==> (kept + fs)[i] == kept[i];
      assert !HasId(kept, fs[0].id);
      TakeDrop(fs, more);
      MoveHead(kept, fs);
      AddNewPrefix(kept + [fs[0]], fs[1..], more);
    }
  }

  /** Merge, as the rest of the proofs use it: findings with distinct ids on the preferred side all
      stay as they are, nothing is invented, every id survives once. */
  lemma MergeKeeps(preferred: seq<Finding>, others: seq<Finding>)
    ensures UniqueIds(Merge(preferred, others))
    ensures UniqueIds(preferred) ==> preferred <= Merge(preferred, others)
    ensures forall f :: f in Merge(preferred, others) ==> f in preferred || f in others
    ensures forall id :: HasId(Merge(preferred, others), id) <==> HasId(preferred, id) || HasId(others, id)
  {
    AddNewKeeps([], preferred + others);
    if UniqueIds(preferred) {
      assert [] + preferred == preferred;
      AddNewPrefix([], preferred, others);
      AddNewKeeps(preferred, others);
    }
    forall id ensures HasId(Merge(preferred, others), id) <==> HasId(preferred, id) || HasId(others, id) {
      AddNewCovers([], preferred + others, id);
      HasIdConcat(preferred, others, id);
    }
  }

  lemma HasIdConcat(a: seq<Finding>, b: seq<Finding>, id: string)
    ensures HasId(a + b, id) <==> HasId(a, id) || HasId(b, id)
  {
    if i :| 0 <= i < |a| && a[i].id == id {
      assert (a + b)[i].id == id;
    }
    if i :| 0 <= i < |b| && b[i].id == id {
      assert (a + b)[|a| + i].id == id;
    }
  }

  /** Nothing before it has its id. */
  ghost predicate FirstWithId(fs: seq<Finding>, n: nat)
    requires n < |fs|
  {
    forall i :: 0 <= i < n ==> fs[i].id != fs[n].id
  }

  /** The first finding with each id, where it stands. */
  ghost function Firsts(fs: seq<Finding>): seq<Finding>
    decreases |fs|
  {
    if fs == [] then []
    else
      var n := |fs| - 1;
      Firsts(fs[..n]) + (if FirstWithId(fs, n) then [fs[n]] else [])
  }

  lemma {:induction false} FirstsCover(fs: seq<Finding>, id: string)
    ensures HasId(Firsts(fs), id) <==> HasId(fs, id)
    decreases |fs|
  {
    if fs != [] {
      var n := |fs| - 1;
      FirstsCover(fs[..n], id);
      assert fs == fs[..n] + [fs[n]];
      HasIdSnoc(fs[..n], fs[n], id);
      HasIdConcat(Firsts(fs[..n]), if FirstWithId(fs, n) then [fs[n]] else [], id);
      if FirstWithId(fs, n) {
        HasIdSnoc(Firsts(fs[..n]), fs[n], id);
      } else {
        var i :| 0 <= i < n && fs[i].id == fs[n].id;
        assert fs[..n][i].id == fs[n].id;
      }
    }
  }

  lemma {:induction false} AddNewSnoc(kept: seq<Finding>, fs: seq<Finding>, f: Finding)
    ensures AddNew(kept, fs + [f]) == if HasId(AddNew(kept, fs), f.id) then AddNew(kept, fs) else AddNew(kept, fs) + [f]
    decreases |fs|
  {
    if fs == [] {
      assert [] + [f] == [f] && [f][1..] == [];
    } else {
      assert (fs + [f])[1..] == fs[1..] + [f];
      AddNewSnoc(if HasId(kept, fs[0].id) then kept else kept + [fs[0]], fs[1..], f);
    }
  }

  lemma {:induction false} AddNewIsFirsts(fs: seq<Finding>)
    ensures AddNew([], fs) == Firsts(fs)
    decreases |fs|
  {
    if fs != [] {
      var n := |fs| - 1;
      AddNewIsFirsts(fs[..n]);
      assert fs == fs[..n] + [fs[n]];
      AddNewSnoc([], fs[..n], fs[n]);
      FirstsCover(fs[..n], fs[n].id);
      assert HasId(fs[..n], fs[n].id) <==> !FirstWithId(fs, n) by {
        if !FirstWithId(fs, n) {
          var i :| 0 <= i < n && fs[i].id == fs[n].id;
          assert fs[..n][i].id == fs[n].id;
        }
      }
    }
  }

  /** Merging a list into firsts of another gives the firsts of both. */
  lemma {:induction false} FirstsOfFirsts(a: seq<Finding>, b: seq<Finding>)
    ensures Firsts(Firsts(a) + b) == Firsts(a + b)
    decreases |b|
  {
    AddNewIsFirsts(a);
    AddNewIsFirsts(Firsts(a) + b);
    AddNewIsFirsts(a + b);
    AddNewKeeps([], a);
    AddNewTwice(a, b);
  }

  lemma {:induction false} AddNewConcat(kept: seq<Finding>, a: seq<Finding>, b: seq<Finding>)
    ensures AddNew(kept, a + b) == AddNew(AddNew(kept, a), b)
    decreases |a|
  {
    if a == [] {
      assert a + b == b;
    } else {
      TakeDrop(a, b);
      AddNewConcat(if HasId(kept, a[0].id) then kept else kept + [a[0]], a[1..], b);
    }
  }

  lemma AddNewTwice(a: seq<Finding>, b: seq<Finding>)
    requires UniqueIds(AddNew([], a))
    ensures AddNew([], AddNew([], a) + b) == AddNew([], a + b)
  {
    var kept := AddNew([], a);
    AddNewConcat([], kept, b);
    AddNewConcat([], a, b);
    assert [] + kept == kept;
    AddNewPrefix([], kept, []);
    assert kept + [] == kept;
  }

  /** Merging is exact: the first finding with each id, the preferred before the others. */
  lemma MergeIsFirsts(preferred: seq<Finding>, others: seq<Finding>)
    ensures Merge(preferred, others) == Firsts(preferred + others)
  {
    AddNewIsFirsts(preferred + others);
  }

  /** The loop that fills the map. */
  method MergeFindings(preferred: seq<Finding>, others: seq<Finding>) returns (merged: seq<Finding>)
    ensures merged == Merge(preferred, others)
  {
    var all := preferred + others;
    merged := [];
    for i := 0 to |all|
      invariant AddNew(merged, all[i..]) == Merge(preferred, others)
    {
      if !HasId(merged, all[i].id) {
        merged := merged + [all[i]];
      }
      assert all[i..][1..] == all[i + 1..];
    }
  }

  // ---- the severity bar ---------------------------------------------------------------

  lemma {:induction false} WithinBarMember(fs: seq<Finding>, bar: Severity, f: Finding)
    ensures f in WithinBar(fs, bar) <==> f in fs && MeetsBar(f.severity, bar)
  {
    if fs != [] {
      WithinBarMember(fs[1..], bar, f);
      assert fs == [fs[0]] + fs[1..];
    }
  }

  lemma {:induction false} WithinBarUnique(fs: seq<Finding>, bar: Severity)
    requires UniqueIds(fs)
    ensures UniqueIds(WithinBar(fs, bar))
  {
    if fs != [] {
      WithinBarUnique(fs[1..], bar);
      var t := WithinBar(fs[1..], bar);
      forall j | 0 <= j < |t| ensures t[j].id != fs[0].id {
        WithinBarMember(fs[1..], bar, t[j]);
        var i :| 0 <= i < |fs[1..]| && fs[1..][i] == t[j];
        assert fs[i + 1] == t[j];
      }
    }
  }

  /** Filtering goes finding by finding and keeps the order. */
  lemma {:induction false} WithinBarConcat(a: seq<Finding>, b: seq<Finding>, bar: Severity)
    ensures WithinBar(a + b, bar) == WithinBar(a, bar) + WithinBar(b, bar)
  {
    if a == [] {
      assert a + b == b;
    } else {
      TakeDrop(a, b);
      WithinBarConcat(a[1..], b, bar);
      Nest(if MeetsBar(a[0].severity, bar) then [a[0]] else [], WithinBar(a[1..], bar), WithinBar(b, bar));
    }
  }

  /** The bar lets through exactly what is at or above it: critical, high, medium, low, info. */
  lemma BarIsAtOrAbove(s: Severity)
    ensures MeetsBar(s, Info)
    ensures MeetsBar(s, Low) <==> s != Info
    ensures MeetsBar(s, Medium) <==> s == Medium || s == High || s == Critical
    ensures MeetsBar(s, High) <==> s == High || s == Critical
    ensures MeetsBar(s, Critical) <==> s == Critical
  {
  }

  // ---- what a round leaves unresolved -------------------------------------------------

  lemma {:induction false} UnresolvedMember(batch: seq<Finding>, results: seq<VerifyResult>, f: Finding)
    requires |batch| == |results|
    ensures f in Unresolved(batch, results) <==>
      exists k :: 0 <= k < |batch| && batch[k] == f && results[k].outcome != Closed
  {
    if batch != [] {
      UnresolvedMember(batch[1..], results[1..], f);
      if k :| 0 <= k < |batch| && batch[k] == f && results[k].outcome != Closed && k > 0 {
        assert batch[1..][k - 1] == f && results[1..][k - 1].outcome != Closed;
      }
      if k :| 0 <= k < |batch[1..]| && batch[1..][k] == f && results[1..][k].outcome != Closed {
        assert batch[k + 1] == f && results[k + 1].outcome != Closed;
      }
    }
  }

  lemma {:induction false} UnresolvedUnique(batch: seq<Finding>, results: seq<VerifyResult>)
    requires |batch| == |results| && UniqueIds(batch)
    ensures UniqueIds(Unresolved(batch, results))
  {
    if batch != [] {
      UnresolvedUnique(batch[1..], results[1..]);
      var t := Unresolved(batch[1..], results[1..]);
      forall j | 0 <= j < |t| ensures t[j].id != batch[0].id {
        UnresolvedMember(batch[1..], results[1..], t[j]);
        var k :| 0 <= k < |batch[1..]| && batch[1..][k] == t[j];
        assert batch[k + 1] == t[j];
      }
    }
  }

  lemma {:induction false} WithoutDismissedMember(memory: Memory, fs: seq<Finding>, f: Finding)
    ensures f in WithoutDismissed(memory, fs) <==>
      f in fs && !(Lookup(memory, f.id).Some? && Lookup(memory, f.id).value.verdict.VerdictDismissed?)
  {
    if fs != [] {
      WithoutDismissedMember(memory, fs[1..], f);
      assert fs == [fs[0]] + fs[1..];
    }
  }
}
