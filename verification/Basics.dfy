/** Option, and the insertion-ordered map the source leans on everywhere: a JavaScript
    `Map`, and equally the field list of a plain object. */
module Basics {

  datatype Option<+T> = None | Some(value: T)

  datatype Slot<+K, +V> = Slot(key: K, value: V)

  newtype byte = x: int | 0 <= x < 256

  type Bytes = seq<byte>

  /** `map.get(key)`. */
  function Lookup<K(==), V>(m: seq<Slot<K, V>>, key: K): Option<V> {
    if |m| == 0 then None
    else if m[0].key == key then Some(m[0].value)
    else Lookup(m[1..], key)
  }

  /** `map.set(key, value)`: an existing key keeps its place, a new one goes last. */
  function Put<K(==), V>(m: seq<Slot<K, V>>, key: K, value: V): seq<Slot<K, V>> {
    if |m| == 0 then [Slot(key, value)]
    else if m[0].key == key then [Slot(key, value)] + m[1..]
    else [m[0]] + Put(m[1..], key, value)
  }

  ghost predicate DistinctKeys<K, V>(m: seq<Slot<K, V>>) {
    forall i, j :: 0 <= i < j < |m| ==> m[i].key != m[j].key
  }

  lemma {:induction false} LookupPut<K, V>(m: seq<Slot<K, V>>, key: K, value: V, k: K)
    ensures Lookup(Put(m, key, value), k) == if k == key then Some(value) else Lookup(m, k)
  {
    if |m| != 0 && m[0].key != key {
      LookupPut(m[1..], key, value, k);
      assert Put(m, key, value)[1..] == Put(m[1..], key, value);
    }
  }

  /** A key is found exactly when some slot carries it. */
  lemma {:induction false} LookupFinds<K, V>(m: seq<Slot<K, V>>, key: K)
    ensures Lookup(m, key).Some? <==> exists i :: 0 <= i < |m| && m[i].key == key
    ensures Lookup(m, key).Some? ==> exists i :: 0 <= i < |m| && m[i] == Slot(key, Lookup(m, key).value)
  {
    if |m| != 0 {
      LookupFinds(m[1..], key);
      if m[0].key == key {
        assert m[0] == Slot(key, Lookup(m, key).value);
      } else {
        if Lookup(m, key).Some? {
          var i :| 0 <= i < |m[1..]| && m[1..][i] == Slot(key, Lookup(m[1..], key).value);
          assert m[i + 1] == Slot(key, Lookup(m, key).value);
        }
        if i :| 0 <= i < |m| && m[i].key == key {
          assert m[1..][i - 1].key == key;
        }
      }
    }
  }

  lemma {:induction false} LookupAt<K, V>(m: seq<Slot<K, V>>, i: nat)
    requires i < |m| && DistinctKeys(m)
    ensures Lookup(m, m[i].key) == Some(m[i].value)
  {
    if i != 0 {
      assert m[1..][i - 1] == m[i];
      assert m[0].key != m[i].key;
      LookupAt(m[1..], i - 1);
    }
  }

  lemma {:induction false} PutNewAppends<K, V>(m: seq<Slot<K, V>>, key: K, value: V)
    requires Lookup(m, key).None?
    ensures Put(m, key, value) == m + [Slot(key, value)]
  {
    if |m| != 0 {
      PutNewAppends(m[1..], key, value);
    }
  }

  /** `set` never moves or renames a slot, and adds one at most, at the end. */
  lemma {:induction false} PutKeys<K, V>(m: seq<Slot<K, V>>, key: K, value: V)
    ensures |m| <= |Put(m, key, value)| <= |m| + 1
    ensures forall i :: 0 <= i < |m| ==> Put(m, key, value)[i].key == m[i].key
    ensures |Put(m, key, value)| == |m| + 1 ==> Put(m, key, value)[|m|].key == key && Lookup(m, key).None?
  {
    if |m| != 0 && m[0].key != key {
      var t := Put(m[1..], key, value);
      PutKeys(m[1..], key, value);
      assert Put(m, key, value) == [m[0]] + t;
      forall i | 0 <= i < |m| ensures ([m[0]] + t)[i].key == m[i].key {
        if i > 0 {
          assert t[i - 1].key == m[1..][i - 1].key;
        }
      }
    }
  }

  lemma {:induction false} PutKeeps<K, V>(m: seq<Slot<K, V>>, key: K, value: V)
    requires DistinctKeys(m)
    ensures DistinctKeys(Put(m, key, value))
  {
    PutKeys(m, key, value);
    var p := Put(m, key, value);
    hide Put;
    if |p| > |m| {
      LookupFinds(m, key);
      hide Lookup;
      forall i | 0 <= i < |m| ensures p[i].key != p[|m|].key {
        assert p[i].key == m[i].key;
      }
    }
  }

  /** `set` slot by slot. */
  lemma {:induction false} PutSlots<K, V>(m: seq<Slot<K, V>>, key: K, value: V)
    requires DistinctKeys(m)
    ensures Lookup(m, key).None? ==> Put(m, key, value) == m + [Slot(key, value)]
    ensures Lookup(m, key).Some? ==> |Put(m, key, value)| == |m|
    ensures forall i :: 0 <= i < |m| ==> Put(m, key, value)[i] == if m[i].key == key then Slot(key, value) else m[i]
  {
    if |m| != 0 {
      var t := Put(m[1..], key, value);
      PutSlots(m[1..], key, value);
      forall i | 0 < i < |m|
        ensures Put(m, key, value)[i] == if m[i].key == key then Slot(key, value) else m[i]
      {
        assert m[1..][i - 1] == m[i];
        if m[0].key != key {
          assert t[i - 1] == if m[1..][i - 1].key == key then Slot(key, value) else m[1..][i - 1];
        }
      }
    }
  }

  // ---- sequence steps, stated once so that proofs about texts stay small ---------------

  lemma Behead<T>(x: T, s: seq<T>)
    ensures ([x] + s)[0] == x && ([x] + s)[1..] == s
  {
  }

  lemma Nest<T>(a: seq<T>, b: seq<T>, c: seq<T>)
    ensures (a + b) + c == a + (b + c)
  {
  }

  /** Bracketed text followed by more, read from the left. */
  lemma NestBracketed<T>(open: seq<T>, body: seq<T>, close: seq<T>, x: seq<T>)
    ensures (open + body + close) + x == open + (body + (close + x))
  {
  }

  /** Moving the head of what is left onto the end of what is done. */
  lemma MoveHead<T>(done: seq<T>, left: seq<T>)
    requires |left| > 0
    ensures done + [left[0]] + left[1..] == done + left
    ensures |left| == 1 ==> done + [left[0]] == done + left
  {
  }

  lemma CancelPrefix<T>(a: seq<T>, b: seq<T>, c: seq<T>)
    ensures a + b == a + c ==> b == c
  {
    assert (a + b)[|a|..] == b && (a + c)[|a|..] == c;
  }

  lemma TakeDrop<T>(a: seq<T>, b: seq<T>)
    ensures (a + b)[..|a|] == a && (a + b)[|a|..] == b
    ensures |a| > 0 ==> (a + b)[0] == a[0] && (a + b)[1..] == a[1..] + b
  {
  }
}
