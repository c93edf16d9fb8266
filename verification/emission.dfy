/**
 Records built by appending optional entries in a fixed order: each builder
 in the source tests a condition and, when it holds, appends (or assigns)
 one entry under its own key. A builder is modelled as a list of candidates
 (key, optional value); the record is the candidates that are present, in
 order.
 */
module Emission {
  import opened Values

  /** The present candidates, in order. */
  function Emit<K, V>(cs: seq<(K, Option<V>)>): (r: seq<(K, V)>)
    ensures |r| <= |cs|
  {
    if |cs| == 0 then []
    else (if cs[0].1.Some? then [(cs[0].0, cs[0].1.value)] else []) + Emit(cs[1..])
  }

  /** The value of the first entry with the key. */
  function Find<K(==), V>(es: seq<(K, V)>, k: K): Option<V> {
    if |es| == 0 then None
    else if es[0].0 == k then Some(es[0].1)
    else Find(es[1..], k)
  }

  /** What the candidates offer for the key: the first candidate's option. */
  function Offered<K(==), V>(cs: seq<(K, Option<V>)>, k: K): Option<V> {
    if |cs| == 0 then None
    else if cs[0].0 == k then cs[0].1
    else Offered(cs[1..], k)
  }

  /** No two candidates share a key. */
  predicate Distinct<K(==), V>(cs: seq<(K, Option<V>)>) {
    forall i, j :: 0 <= i < j < |cs| ==> cs[i].0 != cs[j].0
  }

  /** A key no candidate carries is never emitted. */
  lemma {:induction false} FindAbsent<K, V>(cs: seq<(K, Option<V>)>, k: K)
    requires forall i :: 0 <= i < |cs| ==> cs[i].0 != k
    ensures Find(Emit(cs), k) == None && Offered(cs, k) == None
  {
    if |cs| > 0 {
      FindAbsent(cs[1..], k);
      if cs[0].1.Some? {
        assert Emit(cs)[1..] == Emit(cs[1..]);
      } else {
        assert Emit(cs) == Emit(cs[1..]);
      }
    }
  }

  /** With distinct keys, the entry emitted for a key is exactly what its
      candidate offered: present with that value, or absent. */
  lemma {:induction false} EmitFind<K, V>(cs: seq<(K, Option<V>)>, k: K)
    requires Distinct(cs)
    ensures Find(Emit(cs), k) == Offered(cs, k)
  {
    if |cs| > 0 {
      var r := Emit(cs);
      var tail := cs[1..];
      assert Distinct(tail) by {
        forall i, j | 0 <= i < j < |tail| ensures tail[i].0 != tail[j].0 {
          assert tail[i] == cs[i + 1] && tail[j] == cs[j + 1];
        }
      }
      if cs[0].1.None? {
        assert r == Emit(tail);
        if k == cs[0].0 {
          forall i | 0 <= i < |tail| ensures tail[i].0 != k {
            assert tail[i] == cs[i + 1];
          }
          FindAbsent(tail, k);
        } else {
          EmitFind(tail, k);
        }
      } else if k != cs[0].0 {
        assert r[0].0 != k && r[1..] == Emit(tail);
        EmitFind(tail, k);
      }
    }
  }

  /** With distinct keys, the candidate at a position is the one offered for its key. */
  lemma {:induction false} OfferedAt<K, V>(cs: seq<(K, Option<V>)>, i: nat)
    requires Distinct(cs) && i < |cs|
    ensures Offered(cs, cs[i].0) == cs[i].1
  {
    if i > 0 {
      var tail := cs[1..];
      assert Distinct(tail) by {
        forall a, b | 0 <= a < b < |tail| ensures tail[a].0 != tail[b].0 {
          assert tail[a] == cs[a + 1] && tail[b] == cs[b + 1];
        }
      }
      OfferedAt(tail, i - 1);
      assert tail[i - 1] == cs[i];
    }
  }

  /** The entry emitted for the candidate at a position. */
  lemma EmitAt<K, V>(cs: seq<(K, Option<V>)>, i: nat)
    requires Distinct(cs) && i < |cs|
    ensures Find(Emit(cs), cs[i].0) == cs[i].1
  {
    EmitFind(cs, cs[i].0);
    OfferedAt(cs, i);
  }

  /** Every emitted entry comes from a present candidate. */
  lemma {:induction false} EmitFrom<K, V>(cs: seq<(K, Option<V>)>)
    ensures forall e :: e in Emit(cs) ==> (e.0, Some(e.1)) in cs
  {
    if |cs| > 0 {
      EmitFrom(cs[1..]);
      forall e | e in Emit(cs) ensures (e.0, Some(e.1)) in cs {
        if e !in Emit(cs[1..]) {
          assert e == (cs[0].0, cs[0].1.value);
        } else {
          assert (e.0, Some(e.1)) in cs[1..];
        }
      }
    }
  }

  // ---------------------------------------------------------------------------
  // Builders driven by a fixed key order
  // ---------------------------------------------------------------------------

  /** No key is listed twice. */
  predicate Unique<K(==)>(ks: seq<K>) {
    forall i, j :: 0 <= i < j < |ks| ==> ks[i] != ks[j]
  }

  /** One candidate per key of `ks`, in that order, offering `g(key)`. */
  function Tabulate<K, V>(ks: seq<K>, g: K -> Option<V>): (cs: seq<(K, Option<V>)>)
    ensures |cs| == |ks|
    ensures forall i :: 0 <= i < |ks| ==> cs[i] == (ks[i], g(ks[i]))
  {
    seq(|ks|, i requires 0 <= i < |ks| => (ks[i], g(ks[i])))
  }

  /** The record a builder produces when it visits the keys `ks` in order and
      `g` decides, for each, whether and what to emit. */
  function Build<K, V>(ks: seq<K>, g: K -> Option<V>): seq<(K, V)> {
    Emit(Tabulate(ks, g))
  }

  /** A built record holds, for each visited key, exactly what `g` decided,
      and nothing under any other key. */
  lemma BuildFind<K, V>(ks: seq<K>, g: K -> Option<V>, k: K)
    requires Unique(ks)
    ensures Find(Build(ks, g), k) == if k in ks then g(k) else None
  {
    var cs := Tabulate(ks, g);
    assert Distinct(cs);
    if k in ks {
      var i :| 0 <= i < |ks| && ks[i] == k;
      EmitAt(cs, i);
    } else {
      FindAbsent(cs, k);
    }
  }

  /** Every key of a built record is one of the visited keys. */
  lemma BuildKeys<K, V>(ks: seq<K>, g: K -> Option<V>)
    ensures forall e :: e in Build(ks, g) ==> e.0 in ks && g(e.0) == Some(e.1)
  {
    var cs := Tabulate(ks, g);
    EmitFrom(cs);
    forall e | e in Build(ks, g) ensures e.0 in ks && g(e.0) == Some(e.1) {
      var i :| 0 <= i < |cs| && cs[i] == (e.0, Some(e.1));
      assert ks[i] == e.0;
    }
  }

  /** Candidates that are all absent emit nothing. */
  lemma {:induction false} EmitNone<K, V>(cs: seq<(K, Option<V>)>)
    requires forall i :: 0 <= i < |cs| ==> cs[i].1.None?
    ensures Emit(cs) == []
  {
    if |cs| > 0 {
      EmitNone(cs[1..]);
    }
  }

  /** A builder that decides against every visited key builds nothing. */
  lemma BuildNone<K, V>(ks: seq<K>, g: K -> Option<V>)
    requires forall k :: k in ks ==> g(k).None?
    ensures Build(ks, g) == []
  {
    EmitNone(Tabulate(ks, g));
  }

  /** Two deciders that agree on every visited key build the same record. */
  lemma BuildCongruent<K, V>(ks: seq<K>, g1: K -> Option<V>, g2: K -> Option<V>)
    requires forall k :: k in ks ==> g1(k) == g2(k)
    ensures Build(ks, g1) == Build(ks, g2)
  {
    assert Tabulate(ks, g1) == Tabulate(ks, g2);
  }
}
