/**
 The values frontmatter decodes to: YAML/JSON scalars, lists and mappings.
 A mapping keeps its keys in insertion order, as a Python `dict` does, so it is
 a sequence of (key, value) pairs. Lookups see the first pair with a key;
 assignment replaces that pair in place or appends a new one at the end.
 */
module Values {
  import opened Text

  datatype Option<+T> = None | Some(value: T) {
    /** Returns the value in Some or the default. */
    function GetOr(default: T): T {
      if Some? then value else default
    }
  }

  datatype Value =
    | Null
    | Bool(b: bool)
    | Int(n: int)
    | Str(s: string)
    | List(items: seq<Value>)
    | Obj(fields: seq<(string, Value)>)

  /** The entries of a mapping, in insertion order. */
  type Fields = seq<(string, Value)>

  /** The keys of a mapping, in insertion order. */
  function Keys(m: Fields): (ks: seq<string>)
    ensures |ks| == |m|
    ensures forall i :: 0 <= i < |m| ==> ks[i] == m[i].0
  {
    if |m| == 0 then [] else [m[0].0] + Keys(m[1..])
  }

  /** Python's `d[k]` when the key is present, as an Option (the first pair with the key). */
  function Lookup(m: Fields, k: string): Option<Value> {
    if |m| == 0 then None
    else if m[0].0 == k then Some(m[0].1)
    else Lookup(m[1..], k)
  }

  /** No key occurs twice, as in every mapping Python builds. */
  predicate UniqueKeys(m: Fields) {
    forall i, j :: 0 <= i < j < |m| ==> m[i].0 != m[j].0
  }

  /** Python's `k in d`. */
  predicate HasKey(m: Fields, k: string) {
    Lookup(m, k).Some?
  }

  /** Python's `d.get(k)`: None (here `Null`) when the key is missing. */
  function Get(m: Fields, k: string): Value {
    Lookup(m, k).GetOr(Null)
  }

  /** The mapping `{k: v}` when `v` is present, else the empty mapping. */
  function Entry(k: string, v: Option<Value>): (r: Fields)
    ensures v.Some? <==> (k, v.GetOr(Null)) in r
    ensures Lookup(r, k) == v
    ensures forall k' {:trigger Lookup(r, k')} :: k' != k ==> Lookup(r, k') == None
  {
    if v.Some? then [(k, v.value)] else []
  }

  /** A lookup in a concatenation finds the first part's pair first. */
  lemma {:induction false} LookupAppend(a: Fields, b: Fields, k: string)
    ensures Lookup(a + b, k) == if HasKey(a, k) then Lookup(a, k) else Lookup(b, k)
  {
    if |a| > 0 {
      assert (a + b)[1..] == a[1..] + b;
      LookupAppend(a[1..], b, k);
    } else {
      assert a + b == b;
    }
  }

  /** Two mappings with unique keys and no key in common concatenate to one
      with unique keys. */
  lemma UniqueAppend(a: Fields, b: Fields)
    requires UniqueKeys(a) && UniqueKeys(b)
    requires forall i, j :: 0 <= i < |a| && 0 <= j < |b| ==> a[i].0 != b[j].0
    ensures UniqueKeys(a + b)
  {
    var r := a + b;
    forall i, j | 0 <= i < j < |r| ensures r[i].0 != r[j].0 {
      if j < |a| {
      } else if i >= |a| {
        assert r[i] == b[i - |a|] && r[j] == b[j - |a|];
      } else {
        assert r[i] == a[i] && r[j] == b[j - |a|];
      }
    }
  }

  /** Three optional entries under distinct keys make a mapping without
      repeated keys that holds each present entry and nothing else. */
  lemma ThreeEntries(k1: string, v1: Option<Value>, k2: string, v2: Option<Value>, k3: string, v3: Option<Value>)
    requires k1 != k2 && k1 != k3 && k2 != k3
    ensures UniqueKeys(Entry(k1, v1) + Entry(k2, v2) + Entry(k3, v3))
    ensures Lookup(Entry(k1, v1) + Entry(k2, v2) + Entry(k3, v3), k1) == v1
    ensures Lookup(Entry(k1, v1) + Entry(k2, v2) + Entry(k3, v3), k2) == v2
    ensures Lookup(Entry(k1, v1) + Entry(k2, v2) + Entry(k3, v3), k3) == v3
    ensures forall k {:trigger Lookup(Entry(k1, v1) + Entry(k2, v2) + Entry(k3, v3), k)} ::
              k != k1 && k != k2 && k != k3 ==> Lookup(Entry(k1, v1) + Entry(k2, v2) + Entry(k3, v3), k) == None
  {
    var a, b, c := Entry(k1, v1), Entry(k2, v2), Entry(k3, v3);
    assert |a| <= 1 && (|a| == 1 ==> a[0].0 == k1);
    assert |b| <= 1 && (|b| == 1 ==> b[0].0 == k2);
    assert |c| <= 1 && (|c| == 1 ==> c[0].0 == k3);
    UniqueAppend(a, b);
    var ab := a + b;
    forall i | 0 <= i < |ab| ensures ab[i].0 != k3 {
      if i < |a| { assert ab[i] == a[i]; } else { assert ab[i] == b[i - |a|]; }
    }
    UniqueAppend(ab, c);
    forall k ensures Lookup(ab + c, k) == (if k == k1 then v1 else if k == k2 then v2 else if k == k3 then v3 else None) {
      LookupAppend(a, b, k);
      LookupAppend(ab, c, k);
    }
  }

  /** A key the mapping holds is among its keys. */
  lemma {:induction false} HasKeyInKeys(m: Fields, k: string)
    ensures HasKey(m, k) <==> k in Keys(m)
  {
    if |m| > 0 {
      HasKeyInKeys(m[1..], k);
    }
  }

  /** Python's `d[k] = v`: the key now maps to `v` and no other key changes. */
  function Set(m: Fields, k: string, v: Value): (r: Fields)
    ensures Lookup(r, k) == Some(v)
    ensures forall k' {:trigger Lookup(m, k')} :: k' != k ==> Lookup(r, k') == Lookup(m, k')
  {
    if |m| == 0 then [(k, v)]
    else if m[0].0 == k then [(k, v)] + m[1..]
    else [m[0]] + Set(m[1..], k, v)
  }

  /** Assignment keeps the key order; a new key goes at the end. */
  lemma {:induction false} SetKeys(m: Fields, k: string, v: Value)
    ensures Keys(Set(m, k, v)) == if HasKey(m, k) then Keys(m) else Keys(m) + [k]
  {
    if |m| > 0 && m[0].0 != k {
      SetKeys(m[1..], k, v);
      assert ([m[0]] + Set(m[1..], k, v))[1..] == Set(m[1..], k, v);
    } else if |m| > 0 {
      assert ([(k, v)] + m[1..])[1..] == m[1..];
    }
  }

  /** Assigning a key the value it already has changes nothing. */
  lemma {:induction false} SetExisting(m: Fields, k: string)
    requires HasKey(m, k)
    ensures Set(m, k, Lookup(m, k).value) == m
  {
    if m[0].0 != k {
      SetExisting(m[1..], k);
    }
    assert [m[0]] + m[1..] == m;
  }

  /** A key no pair carries is missing. */
  lemma {:induction false} LookupAbsent(m: Fields, k: string)
    requires forall i :: 0 <= i < |m| ==> m[i].0 != k
    ensures Lookup(m, k) == None
  {
    if |m| > 0 {
      LookupAbsent(m[1..], k);
    }
  }

  /** In a mapping without repeated keys, each pair is what its key reads. */
  lemma {:induction false} LookupUnique(m: Fields, i: nat)
    requires UniqueKeys(m) && i < |m|
    ensures Lookup(m, m[i].0) == Some(m[i].1)
  {
    if i > 0 {
      assert UniqueKeys(m[1..]) by {
        forall a, b | 0 <= a < b < |m[1..]| ensures m[1..][a].0 != m[1..][b].0 {
          assert m[1..][a] == m[a + 1] && m[1..][b] == m[b + 1];
        }
      }
      LookupUnique(m[1..], i - 1);
    }
  }

  /** Python's `d.update(other)`: every key of `other` now maps to its value
      there and every other key keeps its value. */
  function Update(m: Fields, other: Fields): (r: Fields)
    requires UniqueKeys(other)
    ensures forall k {:trigger Lookup(r, k)} :: Lookup(r, k) == if HasKey(other, k) then Lookup(other, k) else Lookup(m, k)
    decreases |other|
  {
    if |other| == 0 then m
    else
      var rest := other[1..];
      assert UniqueKeys(rest) by {
        forall i, j | 0 <= i < j < |rest| ensures rest[i].0 != rest[j].0 {
          assert rest[i] == other[i + 1] && rest[j] == other[j + 1];
        }
      }
      assert forall i :: 0 <= i < |rest| ==> rest[i].0 != other[0].0 by {
        forall i | 0 <= i < |rest| ensures rest[i].0 != other[0].0 {
          assert rest[i] == other[i + 1];
        }
      }
      LookupAbsent(rest, other[0].0);
      Update(Set(m, other[0].0, other[0].1), rest)
  }

  /** Python's `del d[k]` (every pair with the key goes). */
  function Delete(m: Fields, k: string): (r: Fields)
    ensures Lookup(r, k) == None
    ensures forall k' {:trigger Lookup(m, k')} :: k' != k ==> Lookup(r, k') == Lookup(m, k')
  {
    if |m| == 0 then []
    else if m[0].0 == k then Delete(m[1..], k)
    else [m[0]] + Delete(m[1..], k)
  }

  /** Python's `key in v` for a container: a key of a dict, an item of a list,
      a substring of a string. On any other value Python raises. */
  predicate InContainer(key: string, v: Value) {
    match v
    case Obj(fs) => HasKey(fs, key)
    case List(xs) => Str(key) in xs
    case Str(s) => Contains(s, key)
    case _ => false
  }

  /** Python truthiness: None, False, 0 and empty strings, lists and dicts are falsy. */
  predicate Truthy(v: Value) {
    match v
    case Null => false
    case Bool(b) => b
    case Int(n) => n != 0
    case Str(s) => |s| > 0
    case List(xs) => |xs| > 0
    case Obj(fs) => |fs| > 0
  }

  /** Python's `a or b`. */
  function Or(a: Value, b: Value): (r: Value)
    ensures Truthy(r) <==> Truthy(a) || Truthy(b)
    ensures Truthy(a) ==> r == a
  {
    if Truthy(a) then a else b
  }

  /** `v if isinstance(v, list) else [v]`. */
  function Listify(v: Value): (r: Value)
    ensures r.List?
    ensures v.List? ==> r == v
    ensures !v.List? ==> r.items == [v]
  {
    if v.List? then v else List([v])
  }

  /** Every item is a string. */
  predicate AllStrings(xs: seq<Value>) {
    forall i :: 0 <= i < |xs| ==> xs[i].Str?
  }

  function Strings(xs: seq<Value>): (r: seq<string>)
    requires AllStrings(xs)
    ensures |r| == |xs|
    ensures forall i :: 0 <= i < |xs| ==> r[i] == xs[i].s
  {
    seq(|xs|, i requires 0 <= i < |xs| => xs[i].s)
  }

  /** Python's `", ".join(xs)`: every item must be a string, or Python raises. */
  function JoinValues(xs: seq<Value>, sep: string): string
    requires AllStrings(xs)
  {
    Join(Strings(xs), sep)
  }

  // ---------------------------------------------------------------------------
  // The nested-path accessor `get_nested_value`
  // ---------------------------------------------------------------------------

  /** Every segment of the path is a key of the mapping reached so far. */
  predicate PathExists(v: Value, path: seq<string>)
    decreases |path|
  {
    |path| == 0 || (v.Obj? && HasKey(v.fields, path[0]) && PathExists(Lookup(v.fields, path[0]).value, path[1..]))
  }

  /** `get_nested_value(v, *path, default=default)`: walks one key at a time and
      gives up with the default as soon as a key is missing or the value reached
      is not a mapping. */
  function GetNested(v: Value, path: seq<string>, default: Value): (r: Value)
    ensures |path| == 0 ==> r == v
    ensures !PathExists(v, path) ==> r == default
    decreases |path|
  {
    if |path| == 0 then v
    else if v.Obj? && HasKey(v.fields, path[0]) then GetNested(Lookup(v.fields, path[0]).value, path[1..], default)
    else default
  }

  /** A lookup along `p + q` is the lookup along `q` from where `p` leads, and
      the default when `p` itself leads nowhere. */
  lemma {:induction false} GetNestedAppend(v: Value, p: seq<string>, q: seq<string>, default: Value)
    ensures PathExists(v, p) ==> GetNested(v, p + q, default) == GetNested(GetNested(v, p, default), q, default)
    ensures !PathExists(v, p) ==> GetNested(v, p + q, default) == default
    decreases |p|
  {
    if |p| == 0 {
      assert p + q == q;
    } else {
      assert (p + q)[0] == p[0];
      assert (p + q)[1..] == p[1..] + q;
      if v.Obj? && HasKey(v.fields, p[0]) {
        GetNestedAppend(Lookup(v.fields, p[0]).value, p[1..], q, default);
      }
    }
  }

  /** When the path exists the default plays no part in the result. */
  lemma {:induction false} GetNestedIgnoresDefault(v: Value, path: seq<string>, d1: Value, d2: Value)
    requires PathExists(v, path)
    ensures GetNested(v, path, d1) == GetNested(v, path, d2)
    decreases |path|
  {
    if |path| > 0 {
      GetNestedIgnoresDefault(Lookup(v.fields, path[0]).value, path[1..], d1, d2);
    }
  }

  /** One step of the walk: a single key is looked up in a mapping and defaults otherwise. */
  lemma GetNestedOneKey(v: Value, k: string, default: Value)
    ensures GetNested(v, [k], default) == if v.Obj? && HasKey(v.fields, k) then Lookup(v.fields, k).value else default
  {
  }

  /** The value at `m[a][b]`, or Null: `get_nested_value(m, a, b)` on a dict. */
  function At2(m: Fields, a: string, b: string): (r: Value)
    ensures r == if HasKey(m, a) && Lookup(m, a).value.Obj? && HasKey(Lookup(m, a).value.fields, b)
                 then Lookup(Lookup(m, a).value.fields, b).value else Null
  {
    GetNestedTwoKeys(m, a, b);
    GetNested(Obj(m), [a, b], Null)
  }

  lemma GetNestedTwoKeys(m: Fields, a: string, b: string)
    ensures GetNested(Obj(m), [a, b], Null) ==
              if HasKey(m, a) && Lookup(m, a).value.Obj? && HasKey(Lookup(m, a).value.fields, b)
              then Lookup(Lookup(m, a).value.fields, b).value else Null
  {
    assert [a, b][1..] == [b];
    if HasKey(m, a) {
      GetNestedOneKey(Lookup(m, a).value, b, Null);
    }
  }

  // ---------------------------------------------------------------------------
  // Python's str() and repr() of decoded values
  // ---------------------------------------------------------------------------

  /** Python's `repr` of a value (string escapes are not modelled). */
  function Repr(v: Value): string {
    match v
    case Null => "None"
    case Bool(b) => if b then "True" else "False"
    case Int(n) => IntToString(n)
    case Str(s) => "'" + s + "'"
    case List(xs) => "[" + Join(seq(|xs|, i requires 0 <= i < |xs| => Repr(xs[i])), ", ") + "]"
    case Obj(fs) => "{" + Join(seq(|fs|, i requires 0 <= i < |fs| => "'" + fs[i].0 + "': " + Repr(fs[i].1)), ", ") + "}"
  }

  /** Python's `str` of a value, which is what an f-string inserts. */
  function PyStr(v: Value): (r: string)
    ensures v.Str? ==> r == v.s
  {
    if v.Str? then v.s else Repr(v)
  }
}
