/**
 PHP's ordered arrays, restricted to what the request helpers use: an array is
 a sequence of key/value entries in insertion order, and the map it denotes
 sends each key to the value of its entry. The two array operations the
 helpers perform are the union operator `a + b` and the element assignment
 `$a[k] = v`.
 */
module PhpArray {

  /** The keys of an array, in insertion order. */
  function KeysOf<K, V>(a: seq<(K, V)>): (ks: seq<K>)
    ensures |ks| == |a|
    ensures forall i :: 0 <= i < |a| ==> ks[i] == a[i].0
  {
    if a == [] then [] else [a[0].0] + KeysOf(a[1..])
  }

  /** A PHP array never holds the same key twice. */
  predicate Distinct<K(==), V>(a: seq<(K, V)>)
  {
    forall i, j :: 0 <= i < j < |a| ==> a[i].0 != a[j].0
  }

  /** The finite map an array denotes. On a `Distinct` array every key has
      exactly one entry; otherwise the earliest entry of a key is the one seen. */
  function ToMap<K(==), V>(a: seq<(K, V)>): (m: map<K, V>)
    ensures m.Keys == set k | k in KeysOf(a)
  {
    if a == [] then map[] else ToMap(a[1..])[a[0].0 := a[0].1]
  }

  /** A key is in the map of an array exactly when some entry has it. */
  lemma ToMapKeys<K, V>(a: seq<(K, V)>)
    ensures forall k :: k in ToMap(a) <==> k in KeysOf(a)
  {
  }

  /** In an array without repeated keys, each entry's key maps to that entry's value. */
  lemma {:induction false} ToMapAt<K, V>(a: seq<(K, V)>, i: nat)
    requires Distinct(a) && i < |a|
    ensures a[i].0 in ToMap(a) && ToMap(a)[a[i].0] == a[i].1
  {
    if i > 0 {
      DistinctTail(a);
      assert a[1..][i - 1] == a[i];
      ToMapAt(a[1..], i - 1);
      assert a[0].0 != a[i].0;
    }
  }

  /** The map of a concatenation: entries of the left part win over the right part. */
  lemma {:induction false} ToMapConcat<K, V>(x: seq<(K, V)>, y: seq<(K, V)>)
    ensures ToMap(x + y) == ToMap(y) + ToMap(x)
  {
    if x == [] {
      assert x + y == y;
    } else {
      assert (x + y)[1..] == x[1..] + y;
      assert (x + y)[0] == x[0];
      ToMapConcat(x[1..], y);
    }
  }

  /** Concatenating two arrays with disjoint keys keeps keys distinct. */
  lemma DistinctConcat<K, V>(x: seq<(K, V)>, y: seq<(K, V)>)
    requires Distinct(x) && Distinct(y)
    requires forall j :: 0 <= j < |y| ==> y[j].0 !in KeysOf(x)
    ensures Distinct(x + y)
  {
    var ks := KeysOf(x);
    forall i, j | 0 <= i < j < |x + y|
      ensures (x + y)[i].0 != (x + y)[j].0
    {
      if j >= |x| && i < |x| {
        assert (x + y)[j] == y[j - |x|];
        assert ks[i] == x[i].0;
      }
    }
  }

  /** The entries of `b` whose key is not among `ks`, in their order in `b`. */
  function Without<K(==), V>(b: seq<(K, V)>, ks: seq<K>): (r: seq<(K, V)>)
    ensures |r| <= |b|
  {
    if b == [] then []
    else if b[0].0 in ks then Without(b[1..], ks)
    else [b[0]] + Without(b[1..], ks)
  }

  /** Dropping the first entry of a `Distinct` array leaves it `Distinct`. */
  lemma DistinctTail<K, V>(a: seq<(K, V)>)
    requires Distinct(a) && a != []
    ensures Distinct(a[1..])
  {
    forall p, q | 0 <= p < q < |a[1..]|
      ensures a[1..][p].0 != a[1..][q].0
    {
      assert a[1..][p] == a[p + 1] && a[1..][q] == a[q + 1];
    }
  }

  /** `Without` keeps exactly the entries whose key is not excluded. */
  lemma {:induction false} WithoutEntries<K, V>(b: seq<(K, V)>, ks: seq<K>)
    ensures forall j :: 0 <= j < |Without(b, ks)| ==> Without(b, ks)[j] in b && Without(b, ks)[j].0 !in ks
    ensures forall i :: 0 <= i < |b| && b[i].0 !in ks ==> b[i] in Without(b, ks)
  {
    if b != [] {
      WithoutEntries(b[1..], ks);
      var rest := Without(b[1..], ks);
      forall i | 0 <= i < |b| && b[i].0 !in ks
        ensures b[i] in Without(b, ks)
      {
        if i > 0 {
          assert b[i] == b[1..][i - 1];
        }
      }
      forall j | 0 <= j < |Without(b, ks)|
        ensures Without(b, ks)[j] in b
      {
        if b[0].0 !in ks && j == 0 {
        } else {
          var k := if b[0].0 in ks then j else j - 1;
          assert Without(b, ks)[j] == rest[k];
          assert rest[k] in b[1..];
        }
      }
    }
  }

  /** The map of `Without(b, ks)` is the map of `b` with the keys `ks` removed. */
  lemma {:induction false} WithoutMap<K, V>(b: seq<(K, V)>, ks: seq<K>)
    ensures ToMap(Without(b, ks)) == map k | k in ToMap(b) && k !in ks :: ToMap(b)[k]
  {
    if b != [] {
      WithoutMap(b[1..], ks);
    }
  }

  /** `Without` never introduces a repeated key. */
  lemma {:induction false} WithoutDistinct<K, V>(b: seq<(K, V)>, ks: seq<K>)
    requires Distinct(b)
    ensures Distinct(Without(b, ks))
  {
    if b != [] {
      DistinctTail(b);
      WithoutDistinct(b[1..], ks);
      if b[0].0 !in ks {
        var rest := Without(b[1..], ks);
        WithoutEntries(b[1..], ks);
        forall j | 0 <= j < |rest|
          ensures rest[j].0 !in KeysOf([b[0]])
        {
          var p :| 0 <= p < |b[1..]| && b[1..][p] == rest[j];
          assert b[p + 1] == rest[j];
        }
        DistinctConcat([b[0]], rest);
      }
    }
  }

  /** PHP's union `a + b`: every entry of `a` in order, then the entries of
      `b` whose key `a` lacks, in their order in `b`. */
  function Union<K(==), V>(a: seq<(K, V)>, b: seq<(K, V)>): (r: seq<(K, V)>)
    ensures |a| <= |r| && r[..|a|] == a
  {
    a + Without(b, KeysOf(a))
  }

  /** The left operand of `+` wins on shared keys; the right one only fills
      the keys the left one lacks. */
  lemma UnionMap<K, V>(a: seq<(K, V)>, b: seq<(K, V)>)
    ensures ToMap(Union(a, b)) == ToMap(b) + ToMap(a)
  {
    var rest := Without(b, KeysOf(a));
    ToMapConcat(a, rest);
    WithoutMap(b, KeysOf(a));
  }

  /** After the entries of `a`, a union holds only entries of `b` whose key
      `a` lacks. */
  lemma UnionTail<K, V>(a: seq<(K, V)>, b: seq<(K, V)>)
    ensures forall j :: |a| <= j < |Union(a, b)| ==> Union(a, b)[j] in b && Union(a, b)[j].0 !in KeysOf(a)
  {
    var rest := Without(b, KeysOf(a));
    WithoutEntries(b, KeysOf(a));
    forall j | |a| <= j < |Union(a, b)|
      ensures Union(a, b)[j] == rest[j - |a|]
    {
    }
  }

  /** The union of two PHP arrays is again a PHP array. */
  lemma UnionDistinct<K, V>(a: seq<(K, V)>, b: seq<(K, V)>)
    requires Distinct(a) && Distinct(b)
    ensures Distinct(Union(a, b))
  {
    var rest := Without(b, KeysOf(a));
    WithoutEntries(b, KeysOf(a));
    WithoutDistinct(b, KeysOf(a));
    DistinctConcat(a, rest);
  }

  /** PHP's element assignment `$a[k] = v`: overwrite the entry of `k` in
      place when there is one, otherwise append a new entry at the end. */
  function Assign<K(==), V>(a: seq<(K, V)>, k: K, v: V): (r: seq<(K, V)>)
    ensures |r| == if k in KeysOf(a) then |a| else |a| + 1
    ensures forall i :: 0 <= i < |a| && a[i].0 != k ==> r[i] == a[i]
  {
    if a == [] then [(k, v)]
    else if a[0].0 == k then [(k, v)] + a[1..]
    else [a[0]] + Assign(a[1..], k, v)
  }

  /** After the assignment, `k` maps to `v` and every other key is unchanged. */
  lemma {:induction false} AssignMap<K, V>(a: seq<(K, V)>, k: K, v: V)
    ensures ToMap(Assign(a, k, v)) == ToMap(a)[k := v]
  {
    if a != [] && a[0].0 != k {
      AssignMap(a[1..], k, v);
    }
  }

  /** The assignment keeps the key order: an existing key stays where it
      was, a new key goes last. */
  lemma {:induction false} AssignKeys<K, V>(a: seq<(K, V)>, k: K, v: V)
    ensures KeysOf(Assign(a, k, v)) == if k in KeysOf(a) then KeysOf(a) else KeysOf(a) + [k]
  {
    if a != [] && a[0].0 != k {
      AssignKeys(a[1..], k, v);
    }
  }

  /** Assigning into a PHP array yields a PHP array. */
  lemma AssignDistinct<K, V>(a: seq<(K, V)>, k: K, v: V)
    requires Distinct(a)
    ensures Distinct(Assign(a, k, v))
  {
    AssignKeys(a, k, v);
    var r := Assign(a, k, v);
    var ks := KeysOf(r);
    forall i, j | 0 <= i < j < |r|
      ensures r[i].0 != r[j].0
    {
      assert ks[i] == r[i].0 && ks[j] == r[j].0;
      if j < |a| {
        assert KeysOf(a)[i] == a[i].0 && KeysOf(a)[j] == a[j].0;
      } else {
        assert KeysOf(a)[i] == a[i].0;
      }
    }
  }
}
