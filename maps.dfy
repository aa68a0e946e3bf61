/**
 * Insertion-ordered maps keyed by strings, as a JavaScript `Map` or an
 * Angular `HttpHeaders` keeps them: a sequence of entries, a new key goes to
 * the end, setting an existing key replaces its value in place.
 */
module OrderedMaps {
  import opened Results

  type Entries<V> = seq<(string, V)>

  function Keys<V>(m: Entries<V>): seq<string>
  {
    seq(|m|, i requires 0 <= i < |m| => m[i].0)
  }

  /** `m.get(k)`: the value stored under `k`, if any. */
  function Lookup<V>(m: Entries<V>, k: string): Option<V>
  {
    if m == [] then None
    else if m[0].0 == k then Some(m[0].1)
    else Lookup(m[1..], k)
  }

  /** `m.set(k, v)`: replaces the value of an existing key where it stands, or appends a new entry. */
  function Put<V>(m: Entries<V>, k: string, v: V): Entries<V>
  {
    if m == [] then [(k, v)]
    else if m[0].0 == k then [(k, v)] + m[1..]
    else [m[0]] + Put(m[1..], k, v)
  }

  predicate Distinct(ks: seq<string>)
  {
    forall i, j :: 0 <= i < j < |ks| ==> ks[i] != ks[j]
  }

  lemma {:induction false} KeysCons<V>(m: Entries<V>)
    requires m != []
    ensures Keys(m) == [m[0].0] + Keys(m[1..])
  {
  }

  lemma {:induction false} KeysConcat<V>(a: Entries<V>, b: Entries<V>)
    ensures Keys(a + b) == Keys(a) + Keys(b)
  {
  }

  /** Setting a key keeps the key order and adds the key at the end when it is new. */
  lemma {:induction false} PutKeys<V>(m: Entries<V>, k: string, v: V)
    ensures Keys(Put(m, k, v)) == if k in Keys(m) then Keys(m) else Keys(m) + [k]
  {
    if m != [] {
      KeysCons(m);
      KeysCons(Put(m, k, v));
      if m[0].0 != k {
        PutKeys(m[1..], k, v);
      }
    }
  }

  /** After setting `k` to `v`, `k` reads `v` and every other key reads what it read before. */
  lemma {:induction false} LookupPut<V>(m: Entries<V>, k: string, v: V, k': string)
    ensures Lookup(Put(m, k, v), k') == if k' == k then Some(v) else Lookup(m, k')
  {
    if m != [] && m[0].0 != k {
      assert Put(m, k, v)[1..] == Put(m[1..], k, v);
      LookupPut(m[1..], k, v, k');
    }
  }

  /** A key has a value exactly when it is one of the keys. */
  lemma {:induction false} LookupPresent<V>(m: Entries<V>, k: string)
    ensures Lookup(m, k).Some? <==> k in Keys(m)
  {
    if m != [] {
      KeysCons(m);
      LookupPresent(m[1..], k);
    }
  }

  /** With distinct keys, the `i`-th entry is what its key reads. */
  lemma {:induction false} LookupAt<V>(m: Entries<V>, i: nat)
    requires Distinct(Keys(m)) && i < |m|
    ensures Lookup(m, m[i].0) == Some(m[i].1)
  {
    if i > 0 {
      KeysCons(m);
      assert m[0].0 == Keys(m)[0] && m[i].0 == Keys(m)[i];
      assert Distinct(Keys(m[1..])) by {
        forall a, b | 0 <= a < b < |m[1..]| ensures Keys(m[1..])[a] != Keys(m[1..])[b] {
          assert Keys(m[1..])[a] == Keys(m)[a + 1] && Keys(m[1..])[b] == Keys(m)[b + 1];
        }
      }
      LookupAt(m[1..], i - 1);
    }
  }

  /** A lookup in a concatenation finds the first part's entry when the key is there. */
  lemma {:induction false} LookupConcat<V>(a: Entries<V>, b: Entries<V>, k: string)
    ensures Lookup(a + b, k) == if k in Keys(a) then Lookup(a, k) else Lookup(b, k)
  {
    if a != [] {
      KeysCons(a);
      assert (a + b)[1..] == a[1..] + b;
      LookupConcat(a[1..], b, k);
    } else {
      assert a + b == b;
    }
  }
}
