/** Association lists: an insertion-ordered sequence of key/value pairs, the
    shape of a Python `dict` built from a literal or a comprehension. */
module AssocList {
  import opened Wrappers

  /** The keys of `s`, in insertion order. */
  function Keys<K, V>(s: seq<(K, V)>): (ks: seq<K>)
    ensures |ks| == |s|
    ensures forall i :: 0 <= i < |s| ==> ks[i] == s[i].0
  {
    if |s| == 0 then [] else [s[0].0] + Keys(s[1..])
  }

  /** No element occurs twice. */
  predicate Distinct<T(==)>(s: seq<T>)
  {
    forall i, j :: 0 <= i < j < |s| ==> s[i] != s[j]
  }

  /** `a` is obtained from `b` by deleting elements (order kept). Greedy
      leftmost matching decides this. */
  predicate IsSubsequence<T(==)>(a: seq<T>, b: seq<T>)
    decreases |b|
  {
    if |a| == 0 then true
    else if |b| == 0 then false
    else if a[0] == b[0] then IsSubsequence(a[1..], b[1..])
    else IsSubsequence(a, b[1..])
  }

  /** The value stored under `k`. */
  function Lookup<K(==), V(==)>(s: seq<(K, V)>, k: K): (r: Option<V>)
  {
    if |s| == 0 then None
    else if s[0].0 == k then Some(s[0].1)
    else Lookup(s[1..], k)
  }

  /** A key has a value exactly when it is listed, and that value is paired
      with it in one of the entries. */
  lemma {:induction false} LookupMembers<K, V>(s: seq<(K, V)>, k: K)
    ensures Lookup(s, k).None? <==> k !in Keys(s)
    ensures Lookup(s, k).Some? ==> (k, Lookup(s, k).value) in s
    decreases |s|
  {
    if |s| > 0 {
      LookupMembers(s[1..], k);
      assert Keys(s) == [s[0].0] + Keys(s[1..]);
      if s[0].0 != k && Lookup(s, k).Some? {
        assert (k, Lookup(s, k).value) in s[1..];
      }
    }
  }

  /** `{k: v for k, v in s if v is not None}`: keeps exactly the entries whose
      value is present, unwrapped, in their original order. */
  function Compact<K(==), V(==)>(s: seq<(K, Option<V>)>): (r: seq<(K, V)>)
    ensures |r| <= |s|
  {
    if |s| == 0 then []
    else if s[0].1.Some? then [(s[0].0, s[0].1.value)] + Compact(s[1..])
    else Compact(s[1..])
  }

  /** The part of the filtered list contributed by a single entry. */
  function Keep<K, V>(p: (K, Option<V>)): seq<(K, V)>
  {
    if p.1.Some? then [(p.0, p.1.value)] else []
  }

  /** Filtering a suffix peels off its first entry. */
  lemma CompactSuffixStep<K, V>(s: seq<(K, Option<V>)>, i: nat)
    requires i < |s|
    ensures Compact(s[i..]) == Keep(s[i]) + Compact(s[i + 1..])
  {
    assert s[i..][0] == s[i];
    assert s[i..][1..] == s[i + 1..];
  }

  /** The filtered list holds exactly the present entries, unwrapped. */
  lemma {:induction false} CompactMembers<K, V>(s: seq<(K, Option<V>)>)
    ensures forall p :: p in Compact(s) ==> (p.0, Some(p.1)) in s
    ensures forall p :: p in s && p.1.Some? ==> (p.0, p.1.value) in Compact(s)
    decreases |s|
  {
    if |s| > 0 {
      CompactMembers(s[1..]);
      assert s == [s[0]] + s[1..];
    }
  }

  /** A list whose values are all absent filters to nothing. */
  lemma {:induction false} CompactAllAbsent<K, V>(s: seq<(K, Option<V>)>)
    requires forall i :: 0 <= i < |s| ==> s[i].1.None?
    ensures Compact(s) == []
    decreases |s|
  {
    if |s| > 0 {
      assert s[0].1.None?;
      CompactAllAbsent(s[1..]);
    }
  }

  /** Filtering distributes over concatenation. */
  lemma {:induction false} CompactAppend<K, V>(a: seq<(K, Option<V>)>, b: seq<(K, Option<V>)>)
    ensures Compact(a + b) == Compact(a) + Compact(b)
    decreases |a|
  {
    if |a| == 0 {
      assert a + b == b;
    } else {
      assert (a + b)[0] == a[0];
      assert (a + b)[1..] == a[1..] + b;
      CompactAppend(a[1..], b);
    }
  }

  /** Every element of a subsequence is an element of the whole. */
  lemma {:induction false} SubsequenceMembers<T>(a: seq<T>, b: seq<T>, x: T)
    requires IsSubsequence(a, b)
    requires x in a
    ensures x in b
    decreases |b|
  {
    if a[0] == b[0] {
      if x != a[0] {
        assert x in a[1..];
        SubsequenceMembers(a[1..], b[1..], x);
      }
    } else {
      SubsequenceMembers(a, b[1..], x);
    }
  }

  /** A subsequence of a duplicate-free sequence is duplicate-free. */
  lemma {:induction false} SubsequenceOfDistinct<T>(a: seq<T>, b: seq<T>)
    requires IsSubsequence(a, b)
    requires Distinct(b)
    ensures Distinct(a)
    decreases |b|
  {
    if |a| == 0 {
    } else if a[0] == b[0] {
      SubsequenceOfDistinct(a[1..], b[1..]);
      forall i, j | 0 <= i < j < |a|
        ensures a[i] != a[j]
      {
        if i == 0 {
          assert a[j] in a[1..];
          SubsequenceMembers(a[1..], b[1..], a[j]);
          assert b[0] !in b[1..];
        } else {
          assert a[i] == a[1..][i - 1] && a[j] == a[1..][j - 1];
        }
      }
    } else {
      SubsequenceOfDistinct(a, b[1..]);
    }
  }

  /** The keys that survive filtering keep their relative order. */
  lemma {:induction false} CompactKeysSubsequence<K, V>(s: seq<(K, Option<V>)>)
    ensures IsSubsequence(Keys(Compact(s)), Keys(s))
    decreases |s|
  {
    if |s| == 0 {
    } else {
      CompactKeysSubsequence(s[1..]);
      var ks := Keys(s);
      assert ks[0] == s[0].0 && ks[1..] == Keys(s[1..]);
      if s[0].1.Some? {
        var r := Compact(s);
        assert r == [(s[0].0, s[0].1.value)] + Compact(s[1..]);
        assert Keys(r)[0] == s[0].0;
        assert Keys(r)[1..] == Keys(Compact(s[1..]));
      } else {
        SkipHeadSubsequence(Keys(Compact(s[1..])), ks);
      }
    }
  }

  /** Dropping the head of the longer sequence never hurts (when the shorter
      is already a subsequence of the rest). */
  lemma {:induction false} SkipHeadSubsequence<T>(a: seq<T>, b: seq<T>)
    requires |b| > 0
    requires IsSubsequence(a, b[1..])
    ensures IsSubsequence(a, b)
    decreases |b|, |a|
  {
    if |a| == 0 {
    } else if a[0] == b[0] {
      // Prefer the greedy match: a[1..] is a subsequence of b[2..] or of b[1..].
      PeelHead(a, b[1..]);
    }
  }

  /** If `a` is a subsequence of `b`, so is its tail. */
  lemma {:induction false} PeelHead<T>(a: seq<T>, b: seq<T>)
    requires |a| > 0
    requires IsSubsequence(a, b)
    ensures IsSubsequence(a[1..], b)
    decreases |b|, |a|
  {
    if a[0] == b[0] {
      SkipHeadSubsequence(a[1..], b);
    } else {
      PeelHead(a, b[1..]);
      SkipHeadSubsequence(a[1..], b);
    }
  }

  /** With duplicate-free keys, looking a key up after filtering gives the
      value stored under it before, and nothing when that value was absent. */
  lemma {:induction false} CompactLookup<K, V>(s: seq<(K, Option<V>)>, k: K)
    requires Distinct(Keys(s))
    ensures Lookup(Compact(s), k) == Flatten(Lookup(s, k))
    decreases |s|
  {
    if |s| == 0 {
    } else {
      var ks := Keys(s);
      assert ks[1..] == Keys(s[1..]);
      assert Distinct(Keys(s[1..])) by {
        forall i, j | 0 <= i < j < |s[1..]|
          ensures Keys(s[1..])[i] != Keys(s[1..])[j]
        {
          assert Keys(s[1..])[i] == ks[i + 1] && Keys(s[1..])[j] == ks[j + 1];
        }
      }
      CompactLookup(s[1..], k);
      if s[0].0 == k {
        assert k !in Keys(s[1..]) by {
          forall i | 0 <= i < |Keys(s[1..])|
            ensures Keys(s[1..])[i] != k
          {
            assert Keys(s[1..])[i] == ks[i + 1];
          }
        }
        LookupMembers(s[1..], k);
      }
    }
  }
}


