/** Small shared vocabulary: an optional value and filtering/counting over sequences,
    the two array idioms (`find`, `filter(...).length`) the application leans on. */
module Common {

  datatype Option<+T> = None | Some(value: T)

  /** `xs.filter(p)`: the elements of `s` satisfying `p`, in their original order. */
  function Filter<T>(s: seq<T>, p: T -> bool): (r: seq<T>)
    ensures |r| <= |s|
    ensures forall i :: 0 <= i < |r| ==> r[i] in s && p(r[i])
    ensures forall i :: 0 <= i < |s| && p(s[i]) ==> s[i] in r
    decreases |s|
  {
    if s == [] then []
    else if p(s[0]) then [s[0]] + Filter(s[1..], p)
    else Filter(s[1..], p)
  }

  /** `xs.filter(p).length`. */
  function Count<T>(s: seq<T>, p: T -> bool): (n: nat)
    ensures n <= |s|
  {
    |Filter(s, p)|
  }

  lemma {:induction false} FilterAppend<T>(a: seq<T>, b: seq<T>, p: T -> bool)
    ensures Filter(a + b, p) == Filter(a, p) + Filter(b, p)
    decreases |a|
  {
    if a == [] {
      assert a + b == b;
    } else {
      assert (a + b)[1..] == a[1..] + b;
      FilterAppend(a[1..], b, p);
    }
  }

  /** Filtering a non-empty sequence: its head, then its tail. */
  lemma FilterHead<T>(s: seq<T>, p: T -> bool)
    requires s != []
    ensures Filter(s, p) == Filter([s[0]], p) + Filter(s[1..], p)
  {
    FilterAppend([s[0]], s[1..], p);
    assert s == [s[0]] + s[1..];
  }

  /** Filtering a non-empty sequence: all but its last element, then the last. */
  lemma FilterLast<T>(s: seq<T>, p: T -> bool)
    requires s != []
    ensures Filter(s, p) == Filter(s[..|s| - 1], p) + Filter([s[|s| - 1]], p)
  {
    FilterAppend(s[..|s| - 1], [s[|s| - 1]], p);
    assert s == s[..|s| - 1] + [s[|s| - 1]];
  }

  /** `f` holds strictly increasing positions of `s`, and `r` lists the
      elements of `s` at those positions, in that order. */
  ghost predicate PickedInOrder<T>(s: seq<T>, r: seq<T>, f: seq<nat>)
  {
    |f| == |r| &&
    (forall i :: 0 <= i < |f| ==> f[i] < |s| && r[i] == s[f[i]]) &&
    (forall i, j :: 0 <= i < j < |f| ==> f[i] < f[j])
  }

  /** The positions of `s` whose element satisfies `p`, in increasing order. */
  ghost function Positions<T>(s: seq<T>, p: T -> bool): seq<nat>
    decreases |s|
  {
    if s == [] then []
    else Positions(s[..|s| - 1], p) + (if p(s[|s| - 1]) then [|s| - 1] else [])
  }

  /** The positions are positions of `s`, strictly increasing, and exactly
      those whose element satisfies `p`. */
  lemma {:induction false} PositionsSpec<T>(s: seq<T>, p: T -> bool)
    ensures forall i :: 0 <= i < |Positions(s, p)| ==> Positions(s, p)[i] < |s|
    ensures forall i, j :: 0 <= i < j < |Positions(s, p)| ==> Positions(s, p)[i] < Positions(s, p)[j]
    ensures forall k :: 0 <= k < |s| ==> (p(s[k]) <==> k in Positions(s, p))
    decreases |s|
  {
    if s != [] {
      var n := |s| - 1;
      var s0 := s[..n];
      PositionsSpec(s0, p);
      var f0 := Positions(s0, p);
      var f := Positions(s, p);
      assert f == f0 + (if p(s[n]) then [n] else []);
      forall k | 0 <= k < |s|
        ensures p(s[k]) <==> k in f
      {
        if k < n {
          assert s[k] == s0[k];
        }
      }
    }
  }

  /** `Filter` keeps exactly the elements satisfying `p`, each once and in
      their order in `s`. */
  lemma {:induction false} FilterPicksInOrder<T>(s: seq<T>, p: T -> bool)
    ensures PickedInOrder(s, Filter(s, p), Positions(s, p))
    ensures forall k :: 0 <= k < |s| ==> (p(s[k]) <==> k in Positions(s, p))
    decreases |s|
  {
    PositionsSpec(s, p);
    if s != [] {
      var n := |s| - 1;
      var s0 := s[..n];
      FilterPicksInOrder(s0, p);
      FilterLast(s, p);
      var f0 := Positions(s0, p);
      var r0 := Filter(s0, p);
      var tail := if p(s[n]) then [s[n]] else [];
      assert Filter([s[n]], p) == tail by {
        assert [s[n]][1..] == [];
      }
      assert Filter(s, p) == r0 + tail;
      assert Positions(s, p) == f0 + (if p(s[n]) then [n] else []);
      forall i | 0 <= i < |f0|
        ensures Filter(s, p)[i] == s[Positions(s, p)[i]]
      {
        assert s[f0[i]] == s0[f0[i]];
      }
    }
  }

  lemma ConcatAssoc<T>(a: seq<T>, b: seq<T>, c: seq<T>)
    ensures a + (b + c) == (a + b) + c
  {
  }

  /** Filtering is idempotent, and filtering by a predicate the first filter
      already forces keeps everything. */
  lemma {:induction false} FilterFilter<T>(s: seq<T>, p: T -> bool, q: T -> bool)
    requires forall i :: 0 <= i < |s| && p(s[i]) ==> q(s[i])
    ensures Filter(Filter(s, p), q) == Filter(s, p)
    decreases |s|
  {
    if s != [] {
      FilterFilter(s[1..], p, q);
    }
  }

  /** Filtering by a stronger predicate after a weaker one is filtering by
      the stronger one alone. */
  lemma {:induction false} FilterNarrow<T>(s: seq<T>, p: T -> bool, q: T -> bool)
    requires forall i :: 0 <= i < |s| && q(s[i]) ==> p(s[i])
    ensures Filter(Filter(s, p), q) == Filter(s, q)
    decreases |s|
  {
    if s != [] {
      FilterNarrow(s[1..], p, q);
    }
  }

  /** Filtering by a predicate disjoint from the first one leaves nothing. */
  lemma {:induction false} FilterDisjoint<T>(s: seq<T>, p: T -> bool, q: T -> bool)
    requires forall i :: 0 <= i < |s| && p(s[i]) ==> !q(s[i])
    ensures Filter(Filter(s, p), q) == []
    decreases |s|
  {
    if s != [] {
      FilterDisjoint(s[1..], p, q);
    }
  }

  /** The multiset of a sequence splits between the elements that satisfy `p`
      and those that do not. */
  lemma {:induction false} FilterSplitsMultiset<T>(s: seq<T>, p: T -> bool)
    ensures multiset(Filter(s, p)) + multiset(Filter(s, x => !p(x))) == multiset(s)
    decreases |s|
  {
    if s != [] {
      FilterSplitsMultiset(s[1..], p);
      assert s == [s[0]] + s[1..];
    }
  }

  /** Two filters with the same verdict on every element of `s` agree on `s`. */
  lemma {:induction false} FilterCongruent<T>(s: seq<T>, p: T -> bool, q: T -> bool)
    requires forall i :: 0 <= i < |s| ==> p(s[i]) == q(s[i])
    ensures Filter(s, p) == Filter(s, q)
    decreases |s|
  {
    if s != [] {
      FilterCongruent(s[1..], p, q);
    }
  }

  /** `xs.find(p)`: the first element satisfying `p`, if any. */
  function Find<T>(s: seq<T>, p: T -> bool): (r: Option<T>)
    ensures r.None? <==> forall i :: 0 <= i < |s| ==> !p(s[i])
    ensures r.Some? ==> r.value in s && p(r.value)
    decreases |s|
  {
    if s == [] then None
    else if p(s[0]) then Some(s[0])
    else Find(s[1..], p)
  }

  /** `find` returns the element at the first index that satisfies `p`. */
  lemma {:induction false} FindFirst<T>(s: seq<T>, p: T -> bool, k: nat)
    requires k < |s| && p(s[k])
    requires forall i :: 0 <= i < k ==> !p(s[i])
    ensures Find(s, p) == Some(s[k])
    decreases k
  {
    if k > 0 {
      FindFirst(s[1..], p, k - 1);
    }
  }

  function Max(a: int, b: int): int { if a >= b then a else b }
  function Min(a: int, b: int): int { if a <= b then a else b }

  /** Every element satisfies `p`: filtering keeps the whole sequence. */
  lemma {:induction false} FilterAll<T>(s: seq<T>, p: T -> bool)
    requires forall i :: 0 <= i < |s| ==> p(s[i])
    ensures Filter(s, p) == s
    decreases |s|
  {
    if s != [] {
      FilterAll(s[1..], p);
    }
  }

  /** No element satisfies `p`: filtering keeps nothing. */
  lemma {:induction false} FilterNone<T>(s: seq<T>, p: T -> bool)
    requires forall i :: 0 <= i < |s| ==> !p(s[i])
    ensures Filter(s, p) == []
    decreases |s|
  {
    if s != [] {
      FilterNone(s[1..], p);
    }
  }

  /** The keys of `s` are pairwise distinct. */
  predicate UniqueKeys<T>(s: seq<T>, key: T -> string)
  {
    forall i, j :: 0 <= i < j < |s| ==> key(s[i]) != key(s[j])
  }

  /** The predicate "is filed under key `k`". */
  function HasKey<T>(key: T -> string, k: string): T -> bool
  {
    (y: T) => key(y) == k
  }

  lemma HasKeyApply<T>(key: T -> string, k: string, y: T)
    ensures HasKey(key, k)(y) == (key(y) == k)
  {
  }

  /** `[...prev.filter(r => r.key !== x.key), x]`: record `x`, replacing any
      earlier entry under the same key. */
  function Upsert<T>(s: seq<T>, key: T -> string, x: T): (r: seq<T>)
    ensures |r| >= 1 && r[|r| - 1] == x
  {
    Filter(s, (y: T) => key(y) != key(x)) + [x]
  }

  /** An upsert keeps only entries that were there before, then the new one. */
  lemma UpsertMembers<T>(s: seq<T>, key: T -> string, x: T)
    ensures forall i :: 0 <= i < |Upsert(s, key, x)| - 1 ==> Upsert(s, key, x)[i] in s
  {
  }

  /** After an upsert exactly one entry carries the recorded key. */
  lemma UpsertSingle<T>(s: seq<T>, key: T -> string, x: T)
    ensures Filter(Upsert(s, key, x), HasKey(key, key(x))) == [x]
  {
    var notX := (y: T) => key(y) != key(x);
    var isX := HasKey(key, key(x));
    FilterAppend(Filter(s, notX), [x], isX);
    FilterDisjoint(s, notX, isX);
  }

  /** An upsert leaves the entries under every other key as they were. */
  lemma UpsertOthers<T>(s: seq<T>, key: T -> string, x: T, k: string)
    requires k != key(x)
    ensures Filter(Upsert(s, key, x), HasKey(key, k)) == Filter(s, HasKey(key, k))
  {
    var notX := (y: T) => key(y) != key(x);
    var isK := HasKey(key, k);
    FilterAppend(Filter(s, notX), [x], isK);
    FilterNarrow(s, notX, isK);
  }

  /** Recording twice under the same key is recording the second value. */
  lemma UpsertTwice<T>(s: seq<T>, key: T -> string, x: T, z: T)
    requires key(x) == key(z)
    ensures Upsert(Upsert(s, key, x), key, z) == Upsert(s, key, z)
  {
    var notX := (y: T) => key(y) != key(x);
    var notZ := (y: T) => key(y) != key(z);
    FilterAppend(Filter(s, notX), [x], notZ);
    FilterCongruent(s, notX, notZ);
    FilterFilter(s, notZ, notZ);
  }

  lemma {:induction false} FilterKeepsUniqueKeys<T>(s: seq<T>, key: T -> string, p: T -> bool)
    requires UniqueKeys(s, key)
    ensures UniqueKeys(Filter(s, p), key)
    decreases |s|
  {
    if s != [] {
      FilterKeepsUniqueKeys(s[1..], key, p);
      if p(s[0]) {
        var rest := Filter(s[1..], p);
        forall i | 0 <= i < |rest|
          ensures key(s[0]) != key(rest[i])
        {
          var j :| 0 <= j < |s[1..]| && s[1..][j] == rest[i];
          assert s[j + 1] == rest[i];
        }
      }
    }
  }

  /** Picking elements at distinct positions keeps keys unique. */
  lemma PickedKeepsUniqueKeys<T>(s: seq<T>, r: seq<T>, f: seq<nat>, key: T -> string)
    requires PickedInOrder(s, r, f) && UniqueKeys(s, key)
    ensures UniqueKeys(r, key)
  {
    forall i, j | 0 <= i < j < |r|
      ensures key(r[i]) != key(r[j])
    {
      assert f[i] < f[j];
    }
  }

  /** Upserting keeps keys unique. */
  lemma UpsertKeepsUniqueKeys<T>(s: seq<T>, key: T -> string, x: T)
    requires UniqueKeys(s, key)
    ensures UniqueKeys(Upsert(s, key, x), key)
  {
    var notX := (y: T) => key(y) != key(x);
    FilterKeepsUniqueKeys(s, key, notX);
  }
}
