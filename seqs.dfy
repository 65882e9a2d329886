/**
 * The Kotlin collection operations that the grouping and the registry refresh
 * are built from: `filter`, `partition`, `sortedBy` (a stable sort on a string
 * key), `distinctBy` and `reversed`.
 */
module Seqs {
  import opened Strings

  /** Kotlin's `filter`, keeping the order of the kept elements. */
  function Filter<T>(s: seq<T>, p: T -> bool): (r: seq<T>)
    ensures |r| <= |s|
    ensures forall i :: 0 <= i < |r| ==> p(r[i])
    ensures forall x :: x in r ==> x in s
  {
    if |s| == 0 then []
    else if p(s[0]) then [s[0]] + Filter(s[1..], p)
    else Filter(s[1..], p)
  }

  lemma {:induction false} FilterAppend<T>(a: seq<T>, b: seq<T>, p: T -> bool)
    ensures Filter(a + b, p) == Filter(a, p) + Filter(b, p)
  {
    if |a| > 0 {
      assert (a + b)[1..] == a[1..] + b;
      FilterAppend(a[1..], b, p);
    } else {
      assert a + b == b;
    }
  }

  lemma FilterSingle<T>(x: T, p: T -> bool)
    ensures Filter([x], p) == if p(x) then [x] else []
  {
    assert [x][1..] == [];
  }

  /** When exactly the element at `i` satisfies `p`, filtering keeps that element alone. */
  lemma FilterUnique<T>(s: seq<T>, p: T -> bool, i: nat)
    requires i < |s| && p(s[i])
    requires forall j :: 0 <= j < |s| && j != i ==> !p(s[j])
    ensures Filter(s, p) == [s[i]]
  {
    var before, after := s[..i], s[i + 1..];
    assert s == before + [s[i]] + after;
    assert forall j :: 0 <= j < |before| ==> before[j] == s[j];
    assert forall j :: 0 <= j < |after| ==> after[j] == s[i + 1 + j];
    FilterAppend(before + [s[i]], after, p);
    FilterAppend(before, [s[i]], p);
    FilterNone(before, p);
    FilterNone(after, p);
    FilterSingle(s[i], p);
  }

  /** Every element satisfying `p` is kept. */
  lemma {:induction false} FilterKeeps<T>(s: seq<T>, p: T -> bool, x: T)
    requires x in s && p(x)
    ensures x in Filter(s, p)
  {
    if s[0] != x {
      FilterKeeps(s[1..], p, x);
    }
  }

  lemma {:induction false} FilterNone<T>(s: seq<T>, p: T -> bool)
    requires forall i :: 0 <= i < |s| ==> !p(s[i])
    ensures Filter(s, p) == []
  {
    if |s| > 0 {
      assert forall i :: 0 <= i < |s[1..]| ==> s[1..][i] == s[i + 1];
      FilterNone(s[1..], p);
    }
  }

  /** Filtering keeps exactly the multiplicity of the elements that satisfy `p`. */
  lemma {:induction false} FilterMultiset<T>(s: seq<T>, p: T -> bool, x: T)
    ensures multiset(Filter(s, p))[x] == if p(x) then multiset(s)[x] else 0
  {
    if |s| > 0 {
      assert s == [s[0]] + s[1..];
      FilterMultiset(s[1..], p, x);
    }
  }

  /** Filtering a permutation gives a permutation of the filtered sequence. */
  lemma FilterPermutation<T>(a: seq<T>, b: seq<T>, p: T -> bool)
    requires multiset(a) == multiset(b)
    ensures multiset(Filter(a, p)) == multiset(Filter(b, p))
    ensures |Filter(a, p)| == |Filter(b, p)|
  {
    var fa, fb := Filter(a, p), Filter(b, p);
    forall x ensures multiset(fa)[x] == multiset(fb)[x] {
      FilterMultiset(a, p, x);
      FilterMultiset(b, p, x);
    }
    MultisetExt(multiset(fa), multiset(fb));
    assert |multiset(Filter(a, p))| == |Filter(a, p)|;
    assert |multiset(Filter(b, p))| == |Filter(b, p)|;
  }

  lemma MultisetExt<T>(a: multiset<T>, b: multiset<T>)
    requires forall x :: a[x] == b[x]
    ensures a == b
  {
  }

  /** Two different positions satisfying `p` give at least two kept elements. */
  lemma {:induction false} FilterTwo<T>(s: seq<T>, p: T -> bool, i: nat, j: nat)
    requires i < j < |s| && p(s[i]) && p(s[j])
    ensures |Filter(s, p)| >= 2
  {
    if i > 0 {
      FilterTwo(s[1..], p, i - 1, j - 1);
    } else {
      FilterKeeps(s[1..], p, s[j]);
    }
  }

  /** The keys of `s` are pairwise different. */
  predicate DistinctKeys<T>(s: seq<T>, key: T -> string)
  {
    forall i, j :: 0 <= i < j < |s| ==> key(s[i]) != key(s[j])
  }

  /** In a sequence with distinct keys at most one element has a given key. */
  lemma {:induction false} DistinctKeysAtMostOne<T>(s: seq<T>, key: T -> string, k: string, p: T -> bool)
    requires DistinctKeys(s, key)
    requires forall i :: 0 <= i < |s| ==> (p(s[i]) <==> key(s[i]) == k)
    ensures |Filter(s, p)| <= 1
  {
    if |s| > 0 {
      assert forall i :: 0 <= i < |s[1..]| ==> s[1..][i] == s[i + 1];
      assert DistinctKeys(s[1..], key) by {
        forall i, j | 0 <= i < j < |s[1..]| ensures key(s[1..][i]) != key(s[1..][j]) {
          assert s[1..][i] == s[i + 1] && s[1..][j] == s[j + 1];
        }
      }
      DistinctKeysAtMostOne(s[1..], key, k, p);
      if p(s[0]) {
        forall i | 0 <= i < |s[1..]| ensures !p(s[1..][i]) {
          assert s[1..][i] == s[i + 1];
        }
        FilterNone(s[1..], p);
      }
    }
  }

  /** A permutation of a sequence with distinct keys has distinct keys. */
  lemma DistinctKeysPermutation<T>(a: seq<T>, b: seq<T>, key: T -> string)
    requires multiset(a) == multiset(b) && DistinctKeys(a, key)
    ensures DistinctKeys(b, key)
  {
    forall i, j | 0 <= i < j < |b| ensures key(b[i]) != key(b[j]) {
      if key(b[i]) == key(b[j]) {
        var k := key(b[i]);
        var p := (x: T) => key(x) == k;
        FilterTwo(b, p, i, j);
        FilterPermutation(a, b, p);
        DistinctKeysAtMostOne(a, key, k, p);
        assert false;
      }
    }
  }

  /** Having the key `k`. */
  /** The concatenation of the sequences of `ss`, in order. */
  function Flatten<T>(ss: seq<seq<T>>): (r: seq<T>)
    ensures forall i, x :: 0 <= i < |ss| && x in ss[i] ==> x in r
    ensures forall x :: x in r ==> exists i :: 0 <= i < |ss| && x in ss[i]
  {
    if ss == [] then [] else ss[0] + Flatten(ss[1..])
  }

  /** Filtering a concatenation filters each part. */
  lemma {:induction false} FilterFlatten<T>(ss: seq<seq<T>>, p: T -> bool)
    ensures Filter(Flatten(ss), p) == Flatten(seq(|ss|, i requires 0 <= i < |ss| => Filter(ss[i], p)))
  {
    if ss != [] {
      FilterAppend(ss[0], Flatten(ss[1..]), p);
      FilterFlatten(ss[1..], p);
      var fs := seq(|ss|, i requires 0 <= i < |ss| => Filter(ss[i], p));
      assert fs[1..] == seq(|ss[1..]|, i requires 0 <= i < |ss[1..]| => Filter(ss[1..][i], p));
    }
  }

  function KeyIs<T>(key: T -> string, k: string): T -> bool
  {
    (x: T) => key(x) == k
  }

  /** `r` lists the elements of every key in the order `s` lists them: what makes a sort stable. */
  ghost predicate SameTies<T>(s: seq<T>, r: seq<T>, key: T -> string)
  {
    forall k :: Filter(r, KeyIs(key, k)) == Filter(s, KeyIs(key, k))
  }

  /** With distinct keys, the elements with the key of `s[j]` are `s[j]` alone. */
  lemma FilterDistinctKey<T>(s: seq<T>, key: T -> string, j: nat)
    requires DistinctKeys(s, key) && j < |s|
    ensures Filter(s, KeyIs(key, key(s[j]))) == [s[j]]
  {
    var p := KeyIs(key, key(s[j]));
    forall i | 0 <= i < |s| && i != j ensures !p(s[i]) {
      if i < j {
        assert key(s[i]) != key(s[j]);
      } else {
        assert key(s[j]) != key(s[i]);
      }
    }
    FilterUnique(s, p, j);
  }

  /** `s` is in ascending `key` order (equal keys allowed). */
  predicate SortedBy<T>(s: seq<T>, key: T -> string)
  {
    forall i, j :: 0 <= i < j < |s| ==> !Less(key(s[j]), key(s[i]))
  }

  /** Inserts `x` before the first element whose key is not smaller: stable for a front-to-back insertion sort. */
  function InsertBy<T>(x: T, s: seq<T>, key: T -> string): (r: seq<T>)
    ensures multiset(r) == multiset(s) + multiset{x}
    ensures |r| == |s| + 1
    ensures SortedBy(s, key) ==> SortedBy(r, key)
  {
    if |s| == 0 then [x]
    else if !Less(key(s[0]), key(x)) then
      assert SortedBy(s, key) ==> SortedBy([x] + s, key) by {
        if SortedBy(s, key) {
          forall j | 0 < j < |[x] + s| ensures !Less(key(([x] + s)[j]), key(x)) {
            if j > 1 {
              NotLessTransitive(key(x), key(s[0]), key(s[j - 1]));
            }
          }
        }
      }
      [x] + s
    else
      var rest := InsertBy(x, s[1..], key);
      assert s == [s[0]] + s[1..];
      assert SortedBy(s, key) ==> SortedBy([s[0]] + rest, key) by {
        if SortedBy(s, key) {
          assert SortedBy(s[1..], key) by {
            forall i, j | 0 <= i < j < |s[1..]| ensures !Less(key(s[1..][j]), key(s[1..][i])) {
              assert s[1..][i] == s[i + 1] && s[1..][j] == s[j + 1];
            }
          }
          LessAsymmetric(key(s[0]), key(x));
          forall j | 0 <= j < |rest| ensures !Less(key(rest[j]), key(s[0])) {
            assert rest[j] in multiset(rest);
            if rest[j] != x {
              assert rest[j] in multiset(s[1..]);
              var m :| 0 <= m < |s[1..]| && s[1..][m] == rest[j];
              assert s[m + 1] == rest[j];
            }
          }
        }
      }
      [s[0]] + rest
  }

  /** Among the elements with one key, `x` comes first and the others keep their order. */
  lemma {:induction false} InsertByTies<T>(x: T, s: seq<T>, key: T -> string, k: string)
    ensures Filter(InsertBy(x, s, key), KeyIs(key, k)) == Filter([x], KeyIs(key, k)) + Filter(s, KeyIs(key, k))
  {
    var p := KeyIs(key, k);
    FilterSingle(x, p);
    if |s| == 0 {
      assert Filter(s, p) == [];
    } else if !Less(key(s[0]), key(x)) {
      FilterAppend([x], s, p);
    } else {
      var rest := InsertBy(x, s[1..], key);
      assert InsertBy(x, s, key) == [s[0]] + rest;
      assert s == [s[0]] + s[1..];
      InsertByTies(x, s[1..], key, k);
      FilterAppend([s[0]], rest, p);
      FilterAppend([s[0]], s[1..], p);
      FilterSingle(s[0], p);
      LessIrreflexive(key(x));
    }
  }

  /** Kotlin's `sortedBy(key)`: a stable sort into ascending key order (stability is `SortByStable`). */
  function SortBy<T>(s: seq<T>, key: T -> string): (r: seq<T>)
    ensures multiset(r) == multiset(s)
    ensures |r| == |s|
    ensures SortedBy(r, key)
  {
    if |s| == 0 then []
    else
      assert s == [s[0]] + s[1..];
      InsertBy(s[0], SortBy(s[1..], key), key)
  }

  /** `sortedBy` is stable: the elements of each key keep their order. */
  lemma {:induction false} SortByStable<T>(s: seq<T>, key: T -> string)
    ensures SameTies(s, SortBy(s, key), key)
  {
    if |s| > 0 {
      assert s == [s[0]] + s[1..];
      var rest := SortBy(s[1..], key);
      SortByStable(s[1..], key);
      forall k ensures Filter(SortBy(s, key), KeyIs(key, k)) == Filter(s, KeyIs(key, k)) {
        InsertByTies(s[0], rest, key, k);
        FilterAppend([s[0]], s[1..], KeyIs(key, k));
      }
    }
  }

  /** A sorted sequence with distinct keys is strictly ascending. */
  lemma SortedDistinctStrict<T>(s: seq<T>, key: T -> string)
    requires SortedBy(s, key) && DistinctKeys(s, key)
    ensures forall i, j :: 0 <= i < j < |s| ==> Less(key(s[i]), key(s[j]))
  {
    forall i, j | 0 <= i < j < |s| ensures Less(key(s[i]), key(s[j])) {
      LessTotal(key(s[i]), key(s[j]));
    }
  }

  /** Reversing a strictly ascending sequence gives a strictly descending one. */
  lemma ReverseStrict<T>(s: seq<T>, key: T -> string)
    requires forall i, j :: 0 <= i < j < |s| ==> Less(key(s[i]), key(s[j]))
    ensures forall i, j :: 0 <= i < j < |Reverse(s)| ==> Less(key(Reverse(s)[j]), key(Reverse(s)[i]))
  {
    var r := Reverse(s);
    forall i, j | 0 <= i < j < |r| ensures Less(key(r[j]), key(r[i])) {
      assert r[i] == s[|s| - 1 - i] && r[j] == s[|s| - 1 - j];
    }
  }

  /** Kotlin's `reversed()`. */
  function Reverse<T>(s: seq<T>): (r: seq<T>)
    ensures |r| == |s|
    ensures forall i :: 0 <= i < |s| ==> r[i] == s[|s| - 1 - i]
    ensures multiset(r) == multiset(s)
  {
    if |s| == 0 then []
    else
      assert s == [s[0]] + s[1..];
      Reverse(s[1..]) + [s[0]]
  }

  /** The keys of the elements of `s`. */
  ghost function KeySet<T>(s: seq<T>, key: T -> string): set<string>
  {
    set x | x in s :: key(x)
  }

  /**
   * Kotlin's `distinctBy(key)`, with the keys already seen in `seen`: keeps the
   * first element of each key not yet seen, in order.
   */
  function DistinctFrom<T>(s: seq<T>, key: T -> string, seen: set<string>): (r: seq<T>)
    ensures forall x :: x in r ==> x in s && key(x) !in seen
    ensures DistinctKeys(r, key)
    ensures KeySet(r, key) == KeySet(s, key) - seen
    ensures forall i :: 0 <= i < |s| && key(s[i]) !in seen && (forall j :: 0 <= j < i ==> key(s[j]) != key(s[i])) ==> s[i] in r
  {
    if |s| == 0 then []
    else
      assert s == [s[0]] + s[1..];
      if key(s[0]) in seen then
        var r := DistinctFrom(s[1..], key, seen);
        assert forall i :: 1 <= i < |s| ==> s[i] == s[1..][i - 1];
        r
      else
        var rest := DistinctFrom(s[1..], key, seen + {key(s[0])});
        var r := [s[0]] + rest;
        assert forall i :: 1 <= i < |s| ==> s[i] == s[1..][i - 1];
        assert DistinctKeys(r, key) by {
          forall i, j | 0 <= i < j < |r| ensures key(r[i]) != key(r[j]) {
            if i > 0 {
              assert r[i] == rest[i - 1] && r[j] == rest[j - 1];
            } else {
              assert r[j] == rest[j - 1] && r[j] in rest;
            }
          }
        }
        assert KeySet(r, key) == KeySet(s, key) - seen by {
          forall k | k in KeySet(s, key) - seen ensures k in KeySet(r, key) {
            var y :| y in s && key(y) == k;
            if k != key(s[0]) {
              assert y in s[1..];
              assert k in KeySet(rest, key);
              var z :| z in rest && key(z) == k;
              assert z in r;
            }
          }
        }
        r
  }

  function DistinctBy<T>(s: seq<T>, key: T -> string): (r: seq<T>)
    ensures forall x :: x in r ==> x in s
    ensures DistinctKeys(r, key)
    ensures KeySet(r, key) == KeySet(s, key)
    ensures forall i :: 0 <= i < |s| && (forall j :: 0 <= j < i ==> key(s[j]) != key(s[i])) ==> s[i] in r
  {
    DistinctFrom(s, key, {})
  }
}
