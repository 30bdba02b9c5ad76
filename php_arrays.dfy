/**
 * PHP's ordered arrays with string keys, as the client builds them: a sequence
 * of key/value entries in insertion order. Covers element assignment
 * (`$a[$k] = $v`), lookup (`$a[$k]`), `array_keys` and `ksort`.
 */
module PhpArrays {
  import opened Wrappers

  /** `array_keys`: the keys in array order. */
  function KeysOf<T>(s: seq<(string, T)>): (ks: seq<string>)
    ensures |ks| == |s|
    ensures forall i :: 0 <= i < |s| ==> ks[i] == s[i].0
  {
    seq(|s|, i requires 0 <= i < |s| => s[i].0)
  }

  /** A PHP array never holds the same key twice. */
  ghost predicate DistinctKeys<T>(s: seq<(string, T)>) {
    forall i, j :: 0 <= i < j < |s| ==> s[i].0 != s[j].0
  }

  /** The position of the (first) entry with key `k`, if any. */
  function IndexOf<T>(s: seq<(string, T)>, k: string): (r: Option<nat>)
    ensures r.None? <==> (forall i :: 0 <= i < |s| ==> s[i].0 != k)
    ensures r.Some? ==> r.value < |s| && s[r.value].0 == k
    ensures r.Some? ==> forall j :: 0 <= j < r.value ==> s[j].0 != k
  {
    if s == [] then None
    else if s[0].0 == k then Some(0)
    else
      match IndexOf(s[1..], k)
      case None => None
      case Some(i) => Some(i + 1)
  }

  /** `$a[$k]`: the value stored under `k`, if any. */
  function Lookup<T>(s: seq<(string, T)>, k: string): (r: Option<T>)
    ensures r.None? <==> (forall i :: 0 <= i < |s| ==> s[i].0 != k)
  {
    match IndexOf(s, k)
    case None => None
    case Some(i) => Some(s[i].1)
  }

  /** In an array with distinct keys, each entry is what its key looks up. */
  lemma LookupDistinct<T>(s: seq<(string, T)>, i: nat)
    requires DistinctKeys(s) && i < |s|
    ensures Lookup(s, s[i].0) == Some(s[i].1)
  {
  }

  /** `$a[$k] = $v`: overwrite the value in place when the key exists, append otherwise. */
  function Assign<T>(s: seq<(string, T)>, k: string, v: T): (r: seq<(string, T)>)
    ensures IndexOf(s, k).None? ==> r == s + [(k, v)]
    ensures IndexOf(s, k).Some? ==> |r| == |s| && KeysOf(r) == KeysOf(s)
  {
    match IndexOf(s, k)
    case None => s + [(k, v)]
    case Some(i) => s[i := (k, v)]
  }

  /** After `$a[$k] = $v`, `$a[$k]` is `v` and every other key reads as before. */
  lemma AssignLookup<T>(s: seq<(string, T)>, k: string, v: T, k': string)
    ensures Lookup(Assign(s, k, v), k) == Some(v)
    ensures k' != k ==> Lookup(Assign(s, k, v), k') == Lookup(s, k')
  {
    var r := Assign(s, k, v);
    match IndexOf(s, k)
    case None =>
      assert forall i :: 0 <= i < |s| ==> r[i] == s[i];
      var ir := IndexOf(r, k);
      assert r[|s|] == (k, v);
      if k' != k {
        assert r[|s|].0 != k';
        match IndexOf(s, k')
        case None =>
        case Some(j) =>
          assert r[j] == s[j];
      }
    case Some(i) =>
      assert forall j :: 0 <= j < |s| && j != i ==> r[j] == s[j];
      if k' != k {
        match IndexOf(s, k')
        case None =>
        case Some(j) =>
          assert r[j] == s[j];
      }
  }

  /** Assignment keeps the keys of a PHP array distinct. */
  lemma AssignDistinct<T>(s: seq<(string, T)>, k: string, v: T)
    requires DistinctKeys(s)
    ensures DistinctKeys(Assign(s, k, v))
  {
    var r := Assign(s, k, v);
    match IndexOf(s, k)
    case None =>
      assert forall i :: 0 <= i < |s| ==> r[i] == s[i];
    case Some(i) =>
      assert KeysOf(r) == KeysOf(s);
      forall a, b | 0 <= a < b < |r| ensures r[a].0 != r[b].0 {
        assert r[a].0 == KeysOf(r)[a] == KeysOf(s)[a] == s[a].0;
        assert r[b].0 == KeysOf(r)[b] == KeysOf(s)[b] == s[b].0;
      }
  }

  // ---- key order ---------------------------------------------------------

  /**
   * The order `ksort` puts string keys in: byte-wise lexicographic, a proper
   * prefix first (PHP compares two non-numeric strings like `strcmp`).
   */
  predicate KeyLess(a: string, b: string)
    ensures a < b ==> KeyLess(a, b)
  {
    if a == [] then b != []
    else b != [] && (a[0] < b[0] || (a[0] == b[0] && KeyLess(a[1..], b[1..])))
  }

  lemma {:induction false} KeyLessIrreflexive(a: string)
    ensures !KeyLess(a, a)
  {
    if a != [] { KeyLessIrreflexive(a[1..]); }
  }

  lemma {:induction false} KeyLessTransitive(a: string, b: string, c: string)
    requires KeyLess(a, b) && KeyLess(b, c)
    ensures KeyLess(a, c)
  {
    if a != [] && a[0] == b[0] && b[0] == c[0] {
      KeyLessTransitive(a[1..], b[1..], c[1..]);
    }
  }

  lemma {:induction false} KeyLessTotal(a: string, b: string)
    requires a != b
    ensures KeyLess(a, b) || KeyLess(b, a)
  {
    if a != [] && b != [] && a[0] == b[0] {
      assert a == [a[0]] + a[1..] && b == [b[0]] + b[1..];
      KeyLessTotal(a[1..], b[1..]);
    }
  }

  lemma KeyLessAsymmetric(a: string, b: string)
    requires KeyLess(a, b)
    ensures !KeyLess(b, a)
  {
    if KeyLess(b, a) {
      KeyLessTransitive(a, b, a);
      KeyLessIrreflexive(a);
    }
  }

  /** Two keys that agree on their first `n` characters and then differ are ordered by that character. */
  lemma {:induction false} KeyLessAt(a: string, b: string, n: nat)
    requires n < |a| && n < |b|
    requires a[..n] == b[..n] && a[n] < b[n]
    ensures KeyLess(a, b)
  {
    if n > 0 {
      assert a[0] == a[..n][0] == b[..n][0] == b[0];
      assert a[1..][..n - 1] == a[..n][1..] == b[..n][1..] == b[1..][..n - 1];
      KeyLessAt(a[1..], b[1..], n - 1);
    }
  }

  // ---- ksort -------------------------------------------------------------

  /** Keys strictly ascending, so also pairwise distinct. */
  ghost predicate SortedByKey<T>(s: seq<(string, T)>) {
    forall i, j :: 0 <= i < j < |s| ==> KeyLess(s[i].0, s[j].0)
  }

  /** Strictly ascending keys are pairwise distinct. */
  lemma SortedDistinct<T>(s: seq<(string, T)>)
    requires SortedByKey(s)
    ensures DistinctKeys(s)
  {
    forall i, j | 0 <= i < j < |s| ensures s[i].0 != s[j].0 {
      if s[i].0 == s[j].0 {
        KeyLessIrreflexive(s[i].0);
      }
    }
  }

  function Insert<T>(x: (string, T), s: seq<(string, T)>): seq<(string, T)> {
    if s == [] then [x]
    else if KeyLess(x.0, s[0].0) then [x] + s
    else [s[0]] + Insert(x, s[1..])
  }

  /** `ksort`: the entries reordered by ascending key (an insertion sort). */
  function SortByKey<T>(s: seq<(string, T)>): seq<(string, T)> {
    if s == [] then [] else Insert(s[0], SortByKey(s[1..]))
  }

  lemma {:induction false} KeyLessChain<T>(s: seq<(string, T)>, i: nat, j: nat)
    requires i < j < |s|
    requires forall k :: 0 <= k < |s| - 1 ==> KeyLess(s[k].0, s[k + 1].0)
    ensures KeyLess(s[i].0, s[j].0)
    decreases j - i
  {
    if j > i + 1 {
      KeyLessChain(s, i, j - 1);
      KeyLessTransitive(s[i].0, s[j - 1].0, s[j].0);
    }
  }

  /** Keys that ascend between neighbours ascend throughout. */
  lemma AdjacentAscendingSorted<T>(s: seq<(string, T)>)
    requires forall k :: 0 <= k < |s| - 1 ==> KeyLess(s[k].0, s[k + 1].0)
    ensures SortedByKey(s)
  {
    forall i, j | 0 <= i < j < |s| ensures KeyLess(s[i].0, s[j].0) {
      KeyLessChain(s, i, j);
    }
  }

  lemma {:induction false} InsertPermutes<T>(x: (string, T), s: seq<(string, T)>)
    ensures multiset(Insert(x, s)) == multiset(s) + multiset{x}
  {
    if s != [] && !KeyLess(x.0, s[0].0) {
      InsertPermutes(x, s[1..]);
      assert s == [s[0]] + s[1..];
    }
  }

  lemma {:induction false} SortByKeyPermutes<T>(s: seq<(string, T)>)
    ensures multiset(SortByKey(s)) == multiset(s)
  {
    if s != [] {
      SortByKeyPermutes(s[1..]);
      InsertPermutes(s[0], SortByKey(s[1..]));
      assert s == [s[0]] + s[1..];
    }
  }

  /** An element of a sequence occurs at some index of any permutation of it. */
  lemma IndexInPermutation<T>(a: seq<T>, b: seq<T>, k: nat)
    requires multiset(a) == multiset(b) && k < |a|
    ensures exists j :: 0 <= j < |b| && b[j] == a[k]
  {
    assert a[k] in multiset(a);
    assert a[k] in b;
  }

  lemma {:induction false} InsertSorted<T>(x: (string, T), s: seq<(string, T)>)
    requires SortedByKey(s)
    requires forall k :: 0 <= k < |s| ==> s[k].0 != x.0
    ensures SortedByKey(Insert(x, s))
  {
    if s == [] {
    } else if KeyLess(x.0, s[0].0) {
      forall j | 0 < j < |s| ensures KeyLess(x.0, s[j].0) {
        KeyLessTransitive(x.0, s[0].0, s[j].0);
      }
      assert SortedByKey([x] + s);
    } else {
      KeyLessTotal(x.0, s[0].0);
      var t := Insert(x, s[1..]);
      InsertSorted(x, s[1..]);
      InsertPermutes(x, s[1..]);
      forall k | 0 <= k < |t| ensures KeyLess(s[0].0, t[k].0) {
        assert t[k] in multiset(t);
        if t[k] != x {
          assert t[k] in multiset(s[1..]);
          var j :| 0 <= j < |s[1..]| && s[1..][j] == t[k];
          assert s[j + 1] == t[k];
        }
      }
      assert SortedByKey([s[0]] + t);
    }
  }

  /** After `ksort` the keys ascend. */
  lemma {:induction false} SortByKeySorted<T>(s: seq<(string, T)>)
    requires DistinctKeys(s)
    ensures SortedByKey(SortByKey(s))
  {
    if s != [] {
      var t := SortByKey(s[1..]);
      SortByKeySorted(s[1..]);
      SortByKeyPermutes(s[1..]);
      forall k | 0 <= k < |t| ensures t[k].0 != s[0].0 {
        IndexInPermutation(t, s[1..], k);
        var j :| 0 <= j < |s[1..]| && s[1..][j] == t[k];
        assert s[j + 1] == t[k];
      }
      InsertSorted(s[0], t);
    }
  }

  /** Two non-empty key-sorted permutations of each other start with the same entry. */
  lemma SortedPermutationsSameHead<T>(a: seq<(string, T)>, b: seq<(string, T)>)
    requires SortedByKey(a) && SortedByKey(b)
    requires multiset(a) == multiset(b) && a != []
    ensures b != [] && a[0] == b[0]
  {
    IndexInPermutation(a, b, 0);
    var j :| 0 <= j < |b| && b[j] == a[0];
    IndexInPermutation(b, a, 0);
    var i :| 0 <= i < |a| && a[i] == b[0];
    if i > 0 && j > 0 {
      KeyLessAsymmetric(a[0].0, b[0].0);
    }
  }

  /** Removing an equal head from two permutations of each other leaves permutations. */
  lemma PermutationTails<T>(a: seq<T>, b: seq<T>)
    requires a != [] && b != [] && a[0] == b[0]
    requires multiset(a) == multiset(b)
    ensures multiset(a[1..]) == multiset(b[1..])
  {
    assert a == [a[0]] + a[1..] && b == [b[0]] + b[1..];
    assert multiset(a[1..]) == multiset(a) - multiset([a[0]]);
    assert multiset(b[1..]) == multiset(b) - multiset([b[0]]);
  }

  /** Two key-sorted permutations of each other are the same sequence. */
  lemma {:induction false} SortedPermutationsEqual<T>(a: seq<(string, T)>, b: seq<(string, T)>)
    requires SortedByKey(a) && SortedByKey(b)
    requires multiset(a) == multiset(b)
    ensures a == b
  {
    if a == [] {
      assert |multiset(b)| == 0;
    } else {
      SortedPermutationsSameHead(a, b);
      PermutationTails(a, b);
      SortedPermutationsEqual(a[1..], b[1..]);
      assert a == [a[0]] + a[1..] && b == [b[0]] + b[1..];
    }
  }

  /**
   * `ksort` does not depend on insertion order: any two orderings of the same
   * entries sort to the same sequence.
   */
  lemma SortByKeyOrderIndependent<T>(a: seq<(string, T)>, b: seq<(string, T)>)
    requires DistinctKeys(a) && DistinctKeys(b)
    requires multiset(a) == multiset(b)
    ensures SortByKey(a) == SortByKey(b)
  {
    SortByKeySorted(a);
    SortByKeySorted(b);
    SortByKeyPermutes(a);
    SortByKeyPermutes(b);
    SortedPermutationsEqual(SortByKey(a), SortByKey(b));
  }

  /** `ksort` of an array whose entries are a permutation of an already sorted one yields that one. */
  lemma SortByKeyOfPermutation<T>(s: seq<(string, T)>, sorted: seq<(string, T)>)
    requires DistinctKeys(s) && SortedByKey(sorted)
    requires multiset(s) == multiset(sorted)
    ensures SortByKey(s) == sorted
  {
    SortByKeySorted(s);
    SortByKeyPermutes(s);
    SortedPermutationsEqual(SortByKey(s), sorted);
  }
}
