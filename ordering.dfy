/**
 * LINQ's `OrderBy(x => x.Order)`, the stable sort the upload code walks chapters and
 * tracks in. The sort is computed on positions: `OrderBy(keys)` lists the positions
 * 0..|keys|-1 by ascending key, equal keys keeping their list order. The module also
 * holds the permutation facts the rest of the model needs (contents and sums survive
 * reordering).
 */
module Ordering {

  /** Position i comes before position j in a stable sort by `keys`. */
  predicate Before(keys: seq<int>, i: nat, j: nat)
    requires i < |keys| && j < |keys|
  {
    keys[i] < keys[j] || (keys[i] == keys[j] && i < j)
  }

  predicate InRange(keys: seq<int>, p: seq<nat>) {
    forall a | 0 <= a < |p| :: p[a] < |keys|
  }

  /** `p` lists positions of `keys` in stable-sort order (hence without repetition). */
  predicate StablySorted(keys: seq<int>, p: seq<nat>) {
    InRange(keys, p) && forall a, b | 0 <= a < b < |p| :: Before(keys, p[a], p[b])
  }

  function Range(n: nat): (r: seq<nat>)
    ensures |r| == n
    ensures forall i | 0 <= i < n :: r[i] == i
  {
    seq(n, i requires 0 <= i => i)
  }

  /** Inserts position i, larger than every position in p, after all positions whose key is
      not larger than keys[i]. */
  function Insert(keys: seq<int>, p: seq<nat>, i: nat): (r: seq<nat>)
    requires i < |keys| && StablySorted(keys, p)
    requires forall a | 0 <= a < |p| :: p[a] < i
    ensures |r| == |p| + 1
    ensures forall a | 0 <= a < |r| :: r[a] in p || r[a] == i
    ensures multiset(r) == multiset(p) + multiset{i}
    ensures StablySorted(keys, r)
    decreases |p|
  {
    if p == [] || keys[p[|p| - 1]] <= keys[i] then
      p + [i]
    else
      var last := p[|p| - 1];
      var front := p[..|p| - 1];
      assert p == front + [last];
      StablySortedFront(keys, p);
      var inserted := Insert(keys, front, i);
      var r := inserted + [last];
      InsertBeforeLast(keys, p, i, inserted, r);
      InsertBeforeLastContents(p, i, inserted, r);
      r
  }

  lemma StablySortedFront(keys: seq<int>, p: seq<nat>)
    requires StablySorted(keys, p) && p != []
    ensures StablySorted(keys, p[..|p| - 1])
  {
  }

  /** The last position of p, whose key is above keys[i], may follow anything inserted
      among the earlier ones. */
  lemma InsertBeforeLast(keys: seq<int>, p: seq<nat>, i: nat, inserted: seq<nat>, r: seq<nat>)
    requires i < |keys| && StablySorted(keys, p) && p != []
    requires keys[i] < keys[p[|p| - 1]]
    requires StablySorted(keys, inserted)
    requires forall a | 0 <= a < |inserted| :: inserted[a] in p[..|p| - 1] || inserted[a] == i
    requires r == inserted + [p[|p| - 1]]
    ensures StablySorted(keys, r)
  {
    var last := p[|p| - 1];
    var front := p[..|p| - 1];
    forall a | 0 <= a < |inserted| ensures Before(keys, inserted[a], last) {
      if inserted[a] != i {
        var k :| 0 <= k < |front| && front[k] == inserted[a];
        assert Before(keys, p[k], p[|p| - 1]);
      }
    }
    forall a, b | 0 <= a < b < |r| ensures Before(keys, r[a], r[b]) {
      assert r[a] == inserted[a];
      if b < |inserted| {
        assert r[b] == inserted[b];
      }
    }
  }

  lemma InsertBeforeLastContents(p: seq<nat>, i: nat, inserted: seq<nat>, r: seq<nat>)
    requires p != []
    requires forall a | 0 <= a < |inserted| :: inserted[a] in p[..|p| - 1] || inserted[a] == i
    requires multiset(inserted) == multiset(p[..|p| - 1]) + multiset{i}
    requires r == inserted + [p[|p| - 1]]
    ensures forall a | 0 <= a < |r| :: r[a] in p || r[a] == i
    ensures multiset(r) == multiset(p) + multiset{i}
  {
    assert p == p[..|p| - 1] + [p[|p| - 1]];
    forall a | 0 <= a < |r| ensures r[a] in p || r[a] == i {
      if a < |inserted| {
        assert r[a] == inserted[a];
      }
    }
  }

  function SortPrefix(keys: seq<int>, n: nat): (p: seq<nat>)
    requires n <= |keys|
    ensures |p| == n
    ensures forall a | 0 <= a < n :: p[a] < n
    ensures multiset(p) == multiset(Range(n))
    ensures StablySorted(keys, p)
  {
    if n == 0 then []
    else
      assert Range(n) == Range(n - 1) + [n - 1];
      Insert(keys, SortPrefix(keys, n - 1), n - 1)
  }

  /** The positions of `keys` in the order `OrderBy` enumerates them. */
  function OrderBy(keys: seq<int>): (p: seq<nat>)
    ensures |p| == |keys|
    ensures multiset(p) == multiset(Range(|keys|))
    ensures StablySorted(keys, p)
  {
    SortPrefix(keys, |keys|)
  }

  lemma StablySortedTail(keys: seq<int>, p: seq<nat>)
    requires StablySorted(keys, p) && p != []
    ensures StablySorted(keys, p[1..])
  {
    forall a, b | 0 <= a < b < |p| - 1 ensures Before(keys, p[1..][a], p[1..][b]) {
      assert p[1..][a] == p[a + 1] && p[1..][b] == p[b + 1];
    }
  }

  lemma StablySortedHeads(keys: seq<int>, p: seq<nat>, q: seq<nat>)
    requires StablySorted(keys, p) && StablySorted(keys, q)
    requires multiset(p) == multiset(q) && p != [] && q != []
    ensures p[0] == q[0]
  {
    assert p[0] in multiset(q) && q[0] in multiset(p);
    var i :| 0 <= i < |p| && p[i] == q[0];
    var j :| 0 <= j < |q| && q[j] == p[0];
  }

  /** A stable-sort order of a given set of positions is unique. */
  lemma {:induction false} StablySortedUnique(keys: seq<int>, p: seq<nat>, q: seq<nat>)
    requires StablySorted(keys, p) && StablySorted(keys, q)
    requires multiset(p) == multiset(q)
    ensures p == q
    decreases |p|
  {
    assert |p| == |multiset(p)| == |multiset(q)| == |q|;
    if p != [] {
      StablySortedHeads(keys, p, q);
      assert p == [p[0]] + p[1..] && q == [q[0]] + q[1..];
      assert multiset(p[1..]) == multiset(p) - multiset{p[0]};
      assert multiset(q[1..]) == multiset(q) - multiset{q[0]};
      StablySortedTail(keys, p);
      StablySortedTail(keys, q);
      StablySortedUnique(keys, p[1..], q[1..]);
    }
  }

  /** When the keys never decrease along the list, `OrderBy` keeps list order. */
  lemma OrderByKeepsSortedList(keys: seq<int>)
    requires forall i, j | 0 <= i < j < |keys| :: keys[i] <= keys[j]
    ensures OrderBy(keys) == Range(|keys|)
  {
    StablySortedUnique(keys, OrderBy(keys), Range(|keys|));
  }

  /** The key of every element, in list order. */
  function Keys<T>(xs: seq<T>, key: T -> int): (keys: seq<int>)
    ensures |keys| == |xs|
    ensures forall i | 0 <= i < |xs| :: keys[i] == key(xs[i])
  {
    seq(|xs|, i requires 0 <= i < |xs| => key(xs[i]))
  }

  /** `xs.OrderBy(key)`: the same elements, by ascending key. */
  function SortBy<T>(xs: seq<T>, key: T -> int): (r: seq<T>)
    ensures |r| == |xs|
    ensures multiset(r) == multiset(xs)
    ensures forall a, b | 0 <= a < b < |r| :: key(r[a]) <= key(r[b])
  {
    var p := OrderBy(Keys(xs, key));
    PermuteAllMultiset(xs, p);
    var r := Permute(xs, p);
    forall a, b | 0 <= a < b < |r| ensures key(r[a]) <= key(r[b]) {
      assert Before(Keys(xs, key), p[a], p[b]);
    }
    r
  }

  /**
   * The sorted list takes element `p[a]` of the list at place `a`, where `p` is the stable
   * order of the keys: elements with equal keys keep their list order.
   */
  lemma SortByStable<T>(xs: seq<T>, key: T -> int)
    ensures var p := OrderBy(Keys(xs, key));
      && (forall a | 0 <= a < |xs| :: p[a] < |xs| && SortBy(xs, key)[a] == xs[p[a]])
      && (forall a, b | 0 <= a < b < |xs| && key(SortBy(xs, key)[a]) == key(SortBy(xs, key)[b]) :: p[a] < p[b])
  {
    var p := OrderBy(Keys(xs, key));
    PermuteAllMultiset(xs, p);
    forall a, b | 0 <= a < b < |xs| && key(SortBy(xs, key)[a]) == key(SortBy(xs, key)[b]) ensures p[a] < p[b] {
      assert Before(Keys(xs, key), p[a], p[b]);
    }
  }

  /** When the keys never decrease along the list, sorting keeps the list as it is. */
  lemma SortBySortedList<T>(xs: seq<T>, key: T -> int)
    requires forall i, j | 0 <= i < j < |xs| :: key(xs[i]) <= key(xs[j])
    ensures SortBy(xs, key) == xs
  {
    OrderByKeepsSortedList(Keys(xs, key));
    assert Permute(xs, Range(|xs|)) == xs;
  }

  /** The elements of `xs` at the positions `p`, in that order. */
  function Permute<T>(xs: seq<T>, p: seq<nat>): (r: seq<T>)
    requires forall a | 0 <= a < |p| :: p[a] < |xs|
    ensures |r| == |p|
  {
    seq(|p|, a requires 0 <= a < |p| => xs[p[a]])
  }

  lemma PermuteConcat<T>(xs: seq<T>, p: seq<nat>, q: seq<nat>)
    requires forall a | 0 <= a < |p| :: p[a] < |xs|
    requires forall a | 0 <= a < |q| :: q[a] < |xs|
    ensures Permute(xs, p + q) == Permute(xs, p) + Permute(xs, q)
  {
  }

  /** Dropping the last position drops its element from the reordered contents. */
  lemma PermuteDropLast<T>(xs: seq<T>, p: seq<nat>)
    requires forall a | 0 <= a < |p| :: p[a] < |xs|
    requires p != []
    ensures multiset(p[..|p| - 1]) == multiset(p) - multiset{p[|p| - 1]}
    ensures multiset(Permute(xs, p)) == multiset(Permute(xs, p[..|p| - 1])) + multiset{xs[p[|p| - 1]]}
  {
    assert p == p[..|p| - 1] + [p[|p| - 1]];
    assert Permute(xs, p) == Permute(xs, p[..|p| - 1]) + [xs[p[|p| - 1]]];
  }

  /** Dropping position j drops its element from the reordered contents. */
  lemma PermuteDropAt<T>(xs: seq<T>, q: seq<nat>, j: nat)
    requires forall a | 0 <= a < |q| :: q[a] < |xs|
    requires j < |q|
    ensures multiset(q[..j] + q[j + 1..]) == multiset(q) - multiset{q[j]}
    ensures multiset(Permute(xs, q)) == multiset(Permute(xs, q[..j] + q[j + 1..])) + multiset{xs[q[j]]}
  {
    var q1, q2 := q[..j], q[j + 1..];
    assert q == q1 + [q[j]] + q2;
    assert Permute(xs, q) == Permute(xs, q1) + [xs[q[j]]] + Permute(xs, q2);
    assert Permute(xs, q1 + q2) == Permute(xs, q1) + Permute(xs, q2);
  }

  lemma {:induction false} PermuteMultiset<T>(xs: seq<T>, p: seq<nat>, q: seq<nat>)
    requires forall a | 0 <= a < |p| :: p[a] < |xs|
    requires forall a | 0 <= a < |q| :: q[a] < |xs|
    requires multiset(p) == multiset(q)
    ensures multiset(Permute(xs, p)) == multiset(Permute(xs, q))
    decreases |p|
  {
    assert |p| == |multiset(p)| == |multiset(q)| == |q|;
    if p != [] {
      var x := p[|p| - 1];
      var j :| 0 <= j < |q| && q[j] == x by {
        assert x in multiset(q);
      }
      PermuteDropLast(xs, p);
      PermuteDropAt(xs, q, j);
      PermuteMultiset(xs, p[..|p| - 1], q[..j] + q[j + 1..]);
    }
  }

  /** Reordering by a permutation of all positions keeps the same elements. */
  lemma PermuteAllMultiset<T>(xs: seq<T>, p: seq<nat>)
    requires multiset(p) == multiset(Range(|xs|))
    ensures forall a | 0 <= a < |p| :: p[a] < |xs|
    ensures multiset(Permute(xs, p)) == multiset(xs)
  {
    forall a | 0 <= a < |p| ensures p[a] < |xs| {
      assert p[a] in multiset(Range(|xs|));
    }
    PermuteMultiset(xs, p, Range(|xs|));
    assert Permute(xs, Range(|xs|)) == xs;
  }

  function Sum(s: seq<int>): int {
    if s == [] then 0 else Sum(s[..|s| - 1]) + s[|s| - 1]
  }

  lemma {:induction false} SumConcat(s: seq<int>, t: seq<int>)
    ensures Sum(s + t) == Sum(s) + Sum(t)
    decreases |t|
  {
    if t != [] {
      assert (s + t)[..|s + t| - 1] == s + t[..|t| - 1];
      assert (s + t)[|s + t| - 1] == t[|t| - 1];
      SumConcat(s, t[..|t| - 1]);
      assert Sum(s + t) == Sum(s + t[..|t| - 1]) + t[|t| - 1];
    } else {
      assert s + t == s;
    }
  }

  /** A sum does not depend on the order of its terms. */
  lemma {:induction false} SumPermutation(s: seq<int>, t: seq<int>)
    requires multiset(s) == multiset(t)
    ensures Sum(s) == Sum(t)
    decreases |s|
  {
    assert |s| == |multiset(s)| == |multiset(t)| == |t|;
    if s != [] {
      var x := s[|s| - 1];
      assert x in multiset(t);
      var j :| 0 <= j < |t| && t[j] == x;
      var s', t' := s[..|s| - 1], t[..j] + t[j + 1..];
      assert s == s' + [x];
      assert t == t[..j] + [x] + t[j + 1..];
      assert multiset(s) == multiset(s') + multiset{x};
      assert multiset(t) == multiset(t[..j]) + multiset{x} + multiset(t[j + 1..]);
      assert multiset(s') == multiset(s) - multiset{x};
      assert multiset(t') == multiset(t) - multiset{x};
      SumPermutation(s', t');
      SumConcat(t[..j] + [x], t[j + 1..]);
      SumConcat(t[..j], [x]);
      SumConcat(t[..j], t[j + 1..]);
    }
  }
}
