/** Sequence helpers standing for Array.prototype.map, filter, reduce-with-sum
    and the nested flatMap/for loops that expand a date range against a list
    of entries. */
module Seqs {
  import opened Wrappers

  function Map<A, B>(s: seq<A>, f: A -> B): (r: seq<B>)
    ensures |r| == |s|
    ensures forall i :: 0 <= i < |s| ==> r[i] == f(s[i])
  {
    seq(|s|, i requires 0 <= i < |s| => f(s[i]))
  }

  lemma MapConcat<A, B>(s: seq<A>, t: seq<A>, f: A -> B)
    ensures Map(s + t, f) == Map(s, f) + Map(t, f)
  {
  }

  /** Taking an element out of a sequence takes its image out of the mapped
      sequence. */
  lemma MapRemove<A, B>(b: seq<A>, k: nat, f: A -> B)
    requires k < |b|
    ensures multiset(Map(b, f)) == multiset(Map(b[..k] + b[k + 1..], f)) + multiset{f(b[k])}
  {
    var pre, post := b[..k], b[k + 1..];
    assert b == pre + [b[k]] + post;
    MapConcat(pre + [b[k]], post, f);
    MapConcat(pre, [b[k]], f);
    MapConcat(pre, post, f);
  }

  /** Taking the first element of a and the same element of b out of two
      permutations leaves two permutations. */
  lemma RemoveFirst<A>(a: seq<A>, b: seq<A>, k: nat)
    requires multiset(a) == multiset(b) && a != [] && k < |b| && b[k] == a[0]
    ensures multiset(a[1..]) == multiset(b[..k] + b[k + 1..])
  {
    assert a == [a[0]] + a[1..];
    assert b == b[..k] + [b[k]] + b[k + 1..];
    calc {
      multiset(a[1..]);
      multiset(a) - multiset{a[0]};
      multiset(b) - multiset{b[k]};
      multiset(b[..k]) + multiset(b[k + 1..]);
      multiset(b[..k] + b[k + 1..]);
    }
  }

  /** Mapping a permutation gives a permutation of the mapped sequence. */
  lemma {:induction false} MapPermutation<A, B>(a: seq<A>, b: seq<A>, f: A -> B)
    requires multiset(a) == multiset(b)
    ensures multiset(Map(a, f)) == multiset(Map(b, f))
    decreases |a|
  {
    if a != [] {
      var x := a[0];
      assert x in multiset(b);
      var k :| 0 <= k < |b| && b[k] == x;
      var rest := b[..k] + b[k + 1..];
      RemoveFirst(a, b, k);
      MapPermutation(a[1..], rest, f);
      MapRemove(b, k, f);
      assert Map(a, f) == [f(x)] + Map(a[1..], f);
    }
  }

  /** Array.prototype.filter: keeps, in order, the elements satisfying p. */
  function Filter<A>(s: seq<A>, p: A -> bool): (r: seq<A>)
    ensures |r| <= |s|
    ensures forall i :: 0 <= i < |r| ==> r[i] in s && p(r[i])
    ensures forall i :: 0 <= i < |s| && p(s[i]) ==> s[i] in r
  {
    if s == [] then []
    else (if p(s[0]) then [s[0]] else []) + Filter(s[1..], p)
  }

  /** Array.prototype.find, as the index of the first element satisfying p. */
  function Find<A>(s: seq<A>, p: A -> bool): (r: Option<nat>)
    ensures r.Some? ==> r.value < |s| && p(s[r.value])
    ensures r.Some? ==> forall k :: 0 <= k < r.value ==> !p(s[k])
    ensures r.None? <==> forall k :: 0 <= k < |s| ==> !p(s[k])
  {
    if s == [] then None
    else if p(s[0]) then Some(0)
    else
      match Find(s[1..], p)
      case Some(i) => Some(i + 1)
      case None => None
  }

  /** What filtering keeps, as a membership fact. */
  lemma FilterMembers<A>(s: seq<A>, p: A -> bool)
    ensures forall x :: x in Filter(s, p) <==> x in s && p(x)
  {
    forall x | x in s && p(x) ensures x in Filter(s, p) {
      var k :| 0 <= k < |s| && s[k] == x;
      assert p(s[k]);
    }
  }

  lemma {:induction false} FilterConcat<A>(s: seq<A>, t: seq<A>, p: A -> bool)
    ensures Filter(s + t, p) == Filter(s, p) + Filter(t, p)
  {
    if s == [] {
      assert s + t == t;
    } else {
      assert (s + t)[0] == s[0] && (s + t)[1..] == s[1..] + t;
      FilterConcat(s[1..], t, p);
    }
  }

  lemma {:induction false} FilterAll<A>(s: seq<A>, p: A -> bool)
    requires forall i :: 0 <= i < |s| ==> p(s[i])
    ensures Filter(s, p) == s
  {
    if s != [] { FilterAll(s[1..], p); }
  }

  /** The sum of f over s, as `s.reduce((acc, x) => acc + f(x), 0)`. */
  function Sum<A>(s: seq<A>, f: A -> real): real {
    if s == [] then 0.0 else f(s[0]) + Sum(s[1..], f)
  }

  lemma {:induction false} SumConcat<A>(s: seq<A>, t: seq<A>, f: A -> real)
    ensures Sum(s + t, f) == Sum(s, f) + Sum(t, f)
  {
    if s == [] {
      assert s + t == t;
    } else {
      assert (s + t)[0] == s[0] && (s + t)[1..] == s[1..] + t;
      SumConcat(s[1..], t, f);
    }
  }

  /** Sums of sequences that agree position by position are equal. */
  lemma {:induction false} SumPointwise<A, B>(a: seq<A>, f: A -> real, b: seq<B>, g: B -> real)
    requires |a| == |b|
    requires forall i :: 0 <= i < |a| ==> f(a[i]) == g(b[i])
    ensures Sum(a, f) == Sum(b, g)
  {
    if a != [] {
      SumPointwise(a[1..], f, b[1..], g);
    }
  }

  /** Every day from lo to hi inclusive, empty when hi < lo. */
  function Range(lo: int, hi: int): (r: seq<int>)
    ensures |r| == if hi < lo then 0 else hi - lo + 1
    ensures forall i :: 0 <= i < |r| ==> r[i] == lo + i
  {
    if hi < lo then [] else seq(hi - lo + 1, i => lo + i)
  }

  /** The outer-major cross product: for each x of xs in order, f(x, y) for
      each y of ys in order. */
  function Product<A, B, C>(xs: seq<A>, ys: seq<B>, f: (A, B) -> C): seq<C> {
    if xs == [] then []
    else Row(xs[0], ys, f) + Product(xs[1..], ys, f)
  }

  /** f(x, y) for each y of ys in order. */
  function Row<A, B, C>(x: A, ys: seq<B>, f: (A, B) -> C): (r: seq<C>)
    ensures |r| == |ys|
    ensures forall j :: 0 <= j < |ys| ==> r[j] == f(x, ys[j])
  {
    Map(ys, y => f(x, y))
  }

  lemma ProductHead<A, B, C>(xs: seq<A>, ys: seq<B>, f: (A, B) -> C, i: nat)
    requires i < |xs|
    ensures Product(xs[i..], ys, f) == Row(xs[i], ys, f) + Product(xs[i + 1..], ys, f)
  {
    assert xs[i..][1..] == xs[i + 1..];
  }

  lemma ProductEnd<A, B, C>(xs: seq<A>, ys: seq<B>, f: (A, B) -> C)
    ensures Product(xs[|xs|..], ys, f) == []
  {
    assert xs[|xs|..] == [];
  }

  /** The product has |xs| * |ys| elements, and element i * |ys| + j is
      f(xs[i], ys[j]). */
  lemma {:induction false} ProductAt<A, B, C>(xs: seq<A>, ys: seq<B>, f: (A, B) -> C, i: nat, j: nat)
    requires i < |xs| && j < |ys|
    ensures |Product(xs, ys, f)| == |xs| * |ys|
    ensures i * |ys| + j < |xs| * |ys|
    ensures Product(xs, ys, f)[i * |ys| + j] == f(xs[i], ys[j])
  {
    ProductLength(xs, ys, f);
    var n := |ys|;
    assert i * n + j < |xs| * n by {
      MulMono(i + 1, |xs|, n);
      MulSucc(i, n);
    }
    var p := Product(xs, ys, f);
    assert p == Row(xs[0], ys, f) + Product(xs[1..], ys, f);
    if i > 0 {
      ProductAt(xs[1..], ys, f, i - 1, j);
      var q := (i - 1) * n + j;
      assert i * n + j == n + q by { MulSucc(i - 1, n); }
      assert p[n + q] == Product(xs[1..], ys, f)[q];
    }
  }

  lemma MulSucc(a: nat, n: nat)
    ensures (a + 1) * n == a * n + n
  {}

  lemma MulMono(a: nat, b: nat, n: nat)
    requires a <= b
    ensures a * n <= b * n
  {}

  lemma {:induction false} ProductLength<A, B, C>(xs: seq<A>, ys: seq<B>, f: (A, B) -> C)
    ensures |Product(xs, ys, f)| == |xs| * |ys|
  {
    if xs != [] {
      ProductLength(xs[1..], ys, f);
      assert |xs| * |ys| == |ys| + (|xs| - 1) * |ys|;
    }
  }

  /** Every element of the product comes from some pair of xs and ys. */
  lemma {:induction false} ProductMember<A, B, C>(xs: seq<A>, ys: seq<B>, f: (A, B) -> C, z: C)
    requires z in Product(xs, ys, f)
    ensures exists i, j :: 0 <= i < |xs| && 0 <= j < |ys| && z == f(xs[i], ys[j])
  {
    var m := Row(xs[0], ys, f);
    if z in m {
      var j :| 0 <= j < |ys| && m[j] == z;
      assert z == f(xs[0], ys[j]);
    } else {
      ProductMember(xs[1..], ys, f, z);
      var i, j :| 0 <= i < |xs| - 1 && 0 <= j < |ys| && z == f(xs[1..][i], ys[j]);
      assert z == f(xs[i + 1], ys[j]);
    }
  }

  /** The pairs (x, y) satisfying p, outer-major: for each x of xs in order,
      the y of ys in order. */
  function Pairs<A, B>(xs: seq<A>, ys: seq<B>, p: (A, B) -> bool): (r: seq<(A, B)>)
    ensures forall q :: q in r ==> q.0 in xs && q.1 in ys && p(q.0, q.1)
  {
    if xs == [] then []
    else
      var here := Filter(ys, y => p(xs[0], y));
      var mine := Map(here, y => (xs[0], y));
      forall q | q in mine ensures q.0 in xs && q.1 in ys && p(q.0, q.1) {
        var k :| 0 <= k < |mine| && mine[k] == q;
        assert here[k] in here;
      }
      mine + Pairs(xs[1..], ys, p)
  }

  /** No pair is found exactly when no x of xs and y of ys satisfy p. */
  lemma {:induction false} PairsEmptyIff<A, B>(xs: seq<A>, ys: seq<B>, p: (A, B) -> bool)
    ensures Pairs(xs, ys, p) == [] <==>
      forall i, j :: 0 <= i < |xs| && 0 <= j < |ys| ==> !p(xs[i], ys[j])
  {
    if xs != [] {
      PairsEmptyIff(xs[1..], ys, p);
      var q := y => p(xs[0], y);
      FilterEmptyIff(ys, q);
      assert Pairs(xs, ys, p) == [] <==> Filter(ys, q) == [] && Pairs(xs[1..], ys, p) == [];
      forall i, j | 1 <= i < |xs| && 0 <= j < |ys|
        ensures p(xs[i], ys[j]) == p(xs[1..][i - 1], ys[j])
      {
      }
    }
  }

  /** A relation that holds between every earlier and later element still
      holds after filtering. */
  lemma {:induction false} FilterPairwise<A>(s: seq<A>, p: A -> bool, rel: (A, A) -> bool)
    requires forall i, j :: 0 <= i < j < |s| ==> rel(s[i], s[j])
    ensures forall i, j :: 0 <= i < j < |Filter(s, p)| ==> rel(Filter(s, p)[i], Filter(s, p)[j])
  {
    if s != [] {
      FilterPairwise(s[1..], p, rel);
      var t := Filter(s[1..], p);
      forall j | 0 <= j < |t| ensures rel(s[0], t[j]) {
        var k :| 0 <= k < |s[1..]| && s[1..][k] == t[j];
        assert s[k + 1] == t[j];
      }
    }
  }

  /** Some kept element satisfies q exactly when some element satisfies
      both p and q. */
  lemma FilterExists<A>(s: seq<A>, p: A -> bool, q: A -> bool)
    ensures (exists k :: 0 <= k < |Filter(s, p)| && q(Filter(s, p)[k])) <==>
      exists k :: 0 <= k < |s| && p(s[k]) && q(s[k])
  {
    var r := Filter(s, p);
    forall k | 0 <= k < |s| && p(s[k]) && q(s[k])
      ensures exists j :: 0 <= j < |r| && q(r[j])
    {
      assert s[k] in r;
      var i :| 0 <= i < |r| && r[i] == s[k];
      assert q(r[i]);
    }
    forall k | 0 <= k < |r| && q(r[k])
      ensures exists j :: 0 <= j < |s| && p(s[j]) && q(s[j])
    {
      assert r[k] in s && p(r[k]);
      var i :| 0 <= i < |s| && s[i] == r[k];
      assert p(s[i]) && q(s[i]);
    }
  }

  lemma FilterEmptyIff<A>(s: seq<A>, p: A -> bool)
    ensures Filter(s, p) == [] <==> forall j :: 0 <= j < |s| ==> !p(s[j])
  {
    var r := Filter(s, p);
    if r != [] {
      assert r[0] in s;
    }
  }

  /** When some pair satisfies p, the first pair found is one of xs and ys
      satisfying p. */
  lemma PairsFirst<A, B>(xs: seq<A>, ys: seq<B>, p: (A, B) -> bool, i: nat, j: nat)
    requires i < |xs| && j < |ys| && p(xs[i], ys[j])
    ensures Pairs(xs, ys, p) != []
    ensures var q := Pairs(xs, ys, p)[0]; q.0 in xs && q.1 in ys && p(q.0, q.1)
  {
    PairsEmptyIff(xs, ys, p);
    var r := Pairs(xs, ys, p);
    assert r[0] in r;
  }

  /** No element occurs twice. */
  predicate Distinct<A(==)>(s: seq<A>) {
    s == [] || (s[|s| - 1] !in s[..|s| - 1] && Distinct(s[..|s| - 1]))
  }

  lemma {:induction false} DistinctIndices<A>(s: seq<A>)
    ensures Distinct(s) <==> forall i, j :: 0 <= i < j < |s| ==> s[i] != s[j]
  {
    if s != [] {
      var init := s[..|s| - 1];
      DistinctIndices(init);
      if Distinct(s) {
        forall i, j | 0 <= i < j < |s| ensures s[i] != s[j] {
          if j == |s| - 1 {
            assert s[i] == init[i];
          } else {
            assert s[i] == init[i] && s[j] == init[j];
          }
        }
      }
      if forall i, j :: 0 <= i < j < |s| ==> s[i] != s[j] {
        forall i, j | 0 <= i < j < |init| ensures init[i] != init[j] {
          assert init[i] == s[i] && init[j] == s[j];
        }
        forall k | 0 <= k < |init| ensures init[k] != s[|s| - 1] {
          assert init[k] == s[k];
        }
      }
    }
  }

  lemma DistinctSnoc<A>(s: seq<A>, x: A)
    requires Distinct(s) && x !in s
    ensures Distinct(s + [x])
  {
    assert (s + [x])[..|s|] == s;
  }
}
