/** LINQ `GroupBy` followed by a per-group `Sum`: the distinct keys in order
    of first appearance, the members of each group, and a weight summed per
    group. */
module Grouping {

  predicate Distinct<K(==)>(ks: seq<K>) {
    forall i, j :: 0 <= i < j < |ks| ==> ks[i] != ks[j]
  }

  /** The group keys, each once, in order of first appearance. */
  function GroupKeys<T(!new), K(==,!new)>(es: seq<T>, key: T -> K): (ks: seq<K>)
    ensures Distinct(ks)
    ensures forall k :: k in ks <==> exists e :: e in es && key(e) == k
    ensures forall i :: 0 <= i < |ks| ==> exists e :: e in es && key(e) == ks[i]
  {
    if es == [] then []
    else
      var init := GroupKeys(es[..|es| - 1], key);
      var e := es[|es| - 1];
      assert forall x :: x in es <==> x in es[..|es| - 1] || x == e;
      if key(e) in init then init else init + [key(e)]
  }

  /** The entries of one group, in their original order. */
  function Members<T(!new), K(==,!new)>(es: seq<T>, key: T -> K, k: K): (r: seq<T>)
  {
    if es == [] then []
    else
      var e := es[|es| - 1];
      Members(es[..|es| - 1], key, k) + (if key(e) == k then [e] else [])
  }

  /** `xs.Sum(w)`. */
  function SumOf<T>(xs: seq<T>, w: T -> real): real {
    if xs == [] then 0.0 else SumOf(xs[..|xs| - 1], w) + w(xs[|xs| - 1])
  }

  lemma {:induction false} SumOfAppend<T>(a: seq<T>, b: seq<T>, w: T -> real)
    ensures SumOf(a + b, w) == SumOf(a, w) + SumOf(b, w)
  {
    if b != [] {
      assert (a + b)[..|a + b| - 1] == a + b[..|b| - 1];
      SumOfAppend(a, b[..|b| - 1], w);
    } else {
      assert a + b == a;
    }
  }

  /** `group.Sum(w)` for the group with key `k`. */
  function GroupSum<T(!new), K(==,!new)>(es: seq<T>, key: T -> K, w: T -> real, k: K): real {
    SumOf(Members(es, key, k), w)
  }

  /** The sums of the groups `ks`, added up. */
  function SumOverGroups<T(!new), K(==,!new)>(es: seq<T>, key: T -> K, w: T -> real, ks: seq<K>): real {
    if ks == [] then 0.0
    else SumOverGroups(es, key, w, ks[..|ks| - 1]) + GroupSum(es, key, w, ks[|ks| - 1])
  }

  lemma MembersOfNewKey<T(!new), K(!new)>(es: seq<T>, key: T -> K, k: K)
    requires k !in GroupKeys(es, key)
    ensures Members(es, key, k) == []
  {
  }

  /** Adding one element adds its weight to its own group and nothing elsewhere. */
  lemma {:induction false} SumOverGroupsStep<T(!new), K(!new)>(es: seq<T>, key: T -> K, w: T -> real, e: T, ks: seq<K>)
    requires Distinct(ks)
    ensures SumOverGroups(es + [e], key, w, ks)
            == SumOverGroups(es, key, w, ks) + (if key(e) in ks then w(e) else 0.0)
  {
    if ks != [] {
      var init := ks[..|ks| - 1];
      var last := ks[|ks| - 1];
      var k := key(e);
      assert ks == init + [last];
      assert Distinct(init);
      SumOverGroupsStep(es, key, w, e, init);
      SumOverGroupsAppend(es + [e], key, w, init, last);
      SumOverGroupsAppend(es, key, w, init, last);
      MembersAppend(es, key, e, last);
      if k == last {
        assert k !in init by {
          forall i | 0 <= i < |init| ensures init[i] != last { assert ks[i] == init[i]; }
        }
        var m := Members(es, key, last);
        assert Members(es + [e], key, last) == m + [e];
        SumOfAppend(m, [e], w);
        SumOfSingle(e, w);
        assert GroupSum(es + [e], key, w, last) == GroupSum(es, key, w, last) + w(e);
      } else {
        assert Members(es + [e], key, last) == Members(es, key, last) + [];
        assert Members(es, key, last) + [] == Members(es, key, last);
        assert k in ks <==> k in init;
      }
    }
  }

  /** Grouping neither creates nor loses weight: the group sums add up to the
      sum over all elements. */
  lemma {:induction false} SumConserved<T(!new), K(!new)>(es: seq<T>, key: T -> K, w: T -> real)
    ensures SumOverGroups(es, key, w, GroupKeys(es, key)) == SumOf(es, w)
  {
    if es != [] {
      var init := es[..|es| - 1];
      var e := es[|es| - 1];
      assert init + [e] == es;
      SumConserved(init, key, w);
      var ks := GroupKeys(init, key);
      SumOverGroupsStep(init, key, w, e, ks);
      assert SumOf(es, w) == SumOf(init, w) + w(e);
      if key(e) !in ks {
        NewGroup(init, key, w, e);
      }
    }
  }

  lemma GroupKeysAppend<T(!new), K(!new)>(init: seq<T>, key: T -> K, e: T)
    ensures GroupKeys(init + [e], key)
            == GroupKeys(init, key) + (if key(e) in GroupKeys(init, key) then [] else [key(e)])
  {
    assert (init + [e])[..|init + [e]| - 1] == init;
  }

  lemma MembersAppend<T(!new), K(!new)>(init: seq<T>, key: T -> K, e: T, k: K)
    ensures Members(init + [e], key, k) == Members(init, key, k) + (if key(e) == k then [e] else [])
  {
    assert (init + [e])[..|init + [e]| - 1] == init;
  }

  lemma SumOverGroupsAppend<T(!new), K(!new)>(es: seq<T>, key: T -> K, w: T -> real, ks: seq<K>, k: K)
    ensures SumOverGroups(es, key, w, ks + [k]) == SumOverGroups(es, key, w, ks) + GroupSum(es, key, w, k)
  {
    assert (ks + [k])[..|ks + [k]| - 1] == ks;
  }

  lemma SumOfSingle<T>(e: T, w: T -> real)
    ensures SumOf([e], w) == w(e)
  {
    assert [e][..0] == [];
  }

  lemma NewGroup<T(!new), K(!new)>(init: seq<T>, key: T -> K, w: T -> real, e: T)
    requires key(e) !in GroupKeys(init, key)
    ensures SumOverGroups(init + [e], key, w, GroupKeys(init + [e], key))
            == SumOverGroups(init + [e], key, w, GroupKeys(init, key)) + w(e)
  {
    var es := init + [e];
    var ks := GroupKeys(init, key);
    GroupKeysAppend(init, key, e);
    MembersOfNewKey(init, key, key(e));
    MembersAppend(init, key, e, key(e));
    assert Members(es, key, key(e)) == [e];
    SumOfSingle(e, w);
    SumOverGroupsAppend(es, key, w, ks, key(e));
  }

  // ---- First members and the order of the groups ----

  /** The position of `g.First()` for the group with key `k`. */
  function FirstIndex<T, K(==)>(es: seq<T>, key: T -> K, k: K): (i: nat)
    requires exists e :: e in es && key(e) == k
    ensures i < |es| && key(es[i]) == k
    ensures forall j :: 0 <= j < i ==> key(es[j]) != k
  {
    if key(es[0]) == k then 0
    else
      assert forall x :: x in es ==> x == es[0] || x in es[1..];
      1 + FirstIndex(es[1..], key, k)
  }

  lemma {:induction false} FirstIndexAppend<T, K>(init: seq<T>, key: T -> K, e: T, k: K)
    requires exists x :: x in init && key(x) == k
    ensures FirstIndex(init + [e], key, k) == FirstIndex(init, key, k)
  {
    var i := FirstIndex(init, key, k);
    assert (init + [e])[i] == init[i];
  }

  /** The first member of a key that `init` lacks is the appended element. */
  lemma FirstIndexOfNewKey<T(!new), K(!new)>(init: seq<T>, key: T -> K, e: T)
    requires key(e) !in GroupKeys(init, key)
    ensures FirstIndex(init + [e], key, key(e)) == |init|
  {
  }

  /** `GroupBy` lists the groups in the order in which their first members
      appear. */
  lemma {:induction false} GroupKeysFirstAppearance<T(!new), K(!new)>(es: seq<T>, key: T -> K)
    ensures var ks := GroupKeys(es, key);
      forall i, j :: 0 <= i < j < |ks| ==> FirstIndex(es, key, ks[i]) < FirstIndex(es, key, ks[j])
  {
    if es != [] {
      var init := es[..|es| - 1];
      var e := es[|es| - 1];
      assert es == init + [e];
      GroupKeysFirstAppearance(init, key);
      GroupKeysAppend(init, key, e);
      var ks0 := GroupKeys(init, key);
      var ks := GroupKeys(es, key);
      forall i, j | 0 <= i < j < |ks| ensures FirstIndex(es, key, ks[i]) < FirstIndex(es, key, ks[j]) {
        assert ks[i] == ks0[i];
        FirstIndexAppend(init, key, e, ks0[i]);
        if j < |ks0| {
          assert ks[j] == ks0[j];
          FirstIndexAppend(init, key, e, ks0[j]);
        } else {
          FirstIndexOfNewKey(init, key, e);
        }
      }
    }
  }

  /** `xs.Select(f)`. */
  function Map<T, U>(xs: seq<T>, f: T -> U): (ys: seq<U>)
    ensures |ys| == |xs| && forall i :: 0 <= i < |xs| ==> ys[i] == f(xs[i])
  {
    seq(|xs|, i requires 0 <= i < |xs| => f(xs[i]))
  }

  /** Summing a weight over the images is summing the composed weight. */
  lemma {:induction false} SumOfMap<T, U>(xs: seq<T>, f: T -> U, w: U -> real, v: T -> real)
    requires forall x :: v(x) == w(f(x))
    ensures SumOf(Map(xs, f), w) == SumOf(xs, v)
  {
    if xs != [] {
      var init := xs[..|xs| - 1];
      assert Map(xs, f)[..|xs| - 1] == Map(init, f);
      SumOfMap(init, f, w, v);
    }
  }

  /** A member of the group `k` is an element with key `k`. */
  lemma {:induction false} MembersMembership<T(!new), K(!new)>(es: seq<T>, key: T -> K, k: K, x: T)
    ensures x in Members(es, key, k) <==> x in es && key(x) == k
  {
    if es != [] {
      var init := es[..|es| - 1];
      var e := es[|es| - 1];
      assert es == init + [e];
      MembersMembership(init, key, k, x);
    }
  }

  /** The sum over groups is the sum of the per-group sums. */
  lemma {:induction false} SumOverGroupsAsSumOf<T(!new), K(!new)>(es: seq<T>, key: T -> K, w: T -> real, ks: seq<K>, v: K -> real)
    requires forall k :: v(k) == GroupSum(es, key, w, k)
    ensures SumOf(ks, v) == SumOverGroups(es, key, w, ks)
  {
    if ks != [] {
      SumOverGroupsAsSumOf(es, key, w, ks[..|ks| - 1], v);
    }
  }

  /** `xs.Where(p)`: every element that satisfies `p`, as often as it occurs
      in `xs`, and no other. */
  function Where<T(!new)>(xs: seq<T>, p: T -> bool): (ys: seq<T>)
    ensures |ys| <= |xs|
    ensures forall y :: y in ys <==> y in xs && p(y)
    ensures forall y :: multiset(ys)[y] == if p(y) then multiset(xs)[y] else 0
  {
    if xs == [] then []
    else
      var last := xs[|xs| - 1];
      assert forall y :: y in xs <==> y in xs[..|xs| - 1] || y == last;
      assert xs == xs[..|xs| - 1] + [last];
      Where(xs[..|xs| - 1], p) + (if p(last) then [last] else [])
  }

  /** `Where` distributes over concatenation, so it keeps the elements'
      order. */
  lemma {:induction false} WhereAppend<T(!new)>(xs: seq<T>, zs: seq<T>, p: T -> bool)
    ensures Where(xs + zs, p) == Where(xs, p) + Where(zs, p)
  {
    if zs == [] {
      assert xs + zs == xs;
    } else {
      var init, last := zs[..|zs| - 1], zs[|zs| - 1];
      assert zs == init + [last];
      WhereAppend(xs, init, p);
      WhereAppendStep(xs, init, last, p);
    }
  }

  lemma WhereAppendStep<T(!new)>(xs: seq<T>, init: seq<T>, last: T, p: T -> bool)
    requires Where(xs + init, p) == Where(xs, p) + Where(init, p)
    ensures Where(xs + (init + [last]), p) == Where(xs, p) + Where(init + [last], p)
  {
    var tail := if p(last) then [last] else [];
    ConcatAssoc(xs, init, [last]);
    WhereSnoc(xs + init, last, p);
    WhereSnoc(init, last, p);
    ConcatAssoc(Where(xs, p), Where(init, p), tail);
  }

  lemma ConcatAssoc<T>(a: seq<T>, b: seq<T>, c: seq<T>)
    ensures (a + b) + c == a + (b + c)
  {
  }

  /** `Where` over one more element at the end. */
  lemma WhereSnoc<T(!new)>(xs: seq<T>, x: T, p: T -> bool)
    ensures Where(xs + [x], p) == Where(xs, p) + (if p(x) then [x] else [])
  {
    assert (xs + [x])[..|xs|] == xs;
  }

  /** `xs.SelectMany(f)`. */
  function SelectMany<T(!new), U(!new)>(xs: seq<T>, f: T -> seq<U>): (ys: seq<U>)
    ensures forall y :: y in ys <==> exists x :: x in xs && y in f(x)
  {
    if xs == [] then []
    else
      var last := xs[|xs| - 1];
      assert forall x :: x in xs <==> x in xs[..|xs| - 1] || x == last;
      SelectMany(xs[..|xs| - 1], f) + f(last)
  }
}
