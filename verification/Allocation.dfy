/** The quarter-hour allocation of `transfer-from-toggl`: each issue's hours
    for the day, in quarter-hour units, are rounded down or up so that the
    day total is the exact total rounded half-to-even. The issues with the
    largest fractional parts are rounded up, in stable descending-fraction
    order. */
module Allocation {

  /** One entry of the `quarterSums` dictionary: an issue key and its exact
      number of quarter hours. Its fraction is derived. */
  datatype IssueQuarters = IssueQuarters(key: string, quarters: real)

  function Fraction(q: IssueQuarters): (r: real)
    ensures 0.0 <= r < 1.0
    ensures (q.quarters - r).Floor as real == q.quarters - r
  {
    q.quarters - q.quarters.Floor as real
  }

  /** `Math.Ceiling`. */
  function Ceiling(x: real): (r: int)
    ensures x <= r as real < x + 1.0
  {
    if x == x.Floor as real then x.Floor else x.Floor + 1
  }

  /** `Math.Round(x, MidpointRounding.ToEven)`. */
  function RoundHalfEven(x: real): (r: int)
    ensures -0.5 <= r as real - x <= 0.5
    ensures r as real - x == 0.5 || x - r as real == 0.5 ==> r % 2 == 0
  {
    var f := x.Floor;
    var rest := x - f as real;
    if rest < 0.5 then f
    else if rest > 0.5 then f + 1
    else if f % 2 == 0 then f
    else f + 1
  }

  function Distance(a: real, b: real): real {
    if a <= b then b - a else a - b
  }

  /** Round-half-to-even gives a nearest integer: no integer is closer. */
  lemma RoundHalfEvenNearest(x: real, n: int)
    ensures Distance(RoundHalfEven(x) as real, x) <= Distance(n as real, x)
  {
    var r := RoundHalfEven(x);
    if n < r {
      assert n as real <= r as real - 1.0;
    } else if n > r {
      assert n as real >= r as real + 1.0;
    }
  }

  // ---- Sums over the dictionary's entries ----

  function SumQuarters(s: seq<IssueQuarters>): real {
    if s == [] then 0.0 else s[0].quarters + SumQuarters(s[1..])
  }

  function SumFloors(s: seq<IssueQuarters>): int {
    if s == [] then 0 else s[0].quarters.Floor + SumFloors(s[1..])
  }

  function SumFractions(s: seq<IssueQuarters>): real {
    if s == [] then 0.0 else Fraction(s[0]) + SumFractions(s[1..])
  }

  function SumUnits(u: seq<int>): int {
    if u == [] then 0 else u[0] + SumUnits(u[1..])
  }

  lemma {:induction false} SumsSplit(s: seq<IssueQuarters>)
    ensures SumQuarters(s) == SumFloors(s) as real + SumFractions(s)
  {
    if s != [] {
      SumsSplit(s[1..]);
    }
  }

  lemma {:induction false} SumsAppend(s: seq<IssueQuarters>, x: IssueQuarters)
    ensures SumQuarters(s + [x]) == SumQuarters(s) + x.quarters
    ensures SumFloors(s + [x]) == SumFloors(s) + x.quarters.Floor
  {
    if s != [] {
      assert (s + [x])[1..] == s[1..] + [x];
      SumsAppend(s[1..], x);
    } else {
      assert [x][1..] == [];
    }
  }

  // ---- `OrderByDescending(x => x.Value.Fraction)`: a stable sort ----

  predicate Descending(s: seq<IssueQuarters>) {
    forall i, j :: 0 <= i < j < |s| ==> Fraction(s[i]) >= Fraction(s[j])
  }

  predicate DistinctKeys(s: seq<IssueQuarters>) {
    forall i, j :: 0 <= i < j < |s| ==> s[i].key != s[j].key
  }

  /** The entries whose fraction is `v`, in their order in `s`. A sort is
      stable when it keeps this subsequence for every `v`. */
  function WithFraction(s: seq<IssueQuarters>, v: real): seq<IssueQuarters> {
    if s == [] then []
    else (if Fraction(s[0]) == v then [s[0]] else []) + WithFraction(s[1..], v)
  }

  lemma {:induction false} WithFractionAppend(s: seq<IssueQuarters>, x: IssueQuarters, v: real)
    ensures WithFraction(s + [x], v) == WithFraction(s, v) + WithFraction([x], v)
  {
    if s != [] {
      assert (s + [x])[1..] == s[1..] + [x];
      WithFractionAppend(s[1..], x, v);
    }
  }

  lemma {:induction false} WithFractionNone(s: seq<IssueQuarters>, v: real)
    requires forall y :: y in s ==> Fraction(y) < v
    ensures WithFraction(s, v) == []
  {
    if s != [] {
      assert s[0] in s;
      assert forall y :: y in s[1..] ==> y in s;
      WithFractionNone(s[1..], v);
    }
  }

  /** Places `x` after every entry whose fraction is at least its own. */
  function InsertDescending(x: IssueQuarters, s: seq<IssueQuarters>): (r: seq<IssueQuarters>)
    requires Descending(s)
    ensures Descending(r)
    ensures |r| == |s| + 1
    ensures multiset(r) == multiset(s) + multiset{x}
  {
    if s == [] then [x]
    else if Fraction(s[0]) >= Fraction(x) then
      assert s == [s[0]] + s[1..];
      var rest := InsertDescending(x, s[1..]);
      HeadDominates(s, x, rest);
      [s[0]] + rest
    else
      [x] + s
  }

  lemma HeadDominates(s: seq<IssueQuarters>, x: IssueQuarters, rest: seq<IssueQuarters>)
    requires Descending(s) && s != [] && Fraction(s[0]) >= Fraction(x)
    requires Descending(rest) && multiset(rest) == multiset(s[1..]) + multiset{x}
    ensures Descending([s[0]] + rest)
  {
    forall j | 0 <= j < |rest| ensures Fraction(s[0]) >= Fraction(rest[j]) {
      assert rest[j] in multiset(rest);
      if rest[j] != x {
        assert rest[j] in multiset(s[1..]);
        var k :| 0 <= k < |s[1..]| && s[1..][k] == rest[j];
        assert s[k + 1] == rest[j];
      }
    }
    var r := [s[0]] + rest;
    forall i, j | 0 <= i < j < |r| ensures Fraction(r[i]) >= Fraction(r[j]) {
      assert r[j] == rest[j - 1];
      if i > 0 {
        assert r[i] == rest[i - 1];
      }
    }
  }

  lemma AllBelow(x: IssueQuarters, s: seq<IssueQuarters>)
    requires Descending(s) && s != [] && Fraction(s[0]) < Fraction(x)
    ensures forall y :: y in s ==> Fraction(y) < Fraction(x)
  {
    forall y | y in s ensures Fraction(y) < Fraction(x) {
      var i :| 0 <= i < |s| && s[i] == y;
      assert Fraction(s[0]) >= Fraction(s[i]);
    }
  }

  /** Inserting keeps the entries of each fraction in order, the new one last. */
  lemma {:induction false} InsertStable(x: IssueQuarters, s: seq<IssueQuarters>, v: real)
    requires Descending(s)
    ensures WithFraction(InsertDescending(x, s), v) == WithFraction(s, v) + WithFraction([x], v)
  {
    var r := InsertDescending(x, s);
    if s == [] {
      assert r == [x];
    } else if Fraction(s[0]) >= Fraction(x) {
      var rest := InsertDescending(x, s[1..]);
      assert r == [s[0]] + rest;
      assert s == [s[0]] + s[1..];
      InsertStable(x, s[1..], v);
      StableBehind(s[0], x, s[1..], rest, v);
    } else {
      AllBelow(x, s);
      StableInFront(x, s, v);
      assert r == [x] + s;
    }
  }

  lemma WithFractionCons(h: IssueQuarters, t: seq<IssueQuarters>, v: real)
    ensures WithFraction([h] + t, v) == (if Fraction(h) == v then [h] else []) + WithFraction(t, v)
  {
    assert ([h] + t)[1..] == t;
  }

  /** Inserting behind a head keeps the head in front of its fraction's entries. */
  lemma StableBehind(h: IssueQuarters, x: IssueQuarters, t: seq<IssueQuarters>, rest: seq<IssueQuarters>, v: real)
    requires WithFraction(rest, v) == WithFraction(t, v) + WithFraction([x], v)
    ensures WithFraction([h] + rest, v) == WithFraction([h] + t, v) + WithFraction([x], v)
  {
    WithFractionCons(h, rest, v);
    WithFractionCons(h, t, v);
    var head := if Fraction(h) == v then [h] else [];
    assert head + (WithFraction(t, v) + WithFraction([x], v)) == (head + WithFraction(t, v)) + WithFraction([x], v);
  }

  /** An entry placed in front of smaller fractions comes last among its own. */
  lemma StableInFront(x: IssueQuarters, s: seq<IssueQuarters>, v: real)
    requires forall y :: y in s ==> Fraction(y) < Fraction(x)
    ensures WithFraction([x] + s, v) == WithFraction(s, v) + WithFraction([x], v)
  {
    WithFractionCons(x, s, v);
    WithFractionCons(x, [], v);
    assert [x] + [] == [x];
    if Fraction(x) == v {
      WithFractionNone(s, v);
    }
  }

  lemma {:induction false} InsertSums(x: IssueQuarters, s: seq<IssueQuarters>)
    requires Descending(s)
    ensures SumQuarters(InsertDescending(x, s)) == SumQuarters(s) + x.quarters
    ensures SumFloors(InsertDescending(x, s)) == SumFloors(s) + x.quarters.Floor
  {
    var r := InsertDescending(x, s);
    if s == [] {
      assert r[1..] == [];
    } else if Fraction(s[0]) >= Fraction(x) {
      InsertSums(x, s[1..]);
      assert r[1..] == InsertDescending(x, s[1..]);
    } else {
      assert r[1..] == s;
    }
  }

  lemma DistinctCons(h: IssueQuarters, t: seq<IssueQuarters>)
    requires DistinctKeys(t)
    requires forall y :: y in t ==> y.key != h.key
    ensures DistinctKeys([h] + t)
  {
    var r := [h] + t;
    forall i, j | 0 <= i < j < |r| ensures r[i].key != r[j].key {
      assert r[j] == t[j - 1];
      if i == 0 {
        assert t[j - 1] in t;
      } else {
        assert r[i] == t[i - 1];
      }
    }
  }

  lemma {:induction false} InsertDistinct(x: IssueQuarters, s: seq<IssueQuarters>)
    requires Descending(s) && DistinctKeys(s)
    requires forall y :: y in s ==> y.key != x.key
    ensures DistinctKeys(InsertDescending(x, s))
  {
    var r := InsertDescending(x, s);
    if s == [] {
      assert r == [x];
    } else if Fraction(s[0]) >= Fraction(x) {
      var rest := InsertDescending(x, s[1..]);
      assert forall y :: y in s[1..] ==> y in s;
      assert DistinctKeys(s[1..]);
      InsertDistinct(x, s[1..]);
      assert r == [s[0]] + rest;
      RestAvoidsHead(x, s, rest);
      DistinctCons(s[0], rest);
    } else {
      assert r == [x] + s;
      DistinctCons(x, s);
    }
  }

  /** The entries behind the head after inserting `x` are the head's
      successors and `x`, none of which shares the head's key. */
  lemma RestAvoidsHead(x: IssueQuarters, s: seq<IssueQuarters>, rest: seq<IssueQuarters>)
    requires s != [] && DistinctKeys(s) && s[0].key != x.key
    requires multiset(rest) == multiset(s[1..]) + multiset{x}
    ensures forall y :: y in rest ==> y.key != s[0].key
  {
    forall y | y in rest ensures y.key != s[0].key {
      assert y in multiset(rest);
      if y != x {
        assert y in multiset(s[1..]);
        var k :| 0 <= k < |s[1..]| && s[1..][k] == y;
        assert s[k + 1] == y;
      }
    }
  }

  /** `quarterSums.OrderByDescending(x => x.Value.Fraction)` over the
      dictionary's insertion order: sorted by descending fraction and a
      permutation of its input. */
  function OrderByFraction(s: seq<IssueQuarters>): (r: seq<IssueQuarters>)
    ensures Descending(r)
    ensures multiset(r) == multiset(s)
  {
    if s == [] then []
    else
      var init := s[..|s| - 1];
      assert s == init + [s[|s| - 1]];
      InsertDescending(s[|s| - 1], OrderByFraction(init))
  }

  /** The sort is stable: entries with equal fractions keep their input order. */
  lemma {:induction false} OrderByFractionStable(s: seq<IssueQuarters>, v: real)
    ensures WithFraction(OrderByFraction(s), v) == WithFraction(s, v)
  {
    if s != [] {
      var init := s[..|s| - 1];
      var x := s[|s| - 1];
      assert s == init + [x];
      OrderByFractionStable(init, v);
      WithFractionAppend(init, x, v);
      InsertStable(x, OrderByFraction(init), v);
    }
  }

  lemma {:induction false} OrderByFractionSums(s: seq<IssueQuarters>)
    ensures SumQuarters(OrderByFraction(s)) == SumQuarters(s)
    ensures SumFloors(OrderByFraction(s)) == SumFloors(s)
  {
    if s != [] {
      var init := s[..|s| - 1];
      var x := s[|s| - 1];
      assert s == init + [x];
      OrderByFractionSums(init);
      SumsAppend(init, x);
      InsertSums(x, OrderByFraction(init));
    }
  }

  lemma {:induction false} OrderByFractionDistinct(s: seq<IssueQuarters>)
    requires DistinctKeys(s)
    ensures DistinctKeys(OrderByFraction(s))
  {
    if s != [] {
      var init := s[..|s| - 1];
      var x := s[|s| - 1];
      assert s == init + [x];
      assert DistinctKeys(init);
      OrderByFractionDistinct(init);
      var sortedInit := OrderByFraction(init);
      forall y | y in sortedInit ensures y.key != x.key {
        assert y in multiset(sortedInit);
        assert y in multiset(init);
        var k :| 0 <= k < |init| && init[k] == y;
        assert s[k] == y;
      }
      InsertDistinct(x, sortedInit);
    }
  }

  // ---- The largest-remainder allocation ----

  /** `toCeil` before the walk: how many quarter units the floors fall short
      of the rounded total. */
  function Deficit(s: seq<IssueQuarters>): int {
    RoundHalfEven(SumQuarters(s)) - SumFloors(s)
  }

  /** The quarter units given to each entry of `s`, walking it in order:
      the ceiling while `toCeil` is positive, the floor afterwards. */
  function Allotted(s: seq<IssueQuarters>, toCeil: int): (u: seq<int>)
    ensures |u| == |s|
    ensures forall p :: 0 <= p < |s| ==> u[p] == s[p].quarters.Floor || u[p] == Ceiling(s[p].quarters)
    ensures forall p :: 0 <= p < |s| ==> -1.0 < u[p] as real - s[p].quarters < 1.0
    ensures forall p :: 0 <= p < |s| ==> (u[p] == Ceiling(s[p].quarters) <==> p < toCeil || Fraction(s[p]) == 0.0)
  {
    if s == [] then []
    else
      var first := if toCeil > 0 then Ceiling(s[0].quarters) else s[0].quarters.Floor;
      [first] + Allotted(s[1..], toCeil - 1)
  }

  lemma {:induction false} NoFractionAfterZero(s: seq<IssueQuarters>)
    requires Descending(s) && s != [] && Fraction(s[0]) == 0.0
    ensures SumFractions(s) == 0.0
  {
    if |s| > 1 {
      assert Fraction(s[1]) == 0.0;
      NoFractionAfterZero(s[1..]);
    }
  }

  /** A deficit no larger than the fractions' sum plus one half is at most
      the number of entries, and every entry among the first `toCeil` has a
      positive fraction. */
  lemma {:induction false} PositivePrefix(s: seq<IssueQuarters>, toCeil: int)
    requires Descending(s)
    requires toCeil as real <= SumFractions(s) + 0.5
    ensures toCeil <= |s|
    ensures forall p :: 0 <= p < toCeil ==> Fraction(s[p]) > 0.0
  {
    if s == [] {
    } else if toCeil <= 0 {
      assert SumFractions(s) <= |s| as real by { FractionsBelowCount(s); }
    } else {
      if Fraction(s[0]) == 0.0 {
        NoFractionAfterZero(s);
        assert false;
      }
      PositivePrefix(s[1..], toCeil - 1);
      forall p | 0 <= p < toCeil ensures Fraction(s[p]) > 0.0 {
        if p > 0 {
          assert s[p] == s[1..][p - 1];
        }
      }
    }
  }

  lemma {:induction false} FractionsBelowCount(s: seq<IssueQuarters>)
    ensures SumFractions(s) <= |s| as real
  {
    if s != [] {
      FractionsBelowCount(s[1..]);
    }
  }

  lemma {:induction false} AllottedSum(s: seq<IssueQuarters>, toCeil: int)
    requires 0 <= toCeil <= |s|
    requires forall p :: 0 <= p < toCeil ==> Fraction(s[p]) > 0.0
    ensures SumUnits(Allotted(s, toCeil)) == SumFloors(s) + toCeil
  {
    if s != [] {
      assert forall p :: 0 <= p < toCeil - 1 ==> s[1..][p] == s[p + 1];
      AllottedSum(s[1..], if toCeil > 0 then toCeil - 1 else 0);
      if toCeil == 0 {
        assert Allotted(s, 0)[1..] == Allotted(s[1..], -1);
        AllottedPastDeficit(s[1..], -1);
      }
    }
  }

  lemma {:induction false} AllottedPastDeficit(s: seq<IssueQuarters>, toCeil: int)
    requires toCeil <= 0
    ensures Allotted(s, toCeil) == Allotted(s, 0)
  {
    if s != [] {
      AllottedPastDeficit(s[1..], toCeil - 1);
      AllottedPastDeficit(s[1..], -1);
    }
  }

  /** Total preservation: walking a descending-fraction order, the units
      handed out add up to the rounded total, because the deficit never
      exceeds the number of entries with a positive fraction. */
  lemma AllottedTotal(s: seq<IssueQuarters>)
    requires Descending(s)
    ensures 0 <= Deficit(s) <= |s|
    ensures forall p :: 0 <= p < Deficit(s) ==> Fraction(s[p]) > 0.0
    ensures SumUnits(Allotted(s, Deficit(s))) == RoundHalfEven(SumQuarters(s))
  {
    SumsSplit(s);
    var d := Deficit(s);
    assert d as real <= SumFractions(s) + 0.5;
    assert SumFractions(s) >= 0.0 by { FractionsNonNegative(s); }
    PositivePrefix(s, d);
    AllottedSum(s, d);
  }

  lemma {:induction false} FractionsNonNegative(s: seq<IssueQuarters>)
    ensures SumFractions(s) >= 0.0
  {
    if s != [] {
      FractionsNonNegative(s[1..]);
    }
  }

  /** The ceiling goes to exactly the first `Deficit` entries of the sorted
      order that have a fraction; the rest keep their floor. */
  lemma CeilingsGoFirst(s: seq<IssueQuarters>)
    ensures var o := OrderByFraction(s); var u := Allotted(o, Deficit(s));
      forall p :: 0 <= p < |o| ==>
        (p < Deficit(s) ==> u[p] == o[p].quarters.Floor + 1) &&
        (p >= Deficit(s) ==> u[p] == o[p].quarters.Floor)
  {
    var o := OrderByFraction(s);
    OrderByFractionSums(s);
    AllottedTotal(o);
  }
}
