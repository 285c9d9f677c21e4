/**
 * Minimum and maximum of a price series: the running fold the history parser performs and the
 * extremes of the set of values it is meant to find.
 */
module Extremes {
  import opened Wrappers

  ghost predicate IsLeast(m: real, s: set<real>)
  {
    m in s && forall x :: x in s ==> m <= x
  }

  ghost predicate IsGreatest(m: real, s: set<real>)
  {
    m in s && forall x :: x in s ==> x <= m
  }

  /** `BigDecimal.min`: the receiver when it compares at most the argument, else the argument. */
  function Min(a: real, b: real): (r: real)
    ensures r <= a && r <= b
    ensures r == a || r == b
    ensures a <= b ==> r == a
  {
    if a <= b then a else b
  }

  /** `BigDecimal.max`: the receiver when it compares at least the argument, else the argument. */
  function Max(a: real, b: real): (r: real)
    ensures a <= r && b <= r
    ensures r == a || r == b
    ensures b <= a ==> r == a
  {
    if a >= b then a else b
  }

  function Elements(rates: seq<real>): set<real>
  {
    set x | x in rates
  }

  /**
   * The running minimum after visiting `rates` in order: None before the first value (the
   * variable starts out null), the first value itself, then `min` with each further value.
   */
  function FoldMin(rates: seq<real>): (r: Option<real>)
    ensures r.None? <==> rates == []
    ensures r.Some? ==> IsLeast(r.value, Elements(rates))
  {
    if rates == [] then None
    else
      var init, last := rates[..|rates| - 1], rates[|rates| - 1];
      assert Elements(rates) == Elements(init) + {last} by { assert rates == init + [last]; }
      var prev := FoldMin(init);
      Some(if prev.None? then last else Min(prev.value, last))
  }

  /** The running maximum, symmetric to FoldMin. */
  function FoldMax(rates: seq<real>): (r: Option<real>)
    ensures r.None? <==> rates == []
    ensures r.Some? ==> IsGreatest(r.value, Elements(rates))
  {
    if rates == [] then None
    else
      var init, last := rates[..|rates| - 1], rates[|rates| - 1];
      assert Elements(rates) == Elements(init) + {last} by { assert rates == init + [last]; }
      var prev := FoldMax(init);
      Some(if prev.None? then last else Max(prev.value, last))
  }

  /** A non-empty set has an element. */
  lemma HasElement(s: set<real>)
    requires s != {}
    ensures exists x :: x in s
  {
    if forall x :: x !in s {
      assert false;
    }
  }

  lemma {:induction false} LeastExists(s: set<real>)
    requires s != {}
    ensures exists m :: IsLeast(m, s)
  {
    HasElement(s);
    var x :| x in s;
    if s == {x} {
      assert IsLeast(x, s);
    } else {
      LeastExists(s - {x});
      var m :| IsLeast(m, s - {x});
      forall y | y in s ensures Min(m, x) <= y {
        if y != x {
          assert y in s - {x};
        }
      }
      assert IsLeast(Min(m, x), s);
    }
  }

  lemma {:induction false} GreatestExists(s: set<real>)
    requires s != {}
    ensures exists m :: IsGreatest(m, s)
  {
    HasElement(s);
    var x :| x in s;
    if s == {x} {
      assert IsGreatest(x, s);
    } else {
      GreatestExists(s - {x});
      var m :| IsGreatest(m, s - {x});
      forall y | y in s ensures y <= Max(m, x) {
        if y != x {
          assert y in s - {x};
        }
      }
      assert IsGreatest(Max(m, x), s);
    }
  }

  /** The least element of a non-empty finite set of prices. */
  ghost function Least(s: set<real>): (m: real)
    requires s != {}
    ensures IsLeast(m, s)
  {
    LeastExists(s);
    var m :| IsLeast(m, s);
    m
  }

  /** The greatest element of a non-empty finite set of prices. */
  ghost function Greatest(s: set<real>): (m: real)
    requires s != {}
    ensures IsGreatest(m, s)
  {
    GreatestExists(s);
    var m :| IsGreatest(m, s);
    m
  }

  /** A set has one least and one greatest element. */
  lemma ExtremesUnique(s: set<real>, lo: real, hi: real)
    requires s != {}
    ensures IsLeast(lo, s) ==> lo == Least(s)
    ensures IsGreatest(hi, s) ==> hi == Greatest(s)
  {
  }

  /**
   * Whatever order the values are visited in, the fold ends on the least and the greatest of
   * them: the result depends only on the set of values.
   */
  lemma FoldIsExtremes(rates: seq<real>)
    requires rates != []
    ensures rates[0] in Elements(rates)
    ensures FoldMin(rates) == Some(Least(Elements(rates)))
    ensures FoldMax(rates) == Some(Greatest(Elements(rates)))
  {
  }

  /** Two visiting orders of the same values give the same minimum and maximum. */
  lemma FoldOrderIndependent(a: seq<real>, b: seq<real>)
    requires multiset(a) == multiset(b)
    ensures FoldMin(a) == FoldMin(b) && FoldMax(a) == FoldMax(b)
  {
    if a != [] {
      assert Elements(a) == Elements(b) by {
        forall x ensures x in a <==> x in b {
          assert x in a <==> x in multiset(a);
        }
      }
      FoldIsExtremes(a);
      FoldIsExtremes(b);
    } else {
      assert |b| == |multiset(b)| == 0;
    }
  }

  /** The minimum never exceeds the maximum. */
  lemma LeastAtMostGreatest(s: set<real>)
    requires s != {}
    ensures Least(s) <= Greatest(s)
  {
  }

  /** A one-value series has that value as minimum and maximum. */
  lemma SingletonExtremes(v: real)
    ensures Least({v}) == v == Greatest({v})
  {
  }
}
