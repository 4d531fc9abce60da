/** TSigmaCalc (base/sigma_calc.cc) over the reals: Welford's Push and Chan's Add against the batch formulas. */
module Sigma {
  /** The fields of a calculator; the last four mean nothing while count is zero. */
  datatype Stats = Stats(count: nat, min: real, max: real, mean: real, square: real)

  // ----- the batch formulas ------------------------------------------------------------

  function Sum(xs: seq<real>): real {
    if xs == [] then 0.0 else xs[0] + Sum(xs[1..])
  }

  function Sq(x: real): real {
    x * x
  }

  function SumOfSquares(xs: seq<real>): real {
    if xs == [] then 0.0 else Sq(xs[0]) + SumOfSquares(xs[1..])
  }

  /** The sum of the squared deviations from c. */
  function SquaredDeviations(xs: seq<real>, c: real): real {
    if xs == [] then 0.0 else Sq(xs[0] - c) + SquaredDeviations(xs[1..], c)
  }

  ghost predicate IsMin(m: real, xs: seq<real>) {
    m in xs && forall x | x in xs :: m <= x
  }

  ghost predicate IsMax(m: real, xs: seq<real>) {
    m in xs && forall x | x in xs :: x <= m
  }

  function N(xs: seq<real>): real {
    |xs| as real
  }

  /** The calculator holds the statistics of xs: count, extremes, mean, and sum of squared deviations from the mean. */
  ghost predicate Represents(s: Stats, xs: seq<real>) {
    && s.count == |xs|
    && (xs != [] ==>
          && IsMin(s.min, xs) && IsMax(s.max, xs)
          && s.mean == Sum(xs) / N(xs)
          && s.square == SquaredDeviations(xs, s.mean))
  }

  lemma {:induction false} SumSplits(xs: seq<real>, ys: seq<real>)
    ensures Sum(xs + ys) == Sum(xs) + Sum(ys)
    ensures SumOfSquares(xs + ys) == SumOfSquares(xs) + SumOfSquares(ys)
  {
    if xs == [] {
      assert xs + ys == ys;
    } else {
      assert (xs + ys)[1..] == xs[1..] + ys;
      SumSplits(xs[1..], ys);
    }
  }

  function DeviationForm(squares: real, sum: real, n: real, c: real): real {
    squares - 2.0 * c * sum + n * c * c
  }

  lemma DeviationStep(x: real, squares: real, sum: real, n: real, c: real)
    ensures Sq(x - c) + DeviationForm(squares, sum, n, c) == DeviationForm(Sq(x) + squares, x + sum, 1.0 + n, c)
    ensures DeviationForm(0.0, 0.0, 0.0, c) == 0.0
  {
  }

  /** The deviations from c in terms of the two sums. */
  lemma {:induction false} DeviationsBySums(xs: seq<real>, c: real)
    ensures SquaredDeviations(xs, c) == DeviationForm(SumOfSquares(xs), Sum(xs), N(xs), c)
  {
    hide DeviationForm, Sq;
    if xs == [] {
      DeviationStep(c, 0.0, 0.0, 0.0, c);
    } else {
      DeviationsBySums(xs[1..], c);
      DeviationStep(xs[0], SumOfSquares(xs[1..]), Sum(xs[1..]), N(xs[1..]), c);
      assert N(xs) == 1.0 + N(xs[1..]);
    }
  }

  /** The same facts without a division: what Push and Add work with. */
  predicate MomentsOf(s: Stats, n: real, sum: real, squares: real) {
    n * s.mean == sum && s.square == squares - n * s.mean * s.mean
  }

  ghost predicate Moments(s: Stats, xs: seq<real>) {
    MomentsOf(s, N(xs), Sum(xs), SumOfSquares(xs))
  }

  lemma MeanIff(n: real, m: real, t: real)
    requires n > 0.0
    ensures n * m == t <==> m == t / n
  {
  }

  lemma CrossTerm(n: real, m: real, t: real, q: real)
    requires n * m == t
    ensures q - 2.0 * m * t + n * m * m == q - n * m * m
  {
    assert m * t == n * m * m;
  }

  lemma MomentsNumbers(s: Stats, n: real, sum: real, squares: real, deviations: real)
    requires n > 0.0 && deviations == DeviationForm(squares, sum, n, s.mean)
    ensures MomentsOf(s, n, sum, squares) <==> s.mean == sum / n && s.square == deviations
  {
    MeanIff(n, s.mean, sum);
    if n * s.mean == sum {
      CrossTerm(n, s.mean, sum, squares);
    }
  }

  lemma MomentsIff(s: Stats, xs: seq<real>)
    requires xs != []
    ensures Moments(s, xs) <==> s.mean == Sum(xs) / N(xs) && s.square == SquaredDeviations(xs, s.mean)
  {
    DeviationsBySums(xs, s.mean);
    hide MomentsOf, Sum, SumOfSquares, SquaredDeviations, DeviationForm;
    MomentsNumbers(s, N(xs), Sum(xs), SumOfSquares(xs), SquaredDeviations(xs, s.mean));
  }

  // ----- pushing and adding ------------------------------------------------------------

  function Least(a: real, b: real): real {
    if b < a then b else a
  }

  function Greatest(a: real, b: real): real {
    if a < b then b else a
  }

  function Pushed(s: Stats, val: real): Stats {
    if s.count == 0 then Stats(1, val, val, val, 0.0)
    else
      var mean := s.mean + (val - s.mean) / (s.count + 1) as real;
      Stats(s.count + 1, Least(s.min, val), Greatest(s.max, val), mean, s.square + (val - s.mean) * (val - mean))
  }

  function Merged(s: Stats, t: Stats): Stats {
    if t.count == 0 then s
    else if s.count == 0 then t
    else
      var a, b := s.count as real, t.count as real;
      var delta := t.mean - s.mean;
      Stats(s.count + t.count, Least(s.min, t.min), Greatest(s.max, t.max),
            s.mean + delta * b / (s.count + t.count) as real,
            s.square + (t.square + delta * delta * (a * b / (s.count + t.count) as real)))
  }

  /** The mean and square after a push, with e the step of the mean. */
  lemma PushAlgebra(n: real, m: real, v: real, e: real)
    requires v == m + (n + 1.0) * e
    ensures (n + 1.0) * (m + e) == n * m + v
    ensures (v - m) * (v - (m + e)) == v * v + n * m * m - (n + 1.0) * (m + e) * (m + e)
  {
  }

  lemma PushNumbers(s: Stats, v: real, n: real, sum: real, squares: real)
    requires s.count > 0 && n == s.count as real && MomentsOf(s, n, sum, squares)
    ensures MomentsOf(Pushed(s, v), n + 1.0, sum + v, squares + Sq(v))
  {
    var e := (v - s.mean) / (n + 1.0);
    MeanIff(n + 1.0, e, v - s.mean);
    PushAlgebra(n, s.mean, v, e);
    var p := Pushed(s, v);
    assert p.mean == s.mean + e && p.square == s.square + (v - s.mean) * (v - (s.mean + e));
    hide Pushed;
  }

  lemma PushMoments(s: Stats, xs: seq<real>, v: real)
    requires Moments(s, xs) && xs != [] && s.count == |xs|
    ensures Moments(Pushed(s, v), xs + [v])
  {
    SumSplits(xs, [v]);
    assert Sum([v]) == v && SumOfSquares([v]) == Sq(v) && N(xs + [v]) == N(xs) + 1.0;
    hide MomentsOf, Pushed, Sum, SumOfSquares, Sq;
    PushNumbers(s, v, N(xs), Sum(xs), SumOfSquares(xs));
  }

  /** The mean and square after an addition, with e the difference of the means over the new count. */
  lemma MergeAlgebra(a: real, b: real, m: real, e: real)
    ensures (a + b) * (m + b * e) == a * m + b * (m + (a + b) * e)
    ensures (a + b) * e * e * a * b
         == a * m * m + b * (m + (a + b) * e) * (m + (a + b) * e) - (a + b) * (m + b * e) * (m + b * e)
  {
  }

  /** The quotients of Add in terms of e = delta / (a + b). */
  lemma MergeQuotients(a: real, b: real, delta: real, e: real)
    requires a > 0.0 && b > 0.0 && delta == (a + b) * e
    ensures delta * b / (a + b) == b * e
    ensures delta * delta * (a * b / (a + b)) == (a + b) * e * e * a * b
  {
    var c := a + b;
    assert delta * b == c * (b * e);
    MeanIff(c, b * e, delta * b);
    var q := a * b / c;
    MeanIff(c, q, a * b);
    assert c * q == a * b;
    assert delta * delta * q == (c * e * e) * (c * q);
    assert (c * e * e) * (a * b) == c * e * e * a * b;
  }

  lemma MergeAdds(s: Stats, t: Stats, a: real, b: real, e: real, sums: (real, real), squares: (real, real), p: Stats)
    requires MomentsOf(s, a, sums.0, squares.0) && MomentsOf(t, b, sums.1, squares.1)
    requires t.mean == s.mean + (a + b) * e
    requires p.mean == s.mean + b * e && p.square == s.square + (t.square + (a + b) * e * e * a * b)
    ensures MomentsOf(p, a + b, sums.0 + sums.1, squares.0 + squares.1)
  {
    MergeAlgebra(a, b, s.mean, e);
  }

  lemma MergeNumbers(s: Stats, t: Stats, a: real, b: real, sums: (real, real), squares: (real, real))
    requires s.count > 0 && t.count > 0 && a == s.count as real && b == t.count as real
    requires MomentsOf(s, a, sums.0, squares.0) && MomentsOf(t, b, sums.1, squares.1)
    ensures MomentsOf(Merged(s, t), a + b, sums.0 + sums.1, squares.0 + squares.1)
  {
    hide MomentsOf;
    var delta := t.mean - s.mean;
    var e := delta / (a + b);
    MeanIff(a + b, e, delta);
    MergeQuotients(a, b, delta, e);
    MergeAdds(s, t, a, b, e, sums, squares, Merged(s, t));
  }

  lemma MergeMoments(s: Stats, t: Stats, xs: seq<real>, ys: seq<real>)
    requires Moments(s, xs) && Moments(t, ys) && xs != [] && ys != [] && s.count == |xs| && t.count == |ys|
    ensures Moments(Merged(s, t), xs + ys)
  {
    SumSplits(xs, ys);
    assert N(xs + ys) == N(xs) + N(ys);
    hide MomentsOf, Merged, Sum, SumOfSquares;
    MergeNumbers(s, t, N(xs), N(ys), (Sum(xs), Sum(ys)), (SumOfSquares(xs), SumOfSquares(ys)));
  }

  lemma OfOne(v: real)
    ensures Sum([v]) == v && SquaredDeviations([v], v) == 0.0 && IsMin(v, [v]) && IsMax(v, [v]) && N([v]) == 1.0
  {
    var xs := [v];
    assert xs[0] == v && xs[1..] == [];
    assert Sum(xs) == xs[0] + Sum(xs[1..]) && Sum([]) == 0.0;
    assert SquaredDeviations(xs, v) == Sq(v - v) + SquaredDeviations([], v);
  }

  lemma PushFirst(s: Stats, v: real)
    requires s.count == 0
    ensures Represents(Pushed(s, v), [v])
  {
    hide Sum, SquaredDeviations, IsMin, IsMax, N;
    OfOne(v);
    assert v == v / 1.0;
  }

  lemma LeastOf(a: real, xs: seq<real>, v: real)
    requires IsMin(a, xs)
    ensures IsMin(Least(a, v), xs + [v])
  {
    assert v in [v];
  }

  lemma GreatestOf(a: real, xs: seq<real>, v: real)
    requires IsMax(a, xs)
    ensures IsMax(Greatest(a, v), xs + [v])
  {
    assert v in [v];
  }

  lemma PushMore(s: Stats, xs: seq<real>, v: real)
    requires Represents(s, xs) && xs != []
    ensures Represents(Pushed(s, v), xs + [v])
  {
    hide Moments, Sum, SquaredDeviations, N, IsMin, IsMax, Least, Greatest;
    var p := Pushed(s, v);
    MomentsIff(s, xs);
    PushMoments(s, xs, v);
    MomentsIff(p, xs + [v]);
    LeastOf(s.min, xs, v);
    GreatestOf(s.max, xs, v);
  }

  /** A push adds one value. */
  lemma PushRepresents(s: Stats, xs: seq<real>, v: real)
    requires Represents(s, xs)
    ensures Represents(Pushed(s, v), xs + [v])
  {
    hide Pushed, Sum, SquaredDeviations, N, IsMin, IsMax;
    if xs == [] {
      PushFirst(s, v);
      assert xs + [v] == [v];
    } else {
      PushMore(s, xs, v);
    }
  }

  /** Adding is pushing the other side's values. */
  lemma MergeRepresents(s: Stats, t: Stats, xs: seq<real>, ys: seq<real>)
    requires Represents(s, xs) && Represents(t, ys)
    ensures Represents(Merged(s, t), xs + ys)
  {
    if ys == [] {
      assert xs + ys == xs;
    } else if xs == [] {
      assert xs + ys == ys;
    } else {
      MomentsIff(s, xs);
      MomentsIff(t, ys);
      MergeMoments(s, t, xs, ys);
      MomentsIff(Merged(s, t), xs + ys);
      hide Moments, Sum, SquaredDeviations;
    }
  }

  // ----- the order of the values does not matter ---------------------------------------

  lemma SumOfPair(x: real, xs: seq<real>)
    ensures Sum([x] + xs) == x + Sum(xs) && SumOfSquares([x] + xs) == Sq(x) + SumOfSquares(xs)
  {
    assert ([x] + xs)[1..] == xs;
  }

  lemma CancelOne<T>(x: T, a: multiset<T>, b: multiset<T>)
    requires multiset{x} + a == multiset{x} + b
    ensures a == b
  {
    forall y ensures a[y] == b[y] {
      assert (multiset{x} + a)[y] == (multiset{x} + b)[y];
    }
  }

  lemma {:induction false} SumsOfPermutation(xs: seq<real>, ys: seq<real>)
    requires multiset(xs) == multiset(ys)
    ensures Sum(xs) == Sum(ys) && SumOfSquares(xs) == SumOfSquares(ys)
    decreases xs
  {
    if xs == [] {
      assert |multiset(ys)| == 0;
    } else {
      hide Sum, SumOfSquares, Sq;
      var x := xs[0];
      assert x in multiset(xs);
      var i :| 0 <= i < |ys| && ys[i] == x;
      var before, after := ys[..i], ys[i + 1..];
      assert ys == before + ([x] + after);
      assert xs == [x] + xs[1..];
      assert multiset(xs) == multiset{x} + multiset(xs[1..]);
      assert multiset(ys) == multiset{x} + multiset(before + after);
      CancelOne(x, multiset(xs[1..]), multiset(before + after));
      SumsOfPermutation(xs[1..], before + after);
      SumSplits(before, [x] + after);
      SumSplits(before, after);
      SumOfPair(x, after);
      SumOfPair(x, xs[1..]);
    }
  }

  lemma DeviationsOfPermutation(xs: seq<real>, ys: seq<real>, c: real)
    requires multiset(xs) == multiset(ys)
    ensures SquaredDeviations(xs, c) == SquaredDeviations(ys, c)
  {
    assert |xs| == |multiset(xs)| == |multiset(ys)| == |ys|;
    hide Sum, SumOfSquares, SquaredDeviations, DeviationForm;
    SumsOfPermutation(xs, ys);
    DeviationsBySums(xs, c);
    DeviationsBySums(ys, c);
  }

  /** Equal but for fields that mean nothing. */
  predicate Same(s: Stats, t: Stats) {
    s.count == t.count && (s.count > 0 ==> s == t)
  }

  /** The multiset of the values determines the statistics. */
  lemma RepresentsIsUnique(s: Stats, t: Stats, xs: seq<real>, ys: seq<real>)
    requires Represents(s, xs) && Represents(t, ys) && multiset(xs) == multiset(ys)
    ensures Same(s, t)
  {
    assert |xs| == |multiset(xs)| == |multiset(ys)| == |ys|;
    assert forall x :: x in xs <==> x in multiset(xs);
    assert forall y :: y in ys <==> y in multiset(ys);
    hide Sum, SumOfSquares, SquaredDeviations;
    if xs != [] {
      SumsOfPermutation(xs, ys);
      assert s.mean == t.mean;
      DeviationsOfPermutation(xs, ys, s.mean);
    }
  }

  /** Any way of combining calculators. */
  datatype Tree = Empty | PushTo(left: Tree, value: real) | AddTo(left: Tree, right: Tree)

  function Run(t: Tree): Stats {
    match t
    case Empty => Stats(0, 0.0, 0.0, 0.0, 0.0)
    case PushTo(l, v) => Pushed(Run(l), v)
    case AddTo(l, r) => Merged(Run(l), Run(r))
  }

  function Values(t: Tree): seq<real> {
    match t
    case Empty => []
    case PushTo(l, v) => Values(l) + [v]
    case AddTo(l, r) => Values(l) + Values(r)
  }

  /** Whatever the tree, the result is the batch statistics of the values pushed anywhere in it. */
  lemma {:induction false} TreeRepresents(t: Tree)
    ensures Represents(Run(t), Values(t))
  {
    match t {
      case Empty =>
      case PushTo(l, v) =>
        TreeRepresents(l);
        PushRepresents(Run(l), Values(l), v);
      case AddTo(l, r) =>
        TreeRepresents(l);
        TreeRepresents(r);
        MergeRepresents(Run(l), Run(r), Values(l), Values(r));
    }
  }

  /** Two trees over the same multiset of values end in the same statistics. */
  lemma TreesAgree(t: Tree, u: Tree)
    requires multiset(Values(t)) == multiset(Values(u))
    ensures Same(Run(t), Run(u))
  {
    TreeRepresents(t);
    TreeRepresents(u);
    RepresentsIsUnique(Run(t), Run(u), Values(t), Values(u));
  }

  /** So Add is commutative and associative, and adding is the same as pushing the other side's values one by one. */
  lemma AddCommutes(a: Tree, b: Tree)
    ensures Same(Run(AddTo(a, b)), Run(AddTo(b, a)))
  {
    assert multiset(Values(AddTo(a, b))) == multiset(Values(a)) + multiset(Values(b)) == multiset(Values(AddTo(b, a)));
    hide *;
    TreesAgree(AddTo(a, b), AddTo(b, a));
  }

  lemma AddAssociates(a: Tree, b: Tree, c: Tree)
    ensures Same(Run(AddTo(AddTo(a, b), c)), Run(AddTo(a, AddTo(b, c))))
  {
    assert Values(AddTo(AddTo(a, b), c)) == Values(AddTo(a, AddTo(b, c)));
    hide *;
    TreesAgree(AddTo(AddTo(a, b), c), AddTo(a, AddTo(b, c)));
  }

  function PushAll(t: Tree, xs: seq<real>): Tree
    decreases xs
  {
    if xs == [] then t else PushAll(PushTo(t, xs[0]), xs[1..])
  }

  lemma {:induction false} PushAllValues(t: Tree, xs: seq<real>)
    ensures Values(PushAll(t, xs)) == Values(t) + xs
    decreases xs
  {
    if xs != [] {
      PushAllValues(PushTo(t, xs[0]), xs[1..]);
      assert Values(t) + [xs[0]] + xs[1..] == Values(t) + xs;
    }
  }

  lemma AddIsPushing(a: Tree, b: Tree)
    ensures Same(Run(AddTo(a, b)), Run(PushAll(a, Values(b))))
  {
    PushAllValues(a, Values(b));
    assert Values(AddTo(a, b)) == Values(PushAll(a, Values(b)));
    hide *;
    TreesAgree(AddTo(a, b), PushAll(a, Values(b)));
  }

  // ----- the calculator ----------------------------------------------------------------

  class SigmaCalc {
    var count: nat
    var min: real
    var max: real
    var movingMean: real
    var movingSquare: real

    function State(): Stats
      reads this
    {
      Stats(count, min, max, movingMean, movingSquare)
    }

    constructor ()
      ensures count == 0
    {
      count := 0;
      min, max, movingMean, movingSquare := 0.0, 0.0, 0.0, 0.0;
    }

    method Push(val: real)
      modifies this
      ensures State() == Pushed(old(State()), val)
      ensures forall xs | Represents(old(State()), xs) :: Represents(State(), xs + [val])
    {
      hide Represents, Least, Greatest;
      if count != 0 {
        min := Least(min, val);
        max := Greatest(max, val);
        var oldMovingMean, oldMovingSquare := movingMean, movingSquare;
        movingMean := oldMovingMean + (val - oldMovingMean) / (count + 1) as real;
        movingSquare := oldMovingSquare + (val - oldMovingMean) * (val - movingMean);
      } else {
        min, max, movingMean, movingSquare := val, val, val, 0.0;
      }
      count := count + 1;
      assert State() == Pushed(old(State()), val);
      forall xs | Represents(old(State()), xs) ensures Represents(State(), xs + [val]) {
        PushRepresents(old(State()), xs, val);
      }
    }

    /** that may be this calculator itself. */
    method Add(that: SigmaCalc)
      modifies this
      ensures State() == Merged(old(State()), old(that.State()))
      ensures forall xs, ys | Represents(old(State()), xs) && Represents(old(that.State()), ys) ::
                Represents(State(), xs + ys)
    {
      hide Represents;
      forall xs, ys | Represents(State(), xs) && Represents(that.State(), ys)
        ensures Represents(Merged(State(), that.State()), xs + ys)
      {
        MergeRepresents(State(), that.State(), xs, ys);
      }
      if that.count == 0 {
        return;
      }
      if count == 0 {
        count, min, max, movingMean, movingSquare := that.count, that.min, that.max, that.movingMean, that.movingSquare;
        return;
      }
      Combine(that);
    }

    /** The update of Add when both sides have values. */
    method Combine(that: SigmaCalc)
      requires count > 0 && that.count > 0
      modifies this
      ensures State() == Merged(old(State()), old(that.State()))
    {
      hide Least, Greatest;
      ghost var m := Merged(State(), that.State());
      var combinedCount := count + that.count;
      var delta := that.movingMean - movingMean;
      movingSquare := movingSquare + (that.movingSquare
          + delta * delta * (count as real * that.count as real / combinedCount as real));
      assert movingSquare == m.square;
      movingMean := movingMean + delta * that.count as real / combinedCount as real;
      assert movingMean == m.mean;
      min := Least(min, that.min);
      max := Greatest(max, that.max);
      count := combinedCount;
    }

    /** sqrt is the square root of the C++ library. */
    method Report(sqrt: real -> real) returns (n: nat, least: real, greatest: real, mean: real, sigma: real)
      ensures n == count
      ensures forall xs | Represents(State(), xs) && xs != [] ::
                && n == |xs| && IsMin(least, xs) && IsMax(greatest, xs) && mean == Sum(xs) / N(xs)
                && sigma == if |xs| == 1 then 0.0 else sqrt(SquaredDeviations(xs, mean) / (|xs| - 1) as real)
    {
      least, greatest, mean, sigma := 0.0, 0.0, 0.0, 0.0;
      if count != 0 {
        least, greatest, mean := min, max, movingMean;
        sigma := if count > 1 then sqrt(movingSquare / (count - 1) as real) else 0.0;
      }
      n := count;
    }

    method Reset()
      modifies this
      ensures Represents(State(), [])
    {
      count := 0;
    }
  }
}
