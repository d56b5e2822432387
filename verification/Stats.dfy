/** The statistics of a summary (`stats.ts`), over the reals. A square root is handed in as a value. */
module Stats {
  import opened Common
  import opened Reals

  /** The z of a two-sided 95% interval, and its square. */
  const Z := 1.959963984540054
  const Z2 := Z * Z

  datatype Interval = Interval(rate: real, low: real, high: real)

  predicate Runs(passed: int, runs: int) {
    0 <= passed <= runs && runs >= 1
  }

  function Rate(passed: int, runs: int): real
    requires runs != 0
  {
    passed as real / runs as real
  }

  /** What the root is taken of. */
  function Spread(n: real, p: real): real
    requires n > 0.0 && Times(n, n) > 0.0
  {
    Times(p, 1.0 - p) / n + Z2 / (4.0 * Times(n, n))
  }

  function Denominator(n: real): real
    requires n > 0.0
  {
    1.0 + Z2 / n
  }

  lemma DenominatorIs(n: real)
    requires n > 0.0
    ensures Denominator(n) > 0.0 && Times(n, Denominator(n)) == n + Z2
  {
    QuotientNotNegative(Z2, n);
    Undivided(Z2, n);
    Distributes(n, 1.0, Z2 / n);
    Zero(n);
    hide Times;
  }

  function Center(n: real, p: real): real
    requires n > 0.0
  {
    DenominatorIs(n);
    (p + Z2 / (2.0 * n)) / Denominator(n)
  }

  function Half(n: real, s: real): real
    requires n > 0.0
  {
    DenominatorIs(n);
    Times(Z, s) / Denominator(n)
  }

  /** None without a run; `s` is the root of the spread. */
  function Wilson(passed: int, runs: int, s: real): Option<Interval> {
    if runs <= 0 then None
    else
      var n, p := runs as real, Rate(passed, runs);
      Some(Interval(p, Max(0.0, Center(n, p) - Half(n, s)), Min(1.0, Center(n, p) + Half(n, s))))
  }

  /**
   How far a true rate `x` is from the edge of what a rate `p` of `n` runs allows, the side left of the score equation less
   its right: 0 on the edge, negative within.
   */
  function Score(n: real, p: real, x: real): real {
    Times(n, Square(p - x)) - Times(Z2, Times(x, 1.0 - x))
  }

  lemma RateIs(passed: int, runs: int)
    requires Runs(passed, runs)
    ensures 0.0 <= Rate(passed, runs) <= 1.0 && Times(runs as real, Rate(passed, runs)) == passed as real
    ensures Rate(passed, runs) == 0.0 <==> passed == 0
    ensures Rate(passed, runs) == 1.0 <==> passed == runs
  {
    var n := runs as real;
    Undivided(passed as real, n);
    Cancels(n, 0.0, Rate(passed, runs));
    Cancels(n, Rate(passed, runs), 0.0);
    Cancels(n, Rate(passed, runs), 1.0);
    Cancels(n, 1.0, Rate(passed, runs));
    Zero(n);
    hide Times;
  }

  // The center and the half width, cleared of their denominators.

  lemma CenterIs(n: real, p: real)
    requires n > 0.0
    ensures Times(n + Z2, Center(n, p)) == Times(n, p) + Z2 / 2.0
  {
    var d, c, y := Denominator(n), Center(n, p), Z2 / (2.0 * n);
    DenominatorIs(n);
    Undivided(p + y, d);
    Undivided(Z2, 2.0 * n);
    Doubles(n, y);
    Associates(n, d, c);
    Distributes(n, p, y);
    hide Times;
  }

  lemma SpreadIs(n: real, p: real)
    requires n > 0.0
    ensures Times(n, n) > 0.0
    ensures Times(Times(n, n), Spread(n, p)) == Times(n, Times(p, 1.0 - p)) + Z2 / 4.0
  {
    Positive(n, n);
    var k, x, y := Times(n, n), Times(p, 1.0 - p), Z2 / (4.0 * Times(n, n));
    hide Times;
    Undivided(Z2, 4.0 * k);
    Undivided(x, n);
    Doubles(k, y);
    Associates(n, n, x / n);
    Distributes(k, x / n, y);
  }

  lemma Regrouped(n: real, z: real, s: real)
    ensures Square(Times(n, Times(z, s))) == Times(z * z, Times(Times(n, n), Square(s)))
  {
  }

  lemma HalfIs(n: real, p: real, s: real)
    requires n > 0.0 && Times(n, n) > 0.0 && IsRoot(s, Spread(n, p))
    ensures Half(n, s) >= 0.0
    ensures Square(Times(n + Z2, Half(n, s))) == Times(Z2, Times(n, Times(p, 1.0 - p)) + Z2 / 4.0)
  {
    var d, t := Denominator(n), Half(n, s);
    DenominatorIs(n);
    NotNegative(Z, s);
    QuotientNotNegative(Times(Z, s), d);
    Undivided(Times(Z, s), d);
    Associates(n, d, t);
    Regrouped(n, Z, s);
    SpreadIs(n, p);
    hide Times, Square;
  }

  // The score as a polynomial.

  lemma ScoreTimes(n: real, w: real, sq: real, x: real)
    ensures Times(n + w, Times(n, sq) - Times(w, x)) ==
            Times(Times(n, n), sq) + Times(Times(n, w), sq - x) - Times(Times(w, w), x)
  {
  }

  lemma SquareOfSum(n: real, w: real, a: real, b: real)
    ensures Square(Times(n, a) + Times(w, b)) ==
            Times(Times(n, n), Square(a)) + Times(Times(n, w), 2.0 * Times(a, b)) + Times(Times(w, w), Square(b))
  {
  }

  lemma Collected(n: real, w: real, p: real, x: real)
    ensures Times(n + w, x) - (Times(n, p) + w / 2.0) == Times(n, x - p) + Times(w, x - 0.5)
    ensures Times(w, Times(n, p) + w / 4.0) == Times(Times(n, w), p) + Times(Times(w, w), 0.25)
  {
  }

  lemma Halves(p: real, x: real)
    ensures 2.0 * Times(x - p, x - 0.5) - Times(p, 1.0 - p) == Square(x - p) - Times(x, 1.0 - x)
    ensures Square(x - 0.5) - 0.25 == -Times(x, 1.0 - x) && Square(p - x) == Square(x - p)
  {
  }

  lemma Expanded(n: real, p: real, w: real, x: real)
    ensures Times(n + w, Times(n, Square(p - x)) - Times(w, Times(x, 1.0 - x))) ==
            Square(Times(n + w, x) - (Times(n, p) + w / 2.0)) - Times(w, Times(n, Times(p, 1.0 - p)) + w / 4.0)
  {
    var nw, ww, y, q := Times(n, w), Times(w, w), Times(x, 1.0 - x), Times(p, 1.0 - p);
    ScoreTimes(n, w, Square(p - x), y);
    Collected(n, w, p, x);
    Collected(n, w, q, x);
    SquareOfSum(n, w, x - p, x - 0.5);
    Halves(p, x);
    Distributes(nw, 2.0 * Times(x - p, x - 0.5), q);
    Distributes(ww, Square(x - 0.5), 0.25);
    Distributes(ww, 0.0, y);
    Zero(ww);
    hide Times, Square;
  }

  lemma Rescaled(m: real, x: real, c: real, t: real)
    ensures Square(Times(m, x) - Times(m, c)) - Square(Times(m, t)) == Times(m, Times(m, Square(x - c) - Square(t)))
  {
  }

  /** The score is the product of its distances from the ends of the interval. */
  lemma {:induction false} ScoreFactors(n: real, p: real, s: real, x: real)
    requires n > 0.0 && Times(n, n) > 0.0 && IsRoot(s, Spread(n, p))
    ensures Score(n, p, x) == Times(n + Z2, Square(x - Center(n, p)) - Square(Half(n, s)))
  {
    var c, t := Center(n, p), Half(n, s);
    CenterIs(n, p);
    HalfIs(n, p, s);
    hide Times, Square, Center, Half, Spread;
    Expanded(n, p, Z2, x);
    Rescaled(n + Z2, x, c, t);
    Cancels(n + Z2, Score(n, p, x), Times(n + Z2, Square(x - c) - Square(t)));
  }

  /** So it is negative just between them, and 0 just at them. */
  lemma ScoreSign(n: real, p: real, s: real, x: real)
    requires n > 0.0 && Times(n, n) > 0.0 && IsRoot(s, Spread(n, p))
    ensures var c, t := Center(n, p), Half(n, s);
            && t >= 0.0
            && (Score(n, p, x) < 0.0 <==> c - t < x < c + t)
            && (Score(n, p, x) <= 0.0 <==> c - t <= x <= c + t)
            && (Score(n, p, x) == 0.0 <==> x == c - t || x == c + t)
  {
    var c, t := Center(n, p), Half(n, s);
    HalfIs(n, p, s);
    ScoreFactors(n, p, s, x);
    hide Times, Square, Center, Half, Spread, Score;
    var rest := Square(x - c) - Square(t);
    Cancels(n + Z2, rest, 0.0);
    Zero(n + Z2);
    Within(x - c, t);
  }

  lemma ScoreAtEnds(n: real, p: real)
    requires n > 0.0 && 0.0 <= p <= 1.0
    ensures Score(n, p, 0.0) >= 0.0 && (Score(n, p, 0.0) == 0.0 <==> p == 0.0)
    ensures Score(n, p, 1.0) >= 0.0 && (Score(n, p, 1.0) == 0.0 <==> p == 1.0)
    ensures Score(n, p, p) <= 0.0 && (0.0 < p < 1.0 ==> Score(n, p, p) < 0.0)
  {
    if 0.0 < p < 1.0 {
      Positive(p, 1.0 - p);
      Positive(Z2, Times(p, 1.0 - p));
    }
    forall e: real | e == 0.0 || e == 1.0
      ensures Score(n, p, e) >= 0.0 && (Score(n, p, e) == 0.0 <==> p == e)
    {
      ScoreAtEdge(n, p, e);
    }
    NotNegative(p, 1.0 - p);
    NotNegative(Z2, Times(p, 1.0 - p));
    Zero(n);
    hide Times;
  }

  lemma ScoreAtEdge(n: real, p: real, e: real)
    requires n > 0.0 && (e == 0.0 || e == 1.0)
    ensures Score(n, p, e) >= 0.0 && (Score(n, p, e) == 0.0 <==> p == e)
  {
    SquareNotNegative(p - e);
    NotNegative(n, Square(p - e));
    Zero(1.0);
    Zero(Z2);
    Zero(n);
    Cancels(n, Square(p - e), 0.0);
    hide Times, Square;
  }

  lemma CenterWithin(n: real, p: real)
    requires n > 0.0 && 0.0 <= p <= 1.0
    ensures 0.0 < Center(n, p) < 1.0
  {
    var m, c := n + Z2, Center(n, p);
    CenterIs(n, p);
    NotNegative(n, p);
    NotNegative(n, 1.0 - p);
    Distributes(n, 1.0, p);
    Zero(n);
    Zero(m);
    Cancels(m, 0.0, c);
    Cancels(m, c, 1.0);
    hide Times, Center;
  }

  lemma Squared(n: real)
    requires n > 0.0
    ensures Times(n, n) > 0.0
  {
    Positive(n, n);
  }

  /** The root handed in is that of the spread. */
  ghost predicate RootOf(passed: int, runs: int, s: real)
    requires runs >= 1
  {
    Squared(runs as real);
    IsRoot(s, Spread(runs as real, Rate(passed, runs)))
  }

  /**
   Wilson's bounds are the two roots of the score equation; they lie on either side of the rate within 0 and 1, so the
   clamps never act, and reach 0 and 1 only when no run, or every run, passed.
   */
  lemma {:induction false} WilsonIsTheScoreInterval(passed: int, runs: int, s: real, x: real)
    requires Runs(passed, runs) && RootOf(passed, runs, s)
    ensures var n, p, w := runs as real, Rate(passed, runs), Wilson(passed, runs, s).value;
            && w == Interval(p, Center(n, p) - Half(n, s), Center(n, p) + Half(n, s))
            && 0.0 <= w.low <= w.rate <= w.high <= 1.0
            && (w.low == 0.0 <==> passed == 0) && (w.high == 1.0 <==> passed == runs)
            && (w.low < w.rate <==> passed > 0) && (w.rate < w.high <==> passed < runs)
            && (Score(n, p, x) == 0.0 <==> x == w.low || x == w.high)
            && (Score(n, p, x) < 0.0 <==> w.low < x < w.high)
  {
    var n, p := runs as real, Rate(passed, runs);
    RateIs(passed, runs);
    Squared(n);
    CenterWithin(n, p);
    ScoreAtEnds(n, p);
    ScoreSign(n, p, s, x);
    ScoreSign(n, p, s, 0.0);
    ScoreSign(n, p, s, 1.0);
    ScoreSign(n, p, s, p);
    hide Times, Square, Center, Half, Spread, Score, Rate, RootOf;
  }

  lemma MirroredCenter(n: real, p: real)
    requires n > 0.0
    ensures Center(n, 1.0 - p) == 1.0 - Center(n, p)
  {
    var m, c, d := n + Z2, Center(n, p), Center(n, 1.0 - p);
    CenterIs(n, p);
    CenterIs(n, 1.0 - p);
    Distributes(n, 1.0, p);
    Distributes(m, 1.0, c);
    Zero(n);
    Zero(m);
    Cancels(m, d, 1.0 - c);
    hide Times, Center;
  }

  /** Counting the failures in place of the passes mirrors the interval. */
  lemma {:induction false} WilsonMirrors(passed: int, runs: int, s: real, s': real)
    requires Runs(passed, runs) && RootOf(passed, runs, s) && RootOf(runs - passed, runs, s')
    ensures var w, w' := Wilson(passed, runs, s).value, Wilson(runs - passed, runs, s').value;
            w' == Interval(1.0 - w.rate, 1.0 - w.high, 1.0 - w.low)
  {
    var n, p, p' := runs as real, Rate(passed, runs), Rate(runs - passed, runs);
    Squared(n);
    Failures(passed, runs);
    Commutes(p, p');
    RootsAreUnique(s, s', Spread(n, p));
    MirroredCenter(n, p);
    WilsonIsTheScoreInterval(passed, runs, s, 0.0);
    WilsonIsTheScoreInterval(runs - passed, runs, s', 0.0);
    hide Times, Square, Center, Half, Score, Rate;
  }

  lemma Failures(passed: int, runs: int)
    requires Runs(passed, runs)
    ensures Rate(runs - passed, runs) == 1.0 - Rate(passed, runs)
  {
    var n, p, p' := runs as real, Rate(passed, runs), Rate(runs - passed, runs);
    RateIs(passed, runs);
    RateIs(runs - passed, runs);
    Distributes(n, 1.0, p);
    Zero(n);
    Cancels(n, p', 1.0 - p);
    hide Times, Rate;
  }

  /** Scores for two rates differ by what lies between the rates and their middle. */
  lemma ScoresDiffer(n: real, p: real, q: real, x: real)
    ensures Score(n, p, x) - Score(n, q, x) == Times(n, Times(p - q, p + q - 2.0 * x))
  {
  }

  /** More passes raise both bounds. */
  lemma {:induction false} WilsonRises(passed: int, more: int, runs: int, s: real, s': real)
    requires Runs(passed, runs) && Runs(more, runs) && passed < more
    requires RootOf(passed, runs, s) && RootOf(more, runs, s')
    ensures Wilson(passed, runs, s).value.low < Wilson(more, runs, s').value.low
    ensures Wilson(passed, runs, s).value.high < Wilson(more, runs, s').value.high
  {
    var n, p, q := runs as real, Rate(passed, runs), Rate(more, runs);
    var low, high := Wilson(more, runs, s').value.low, Wilson(passed, runs, s).value.high;
    RateIs(passed, runs);
    RateIs(more, runs);
    Cancels(n, p, q);
    WilsonIsTheScoreInterval(passed, runs, s, low);
    WilsonIsTheScoreInterval(more, runs, s', low);
    WilsonIsTheScoreInterval(passed, runs, s, high);
    WilsonIsTheScoreInterval(more, runs, s', high);
    ScoresDiffer(n, p, q, low);
    ScoresDiffer(n, p, q, high);
    hide Times, Square, Center, Half, Score, Rate, Wilson, RootOf;
    if p + q - 2.0 * low > 0.0 {
      ScoreFalls(n, q - p, p + q - 2.0 * low);
    }
    if 2.0 * high - p - q > 0.0 {
      ScoreRises(n, q - p, 2.0 * high - p - q);
    }
  }

  lemma ScoreFalls(n: real, a: real, b: real)
    requires n > 0.0 && a > 0.0 && b > 0.0
    ensures Times(n, Times(-a, b)) < 0.0
  {
    Positive(a, b);
    Positive(n, Times(a, b));
    Signs(n, a, b);
    hide Times;
  }

  lemma ScoreRises(n: real, a: real, b: real)
    requires n > 0.0 && a > 0.0 && b > 0.0
    ensures Times(n, Times(-a, -b)) > 0.0
  {
    Positive(a, b);
    Positive(n, Times(a, b));
    Signs(n, a, b);
    hide Times;
  }

  lemma Signs(n: real, a: real, b: real)
    ensures Times(n, Times(-a, b)) == -Times(n, Times(a, b)) && Times(n, Times(-a, -b)) == Times(n, Times(a, b))
  {
  }

  // Newcombe's interval.

  datatype Difference = Difference(difference: real, low: real, high: real)

  /** The squares summed below and above the difference. */
  function Below(a: Interval, b: Interval): real {
    Square(b.rate - b.low) + Square(a.high - a.rate)
  }

  function Above(a: Interval, b: Interval): real {
    Square(b.high - b.rate) + Square(a.rate - a.low)
  }

  /** The difference of two rates, b less a; none when either side has no run. `u` and `v` are the roots of the sums. */
  function Newcombe(a: Option<Interval>, b: Option<Interval>, u: real, v: real): Option<Difference> {
    if a.None? || b.None? then None
    else
      var difference := b.value.rate - a.value.rate;
      Some(Difference(difference, Max(-1.0, difference - u), Min(1.0, difference + v)))
  }

  /** What Wilson's intervals are, as far as the difference needs it. */
  predicate Proper(w: Interval) {
    0.0 <= w.low <= w.rate <= w.high <= 1.0
  }

  /** How far the interval goes either way: its distance squared is the sum of the squares of the two sides' own. */
  predicate Combines(d: Difference, a: Interval, b: Interval) {
    && d.difference == b.rate - a.rate
    && d.low <= d.difference <= d.high
    && Square(d.difference - d.low) == Square(b.rate - b.low) + Square(a.high - a.rate)
    && Square(d.high - d.difference) == Square(b.high - b.rate) + Square(a.rate - a.low)
  }

  /**
   The interval of the difference holds the difference and combines the two intervals' distances on either side. It lies
   within the greatest and the least difference of what they hold, so that its clamps never act, goes further than either
   side alone does when the other has any width, and leaves 0 out when the intervals do not meet.
   */
  lemma {:induction false} NewcombeLiesWithin(a: Interval, b: Interval, u: real, v: real)
    requires Proper(a) && Proper(b) && IsRoot(u, Below(a, b)) && IsRoot(v, Above(a, b))
    ensures var d := Newcombe(Some(a), Some(b), u, v).value;
            && d == Difference(b.rate - a.rate, b.rate - a.rate - u, b.rate - a.rate + v)
            && Combines(d, a, b)
            && b.low - a.high <= d.low <= d.difference <= d.high <= b.high - a.low
            && d.low <= b.low - a.rate && d.low <= b.rate - a.high && d.high >= b.high - a.rate && d.high >= b.rate - a.low
            && (b.low < b.rate && a.rate < a.high ==> d.low < b.low - a.rate && d.low < b.rate - a.high)
            && (b.rate < b.high && a.low < a.rate ==> d.high > b.high - a.rate && d.high > b.rate - a.low)
            && (a.high < b.low ==> d.low > 0.0) && (b.high < a.low ==> d.high < 0.0)
  {
    Hypotenuse(u, b.rate - b.low, a.high - a.rate);
    Hypotenuse(v, b.high - b.rate, a.rate - a.low);
    hide Square;
  }

  /** From the counts: how far the interval of the difference goes, and that it goes strictly further than either rate's own. */
  lemma {:induction false} NewcombeOfCounts(passed: int, runs: int, passed': int, runs': int, s: real, s': real, u: real, v: real)
    requires Runs(passed, runs) && Runs(passed', runs') && RootOf(passed, runs, s) && RootOf(passed', runs', s')
    requires var a, b := Wilson(passed, runs, s).value, Wilson(passed', runs', s').value;
             IsRoot(u, Below(a, b)) && IsRoot(v, Above(a, b))
    ensures var a, b := Wilson(passed, runs, s).value, Wilson(passed', runs', s').value;
            var d := Newcombe(Wilson(passed, runs, s), Wilson(passed', runs', s'), u, v).value;
            && Combines(d, a, b) && -1.0 <= d.low <= d.high <= 1.0
            && (passed' > 0 && passed < runs ==> d.low < b.low - a.rate && d.low < b.rate - a.high)
            && (passed' < runs' && passed > 0 ==> d.high > b.high - a.rate && d.high > b.rate - a.low)
  {
    WilsonIsTheScoreInterval(passed, runs, s, 0.0);
    WilsonIsTheScoreInterval(passed', runs', s', 0.0);
    var a, b := Wilson(passed, runs, s).value, Wilson(passed', runs', s').value;
    hide Square, Wilson, RootOf, Score, Combines;
    NewcombeLiesWithin(a, b, u, v);
  }

  /** The sides change places when the counts do. */
  lemma {:induction false} NewcombeTurns(a: Interval, b: Interval, u: real, v: real, u': real, v': real)
    requires Proper(a) && Proper(b) && IsRoot(u, Below(a, b)) && IsRoot(v, Above(a, b))
    requires IsRoot(u', Below(b, a)) && IsRoot(v', Above(b, a))
    ensures var d, d' := Newcombe(Some(a), Some(b), u, v).value, Newcombe(Some(b), Some(a), u', v').value;
            d' == Difference(-d.difference, -d.high, -d.low)
  {
    NewcombeLiesWithin(a, b, u, v);
    NewcombeLiesWithin(b, a, u', v');
    RootsAreUnique(v, u', Above(a, b));
    RootsAreUnique(u, v', Below(a, b));
    hide Square, Newcombe;
  }

  /** From the counts: two rates whose Wilson intervals do not meet differ, as far as the interval of the difference can tell. */
  lemma {:induction false} ApartRatesDiffer(passed: int, runs: int, passed': int, runs': int, s: real, s': real, u: real, v: real)
    requires Runs(passed, runs) && Runs(passed', runs') && RootOf(passed, runs, s) && RootOf(passed', runs', s')
    requires var a, b := Wilson(passed, runs, s).value, Wilson(passed', runs', s').value;
             IsRoot(u, Below(a, b)) && IsRoot(v, Above(a, b)) && a.high < b.low
    ensures Newcombe(Wilson(passed, runs, s), Wilson(passed', runs', s'), u, v).value.low > 0.0
  {
    WilsonIsTheScoreInterval(passed, runs, s, 0.0);
    WilsonIsTheScoreInterval(passed', runs', s', 0.0);
    var a, b := Wilson(passed, runs, s).value, Wilson(passed', runs', s').value;
    hide Square, Wilson, RootOf, Score;
    NewcombeLiesWithin(a, b, u, v);
  }

  // Quantiles.

  predicate AtMost(a: real, b: real) {
    a <= b
  }

  function Between(s: seq<real>, position: real): real
    requires 0.0 <= position <= (|s| - 1) as real
  {
    var below := position.Floor;
    var above := if below + 1 < |s| - 1 then below + 1 else |s| - 1;
    s[below] + Times(s[above] - s[below], position - below as real)
  }

  lemma PositionIn(n: nat, q: real)
    requires n >= 1 && 0.0 <= q <= 1.0
    ensures 0.0 <= Times((n - 1) as real, q) <= (n - 1) as real
  {
    NotNegative((n - 1) as real, q);
    NotNegative((n - 1) as real, 1.0 - q);
    Distributes((n - 1) as real, 1.0, q);
    Zero((n - 1) as real);
    hide Times;
  }

  /** None without a value. */
  function Quantile(values: seq<real>, q: real): (r: Option<real>)
    requires 0.0 <= q <= 1.0
  {
    if values == [] then None
    else
      SortedValues(values);
      PositionIn(|values|, q);
      Some(Between(Sort(values, AtMost), Times((|values| - 1) as real, q)))
  }

  lemma SortedValues(values: seq<real>)
    ensures var s := Sort(values, AtMost); Sorted(s, AtMost) && |s| == |values| && multiset(s) == multiset(values)
  {
    assert TotalOrder(AtMost);
    SortSorts(values, AtMost);
  }

  lemma Part(a: real, b: real, f: real)
    requires a <= b && 0.0 <= f <= 1.0
    ensures a <= a + Times(b - a, f) <= b
  {
    NotNegative(b - a, f);
    NotNegative(b - a, 1.0 - f);
    Distributes(b - a, 1.0, f);
    Zero(b - a);
    hide Times;
  }

  lemma PartGrows(a: real, b: real, f: real, g: real)
    requires a <= b && f <= g
    ensures a + Times(b - a, f) <= a + Times(b - a, g)
  {
    NotNegative(b - a, g - f);
    Distributes(b - a, g, f);
    hide Times;
  }

  /** What is read between two values lies between them, and grows with the position. */
  lemma {:induction false} BetweenGrows(s: seq<real>, position: real, later: real)
    requires Sorted(s, AtMost) && 0.0 <= position <= later <= (|s| - 1) as real
    ensures s[0] <= Between(s, position) <= Between(s, later) <= s[|s| - 1]
    ensures position == position.Floor as real ==> Between(s, position) == s[position.Floor]
  {
    BetweenIn(s, position);
    BetweenIn(s, later);
    var b, c := position.Floor, later.Floor;
    var above := if b + 1 < |s| - 1 then b + 1 else |s| - 1;
    Zero(s[above] - s[b]);
    hide Times;
    if b == c {
      assert AtMost(s[b], s[above]);
      PartGrows(s[b], s[above], position - b as real, later - b as real);
    } else {
      assert AtMost(s[above], s[c]);
    }
  }

  lemma BetweenIn(s: seq<real>, position: real)
    requires Sorted(s, AtMost) && 0.0 <= position <= (|s| - 1) as real
    ensures var b := position.Floor;
            var above := if b + 1 < |s| - 1 then b + 1 else |s| - 1;
            s[0] <= s[b] <= Between(s, position) <= s[above] <= s[|s| - 1]
  {
    var b := position.Floor;
    var above := if b + 1 < |s| - 1 then b + 1 else |s| - 1;
    assert (b == 0 || AtMost(s[0], s[b])) && (b == above || AtMost(s[b], s[above])) && (above == |s| - 1 || AtMost(s[above], s[|s| - 1]));
    Part(s[b], s[above], position - b as real);
    hide Times;
  }

  /** A quantile lies between the least and the greatest value, and grows with `q`. */
  lemma {:induction false} QuantileGrows(values: seq<real>, q: real, r: real)
    requires values != [] && 0.0 <= q <= r <= 1.0
    ensures Quantile(values, q).Some? && Quantile(values, r).Some?
    ensures var s := Sort(values, AtMost); s != [] && s[0] <= Quantile(values, q).value <= Quantile(values, r).value <= s[|s| - 1]
  {
    SortedValues(values);
    PositionIn(|values|, q);
    PositionIn(|values|, r);
    NotNegative((|values| - 1) as real, r - q);
    Distributes((|values| - 1) as real, r, q);
    hide Times, Sort, Between;
    BetweenGrows(Sort(values, AtMost), Times((|values| - 1) as real, q), Times((|values| - 1) as real, r));
  }

  /**
   The quantile by the place of `q` among the values in order: `f` of the way from the `k`-th to the next, when `q` is that
   far of the way from the first to the last.
   */
  lemma {:induction false} QuantileInterpolates(values: seq<real>, s: seq<real>, q: real, k: nat, f: real)
    requires Sorted(s, AtMost) && multiset(s) == multiset(values) && 0.0 <= q <= 1.0
    requires k < |s| && 0.0 <= f < 1.0 && (k == |s| - 1 ==> f == 0.0) && Times((|s| - 1) as real, q) == k as real + f
    ensures var next := s[if k < |s| - 1 then k + 1 else k];
            Quantile(values, q) == Some(Times(1.0 - f, s[k]) + Times(f, next))
  {
    SortedValues(values);
    assert |s| == |multiset(s)| == |multiset(values)| == |values|;
    assert values != [];
    hide Sort, Times, Between;
    SortedIsUnique(s, Sort(values, AtMost));
    PositionIn(|values|, q);
    BetweenAt(s, k, f);
  }

  lemma BetweenAt(s: seq<real>, k: nat, f: real)
    requires k < |s| && 0.0 <= f < 1.0 && (k == |s| - 1 ==> f == 0.0)
    ensures Between(s, k as real + f) == Times(1.0 - f, s[k]) + Times(f, s[if k < |s| - 1 then k + 1 else k])
  {
    FloorIs(k, f);
    Weighted(s[k], s[if k < |s| - 1 then k + 1 else k], f);
    hide Times;
  }

  lemma FloorIs(k: nat, f: real)
    requires 0.0 <= f < 1.0
    ensures (k as real + f).Floor == k
  {
  }

  lemma Weighted(a: real, b: real, f: real)
    ensures Times(1.0 - f, a) + Times(f, b) == a + Times(b - a, f)
    ensures f == 0.0 ==> Times(b - a, f) == 0.0
  {
  }

  lemma FirstIsLeast(s: seq<real>, x: real)
    requires Sorted(s, AtMost) && x in s
    ensures s[0] <= x
  {
    var i :| 0 <= i < |s| && s[i] == x;
    assert i == 0 || AtMost(s[0], s[i]);
  }

  lemma TailsMatch(a: seq<real>, b: seq<real>)
    requires a != [] && b != [] && multiset(a) == multiset(b) && a[0] == b[0]
    ensures multiset(a[1..]) == multiset(b[1..])
  {
    assert a == [a[0]] + a[1..] && b == [b[0]] + b[1..];
    assert multiset(a[1..]) == multiset(a) - multiset{a[0]};
    assert multiset(b[1..]) == multiset(b) - multiset{b[0]};
  }

  lemma {:induction false} SortedIsUnique(a: seq<real>, b: seq<real>)
    requires Sorted(a, AtMost) && Sorted(b, AtMost) && multiset(a) == multiset(b)
    ensures a == b
  {
    assert |a| == |multiset(a)| == |multiset(b)| == |b|;
    if a != [] {
      assert a[0] in multiset(b) && b[0] in multiset(a);
      FirstIsLeast(a, b[0]);
      FirstIsLeast(b, a[0]);
      TailsMatch(a, b);
      SortedIsUnique(a[1..], b[1..]);
      assert a == [a[0]] + a[1..] && b == [b[0]] + b[1..];
    }
  }

  /** The order the values come in makes no difference. */
  lemma {:induction false} QuantileOfAnyOrder(values: seq<real>, other: seq<real>, q: real)
    requires multiset(values) == multiset(other) && 0.0 <= q <= 1.0
    ensures Quantile(values, q) == Quantile(other, q)
  {
    SortedValues(values);
    SortedValues(other);
    hide Sort;
    SortedIsUnique(Sort(values, AtMost), Sort(other, AtMost));
    assert |values| == |multiset(values)| == |multiset(other)| == |other|;
  }
}
