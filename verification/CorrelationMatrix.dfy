/**
  The correlation matrix of a book, as built and as read, and the diversification measures on it.
  Symbols are upper-cased tickers, here numbered in their sorted order.
 */
module CorrelationMatrix {
  import opened Basics
  import opened Wrappers
  import opened Correlation

  type Values = map<(int, int), real>

  /** Every stored correlation lies in [-1, 1]. */
  predicate InRange(values: Values) {
    forall k | k in values :: -1.0 <= values[k] <= 1.0
  }

  /** Pairs are stored once, under the smaller symbol first. */
  ghost predicate Triangular(values: Values) {
    forall k: (int, int) | k in values :: k.0 < k.1
  }

  /** A stored value, unless it is missing or zero: zero is falsy where the source writes `or`. */
  function Truthy(values: Values, k: (int, int)): Option<real> {
    if k in values && values[k] != 0.0 then Some(values[k]) else None
  }

  function Get(values: Values, a: int, b: int): (r: Option<real>)
    ensures a == b ==> r == Some(1.0)
    ensures r.Some? && InRange(values) ==> -1.0 <= r.value <= 1.0
  {
    if a == b then Some(1.0)
    else if Truthy(values, (a, b)).Some? then Truthy(values, (a, b))
    else if (b, a) in values then Some(values[(b, a)])
    else None
  }

  /** Lookup is symmetric exactly where no stored correlation is zero. */
  lemma GetIsSymmetric(values: Values, a: int, b: int)
    requires Triangular(values)
    ensures Get(values, a, b) == Get(values, b, a) <==>
            !(((a, b) in values && values[(a, b)] == 0.0) || ((b, a) in values && values[(b, a)] == 0.0))
  {
    if a < b {
      assert (b, a) in values ==> b < a;
    } else if b < a {
      assert (a, b) in values ==> a < b;
    } else {
      assert (a, a) in values ==> a < a;
    }
  }

  /** In the sorted order a zero correlation reads as no correlation at all. */
  lemma ZeroReadsAsMissing(values: Values, a: int, b: int)
    requires Triangular(values) && (a, b) in values && values[(a, b)] == 0.0
    ensures Get(values, a, b) == None && Get(values, b, a) == Some(0.0)
  {
    assert a < b;
    assert (b, a) in values ==> b < a;
  }

  ghost predicate Increasing(symbols: seq<int>) {
    forall i, j | 0 <= i < j < |symbols| :: symbols[i] < symbols[j]
  }

  type Returns = int -> seq<real>

  /** What the matrix holds once exactly the pairs in `done` have been correlated. */
  ghost predicate Holds(values: Values, done: set<(int, int)>, series: Returns, sqrt: real -> real)
    requires IsSqrt(sqrt)
  {
    && values.Keys <= done
    && forall k: (int, int) | k in done ::
        (if k in values then Some(values[k]) else None) == Pearson(series(k.0), series(k.1), sqrt)
  }

  lemma HoldsInRange(values: Values, done: set<(int, int)>, series: Returns, sqrt: real -> real)
    requires IsSqrt(sqrt) && Holds(values, done, series, sqrt)
    ensures InRange(values)
  {
  }

  lemma HoldsStep(values: Values, done: set<(int, int)>, series: Returns, sqrt: real -> real, k: (int, int))
    requires IsSqrt(sqrt) && Holds(values, done, series, sqrt) && k !in done
    ensures var r := Pearson(series(k.0), series(k.1), sqrt);
            Holds(if r.Some? then values[k := r.value] else values, done + {k}, series, sqrt)
  {
    hide Pearson, IsSqrt;
  }

  /** The pair (p, q) comes before (i, j) in the double loop. */
  predicate Passed(p: int, q: int, i: int, j: int) {
    p < i || (p == i && q < j)
  }

  /** Exactly the pairs before (i, j) were correlated. */
  ghost predicate Covers(symbols: seq<int>, done: set<(int, int)>, i: int, j: int) {
    && (forall p, q | 0 <= p < q < |symbols| && Passed(p, q, i, j) :: (symbols[p], symbols[q]) in done)
    && (forall k | k in done ::
          exists p, q :: 0 <= p < q < |symbols| && Passed(p, q, i, j) && k == (symbols[p], symbols[q]))
  }

  lemma CoversStart(symbols: seq<int>)
    ensures Covers(symbols, {}, 0, 1)
  {
  }

  lemma CoversStep(symbols: seq<int>, done: set<(int, int)>, i: nat, j: nat)
    requires Increasing(symbols) && i < j < |symbols| && Covers(symbols, done, i, j)
    ensures (symbols[i], symbols[j]) !in done
    ensures Covers(symbols, done + {(symbols[i], symbols[j])}, i, j + 1)
  {
    var k := (symbols[i], symbols[j]);
    forall e | e in done + {k}
      ensures exists p, q :: 0 <= p < q < |symbols| && Passed(p, q, i, j + 1) && e == (symbols[p], symbols[q])
    {
      if e != k {
        var p, q :| 0 <= p < q < |symbols| && Passed(p, q, i, j) && e == (symbols[p], symbols[q]);
        assert Passed(p, q, i, j + 1);
      } else {
        assert Passed(i, j, i, j + 1);
      }
    }
    forall p, q | 0 <= p < q < |symbols| && Passed(p, q, i, j + 1)
      ensures (symbols[p], symbols[q]) in done + {k}
    {
      assert Passed(p, q, i, j) || (p == i && q == j);
    }
  }

  lemma CoversRow(symbols: seq<int>, done: set<(int, int)>, i: nat, j: nat)
    requires Covers(symbols, done, i, j) && j >= |symbols|
    ensures Covers(symbols, done, i + 1, i + 2)
  {
    forall p, q | 0 <= p < q < |symbols| && Passed(p, q, i + 1, i + 2) ensures (symbols[p], symbols[q]) in done {
      assert Passed(p, q, i, j);
    }
    forall k | k in done
      ensures exists p, q :: 0 <= p < q < |symbols| && Passed(p, q, i + 1, i + 2) && k == (symbols[p], symbols[q])
    {
      var p, q :| 0 <= p < q < |symbols| && Passed(p, q, i, j) && k == (symbols[p], symbols[q]);
      assert Passed(p, q, i + 1, i + 2);
    }
  }

  lemma CoversEnd(symbols: seq<int>, done: set<(int, int)>, i: nat)
    requires Increasing(symbols) && Covers(symbols, done, i, i + 1) && i >= |symbols|
    ensures forall p, q | 0 <= p < q < |symbols| :: (symbols[p], symbols[q]) in done
    ensures forall k: (int, int) | k in done :: k.0 in symbols && k.1 in symbols && k.0 < k.1
    ensures forall k: (int, int) | k in done :: exists p, q :: 0 <= p < q < |symbols| && k == (symbols[p], symbols[q])
  {
    forall p, q | 0 <= p < q < |symbols| ensures (symbols[p], symbols[q]) in done {
      assert Passed(p, q, i, i + 1);
    }
    forall k: (int, int) | k in done
      ensures k.0 in symbols && k.1 in symbols && k.0 < k.1
      ensures exists p, q :: 0 <= p < q < |symbols| && k == (symbols[p], symbols[q])
    {
      var p, q :| 0 <= p < q < |symbols| && Passed(p, q, i, i + 1) && k == (symbols[p], symbols[q]);
    }
  }

  /** Correlates every pair once; what comes out is in range and stored smaller symbol first. */
  method Build(symbols: seq<int>, series: Returns, sqrt: real -> real)
    returns (values: Values, ghost done: set<(int, int)>)
    requires IsSqrt(sqrt) && Increasing(symbols)
    ensures InRange(values) && Triangular(values)
    ensures forall i, j | 0 <= i < j < |symbols| :: (symbols[i], symbols[j]) in done
    ensures forall k: (int, int) | k in done :: k.0 in symbols && k.1 in symbols
    ensures forall k: (int, int) :: (if k in values then Some(values[k]) else None) ==
                                    if k in done then Pearson(series(k.0), series(k.1), sqrt) else None
    // What each pair holds is its correlation, or nothing where there is none.
    ensures forall i, j | 0 <= i < j < |symbols| ::
      Correlates(series(symbols[i]), series(symbols[j]), Entry(values, symbols[i], symbols[j]))
    ensures forall k: (int, int) | k in values :: exists i, j :: 0 <= i < j < |symbols| && k == (symbols[i], symbols[j])
  {
    hide Pearson, IsSqrt, Holds, InRange, Covers, Increasing, Correlates;
    values, done := map[], {};
    EmptyHolds(series, sqrt);
    CoversStart(symbols);
    for i := 0 to |symbols|
      invariant Holds(values, done, series, sqrt) && Covers(symbols, done, i, i + 1)
    {
      for j := i + 1 to |symbols|
        invariant Holds(values, done, series, sqrt) && Covers(symbols, done, i, j)
      {
        var k := (symbols[i], symbols[j]);
        CoversStep(symbols, done, i, j);
        HoldsStep(values, done, series, sqrt, k);
        var r := Pearson(series(k.0), series(k.1), sqrt);
        if r.Some? {
          values := values[k := r.value];
        }
        done := done + {k};
      }
      CoversRow(symbols, done, i, |symbols|);
    }
    CoversEnd(symbols, done, |symbols|);
    HoldsInRange(values, done, series, sqrt);
    HoldsMeans(values, done, series, sqrt);
    forall i, j | 0 <= i < j < |symbols|
      ensures Correlates(series(symbols[i]), series(symbols[j]), Entry(values, symbols[i], symbols[j]))
    {
      PearsonCorrelates(series(symbols[i]), series(symbols[j]), sqrt);
      assert (symbols[i], symbols[j]) in done;
    }
  }

  /** What is stored for a pair. */
  function Entry(values: Values, a: int, b: int): Option<real> {
    if (a, b) in values then Some(values[(a, b)]) else None
  }

  lemma EmptyHolds(series: Returns, sqrt: real -> real)
    requires IsSqrt(sqrt)
    ensures Holds(map[], {}, series, sqrt)
  {
  }

  lemma HoldsMeans(values: Values, done: set<(int, int)>, series: Returns, sqrt: real -> real)
    requires IsSqrt(sqrt) && Holds(values, done, series, sqrt)
    ensures values.Keys <= done
    ensures forall k: (int, int) ::
      (if k in values then Some(values[k]) else None) == if k in done then Pearson(series(k.0), series(k.1), sqrt)
          else None
  {
    hide Pearson, IsSqrt;
  }

  // ---- Reading the matrix ------------------------------------------------------------------------

  /** `others[i]` is the first of the symbols most correlated with `symbol`, among those before n. */
  ghost predicate FirstBest(values: Values, symbol: int, others: seq<int>, i: nat, n: nat)
    requires i < n <= |others|
  {
    var best := Get(values, symbol, others[i]);
    && best.Some?
    && (forall j | 0 <= j < i :: Get(values, symbol, others[j]).Some? ==>
        Get(values, symbol, others[j]).value < best.value)
    && (forall j | i < j < n :: Get(values, symbol, others[j]).Some? ==>
        Get(values, symbol, others[j]).value <= best.value)
  }

  /** The first of the symbols most correlated with `symbol`, where a correlation is known. */
  method MaxWith(values: Values, symbol: int, others: seq<int>) returns (best: Option<(int, real)>)
    ensures best.None? <==> forall o | o in others :: Get(values, symbol, o).None?
    ensures best.Some? ==> best.value.0 in others && Get(values, symbol, best.value.0) == Some(best.value.1)
    ensures best.Some? ==>
      exists i: nat :: i < |others| && others[i] == best.value.0 && FirstBest(values, symbol, others, i, |others|)
    ensures best.Some? ==>
      forall o | o in others && Get(values, symbol, o).Some? :: Get(values, symbol, o).value <= best.value.1
  {
    hide Get;
    best := None;
    ghost var at: nat := 0;
    for n := 0 to |others|
      invariant best.None? <==> forall j | 0 <= j < n :: Get(values, symbol, others[j]).None?
      invariant best.Some? ==>
        at < n && others[at] == best.value.0 && Get(values, symbol, others[at]) == Some(best.value.1)
      invariant best.Some? ==> FirstBest(values, symbol, others, at, n)
    {
      var v := Get(values, symbol, others[n]);
      if v.Some? && (best.None? || v.value > best.value.1) {
        best, at := Some((others[n], v.value)), n;
      }
    }
  }

  /** The known correlations of one symbol with each of the others. */
  function RowOf(values: Values, a: int, others: seq<int>): (row: seq<real>)
    ensures InRange(values) ==> forall i | 0 <= i < |row| :: -1.0 <= row[i] <= 1.0
    ensures |row| <= |others|
  {
    if |others| == 0 then []
    else
      var v := Get(values, a, others[0]);
      (if v.Some? then [v.value] else []) + RowOf(values, a, others[1..])
  }

  /** The known correlations of every pair of positions. */
  function PairsOf(values: Values, symbols: seq<int>): (pairs: seq<real>)
    ensures InRange(values) ==> forall i | 0 <= i < |pairs| :: -1.0 <= pairs[i] <= 1.0
  {
    if |symbols| == 0 then [] else RowOf(values, symbols[0], symbols[1..]) + PairsOf(values, symbols[1..])
  }

  lemma {:induction false} SumInRange(x: seq<real>)
    requires forall i | 0 <= i < |x| :: -1.0 <= x[i] <= 1.0
    ensures -(|x| as real) <= Sum(x) <= |x| as real
  {
    if |x| > 0 {
      SumInRange(x[..|x| - 1]);
    }
  }

  function Average(x: seq<real>): real
    requires |x| > 0
  {
    Sum(x) / |x| as real
  }

  lemma AverageInRange(x: seq<real>)
    requires |x| > 0 && forall i | 0 <= i < |x| :: -1.0 <= x[i] <= 1.0
    ensures -1.0 <= Average(x) <= 1.0
  {
    SumInRange(x);
    var n := |x| as real;
    var a := Sum(x) / n;
    assert a * n == Sum(x);
    if a > 1.0 {
      Scale(1.0, a, n);
    }
    if a < -1.0 {
      Scale(a, -1.0, n);
    }
  }

  function Denominator(others: real, share: real): real {
    1.0 + others * share
  }

  lemma DenominatorInRange(others: real, share: real)
    requires others > 0.0 && 0.0 <= share <= 1.0
    ensures 1.0 <= Denominator(others, share) <= 1.0 + others
    ensures Denominator(others, share) == 1.0 <==> share == 0.0
    ensures Denominator(others, share) == 1.0 + others <==> share == 1.0
  {
    if share > 0.0 {
      Scale(0.0, share, others);
    }
    if share < 1.0 {
      Scale(share, 1.0, others);
    }
  }

  lemma AtLeast(n: real, d: real)
    requires n >= 1.0 && d >= 1.0
    ensures n * d >= n && (n * d == n <==> d == 1.0)
  {
    if d > 1.0 {
      Scale(1.0, d, n);
    }
  }

  lemma QuotientInRange(n: real, d: real, q: real)
    requires 1.0 <= d <= n && q * d == n
    ensures 1.0 <= q <= n
    ensures q == 1.0 <==> d == n
    ensures q == n <==> d == 1.0
  {
    AtLeast(n, d);
    if q < 1.0 {
      Scale(q, 1.0, d);
    }
    if q > n {
      Scale(n, q, d);
    }
  }

  /** The count, from the number of positions and their average correlation. */
  function Count(n: nat, average: real): Option<real> {
    var denominator := Denominator(n as real - 1.0, Max(average, 0.0));
    if denominator <= 0.0 then None else Some(n as real / denominator)
  }

  lemma CountInRange(n: nat, average: real)
    requires n > 1 && average <= 1.0
    ensures Count(n, average).Some? && 1.0 <= Count(n, average).value <= n as real
    ensures Count(n, average) == Some(n as real) <==> average <= 0.0
    ensures Count(n, average) == Some(1.0) <==> average == 1.0
  {
    hide Denominator;
    var share := Max(average, 0.0);
    DenominatorInRange(n as real - 1.0, share);
    var d := Denominator(n as real - 1.0, share);
    assert n as real / d * d == n as real;
    QuotientInRange(n as real, d, n as real / d);
  }

  /** How many independent bets the positions amount to. */
  function EffectivePositions(values: Values, symbols: seq<int>): Option<real> {
    var pairs := PairsOf(values, symbols);
    if |symbols| <= 1 then Some(|symbols| as real)
    else if |pairs| == 0 then None
    else Count(|symbols|, Average(pairs))
  }

  /**
    The count runs from 1 to the number of positions: all of them when correlation is zero or
    negative on average, and a single bet when every known pair moves as one.
   */
  lemma EffectiveInRange(values: Values, symbols: seq<int>)
    requires InRange(values) && |symbols| >= 1
    ensures var e := EffectivePositions(values, symbols);
            var pairs := PairsOf(values, symbols);
            && (e.Some? <==> |symbols| == 1 || |pairs| > 0)
            && (e.Some? ==> 1.0 <= e.value <= |symbols| as real)
            && (|symbols| >= 2 && |pairs| > 0 ==>
                  && (e == Some(|symbols| as real) <==> Average(pairs) <= 0.0)
                  && (e == Some(1.0) <==> Average(pairs) == 1.0))
  {
    hide Average, Count, PairsOf;
    var pairs := PairsOf(values, symbols);
    if |symbols| >= 2 && |pairs| > 0 {
      AverageInRange(pairs);
      CountInRange(|symbols|, Average(pairs));
    }
  }

  // ---- The count by its indices ------------------------------------------------------------------

  /** How many correlations of the i-th position with the j-th and later ones are known, and their sum. */
  function RowTotal(values: Values, symbols: seq<int>, i: nat, j: nat): (nat, real)
    requires i < |symbols|
    decreases |symbols| - j
  {
    if j >= |symbols| then (0, 0.0)
    else
      var (count, sum) := RowTotal(values, symbols, i, j + 1);
      match Get(values, symbols[i], symbols[j])
      case None => (count, sum)
      case Some(v) => (count + 1, v + sum)
  }

  /** The same over every pair of the i-th and later positions, each pair once, the earlier one first. */
  function PairTotal(values: Values, symbols: seq<int>, i: nat): (nat, real)
    decreases |symbols| - i
  {
    if i >= |symbols| then (0, 0.0)
    else
      var row, rest := RowTotal(values, symbols, i, i + 1), PairTotal(values, symbols, i + 1);
      (row.0 + rest.0, row.1 + rest.1)
  }

  lemma {:induction false} SumOfConcat(x: seq<real>, y: seq<real>)
    ensures Sum(x + y) == Sum(x) + Sum(y)
  {
    if |y| == 0 {
      assert x + y == x;
    } else {
      var n := |y| - 1;
      assert (x + y)[..|x| + n] == x + y[..n];
      SumOfConcat(x, y[..n]);
    }
  }

  lemma SumOfOne(v: real)
    ensures Sum([v]) == v
  {
    assert [v][..0] == [];
  }

  lemma {:induction false} RowIsTotal(values: Values, symbols: seq<int>, i: nat, j: nat)
    requires i < |symbols| && j <= |symbols|
    ensures |RowOf(values, symbols[i], symbols[j..])| == RowTotal(values, symbols, i, j).0
    ensures Sum(RowOf(values, symbols[i], symbols[j..])) == RowTotal(values, symbols, i, j).1
    decreases |symbols| - j
  {
    if j < |symbols| {
      RowIsTotal(values, symbols, i, j + 1);
      hide Get, Sum;
      assert symbols[j..][1..] == symbols[j + 1..] && symbols[j..][0] == symbols[j];
      var v, rest := Get(values, symbols[i], symbols[j]), RowOf(values, symbols[i], symbols[j + 1..]);
      if v.Some? {
        SumOfOne(v.value);
        SumOfConcat([v.value], rest);
      } else {
        assert [] + rest == rest;
      }
    }
  }

  lemma {:induction false} PairsAreTotal(values: Values, symbols: seq<int>, i: nat)
    requires i <= |symbols|
    ensures var pairs := PairsOf(values, symbols[i..]); (|pairs|, Sum(pairs)) == PairTotal(values, symbols, i)
    decreases |symbols| - i
  {
    if i < |symbols| {
      RowIsTotal(values, symbols, i, i + 1);
      PairsAreTotal(values, symbols, i + 1);
      hide RowOf, RowTotal, Sum;
      assert symbols[i..][1..] == symbols[i + 1..];
      SumOfConcat(RowOf(values, symbols[i], symbols[i + 1..]), PairsOf(values, symbols[i + 1..]));
    }
  }

  /** The count e of n positions with k known pairs that sum to s, without a division. */
  predicate Balances(e: real, n: nat, k: nat, s: real) {
    e * (k as real + (n as real - 1.0) * Max(s, 0.0)) == n as real * k as real
  }

  lemma CountMeans(n: nat, x: seq<real>)
    requires n > 1 && |x| > 0
    ensures Count(n, Average(x)).Some? && Balances(Count(n, Average(x)).value, n, |x|, Sum(x))
  {
    var k, m, sum := |x| as real, n as real - 1.0, Sum(x);
    var a := sum / k;
    assert a * k == sum;
    if a < 0.0 {
      Scale(a, 0.0, k);
    } else {
      Scale(0.0, a, k);
    }
    Rearrange(n as real, k, m, Max(a, 0.0), Max(sum, 0.0));
  }

  lemma Rearrange(n: real, k: real, m: real, share: real, sum: real)
    requires share * k == sum && share >= 0.0 && m > 0.0
    ensures var d := 1.0 + m * share; d > 0.0 && n / d * (k + m * sum) == n * k
  {
    assert m * share >= 0.0;
    var d := 1.0 + m * share;
    var q := n / d;
    assert q * d == n;
    assert d * k == k + m * sum;
    assert q * (d * k) == (q * d) * k;
  }

  /** The count is what the number and the sum of the known pairs make it; without one there is none. */
  lemma EffectiveByPairs(values: Values, symbols: seq<int>)
    ensures var e, n := EffectivePositions(values, symbols), |symbols|;
            var (k, s) := PairTotal(values, symbols, 0);
            && (n <= 1 ==> e == Some(n as real))
            && (n > 1 ==> (e.Some? <==> k > 0))
            && (n > 1 && k > 0 ==> Balances(e.value, n, k, s))
  {
    hide PairsOf, PairTotal, Count, Average, Sum;
    PairsAreTotal(values, symbols, 0);
    assert symbols[0..] == symbols;
    var pairs := PairsOf(values, symbols);
    if |symbols| > 1 && |pairs| > 0 {
      CountMeans(|symbols|, pairs);
    }
  }

  datatype Breach = MaxCorrelation | InsufficientDiversification

  datatype Check = Check(worst: Option<(int, real)>, effective: Option<real>, breaches: seq<Breach>)

  function Without(symbols: seq<int>, candidate: int): (others: seq<int>)
    ensures forall s :: s in others <==> s in symbols && s != candidate
  {
    if |symbols| == 0 then []
    else
      var rest := Without(symbols[..|symbols| - 1], candidate);
      if symbols[|symbols| - 1] == candidate then rest else rest + [symbols[|symbols| - 1]]
  }

  /** Whether adding the candidate makes the book one bet wearing several tickers. */
  method CheckConcentration(candidate: int, open: seq<int>, values: Values, maxPair: real, minEffective: real)
      returns (c: Check)
    ensures c.worst.None? <==> forall o | o in open && o != candidate :: Get(values, candidate, o).None?
    ensures MaxCorrelation in c.breaches <==>
      exists o :: o in open && o != candidate && Get(values, candidate, o).Some?
          && Get(values, candidate, o).value > maxPair
    ensures var others := Without(open, candidate);
            && c.effective == (if others == [] then None else EffectivePositions(values, others + [candidate]))
            && (InsufficientDiversification in c.breaches <==>
                  |others| >= 2 && c.effective.Some? && c.effective.value < minEffective)
    ensures InRange(values) && c.effective.Some? ==>
      1.0 <= c.effective.value <= |Without(open, candidate)| as real + 1.0
  {
    hide EffectivePositions, InRange;
    var others := [];
    for i := 0 to |open|
      invariant others == Without(open[..i], candidate)
    {
      assert open[..i + 1][..i] == open[..i];
      if open[i] != candidate {
        others := others + [open[i]];
      }
    }
    assert open[..|open|] == open;
    var worst := MaxWith(values, candidate, others);
    var breaches := [];
    if worst.Some? && worst.value.1 > maxPair {
      breaches := breaches + [MaxCorrelation];
    }
    var effective := None;
    if others != [] {
      if InRange(values) {
        EffectiveInRange(values, others + [candidate]);
      }
      effective := EffectivePositions(values, others + [candidate]);
      if effective.Some? && |others| >= 2 && effective.value < minEffective {
        breaches := breaches + [InsufficientDiversification];
      }
    }
    c := Check(worst, effective, breaches);
  }
}
