/** Per-session statistics (parse_deviation.py, lines 72-76 and 85-97): the mean interval of
    each session and its sample standard deviation. Arithmetic is over `real`; the square root
    is kept symbolic, so a deviation is either the literal 0 of the script or Root(v), the
    square root of the sample variance v. */
module Statistics {
  import opened Wrappers

  function Sum(s: seq<int>): int
  {
    if s == [] then 0 else s[0] + Sum(s[1..])
  }

  function SumOfSquares(s: seq<int>): int
  {
    if s == [] then 0 else s[0] * s[0] + SumOfSquares(s[1..])
  }

  function SumReal(s: seq<real>): real
  {
    if s == [] then 0.0 else s[0] + SumReal(s[1..])
  }

  /** A sum of non-negative terms is non-negative. */
  lemma {:induction false} SumRealNonNegative(s: seq<real>)
    ensures (forall i :: 0 <= i < |s| ==> s[i] >= 0.0) ==> SumReal(s) >= 0.0
  {
    if s != [] {
      SumRealNonNegative(s[1..]);
      assert forall i :: 0 <= i < |s[1..]| ==> s[1..][i] == s[i + 1];
    }
  }

  function Square(x: real): real
  {
    x * x
  }

  /** The mean of a session (line 76): `None` exactly for an empty session, otherwise the
      number that, taken once per interval, adds up to the session's total. */
  function MeanOf(s: seq<int>): (m: Option<real>)
    ensures m.None? <==> s == []
    ensures m.Some? ==> m.value * |s| as real == Sum(s) as real
  {
    if |s| > 0 then Some(Sum(s) as real / |s| as real) else None
  }

  /** The means of a client's sessions, in session order. */
  function MeansOf(sessions: seq<seq<int>>): (means: seq<Option<real>>)
    ensures |means| == |sessions|
    ensures forall k :: 0 <= k < |sessions| ==> means[k] == MeanOf(sessions[k])
  {
    seq(|sessions|, k requires 0 <= k < |sessions| => MeanOf(sessions[k]))
  }

  /** The mean loop of one client (lines 74-76). */
  method ClientMeans(sessions: seq<seq<int>>) returns (means: seq<Option<real>>)
    ensures |means| == |sessions|
    ensures forall k :: 0 <= k < |sessions| ==> (means[k].None? <==> sessions[k] == [])
    ensures forall k :: 0 <= k < |sessions| ==> means[k] == MeanOf(sessions[k])
  {
    means := [];
    for k := 0 to |sessions|
      invariant |means| == k
      invariant forall j :: 0 <= j < k ==> means[j] == MeanOf(sessions[j])
    {
      means := means + [MeanOf(sessions[k])];
    }
  }

  /** A deviation as the script stores it: the integer 0, or the square root of a variance. */
  datatype Deviation = Zero | Root(radicand: real)

  /** An entry of a client's deviation list: first the list of squared deviations of a
      session (line 92), later overwritten by the deviation itself (lines 96-97). */
  datatype DevCell = Squares(terms: seq<real>) | Final(value: Deviation)

  /** Squared deviations of the intervals of a session from a given mean (lines 90-91). */
  function SquaredDeviations(s: seq<int>, mean: real): (r: seq<real>)
    ensures |r| == |s|
    ensures forall i :: 0 <= i < |s| ==> r[i] == Square(s[i] as real - mean)
  {
    if s == [] then [] else [Square(s[0] as real - mean)] + SquaredDeviations(s[1..], mean)
  }

  /** The list built for one session: the loop at line 90 runs only when the session has an
      interval, so an empty session never touches its (absent) mean. */
  function TermsWith(s: seq<int>, mean: Option<real>): seq<real>
    requires s != [] ==> mean.Some?
  {
    if s == [] then [] else SquaredDeviations(s, mean.value)
  }

  /** The overwrite of lines 96-97: the sum over n - 1 when n - 1 > 0, else 0. */
  function Finalize(terms: seq<real>): (r: Deviation)
    ensures r == Zero <==> |terms| <= 1
    ensures (forall i :: 0 <= i < |terms| ==> terms[i] >= 0.0) && r.Root? ==> r.radicand >= 0.0
  {
    SumRealNonNegative(terms);
    if |terms| - 1 > 0 then Root(SumReal(terms) / (|terms| - 1) as real) else Zero
  }

  /** The deviation the script computes for one session from the mean it is handed. */
  function DeviationWith(s: seq<int>, mean: Option<real>): Deviation
    requires s != [] ==> mean.Some?
  {
    Finalize(TermsWith(s, mean))
  }

  /** The deviations of a client's sessions, each from its own mean. */
  function DeviationsOf(sessions: seq<seq<int>>): (devs: seq<Deviation>)
    ensures |devs| == |sessions|
  {
    seq(|sessions|, k requires 0 <= k < |sessions| => DeviationWith(sessions[k], MeanOf(sessions[k])))
  }

  /** Reference definition: the sample standard deviation by the shortcut formula
      (sum of squares - square of the sum / n) / (n - 1), and 0 for at most one interval.
      Shortcut is declared further down. */
  function SampleDeviation(s: seq<int>): Deviation
  {
    if |s| <= 1 then Zero
    else
      var n := |s| as real;
      Root(Shortcut(SumOfSquares(s) as real, Sum(s) as real, n) / (n - 1.0))
  }

  /** The second pass over a client's deviation list (lines 94-97): every list of squared
      deviations is replaced, in place, by the deviation it yields. */
  method FinalizeInPlace(cells: array<DevCell>)
    requires forall k :: 0 <= k < cells.Length ==> cells[k].Squares?
    modifies cells
    ensures forall k :: 0 <= k < cells.Length ==> cells[k] == Final(Finalize(old(cells[k]).terms))
  {
    for k := 0 to cells.Length
      invariant forall j :: 0 <= j < k ==> cells[j] == Final(Finalize(old(cells[j]).terms))
      invariant forall j :: k <= j < cells.Length ==> cells[j] == old(cells[j])
    {
      cells[k] := Final(Finalize(cells[k].terms));
    }
  }

  /** The deviation computation of one client (lines 87-97): the first pass fills the client's
      list with the squared deviations of each session, the second overwrites each entry. */
  method ClientDeviations(sessions: seq<seq<int>>, means: seq<Option<real>>) returns (devs: seq<Deviation>)
    requires |means| == |sessions|
    requires forall k :: 0 <= k < |sessions| && sessions[k] != [] ==> means[k].Some?
    ensures |devs| == |sessions|
    ensures forall k :: 0 <= k < |sessions| ==> devs[k] == DeviationWith(sessions[k], means[k])
  {
    var cells := new DevCell[|sessions|](_ => Squares([]));
    for k := 0 to |sessions|
      invariant forall j :: 0 <= j < k ==> cells[j] == Squares(TermsWith(sessions[j], means[j]))
      invariant forall j :: k <= j < cells.Length ==> cells[j].Squares?
    {
      var session := sessions[k];
      var sessionDeviation: seq<real> := [];
      for t := 0 to |session|
        invariant |sessionDeviation| == t
        invariant forall i :: 0 <= i < t ==> sessionDeviation[i] == Square(session[i] as real - means[k].value)
      {
        sessionDeviation := sessionDeviation + [Square(session[t] as real - means[k].value)];
      }
      assert sessionDeviation == TermsWith(session, means[k]);
      cells[k] := Squares(sessionDeviation);
    }
    FinalizeInPlace(cells);
    devs := [];
    for k := 0 to cells.Length
      invariant |devs| == k
      invariant forall j :: 0 <= j < k ==> devs[j] == DeviationWith(sessions[j], means[j])
    {
      devs := devs + [cells[k].value];
    }
  }

  /** sum(x^2) - 2 m sum(x) + n m^2, from the sum of squares, the sum, the count and m. */
  function Expanded(sumSq: real, total: real, n: real, m: real): real
  {
    sumSq - 2.0 * m * total + n * m * m
  }

  /** One step of the expansion below, on plain numbers. */
  lemma ExpandStep(x: real, m: real, sumSq: real, total: real, n: real, sumSq': real, total': real, n': real)
    requires sumSq' == x * x + sumSq && total' == x + total && n' == n + 1.0
    ensures Square(x - m) + Expanded(sumSq, total, n, m) == Expanded(sumSq', total', n', m)
  {
  }

  /** The first interval's square and its contribution to the sum of squares. */
  lemma SquaresStep(s: seq<int>, m: real)
    requires s != []
    ensures SumReal(SquaredDeviations(s, m)) == Square(s[0] as real - m) + SumReal(SquaredDeviations(s[1..], m))
  {
    assert SquaredDeviations(s, m) == [Square(s[0] as real - m)] + SquaredDeviations(s[1..], m);
  }

  lemma SumOfSquaresStep(s: seq<int>)
    requires s != []
    ensures SumOfSquares(s) as real == (s[0] as real) * (s[0] as real) + SumOfSquares(s[1..]) as real
  {
  }

  /** Expanding the squares: the sum of (x - m)^2 is sum(x^2) - 2 m sum(x) + n m^2. */
  lemma {:induction false} SquaresExpand(s: seq<int>, m: real)
    ensures SumReal(SquaredDeviations(s, m)) == Expanded(SumOfSquares(s) as real, Sum(s) as real, |s| as real, m)
  {
    if s != [] {
      var rest := s[1..];
      var x := s[0] as real;
      var sumSq, total, n := SumOfSquares(rest) as real, Sum(rest) as real, |rest| as real;
      SquaresExpand(rest, m);
      SquaresStep(s, m);
      SumOfSquaresStep(s);
      assert Sum(s) as real == x + total;
      ExpandStep(x, m, sumSq, total, n, SumOfSquares(s) as real, Sum(s) as real, |s| as real);
    }
  }

  /** sum(x^2) - sum(x)^2 / n: the numerator of the shortcut formula for the variance. */
  function Shortcut(sumSq: real, total: real, n: real): real
    requires n != 0.0
  {
    sumSq - total * total / n
  }

  /** With m = total / n the expansion is the shortcut numerator. */
  lemma ShortcutAlgebra(sumSq: real, total: real, n: real)
    requires n > 0.0
    ensures Expanded(sumSq, total, n, total / n) == Shortcut(sumSq, total, n)
  {
    var m := total / n;
    assert total == n * m;
    assert 2.0 * m * total == 2.0 * n * m * m;
    assert total * total / n == n * m * m;
  }

  /** The sum of squared deviations from the session's own mean, in shortcut form. */
  lemma CentredSquares(s: seq<int>)
    requires s != []
    ensures SumReal(SquaredDeviations(s, Sum(s) as real / |s| as real))
         == Shortcut(SumOfSquares(s) as real, Sum(s) as real, |s| as real)
  {
    var m := Sum(s) as real / |s| as real;
    SquaresExpand(s, m);
    ShortcutAlgebra(SumOfSquares(s) as real, Sum(s) as real, |s| as real);
  }

  /** The two-pass computation of the script, fed the session's own mean, gives the sample
      standard deviation of the reference formula. */
  lemma DeviationMatchesSampleDeviation(s: seq<int>)
    ensures DeviationWith(s, MeanOf(s)) == SampleDeviation(s)
  {
    if |s| > 1 {
      var n := |s| as real;
      var centred := SumReal(SquaredDeviations(s, Sum(s) as real / n));
      CentredSquares(s);
      assert DeviationWith(s, MeanOf(s)) == Root(centred / (n - 1.0));
    }
  }

  lemma {:induction false} SquaresNonNegative(s: seq<int>, m: real)
    ensures SumReal(SquaredDeviations(s, m)) >= 0.0
  {
    if s != [] {
      SquaresNonNegative(s[1..], m);
      assert SquaredDeviations(s, m) == [Square(s[0] as real - m)] + SquaredDeviations(s[1..], m);
    }
  }

  /** The variance under every square root is non-negative, so the square root is defined. */
  lemma VarianceNonNegative(s: seq<int>)
    ensures DeviationWith(s, MeanOf(s)).Root? ==> DeviationWith(s, MeanOf(s)).radicand >= 0.0
    ensures SampleDeviation(s).Root? ==> SampleDeviation(s).radicand >= 0.0
  {
    if |s| > 1 {
      SquaresNonNegative(s, MeanOf(s).value);
      DeviationMatchesSampleDeviation(s);
    }
  }

  /** The deviation is 0 exactly for sessions with at most one interval; only those skip
      the division by n - 1. */
  lemma ZeroIffAtMostOneInterval(s: seq<int>, mean: Option<real>)
    requires s != [] ==> mean.Some?
    ensures DeviationWith(s, mean) == Zero <==> |s| <= 1
  {
  }

  /** A session with sum n * c of n intervals all equal to c. */
  lemma {:induction false} ConstantSum(s: seq<int>, c: int)
    requires forall i :: 0 <= i < |s| ==> s[i] == c
    ensures Sum(s) == |s| * c
  {
    if s != [] {
      ConstantSum(s[1..], c);
    }
  }

  lemma {:induction false} ConstantSquares(s: seq<int>, c: int)
    requires forall i :: 0 <= i < |s| ==> s[i] == c
    ensures SumReal(SquaredDeviations(s, c as real)) == 0.0
  {
    if s != [] {
      ConstantSquares(s[1..], c);
      assert SquaredDeviations(s, c as real) == [Square(s[0] as real - c as real)] + SquaredDeviations(s[1..], c as real);
    }
  }

  /** When every interval of a session is the same, its mean is that interval and its
      deviation is zero (the 0 of the script or the square root of 0). */
  lemma ConstantSessionHasNoDeviation(s: seq<int>, c: int)
    requires s != []
    requires forall i :: 0 <= i < |s| ==> s[i] == c
    ensures MeanOf(s) == Some(c as real)
    ensures DeviationWith(s, MeanOf(s)) in {Zero, Root(0.0)}
  {
    ConstantSum(s, c);
    var n := |s| as real;
    assert Sum(s) as real == n * c as real;
    assert Sum(s) as real / n == c as real;
    ConstantSquares(s, c);
  }

  /** Intervals [6, 4, 5]: mean 5, squared deviations 1, 1, 0, variance 2 / 2 = 1. */
  lemma ThreeIntervalExample()
    ensures MeanOf([6, 4, 5]) == Some(5.0)
    ensures DeviationWith([6, 4, 5], MeanOf([6, 4, 5])) == Root(1.0)
  {
    var s := [6, 4, 5];
    assert Sum(s) == 15 by {
      assert s[1..][1..][1..] == [];
    }
    assert SquaredDeviations(s, 5.0) == [1.0, 1.0, 0.0];
    var terms := [1.0, 1.0, 0.0];
    assert SumReal(terms) == 2.0 by {
      assert terms[1..][1..][1..] == [];
    }
  }

  /** One interval: the mean is that interval and the deviation falls back to 0; no interval:
      the mean is `None` and the deviation is 0. */
  lemma ShortSessionExamples()
    ensures MeanOf([6]) == Some(6.0) && DeviationWith([6], MeanOf([6])) == Zero
    ensures MeanOf([]) == None && DeviationWith([], MeanOf([])) == Zero
  {
    assert [6][1..] == [];
  }
}
