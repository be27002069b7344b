/** The margin analyser of the plotting helpers: per-point signed margins of
    a measurement series against a lower and an upper spec limit, their
    minimum, the worst-case point, and the PASS/FAIL verdict. */
module PlotHelpers {
  import opened NdArray

  /** A spec limit as the caller passes it: a Python list, converted with
      np.array, or a single number, filled out with np.full_like. */
  datatype Limit = Scalar(level: real) | List(levels: seq<real>)

  datatype Status = Pass | Fail

  /** What calc_margins returns: the margin array and its minimum. */
  datatype Margins = Margins(overall: seq<real>, minMargin: real)

  /** What find_worst_case_point returns. */
  datatype WorstCase = WorstCase(x: real, margin: real)

  /** What calc_status_and_margins returns. */
  datatype Analysis = Analysis(status: Status, overall: seq<real>, minMargin: real)

  /** The array a limit becomes next to the series y. */
  function LimitArray(lim: Limit, y: seq<real>): (r: seq<real>)
    ensures lim.List? ==> r == lim.levels
    ensures lim.Scalar? ==> |r| == |y| && forall i :: 0 <= i < |r| ==> r[i] == lim.level
  {
    match lim
    case List(levels) => levels
    case Scalar(level) => Full(|y|, level)
  }

  /** A limit has one value per point of a series of length n (a scalar always has). */
  predicate Aligned(lim: Limit, n: nat) {
    lim.List? ==> |lim.levels| == n
  }

  /** The value of an aligned limit at point i. */
  function LimitAt(lim: Limit, i: nat): real
    requires lim.List? ==> i < |lim.levels|
  {
    match lim
    case Scalar(level) => level
    case List(levels) => levels[i]
  }

  /** The margin of one measurement y against the limits lo and hi: the
      smaller of its distance above lo and its distance below hi. It is
      non-negative exactly when y lies within [lo, hi], bounds included. */
  function PointMargin(y: real, lo: real, hi: real): (m: real)
    ensures m <= y - lo && m <= hi - y
    ensures m == y - lo || m == hi - y
    ensures m >= 0.0 <==> lo <= y <= hi
  {
    Apply(Minimum, Apply(Subtract, y, lo), Apply(Subtract, hi, y))
  }

  /** The lengths of the series and of the two limit arrays let calc_margins
      through: y - lo, hi - y and np.minimum of the two broadcast, and the
      margin array np.min reduces is not empty. */
  predicate SucceedsOnLengths(n: nat, loLen: nat, hiLen: nat) {
    && Broadcastable(n, loLen)
    && Broadcastable(hiLen, n)
    && Broadcastable(BroadcastLength(n, loLen), BroadcastLength(hiLen, n))
    && BroadcastLength(BroadcastLength(n, loLen), BroadcastLength(hiLen, n)) > 0
  }

  /** calc_margins: margin_to_min = y - lo, margin_to_max = hi - y,
      overall = np.minimum of the two, and its np.min. */
  function CalcMargins(y: seq<real>, lo: Limit, hi: Limit): (r: Result<Margins>)
    // a list limit whose length neither matches y nor is 1 breaks the first subtraction
    ensures lo.List? && !Broadcastable(|y|, |lo.levels|) ==> r == Err(ShapeMismatch(|y|, |lo.levels|))
    // ... and, the first one having gone through, the second
    ensures (Broadcastable(|y|, |LimitArray(lo, y)|) && hi.List? && !Broadcastable(|hi.levels|, |y|))
              ==> r == Err(ShapeMismatch(|hi.levels|, |y|))
    // ... and, both having gone through, np.minimum of the two differences
    ensures var l1, l2 := |y|, |LimitArray(hi, y)|;
            var loLen := |LimitArray(lo, y)|;
            (Broadcastable(l1, loLen) && Broadcastable(l2, l1)
              && !Broadcastable(BroadcastLength(l1, loLen), BroadcastLength(l2, l1)))
              ==> r == Err(ShapeMismatch(BroadcastLength(l1, loLen), BroadcastLength(l2, l1)))
    // ... and, all three having gone through, np.min of an empty margin array
    ensures var l1, l2 := |y|, |LimitArray(hi, y)|;
            var loLen := |LimitArray(lo, y)|;
            (Broadcastable(l1, loLen) && Broadcastable(l2, l1)
              && Broadcastable(BroadcastLength(l1, loLen), BroadcastLength(l2, l1))
              && BroadcastLength(BroadcastLength(l1, loLen), BroadcastLength(l2, l1)) == 0)
              ==> r == Err(EmptyReduction)
    // it succeeds exactly when all three operations broadcast and the margin array is not empty
    ensures r.Ok? <==> SucceedsOnLengths(|y|, |LimitArray(lo, y)|, |LimitArray(hi, y)|)
    // aligned limits: the only failure is the empty series
    ensures Aligned(lo, |y|) && Aligned(hi, |y|) ==> (r.Ok? <==> |y| > 0)
    ensures |y| == 0 && Aligned(lo, 0) && Aligned(hi, 0) ==> r == Err(EmptyReduction)
    ensures r.Ok? ==> |r.value.overall| > 0
    ensures r.Ok? && Aligned(lo, |y|) && Aligned(hi, |y|) ==> |r.value.overall| == |y|
    // every margin is the point margin of the (broadcast) operands at that index
    ensures r.Ok? ==>
              var loArr, hiArr := LimitArray(lo, y), LimitArray(hi, y);
              forall i :: 0 <= i < |r.value.overall| ==>
                && Covers(y, i) && Covers(loArr, i) && Covers(hiArr, i)
                && r.value.overall[i] == PointMargin(Stretch(y, i), Stretch(loArr, i), Stretch(hiArr, i))
    // the minimum is one of the margins and no margin is smaller
    ensures r.Ok? ==> r.value.minMargin in r.value.overall
    ensures r.Ok? ==> forall i :: 0 <= i < |r.value.overall| ==> r.value.minMargin <= r.value.overall[i]
  {
    var loArr, hiArr := LimitArray(lo, y), LimitArray(hi, y);
    var toMin :- Ufunc(Subtract, y, loArr);
    var toMax :- Ufunc(Subtract, hiArr, y);
    var overall :- Ufunc(Minimum, toMin, toMax);
    var m :- Min(overall);
    Ok(Margins(overall, m))
  }

  /** With limits that are scalars or lists as long as the series, the
      margin array has one entry per point, min(y[i] - lo[i], hi[i] - y[i]). */
  lemma CalcMarginsAligned(y: seq<real>, lo: Limit, hi: Limit)
    requires |y| > 0 && Aligned(lo, |y|) && Aligned(hi, |y|)
    ensures CalcMargins(y, lo, hi).Ok?
    ensures |CalcMargins(y, lo, hi).value.overall| == |y|
    ensures forall i :: 0 <= i < |y| ==>
              CalcMargins(y, lo, hi).value.overall[i] == PointMargin(y[i], LimitAt(lo, i), LimitAt(hi, i))
  {
  }

  /** A one-point series is stretched along the list limits if they have a
      common, non-zero length n: there is one margin per limit entry, that of
      the single measurement against the limits at that entry. */
  lemma SingletonSeriesStretches(y: seq<real>, lo: Limit, hi: Limit, n: nat)
    requires |y| == 1 && n > 0
    requires lo.List? || hi.List?
    requires Aligned(lo, n) && Aligned(hi, n)
    ensures CalcMargins(y, lo, hi).Ok?
    ensures |CalcMargins(y, lo, hi).value.overall| == n
    ensures forall i :: 0 <= i < n ==>
              CalcMargins(y, lo, hi).value.overall[i] == PointMargin(y[0], LimitAt(lo, i), LimitAt(hi, i))
  {
    var loArr, hiArr := LimitArray(lo, y), LimitArray(hi, y);
    assert |Ufunc(Subtract, y, loArr).value| == |loArr|;
    assert |Ufunc(Subtract, hiArr, y).value| == |hiArr|;
    assert |loArr| == n || |hiArr| == n;
    var overall := CalcMargins(y, lo, hi).value.overall;
    assert |overall| == n;
    forall i | 0 <= i < n
      ensures overall[i] == PointMargin(y[0], LimitAt(lo, i), LimitAt(hi, i))
    {
      assert Stretch(loArr, i) == LimitAt(lo, i) && Stretch(hiArr, i) == LimitAt(hi, i);
    }
  }

  /** A scalar limit is the same as a list repeating it once per point. */
  lemma ScalarIsUniformList(y: seq<real>, lo: Limit, hi: Limit, c: real)
    ensures CalcMargins(y, Scalar(c), hi) == CalcMargins(y, List(Full(|y|, c)), hi)
    ensures CalcMargins(y, lo, Scalar(c)) == CalcMargins(y, lo, List(Full(|y|, c)))
  {
  }

  /** A one-element list limit is broadcast by NumPy: it behaves like the
      scalar it holds, whatever the length of the series. */
  lemma SingletonListIsScalar(y: seq<real>, lo: Limit, hi: Limit, c: real)
    ensures CalcMargins(y, List([c]), hi) == CalcMargins(y, Scalar(c), hi)
    ensures CalcMargins(y, lo, List([c])) == CalcMargins(y, lo, Scalar(c))
  {
    UfuncStretchesSingleton(Subtract, y, c);
  }

  /** find_worst_case_point: the x-value and the margin at np.argmin of the
      margins; an empty margin array raises, and so does an x list too short
      to have an entry at that index. */
  function FindWorstCasePoint(overall: seq<real>, xValues: seq<real>): (r: Result<WorstCase>)
    ensures |overall| == 0 ==> r == Err(EmptyReduction)
    ensures 0 < |overall| <= |xValues| ==> r.Ok?
    ensures r.Ok? ==> exists k: nat :: IsFirstMinIndex(overall, k) && k < |xValues| && r.value == WorstCase(xValues[k], overall[k])
    ensures r.Ok? ==> r.value.margin in overall && forall i :: 0 <= i < |overall| ==> r.value.margin <= overall[i]
    ensures r.Err? && |overall| > 0 ==>
              var k := ArgMinOf(overall); r.error == IndexOutOfRange(k, |xValues|) && |xValues| <= k
  {
    var k :- ArgMin(overall);
    if k < |xValues| then Ok(WorstCase(xValues[k], overall[k]))
    else Err(IndexOutOfRange(k, |xValues|))
  }

  /** calc_pass_fail: PASS when np.min of the margins is at least 0, so that
      PASS means no margin is negative and FAIL means some margin is. */
  function CalcPassFail(overall: seq<real>): (r: Result<Status>)
    ensures r.Err? <==> |overall| == 0
    ensures r.Err? ==> r.error == EmptyReduction
    ensures r.Ok? ==> (r.value == Pass <==> forall i :: 0 <= i < |overall| ==> overall[i] >= 0.0)
    ensures r.Ok? ==> (r.value == Fail <==> exists i :: 0 <= i < |overall| && overall[i] < 0.0)
  {
    var m :- Min(overall);
    Ok(if m >= 0.0 then Pass else Fail)
  }

  /** calc_status_and_margins: calc_margins followed by calc_pass_fail on the
      margins it returned. */
  function CalcStatusAndMargins(y: seq<real>, lo: Limit, hi: Limit): (r: Result<Analysis>)
    ensures r.Ok? <==> CalcMargins(y, lo, hi).Ok?
    ensures r.Err? ==> CalcMargins(y, lo, hi) == Err(r.error)
    ensures r.Ok? ==> CalcMargins(y, lo, hi) == Ok(Margins(r.value.overall, r.value.minMargin))
    ensures r.Ok? ==> (r.value.status == Pass <==> r.value.minMargin >= 0.0)
  {
    var margins :- CalcMargins(y, lo, hi);
    var status := CalcPassFail(margins.overall).value;
    Ok(Analysis(status, margins.overall, margins.minMargin))
  }

  /** The worst margin find_worst_case_point reports is the minimum margin
      calc_margins reports, found at the first point that has it. */
  lemma WorstMarginIsMinMargin(y: seq<real>, lo: Limit, hi: Limit, xValues: seq<real>)
    requires CalcMargins(y, lo, hi).Ok?
    requires |xValues| >= |CalcMargins(y, lo, hi).value.overall|
    ensures var m := CalcMargins(y, lo, hi).value;
            var k := ArgMinOf(m.overall);
            FindWorstCasePoint(m.overall, xValues) == Ok(WorstCase(xValues[k], m.minMargin))
  {
  }

  /** Over a non-empty series with aligned limits, the verdict is PASS
      exactly when every point lies within its limits, bounds included, and
      FAIL exactly when some point lies outside them, which is when the
      minimum margin is negative. */
  lemma PassIffAllInBounds(y: seq<real>, lo: Limit, hi: Limit)
    requires |y| > 0 && Aligned(lo, |y|) && Aligned(hi, |y|)
    ensures CalcStatusAndMargins(y, lo, hi).Ok?
    ensures (CalcStatusAndMargins(y, lo, hi).value.status == Pass)
              <==> forall i :: 0 <= i < |y| ==> LimitAt(lo, i) <= y[i] <= LimitAt(hi, i)
    ensures (CalcStatusAndMargins(y, lo, hi).value.status == Fail)
              <==> exists i :: 0 <= i < |y| && !(LimitAt(lo, i) <= y[i] <= LimitAt(hi, i))
    ensures (CalcStatusAndMargins(y, lo, hi).value.status == Fail)
              <==> CalcStatusAndMargins(y, lo, hi).value.minMargin < 0.0
  {
    CalcMarginsAligned(y, lo, hi);
    var a := CalcStatusAndMargins(y, lo, hi).value;
    assert CalcPassFail(a.overall) == Ok(a.status);
    forall i | 0 <= i < |y|
      ensures a.overall[i] >= 0.0 <==> LimitAt(lo, i) <= y[i] <= LimitAt(hi, i)
    {
      assert a.overall[i] == PointMargin(y[i], LimitAt(lo, i), LimitAt(hi, i));
    }
  }

  // ----- worked examples -----

  /** A sweep 10, 20, 5, 30 against limits 0 and 25 has margins 10, 5, 5, -5:
      it fails, by 5, at its last point. */
  lemma ExampleSweepFails()
    ensures CalcStatusAndMargins([10.0, 20.0, 5.0, 30.0], Scalar(0.0), Scalar(25.0))
              == Ok(Analysis(Fail, [10.0, 5.0, 5.0, -5.0], -5.0))
    ensures FindWorstCasePoint([10.0, 5.0, 5.0, -5.0], [1.0, 2.0, 3.0, 4.0]) == Ok(WorstCase(4.0, -5.0))
  {
    var y, lo, hi := [10.0, 20.0, 5.0, 30.0], Scalar(0.0), Scalar(25.0);
    var margins := [10.0, 5.0, 5.0, -5.0];
    CalcMarginsAligned(y, lo, hi);
    var m := CalcMargins(y, lo, hi).value;
    assert m.overall[0] == 10.0 && m.overall[1] == 5.0 && m.overall[2] == 5.0 && m.overall[3] == -5.0;
    assert m.overall == margins;
    assert m.minMargin == -5.0 by {
      assert m.minMargin <= margins[3];
    }
    assert CalcPassFail(margins) == Ok(Fail) by {
      assert margins[3] < 0.0;
    }
    ArgMinCharacterization(margins, 3);
  }

  /** Two points that share the least margin: the first of them is reported. */
  lemma ExampleTieGoesToFirst()
    ensures FindWorstCasePoint([5.0, 3.0, 3.0, 7.0], [1.0, 2.0, 3.0, 4.0]) == Ok(WorstCase(2.0, 3.0))
  {
  }

  /** Measurements exactly on a limit have margin 0 and still pass. */
  lemma ExampleBoundaryPasses()
    ensures CalcStatusAndMargins([14.0, 15.0, 16.0], Scalar(14.0), Scalar(16.0))
              == Ok(Analysis(Pass, [0.0, 1.0, 0.0], 0.0))
  {
    CalcMarginsAligned([14.0, 15.0, 16.0], Scalar(14.0), Scalar(16.0));
    assert CalcMargins([14.0, 15.0, 16.0], Scalar(14.0), Scalar(16.0)).value.overall == [0.0, 1.0, 0.0];
  }

  // ----- plot_tx_results: the analysis behind the TX gain plot -----

  /** The spec limits plot_tx_results applies to the measured gain, in dB. */
  const TxSpecMin: real := 14.0
  const TxSpecMax: real := 16.0

  /** The figures plot_tx_results annotates and highlights: the verdict, the
      minimum margin, and the critical point (frequency and gain). */
  datatype TxReport = TxReport(status: Status, minMargin: real, worstFreq: real, criticalGain: real)

  /** The computation inside plot_tx_results, on the frequency and gain
      columns already read: margins against the fixed 14/16 dB limits, the
      worst-case point, the verdict, and the gain at np.argmin of the margins. */
  function AnalyseTxResults(freq: seq<real>, gain: seq<real>): (r: Result<TxReport>)
    ensures 0 < |gain| <= |freq| ==> r.Ok?
    ensures r.Ok? ==> 0 < |gain|
  {
    var margins :- CalcMargins(gain, Scalar(TxSpecMin), Scalar(TxSpecMax));
    var worst :- FindWorstCasePoint(margins.overall, freq);
    var status := CalcPassFail(margins.overall).value;
    var k := ArgMin(margins.overall).value;
    Ok(TxReport(status, margins.minMargin, worst.x, gain[k]))
  }

  /** The TX report is put together from calc_margins on the gain with the
      fixed limits: its verdict, its minimum, and the frequency and gain at
      np.argmin of the margins. */
  lemma TxReportFields(freq: seq<real>, gain: seq<real>)
    requires 0 < |gain| <= |freq|
    ensures var m := CalcMargins(gain, Scalar(TxSpecMin), Scalar(TxSpecMax)).value;
            var k := ArgMinOf(m.overall);
            && |m.overall| == |gain|
            && AnalyseTxResults(freq, gain)
                 == Ok(TxReport(CalcPassFail(m.overall).value, m.minMargin, freq[k], gain[k]))
  {
    CalcMarginsAligned(gain, Scalar(TxSpecMin), Scalar(TxSpecMax));
  }

  /** The TX verdict is PASS exactly when every gain lies within 14 to 16 dB,
      and the critical point is the first point of least margin: its
      frequency, and its gain, whose margin is the reported minimum. */
  lemma TxReportConsistent(freq: seq<real>, gain: seq<real>)
    requires 0 < |gain| <= |freq|
    ensures var t := AnalyseTxResults(freq, gain).value;
            t.status == Pass <==> forall i :: 0 <= i < |gain| ==> TxSpecMin <= gain[i] <= TxSpecMax
    ensures var t := AnalyseTxResults(freq, gain).value;
            exists k: nat :: k < |gain| && t.worstFreq == freq[k] && t.criticalGain == gain[k]
              && PointMargin(gain[k], TxSpecMin, TxSpecMax) == t.minMargin
              && (forall i :: 0 <= i < k ==> PointMargin(gain[i], TxSpecMin, TxSpecMax) > t.minMargin)
              && (forall i :: 0 <= i < |gain| ==> t.minMargin <= PointMargin(gain[i], TxSpecMin, TxSpecMax))
  {
    var lo, hi := Scalar(TxSpecMin), Scalar(TxSpecMax);
    PassIffAllInBounds(gain, lo, hi);
    CalcMarginsAligned(gain, lo, hi);
    TxReportFields(freq, gain);
    var m := CalcMargins(gain, lo, hi).value;
    var k := ArgMinOf(m.overall);
    MinAtArgMin(m.overall);
    assert PointMargin(gain[k], TxSpecMin, TxSpecMax) == m.minMargin;
  }
}
