/** The SparkChart widget: its state, the data-window mutators, the scale
    scan and the two drawing passes, each drawing pass producing a trace of
    paint records. */
module Chart {
  import opened Layout
  import opened Window
  import opened Scale
  import opened Render

  /** clui's size sentinel meaning "choose a default size"; clui defines it
      as -1 among its constants. */
  const AutoSize: int := -1

  /** Everything the widget's behaviour depends on: the host-controlled
      position and size, the sample buffer and the configuration. */
  datatype State = State(
    x: int, y: int, width: int, height: int,
    data: seq<real>,
    valueWidth: int, hiliteMax: bool, topValue: real, autosize: bool)

  /** The bar capacity at the current width and value width. */
  function Capacity(s: State): int
  {
    BarArea(s.width, s.valueWidth).barWidth
  }

  /** The first bar column on the canvas. */
  function Origin(s: State): int
  {
    s.x + BarArea(s.width, s.valueWidth).offset
  }

  /** The result of calculateMultiplier in state `s`. */
  function ScaleOf(s: State): ScaleResult
  {
    Multiplier(s.data, s.height, s.autosize, s.topValue)
  }

  /** The samples drawBars shows: the newest `Capacity(s)` of the buffer. */
  function Displayed(s: State): seq<real>
    requires Capacity(s) >= 0
  {
    Newest(s.data, Capacity(s))
  }

  /** drawBars: nothing on an empty buffer, a bar area narrower than two
      columns or a degenerate scale; otherwise the bars of the displayed
      samples, coloured against the maximum of the whole buffer. */
  function BarsTrace(s: State): seq<Paint>
  {
    if |s.data| == 0 || Capacity(s) < 2 || ScaleOf(s).coeff == 0.0 then []
    else Bars(Displayed(s), Origin(s), s.y + s.height, ScaleOf(s).coeff, ScaleOf(s).max, s.hiliteMax)
  }

  /** The maximum the axis labels are scaled to: drawValues replaces the
      window maximum by the configured top value whenever auto-scale is off
      or the top value is 0. */
  function LabelTop(s: State): real
  {
    if !s.autosize || s.topValue == 0.0 then s.topValue else ScaleOf(s).max
  }

  /** drawValues: nothing when the value width is not positive, when the
      axis is suppressed by the layout, or when the scale's coefficient equals
      its maximum; otherwise labels down the left edge. */
  function ValuesTrace(s: State): seq<Paint>
  {
    if s.valueWidth <= 0 || BarArea(s.width, s.valueWidth).offset == 0 || ScaleOf(s).max == ScaleOf(s).coeff then []
    else Labels(s.x, s.y, s.valueWidth, s.height, LabelTop(s), 0)
  }

  /** Repaint: the background first; on a non-empty buffer the labels and
      then the bars. */
  function RepaintTrace(s: State): seq<Paint>
  {
    [Rect(s.x, s.y, s.width, s.height, Back)]
    + (if |s.data| == 0 then [] else ValuesTrace(s) + BarsTrace(s))
  }

  /** Whenever drawBars gets past its early exits, its trace is the bars of
      the displayed window. */
  lemma BarsTraceAt(s: State, dt: seq<real>, left: int, bottom: int, coeff: real, max: real)
    requires |s.data| > 0 && Capacity(s) >= 2 && ScaleOf(s) == ScaleResult(coeff, max) && coeff != 0.0
    requires Displayed(s) == dt && Origin(s) == left && s.y + s.height == bottom
    ensures BarsTrace(s) == Bars(dt, left, bottom, coeff, max, s.hiliteMax)
  {
  }

  /** BarsTraceAt with the window, origin and scale left as the state's own
      functions; callers that already speak of `Displayed(s)` use this form
      and avoid restating them as variables. */
  lemma BarsTraceIs(s: State)
    requires |s.data| > 0 && Capacity(s) >= 2 && ScaleOf(s).coeff != 0.0
    ensures BarsTrace(s) == Bars(Displayed(s), Origin(s), s.y + s.height, ScaleOf(s).coeff, ScaleOf(s).max, s.hiliteMax)
  {
  }

  /** Bar `k` of the bar pass is one column wide, stands on the bottom edge,
      and is the bar of the displayed sample whose column it occupies. */
  predicate PlacedBar(s: State, k: int)
    requires 0 <= k < |BarsTrace(s)|
  {
    Capacity(s) >= 2 && BarsTrace(s)[k].Rect? &&
    BarsTrace(s)[k].w == 1 && BarsTrace(s)[k].h > 0 &&
    BarsTrace(s)[k].y + BarsTrace(s)[k].h == s.y + s.height &&
    0 <= BarsTrace(s)[k].x - Origin(s) < |Displayed(s)| &&
    BarsTrace(s)[k].h == BarHeight(Displayed(s)[BarsTrace(s)[k].x - Origin(s)], ScaleOf(s).coeff)
  }

  /** Each painted bar is one column wide, stands on the bottom edge, and is
      the bar of the displayed sample whose column it occupies (sample `i` of
      the displayed window in column Origin + i). */
  lemma BarsPlacement(s: State)
    ensures forall k :: 0 <= k < |BarsTrace(s)| ==> PlacedBar(s, k)
  {
    forall k | 0 <= k < |BarsTrace(s)|
      ensures PlacedBar(s, k)
    {
      BarPlacedAt(s, k);
    }
  }

  /** BarsPlacement for the painted bar `k`. */
  lemma BarPlacedAt(s: State, k: int)
    requires 0 <= k < |BarsTrace(s)|
    ensures PlacedBar(s, k)
  {
    assert |s.data| > 0 && Capacity(s) >= 2 && ScaleOf(s).coeff != 0.0;
    var sc := ScaleOf(s);
    var dt := Displayed(s);
    var b := Bars(dt, Origin(s), s.y + s.height, sc.coeff, sc.max, s.hiliteMax);
    assert BarsTrace(s) == b;
    BarsSound(dt, Origin(s), s.y + s.height, sc.coeff, sc.max, s.hiliteMax);
    var i := b[k].x - Origin(s);
    assert b[k].Rect? && 0 <= i < |dt|;
    assert b[k] == BarAt(dt[i], b[k].x, s.y + s.height, sc.coeff, sc.max, s.hiliteMax);
    assert b[k].h == BarHeight(dt[i], sc.coeff);
  }

  /** When bars are drawn at all, the displayed window is the newest
      min(|data|, Capacity) samples, and each of them with a positive bar
      height is painted in column Origin + i with its tone. */
  lemma SamplesPainted(s: State)
    requires |s.data| > 0 && Capacity(s) >= 2 && ScaleOf(s).coeff != 0.0
    ensures |Displayed(s)| == Min(|s.data|, Capacity(s))
    ensures forall i :: 0 <= i < |Displayed(s)| && BarHeight(Displayed(s)[i], ScaleOf(s).coeff) > 0 ==>
              BarAt(Displayed(s)[i], Origin(s) + i, s.y + s.height, ScaleOf(s).coeff, ScaleOf(s).max, s.hiliteMax)
                in BarsTrace(s)
  {
    var sc := ScaleOf(s);
    BarsTraceIs(s);
    BarsComplete(Displayed(s), Origin(s), s.y + s.height, sc.coeff, sc.max, s.hiliteMax);
  }

  /** `d` is at least every sample of `data`. */
  predicate Dominates(data: seq<real>, d: real)
  {
    forall i :: 0 <= i < |data| ==> data[i] <= d
  }

  /** A sample of the buffer dominates it exactly when it equals the buffer's
      maximum. */
  lemma DominatesIffMax(data: seq<real>, d: real, max: real)
    requires d in data && max in data && Dominates(data, max)
    ensures Dominates(data, d) <==> d == max
  {
  }

  /** Bar `k` of the bar pass takes the peak colours exactly when
      highlighting is on and its sample is at least every sample of the
      buffer. */
  predicate PeakExactly(s: State, k: int)
    requires 0 <= k < |BarsTrace(s)|
  {
    Capacity(s) >= 2 && BarsTrace(s)[k].Rect? &&
    0 <= BarsTrace(s)[k].x - Origin(s) < |Displayed(s)| &&
    (BarsTrace(s)[k].tone == Peak <==>
       s.hiliteMax && Dominates(s.data, Displayed(s)[BarsTrace(s)[k].x - Origin(s)]))
  }

  /** A painted bar takes the peak colours exactly when highlighting is on
      and its sample is at least every sample of the WHOLE buffer, including
      the samples too old to be displayed. Ties are all highlighted; with
      highlighting off nothing is. */
  lemma PeakColour(s: State)
    ensures forall k :: 0 <= k < |BarsTrace(s)| ==> PeakExactly(s, k)
  {
    forall k | 0 <= k < |BarsTrace(s)|
      ensures PeakExactly(s, k)
    {
      PeakColourAt(s, k);
    }
  }

  /** PeakColour for the painted bar `k`. */
  lemma PeakColourAt(s: State, k: int)
    requires 0 <= k < |BarsTrace(s)|
    ensures PeakExactly(s, k)
  {
    assert |s.data| > 0 && Capacity(s) >= 2 && ScaleOf(s).coeff != 0.0;
    var sc := ScaleOf(s);
    var dt := Displayed(s);
    assert BarsTrace(s) == Bars(dt, Origin(s), s.y + s.height, sc.coeff, sc.max, s.hiliteMax);
    BarsSound(dt, Origin(s), s.y + s.height, sc.coeff, sc.max, s.hiliteMax);
    var i := BarsTrace(s)[k].x - Origin(s);
    assert BarsTrace(s)[k].tone == ToneOf(dt[i], sc.max, s.hiliteMax);
    PeakToneAt(s, i);
  }

  /** PeakColour for the displayed sample `i`. */
  lemma PeakToneAt(s: State, i: int)
    requires |s.data| > 0 && Capacity(s) >= 2 && ScaleOf(s).coeff != 0.0
    requires 0 <= i < |Displayed(s)|
    ensures ToneOf(Displayed(s)[i], ScaleOf(s).max, s.hiliteMax) == Peak <==>
              s.hiliteMax && Dominates(s.data, Displayed(s)[i])
  {
    var d := Displayed(s)[i];
    MultiplierMax(s.data, s.height, s.autosize, s.topValue);
    NewestAt(s.data, Capacity(s), i);
    assert d == s.data[|s.data| - |Displayed(s)| + i];
    DominatesIffMax(s.data, d, ScaleOf(s).max);
  }

  /** Under auto-scale (or an unset top value) and a positive maximum, the
      bar height of every displayed sample is at most the control height. */
  lemma SampleFits(s: State, i: int)
    requires s.autosize || s.topValue == 0.0
    requires ScaleOf(s).max > 0.0
    requires Capacity(s) >= 0 && 0 <= i < |Displayed(s)|
    ensures BarHeight(Displayed(s)[i], ScaleOf(s).coeff) <= s.height
  {
    SampleScaled(s, i);
    TruncateAtMost(Displayed(s)[i] * ScaleOf(s).coeff, s.height);
  }

  /** The scaled value behind SampleFits: a displayed sample times the
      coefficient is at most the control height. */
  lemma SampleScaled(s: State, i: int)
    requires s.autosize || s.topValue == 0.0
    requires ScaleOf(s).max > 0.0
    requires Capacity(s) >= 0 && 0 <= i < |Displayed(s)|
    ensures Displayed(s)[i] * ScaleOf(s).coeff <= s.height as real
  {
    var d := Displayed(s)[i];
    assert d in s.data by {
      NewestAt(s.data, Capacity(s), i);
    }
    AutoScaleFits(s.data, s.height, s.autosize, s.topValue, d);
  }

  /** Under auto-scale (or an unset top value) and a positive maximum, every
      painted bar fits the control: 0 < height <= control height, top row not
      above the control's first row. */
  lemma AutoScaleBarsFit(s: State)
    requires s.autosize || s.topValue == 0.0
    requires ScaleOf(s).max > 0.0
    ensures forall k :: 0 <= k < |BarsTrace(s)| ==>
              BarsTrace(s)[k].Rect? && 0 < BarsTrace(s)[k].h <= s.height && s.y <= BarsTrace(s)[k].y
  {
    forall k | 0 <= k < |BarsTrace(s)|
      ensures BarsTrace(s)[k].Rect? && 0 < BarsTrace(s)[k].h <= s.height && s.y <= BarsTrace(s)[k].y
    {
      BarPlacedAt(s, k);
      SampleFits(s, BarsTrace(s)[k].x - Origin(s));
    }
  }

  /** A non-empty buffer of only negative samples, scanned at a height above
      one row, has a negative maximum. */
  lemma NegativeMaximum(s: State)
    requires |s.data| > 0 && s.height > 1
    requires forall j :: 0 <= j < |s.data| ==> s.data[j] < 0.0
    ensures ScaleOf(s).max < 0.0
  {
    MultiplierMax(s.data, s.height, s.autosize, s.topValue);
  }

  /** Under auto-scale (or an unset top value) a negative maximum gives a
      negative coefficient, so no displayed sample gets a bar shorter than
      the control, and a sample equal to the maximum gets a bar exactly as
      tall as the control. */
  lemma NegativeBarsOverflow(s: State, i: int)
    requires s.autosize || s.topValue == 0.0
    requires ScaleOf(s).max < 0.0
    requires Capacity(s) >= 0 && 0 <= i < |Displayed(s)|
    ensures BarHeight(Displayed(s)[i], ScaleOf(s).coeff) >= s.height
    ensures Displayed(s)[i] == ScaleOf(s).max ==> BarHeight(Displayed(s)[i], ScaleOf(s).coeff) == s.height
  {
    var j := |s.data| - |Displayed(s)| + i;
    NewestAt(s.data, Capacity(s), i);
    NegativeMultiplier(s.data, s.height, s.autosize, s.topValue, j);
    assert Displayed(s)[i] == s.data[j];
    NegativeScaledAtLeast(Displayed(s)[i], ScaleOf(s).coeff, ScaleOf(s).max, s.height);
  }

  /** Under auto-scale (or an unset top value), on a control taller than one
      row with a bar area of at least two columns, a non-empty buffer of only
      negative samples has every displayed sample painted: one rectangle per
      displayed sample. */
  lemma NegativeBarsAllDrawn(s: State)
    requires s.autosize || s.topValue == 0.0
    requires s.height > 1 && |s.data| > 0 && Capacity(s) >= 2
    requires forall j :: 0 <= j < |s.data| ==> s.data[j] < 0.0
    ensures |BarsTrace(s)| == |Displayed(s)|
  {
    NegativeMaximum(s);
    forall i | 0 <= i < |Displayed(s)|
      ensures BarHeight(Displayed(s)[i], ScaleOf(s).coeff) > 0
    {
      NegativeBarsOverflow(s, i);
    }
    BarsTraceIs(s);
    BarsAll(Displayed(s), Origin(s), s.y + s.height, ScaleOf(s).coeff, ScaleOf(s).max, s.hiliteMax);
  }

  /** With auto-scale off and a positive top value the coefficient is
      positive, so a buffer of only negative samples paints no bar. */
  lemma TopValueHidesNegative(s: State)
    requires !s.autosize && s.topValue > 0.0
    requires forall j :: 0 <= j < |s.data| ==> s.data[j] < 0.0
    ensures BarsTrace(s) == []
  {
    if |s.data| > 0 && Capacity(s) >= 2 && ScaleOf(s).coeff != 0.0 {
      var r := ScaleOf(s);
      MultiplierCoefficient(s.data, s.height, s.autosize, s.topValue);
      assert r.coeff > 0.0;
      var dt := Displayed(s);
      forall i | 0 <= i < |dt|
        ensures BarHeight(dt[i], r.coeff) <= 0
      {
        NewestAt(s.data, Capacity(s), i);
        assert dt[i] < 0.0;
        assert dt[i] * r.coeff < 0.0;
      }
      BarsNone(dt, Origin(s), s.y + s.height, r.coeff, r.max, s.hiliteMax);
    }
  }

  /** Under auto-scale, [-1, -2] on a 10x5 chart gives max -1 and
      coefficient -5: the peak bar is exactly 5 rows tall and the other 10,
      taller than the control. */
  lemma NegativeSamplesOverflow(s: State)
    requires s == State(0, 0, 10, 5, [-1.0, -2.0], 0, true, 0.0, true)
    ensures BarsTrace(s) == [Rect(0, 0, 1, 5, Peak), Rect(1, -5, 1, 10, Normal)]
  {
    NegativeWindow(s);
    BarsTraceAt(s, [-1.0, -2.0], 0, 5, -5.0, -1.0);
    NegativeBars([-1.0, -2.0], 0, 5, -5.0, -1.0, true);
  }

  /** The layout and window of the all-negative scenario. */
  lemma NegativeWindow(s: State)
    requires s == State(0, 0, 10, 5, [-1.0, -2.0], 0, true, 0.0, true)
    ensures |s.data| > 0 && s.hiliteMax && s.y + s.height == 5
    ensures Capacity(s) >= 2 && Origin(s) == 0 && Displayed(s) == [-1.0, -2.0]
    ensures ScaleOf(s) == ScaleResult(-5.0, -1.0)
  {
    NegativeScale(s);
  }

  /** The scale of the all-negative scenario. */
  lemma NegativeScale(s: State)
    requires s == State(0, 0, 10, 5, [-1.0, -2.0], 0, true, 0.0, true)
    ensures ScaleOf(s) == ScaleResult(-5.0, -1.0)
  {
    assert Max(s.data) == -1.0 by {
      assert s.data[..1] == [-1.0];
    }
  }

  /** The bars of the all-negative scenario. */
  lemma NegativeBars(dt: seq<real>, left: int, bottom: int, coeff: real, max: real, hilite: bool)
    requires dt == [-1.0, -2.0]
    requires left == 0 && bottom == 5 && coeff == -5.0 && max == -1.0 && hilite
    ensures Bars(dt, left, bottom, coeff, max, hilite) == [Rect(0, 0, 1, 5, Peak), Rect(1, -5, 1, 10, Normal)]
  {
    BarsPair(-1.0, -2.0, 0, 5, -5.0, -1.0, true);
    NegativeColumns();
  }

  /** The two columns of the all-negative scenario. */
  lemma NegativeColumns()
    ensures Column(-1.0, 0, 5, -5.0, -1.0, true) == [Rect(0, 0, 1, 5, Peak)]
    ensures Column(-2.0, 1, 5, -5.0, -1.0, true) == [Rect(1, -5, 1, 10, Normal)]
  {
    assert BarHeight(-1.0, -5.0) == 5 && BarHeight(-2.0, -5.0) == 10;
  }


  /** On the default 10x5 chart, data [1, 2, 3, 4, 20] scales by 5/20: the
      first three columns stay empty, column 3 gets a one-row normal bar and
      column 4 a full-height peak bar. */
  lemma DefaultChartScenario(s: State)
    requires s == State(0, 0, 10, 5, [1.0, 2.0, 3.0, 4.0, 20.0], 0, true, 0.0, true)
    ensures BarsTrace(s) == [Rect(3, 4, 1, 1, Normal), Rect(4, 0, 1, 5, Peak)]
  {
    DefaultWindow(s);
    BarsTraceAt(s, [1.0, 2.0, 3.0, 4.0, 20.0], 0, 5, 0.25, 20.0);
    DefaultBars([1.0, 2.0, 3.0, 4.0, 20.0], 0, 5, 0.25, 20.0, true);
  }

  /** The layout, window and scale of the default-chart scenario. */
  lemma DefaultWindow(s: State)
    requires s == State(0, 0, 10, 5, [1.0, 2.0, 3.0, 4.0, 20.0], 0, true, 0.0, true)
    ensures |s.data| > 0 && s.hiliteMax && s.y + s.height == 5
    ensures Capacity(s) >= 2 && Origin(s) == 0 && Displayed(s) == [1.0, 2.0, 3.0, 4.0, 20.0]
    ensures ScaleOf(s) == ScaleResult(0.25, 20.0)
  {
    DefaultScale(s);
  }

  /** The scale of the default-chart scenario. */
  lemma DefaultScale(s: State)
    requires s == State(0, 0, 10, 5, [1.0, 2.0, 3.0, 4.0, 20.0], 0, true, 0.0, true)
    ensures ScaleOf(s) == ScaleResult(0.25, 20.0)
  {
    var d := s.data;
    assert Max(d[..1]) == 1.0 by { assert d[..1] == [1.0]; }
    assert Max(d[..2]) == 2.0 by { assert d[..2][..1] == d[..1]; }
    assert Max(d[..3]) == 3.0 by { assert d[..3][..2] == d[..2]; }
    assert Max(d[..4]) == 4.0 by { assert d[..4][..3] == d[..3]; }
    assert Max(d) == 20.0 by { assert d[..4] == d[..|d| - 1]; }
  }

  /** The bars of the default-chart scenario. */
  lemma DefaultBars(dt: seq<real>, left: int, bottom: int, coeff: real, max: real, hilite: bool)
    requires dt == [1.0, 2.0, 3.0, 4.0, 20.0]
    requires left == 0 && bottom == 5 && coeff == 0.25 && max == 20.0 && hilite
    ensures Bars(dt, left, bottom, coeff, max, hilite) == [Rect(3, 4, 1, 1, Normal), Rect(4, 0, 1, 5, Peak)]
  {
    BarsSnoc([1.0, 2.0, 3.0, 4.0], 20.0, 0, 5, 0.25, 20.0, true);
    DefaultPrefix();
    DefaultColumns();
    assert [1.0, 2.0, 3.0, 4.0] + [20.0] == dt;
  }

  /** The first four samples of the default-chart scenario paint one bar. */
  lemma DefaultPrefix()
    ensures Bars([1.0, 2.0, 3.0, 4.0], 0, 5, 0.25, 20.0, true) == [Rect(3, 4, 1, 1, Normal)]
  {
    BarsSnoc([1.0, 2.0, 3.0], 4.0, 0, 5, 0.25, 20.0, true);
    DefaultColumns();
    BarsNone([1.0, 2.0, 3.0], 0, 5, 0.25, 20.0, true);
    assert [1.0, 2.0, 3.0] + [4.0] == [1.0, 2.0, 3.0, 4.0];
  }

  /** The bar heights and columns of the default-chart scenario at scale 5/20. */
  lemma DefaultColumns()
    ensures BarHeight(1.0, 0.25) == 0 && BarHeight(2.0, 0.25) == 0 && BarHeight(3.0, 0.25) == 0
    ensures Column(4.0, 3, 5, 0.25, 20.0, true) == [Rect(3, 4, 1, 1, Normal)]
    ensures Column(20.0, 4, 5, 0.25, 20.0, true) == [Rect(4, 0, 1, 5, Peak)]
  {
    assert BarHeight(4.0, 0.25) == 1 && BarHeight(20.0, 0.25) == 5;
  }

  /** The axis is drawn exactly when the value width is positive, the layout
      reserves it, and the scale's coefficient differs from its maximum. */
  lemma ValuesShownIff(s: State)
    ensures ValuesTrace(s) != [] <==>
              s.valueWidth > 0 && BarArea(s.width, s.valueWidth).offset != 0 && ScaleOf(s).coeff != ScaleOf(s).max
  {
  }

  /** When drawn, the axis has one label per second row from the top,
      height / 2 of them, each in the control's first column and cut to the
      value width; with a top value of 0 every label reads 0. */
  lemma LabelsLayout(s: State)
    ensures ValuesTrace(s) != [] ==> |ValuesTrace(s)| == s.height / 2
    ensures forall k :: 0 <= k < |ValuesTrace(s)| ==>
              2 * k + 2 <= s.height && ValuesTrace(s)[k].Label? &&
              ValuesTrace(s)[k].x == s.x && ValuesTrace(s)[k].y == s.y + 2 * k &&
              ValuesTrace(s)[k].width == s.valueWidth &&
              (s.topValue == 0.0 ==> ValuesTrace(s)[k].value == 0.0)
  {
    if ValuesTrace(s) != [] {
      LabelsShape(s.x, s.y, s.valueWidth, s.height, LabelTop(s), 0);
    }
  }

  /** With a configured top value, label `k` names the sample value whose
      bar reaches exactly row 2k: coefficient * value == height - 2k. */
  lemma LabelValues(s: State)
    requires s.topValue != 0.0
    ensures forall k :: 0 <= k < |ValuesTrace(s)| ==>
              ValuesTrace(s)[k].Label? &&
              ScaleOf(s).coeff * ValuesTrace(s)[k].value == (s.height - 2 * k) as real
  {
    if ValuesTrace(s) != [] {
      LabelScale(s);
      LabelsScaled(s.x, s.y, s.valueWidth, s.height, LabelTop(s), ScaleOf(s).coeff);
    }
  }

  /** On a drawn axis with a configured top value, the coefficient scales
      the label maximum to exactly the control height. */
  lemma LabelScale(s: State)
    requires ValuesTrace(s) != [] && s.topValue != 0.0
    ensures s.height > 1 && ScaleOf(s).coeff * LabelTop(s) == s.height as real
  {
    MultiplierCoefficient(s.data, s.height, s.autosize, s.topValue);
  }

  /** The drawValues guard `max == coeff` is meant for the all-zero sentinel,
      but it also holds for a real scale whose maximum squared is the height:
      on a 10x4 chart with value width 3 and the single sample 2, the bar is
      drawn in full height while the axis stays blank. */
  lemma LabelsHiddenWhenCoefficientEqualsMax()
    ensures var s := State(0, 0, 10, 4, [2.0], 3, true, 1.0, true);
            ValuesTrace(s) == [] && BarsTrace(s) == [Rect(3, 0, 1, 4, Peak)]
  {
    var s := State(0, 0, 10, 4, [2.0], 3, true, 1.0, true);
    assert ScaleOf(s) == ScaleResult(2.0, 2.0);
    assert Displayed(s) == [2.0];
    assert Truncate(2.0 * 2.0) == 4;
    assert Displayed(s)[..0] == [];
  }

  /** The background rectangle is painted first over the whole control; the
      axis labels come next, and every record after them is a bar. On an
      empty buffer only the background is painted. */
  lemma RepaintOrder(s: State)
    ensures RepaintTrace(s)[0] == Rect(s.x, s.y, s.width, s.height, Back)
    ensures |s.data| == 0 ==> |RepaintTrace(s)| == 1
    ensures forall k :: 0 < k < |RepaintTrace(s)| ==>
              (RepaintTrace(s)[k].Label? <==> k <= |ValuesTrace(s)|) &&
              (RepaintTrace(s)[k].Rect? ==> RepaintTrace(s)[k].tone != Back)
  {
    var t := RepaintTrace(s);
    if |s.data| > 0 {
      var v := ValuesTrace(s);
      var b := BarsTrace(s);
      assert t == [t[0]] + v + b;
      ValuesAreLabels(s);
      BarsAreBars(s);
      forall k | 0 < k < |t|
        ensures (t[k].Label? <==> k <= |v|) && (t[k].Rect? ==> t[k].tone != Back)
      {
        if k <= |v| {
          assert t[k] == v[k - 1];
        } else {
          assert t[k] == b[k - 1 - |v|];
        }
      }
    }
  }

  /** Every record of the axis pass is a label. */
  lemma ValuesAreLabels(s: State)
    ensures forall k :: 0 <= k < |ValuesTrace(s)| ==> ValuesTrace(s)[k].Label?
  {
    if ValuesTrace(s) != [] {
      LabelsShape(s.x, s.y, s.valueWidth, s.height, LabelTop(s), 0);
    }
  }

  /** Every record of the bar pass is a bar rectangle, never background. */
  lemma BarsAreBars(s: State)
    ensures forall k :: 0 <= k < |BarsTrace(s)| ==> BarsTrace(s)[k].Rect? && BarsTrace(s)[k].tone != Back
  {
    if |s.data| > 0 && Capacity(s) >= 2 && ScaleOf(s).coeff != 0.0 {
      BarsTraceIs(s);
      var sc := ScaleOf(s);
      BarsSound(Displayed(s), Origin(s), s.y + s.height, sc.coeff, sc.max, s.hiliteMax);
    }
  }

  /** The chart widget. Position and size belong to the host control and
      change only through Move and Resize; a resize does not re-trim `data`. */
  class SparkChart {
    var x: int
    var y: int
    var width: int
    var height: int
    var data: seq<real>
    var valueWidth: int
    var hiliteMax: bool
    var topValue: real
    var autosize: bool

    /** The current state as a value. */
    function Snapshot(): State
      reads this
    {
      State(x, y, width, height, data, valueWidth, hiliteMax, topValue, autosize)
    }

    /** NewSparkChart: AutoSize picks 10 columns and 5 rows; the buffer is
        empty, highlighting and auto-scale are on, no axis, no top value. */
    constructor (w: int, h: int)
      ensures Snapshot() == State(0, 0, if w == AutoSize then 10 else w, if h == AutoSize then 5 else h,
                                  [], 0, true, 0.0, true)
    {
      x, y := 0, 0;
      width := if w == AutoSize then 10 else w;
      height := if h == AutoSize then 5 else h;
      valueWidth := 0;
      topValue := 0.0;
      hiliteMax := true;
      autosize := true;
      data := [];
    }

    /** The host resizes the control; the buffer is left as it is. */
    method Resize(w: int, h: int)
      modifies this
      ensures Snapshot() == old(Snapshot()).(width := w, height := h)
    {
      width, height := w, h;
    }

    /** The host moves the control. */
    method Move(px: int, py: int)
      modifies this
      ensures Snapshot() == old(Snapshot()).(x := px, y := py)
    {
      x, y := px, py;
    }

    /** AddData: append, then keep the newest Capacity samples, where the
        capacity is computed from the width and value width of this call. */
    method AddData(v: real)
      requires Capacity(Snapshot()) >= 0
      modifies this
      ensures Snapshot() == old(Snapshot()).(data := Newest(old(data) + [v], Capacity(old(Snapshot()))))
      ensures data == (old(data) + [v])[|old(data)| + 1 - |data|..]
      ensures |data| == Min(|old(data)| + 1, Capacity(Snapshot()))
    {
      data := data + [v];
      var a := BarArea(width, valueWidth);
      if |data| > a.barWidth {
        data := data[|data| - a.barWidth..];
      }
    }

    /** ClearData: the buffer becomes empty. */
    method ClearData()
      modifies this
      ensures Snapshot() == old(Snapshot()).(data := [])
    {
      data := [];
    }

    /** SetData: the buffer becomes the newest Capacity of the given samples. */
    method SetData(samples: seq<real>)
      requires Capacity(Snapshot()) >= 0
      modifies this
      ensures Snapshot() == old(Snapshot()).(data := Newest(samples, Capacity(old(Snapshot()))))
      ensures data == samples[|samples| - |data|..]
      ensures |data| == Min(|samples|, Capacity(Snapshot()))
    {
      data := samples;
      var a := BarArea(width, valueWidth);
      if |data| > a.barWidth {
        data := data[|data| - a.barWidth..];
      }
    }

    function ValueWidth(): int
      reads this
    {
      valueWidth
    }

    method SetValueWidth(w: int)
      modifies this
      ensures ValueWidth() == w
      ensures Snapshot() == old(Snapshot()).(valueWidth := w)
    {
      valueWidth := w;
    }

    function Top(): real
      reads this
    {
      topValue
    }

    method SetTop(top: real)
      modifies this
      ensures Top() == top
      ensures Snapshot() == old(Snapshot()).(topValue := top)
    {
      topValue := top;
    }

    function AutoScale(): bool
      reads this
    {
      autosize
    }

    method SetAutoScale(auto: bool)
      modifies this
      ensures AutoScale() == auto
      ensures Snapshot() == old(Snapshot()).(autosize := auto)
    {
      autosize := auto;
    }

    function HilitePeaks(): bool
      reads this
    {
      hiliteMax
    }

    method SetHilitePeaks(hilite: bool)
      modifies this
      ensures HilitePeaks() == hilite
      ensures Snapshot() == old(Snapshot()).(hiliteMax := hilite)
    {
      hiliteMax := hilite;
    }

    /** calculateMultiplier: the maximum scan and the choice of denominator. */
    method CalculateMultiplier() returns (coeff: real, max: real)
      ensures ScaleResult(coeff, max) == ScaleOf(Snapshot())
    {
      if |data| == 0 {
        return 0.0, 0.0;
      }
      var h := height;
      if h <= 1 {
        return 0.0, 0.0;
      }
      max := data[0];
      var i := 0;
      while i < |data|
        invariant 0 <= i <= |data|
        invariant max == if i == 0 then data[0] else Max(data[..i])
      {
        assert data[..i + 1][..i] == data[..i];
        if data[i] > max {
          max := data[i];
        }
        i := i + 1;
      }
      assert data[..|data|] == data;
      if max == 0.0 {
        return 0.0, 0.0;
      }
      if autosize || topValue == 0.0 {
        coeff := h as real / max;
      } else {
        coeff := h as real / topValue;
      }
    }

    /** drawBars: the early exits, the choice of displayed samples, and the
        column loop. */
    method DrawBars() returns (trace: seq<Paint>)
      ensures trace == BarsTrace(Snapshot())
    {
      ghost var s := Snapshot();
      trace := [];
      if |data| == 0 {
        return;
      }
      var a := BarArea(width, valueWidth);
      if a.barWidth < 2 {
        return;
      }
      var coeff, max := CalculateMultiplier();
      if coeff == 0.0 {
        return;
      }
      var dt := Newest(data, a.barWidth);
      BarsTraceAt(s, dt, x + a.offset, y + height, coeff, max);
      trace := PaintColumns(dt, x + a.offset, y + height, coeff, max, hiliteMax);
    }

    /** The column loop of drawBars: the cursor `pos` advances over every
        displayed sample, painting a bar only where its height is positive. */
    static method PaintColumns(dt: seq<real>, left: int, bottom: int, coeff: real, max: real, hilite: bool)
      returns (trace: seq<Paint>)
      ensures trace == Bars(dt, left, bottom, coeff, max, hilite)
    {
      trace := [];
      var pos := left;
      var i := 0;
      while i < |dt|
        invariant 0 <= i <= |dt|
        invariant pos == left + i
        invariant trace == Bars(dt[..i], left, bottom, coeff, max, hilite)
      {
        var d := dt[i];
        assert dt[..i + 1][..i] == dt[..i] && dt[..i + 1][i] == d;
        assert Bars(dt[..i + 1], left, bottom, coeff, max, hilite)
               == trace + Column(d, pos, bottom, coeff, max, hilite);
        var barH := BarHeight(d, coeff);
        if barH > 0 {
          var tone := ToneOf(d, max, hilite);
          trace := trace + [Rect(pos, bottom - barH, 1, barH, tone)];
        }
        pos := pos + 1;
        i := i + 1;
      }
      assert dt[..|dt|] == dt;
    }

    /** drawValues: a label every second row, scaled to the label maximum. */
    method DrawValues() returns (trace: seq<Paint>)
      ensures trace == ValuesTrace(Snapshot())
    {
      trace := [];
      if valueWidth <= 0 {
        return;
      }
      var a := BarArea(width, valueWidth);
      if a.offset == 0 {
        return;
      }
      var h := height;
      var coeff, max := CalculateMultiplier();
      if max == coeff {
        return;
      }
      if !autosize || topValue == 0.0 {
        max := topValue;
      }
      assert max == LabelTop(Snapshot());
      var dy := 0;
      while dy < h - 1
        invariant 0 <= dy
        invariant trace + Labels(x, y, valueWidth, h, max, dy) == Labels(x, y, valueWidth, h, max, 0)
        decreases h - dy
      {
        var v := (h - dy) as real / h as real * max;
        assert v == LabelValue(h, dy, max);
        assert |Labels(x, y, valueWidth, h, max, dy)| > 0;
        assert Labels(x, y, valueWidth, h, max, dy)[0] == Label(x, y + dy, valueWidth, v);
        assert Labels(x, y, valueWidth, h, max, dy) == [Label(x, y + dy, valueWidth, v)] + Labels(x, y, valueWidth, h, max, dy + 2);
        trace := trace + [Label(x, y + dy, valueWidth, v)];
        dy := dy + 2;
      }
    }

    /** Repaint: background, then (on a non-empty buffer) values, then bars. */
    method Repaint() returns (trace: seq<Paint>)
      ensures trace == RepaintTrace(Snapshot())
    {
      trace := [Rect(x, y, width, height, Back)];
      if |data| == 0 {
        return;
      }
      var values := DrawValues();
      var bars := DrawBars();
      trace := trace + values + bars;
    }
  }
}
