/** What a repaint puts on the canvas, as an ordered trace of paint records
    instead of calls into a terminal canvas. */
module Render {

  /** Go's `int(r)` conversion of a float: the fraction is dropped, rounding
      toward zero. */
  function Truncate(r: real): (n: int)
    ensures r >= 0.0 ==> n as real <= r < n as real + 1.0
    ensures r < 0.0 ==> n as real - 1.0 < r <= n as real
  {
    if r >= 0.0 then r.Floor else -((-r).Floor)
  }

  /** Truncation never exceeds an integer bound on its argument. */
  lemma TruncateAtMost(r: real, bound: int)
    requires r <= bound as real
    ensures Truncate(r) <= bound
  {
  }

  /** A coefficient that scales a negative maximum to the height `h` gives
      every sample at or below that maximum a bar of at least `h` cells, and
      the maximum itself a bar of exactly `h`. */
  lemma NegativeScaledAtLeast(d: real, coeff: real, max: real, h: int)
    requires h > 0 && max < 0.0 && d <= max
    requires coeff * max == h as real
    ensures BarHeight(d, coeff) >= h
    ensures d == max ==> BarHeight(d, coeff) == h
  {
    assert coeff < 0.0;
    assert d * coeff >= max * coeff;
  }

  /** Which of the theme's colour pairs a rectangle is filled with: the
      chart background, the normal bar colours or the peak colours. */
  datatype Tone = Back | Normal | Peak

  /** One canvas call: FillRect with a colour role, or PutText of an axis
      label cut to `width` cells. The label keeps its numeric value; the
      decimal text it is formatted to is not modelled. */
  datatype Paint =
    | Rect(x: int, y: int, w: int, h: int, tone: Tone)
    | Label(x: int, y: int, width: int, value: real)

  /** The bar height in cells of sample `d` under coefficient `coeff`. */
  function BarHeight(d: real, coeff: real): int
  {
    Truncate(d * coeff)
  }

  /** A bar takes the peak colours exactly when highlighting is on and its
      sample equals the maximum. */
  function ToneOf(d: real, max: real, hilite: bool): (t: Tone)
    ensures t == Peak <==> hilite && d == max
    ensures t != Back
  {
    if hilite && max == d then Peak else Normal
  }

  /** The one-column rectangle for sample `d` in column `col`, standing on
      row `bottom` (exclusive) and reaching up its bar height. */
  function BarAt(d: real, col: int, bottom: int, coeff: real, max: real, hilite: bool): Paint
  {
    var h := BarHeight(d, coeff);
    Rect(col, bottom - h, 1, h, ToneOf(d, max, hilite))
  }

  /** What one column contributes: nothing when the bar height is not
      positive, else its rectangle. */
  function Column(d: real, col: int, bottom: int, coeff: real, max: real, hilite: bool): seq<Paint>
  {
    if BarHeight(d, coeff) <= 0 then [] else [BarAt(d, col, bottom, coeff, max, hilite)]
  }

  /** The bars of the displayed samples `dt`, sample `i` in column
      `left + i`, painted left to right. */
  function Bars(dt: seq<real>, left: int, bottom: int, coeff: real, max: real, hilite: bool): seq<Paint>
    decreases |dt|
  {
    if |dt| == 0 then []
    else Bars(dt[..|dt| - 1], left, bottom, coeff, max, hilite)
         + Column(dt[|dt| - 1], left + |dt| - 1, bottom, coeff, max, hilite)
  }

  /** Bars grows by one column per appended sample. */
  lemma BarsSnoc(dt: seq<real>, v: real, left: int, bottom: int, coeff: real, max: real, hilite: bool)
    ensures Bars(dt + [v], left, bottom, coeff, max, hilite)
            == Bars(dt, left, bottom, coeff, max, hilite) + Column(v, left + |dt|, bottom, coeff, max, hilite)
  {
    assert (dt + [v])[..|dt|] == dt;
  }

  /** The bars of a two-sample window are its two columns. */
  lemma BarsPair(a: real, b: real, left: int, bottom: int, coeff: real, max: real, hilite: bool)
    ensures Bars([a, b], left, bottom, coeff, max, hilite)
            == Column(a, left, bottom, coeff, max, hilite) + Column(b, left + 1, bottom, coeff, max, hilite)
  {
    BarsSnoc([a], b, left, bottom, coeff, max, hilite);
    assert [a] + [b] == [a, b];
  }

  /** A window whose every bar height is not positive paints nothing. */
  lemma {:induction false} BarsNone(dt: seq<real>, left: int, bottom: int, coeff: real, max: real, hilite: bool)
    requires forall i :: 0 <= i < |dt| ==> BarHeight(dt[i], coeff) <= 0
    ensures Bars(dt, left, bottom, coeff, max, hilite) == []
    decreases |dt|
  {
    if |dt| > 0 {
      BarsNone(dt[..|dt| - 1], left, bottom, coeff, max, hilite);
    }
  }

  /** A window whose every bar height is positive paints one rectangle per
      sample. */
  lemma {:induction false} BarsAll(dt: seq<real>, left: int, bottom: int, coeff: real, max: real, hilite: bool)
    requires forall i :: 0 <= i < |dt| ==> BarHeight(dt[i], coeff) > 0
    ensures |Bars(dt, left, bottom, coeff, max, hilite)| == |dt|
    decreases |dt|
  {
    if |dt| > 0 {
      BarsAll(dt[..|dt| - 1], left, bottom, coeff, max, hilite);
    }
  }

  /** Every painted bar belongs to a displayed sample with a positive bar
      height: it sits in that sample's column, is one column wide, stands on
      `bottom`, is as tall as the sample's bar height and has its tone. */
  lemma {:induction false} BarsSound(dt: seq<real>, left: int, bottom: int, coeff: real, max: real, hilite: bool)
    ensures forall k :: 0 <= k < |Bars(dt, left, bottom, coeff, max, hilite)| ==>
              var p := Bars(dt, left, bottom, coeff, max, hilite)[k];
              p.Rect? && left <= p.x < left + |dt| &&
              BarHeight(dt[p.x - left], coeff) > 0 &&
              p == BarAt(dt[p.x - left], p.x, bottom, coeff, max, hilite) &&
              p.w == 1 && p.h > 0 && p.y + p.h == bottom && p.tone != Back
    decreases |dt|
  {
    if |dt| > 0 {
      var n := |dt| - 1;
      var pre := dt[..n];
      var bp := Bars(pre, left, bottom, coeff, max, hilite);
      var c := Column(dt[n], left + n, bottom, coeff, max, hilite);
      var b := Bars(dt, left, bottom, coeff, max, hilite);
      assert b == bp + c;
      BarsSound(pre, left, bottom, coeff, max, hilite);
      forall k | 0 <= k < |b|
        ensures b[k].Rect? && left <= b[k].x < left + |dt| &&
                BarHeight(dt[b[k].x - left], coeff) > 0 &&
                b[k] == BarAt(dt[b[k].x - left], b[k].x, bottom, coeff, max, hilite)
      {
        if k < |bp| {
          assert b[k] == bp[k];
          assert pre[bp[k].x - left] == dt[bp[k].x - left];
        } else {
          assert b[k] == c[k - |bp|];
        }
      }
    }
  }

  /** Conversely every displayed sample with a positive bar height is
      painted, in its own column, whether or not its neighbours are. */
  lemma {:induction false} BarsComplete(dt: seq<real>, left: int, bottom: int, coeff: real, max: real, hilite: bool)
    ensures forall i :: 0 <= i < |dt| && BarHeight(dt[i], coeff) > 0 ==>
              BarAt(dt[i], left + i, bottom, coeff, max, hilite) in Bars(dt, left, bottom, coeff, max, hilite)
    decreases |dt|
  {
    if |dt| > 0 {
      var n := |dt| - 1;
      var pre := dt[..n];
      BarsComplete(pre, left, bottom, coeff, max, hilite);
      assert forall i :: 0 <= i < n ==> pre[i] == dt[i];
    }
  }

  /** Every painted bar lies in the columns of the displayed samples. */
  lemma {:induction false} BarsColumns(dt: seq<real>, left: int, bottom: int, coeff: real, max: real, hilite: bool)
    ensures forall p :: p in Bars(dt, left, bottom, coeff, max, hilite) ==> left <= p.x < left + |dt|
    decreases |dt|
  {
    if |dt| > 0 {
      BarsColumns(dt[..|dt| - 1], left, bottom, coeff, max, hilite);
    }
  }

  /** The column cursor only moves right: bars are painted in strictly
      increasing columns, so no column is painted twice. */
  lemma {:induction false} BarsOrdered(dt: seq<real>, left: int, bottom: int, coeff: real, max: real, hilite: bool)
    ensures forall j, k :: 0 <= j < k < |Bars(dt, left, bottom, coeff, max, hilite)| ==>
              Bars(dt, left, bottom, coeff, max, hilite)[j].x < Bars(dt, left, bottom, coeff, max, hilite)[k].x
    decreases |dt|
  {
    if |dt| > 0 {
      var n := |dt| - 1;
      var pre := dt[..n];
      var bp := Bars(pre, left, bottom, coeff, max, hilite);
      var c := Column(dt[n], left + n, bottom, coeff, max, hilite);
      var b := Bars(dt, left, bottom, coeff, max, hilite);
      assert b == bp + c;
      assert |c| <= 1 && forall q :: q in c ==> q.x == left + n;
      BarsOrdered(pre, left, bottom, coeff, max, hilite);
      BarsColumns(pre, left, bottom, coeff, max, hilite);
      forall j, k | 0 <= j < k < |b|
        ensures b[j].x < b[k].x
      {
        if k < |bp| {
          assert b[j] == bp[j] && b[k] == bp[k];
          assert bp[j].x < bp[k].x;
        } else {
          assert b[k] == c[k - |bp|] && c[k - |bp|] in c;
          assert j < |bp| && b[j] == bp[j] && bp[j] in bp;
        }
      }
    }
  }

  /** The value printed in row `dy` of an `h`-row axis scaled to `top`. */
  function LabelValue(h: int, dy: int, top: real): real
    requires h != 0
  {
    (h - dy) as real / h as real * top
  }

  /** The axis labels from row offset `dy` on: one every second row while the
      offset is below `h - 1`, each labelled with the fraction of `top` that
      its row stands for. */
  function Labels(x: int, y: int, width: int, h: int, top: real, dy: int): seq<Paint>
    requires dy >= 0
    decreases h - dy
  {
    if dy >= h - 1 then []
    else [Label(x, y + dy, width, LabelValue(h, dy, top))]
         + Labels(x, y, width, h, top, dy + 2)
  }

  /** The labels are exactly rows dy, dy + 2, dy + 4, ... below h - 1, all in
      column `x`, label `k` carrying (h - dy - 2k) / h of `top`. */
  lemma {:induction false} LabelsShape(x: int, y: int, width: int, h: int, top: real, dy: int)
    requires dy >= 0
    ensures |Labels(x, y, width, h, top, dy)| == if dy >= h - 1 then 0 else (h - dy) / 2
    ensures forall k :: 0 <= k < |Labels(x, y, width, h, top, dy)| ==>
              dy + 2 * k + 2 <= h &&
              Labels(x, y, width, h, top, dy)[k] == Label(x, y + dy + 2 * k, width, LabelValue(h, dy + 2 * k, top))
    decreases h - dy
  {
    if dy < h - 1 {
      LabelsShape(x, y, width, h, top, dy + 2);
      var l := Labels(x, y, width, h, top, dy);
      var rest := Labels(x, y, width, h, top, dy + 2);
      assert l == [l[0]] + rest;
      forall k | 0 < k < |l|
        ensures l[k] == Label(x, y + dy + 2 * k, width, LabelValue(h, dy + 2 * k, top))
      {
        assert l[k] == rest[k - 1];
      }
    }
  }

  /** When the coefficient `c` scales `top` to the height, it scales label
      `k` to h - 2k: each label names the value whose bar reaches row 2k. */
  lemma LabelsScaled(x: int, y: int, width: int, h: int, top: real, c: real)
    requires h > 0 && c * top == h as real
    ensures forall k :: 0 <= k < |Labels(x, y, width, h, top, 0)| ==>
              Labels(x, y, width, h, top, 0)[k].Label? &&
              c * Labels(x, y, width, h, top, 0)[k].value == (h - 2 * k) as real
  {
    forall k | 0 <= k < |Labels(x, y, width, h, top, 0)|
      ensures Labels(x, y, width, h, top, 0)[k].Label? &&
              c * Labels(x, y, width, h, top, 0)[k].value == (h - 2 * k) as real
    {
      LabelScaledAt(x, y, width, h, top, c, k);
    }
  }

  /** LabelsScaled for the single label `k`. */
  lemma LabelScaledAt(x: int, y: int, width: int, h: int, top: real, c: real, k: int)
    requires h > 0 && c * top == h as real
    requires 0 <= k < |Labels(x, y, width, h, top, 0)|
    ensures Labels(x, y, width, h, top, 0)[k].Label? &&
            c * Labels(x, y, width, h, top, 0)[k].value == (h - 2 * k) as real
  {
    LabelsShape(x, y, width, h, top, 0);
    var v := Labels(x, y, width, h, top, 0)[k].value;
    assert v == LabelValue(h, 2 * k, top);
    ScaledLabel(c, top, h, h - 2 * k, v);
  }

  /** The fraction n / h of a maximum that the coefficient scales to h is
      scaled to n. */
  lemma ScaledLabel(c: real, t: real, h: int, n: int, v: real)
    requires h > 0 && c * t == h as real && v == n as real / h as real * t
    ensures c * v == n as real
  {
    var f := n as real / h as real;
    assert c * (f * t) == f * (c * t);
    assert f * (h as real) == n as real;
  }
}
