/** The vertical scale: the largest sample and the coefficient that turns a
    sample into a bar height in cells. */
module Scale {

  /** The largest sample, found by the same left-to-right scan as the chart
      (a later sample replaces the running maximum only when strictly larger). */
  function Max(s: seq<real>): real
    requires |s| > 0
  {
    if |s| == 1 then s[0]
    else
      var m := Max(s[..|s| - 1]);
      if s[|s| - 1] > m then s[|s| - 1] else m
  }

  /** The scan's result is one of the samples and no sample exceeds it. */
  lemma {:induction false} MaxIsLargest(s: seq<real>)
    requires |s| > 0
    ensures Max(s) in s
    ensures forall i :: 0 <= i < |s| ==> s[i] <= Max(s)
  {
    if |s| > 1 {
      var pre := s[..|s| - 1];
      MaxIsLargest(pre);
      assert forall i :: 0 <= i < |s| - 1 ==> pre[i] == s[i];
      assert Max(pre) in s by {
        var j :| 0 <= j < |pre| && pre[j] == Max(pre);
        assert s[j] == Max(pre);
      }
    }
  }

  /** The pair calculateMultiplier returns. `coeff == 0.0` is the sentinel
      for "nothing to draw this frame". */
  datatype ScaleResult = ScaleResult(coeff: real, max: real)

  /** calculateMultiplier over the chart's buffer, height and scaling
      configuration. */
  function Multiplier(data: seq<real>, height: int, autosize: bool, topValue: real): (r: ScaleResult)
    ensures |data| == 0 || height <= 1 ==> r == ScaleResult(0.0, 0.0)
    ensures (r.coeff == 0.0) == (r.max == 0.0)
  {
    if |data| == 0 || height <= 1 then ScaleResult(0.0, 0.0)
    else
      var m := Max(data);
      if m == 0.0 then ScaleResult(0.0, 0.0)
      else if autosize || topValue == 0.0 then ScaleResult(height as real / m, m)
      else ScaleResult(height as real / topValue, m)
  }

  /** The scale is the (0, 0) sentinel exactly in the three early exits: an
      empty buffer, a height of at most one row, or a scanned maximum of 0. */
  lemma MultiplierDegenerate(data: seq<real>, height: int, autosize: bool, topValue: real)
    ensures Multiplier(data, height, autosize, topValue) == ScaleResult(0.0, 0.0)
            <==> |data| == 0 || height <= 1 || Max(data) == 0.0
  {
  }

  /** Whenever the buffer is scanned (it is non-empty and the height exceeds
      one row) the reported maximum is a sample of the whole buffer and no
      sample exceeds it. */
  lemma MultiplierMax(data: seq<real>, height: int, autosize: bool, topValue: real)
    requires |data| > 0 && height > 1
    ensures Multiplier(data, height, autosize, topValue).max in data
    ensures forall i :: 0 <= i < |data| ==> data[i] <= Multiplier(data, height, autosize, topValue).max
  {
    MaxIsLargest(data);
  }

  /** The coefficient of a non-degenerate scale: the height over the window
      maximum under auto-scale or an unset top value, the height over the
      configured top value otherwise. */
  lemma MultiplierCoefficient(data: seq<real>, height: int, autosize: bool, topValue: real)
    requires Multiplier(data, height, autosize, topValue).coeff != 0.0
    ensures height > 1 && |data| > 0
    ensures var r := Multiplier(data, height, autosize, topValue);
            if autosize || topValue == 0.0 then r.coeff * r.max == height as real
            else topValue != 0.0 && r.coeff * topValue == height as real
  {
  }

  /** With the window maximum as denominator and a positive maximum, every
      sample scales to at most the full height. */
  lemma {:induction false} AutoScaleFits(data: seq<real>, height: int, autosize: bool, topValue: real, d: real)
    requires autosize || topValue == 0.0
    requires Multiplier(data, height, autosize, topValue).max > 0.0
    requires d in data
    ensures var r := Multiplier(data, height, autosize, topValue);
            r.coeff > 0.0 && d * r.coeff <= height as real
  {
    var r := Multiplier(data, height, autosize, topValue);
    MultiplierCoefficient(data, height, autosize, topValue);
    MultiplierMax(data, height, autosize, topValue);
    assert r.coeff == height as real / r.max;
    assert r.coeff > 0.0;
    assert d <= r.max;
    assert d * r.coeff <= r.max * r.coeff;
  }

  /** With the window maximum as denominator and a negative maximum, the
      coefficient scales the maximum to the height, and every sample lies at
      or below that maximum. */
  lemma NegativeMultiplier(data: seq<real>, height: int, autosize: bool, topValue: real, i: int)
    requires autosize || topValue == 0.0
    requires Multiplier(data, height, autosize, topValue).max < 0.0
    requires 0 <= i < |data|
    ensures var r := Multiplier(data, height, autosize, topValue);
            height > 1 && r.coeff * r.max == height as real && data[i] <= r.max
  {
    MultiplierCoefficient(data, height, autosize, topValue);
    MultiplierMax(data, height, autosize, topValue);
  }
}
