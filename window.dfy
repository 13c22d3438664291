/** The trailing window of samples kept by the chart. */
module Window {

  function Min(a: int, b: int): int
  {
    if a < b then a else b
  }

  /** The newest `w` samples of `s` (all of them when there are fewer),
      as AddData and SetData cut the buffer: a suffix, in original order. */
  function Newest<T>(s: seq<T>, w: nat): (r: seq<T>)
    ensures |r| == Min(|s|, w)
    ensures r == s[|s| - |r|..]
  {
    if |s| > w then s[|s| - w..] else s
  }

  /** Retained sample `i` is the sample `|s| - |Newest(s, w)| + i` of the
      input: nothing is reordered or invented. */
  lemma NewestAt<T>(s: seq<T>, w: nat, i: int)
    requires 0 <= i < |Newest(s, w)|
    ensures 0 <= |s| - |Newest(s, w)| + i < |s|
    ensures Newest(s, w)[i] == s[|s| - |Newest(s, w)| + i]
  {
  }

  /** Trimming a suffix of `u` is trimming `u` with the smaller of the two
      lengths. */
  lemma {:induction false} NewestOfSuffix<T>(u: seq<T>, j: nat, w: nat)
    requires j <= |u|
    ensures Newest(u[j..], w) == Newest(u, Min(|u| - j, w))
  {
    var k := Min(|u| - j, w);
    var l := Newest(u[j..], w);
    var r := Newest(u, k);
    assert |l| == k == |r|;
    forall i | 0 <= i < k
      ensures l[i] == r[i]
    {
      assert l[i] == u[j..][|u| - j - k + i];
    }
  }

  /** The sliding-window law behind repeated AddData calls: appending `v` to the
      newest `w1` samples of the history `s` and then cutting to `w2` keeps exactly
      the newest min(w1 + 1, w2) samples of the whole history. It is the step
      of AppendAllIsNewest. */
  lemma {:induction false} WindowSlides<T>(s: seq<T>, v: T, w1: nat, w2: nat)
    ensures Newest(Newest(s, w1) + [v], w2) == Newest(s + [v], Min(w1 + 1, w2))
  {
    var t := Newest(s, w1);
    var j := |s| - |t|;
    assert t + [v] == (s + [v])[j..];
    NewestOfSuffix(s + [v], j, w2);
  }

  /** The buffer after a run of AddData calls at an unchanged capacity `w`,
      starting from buffer `buf`. */
  function AppendAll<T>(buf: seq<T>, vs: seq<T>, w: nat): seq<T>
    decreases |vs|
  {
    if |vs| == 0 then buf else AppendAll(Newest(buf + [vs[0]], w), vs[1..], w)
  }

  /** With the capacity unchanged between calls, AddData keeps the buffer
      equal to the newest `w` samples since the last restart: `t` are the
      samples SetData was given (empty after ClearData or construction), and
      `vs` the samples added since. */
  lemma {:induction false} AppendAllIsNewest<T>(t: seq<T>, vs: seq<T>, w: nat)
    ensures AppendAll(Newest(t, w), vs, w) == Newest(t + vs, w)
    decreases |vs|
  {
    if |vs| == 0 {
      assert t + vs == t;
    } else {
      WindowSlides(t, vs[0], w, w);
      assert Min(w + 1, w) == w;
      AppendAllIsNewest(t + [vs[0]], vs[1..], w);
      assert t + [vs[0]] + vs[1..] == t + vs;
    }
  }

  /** Fifteen samples on a ten-column bar area: the oldest five are dropped. */
  lemma FifteenIntoTen()
    ensures Newest([1, 2, 3, 4, 5, 6, 7, 8, 9, 10, 11, 12, 13, 14, 15], 10)
            == [6, 7, 8, 9, 10, 11, 12, 13, 14, 15]
  {
  }
}
