/** The Ichimoku cloud as the bot computes it: midpoints of the highest high and
    the lowest low over trailing windows of 9, 26 and 52 bars, taken with
    Python's negative slicing (so a shorter array is used whole), and with the
    spans read at the current bar rather than shifted 26 bars forward. */
module Ichimoku {
  import opened Basics

  const TenkanPeriod: nat := 9
  const KijunPeriod: nat := 26
  const SenkouBPeriod: nat := 52

  function Min(a: int, b: int): int { if a <= b then a else b }

  function MinReal(a: real, b: real): real { if a <= b then a else b }

  function MaxReal(a: real, b: real): real { if a <= b then b else a }

  /** `s[-k:]` for k > 0: the last min(k, |s|) elements of `s`. */
  function Window<T>(s: seq<T>, k: nat): (w: seq<T>)
    requires k > 0
    ensures |w| == Min(k, |s|)
    ensures w == s[|s| - |w|..]
    ensures |s| <= k ==> w == s
  {
    if |s| <= k then s else s[|s| - k..]
  }

  /** `np.max` of a non-empty array. */
  function SeqMax(s: seq<real>): real
    requires |s| > 0
  {
    if |s| == 1 then s[0]
    else
      var rest := SeqMax(s[1..]);
      if s[0] >= rest then s[0] else rest
  }

  /** `np.min` of a non-empty array. */
  function SeqMin(s: seq<real>): real
    requires |s| > 0
  {
    if |s| == 1 then s[0]
    else
      var rest := SeqMin(s[1..]);
      if s[0] <= rest then s[0] else rest
  }

  /** `SeqMax` is an entry of the array and no entry exceeds it. */
  lemma {:induction false} SeqMaxIsMax(s: seq<real>)
    requires |s| > 0
    ensures SeqMax(s) in s
    ensures forall i :: 0 <= i < |s| ==> s[i] <= SeqMax(s)
  {
    if |s| > 1 {
      SeqMaxIsMax(s[1..]);
      forall i | 1 <= i < |s| ensures s[i] <= SeqMax(s) {
        assert s[i] == s[1..][i - 1];
      }
    }
  }

  /** `SeqMin` is an entry of the array and no entry is below it. */
  lemma {:induction false} SeqMinIsMin(s: seq<real>)
    requires |s| > 0
    ensures SeqMin(s) in s
    ensures forall i :: 0 <= i < |s| ==> SeqMin(s) <= s[i]
  {
    if |s| > 1 {
      SeqMinIsMin(s[1..]);
      forall i | 1 <= i < |s| ensures SeqMin(s) <= s[i] {
        assert s[i] == s[1..][i - 1];
      }
    }
  }

  /** `m` is the largest of the last min(k, |s|) entries of `s`, stated on the
      indices of `s` itself. */
  ghost predicate IsWindowMax(m: real, s: seq<real>, k: nat)
  {
    var start := |s| - Min(k, |s|);
    (exists i :: start <= i < |s| && s[i] == m) &&
    (forall i :: start <= i < |s| ==> s[i] <= m)
  }

  /** `m` is the smallest of the last min(k, |s|) entries of `s`. */
  ghost predicate IsWindowMin(m: real, s: seq<real>, k: nat)
  {
    var start := |s| - Min(k, |s|);
    (exists i :: start <= i < |s| && s[i] == m) &&
    (forall i :: start <= i < |s| ==> m <= s[i])
  }

  /** `r` is the midpoint of the highest high and the lowest low of the last
      min(k, n) bars. */
  ghost predicate IsMidrange(r: real, high: seq<real>, low: seq<real>, k: nat)
  {
    exists hi, lo :: IsWindowMax(hi, high, k) && IsWindowMin(lo, low, k) && r == (hi + lo) / 2.0
  }

  /** `(np.max(high[-k:]) + np.min(low[-k:])) / 2` */
  function Midrange(high: seq<real>, low: seq<real>, k: nat): real
    requires |high| > 0 && |low| > 0 && k > 0
  {
    (SeqMax(Window(high, k)) + SeqMin(Window(low, k))) / 2.0
  }

  datatype Cloud = Cloud(tenkanSen: real, kijunSen: real, senkouSpanA: real, senkouSpanB: real)

  /** The four lines over non-empty high and low arrays. */
  function CloudOf(high: seq<real>, low: seq<real>): (c: Cloud)
    requires |high| > 0 && |low| > 0
  {
    var tenkan := Midrange(high, low, TenkanPeriod);
    var kijun := Midrange(high, low, KijunPeriod);
    Cloud(tenkan, kijun, (tenkan + kijun) / 2.0, Midrange(high, low, SenkouBPeriod))
  }

  /** `calculate_ichimoku_cloud`: any `None` input gives no cloud (the four
      `None`s); an empty high or low array makes numpy raise; there is no check
      for fewer than 52 bars. */
  function CalculateCloud(close: Option<seq<real>>, high: Option<seq<real>>, low: Option<seq<real>>)
    : (r: Result<Option<Cloud>>)
    ensures r == Ok(None) <==> close.None? || high.None? || low.None?
    ensures r.Err? <==> close.Some? && high.Some? && low.Some? && (|high.value| == 0 || |low.value| == 0)
    ensures r.Err? ==> r.error == ZeroSizeArray
    ensures r.Ok? && r.value.Some? ==>
      |high.value| > 0 && |low.value| > 0 && r.value.value == CloudOf(high.value, low.value)
  {
    if close.None? || high.None? || low.None? then Ok(None)
    else if |high.value| == 0 || |low.value| == 0 then Err(ZeroSizeArray)
    else Ok(Some(CloudOf(high.value, low.value)))
  }

  /** Entry `i` of the trailing window of `s` is entry `|s| - |w| + i` of `s`. */
  lemma {:induction false} WindowAt(s: seq<real>, k: nat, i: nat)
    requires k > 0 && |s| - Min(k, |s|) <= i < |s|
    ensures Window(s, k)[i - (|s| - Min(k, |s|))] == s[i]
  {
  }

  /** The window maximum computed by `SeqMax` is exactly the largest of the
      last min(k, |s|) entries, and no other value is. */
  lemma {:induction false} WindowMaxUnique(s: seq<real>, k: nat)
    requires |s| > 0 && k > 0
    ensures forall m :: IsWindowMax(m, s, k) <==> m == SeqMax(Window(s, k))
  {
    var w := Window(s, k);
    var start := |s| - Min(k, |s|);
    var mx := SeqMax(w);
    SeqMaxIsMax(w);
    var j :| 0 <= j < |w| && w[j] == mx;
    WindowAt(s, k, start + j);
    forall i | start <= i < |s| ensures s[i] <= mx {
      WindowAt(s, k, i);
    }
    assert IsWindowMax(mx, s, k);
    forall m | IsWindowMax(m, s, k) ensures m == mx {
      assert s[start + j] <= m;
    }
  }

  /** The window minimum computed by `SeqMin` is exactly the smallest of the
      last min(k, |s|) entries, and no other value is. */
  lemma {:induction false} WindowMinUnique(s: seq<real>, k: nat)
    requires |s| > 0 && k > 0
    ensures forall m :: IsWindowMin(m, s, k) <==> m == SeqMin(Window(s, k))
  {
    var w := Window(s, k);
    var start := |s| - Min(k, |s|);
    var mn := SeqMin(w);
    SeqMinIsMin(w);
    var j :| 0 <= j < |w| && w[j] == mn;
    WindowAt(s, k, start + j);
    forall i | start <= i < |s| ensures mn <= s[i] {
      WindowAt(s, k, i);
    }
    assert IsWindowMin(mn, s, k);
    forall m | IsWindowMin(m, s, k) ensures m == mn {
      assert m <= s[start + j];
    }
  }

  /** A line's value is determined by its window: exactly one value is the
      midpoint of the window's highest high and lowest low. */
  lemma {:induction false} MidrangeUnique(high: seq<real>, low: seq<real>, k: nat)
    requires |high| > 0 && |low| > 0 && k > 0
    ensures forall r :: IsMidrange(r, high, low, k) <==> r == Midrange(high, low, k)
  {
    WindowMaxUnique(high, k);
    WindowMinUnique(low, k);
    assert IsWindowMax(SeqMax(Window(high, k)), high, k);
    assert IsWindowMin(SeqMin(Window(low, k)), low, k);
  }

  /** Each line of the cloud is the midpoint of the highest high and lowest
      low of its own trailing window of 9, 26 or 52 bars (fewer when the
      arrays are shorter), and Span A is the midpoint of Tenkan and Kijun. */
  lemma {:induction false} CloudLines(high: seq<real>, low: seq<real>)
    requires |high| > 0 && |low| > 0
    ensures IsMidrange(CloudOf(high, low).tenkanSen, high, low, TenkanPeriod)
    ensures IsMidrange(CloudOf(high, low).kijunSen, high, low, KijunPeriod)
    ensures IsMidrange(CloudOf(high, low).senkouSpanB, high, low, SenkouBPeriod)
    ensures CloudOf(high, low).senkouSpanA == (CloudOf(high, low).tenkanSen + CloudOf(high, low).kijunSen) / 2.0
  {
    MidrangeUnique(high, low, TenkanPeriod);
    MidrangeUnique(high, low, KijunPeriod);
    MidrangeUnique(high, low, SenkouBPeriod);
  }

  /** The last j entries lie within the last k entries when j <= k. */
  lemma {:induction false} WindowsNest(s: seq<real>, j: nat, k: nat)
    requires |s| > 0 && 0 < j <= k
    ensures SeqMax(Window(s, j)) <= SeqMax(Window(s, k))
    ensures SeqMin(Window(s, k)) <= SeqMin(Window(s, j))
  {
    var wj, wk := Window(s, j), Window(s, k);
    SeqMaxIsMax(wj);
    SeqMaxIsMax(wk);
    SeqMinIsMin(wj);
    SeqMinIsMin(wk);
    var a :| 0 <= a < |wj| && wj[a] == SeqMax(wj);
    ElementOfNestedWindow(s, j, k, a);
    var b :| 0 <= b < |wj| && wj[b] == SeqMin(wj);
    ElementOfNestedWindow(s, j, k, b);
  }

  /** Entry `a` of the shorter window is the entry at the same distance from the
      end in the longer one. */
  lemma {:induction false} ElementOfNestedWindow(s: seq<real>, j: nat, k: nat, a: nat)
    requires 0 < j <= k && a < |Window(s, j)|
    ensures |Window(s, j)| <= |Window(s, k)|
    ensures Window(s, j)[a] == Window(s, k)[|Window(s, k)| - |Window(s, j)| + a]
  {
    var wj, wk := Window(s, j), Window(s, k);
    assert wj[a] == s[|s| - |wj| + a];
    assert wk[|wk| - |wj| + a] == s[|s| - |wk| + (|wk| - |wj| + a)];
  }

  /** Over the 9-, 26- and 52-bar windows the highest high never falls and
      the lowest low never rises. */
  lemma {:induction false} NestedExtremes(high: seq<real>, low: seq<real>)
    requires |high| > 0 && |low| > 0
    ensures SeqMax(Window(high, TenkanPeriod)) <= SeqMax(Window(high, KijunPeriod)) <= SeqMax(Window(high, SenkouBPeriod))
    ensures SeqMin(Window(low, SenkouBPeriod)) <= SeqMin(Window(low, KijunPeriod)) <= SeqMin(Window(low, TenkanPeriod))
  {
    WindowsNest(high, TenkanPeriod, KijunPeriod);
    WindowsNest(high, KijunPeriod, SenkouBPeriod);
    WindowsNest(low, TenkanPeriod, KijunPeriod);
    WindowsNest(low, KijunPeriod, SenkouBPeriod);
  }

  /** When every bar's low is at most its high, a line lies between the lowest
      low and the highest high of its window. */
  lemma {:induction false} MidrangeWithinWindow(high: seq<real>, low: seq<real>, k: nat)
    requires |high| == |low| > 0 && k > 0
    requires forall i :: 0 <= i < |high| ==> low[i] <= high[i]
    ensures SeqMin(Window(low, k)) <= Midrange(high, low, k) <= SeqMax(Window(high, k))
  {
    var wh, wl := Window(high, k), Window(low, k);
    var n := |high|;
    SeqMaxIsMax(wh);
    SeqMinIsMin(wl);
    assert wh[|wh| - 1] == high[n - 1];
    assert wl[|wl| - 1] == low[n - 1];
    assert SeqMin(wl) <= low[n - 1] <= high[n - 1] <= SeqMax(wh);
  }

  /** Tenkan, Kijun and Span B each lie within their own window's range, and
      Span A lies between Tenkan and Kijun. */
  lemma {:induction false} CloudWithinRange(high: seq<real>, low: seq<real>)
    requires |high| == |low| > 0
    requires forall i :: 0 <= i < |high| ==> low[i] <= high[i]
    ensures var c := CloudOf(high, low);
      && SeqMin(Window(low, TenkanPeriod)) <= c.tenkanSen <= SeqMax(Window(high, TenkanPeriod))
      && SeqMin(Window(low, KijunPeriod)) <= c.kijunSen <= SeqMax(Window(high, KijunPeriod))
      && SeqMin(Window(low, SenkouBPeriod)) <= c.senkouSpanB <= SeqMax(Window(high, SenkouBPeriod))
      && MinReal(c.tenkanSen, c.kijunSen) <= c.senkouSpanA <= MaxReal(c.tenkanSen, c.kijunSen)
  {
    MidrangeWithinWindow(high, low, TenkanPeriod);
    MidrangeWithinWindow(high, low, KijunPeriod);
    MidrangeWithinWindow(high, low, SenkouBPeriod);
  }

  /** Over a non-decreasing series the window's highest value is the last one
      and its lowest is the first one of the window. */
  lemma {:induction false} SortedWindowExtremes(s: seq<real>, k: nat)
    requires |s| > 0 && k > 0
    requires forall i, j :: 0 <= i <= j < |s| ==> s[i] <= s[j]
    ensures SeqMax(Window(s, k)) == s[|s| - 1]
    ensures SeqMin(Window(s, k)) == s[|s| - Min(k, |s|)]
  {
    WindowMaxUnique(s, k);
    WindowMinUnique(s, k);
    assert IsWindowMax(s[|s| - 1], s, k);
    assert IsWindowMin(s[|s| - Min(k, |s|)], s, k);
  }

  /** 52 rising bars with highs 1..52 and lows 0..51: Tenkan is (52 + 43) / 2,
      Kijun (52 + 26) / 2, Span B (52 + 0) / 2 and Span A their mean. */
  lemma {:induction false} RisingSeriesCloud(high: seq<real>, low: seq<real>)
    requires |high| == |low| == 52
    requires forall i :: 0 <= i < 52 ==> high[i] == (i + 1) as real && low[i] == i as real
    ensures CloudOf(high, low) == Cloud(47.5, 39.0, 43.25, 26.0)
  {
    RisingLine(high, low, TenkanPeriod);
    RisingLine(high, low, KijunPeriod);
    RisingLine(high, low, SenkouBPeriod);
  }

  /** On that rising series the line over the last k bars is (52 + (52 - k)) / 2. */
  lemma {:induction false} RisingLine(high: seq<real>, low: seq<real>, k: nat)
    requires |high| == |low| == 52 && 0 < k <= 52
    requires forall i :: 0 <= i < 52 ==> high[i] == (i + 1) as real && low[i] == i as real
    ensures Midrange(high, low, k) == (104 - k) as real / 2.0
  {
    assert forall i, j :: 0 <= i <= j < |high| ==> high[i] <= high[j];
    assert forall i, j :: 0 <= i <= j < |low| ==> low[i] <= low[j];
    SortedWindowExtremes(high, k);
    SortedWindowExtremes(low, k);
    assert Min(k, 52) == k;
    assert low[52 - k] == (52 - k) as real;
  }
}
