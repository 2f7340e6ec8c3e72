/** The simple moving average of `calculateMA` (server/index.js:163-174). */
module MovingAverage {
  import opened Wrappers

  /** `slice.reduce((a, b) => a + b, 0)`: a left fold of `+` starting from 0. */
  function Sum(s: seq<real>): real
  {
    if s == [] then 0.0 else Sum(s[..|s| - 1]) + s[|s| - 1]
  }

  /** Slot `i` of the series: `null` while fewer than `period` values end at
      `i`, the mean of the trailing window otherwise. */
  function Slot(data: seq<real>, i: nat, period: nat): Option<real>
    requires period >= 1 && i < |data|
  {
    if i < period - 1 then None
    else Some(Sum(data[i - period + 1 .. i + 1]) / period as real)
  }

  /** The whole series, one slot per input value. */
  function Series(data: seq<real>, period: nat): seq<Option<real>>
    requires period >= 1
  {
    seq(|data|, i requires 0 <= i < |data| => Slot(data, i, period))
  }

  /** `calculateMA(data, period)`: pushes one slot per input value. */
  method CalculateMA(data: seq<real>, period: nat) returns (ma: seq<Option<real>>)
    requires period >= 1
    ensures |ma| == |data|
    ensures forall i :: 0 <= i < |ma| ==> (ma[i].None? <==> i < period - 1)
    ensures forall i :: period - 1 <= i < |ma| ==>
      ma[i] == Some(Sum(data[i - period + 1 .. i + 1]) / period as real)
    ensures ma == Series(data, period)
  {
    ma := [];
    for i := 0 to |data|
      invariant |ma| == i
      invariant forall j :: 0 <= j < i ==> ma[j] == Slot(data, j, period)
    {
      if i < period - 1 {
        ma := ma + [None];
      } else {
        var sum := Sum(data[i - period + 1 .. i + 1]);
        ma := ma + [Some(sum / period as real)];
      }
    }
  }

  lemma {:induction false} SumAppend(s: seq<real>, t: seq<real>)
    ensures Sum(s + t) == Sum(s) + Sum(t)
  {
    if t != [] {
      assert (s + t)[..|s + t| - 1] == s + t[..|t| - 1];
      SumAppend(s, t[..|t| - 1]);
    } else {
      assert s + t == s;
    }
  }

  lemma SumSingleton(x: real)
    ensures Sum([x]) == x
  {
    assert [x][..0] == [];
  }

  /** Moving the window one step right adds the entering value and drops the
      leaving one. */
  lemma SumSlide(data: seq<real>, k: nat, period: nat)
    requires period >= 1 && k + period < |data|
    ensures Sum(data[k + 1 .. k + period + 1]) == Sum(data[k .. k + period]) - data[k] + data[k + period]
  {
    assert data[k .. k + period] == [data[k]] + data[k + 1 .. k + period];
    assert data[k + 1 .. k + period + 1] == data[k + 1 .. k + period] + [data[k + period]];
    SumAppend([data[k]], data[k + 1 .. k + period]);
    SumAppend(data[k + 1 .. k + period], [data[k + period]]);
    SumSingleton(data[k]);
    SumSingleton(data[k + period]);
  }

  /** Two neighbouring defined slots differ by the entering value minus the
      leaving value, divided by the window: the incremental form of the
      moving average, independent of how each slot is summed. */
  lemma SeriesSlide(data: seq<real>, period: nat, i: nat)
    requires period >= 1 && period - 1 <= i && i + 1 < |data|
    ensures Series(data, period)[i].Some? && Series(data, period)[i + 1].Some?
    ensures Series(data, period)[i + 1].value ==
      Series(data, period)[i].value + (data[i + 1] - data[i + 1 - period]) / period as real
  {
    var k := i + 1 - period;
    SumSlide(data, k, period);
    var p := period as real;
    var a, b := Sum(data[k .. k + period]), Sum(data[k + 1 .. k + period + 1]);
    assert b == a + (data[i + 1] - data[k]);
    assert b / p == a / p + (data[i + 1] - data[k]) / p;
  }

  lemma {:induction false} SumBounds(s: seq<real>, lo: real, hi: real)
    requires forall j :: 0 <= j < |s| ==> lo <= s[j] <= hi
    ensures |s| as real * lo <= Sum(s) <= |s| as real * hi
  {
    if s != [] {
      SumBounds(s[..|s| - 1], lo, hi);
    }
  }

  /** A defined slot lies between the smallest and the largest value of its window. */
  lemma SlotBounds(data: seq<real>, period: nat, i: nat, lo: real, hi: real)
    requires period >= 1 && period - 1 <= i < |data|
    requires forall j :: i + 1 - period <= j <= i ==> lo <= data[j] <= hi
    ensures Series(data, period)[i].Some?
    ensures lo <= Series(data, period)[i].value <= hi
  {
    var w := data[i - period + 1 .. i + 1];
    SumBounds(w, lo, hi);
    var p := period as real;
    assert p * lo <= Sum(w) <= p * hi;
    assert Sum(w) / p >= lo by {
      assert Sum(w) / p * p == Sum(w);
    }
    assert Sum(w) / p <= hi by {
      assert Sum(w) / p * p == Sum(w);
    }
  }

  /** A constant series averages to the same constant wherever it is defined. */
  lemma ConstantSeries(data: seq<real>, period: nat, c: real)
    requires period >= 1
    requires forall j :: 0 <= j < |data| ==> data[j] == c
    ensures forall i :: period - 1 <= i < |data| ==> Series(data, period)[i] == Some(c)
  {
    forall i | period - 1 <= i < |data|
      ensures Series(data, period)[i] == Some(c)
    {
      SlotBounds(data, period, i, c, c);
    }
  }

  lemma {:induction false} SumPositive(s: seq<real>)
    requires s != []
    requires forall j :: 0 <= j < |s| ==> s[j] > 0.0
    ensures Sum(s) > 0.0
  {
    if |s| > 1 {
      SumPositive(s[..|s| - 1]);
    } else {
      SumSingleton(s[0]);
    }
  }

  /** A defined slot over positive values is positive. */
  lemma SlotPositive(data: seq<real>, period: nat, i: nat)
    requires period >= 1 && period - 1 <= i < |data|
    requires forall j :: 0 <= j < |data| ==> data[j] > 0.0
    ensures Series(data, period)[i].Some? && Series(data, period)[i].value > 0.0
  {
    SumPositive(data[i - period + 1 .. i + 1]);
  }
}
