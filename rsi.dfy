/** The single-point Relative Strength Index of `calculateRSI`
    (server/index.js:176-195): only the last `period` price changes are looked at. */
module RelativeStrength {

  /** `closes[i] - closes[i - 1]`. */
  function Change(closes: seq<real>, i: nat): real
    requires 1 <= i < |closes|
  {
    closes[i] - closes[i - 1]
  }

  /** What the change at `i` adds to `gains`: the change when it is positive. */
  function Gain(closes: seq<real>, i: nat): real
    requires 1 <= i < |closes|
  {
    if Change(closes, i) > 0.0 then Change(closes, i) else 0.0
  }

  /** What `losses -= change` adds to `losses`: minus the change when it is not positive. */
  function Loss(closes: seq<real>, i: nat): real
    requires 1 <= i < |closes|
  {
    if Change(closes, i) > 0.0 then 0.0 else -Change(closes, i)
  }

  /** `gains` after the loop has visited the indexes `lo .. hi - 1`. */
  function Gains(closes: seq<real>, lo: nat, hi: nat): (g: real)
    requires 1 <= lo <= hi <= |closes|
    ensures g >= 0.0
    decreases hi - lo
  {
    if hi == lo then 0.0 else Gains(closes, lo, hi - 1) + Gain(closes, hi - 1)
  }

  /** `losses` after the loop has visited the indexes `lo .. hi - 1`. */
  function Losses(closes: seq<real>, lo: nat, hi: nat): (l: real)
    requires 1 <= lo <= hi <= |closes|
    ensures l >= 0.0
    decreases hi - lo
  {
    if hi == lo then 0.0 else Losses(closes, lo, hi - 1) + Loss(closes, hi - 1)
  }

  /** Lines 189-194: from the two totals to the index. */
  function FromTotals(gains: real, losses: real, period: nat): real
    requires gains >= 0.0 && losses >= 0.0 && period >= 1
  {
    var avgGain := gains / period as real;
    var avgLoss := losses / period as real;
    if avgLoss == 0.0 then 100.0
    else
      var rs := avgGain / avgLoss;
      100.0 - 100.0 / (1.0 + rs)
  }

  /** The index the source returns for `closes` and `period`. */
  function Rsi(closes: seq<real>, period: nat): real
    requires period >= 1
  {
    var n := |closes|;
    if n < period + 1 then 50.0
    else FromTotals(Gains(closes, n - period, n), Losses(closes, n - period, n), period)
  }

  /** `calculateRSI(closes, period)`. */
  method CalculateRSI(closes: seq<real>, period: nat) returns (r: real)
    requires period >= 1
    ensures r == Rsi(closes, period)
    ensures 0.0 <= r <= 100.0
    ensures |closes| < period + 1 ==> r == 50.0
  {
    var n := |closes|;
    if n < period + 1 {
      return 50.0;
    }
    var gains, losses := 0.0, 0.0;
    for i := n - period to n
      invariant gains == Gains(closes, n - period, i)
      invariant losses == Losses(closes, n - period, i)
    {
      var change := closes[i] - closes[i - 1];
      if change > 0.0 {
        gains := gains + change;
      } else {
        losses := losses - change;
      }
    }
    var avgGain := gains / period as real;
    var avgLoss := losses / period as real;
    if avgLoss == 0.0 {
      r := 100.0;
    } else {
      var rs := avgGain / avgLoss;
      r := 100.0 - 100.0 / (1.0 + rs);
    }
    assert r == FromTotals(gains, losses, period);
    RsiBounds(closes, period);
  }

  /** With some loss in the window the index is `100 * gains / (gains + losses)`,
      strictly below 100; with none it is exactly 100. */
  lemma FromTotalsClosedForm(gains: real, losses: real, period: nat)
    requires gains >= 0.0 && losses >= 0.0 && period >= 1
    ensures losses == 0.0 ==> FromTotals(gains, losses, period) == 100.0
    ensures losses > 0.0 ==> FromTotals(gains, losses, period) == 100.0 * gains / (gains + losses)
    ensures losses > 0.0 ==> 0.0 <= FromTotals(gains, losses, period) < 100.0
  {
    var p := period as real;
    if losses > 0.0 {
      var avgGain, avgLoss := gains / p, losses / p;
      var rs := avgGain / avgLoss;
      var t := gains + losses;
      assert rs * losses == gains by {
        DivMul(avgGain, avgLoss);
        DivMul(gains, p);
        DivMul(losses, p);
        assert rs * avgLoss * p == avgGain * p;
      }
      var q := 100.0 / (1.0 + rs);
      assert q == 100.0 * losses / t by {
        DivMul(100.0, 1.0 + rs);
        assert t == losses * (1.0 + rs);
        assert q * t == q * (1.0 + rs) * losses;
        DivIff(q, 100.0 * losses, t);
      }
      assert 100.0 - q == 100.0 * gains / t by {
        DivMul(100.0 * losses, t);
        assert (100.0 - q) * t == 100.0 * gains;
        DivIff(100.0 - q, 100.0 * gains, t);
      }
      assert 100.0 * gains / t < 100.0 by {
        DivIff(100.0 * gains / t, 100.0 * gains, t);
      }
    }
  }

  lemma DivMul(x: real, y: real)
    requires y != 0.0
    ensures x / y * y == x
  {
  }

  lemma DivIff(x: real, y: real, z: real)
    requires z > 0.0
    ensures x == y / z <==> x * z == y
    ensures y >= 0.0 ==> y / z >= 0.0
    ensures y < 100.0 * z ==> y / z < 100.0
  {
  }

  /** The index always lies in [0, 100]. */
  lemma RsiBounds(closes: seq<real>, period: nat)
    requires period >= 1
    ensures 0.0 <= Rsi(closes, period) <= 100.0
  {
    var n := |closes|;
    if n >= period + 1 {
      FromTotalsClosedForm(Gains(closes, n - period, n), Losses(closes, n - period, n), period);
    }
  }

  /** The loss total is 0 exactly when no price in the window falls. */
  lemma {:induction false} LossesZero(closes: seq<real>, lo: nat, hi: nat)
    requires 1 <= lo <= hi <= |closes|
    ensures Losses(closes, lo, hi) == 0.0 <==> forall i :: lo <= i < hi ==> closes[i - 1] <= closes[i]
  {
    if hi > lo {
      LossesZero(closes, lo, hi - 1);
    }
  }

  /** Given enough history, the index is 100 exactly when no price of the last
      `period` steps falls; a flat or rising window gives 100. */
  lemma RsiHundredIff(closes: seq<real>, period: nat)
    requires period >= 1 && |closes| >= period + 1
    ensures Rsi(closes, period) == 100.0 <==>
      forall i :: |closes| - period <= i < |closes| ==> closes[i - 1] <= closes[i]
  {
    var n := |closes|;
    LossesZero(closes, n - period, n);
    FromTotalsClosedForm(Gains(closes, n - period, n), Losses(closes, n - period, n), period);
  }

  /** The totals telescope: gains minus losses is the net move over the window. */
  lemma {:induction false} NetMove(closes: seq<real>, lo: nat, hi: nat)
    requires 1 <= lo <= hi <= |closes|
    ensures Gains(closes, lo, hi) - Losses(closes, lo, hi) == closes[hi - 1] - closes[lo - 1]
  {
    if hi > lo {
      NetMove(closes, lo, hi - 1);
    }
  }

  lemma {:induction false} TotalsShift(closes: seq<real>, d: nat, lo: nat, hi: nat)
    requires d < lo <= hi <= |closes|
    ensures Gains(closes[d..], lo - d, hi - d) == Gains(closes, lo, hi)
    ensures Losses(closes[d..], lo - d, hi - d) == Losses(closes, lo, hi)
    decreases hi - lo
  {
    if hi > lo {
      TotalsShift(closes, d, lo, hi - 1);
      assert Change(closes[d..], hi - 1 - d) == Change(closes, hi - 1);
    }
  }

  /** Only the last `period + 1` closes matter: the index is a single-point
      value at the end of the series, not a running one. */
  lemma RsiLastWindowOnly(closes: seq<real>, period: nat)
    requires period >= 1 && |closes| >= period + 1
    ensures Rsi(closes, period) == Rsi(closes[|closes| - period - 1 ..], period)
  {
    var n := |closes|;
    TotalsShift(closes, n - period - 1, n - period, n);
  }
}
