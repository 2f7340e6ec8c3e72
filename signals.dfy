/** The buy/sell/hold decision of `calculateSignals` (server/index.js:103-160). */
module SignalEngine {
  import opened Wrappers
  import opened JsValues
  import MovingAverage
  import RelativeStrength

  /** One price bar as the data provider delivers it; only `close` is read here. */
  datatype Quote = Quote(date: int, open: Option<real>, high: Option<real>, low: Option<real>,
                         close: Option<real>, volume: Option<int>)

  datatype Signal = Buy | Sell | Hold

  /** The rationale; the source writes it as a fixed Korean sentence per case,
      with the index rounded to one decimal in the two index cases. */
  datatype Reason = InsufficientData | GoldenCross | DeadCross | Oversold(rsi: real) | Overbought(rsi: real) | NoSignal

  /** The indicator snapshot; the averages and the price are whatever the
      array lookups at lines 114-116 produce, `null` and `undefined` included. */
  datatype Indicators = Indicators(ma5: JsValue, ma20: JsValue, rsi: real, price: JsValue)

  /** `indicators` is absent exactly in the insufficient-data answer. */
  datatype SignalResult = SignalResult(signal: Signal, reason: Reason, indicators: Option<Indicators>)

  const MinQuotes: nat := 20
  const ShortWindow: nat := 5
  const LongWindow: nat := 20
  const RsiPeriod: nat := 14
  const OversoldLevel: real := 30.0
  const OverboughtLevel: real := 70.0

  /** `quotes.map(q => q.close).filter(c => c != null)`. */
  function Closes(quotes: seq<Quote>): seq<real>
  {
    if quotes == [] then []
    else
      (match quotes[0].close
       case Some(c) => [c]
       case None => []) + Closes(quotes[1..])
  }

  /** The bars whose close is present, in their original order. */
  function StripNulls(quotes: seq<Quote>): seq<Quote>
  {
    if quotes == [] then []
    else (if quotes[0].close.Some? then [quotes[0]] else []) + StripNulls(quotes[1..])
  }

  /** The five values the rules look at (lines 115-121). */
  datatype Snapshot = Snapshot(prevMA5: JsValue, prevMA20: JsValue,
                               currentMA5: JsValue, currentMA20: JsValue, rsi: real)

  function SnapshotOf(closes: seq<real>): Snapshot
  {
    var ma5 := MovingAverage.Series(closes, ShortWindow);
    var ma20 := MovingAverage.Series(closes, LongWindow);
    Snapshot(SlotAt(ma5, |ma5| - 2), SlotAt(ma20, |ma20| - 2),
             SlotAt(ma5, |ma5| - 1), SlotAt(ma20, |ma20| - 1),
             RelativeStrength.Rsi(closes, RsiPeriod))
  }

  /** Line 127: the short average rises from at-or-below to strictly above the long one. */
  predicate GoldenCrossHolds(s: Snapshot)
  {
    JsLe(s.prevMA5, s.prevMA20) && JsGt(s.currentMA5, s.currentMA20)
  }

  /** Line 132: the short average falls from at-or-above to strictly below the long one. */
  predicate DeadCrossHolds(s: Snapshot)
  {
    JsGe(s.prevMA5, s.prevMA20) && JsLt(s.currentMA5, s.currentMA20)
  }

  /** The decision rules as an ordered list; the first that fires decides. */
  datatype Rule = GoldenCrossRule | DeadCrossRule | OversoldRule | OverboughtRule

  const Rules: seq<Rule> := [GoldenCrossRule, DeadCrossRule, OversoldRule, OverboughtRule]

  predicate Fires(rule: Rule, s: Snapshot)
  {
    match rule
    case GoldenCrossRule => GoldenCrossHolds(s)
    case DeadCrossRule => DeadCrossHolds(s)
    case OversoldRule => s.rsi < OversoldLevel
    case OverboughtRule => s.rsi > OverboughtLevel
  }

  function Verdict(rule: Rule, s: Snapshot): (Signal, Reason)
  {
    match rule
    case GoldenCrossRule => (Buy, GoldenCross)
    case DeadCrossRule => (Sell, DeadCross)
    case OversoldRule => (Buy, Oversold(s.rsi))
    case OverboughtRule => (Sell, Overbought(s.rsi))
  }

  /** First match wins; when nothing fires the answer is a plain HOLD. */
  function FirstMatch(rules: seq<Rule>, s: Snapshot): (Signal, Reason)
  {
    if rules == [] then (Hold, NoSignal)
    else if Fires(rules[0], s) then Verdict(rules[0], s)
    else FirstMatch(rules[1..], s)
  }

  /** What the engine answers for `quotes`. */
  function Signals(quotes: seq<Quote>): SignalResult
  {
    if |quotes| < MinQuotes then SignalResult(Hold, InsufficientData, None)
    else
      var closes := Closes(quotes);
      var s := SnapshotOf(closes);
      var v := FirstMatch(Rules, s);
      SignalResult(v.0, v.1, Some(Indicators(s.currentMA5, s.currentMA20, s.rsi,
                                             NumberAt(closes, |closes| - 1))))
  }

  /** `calculateSignals(quotes)`: the length guard, the two averages, the
      index, then the if/else-if chain over the locals `signal` and `reason`. */
  method CalculateSignals(quotes: seq<Quote>) returns (r: SignalResult)
    ensures r == Signals(quotes)
  {
    if |quotes| < MinQuotes {
      return SignalResult(Hold, InsufficientData, None);
    }
    var closes := Closes(quotes);
    var ma5 := MovingAverage.CalculateMA(closes, ShortWindow);
    var ma20 := MovingAverage.CalculateMA(closes, LongWindow);

    var currentPrice := NumberAt(closes, |closes| - 1);
    var currentMA5 := SlotAt(ma5, |ma5| - 1);
    var currentMA20 := SlotAt(ma20, |ma20| - 1);
    var prevMA5 := SlotAt(ma5, |ma5| - 2);
    var prevMA20 := SlotAt(ma20, |ma20| - 2);

    var rsi := RelativeStrength.CalculateRSI(closes, RsiPeriod);

    var signal := Hold;
    var reason: Reason;
    if JsLe(prevMA5, prevMA20) && JsGt(currentMA5, currentMA20) {
      signal := Buy;
      reason := GoldenCross;
    } else if JsGe(prevMA5, prevMA20) && JsLt(currentMA5, currentMA20) {
      signal := Sell;
      reason := DeadCross;
    } else if rsi < OversoldLevel {
      signal := Buy;
      reason := Oversold(rsi);
    } else if rsi > OverboughtLevel {
      signal := Sell;
      reason := Overbought(rsi);
    } else {
      reason := NoSignal;
    }
    ghost var s := Snapshot(prevMA5, prevMA20, currentMA5, currentMA20, rsi);
    assert s == SnapshotOf(closes);
    FirstMatchUnrolled(s);
    r := SignalResult(signal, reason, Some(Indicators(currentMA5, currentMA20, rsi, currentPrice)));
  }

  /** The rule list read as an if/else-if chain. */
  lemma FirstMatchUnrolled(s: Snapshot)
    ensures FirstMatch(Rules, s) ==
      if GoldenCrossHolds(s) then (Buy, GoldenCross)
      else if DeadCrossHolds(s) then (Sell, DeadCross)
      else if s.rsi < OversoldLevel then (Buy, Oversold(s.rsi))
      else if s.rsi > OverboughtLevel then (Sell, Overbought(s.rsi))
      else (Hold, NoSignal)
  {
    var r1, r2, r3 := Rules[1..], Rules[2..], Rules[3..];
    assert r1 == [DeadCrossRule, OversoldRule, OverboughtRule] && r1[1..] == r2;
    assert r2 == [OversoldRule, OverboughtRule] && r2[1..] == r3;
    assert r3 == [OverboughtRule] && r3[1..] == [];
    assert FirstMatch(r3, s) == if s.rsi > OverboughtLevel then (Sell, Overbought(s.rsi)) else (Hold, NoSignal);
    assert FirstMatch(r2, s) == if s.rsi < OversoldLevel then (Buy, Oversold(s.rsi)) else FirstMatch(r3, s);
    assert FirstMatch(r1, s) == if DeadCrossHolds(s) then (Sell, DeadCross) else FirstMatch(r2, s);
  }

  /** The verdict is that of the first rule that fires... */
  lemma {:induction false} FirstMatchFirstFiring(rules: seq<Rule>, s: Snapshot, k: nat)
    requires k < |rules| && Fires(rules[k], s)
    requires forall j :: 0 <= j < k ==> !Fires(rules[j], s)
    ensures FirstMatch(rules, s) == Verdict(rules[k], s)
  {
    if k > 0 {
      assert !Fires(rules[0], s);
      FirstMatchFirstFiring(rules[1..], s, k - 1);
    }
  }

  /** ...and HOLD with no signal when none fires. */
  lemma {:induction false} FirstMatchNoneFires(rules: seq<Rule>, s: Snapshot)
    requires forall j :: 0 <= j < |rules| ==> !Fires(rules[j], s)
    ensures FirstMatch(rules, s) == (Hold, NoSignal)
  {
    if rules != [] {
      assert !Fires(rules[0], s);
      FirstMatchNoneFires(rules[1..], s);
    }
  }

  /** The two crossover conditions never hold together. */
  lemma CrossesExclusive(s: Snapshot)
    ensures !(GoldenCrossHolds(s) && DeadCrossHolds(s))
  {
    GtLtExclusive(s.currentMA5, s.currentMA20);
  }

  /** The guard is on the number of bars: fewer than 20 gives the
      insufficient-data HOLD without indicators, and only then. */
  lemma InsufficientDataIff(quotes: seq<Quote>)
    ensures |quotes| < MinQuotes ==> Signals(quotes) == SignalResult(Hold, InsufficientData, None)
    ensures Signals(quotes).indicators.None? <==> |quotes| < MinQuotes
    ensures Signals(quotes).reason == InsufficientData <==> |quotes| < MinQuotes
  {
    if |quotes| >= MinQuotes {
      FirstMatchUnrolled(SnapshotOf(Closes(quotes)));
    }
  }

  /** Rule priority, first half: a crossover decides whatever the index says. */
  lemma CrossoverDecides(quotes: seq<Quote>)
    requires |quotes| >= MinQuotes
    ensures var s, r := SnapshotOf(Closes(quotes)), Signals(quotes);
      && (r.reason == GoldenCross <==> GoldenCrossHolds(s))
      && (GoldenCrossHolds(s) ==> r.signal == Buy)
      && (r.reason == DeadCross <==> DeadCrossHolds(s))
      && (DeadCrossHolds(s) ==> r.signal == Sell)
  {
    var s := SnapshotOf(Closes(quotes));
    FirstMatchUnrolled(s);
    CrossesExclusive(s);
  }

  /** Rule priority, second half: the index thresholds decide only when
      neither crossover holds. */
  lemma IndexRulesWithoutCross(quotes: seq<Quote>)
    requires |quotes| >= MinQuotes
    ensures var s, r := SnapshotOf(Closes(quotes)), Signals(quotes);
      var noCross := !GoldenCrossHolds(s) && !DeadCrossHolds(s);
      && (r.reason.Oversold? <==> noCross && s.rsi < OversoldLevel)
      && (r.reason.Overbought? <==> noCross && s.rsi > OverboughtLevel)
      && (r.reason == NoSignal <==> noCross && OversoldLevel <= s.rsi <= OverboughtLevel)
  {
    FirstMatchUnrolled(SnapshotOf(Closes(quotes)));
  }

  /** The signal and the reason always agree, and an index reason carries the
      reported index. */
  lemma SignalMatchesReason(quotes: seq<Quote>)
    ensures var r := Signals(quotes);
      && (r.signal == Buy <==> r.reason == GoldenCross || r.reason.Oversold?)
      && (r.signal == Sell <==> r.reason == DeadCross || r.reason.Overbought?)
      && (r.signal == Hold <==> r.reason == InsufficientData || r.reason == NoSignal)
      && (r.reason.Oversold? ==> r.indicators.Some? && r.reason.rsi == r.indicators.value.rsi < OversoldLevel)
      && (r.reason.Overbought? ==> r.indicators.Some? && r.reason.rsi == r.indicators.value.rsi > OverboughtLevel)
  {
    if |quotes| >= MinQuotes {
      FirstMatchUnrolled(SnapshotOf(Closes(quotes)));
    }
  }

  /** `sum(closes[i - w + 1 .. i]) / w`, written independently of the series. */
  function TrailingMean(closes: seq<real>, i: nat, w: nat): real
    requires 1 <= w <= i + 1 <= |closes|
  {
    MovingAverage.Sum(closes[i + 1 - w .. i + 1]) / w as real
  }

  /** The snapshot read off long enough a series: plain numbers throughout. */
  lemma SnapshotOfLongSeries(closes: seq<real>)
    requires |closes| >= LongWindow + 1
    ensures var n, s := |closes|, SnapshotOf(closes);
      && s.prevMA5 == Num(TrailingMean(closes, n - 2, ShortWindow))
      && s.prevMA20 == Num(TrailingMean(closes, n - 2, LongWindow))
      && s.currentMA5 == Num(TrailingMean(closes, n - 1, ShortWindow))
      && s.currentMA20 == Num(TrailingMean(closes, n - 1, LongWindow))
      && 0.0 <= s.rsi <= 100.0
  {
    RelativeStrength.RsiBounds(closes, RsiPeriod);
  }

  /** With at least 21 closes the crossovers compare real averages only. */
  lemma CrossoverOnAverages(quotes: seq<Quote>)
    requires |quotes| >= MinQuotes && |Closes(quotes)| >= LongWindow + 1
    ensures var c := Closes(quotes); var n, s := |c|, SnapshotOf(c);
      && (GoldenCrossHolds(s) <==>
            TrailingMean(c, n - 2, ShortWindow) <= TrailingMean(c, n - 2, LongWindow) &&
            TrailingMean(c, n - 1, ShortWindow) > TrailingMean(c, n - 1, LongWindow))
      && (DeadCrossHolds(s) <==>
            TrailingMean(c, n - 2, ShortWindow) >= TrailingMean(c, n - 2, LongWindow) &&
            TrailingMean(c, n - 1, ShortWindow) < TrailingMean(c, n - 1, LongWindow))
  {
    SnapshotOfLongSeries(Closes(quotes));
  }

  /** Past the guard with at least 20 closes, the indicators are the last
      short and long averages, the index and the last close. */
  lemma IndicatorsAtEnd(quotes: seq<Quote>)
    requires |quotes| >= MinQuotes && |Closes(quotes)| >= LongWindow
    ensures var c := Closes(quotes); var n := |c|;
      Signals(quotes).indicators == Some(Indicators(
        Num(TrailingMean(c, n - 1, ShortWindow)), Num(TrailingMean(c, n - 1, LongWindow)),
        RelativeStrength.Rsi(c, RsiPeriod), Num(c[n - 1])))
    ensures 0.0 <= Signals(quotes).indicators.value.rsi <= 100.0
  {
    RelativeStrength.RsiBounds(Closes(quotes), RsiPeriod);
  }

  /** Twenty bars without a single close: every lookup is `undefined`, every
      comparison false, the index neutral, so the answer is a plain HOLD. */
  lemma AllClosesMissing(quotes: seq<Quote>)
    requires |quotes| >= MinQuotes && Closes(quotes) == []
    ensures Signals(quotes) == SignalResult(Hold, NoSignal,
      Some(Indicators(Undefined, Undefined, 50.0, Undefined)))
  {
    FirstMatchUnrolled(SnapshotOf([]));
  }

  /** Exactly 20 positive closes: the previous long average is `null`, which
      compares as 0, so a golden cross can never fire and a dead cross fires
      whenever the short average is below the long one. */
  lemma TwentyClosesCompareWithZero(quotes: seq<Quote>)
    requires |quotes| >= MinQuotes && |Closes(quotes)| == LongWindow
    requires forall j :: 0 <= j < |Closes(quotes)| ==> Closes(quotes)[j] > 0.0
    ensures var c := Closes(quotes); var s := SnapshotOf(c);
      && s.prevMA20 == Null
      && !GoldenCrossHolds(s)
      && (DeadCrossHolds(s) <==> TrailingMean(c, 19, ShortWindow) < TrailingMean(c, 19, LongWindow))
  {
    MovingAverage.SlotPositive(Closes(quotes), ShortWindow, 18);
  }

  /** Exactly 5 positive closes: both previous averages are `null` (0 <= 0) and
      the current long one is `null` (0), so a golden cross always fires. */
  lemma FiveClosesGoldenCross(quotes: seq<Quote>)
    requires |quotes| >= MinQuotes && |Closes(quotes)| == ShortWindow
    requires forall j :: 0 <= j < |Closes(quotes)| ==> Closes(quotes)[j] > 0.0
    ensures Signals(quotes).signal == Buy && Signals(quotes).reason == GoldenCross
  {
    var c := Closes(quotes);
    MovingAverage.SlotPositive(c, ShortWindow, 4);
    FirstMatchUnrolled(SnapshotOf(c));
  }

  /** Any other number of positive closes below 20: no crossover can fire, so
      only the index thresholds decide. */
  lemma ShortSeriesNoCross(quotes: seq<Quote>)
    requires |quotes| >= MinQuotes && |Closes(quotes)| < LongWindow && |Closes(quotes)| != ShortWindow
    requires forall j :: 0 <= j < |Closes(quotes)| ==> Closes(quotes)[j] > 0.0
    ensures var s := SnapshotOf(Closes(quotes)); !GoldenCrossHolds(s) && !DeadCrossHolds(s)
  {
    var c := Closes(quotes);
    var n := |c|;
    if n >= ShortWindow + 1 {
      MovingAverage.SlotPositive(c, ShortWindow, n - 2);
      MovingAverage.SlotPositive(c, ShortWindow, n - 1);
    }
  }

  lemma {:induction false} ClosesLength(quotes: seq<Quote>)
    ensures |Closes(quotes)| <= |quotes|
  {
    if quotes != [] {
      ClosesLength(quotes[1..]);
    }
  }

  /** Stripping the null bars keeps exactly the closes. */
  lemma {:induction false} ClosesOfStripNulls(quotes: seq<Quote>)
    ensures Closes(StripNulls(quotes)) == Closes(quotes)
    ensures |StripNulls(quotes)| == |Closes(quotes)|
  {
    if quotes != [] {
      ClosesOfStripNulls(quotes[1..]);
      var head := if quotes[0].close.Some? then [quotes[0]] else [];
      ClosesAppend(head, StripNulls(quotes[1..]));
    }
  }

  lemma {:induction false} ClosesAppend(a: seq<Quote>, b: seq<Quote>)
    ensures Closes(a + b) == Closes(a) + Closes(b)
  {
    if a != [] {
      assert (a + b)[1..] == a[1..] + b;
      ClosesAppend(a[1..], b);
    } else {
      assert a + b == b;
    }
  }

  /** The answer depends on the bars only through their number and their closes. */
  lemma OnlyClosesMatter(q1: seq<Quote>, q2: seq<Quote>)
    requires (|q1| < MinQuotes) == (|q2| < MinQuotes)
    requires Closes(q1) == Closes(q2)
    ensures Signals(q1) == Signals(q2)
  {
  }

  /** Because the guard counts bars before nulls are filtered out, removing the
      null bars beforehand changes the answer exactly when it takes the count
      from 20 or more bars to fewer than 20 closes. */
  lemma StripNullsIff(quotes: seq<Quote>)
    ensures Signals(StripNulls(quotes)) == Signals(quotes) <==>
      |quotes| < MinQuotes || |Closes(quotes)| >= MinQuotes
  {
    ClosesOfStripNulls(quotes);
    ClosesLength(quotes);
    InsufficientDataIff(quotes);
    InsufficientDataIff(StripNulls(quotes));
  }

  function Bar(close: Option<real>): Quote
  {
    Quote(0, None, None, None, close, None)
  }

  /** Nineteen closes and one null bar pass the guard and still report indicators. */
  lemma NullBarPassesGuard()
    ensures exists quotes ::
      && |quotes| == MinQuotes && |Closes(quotes)| < MinQuotes
      && Signals(quotes).indicators.Some? && Signals(StripNulls(quotes)).indicators.None?
  {
    var full := seq(19, _ => Bar(Some(1.0)));
    var quotes := full + [Bar(None)];
    ClosesAppend(full, [Bar(None)]);
    assert Closes([Bar(None)]) == [];
    ClosesLength(full);
    StripNullsIff(quotes);
    InsufficientDataIff(quotes);
    ClosesOfStripNulls(quotes);
    InsufficientDataIff(StripNulls(quotes));
  }
}
