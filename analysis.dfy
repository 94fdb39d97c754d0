/** Signal analysis (bot.py, detect_candlestick, detect_double_top_bottom,
    support_resistance and analyze_symbol). The SMA(20), EMA(20) and RSI(14)
    readings of the ta library are inputs: None stands for a failed
    computation and for the NaN a too-short window yields, since every
    comparison with NaN is false. */
module Analysis {
  import opened Wrappers
  import opened Sequences
  import opened Ohlcv

  function Abs(x: real): real
  {
    if x < 0.0 then -x else x
  }

  function MaxReal(a: real, b: real): real
  {
    if a >= b then a else b
  }

  function MinReal(a: real, b: real): real
  {
    if a <= b then a else b
  }

  function Last(bars: seq<Bar>): Bar
    requires bars != []
  {
    bars[|bars| - 1]
  }

  // ---------------------------------------------------------------------
  // Candlestick patterns of the last one or two bars

  /** Guards the Doji ratio against a zero-range bar. */
  const Epsilon: real := 0.000000001

  /** The body is under a tenth of the range. A zero denominator makes numpy
      yield inf or nan, which compare false. */
  predicate IsDoji(b: Bar)
  {
    var range := b.high - b.low + Epsilon;
    range != 0.0 && Abs(b.open - b.close) / range < 0.1
  }

  /** The upper shadow is more than twice the body. */
  predicate IsHammer(b: Bar)
  {
    b.high - MaxReal(b.open, b.close) > 2.0 * (MaxReal(b.open, b.close) - MinReal(b.open, b.close))
  }

  /** A rising bar whose body strictly contains the previous falling body. */
  predicate IsBullishEngulfing(prev: Bar, cur: Bar)
  {
    cur.close > cur.open && prev.close < prev.open && cur.close > prev.open && cur.open < prev.close
  }

  /** Every name detect_candlestick can report, in the order it checks them. */
  const PatternNames: seq<string> := ["Doji", "Hammer", "Bullish Engulfing"]

  /** The names of the patterns found, in the order Doji, Hammer, Bullish
      Engulfing. */
  function PatternsOf(doji: bool, hammer: bool, engulfing: bool): seq<string>
  {
    (if doji then ["Doji"] else []) + (if hammer then ["Hammer"] else []) +
    (if engulfing then ["Bullish Engulfing"] else [])
  }

  /** Each pattern found is named once, in the order Doji, Hammer, Bullish
      Engulfing, and named exactly when its test holds. */
  lemma PatternsInOrder(doji: bool, hammer: bool, engulfing: bool)
    ensures var patterns := PatternsOf(doji, hammer, engulfing);
            (forall p :: p in patterns ==> p in PatternNames) &&
            (forall i, j :: 0 <= i < j < |patterns| ==>
               FirstIndex(PatternNames, patterns[i]) < FirstIndex(PatternNames, patterns[j])) &&
            ("Doji" in patterns <==> doji) &&
            ("Hammer" in patterns <==> hammer) &&
            ("Bullish Engulfing" in patterns <==> engulfing)
  {
    assert FirstIndex(PatternNames, "Doji") == 0;
    assert FirstIndex(PatternNames, "Hammer") == 1;
    assert FirstIndex(PatternNames, "Bullish Engulfing") == 2;
  }

  /** The patterns of the last bar (and the one before); none for an empty
      window, where reading the last row raises and the source returns []. */
  function DetectCandlestick(bars: seq<Bar>): seq<string>
  {
    if bars == [] then []
    else
      var b := Last(bars);
      PatternsOf(IsDoji(b), IsHammer(b), |bars| > 1 && IsBullishEngulfing(bars[|bars| - 2], b))
  }

  /** detect_candlestick reports an in-order subsequence of Doji, Hammer,
      Bullish Engulfing: Doji and Hammer exactly when the last bar has that
      shape, Bullish Engulfing exactly when there are at least two bars and the last
      engulfs the one before. */
  lemma CandlestickPatterns(bars: seq<Bar>)
    ensures var patterns := DetectCandlestick(bars);
            (forall p :: p in patterns ==> p in PatternNames) &&
            (forall i, j :: 0 <= i < j < |patterns| ==>
               FirstIndex(PatternNames, patterns[i]) < FirstIndex(PatternNames, patterns[j])) &&
            ("Doji" in patterns <==> bars != [] && IsDoji(Last(bars))) &&
            ("Hammer" in patterns <==> bars != [] && IsHammer(Last(bars))) &&
            ("Bullish Engulfing" in patterns <==>
               |bars| >= 2 && IsBullishEngulfing(bars[|bars| - 2], Last(bars)))
  {
    if bars != [] {
      var b := Last(bars);
      var engulfing := |bars| > 1 && IsBullishEngulfing(bars[|bars| - 2], b);
      assert engulfing <==> |bars| >= 2 && IsBullishEngulfing(bars[|bars| - 2], Last(bars));
      assert DetectCandlestick(bars) == PatternsOf(IsDoji(b), IsHammer(b), engulfing);
      PatternsInOrder(IsDoji(b), IsHammer(b), engulfing);
    }
  }

  // ---------------------------------------------------------------------
  // Five-bar reversal figure

  /** The last five closes, oldest first. */
  function LastCloses(bars: seq<Bar>): (c: seq<real>)
    requires |bars| >= 5
    ensures |c| == 5
  {
    var n := |bars|;
    [bars[n - 5].close, bars[n - 4].close, bars[n - 3].close, bars[n - 2].close, bars[n - 1].close]
  }

  /** c0 < c1 > c2 < c3 < c4 */
  predicate IsDoubleTop(c: seq<real>)
    requires |c| == 5
  {
    c[0] < c[1] && c[1] > c[2] && c[2] < c[3] && c[3] < c[4]
  }

  /** c0 > c1 < c2 > c3 > c4 */
  predicate IsDoubleBottom(c: seq<real>)
    requires |c| == 5
  {
    c[0] > c[1] && c[1] < c[2] && c[2] > c[3] && c[3] > c[4]
  }

  /** At most one figure: "Double Top" exactly when the last five closes have
      that shape, "Double Bottom" exactly when they have the other (the two
      shapes disagree on c0 versus c1), nothing for fewer than five bars. */
  function DetectDoubleTopBottom(bars: seq<Bar>): (figure: Option<string>)
    ensures |bars| < 5 ==> figure == None
    ensures figure == Some("Double Top") <==> |bars| >= 5 && IsDoubleTop(LastCloses(bars))
    ensures figure == Some("Double Bottom") <==> |bars| >= 5 && IsDoubleBottom(LastCloses(bars))
    ensures figure == None || figure == Some("Double Top") || figure == Some("Double Bottom")
  {
    if |bars| < 5 then None
    else
      var c := LastCloses(bars);
      if IsDoubleTop(c) then Some("Double Top")
      else if IsDoubleBottom(c) then Some("Double Bottom")
      else None
  }

  // ---------------------------------------------------------------------
  // Support and resistance

  /** Length of the rolling window (min_periods=1: shorter windows count). */
  const LevelWindow: nat := 10

  /** The last min(10, n) bars: the window rolling(10, min_periods=1) ends on. */
  function Recent(bars: seq<Bar>): seq<Bar>
  {
    bars[|bars| - Min(LevelWindow, |bars|)..]
  }

  /** The lowest low. */
  function MinLow(bars: seq<Bar>): (m: real)
    requires bars != []
    ensures forall i :: 0 <= i < |bars| ==> m <= bars[i].low
    ensures exists i :: 0 <= i < |bars| && m == bars[i].low
  {
    if |bars| == 1 then bars[0].low
    else
      var m := MinLow(bars[..|bars| - 1]);
      assert forall i :: 0 <= i < |bars| - 1 ==> bars[..|bars| - 1][i] == bars[i];
      if Last(bars).low < m then Last(bars).low else m
  }

  /** The highest high. */
  function MaxHigh(bars: seq<Bar>): (m: real)
    requires bars != []
    ensures forall i :: 0 <= i < |bars| ==> bars[i].high <= m
    ensures exists i :: 0 <= i < |bars| && m == bars[i].high
  {
    if |bars| == 1 then bars[0].high
    else
      var m := MaxHigh(bars[..|bars| - 1]);
      assert forall i :: 0 <= i < |bars| - 1 ==> bars[..|bars| - 1][i] == bars[i];
      if Last(bars).high > m then Last(bars).high else m
  }

  /** (support, resistance): the lowest low and the highest high of the last
      min(10, n) bars. The source raises on an empty window. */
  function SupportResistance(bars: seq<Bar>): (real, real)
    requires bars != []
  {
    var w := Recent(bars);
    (MinLow(w), MaxHigh(w))
  }

  /** The support is the lowest low and the resistance the highest high of
      the window: each bounds every bar of it and is attained by one. */
  lemma LevelsAreExtremes(bars: seq<Bar>)
    requires bars != []
    ensures var levels := SupportResistance(bars);
            var start := |bars| - Min(LevelWindow, |bars|);
            (forall i :: start <= i < |bars| ==> levels.0 <= bars[i].low) &&
            (exists i :: start <= i < |bars| && levels.0 == bars[i].low) &&
            (forall i :: start <= i < |bars| ==> bars[i].high <= levels.1) &&
            (exists i :: start <= i < |bars| && levels.1 == bars[i].high)
  {
    var w := Recent(bars);
    var start := |bars| - Min(LevelWindow, |bars|);
    assert forall i :: start <= i < |bars| ==> bars[i] == w[i - start];
    var k1 :| 0 <= k1 < |w| && MinLow(w) == w[k1].low;
    var k2 :| 0 <= k2 < |w| && MaxHigh(w) == w[k2].high;
    assert bars[start + k1] == w[k1] && bars[start + k2] == w[k2];
  }

  // ---------------------------------------------------------------------
  // Scoring

  datatype Side = Long | Short | Hold

  /** The ta readings for the window; None where the reading is missing or NaN. */
  datatype Indicators = Indicators(sma: Option<real>, ema: Option<real>, rsi: Option<real>)

  /** One analysis line of the report, as a record. The printed line shows
      the symbol, the last close, the "Close:" field, the joined reason text
      and the risk percentage; `side` and `reasons` are extra fields the
      printed line does not show (the side is visible only through the
      "Close:" field and the reason text). */
  datatype Signal = Signal(symbol: string, price: real, side: Side, reasons: seq<string>,
                           reasonText: string, closeIn: string, risk: real)

  /** The momentum rule: oversold below 30, overbought above 70. */
  function RsiRule(rsi: Option<real>): Option<Side>
  {
    if rsi.Some? && rsi.value < 30.0 then Some(Long)
    else if rsi.Some? && rsi.value > 70.0 then Some(Short)
    else None
  }

  /** The trend rule: EMA above or below SMA, only when both are known. */
  function TrendRule(ema: Option<real>, sma: Option<real>): Option<Side>
  {
    if ema.Some? && sma.Some? && ema.value > sma.value then Some(Long)
    else if ema.Some? && sma.Some? && ema.value < sma.value then Some(Short)
    else None
  }

  /** The side analyze_symbol settles on: the trend rule when it fires,
      otherwise the RSI rule, otherwise HOLD. */
  function DecidedSide(ind: Indicators): Side
  {
    match (TrendRule(ind.ema, ind.sma), RsiRule(ind.rsi))
    case (Some(side), _) => side
    case (None, Some(side)) => side
    case (None, None) => Hold
  }

  function RsiReasons(rsi: Option<real>): seq<string>
  {
    match RsiRule(rsi)
    case Some(Long) => ["RSI < 30"]
    case Some(Short) => ["RSI > 70"]
    case _ => []
  }

  function TrendReasons(ema: Option<real>, sma: Option<real>): seq<string>
  {
    match TrendRule(ema, sma)
    case Some(Long) => ["EMA > SMA"]
    case Some(Short) => ["EMA < SMA"]
    case _ => []
  }

  function PatternReasons(patterns: seq<string>): seq<string>
  {
    if patterns == [] then [] else ["Pat:" + Join(patterns, ",")]
  }

  function FigureReasons(figure: Option<string>): seq<string>
  {
    if figure.Some? && figure.value != "" then ["Fig:" + figure.value] else []
  }

  /** Every rule that fired contributes its reason, in the order RSI, EMA,
      patterns, figure. */
  function Rationale(ind: Indicators, patterns: seq<string>, figure: Option<string>): seq<string>
  {
    RsiReasons(ind.rsi) + TrendReasons(ind.ema, ind.sma) + PatternReasons(patterns) + FigureReasons(figure)
  }

  /** Distance to the level that would prove the call wrong, as a percentage
      of the price; 0 for HOLD and whenever the price or that level is 0. */
  function RiskOf(side: Side, price: real, support: real, resistance: real): real
  {
    match side
    case Long => if price != 0.0 && support != 0.0 then (price - support) / price * 100.0 else 0.0
    case Short => if price != 0.0 && resistance != 0.0 then (resistance - price) / price * 100.0 else 0.0
    case Hold => 0.0
  }

  function CloseIn(side: Side): string
  {
    if side != Hold then "2h" else "-"
  }

  function ReasonText(reasons: seq<string>): string
  {
    if reasons == [] then "No strong reason" else Join(reasons, "; ")
  }

  /** The report line for a window whose last close is `price`, whose levels
      are `support` and `resistance` and whose shapes are `patterns` and
      `figure`. */
  function Verdict(symbol: string, price: real, support: real, resistance: real, ind: Indicators,
                   patterns: seq<string>, figure: Option<string>): Signal
  {
    var side := DecidedSide(ind);
    var reasons := Rationale(ind, patterns, figure);
    Signal(symbol, price, side, reasons, ReasonText(reasons), CloseIn(side),
           RiskOf(side, price, support, resistance))
  }

  /** What analyze_symbol reports for a window; None where it raises, on an
      empty window. */
  function Score(bars: seq<Bar>, symbol: string, ind: Indicators): Option<Signal>
  {
    if bars == [] then None
    else
      var levels := SupportResistance(bars);
      Some(Verdict(symbol, Last(bars).close, levels.0, levels.1, ind,
                   DetectCandlestick(bars), DetectDoubleTopBottom(bars)))
  }

  /** The indicator rules of analyze_symbol: RSI first, then the trend, so
      a trend that fires overrides the side RSI chose; each rule that fires
      appends its reason. */
  method IndicatorRules(ind: Indicators) returns (side: Side, reason: seq<string>)
    ensures side == DecidedSide(ind)
    ensures reason == RsiReasons(ind.rsi) + TrendReasons(ind.ema, ind.sma)
  {
    side := Hold;
    reason := [];
    ghost var rule := RsiRule(ind.rsi);
    if ind.rsi.Some? {
      if ind.rsi.value < 30.0 {
        side := Long;
        reason := reason + ["RSI < 30"];
      } else if ind.rsi.value > 70.0 {
        side := Short;
        reason := reason + ["RSI > 70"];
      }
    }
    assert reason == RsiReasons(ind.rsi);
    assert side == if rule.Some? then rule.value else Hold;
    if ind.ema.Some? && ind.sma.Some? {
      if ind.ema.value > ind.sma.value {
        side := Long;
        reason := reason + ["EMA > SMA"];
      } else if ind.ema.value < ind.sma.value {
        side := Short;
        reason := reason + ["EMA < SMA"];
      }
    }
  }

  /** The risk percentage as analyze_symbol computes it. */
  method ComputeRisk(side: Side, price: real, support: real, resistance: real) returns (risk: real)
    ensures risk == RiskOf(side, price, support, resistance)
  {
    risk := 0.0;
    if side == Long && price != 0.0 && support != 0.0 {
      risk := (price - support) / price * 100.0;
    } else if side == Short && price != 0.0 && resistance != 0.0 {
      risk := (resistance - price) / price * 100.0;
    }
  }

  /** The rules of analyze_symbol, then the shape reasons, the risk and the
      report fields. */
  method ApplyRules(symbol: string, price: real, support: real, resistance: real, ind: Indicators,
                    patterns: seq<string>, figure: Option<string>) returns (signal: Signal)
    ensures signal == Verdict(symbol, price, support, resistance, ind, patterns, figure)
  {
    var side, reason := IndicatorRules(ind);
    if patterns != [] {
      reason := reason + ["Pat:" + Join(patterns, ",")];
    }
    if figure.Some? && figure.value != "" {
      reason := reason + ["Fig:" + figure.value];
    }
    assert reason == Rationale(ind, patterns, figure);
    var risk := ComputeRisk(side, price, support, resistance);
    var closeIn := if side != Hold then "2h" else "-";
    var reasonText := if reason != [] then Join(reason, "; ") else "No strong reason";
    signal := Signal(symbol, price, side, reason, reasonText, closeIn, risk);
  }

  /** A window is scored exactly when it is not empty, and the line is
      about the symbol asked for. */
  lemma ScoreDefined(bars: seq<Bar>, symbol: string, ind: Indicators)
    ensures Score(bars, symbol, ind).Some? <==> bars != []
    ensures Score(bars, symbol, ind).Some? ==> Score(bars, symbol, ind).value.symbol == symbol
  {
  }

  /** analyze_symbol: scores the last close of a non-empty window; an empty
      window makes support_resistance raise, which is reported as None. */
  method AnalyzeSymbol(bars: seq<Bar>, symbol: string, ind: Indicators) returns (signal: Option<Signal>)
    ensures signal == Score(bars, symbol, ind)
    ensures signal.None? <==> bars == []
  {
    var patterns := DetectCandlestick(bars);
    var figure := DetectDoubleTopBottom(bars);
    if bars == [] {
      return None;
    }
    var price := Last(bars).close;
    var (support, resistance) := SupportResistance(bars);
    var s := ApplyRules(symbol, price, support, resistance, ind, patterns, figure);
    signal := Some(s);
  }

  // ---------------------------------------------------------------------
  // Properties of the scoring

  /** When EMA and SMA are both known and differ, they decide the side,
      whatever RSI says. */
  lemma TrendOverridesRsi(ind: Indicators)
    requires ind.ema.Some? && ind.sma.Some? && ind.ema.value != ind.sma.value
    ensures DecidedSide(ind) == if ind.ema.value > ind.sma.value then Long else Short
  {
  }

  /** HOLD exactly when neither the RSI rule nor the trend rule fired. */
  lemma HoldIffNoRule(ind: Indicators)
    ensures DecidedSide(ind) == Hold <==> RsiRule(ind.rsi).None? && TrendRule(ind.ema, ind.sma).None?
  {
  }

  /** Patterns, figures and levels only add reasons and set the risk: the
      side of a report depends on the indicators alone. */
  lemma SideIgnoresShapes(symbol: string, ind: Indicators, price1: real, support1: real, resistance1: real,
                          patterns1: seq<string>, figure1: Option<string>, price2: real, support2: real,
                          resistance2: real, patterns2: seq<string>, figure2: Option<string>)
    ensures Verdict(symbol, price1, support1, resistance1, ind, patterns1, figure1).side ==
            Verdict(symbol, price2, support2, resistance2, ind, patterns2, figure2).side
  {
  }

  /** Every reason begins with the letter of its rule: R, E, P or F. */
  lemma ReasonsInitials(ind: Indicators, patterns: seq<string>, figure: Option<string>)
    ensures forall x :: x in Rationale(ind, patterns, figure) ==> x != [] && x[0] in "REPF"
  {
    var r1, r2 := RsiReasons(ind.rsi), TrendReasons(ind.ema, ind.sma);
    var r3, r4 := PatternReasons(patterns), FigureReasons(figure);
    assert forall x :: x in r1 + r2 ==> x != [] && x[0] in "RE";
    assert forall x :: x in r3 ==> x != [] && x[0] == 'P';
    assert forall x :: x in r4 ==> x != [] && x[0] == 'F';
  }

  /** "No strong reason" is reported exactly when no rule gave a reason. */
  lemma NoStrongReasonIff(ind: Indicators, patterns: seq<string>, figure: Option<string>)
    ensures var r := Rationale(ind, patterns, figure);
            ReasonText(r) == "No strong reason" <==> r == []
  {
    var r := Rationale(ind, patterns, figure);
    if r != [] {
      ReasonsInitials(ind, patterns, figure);
      JoinStartsWithFirst(r, "; ");
      assert r[0] in r;
      assert ReasonText(r)[0] == r[0][0];
    }
  }

  /** "Close: 2h" exactly for LONG and SHORT; risk 0 for HOLD. */
  lemma CloseInAndHoldRisk(symbol: string, price: real, support: real, resistance: real, ind: Indicators,
                           patterns: seq<string>, figure: Option<string>)
    ensures var s := Verdict(symbol, price, support, resistance, ind, patterns, figure);
            (s.closeIn == "2h" <==> s.side != Hold) && (s.side == Hold ==> s.risk == 0.0)
  {
  }

  /** A bar whose open and close lie within its non-negative low and its
      high. */
  predicate WellFormed(b: Bar)
  {
    0.0 <= b.low <= b.open <= b.high && b.low <= b.close <= b.high
  }

  /** (price - support) / price as a percentage, for 0 < support <= price. */
  lemma LongRiskRange(price: real, support: real)
    requires 0.0 < support <= price
    ensures 0.0 <= (price - support) / price * 100.0 < 100.0
  {
    var q := (price - support) / price;
    assert q * price == price - support;
    assert (1.0 - q) * price == support;
  }

  /** (resistance - price) / price as a percentage, for 0 < price <= resistance. */
  lemma ShortRiskRange(price: real, resistance: real)
    requires 0.0 < price <= resistance
    ensures 0.0 <= (resistance - price) / price * 100.0
  {
    var q := (resistance - price) / price;
    assert q * price == resistance - price;
  }

  /** With non-negative levels around the price, a LONG risk lies in
      [0, 100) and a SHORT risk is non-negative; a zero price or level gives
      risk 0. */
  lemma RiskOfBounds(side: Side, price: real, support: real, resistance: real)
    requires 0.0 <= support <= price <= resistance
    ensures side == Long ==> 0.0 <= RiskOf(side, price, support, resistance) < 100.0
    ensures side == Short ==> 0.0 <= RiskOf(side, price, support, resistance)
  {
    if price != 0.0 && support != 0.0 {
      LongRiskRange(price, support);
    }
    if price != 0.0 && resistance != 0.0 {
      ShortRiskRange(price, resistance);
    }
  }

  /** On well-formed bars the support is at most the price and the
      resistance at least the price, so a LONG risk lies in [0, 100) and a
      SHORT risk is non-negative. */
  lemma RiskBounds(bars: seq<Bar>, symbol: string, ind: Indicators)
    requires bars != [] && forall i :: 0 <= i < |bars| ==> WellFormed(bars[i])
    ensures var s := Score(bars, symbol, ind).value;
            (s.side == Long ==> 0.0 <= s.risk < 100.0) && (s.side == Short ==> 0.0 <= s.risk)
  {
    var levels := SupportResistance(bars);
    var price := Last(bars).close;
    var side := DecidedSide(ind);
    assert Score(bars, symbol, ind).value.side == side;
    assert Score(bars, symbol, ind).value.risk == RiskOf(side, price, levels.0, levels.1);
    assert WellFormed(Last(bars));
    LevelsAreExtremes(bars);
    var k :| |bars| - Min(LevelWindow, |bars|) <= k < |bars| && levels.0 == bars[k].low;
    assert WellFormed(bars[k]);
    RiskOfBounds(side, price, levels.0, levels.1);
  }
}
