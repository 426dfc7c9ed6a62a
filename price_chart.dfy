/**
 * PriceChart.tsx: the mock price series behind the chart, the percentage
 * change shown beside the price, the token the chart follows, and the
 * min/max scaling that turns prices into SVG path coordinates.
 *
 * Each `Math.random()` draw of the generator is an explicit input in [0, 1);
 * timestamps are integer milliseconds.
 */
module PriceChart {
  import opened Wrappers
  import opened Js
  import opened Registry

  // ---------------------------------------------------------------------------
  // Time ranges

  datatype TimeRange = OneDay | OneWeek | OneMonth | OneYear

  /** The number of intervals the generator covers for a range; the series has one point more. */
  function DataPoints(range: TimeRange): (n: nat)
    ensures 7 <= n <= 365
  {
    match range
    case OneDay => 24
    case OneWeek => 7
    case OneMonth => 30
    case OneYear => 365
  }

  const HourMillis: int := 3600000
  const DayMillis: int := 86400000

  /** The spacing of the points: one hour for 1D (setHours), one day otherwise (setDate). */
  function StepMillis(range: TimeRange): (ms: int)
    ensures ms > 0
    ensures ms == HourMillis <==> range == OneDay
  {
    if range == OneDay then HourMillis else DayMillis
  }

  lemma DataPointsTable()
    ensures DataPoints(OneDay) == 24 && DataPoints(OneWeek) == 7
    ensures DataPoints(OneMonth) == 30 && DataPoints(OneYear) == 365
  {
  }

  // ---------------------------------------------------------------------------
  // The random walk

  /** Three percent volatility per step. */
  const Volatility: real := 0.03

  /** The multiplier one draw applies: 1 + (r - 0.5) * 2 * volatility. */
  function StepFactor(r: real): real {
    1.0 + (r - 0.5) * 2.0 * Volatility
  }

  /** One step of the walk. */
  function Step(price: real, r: real): real {
    price * StepFactor(r)
  }

  /** A draw in [0, 1) moves the price by a factor in [0.97, 1.03). */
  lemma StepFactorBounds(r: real)
    requires IsRandom(r)
    ensures 0.97 <= StepFactor(r) < 1.03
  {
  }

  /** The price after the walk has consumed `draws`, in order, starting from `start`. */
  function PriceAfter(start: real, draws: seq<real>): real
    decreases |draws|
  {
    if draws == [] then start
    else Step(PriceAfter(start, draws[..|draws| - 1]), draws[|draws| - 1])
  }

  /** A positive start price stays positive along the walk. */
  lemma {:induction false} PriceAfterPositive(start: real, draws: seq<real>)
    requires start > 0.0 && AllRandom(draws)
    ensures PriceAfter(start, draws) > 0.0
    decreases |draws|
  {
    if draws != [] {
      var init := draws[..|draws| - 1];
      assert AllRandom(init) by {
        forall k | 0 <= k < |init| ensures IsRandom(init[k]) { assert init[k] == draws[k]; }
      }
      PriceAfterPositive(start, init);
      StepFactorBounds(draws[|draws| - 1]);
    }
  }

  function Pow(x: real, n: nat): real {
    if n == 0 then 1.0 else x * Pow(x, n - 1)
  }

  /** Multiplying a bound and a factor, both positive, keeps the order. */
  lemma MulMono(a: real, b: real, c: real, d: real)
    requires 0.0 <= a <= b && 0.0 <= c <= d
    ensures a * c <= b * d
  {
    assert a * c <= b * c;
    assert b * c <= b * d;
  }

  /** A positive price times a smaller factor stays below. */
  lemma MulBelow(a: real, f: real, g: real)
    requires a > 0.0 && f < g
    ensures a * f < a * g
  {
  }

  /** After n steps the price lies in [start * 0.97^n, start * 1.03^n]. */
  lemma {:induction false} PriceAfterBounds(start: real, draws: seq<real>)
    requires start > 0.0 && AllRandom(draws)
    ensures start * Pow(0.97, |draws|) <= PriceAfter(start, draws) <= start * Pow(1.03, |draws|)
    decreases |draws|
  {
    if draws != [] {
      var n := |draws|;
      var init := draws[..n - 1];
      assert AllRandom(init) by {
        forall k | 0 <= k < |init| ensures IsRandom(init[k]) { assert init[k] == draws[k]; }
      }
      PriceAfterBounds(start, init);
      PriceAfterPositive(start, init);
      var p := PriceAfter(start, init);
      var f := StepFactor(draws[n - 1]);
      StepFactorBounds(draws[n - 1]);
      PowPositive(0.97, n - 1);
      MulMono(start * Pow(0.97, n - 1), p, 0.97, f);
      MulMono(p, start * Pow(1.03, n - 1), f, 1.03);
      assert start * Pow(0.97, n) == start * Pow(0.97, n - 1) * 0.97;
      assert start * Pow(1.03, n) == start * Pow(1.03, n - 1) * 1.03;
    }
  }

  lemma {:induction false} PowPositive(x: real, n: nat)
    requires x > 0.0
    ensures Pow(x, n) > 0.0
  {
    if n > 0 {
      PowPositive(x, n - 1);
    }
  }

  // ---------------------------------------------------------------------------
  // The series

  datatype PricePoint = PricePoint(time: int, price: real)

  /**
   * The series the generator stores: point k is stamped N - k steps before
   * `now` and carries the price after k + 1 draws (the walk moves before the
   * first point is stored).
   */
  function Series(range: TimeRange, now: int, start: real, draws: seq<real>): (s: seq<PricePoint>)
    requires |draws| == DataPoints(range) + 1
  {
    seq(|draws|, k requires 0 <= k < |draws| =>
      PricePoint(now - (DataPoints(range) - k) * StepMillis(range), PriceAfter(start, draws[..k + 1])))
  }

  /**
   * The generator inside the effect's timer: counts i down from N to 0,
   * stamps each point i steps before `now`, moves the price by one draw and
   * appends the point.
   */
  method BuildSeries(range: TimeRange, now: int, initialPrice: real, draws: seq<real>)
    returns (data: seq<PricePoint>)
    requires |draws| == DataPoints(range) + 1
    ensures data == Series(range, now, initialPrice, draws)
  {
    var dataPoints := DataPoints(range);
    var currentPrice := initialPrice;
    data := [];
    var i: int := dataPoints;
    while i >= 0
      invariant -1 <= i <= dataPoints
      invariant |data| == dataPoints - i
      invariant currentPrice == PriceAfter(initialPrice, draws[..dataPoints - i])
      invariant forall k :: 0 <= k < |data| ==> data[k] == Series(range, now, initialPrice, draws)[k]
    {
      var time := if range == OneDay then now - i * HourMillis else now - i * DayMillis;
      var k := dataPoints - i;
      assert draws[..k + 1][..k] == draws[..k];
      var randomChange := (draws[k] - 0.5) * 2.0 * Volatility;
      currentPrice := currentPrice * (1.0 + randomChange);
      data := data + [PricePoint(time, currentPrice)];
      i := i - 1;
    }
  }

  /** The series has N + 1 points, the last one stamped `now`; 1W gives 8 points. */
  lemma SeriesShape(range: TimeRange, now: int, start: real, draws: seq<real>)
    requires |draws| == DataPoints(range) + 1
    ensures var s := Series(range, now, start, draws);
            |s| == DataPoints(range) + 1 && s[|s| - 1].time == now
            && (range == OneWeek ==> |s| == 8)
  {
  }

  lemma MulStrict(a: int, b: int, m: int)
    requires a < b && m > 0
    ensures a * m < b * m
  {
  }

  /** Timestamps strictly increase along the series. */
  lemma SeriesTimesIncrease(range: TimeRange, now: int, start: real, draws: seq<real>)
    requires |draws| == DataPoints(range) + 1
    ensures var s := Series(range, now, start, draws);
            forall j, k :: 0 <= j < k < |s| ==> s[j].time < s[k].time
  {
    var s := Series(range, now, start, draws);
    var n := DataPoints(range);
    forall j, k | 0 <= j < k < |s|
      ensures s[j].time < s[k].time
    {
      MulStrict(n - k, n - j, StepMillis(range));
    }
  }

  /**
   * The first stored price is already one step away from the token's price,
   * and each later price is the previous one moved by the next draw.
   */
  lemma SeriesWalk(range: TimeRange, now: int, start: real, draws: seq<real>)
    requires |draws| == DataPoints(range) + 1
    ensures var s := Series(range, now, start, draws);
            s[0].price == Step(start, draws[0])
            && forall k :: 0 <= k < |s| - 1 ==> s[k + 1].price == Step(s[k].price, draws[k + 1])
  {
    var s := Series(range, now, start, draws);
    assert draws[..1][..0] == [] && draws[..1][0] == draws[0];
    assert PriceAfter(start, draws[..1]) == Step(PriceAfter(start, []), draws[0]);
    forall k | 0 <= k < |s| - 1
      ensures s[k + 1].price == Step(s[k].price, draws[k + 1])
    {
      assert draws[..k + 2][..k + 1] == draws[..k + 1];
    }
  }

  /** One step from a positive price lands in [0.97, 1.03) times that price. */
  lemma StepRatio(a: real, r: real)
    requires a > 0.0 && IsRandom(r)
    ensures 0.97 * a <= Step(a, r) < 1.03 * a
  {
    var f := StepFactor(r);
    StepFactorBounds(r);
    assert Step(a, r) == a * f;
    MulBelow(a, f, 1.03);
    assert a * f < a * 1.03;
    assert a * 1.03 == 1.03 * a;
    MulMono(0.97, f, a, a);
    assert 0.97 * a <= f * a;
    assert f * a == a * f;
  }

  /**
   * From a positive price, every point is positive and each step moves the
   * price by a factor in [0.97, 1.03).
   */
  lemma SeriesBoundedSteps(range: TimeRange, now: int, start: real, draws: seq<real>)
    requires |draws| == DataPoints(range) + 1
    requires start > 0.0 && AllRandom(draws)
    ensures var s := Series(range, now, start, draws);
            (forall k :: 0 <= k < |s| ==> s[k].price > 0.0)
            && forall k :: 0 <= k < |s| - 1 ==>
                 0.97 * s[k].price <= s[k + 1].price < 1.03 * s[k].price
  {
    var s := Series(range, now, start, draws);
    SeriesWalk(range, now, start, draws);
    forall k | 0 <= k < |s|
      ensures s[k].price > 0.0
    {
      var prefix := draws[..k + 1];
      assert AllRandom(prefix) by {
        forall j | 0 <= j < |prefix| ensures IsRandom(prefix[j]) { assert prefix[j] == draws[j]; }
      }
      PriceAfterPositive(start, prefix);
    }
    forall k | 0 <= k < |s| - 1
      ensures 0.97 * s[k].price <= s[k + 1].price < 1.03 * s[k].price
    {
      StepRatio(s[k].price, draws[k + 1]);
    }
  }

  // ---------------------------------------------------------------------------
  // Percentage change

  /**
   * `priceChange`: 0 for fewer than two points, otherwise the change from the
   * first to the last price in percent. A zero first price makes the
   * division non-finite.
   */
  function PriceChange(data: seq<PricePoint>): (r: Num)
    ensures r.NonFinite? <==> |data| >= 2 && data[0].price == 0.0
  {
    if |data| > 1 then
      if data[0].price == 0.0 then NonFinite
      else Finite((data[|data| - 1].price - data[0].price) / data[0].price * 100.0)
    else Finite(0.0)
  }

  /** An empty or single-point series shows a change of exactly 0. */
  lemma PriceChangeShortSeries(data: seq<PricePoint>)
    requires |data| < 2
    ensures PriceChange(data) == Finite(0.0)
  {
  }

  /** With a positive first price the change is finite and non-negative iff the last price is not below the first. */
  lemma PriceChangeSign(data: seq<PricePoint>)
    requires |data| >= 2 && data[0].price > 0.0
    ensures PriceChange(data).Finite?
    ensures PriceChange(data).value >= 0.0 <==> data[|data| - 1].price >= data[0].price
  {
    var f := data[0].price;
    var d := data[|data| - 1].price - f;
    var q := d / f;
    assert q * f == d;
    if d >= 0.0 {
      assert q >= 0.0;
    } else {
      assert q < 0.0;
    }
  }

  /** A generated series from a positive price always has a finite change, signed by the walk's net move. */
  lemma SeriesChange(range: TimeRange, now: int, start: real, draws: seq<real>)
    requires |draws| == DataPoints(range) + 1
    requires start > 0.0 && AllRandom(draws)
    ensures var s := Series(range, now, start, draws);
            PriceChange(s).Finite?
            && (PriceChange(s).value >= 0.0 <==> s[|s| - 1].price >= s[0].price)
  {
    SeriesBoundedSteps(range, now, start, draws);
    PriceChangeSign(Series(range, now, start, draws));
  }

  // ---------------------------------------------------------------------------
  // Which token the chart follows

  /**
   * `token`: with no selection the first registry token, otherwise the first
   * token whose address equals the selection, or none.
   */
  function ChartToken(tokens: seq<Token>, selected: Option<string>): (r: Option<Token>)
    ensures !Truthy(selected) ==> (r.Some? <==> |tokens| > 0) && (r.Some? ==> r.value == tokens[0])
    ensures Truthy(selected) ==>
              (r.Some? <==> exists k :: 0 <= k < |tokens| && tokens[k].address == selected.value)
    ensures Truthy(selected) && r.Some? ==> r.value in tokens && r.value.address == selected.value
  {
    if Truthy(selected) then
      var a := selected.value;
      Find(tokens, (t: Token) => t.address == a)
    else if |tokens| > 0 then Some(tokens[0])
    else None
  }

  /** With a selection, the chart follows the first registry token carrying that address. */
  lemma ChartTokenIsFirstMatch(tokens: seq<Token>, selected: Option<string>, k: nat)
    requires Truthy(selected) && k < |tokens| && tokens[k].address == selected.value
    requires forall j :: 0 <= j < k ==> tokens[j].address != selected.value
    ensures ChartToken(tokens, selected) == Some(tokens[k])
  {
    var a := selected.value;
    var p := (t: Token) => t.address == a;
    assert p(tokens[k]);
    var found := Find(tokens, p);
    var i :| FirstMatch(tokens, p, i) && tokens[i] == found.value;
    assert i == k;
  }

  // ---------------------------------------------------------------------------
  // Scaling and the SVG paths

  /** The prices of the series (`chartData.map(d => d.price)`). */
  function Prices(data: seq<PricePoint>): (p: seq<real>)
    ensures |p| == |data| && forall k :: 0 <= k < |data| ==> p[k] == data[k].price
  {
    seq(|data|, k requires 0 <= k < |data| => data[k].price)
  }

  /** `Math.min(...s)` of a non-empty sequence. */
  function SeqMin(s: seq<real>): (m: real)
    requires |s| > 0
    ensures m in s && forall k :: 0 <= k < |s| ==> m <= s[k]
  {
    if |s| == 1 then s[0]
    else
      var rest := SeqMin(s[1..]);
      assert forall k :: 1 <= k < |s| ==> s[k] == s[1..][k - 1];
      if s[0] <= rest then s[0] else rest
  }

  /** `Math.max(...s)` of a non-empty sequence. */
  function SeqMax(s: seq<real>): (m: real)
    requires |s| > 0
    ensures m in s && forall k :: 0 <= k < |s| ==> s[k] <= m
  {
    if |s| == 1 then s[0]
    else
      var rest := SeqMax(s[1..]);
      assert forall k :: 1 <= k < |s| ==> s[k] == s[1..][k - 1];
      if s[0] >= rest then s[0] else rest
  }

  /** The vertical scale of the plot: the extremes padded by one percent. */
  datatype Scale = Scale(minPrice: real, maxPrice: real)

  /**
   * `minPrice` / `maxPrice`: 0.99 × the smallest and 1.01 × the largest price.
   * An empty series has no finite scale (`Math.min()` is Infinity).
   */
  function ChartScale(prices: seq<real>): (r: Option<Scale>)
    ensures r.None? <==> prices == []
  {
    if prices == [] then None
    else Some(Scale(SeqMin(prices) * 0.99, SeqMax(prices) * 1.01))
  }

  /** `100 - (p - minPrice) / priceRange * 100`, non-finite for a zero range. */
  function PlotY(price: real, sc: Scale): (y: Num)
    ensures y.NonFinite? <==> sc.maxPrice == sc.minPrice
  {
    var range := sc.maxPrice - sc.minPrice;
    if range == 0.0 then NonFinite
    else Finite(100.0 - (price - sc.minPrice) / range * 100.0)
  }

  datatype PathCommand = MoveTo(x: int, y: Num) | LineTo(x: int, y: Num) | ClosePath

  /** The chart line: point i at x = i, "M" for the first point and "L" for the rest. */
  function LinePath(data: seq<PricePoint>): (path: seq<PathCommand>)
    ensures |path| == |data|
    ensures forall i :: 0 <= i < |path| ==> (path[i].MoveTo? <==> i == 0) && !path[i].ClosePath?
    ensures forall i :: 0 <= i < |path| ==> path[i].x == i
  {
    if data == [] then []
    else
      var sc := ChartScale(Prices(data)).value;
      seq(|data|, i requires 0 <= i < |data| =>
        if i == 0 then MoveTo(i, PlotY(data[i].price, sc))
        else LineTo(i, PlotY(data[i].price, sc)))
  }

  /** The area under the line: the line, then down to the baseline, back to x = 0, closed. */
  function AreaPath(data: seq<PricePoint>): (path: seq<PathCommand>)
    ensures |path| == |data| + 3 && path[..|data|] == LinePath(data)
    ensures path[|data|] == LineTo(|data| - 1, Finite(100.0))
    ensures path[|data| + 1] == LineTo(0, Finite(100.0)) && path[|data| + 2] == ClosePath
  {
    LinePath(data) + [LineTo(|data| - 1, Finite(100.0)), LineTo(0, Finite(100.0)), ClosePath]
  }

  /** 0 < a / b < 1 for 0 < a < b. */
  lemma RatioInUnit(a: real, b: real)
    requires 0.0 < a < b
    ensures 0.0 < a / b < 1.0
  {
    var q := a / b;
    assert q * b == a;
    if q >= 1.0 {
      MulMono(1.0, q, b, b);
    }
  }

  /**
   * For a non-empty series of positive prices every plotted y is finite and
   * lies strictly inside (0, 100): the one-percent padding keeps the line off
   * the chart's edges.
   */
  lemma PlotInsideChart(data: seq<PricePoint>)
    requires data != []
    requires forall k :: 0 <= k < |data| ==> data[k].price > 0.0
    ensures forall i :: 0 <= i < |data| ==>
              LinePath(data)[i].y.Finite? && 0.0 < LinePath(data)[i].y.value < 100.0
  {
    var p := Prices(data);
    var lo := SeqMin(p);
    var hi := SeqMax(p);
    var sc := ChartScale(p).value;
    assert lo > 0.0;
    var range := sc.maxPrice - sc.minPrice;
    assert range > 0.0;
    forall i | 0 <= i < |data|
      ensures LinePath(data)[i].y.Finite? && 0.0 < LinePath(data)[i].y.value < 100.0
    {
      var v := data[i].price;
      assert lo <= v <= hi;
      RatioInUnit(v - sc.minPrice, range);
    }
  }

  // ---------------------------------------------------------------------------
  // The component's state

  /** What the chart area shows. */
  datatype ChartBody = Spinner | SelectPrompt | Plot

  /** The spinner while loading, a prompt when no token is shown, the plot otherwise. */
  function BodyFor(isLoading: bool, token: Option<Token>): (b: ChartBody)
    ensures b == Spinner <==> isLoading
    ensures b == Plot <==> !isLoading && token.Some?
  {
    if isLoading then Spinner else if token.None? then SelectPrompt else Plot
  }

  /** The work the effect's timer will do: the token and the range captured when it was scheduled. */
  datatype Pending = Pending(token: Token, range: TimeRange)

  /** The chart's state cells: the selected range, the loading flag and the stored series. */
  class ChartView {
    var timeRange: TimeRange
    var isLoading: bool
    var chartData: seq<PricePoint>

    /** Starts on 1W, not loading, with no data. */
    constructor ()
      ensures timeRange == OneWeek && !isLoading && chartData == []
    {
      timeRange := OneWeek;
      isLoading := false;
      chartData := [];
    }

    /** A click on a range button. */
    method SelectRange(range: TimeRange)
      modifies this
      ensures timeRange == range
      ensures isLoading == old(isLoading) && chartData == old(chartData)
    {
      timeRange := range;
    }

    /**
     * The effect, run whenever the token or the range changes: without a token
     * it does nothing; otherwise it sets the loading flag and schedules a
     * generation for the current token and range.
     */
    method OnEffect(token: Option<Token>) returns (pending: Option<Pending>)
      modifies this
      ensures pending.Some? <==> token.Some?
      ensures token.Some? ==> pending.value == Pending(token.value, timeRange) && isLoading
      ensures token.None? ==> isLoading == old(isLoading)
      ensures timeRange == old(timeRange) && chartData == old(chartData)
    {
      if token.None? {
        pending := None;
        return;
      }
      isLoading := true;
      pending := Some(Pending(token.value, timeRange));
    }

    /**
     * The timer callback: stores the series of the captured token and range
     * (not necessarily the range selected now) and clears the loading flag.
     */
    method OnTimeout(pending: Pending, now: int, draws: seq<real>)
      requires |draws| == DataPoints(pending.range) + 1
      modifies this
      ensures chartData == Series(pending.range, now, pending.token.price, draws)
      ensures !isLoading && timeRange == old(timeRange)
    {
      var data := BuildSeries(pending.range, now, pending.token.price, draws);
      chartData := data;
      isLoading := false;
    }
  }
}
