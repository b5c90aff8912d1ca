/** The chart arithmetic of `frontend/src/components/TradingChart.jsx`: the EMA seeded by an
    SMA, the live candle that each price tick extends or starts, the timeframe table, the
    IST shift of candle times, and the price-scale precision. */
module Chart {
  import opened Common

  /** Seconds between UTC and Indian Standard Time (5 h 30 min). */
  const IstOffset: int := 19800

  /** `convertToIndianTime`. */
  function ToIndianTime(utc: int): int
  {
    utc + IstOffset
  }

  datatype Candle = Candle(time: int, open: real, high: real, low: real, close: real, volume: real)

  /** Low at or under every other price, high at or over. */
  predicate WellFormed(c: Candle)
  {
    c.low <= c.open <= c.high && c.low <= c.close <= c.high
  }

  /** The timeframe table; anything not listed counts as one minute. */
  function IntervalSeconds(timeframe: string): (r: nat)
    ensures r > 0 && r % 60 == 0
    ensures timeframe !in {"5m", "15m", "1h", "4h", "1d"} ==> r == 60
  {
    if timeframe == "5m" then 300
    else if timeframe == "15m" then 900
    else if timeframe == "1h" then 3600
    else if timeframe == "4h" then 14400
    else if timeframe == "1d" then 86400
    else 60
  }

  /** `Math.floor(t / interval) * interval`. */
  function BucketStart(t: nat, interval: nat): nat
    requires interval > 0
  {
    (t / interval) * interval
  }

  lemma ProductSign(a: int, n: int)
    requires n > 0
    ensures a * n >= 0 ==> a >= 0
    ensures a * n < 0 ==> a < 0
  {
  }

  /** Whole multiples leave no remainder. */
  lemma MultipleHasNoRemainder(q: nat, n: nat)
    requires n > 0
    ensures (q * n) % n == 0
  {
    var x := q * n;
    var d := x / n;
    var r := x % n;
    assert x == d * n + r;
    assert (q - d) * n == r;
    assert (q - d - 1) * n == r - n;
    ProductSign(q - d, n);
    ProductSign(q - d - 1, n);
  }

  /** The bucket start is a multiple of the interval at or before `t`, and `t` falls inside
      the bucket it starts. */
  lemma BucketStartBounds(t: nat, interval: nat)
    requires interval > 0
    ensures BucketStart(t, interval) % interval == 0
    ensures BucketStart(t, interval) <= t < BucketStart(t, interval) + interval
  {
    var q := t / interval;
    assert t == q * interval + t % interval;
    MultipleHasNoRemainder(q, interval);
  }

  /** A tick at `price` against the last candle, when the current bucket starts at `bucket`
      (UTC seconds): a later bucket starts a new candle at the previous close, otherwise the
      last candle is widened to the price and closes at it. */
  function TickCandle(last: Candle, price: real, bucket: int): Candle
  {
    if last.time < ToIndianTime(bucket) then
      Candle(ToIndianTime(bucket), last.close, price, price, price, 0.0)
    else
      last.(high := Max(last.high, price), low := Min(last.low, price), close := price)
  }

  /** Within a bucket the candle keeps its time and open, its range grows to take in the
      price and it closes at the price, so a well-formed candle stays well-formed. A new
      bucket opens at the previous close, ranges over the price alone, and is later in
      time. */
  lemma TickCandleContract(last: Candle, price: real, bucket: int)
    ensures var c := TickCandle(last, price, bucket);
            last.time >= ToIndianTime(bucket) ==>
              && c.time == last.time && c.open == last.open && c.volume == last.volume
              && c.close == price && c.low <= price <= c.high
              && c.low <= last.low && last.high <= c.high
              && (c.high == last.high || c.high == price) && (c.low == last.low || c.low == price)
              && (WellFormed(last) ==> WellFormed(c))
    ensures var c := TickCandle(last, price, bucket);
            last.time < ToIndianTime(bucket) ==>
              && c.time > last.time && c.open == last.close
              && c.high == price && c.low == price && c.close == price && c.volume == 0.0
  {
  }

  /** A new candle takes the previous close as its open but only the tick price as its
      range, so its open lies outside its own range whenever the price moved. */
  lemma NewCandleOpenOutsideRange()
    ensures var c := TickCandle(Candle(0, 100.0, 100.0, 100.0, 100.0, 5.0), 101.0, 60);
            c.open < c.low && !WellFormed(c)
  {
  }

  /** `candleDataRef` and `lastCandleRef`. */
  class LiveChart {
    var candles: seq<Candle>
    var last: Option<Candle>

    /** The last candle is the last element of the series. */
    predicate Synced()
      reads this
    {
      last.Some? ==> |candles| > 0 && candles[|candles| - 1] == last.value
    }

    constructor ()
      ensures candles == [] && last == None && Synced()
    {
      candles := [];
      last := None;
    }

    /** Loading a fetched series (times already in UTC seconds): the times are shifted to
        IST, and the last candle is remembered when there is one. */
    method Load(data: seq<Candle>)
      modifies this
      ensures candles == seq(|data|, i requires 0 <= i < |data| => data[i].(time := ToIndianTime(data[i].time)))
      ensures |data| > 0 ==> last == Some(candles[|candles| - 1]) && Synced()
      ensures |data| == 0 ==> last == old(last)
    {
      candles := seq(|data|, i requires 0 <= i < |data| => data[i].(time := ToIndianTime(data[i].time)));
      if |data| > 0 {
        last := Some(candles[|candles| - 1]);
      }
    }

    /** The live-tick handler at wall-clock second `nowSec` with the chart's timeframe. */
    method OnTick(price: real, nowSec: nat, timeframe: string)
      modifies this
      ensures old(last).None? ==> candles == old(candles) && last == old(last)
      ensures old(last).Some? ==>
                var c := TickCandle(old(last).value, price, BucketStart(nowSec, IntervalSeconds(timeframe)));
                && last == Some(c)
                && (old(last).value.time < c.time ==> candles == old(candles) + [c])
                && ((old(last).value.time >= ToIndianTime(BucketStart(nowSec, IntervalSeconds(timeframe))) &&
                     |old(candles)| > 0) ==> candles == old(candles)[|old(candles)| - 1 := c])
                && ((old(last).value.time >= ToIndianTime(BucketStart(nowSec, IntervalSeconds(timeframe))) &&
                     |old(candles)| == 0) ==> candles == old(candles))
      ensures old(Synced()) ==> Synced()
    {
      if last.None? {
        return;
      }
      var lastCandle := last.value;
      var interval := IntervalSeconds(timeframe);
      var bucket := BucketStart(nowSec, interval);
      var c := TickCandle(lastCandle, price, bucket);
      if lastCandle.time < ToIndianTime(bucket) {
        candles := candles + [c];
      } else if |candles| > 0 {
        candles := candles[|candles| - 1 := c];
      }
      last := Some(c);
    }
  }

  // ---------------------------------------------------------------------------------------
  // EMA

  datatype Point = Point(time: int, value: real)

  function SumCloses(cs: seq<Candle>): real
  {
    if cs == [] then 0.0 else SumCloses(cs[..|cs| - 1]) + cs[|cs| - 1].close
  }

  /** `2 / (period + 1)`. */
  function Multiplier(period: nat): real
  {
    2.0 / (period + 1) as real
  }

  /** One smoothing step. */
  function Smooth(previous: real, close: real, period: nat): real
  {
    (close - previous) * Multiplier(period) + previous
  }

  /** The EMA series: nothing for fewer candles than the period, else the SMA of the first
      `period` closes at the time of the `period`-th candle, then one smoothed point per
      later candle. */
  function Ema(cs: seq<Candle>, period: nat): (r: seq<Point>)
    requires period >= 1
    ensures |r| == if |cs| < period then 0 else |cs| - period + 1
  {
    if |cs| < period then []
    else if |cs| == period then [Point(cs[period - 1].time, SumCloses(cs) / period as real)]
    else
      var head := Ema(cs[..|cs| - 1], period);
      head + [Point(cs[|cs| - 1].time, Smooth(head[|head| - 1].value, cs[|cs| - 1].close, period))]
  }

  /** The series has one point per candle from the `period`-th on, at those candles' times,
      and its first value is the mean of the first `period` closes. */
  lemma {:induction false} EmaShape(cs: seq<Candle>, period: nat)
    requires period >= 1
    ensures forall k :: 0 <= k < |Ema(cs, period)| ==> Ema(cs, period)[k].time == cs[period - 1 + k].time
    ensures |cs| >= period ==> Ema(cs, period)[0].value * period as real == SumCloses(cs[..period])
  {
    if |cs| > period {
      var init := cs[..|cs| - 1];
      EmaShape(init, period);
      assert init[..period] == cs[..period];
      var e := Ema(cs, period);
      forall k | 0 <= k < |e| ensures e[k].time == cs[period - 1 + k].time {
        if k < |e| - 1 {
          assert e[k] == Ema(init, period)[k];
        }
      }
    } else if |cs| == period {
      assert cs[..period] == cs;
    }
  }

  /** Every later point lies between the previous point and the candle's close. */
  lemma SmoothBetween(previous: real, close: real, period: nat)
    requires period >= 1
    ensures Min(previous, close) <= Smooth(previous, close, period) <= Max(previous, close)
  {
    var m := Multiplier(period);
    var n := (period + 1) as real;
    assert 1.0 - m == (n - 2.0) / n;
    assert 0.0 < m <= 1.0;
    var d := close - previous;
    if d >= 0.0 {
      assert 0.0 <= d * m <= d;
    } else {
      assert d <= d * m <= 0.0;
    }
  }

  /** After the first point, each point is the previous one smoothed towards its candle's
      close, so it lies between the two. */
  lemma {:induction false} EmaSteps(cs: seq<Candle>, period: nat, k: nat)
    requires period >= 1 && 0 < k < |Ema(cs, period)|
    ensures Ema(cs, period)[k].value == Smooth(Ema(cs, period)[k - 1].value, cs[period - 1 + k].close, period)
    ensures Min(Ema(cs, period)[k - 1].value, cs[period - 1 + k].close) <= Ema(cs, period)[k].value
    ensures Ema(cs, period)[k].value <= Max(Ema(cs, period)[k - 1].value, cs[period - 1 + k].close)
  {
    var init := cs[..|cs| - 1];
    var e := Ema(cs, period);
    if k < |e| - 1 {
      EmaSteps(init, period, k);
      assert e[k] == Ema(init, period)[k] && e[k - 1] == Ema(init, period)[k - 1];
    }
    SmoothBetween(e[k - 1].value, cs[period - 1 + k].close, period);
  }

  /** The series on a prefix grows by one smoothed point per further candle. */
  lemma EmaExtend(cs: seq<Candle>, period: nat, i: nat)
    requires period >= 1 && period <= i < |cs|
    ensures var e := Ema(cs[..i], period);
            Ema(cs[..i + 1], period) == e + [Point(cs[i].time, Smooth(e[|e| - 1].value, cs[i].close, period))]
  {
    assert cs[..i + 1][..i] == cs[..i];
  }

  /** The series on the first `period` candles is their mean alone. */
  lemma EmaStart(cs: seq<Candle>, period: nat, sum: real)
    requires period >= 1 && period <= |cs| && sum == SumCloses(cs[..period])
    ensures Ema(cs[..period], period) == [Point(cs[period - 1].time, sum / period as real)]
  {
  }

  /** `calculateEMA`, as its two loops compute it. */
  method CalculateEma(cs: seq<Candle>, period: nat) returns (result: seq<Point>)
    requires period >= 1
    ensures result == Ema(cs, period)
  {
    result := [];
    if |cs| < period {
      return;
    }
    var sum := 0.0;
    var i := 0;
    while i < period
      invariant 0 <= i <= period
      invariant sum == SumCloses(cs[..i])
    {
      assert cs[..i + 1][..i] == cs[..i];
      sum := sum + cs[i].close;
      i := i + 1;
    }
    EmaStart(cs, period, sum);
    result := [Point(cs[period - 1].time, sum / period as real)];
    var multiplier := 2.0 / (period + 1) as real;
    assert multiplier == Multiplier(period);
    i := period;
    while i < |cs|
      invariant period <= i <= |cs|
      invariant result == Ema(cs[..i], period)
    {
      var previous := result[|result| - 1].value;
      var current := (cs[i].close - previous) * multiplier + previous;
      assert current == Smooth(previous, cs[i].close, period);
      EmaExtend(cs, period, i);
      result := result + [Point(cs[i].time, current)];
      i := i + 1;
    }
    assert cs[..i] == cs;
  }

  // ---------------------------------------------------------------------------------------
  // Price scale

  datatype PriceFormat = PriceFormat(precision: nat, minMove: real)

  /** `getPriceFormatForSymbol`; other USDT pairs take their precision from the current
      price, or from 10 when there is none. */
  function PriceFormatFor(symbol: string, currentPrice: Option<real>): PriceFormat
  {
    if symbol == "DOGEUSDT" then PriceFormat(5, 0.00001)
    else if symbol == "BTCUSDT" then PriceFormat(1, 0.1)
    else if symbol == "XRPUSDT" then PriceFormat(4, 0.0001)
    else if symbol == "SOLUSDT" || symbol == "ETHUSDT" then PriceFormat(2, 0.01)
    else if Contains(symbol, "USDT") then
      var price := if currentPrice.Some? && currentPrice.value != 0.0 then currentPrice.value else 10.0;
      if price < 0.1 then PriceFormat(6, 0.000001)
      else if price < 1.0 then PriceFormat(5, 0.00001)
      else if price < 10.0 then PriceFormat(4, 0.0001)
      else if price < 100.0 then PriceFormat(3, 0.001)
      else if price < 1000.0 then PriceFormat(2, 0.01)
      else PriceFormat(1, 0.1)
    else PriceFormat(2, 0.01)
  }

  /** Every branch's minimum move is one unit in the last shown decimal place. */
  lemma MinMoveMatchesPrecision(symbol: string, currentPrice: Option<real>)
    ensures var f := PriceFormatFor(symbol, currentPrice);
            f.minMove * Pow10(f.precision) as real == 1.0 && 1 <= f.precision <= 6
  {
    var f := PriceFormatFor(symbol, currentPrice);
    assert Pow10(1) == 10 && Pow10(2) == 100 && Pow10(3) == 1000;
    assert Pow10(4) == 10000 && Pow10(5) == 100000 && Pow10(6) == 1000000;
  }

  /** The chart's own `getDecimalPrecision`. */
  function DecimalPrecision(price: real): nat
  {
    if price < 0.0001 then 8
    else if price < 0.01 then 6
    else if price < 1.0 then 5
    else if price < 10.0 then 4
    else if price < 100.0 then 3
    else 2
  }

  /** Higher prices never get more decimals, and every price from 100 up gets 2. */
  lemma DecimalPrecisionMonotone(p: real, q: real)
    requires p <= q
    ensures DecimalPrecision(p) >= DecimalPrecision(q)
    ensures q >= 100.0 ==> DecimalPrecision(q) == 2
  {
  }
}
