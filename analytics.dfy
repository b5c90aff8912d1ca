/** The trading statistics of `frontend/src/components/AnalyticsPanel.jsx`: folds over the
    trade history (realised P&L, wins and losses, win rate, average profit and loss, profit
    factor) and over the open positions (filters, value, P&L, average leverage). */
module Analytics {
  import opened Common
  import opened Trading
  import PositionsView

  predicate IsClose(e: Entry)
  {
    e.CloseEntry?
  }

  predicate IsWin(e: Entry)
  {
    e.CloseEntry? && e.pnl > 0.0
  }

  predicate IsLoss(e: Entry)
  {
    e.CloseEntry? && e.pnl < 0.0
  }

  /** Realised P&L: the sum of `pnl` over the `'close'` records. */
  function ClosedPnl(h: seq<Entry>): real
  {
    if h == [] then 0.0
    else ClosedPnl(h[..|h| - 1]) + (if IsClose(h[|h| - 1]) then h[|h| - 1].pnl else 0.0)
  }

  function Wins(h: seq<Entry>): nat
  {
    if h == [] then 0 else Wins(h[..|h| - 1]) + (if IsWin(h[|h| - 1]) then 1 else 0)
  }

  function Losses(h: seq<Entry>): nat
  {
    if h == [] then 0 else Losses(h[..|h| - 1]) + (if IsLoss(h[|h| - 1]) then 1 else 0)
  }

  /** The sum of the winning closes' P&L. */
  function GrossProfit(h: seq<Entry>): real
  {
    if h == [] then 0.0 else GrossProfit(h[..|h| - 1]) + (if IsWin(h[|h| - 1]) then h[|h| - 1].pnl else 0.0)
  }

  /** The sum of the losing closes' P&L (a negative number or zero). */
  function GrossLoss(h: seq<Entry>): real
  {
    if h == [] then 0.0 else GrossLoss(h[..|h| - 1]) + (if IsLoss(h[|h| - 1]) then h[|h| - 1].pnl else 0.0)
  }

  /** Realised P&L splits into gross profit and gross loss (a zero-P&L close adds to
      neither); gross profit is positive exactly when some close won, and gross loss
      negative exactly when some close lost. */
  lemma {:induction false} PnlSplits(h: seq<Entry>)
    ensures ClosedPnl(h) == GrossProfit(h) + GrossLoss(h)
    ensures GrossProfit(h) >= 0.0 && GrossLoss(h) <= 0.0
    ensures GrossProfit(h) > 0.0 <==> Wins(h) > 0
    ensures GrossLoss(h) < 0.0 <==> Losses(h) > 0
    ensures Wins(h) + Losses(h) <= |h|
  {
    if h != [] {
      PnlSplits(h[..|h| - 1]);
    }
  }

  /** Closing a position adds its P&L to the realised total and one win or one loss to the
      counts as its sign says; opening or filling adds nothing. */
  lemma CloseCountsOnce(h: seq<Entry>, p: Position, closePrice: real, entryId: Id, now: nat)
    ensures var h1 := h + [CloseRecord(p, closePrice, entryId, now)];
            var pnl := Pnl(p.direction, p.entryPrice, p.quantity, closePrice);
            && ClosedPnl(h1) == ClosedPnl(h) + pnl
            && Wins(h1) == Wins(h) + (if pnl > 0.0 then 1 else 0)
            && Losses(h1) == Losses(h) + (if pnl < 0.0 then 1 else 0)
    ensures forall e: Entry :: e.OpenEntry? ==>
              ClosedPnl(h + [e]) == ClosedPnl(h) && Wins(h + [e]) == Wins(h) && Losses(h + [e]) == Losses(h)
  {
    var h1 := h + [CloseRecord(p, closePrice, entryId, now)];
    assert h1[..|h|] == h;
    forall e: Entry | e.OpenEntry?
      ensures ClosedPnl(h + [e]) == ClosedPnl(h) && Wins(h + [e]) == Wins(h) && Losses(h + [e]) == Losses(h)
    {
      assert (h + [e])[..|h|] == h;
    }
  }

  /** A win rate in whole percent, or the NaN of `0/0`. */
  datatype Rate = Percent(v: int) | NotANumber

  /** `Math.round(x)` for a finite `x`. */
  function Round(x: real): int
  {
    (x + 0.5).Floor
  }

  function WinRate(h: seq<Entry>): Rate
  {
    if |h| == 0 then Percent(0)
    else if Wins(h) + Losses(h) == 0 then NotANumber
    else Percent(Round(Wins(h) as real / (Wins(h) + Losses(h)) as real * 100.0))
  }

  /** Rounding a share of `w` out of `n` to whole percent stays within 0..100 and gives 0
      and 100 at the two ends. */
  lemma RoundedShare(w: nat, n: nat)
    requires 0 < n && w <= n
    ensures 0 <= Round(w as real / n as real * 100.0) <= 100
    ensures w == 0 ==> Round(w as real / n as real * 100.0) == 0
    ensures w == n ==> Round(w as real / n as real * 100.0) == 100
  {
    var x := w as real / n as real * 100.0;
    assert x * n as real == w as real * 100.0;
    assert (100.0 - x) * n as real == (n - w) as real * 100.0;
    assert x <= 100.0;
    assert x >= 0.0;
    if w == n {
      assert w as real / n as real == 1.0;
      assert x == 100.0;
      assert (x + 0.5).Floor == 100;
    }
  }

  /** The win rate is 0 for an empty history, NaN for a history without a winning or losing
      close, and otherwise a whole percentage between 0 and 100, which is 0 when no close
      won and 100 when none lost. */
  lemma WinRateRange(h: seq<Entry>)
    ensures h == [] ==> WinRate(h) == Percent(0)
    ensures WinRate(h) == NotANumber <==> h != [] && Wins(h) == 0 && Losses(h) == 0
    ensures WinRate(h).Percent? ==> 0 <= WinRate(h).v <= 100
    ensures h != [] && Wins(h) == 0 && Losses(h) > 0 ==> WinRate(h) == Percent(0)
    ensures h != [] && Wins(h) > 0 && Losses(h) == 0 ==> WinRate(h) == Percent(100)
  {
    if h != [] && Wins(h) + Losses(h) > 0 {
      RoundedShare(Wins(h), Wins(h) + Losses(h));
    }
  }

  /** `|sum / max(1, count)|`: the average profit of the winning closes and the average loss
      of the losing ones, as positive numbers, never dividing by zero. */
  function AverageOf(sum: real, count: nat): (r: real)
    ensures r >= 0.0
  {
    Abs(sum / (if count >= 1 then count else 1) as real)
  }

  /** With at least one win the average profit times the number of wins is the gross
      profit, and without any it is 0; likewise for losses. */
  lemma AveragesScale(h: seq<Entry>)
    ensures Wins(h) > 0 ==> AverageOf(GrossProfit(h), Wins(h)) * Wins(h) as real == GrossProfit(h)
    ensures Wins(h) == 0 ==> AverageOf(GrossProfit(h), Wins(h)) == 0.0
    ensures Losses(h) > 0 ==> AverageOf(GrossLoss(h), Losses(h)) * Losses(h) as real == -GrossLoss(h)
    ensures Losses(h) == 0 ==> AverageOf(GrossLoss(h), Losses(h)) == 0.0
  {
    PnlSplits(h);
  }

  datatype Factor = Unbounded | Ratio(v: real)

  /** The profit factor: gross profit over the size of the gross loss. */
  function ProfitFactor(h: seq<Entry>): Factor
  {
    var gp := GrossProfit(h);
    var gl := Abs(GrossLoss(h));
    if gl == 0.0 then (if gp > 0.0 then Unbounded else Ratio(0.0))
    else Ratio(gp / gl)
  }

  /** The factor is unbounded exactly when there are wins and no losses, is 0 when there are
      no wins, and otherwise times the size of the gross loss gives the gross profit. */
  lemma ProfitFactorCases(h: seq<Entry>)
    ensures ProfitFactor(h) == Unbounded <==> Wins(h) > 0 && Losses(h) == 0
    ensures Wins(h) == 0 ==> ProfitFactor(h) == Ratio(0.0)
    ensures Losses(h) > 0 ==>
              && ProfitFactor(h).Ratio? && ProfitFactor(h).v >= 0.0
              && ProfitFactor(h).v * -GrossLoss(h) == GrossProfit(h)
  {
    PnlSplits(h);
  }

  // ---------------------------------------------------------------------------------------
  // The open-positions table

  datatype TradeFilter = AllTrades | BuysOnly | SellsOnly | ProfitOnly | LossOnly

  predicate Passes(p: Position, f: TradeFilter)
  {
    match f
    case AllTrades => true
    case BuysOnly => p.direction == Buy
    case SellsOnly => p.direction == Sell
    case ProfitOnly => p.pnl > 0.0
    case LossOnly => p.pnl < 0.0
  }

  function Select(ps: seq<Position>, f: TradeFilter): (r: seq<Position>)
    ensures forall p :: p in r <==> p in ps && Passes(p, f)
    ensures |r| <= |ps|
  {
    if ps == [] then []
    else
      var init := Select(ps[..|ps| - 1], f);
      var last := ps[|ps| - 1];
      assert ps == ps[..|ps| - 1] + [last];
      if Passes(last, f) then init + [last] else init
  }

  /** `getFilteredTrades`: the open positions that pass the filter. */
  function FilteredTrades(ps: seq<Position>, f: TradeFilter): (r: seq<Position>)
    ensures forall p :: p in r <==> p in ps && p.status == Open && Passes(p, f)
  {
    Select(PositionsView.TabFilter(ps, PositionsView.OpenTab), f)
  }

  /** `p.currentPrice || p.entryPrice`. */
  function MarkPrice(p: Position): real
  {
    if p.currentPrice.Some? && p.currentPrice.value != 0.0 then p.currentPrice.value else p.entryPrice
  }

  function PositionValue(ps: seq<Position>): real
  {
    if ps == [] then 0.0 else PositionValue(ps[..|ps| - 1]) + ps[|ps| - 1].quantity * MarkPrice(ps[|ps| - 1])
  }

  function TotalPnl(ps: seq<Position>): real
  {
    if ps == [] then 0.0 else TotalPnl(ps[..|ps| - 1]) + ps[|ps| - 1].pnl
  }

  function TotalLeverage(ps: seq<Position>): int
  {
    if ps == [] then 0 else TotalLeverage(ps[..|ps| - 1]) + ps[|ps| - 1].leverage
  }

  function AverageLeverage(ps: seq<Position>): real
  {
    if |ps| == 0 then 0.0 else TotalLeverage(ps) as real / |ps| as real
  }

  /** Every leverage is at least 1, so the sum of `n` of them is at least `n`. */
  lemma {:induction false} TotalLeverageAtLeastCount(ps: seq<Position>)
    ensures TotalLeverage(ps) >= |ps|
  {
    if ps != [] {
      TotalLeverageAtLeastCount(ps[..|ps| - 1]);
    }
  }

  /** The average leverage is 0 for an empty selection and at least 1 otherwise. */
  lemma AverageLeverageRange(ps: seq<Position>)
    ensures |ps| == 0 ==> AverageLeverage(ps) == 0.0
    ensures |ps| > 0 ==> AverageLeverage(ps) >= 1.0
  {
    if |ps| > 0 {
      TotalLeverageAtLeastCount(ps);
      var n := |ps| as real;
      var avg := TotalLeverage(ps) as real / n;
      assert avg * n == TotalLeverage(ps) as real;
      if avg < 1.0 {
        assert avg * n < n;
      }
    }
  }

  /** The profit and loss filters pick disjoint rows, and their P&L totals have the sign
      of their name. */
  lemma {:induction false} ProfitLossTotals(ps: seq<Position>)
    ensures TotalPnl(Select(ps, ProfitOnly)) >= 0.0
    ensures TotalPnl(Select(ps, LossOnly)) <= 0.0
    ensures TotalPnl(Select(ps, ProfitOnly)) > 0.0 <==> |Select(ps, ProfitOnly)| > 0
  {
    if ps != [] {
      ProfitLossTotals(ps[..|ps| - 1]);
      var init := ps[..|ps| - 1];
      var last := ps[|ps| - 1];
      if Passes(last, ProfitOnly) {
        assert (Select(init, ProfitOnly) + [last])[..|Select(init, ProfitOnly)|] == Select(init, ProfitOnly);
      }
      if Passes(last, LossOnly) {
        assert (Select(init, LossOnly) + [last])[..|Select(init, LossOnly)|] == Select(init, LossOnly);
      }
    }
  }

  /** `calculatePnlPercentage`: 0 for a zero (or missing) P&L, else the P&L over the entry
      value, in percent. */
  function PnlPercentage(p: Position): Num
  {
    if p.pnl == 0.0 then Finite(0.0)
    else Common.Percent(Divide(p.pnl, p.entryPrice * p.quantity))
  }

  /** For a position marked by a tick, the percentage is the price move relative to the
      entry, taken positive in the trade's favour; it does not depend on the quantity or
      the leverage. */
  lemma PnlPercentageIsPriceMove(p: Position, price: real)
    requires p.entryPrice > 0.0 && p.quantity > 0.0
    ensures var pct := PnlPercentage(Mark(p, price));
            && pct.Finite?
            && pct.v * p.entryPrice ==
               (if p.direction == Buy then price - p.entryPrice else p.entryPrice - price) * 100.0
  {
    var m := Mark(p, price);
    var value := p.entryPrice * p.quantity;
    assert value > 0.0;
    var move := if p.direction == Buy then price - p.entryPrice else p.entryPrice - price;
    assert m.pnl == move * p.quantity;
    if m.pnl != 0.0 {
      var d := Divide(m.pnl, value);
      assert d.v * value == m.pnl;
      assert d.v * p.entryPrice * p.quantity == move * p.quantity;
      assert d.v * p.entryPrice == move;
    } else {
      assert move == 0.0;
    }
  }
}
