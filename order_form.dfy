/** The risk arithmetic of the order-entry form, `frontend/src/components/OrderForm.jsx`:
    liquidation price, lots to quantity, margin and the can-execute flag, and the TP/SL
    checks that gate submission. */
module OrderEntry {
  import opened Common
  import Trading

  /** The default maintenance-margin rate of `calculateLiquidationPrice`. */
  const DefaultMaintenance: real := 0.01

  /** The leverages the form offers. */
  const LeverageChoices: seq<Leverage> := [1, 2, 5, 10, 25, 50, 100]

  /** Displayed liquidation price (nothing in the ledger acts on it). */
  function LiquidationPrice(entryPrice: real, leverage: Leverage, direction: Direction, maintenance: real): real
  {
    if direction == Buy then entryPrice * (1.0 - 1.0 / leverage as real + maintenance)
    else entryPrice * (1.0 + 1.0 / leverage as real - maintenance)
  }

  /** With the default rate and a leverage up to 100 a buy is liquidated at or below its entry
      and a sell at or above it; the two meet the entry price exactly at leverage 100. */
  lemma LiquidationSide(entryPrice: real, leverage: Leverage, direction: Direction)
    requires entryPrice > 0.0 && leverage <= 100
    ensures var liq := LiquidationPrice(entryPrice, leverage, direction, DefaultMaintenance);
            && (direction == Buy ==> liq <= entryPrice)
            && (direction == Sell ==> liq >= entryPrice)
            && (liq == entryPrice <==> leverage == 100)
  {
    var l := leverage as real;
    var inv := 1.0 / l;
    assert inv * l == 1.0;
    assert DefaultMaintenance * l <= 1.0;
    assert (inv - DefaultMaintenance) * l >= 0.0;
    assert inv >= DefaultMaintenance;
    assert inv == DefaultMaintenance <==> leverage == 100 by {
      if inv == DefaultMaintenance {
        assert DefaultMaintenance * l == 1.0;
      }
    }
    var gap := inv - DefaultMaintenance;
    assert LiquidationPrice(entryPrice, leverage, Buy, DefaultMaintenance) == entryPrice - entryPrice * gap;
    assert LiquidationPrice(entryPrice, leverage, Sell, DefaultMaintenance) == entryPrice + entryPrice * gap;
    assert entryPrice * gap >= 0.0;
    assert entryPrice * gap == 0.0 <==> gap == 0.0;
  }

  /** Every leverage on offer keeps the liquidation price on the losing side of the entry. */
  lemma OfferedLeveragesAreSafe(entryPrice: real, direction: Direction, i: nat)
    requires entryPrice > 0.0 && i < |LeverageChoices|
    ensures var liq := LiquidationPrice(entryPrice, LeverageChoices[i], direction, DefaultMaintenance);
            direction == Buy ==> liq <= entryPrice
    ensures var liq := LiquidationPrice(entryPrice, LeverageChoices[i], direction, DefaultMaintenance);
            direction == Sell ==> liq >= entryPrice
  {
    LiquidationSide(entryPrice, LeverageChoices[i], direction);
  }

  // ---------------------------------------------------------------------------------------
  // Lots and quantities

  const LotSizes: map<string, real> := map[
    "BTCUSDT" := 0.001, "ETHUSDT" := 0.01, "SOLUSDT" := 1.0, "BNBUSDT" := 0.1,
    "XRPUSDT" := 1.0, "DOGEUSDT" := 100.0, "AVAXUSDT" := 1.0, "BCHUSDT" := 0.01,
    "LTCUSDT" := 0.1, "ADAUSDT" := 1.0, "DOTUSDT" := 1.0]

  const QuantityPrecisions: map<string, nat> := map[
    "BTCUSDT" := 3, "ETHUSDT" := 2, "SOLUSDT" := 1, "BNBUSDT" := 2, "XRPUSDT" := 0,
    "DOGEUSDT" := 0, "AVAXUSDT" := 0, "BCHUSDT" := 2, "LTCUSDT" := 1, "ADAUSDT" := 0,
    "DOTUSDT" := 0]

  /** `LOT_SIZES[symbol] || 1`. */
  function LotSize(symbol: string): real
  {
    if symbol in LotSizes && LotSizes[symbol] != 0.0 then LotSizes[symbol] else 1.0
  }

  /** `QUANTITY_PRECISION[symbol] || 8`: a configured precision of 0 is falsy and becomes 8. */
  function QuantityPrecision(symbol: string): nat
  {
    if symbol in QuantityPrecisions && QuantityPrecisions[symbol] != 0 then QuantityPrecisions[symbol] else 8
  }

  /** The precision never comes out as 0, even for the symbols configured with 0. */
  lemma QuantityPrecisionNeverZero(symbol: string)
    ensures QuantityPrecision(symbol) >= 1
    ensures symbol in QuantityPrecisions && QuantityPrecisions[symbol] == 0 ==> QuantityPrecision(symbol) == 8
    ensures symbol !in QuantityPrecisions ==> QuantityPrecision(symbol) == 8
  {
  }

  /** `(parseFloat(lots) || 0) * lotSize`, before the rounding to `QuantityPrecision`. */
  function LotsToQuantity(lots: Field, symbol: string): (q: real)
    ensures lots.Entered? ==> q == lots.v * LotSize(symbol)
    ensures lots.Blank? ==> q == 0.0
  {
    match lots
    case Blank => 0.0
    case Entered(n) => (if n != 0.0 then n else 0.0) * LotSize(symbol)
  }

  /** Every lot size is positive, so the quantity has the sign of the lot count, and an
      unknown symbol trades one unit per lot. */
  lemma LotsToQuantitySign(lots: real, symbol: string)
    ensures LotSize(symbol) > 0.0
    ensures LotsToQuantity(Entered(lots), symbol) > 0.0 <==> lots > 0.0
    ensures symbol !in LotSizes ==> LotsToQuantity(Entered(lots), symbol) == lots
  {
    var s := LotSize(symbol);
    assert s > 0.0;
    if lots > 0.0 {
      assert lots * s > 0.0;
    } else {
      assert (-lots) * s >= 0.0;
    }
  }

  // ---------------------------------------------------------------------------------------
  // Margin and the can-execute flag

  /** The price an order is entered at: the market price, or `parseFloat(limitPrice)`. */
  function OrderPrice(orderType: Trading.OrderType, currentPrice: Option<real>, limitPrice: Field): Option<real>
  {
    if orderType == Trading.Market then currentPrice else FieldValue(limitPrice)
  }

  /** A JavaScript number used as a condition: absent (NaN, null, undefined) and 0 are false. */
  predicate Truthy(x: Option<real>)
  {
    x.Some? && x.value != 0.0
  }

  datatype MarginView = MarginView(margin: real, canExecute: bool)

  function MarginCheck(price: Option<real>, quantity: real, leverage: Leverage, balance: real): (r: MarginView)
    ensures Truthy(price) && quantity > 0.0 ==>
              r.margin * leverage as real == price.value * quantity &&
              (r.canExecute <==> 0.0 < r.margin <= balance)
    ensures !(Truthy(price) && quantity > 0.0) ==> r.margin == 0.0 && (r.canExecute <==> quantity == 0.0)
  {
    if Truthy(price) && quantity > 0.0 then
      var margin := price.value * quantity / leverage as real;
      MarginView(margin, margin <= balance && margin > 0.0)
    else
      MarginView(0.0, quantity == 0.0)
  }

  /** With a quantity entered, the form lets an order through exactly when the ledger will
      accept it with a positive margin: the form's margin is the ledger's. */
  lemma CanExecuteMatchesLedger(b: Trading.Book, o: Trading.Order)
    requires o.quantity > 0.0 && o.entryPrice != 0.0
    ensures var v := MarginCheck(Some(o.entryPrice), o.quantity, o.leverage, b.balance);
            && v.margin == Trading.RequiredMargin(o.entryPrice, o.quantity, o.leverage)
            && (v.canExecute <==> Trading.TradeAccepted(b, o) && v.margin > 0.0)
  {
  }

  // ---------------------------------------------------------------------------------------
  // Take-profit / stop-loss checks

  /** The price the TP/SL checks compare with: the market price, or
      `parseFloat(limitPrice || 0)` (so an empty limit field reads as 0). Before the first
      tick the market price is `null`, which JavaScript's `<=` and `>=` read as 0. */
  function ValidationPrice(orderType: Trading.OrderType, currentPrice: Option<real>, limitPrice: Field): real
  {
    if orderType == Trading.Market then
      match currentPrice
        case None => 0.0
        case Some(p) => p
    else match limitPrice
      case Blank => 0.0
      case Entered(v) => v
  }

  datatype TpSlErrors = TpSlErrors(takeProfit: bool, stopLoss: bool)

  /** Flags a take-profit on the losing side of the price and a stop-loss on the winning
      side; an empty field flags nothing. */
  function ValidateOrderTpSl(direction: Direction, price: real, tp: Field, sl: Field): (e: TpSlErrors)
    ensures !e.takeProfit <==>
              (tp.Blank? || (if direction == Buy then tp.v > price else tp.v < price))
    ensures !e.stopLoss <==>
              (sl.Blank? || (if direction == Buy then sl.v < price else sl.v > price))
  {
    var tpError :=
      tp.Entered? && ((direction == Buy && tp.v <= price) || (direction == Sell && tp.v >= price));
    var slError :=
      sl.Entered? && ((direction == Buy && sl.v >= price) || (direction == Sell && sl.v <= price));
    TpSlErrors(tpError, slError)
  }

  /** With no market price yet, the checks compare with 0: a sell take-profit and a buy
      stop-loss at any positive level are flagged. */
  lemma MissingPriceReadsAsZero(limitPrice: Field, level: real)
    requires level > 0.0
    ensures var price := ValidationPrice(Trading.Market, None, limitPrice);
            && ValidateOrderTpSl(Sell, price, Entered(level), Blank).takeProfit
            && ValidateOrderTpSl(Buy, price, Blank, Entered(level)).stopLoss
  {
  }

  /** `handleSubmit`: proceeds to confirmation only when the order can execute and neither
      field has an error. */
  predicate SubmitProceeds(canExecute: bool, errors: TpSlErrors)
  {
    canExecute && !errors.takeProfit && !errors.stopLoss
  }

  /** The order `handleConfirmOrder` hands to `executeTrade`. */
  function ConfirmedOrder(symbol: string, direction: Direction, quantity: real, price: real,
                          leverage: Leverage, orderType: Trading.OrderType, tp: Field, sl: Field): Trading.Order
  {
    Trading.Order(symbol, direction, quantity, price, leverage, orderType, FieldValue(tp), FieldValue(sl))
  }

  /** A market order that passed the form's checks is not closed by a tick at its own entry
      price: its thresholds lie strictly beyond the entry on the proper sides. */
  lemma ValidatedOrderSurvivesEntryTick(b: Trading.Book, symbol: string, direction: Direction,
                                        quantity: real, price: real, leverage: Leverage,
                                        tp: Field, sl: Field, id: Trading.Id, now: nat)
    requires var e := ValidateOrderTpSl(direction, price, tp, sl);
             SubmitProceeds(MarginCheck(Some(price), quantity, leverage, b.balance).canExecute, e)
    requires quantity > 0.0
    ensures var o := ConfirmedOrder(symbol, direction, quantity, price, leverage, Trading.Market, tp, sl);
            Trading.Trigger(Trading.NewPosition(o, id, now), price).None?
  {
  }
}
