/** The shared price formatter of `frontend/src/utils/formatters.js`: a per-symbol override
    of the number of decimals, else a precision chosen by the size of the price. */
module Formatters {
  import opened Common
  import Chart

  /** The symbols with a fixed number of decimals. */
  const Overrides: map<string, nat> :=
    map["DOGEUSDT" := 5, "XRPUSDT" := 4, "BTCUSDT" := 1, "ETHUSDT" := 2, "BCHUSDT" := 2, "ADAUSDT" := 4]

  /** `getDecimalPrecision(price, symbol)`; the empty symbol (the default) is never an
      override. */
  function DecimalPrecision(price: real, symbol: string): (r: nat)
    ensures symbol in Overrides ==> r == Overrides[symbol]
    ensures symbol !in Overrides ==> r == Chart.DecimalPrecision(price)
  {
    if symbol == "DOGEUSDT" then 5
    else if symbol == "XRPUSDT" then 4
    else if symbol == "BTCUSDT" then 1
    else if symbol == "ETHUSDT" then 2
    else if symbol == "BCHUSDT" then 2
    else if symbol == "ADAUSDT" then 4
    else if price < 0.0001 then 8
    else if price < 0.01 then 6
    else if price < 1.0 then 5
    else if price < 10.0 then 4
    else if price < 100.0 then 3
    else 2
  }

  /** The precision is always one of the listed counts, and without an override it never
      grows with the price. */
  lemma DecimalPrecisionRange(p: real, q: real, symbol: string)
    ensures DecimalPrecision(p, symbol) in {1, 2, 3, 4, 5, 6, 8}
    ensures symbol !in Overrides && p <= q ==> DecimalPrecision(p, symbol) >= DecimalPrecision(q, symbol)
    ensures symbol == "" ==> DecimalPrecision(p, symbol) == Chart.DecimalPrecision(p)
  {
    if symbol !in Overrides && p <= q {
      Chart.DecimalPrecisionMonotone(p, q);
    }
  }

  /** The formatter and the chart's price scale show the same number of decimals for the
      four symbols both of them fix. */
  lemma OverridesAgreeWithChart(price: real, symbol: string, currentPrice: Option<real>)
    requires symbol in {"DOGEUSDT", "XRPUSDT", "BTCUSDT", "ETHUSDT"}
    ensures DecimalPrecision(price, symbol) == Chart.PriceFormatFor(symbol, currentPrice).precision
  {
  }

  /** What `formatPrice` produces: `--` for a missing price, else the price written with a
      fixed number of decimals. */
  datatype Formatted = Missing | Fixed(value: real, decimals: nat)

  function FormatPrice(price: Option<real>, symbol: string): (r: Formatted)
    ensures r.Missing? <==> price.None?
    ensures r.Fixed? ==> r.value == price.value && r.decimals == DecimalPrecision(price.value, symbol)
  {
    if price.None? then Missing else Fixed(price.value, DecimalPrecision(price.value, symbol))
  }
}
