/** The price alert record shared by the browser (`AlertsContext.jsx`, `api.js`) and the
    backend (`backend/app.py`), and the list lookups both sides use. */
module AlertModel {
  import opened Common

  type AlertId = string

  /** `'above'`, `'below'`, `'crosses'`, or any other text the record carries. */
  datatype Condition = Above | Below | Crosses | Other(name: string)

  datatype AlertStatus = Active | Triggered

  /** The alert's `value` text as a number: `Valid(v)` when it reads as the finite number
      `v`, `Invalid` when it does not (`parseFloat` gives NaN; Python's `float` raises on
      such text, except on the texts `nan` and `inf`, which are not modelled). */
  datatype Threshold = Valid(v: real) | Invalid

  datatype Alert = Alert(
    id: AlertId,
    symbol: string,
    kind: string,          // the `type` field: 'price', 'volume', 'ma_cross'
    condition: Condition,
    value: Threshold,
    notifyDiscord: bool,
    createdAt: nat,
    status: AlertStatus)

  /** The half-width of the "very close to the threshold" band: `max(0.001 * value, 0.5)`. */
  function Band(value: real): (r: real)
    ensures r >= 0.5 && r >= 0.001 * value
  {
    Max(0.001 * value, 0.5)
  }

  predicate NearThreshold(price: real, value: real)
  {
    Abs(price - value) < Band(value)
  }

  /** A price at the threshold, or within half a unit of it, is always near it. */
  lemma NearThresholdCovers(price: real, value: real)
    requires Abs(price - value) < 0.5
    ensures NearThreshold(price, value)
  {
  }

  /** `findIndex(a => a.id === id)`. */
  function FirstIndex(alerts: seq<Alert>, id: AlertId): (r: Option<nat>)
    ensures r.Some? ==> r.value < |alerts| && alerts[r.value].id == id
    ensures r.Some? ==> forall j :: 0 <= j < r.value ==> alerts[j].id != id
    ensures r.None? ==> forall j :: 0 <= j < |alerts| ==> alerts[j].id != id
  {
    if alerts == [] then None
    else if alerts[0].id == id then Some(0)
    else match FirstIndex(alerts[1..], id)
      case None => None
      case Some(k) => Some(k + 1)
  }

  /** `splice(index, 1)` / `pop(i)` at the first alert with the id; the list is unchanged
      when there is none. */
  function RemoveFirst(alerts: seq<Alert>, id: AlertId): (r: seq<Alert>)
    ensures FirstIndex(alerts, id).None? ==> r == alerts
    ensures FirstIndex(alerts, id).Some? ==>
              var k := FirstIndex(alerts, id).value;
              |r| == |alerts| - 1 && r[..k] == alerts[..k] && r[k..] == alerts[k + 1..]
  {
    match FirstIndex(alerts, id)
    case None => alerts
    case Some(k) => alerts[..k] + alerts[k + 1..]
  }

  /** Removing the first match takes out one alert with that id and no other alert: the
      multiset of the list loses exactly that element. */
  lemma RemoveFirstTakesOne(alerts: seq<Alert>, id: AlertId)
    requires FirstIndex(alerts, id).Some?
    ensures var k := FirstIndex(alerts, id).value;
            multiset(RemoveFirst(alerts, id)) + multiset{alerts[k]} == multiset(alerts)
  {
    var k := FirstIndex(alerts, id).value;
    var front, back := alerts[..k], alerts[k + 1..];
    assert RemoveFirst(alerts, id) == front + back;
    assert alerts == front + [alerts[k]] + back;
    calc {
      multiset(alerts);
      multiset(front + [alerts[k]]) + multiset(back);
      multiset(front) + multiset{alerts[k]} + multiset(back);
      multiset(front + back) + multiset{alerts[k]};
    }
  }
}
