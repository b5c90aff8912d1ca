/** The alert logic of `backend/app.py`: the per-alert condition test of the `check_alerts`
    loop, which makes "triggered" a permanent status, and the in-memory `alerts` list behind
    the create, update and delete routes. */
module BackendAlerts {
  import opened Common
  import opened AlertModel
  import ClientAlerts
  import AlertApi

  /** The condition test: `above` and `below` are strict level tests; `crosses` fires on a
      crossing from the last price or when the price is near the threshold. */
  function Evaluate(condition: Condition, current: real, last: real, v: real): bool
  {
    match condition
    case Above => current > v
    case Below => current < v
    case Crosses =>
      ClientAlerts.CrossedUp(last, current, v) || ClientAlerts.CrossedDown(last, current, v) ||
      NearThreshold(current, v)
    case Other(_) => false
  }

  /** The backend's `crosses` is the union of the browser's two rules: the live engine's
      crossing from the last price and the level rule's proximity band. */
  lemma CrossesIsUnionOfClientRules(a: Alert, current: real, last: real, v: real)
    requires a.condition == Crosses && a.value == Valid(v) && current != 0.0
    ensures Evaluate(Crosses, current, last, v) <==>
              ClientAlerts.Crossed(Crosses, last, a.value, current) ||
              AlertApi.CheckAlertTrigger(Some(a), Some(current))
  {
  }

  /** The backend's `above` and `below` are strict where the browser's level rule is not:
      a price exactly at the threshold fires in the browser only. */
  lemma StrictAtThreshold(a: Alert, v: real)
    requires a.value == Valid(v) && v != 0.0 && (a.condition == Above || a.condition == Below)
    ensures !Evaluate(a.condition, v, v, v)
    ensures AlertApi.CheckAlertTrigger(Some(a), Some(v))
  {
  }

  /** With no remembered price the last price is the current one, so `crosses` can fire
      only through the proximity band. */
  lemma FirstCheckOnlyByProximity(current: real, v: real)
    ensures Evaluate(Crosses, current, current, v) <==> NearThreshold(current, v)
  {
  }

  /** The `last_prices` key `f"{symbol}_{id}"`. */
  function PriceKey(a: Alert): string
  {
    a.symbol + "_" + a.id
  }

  datatype Checked = Checked(alert: Alert, lastPrices: map<string, real>)

  /** One alert's turn in the loop. `quote` is the fetched price (the exchange service
      never fails: when the exchange cannot be reached it answers a simulated price). An
      inactive alert and a value that `float` rejects skip the alert without touching the
      last prices. */
  function CheckOne(a: Alert, quote: real, lastPrices: map<string, real>): Checked
  {
    if a.status != Active || a.value.Invalid? then Checked(a, lastPrices)
    else
      var current := quote;
      var key := PriceKey(a);
      var last := if key in lastPrices then lastPrices[key] else current;
      var fire := Evaluate(a.condition, current, last, a.value.v);
      Checked(if fire then a.(status := Triggered) else a, lastPrices[key := current])
  }

  /** One alert's turn changes at most its status, only from active to triggered, and only
      when the condition holds against the remembered (or current) price; a checked alert
      always leaves its current price behind as the last price. */
  lemma CheckOneContract(a: Alert, quote: real, lastPrices: map<string, real>)
    ensures var c := CheckOne(a, quote, lastPrices);
            && c.alert == a.(status := c.alert.status)
            && (a.status == Triggered ==> c == Checked(a, lastPrices))
            && (a.value.Invalid? ==> c == Checked(a, lastPrices))
            && (c.alert.status != a.status ==> a.status == Active && c.alert.status == Triggered)
    ensures var c := CheckOne(a, quote, lastPrices);
            a.status == Active && a.value.Valid? ==>
              var last := if PriceKey(a) in lastPrices then lastPrices[PriceKey(a)] else quote;
              && c.lastPrices == lastPrices[PriceKey(a) := quote]
              && (c.alert.status == Triggered <==> Evaluate(a.condition, quote, last, a.value.v))
  {
  }

  datatype Pass = Pass(alerts: seq<Alert>, lastPrices: map<string, real>)

  /** One pass of the `for alert in alerts` loop over the alerts with their fetched
      quotes. */
  function CheckPass(alerts: seq<Alert>, quotes: seq<real>, lastPrices: map<string, real>): (r: Pass)
    requires |quotes| == |alerts|
    ensures |r.alerts| == |alerts|
  {
    if alerts == [] then Pass([], lastPrices)
    else
      var n := |alerts| - 1;
      var p := CheckPass(alerts[..n], quotes[..n], lastPrices);
      var c := CheckOne(alerts[n], quotes[n], p.lastPrices);
      Pass(p.alerts + [c.alert], c.lastPrices)
  }

  /** "Triggered" is permanent: a pass never reactivates an alert and leaves a triggered
      one exactly as it was; every alert keeps everything but its status. */
  lemma {:induction false} TriggeredIsPermanent(alerts: seq<Alert>, quotes: seq<real>,
                                                lastPrices: map<string, real>, i: nat)
    requires |quotes| == |alerts| && i < |alerts|
    ensures var r := CheckPass(alerts, quotes, lastPrices).alerts[i];
            && r == alerts[i].(status := r.status)
            && (alerts[i].status == Triggered ==> r == alerts[i])
            && (r.status == Active ==> alerts[i].status == Active)
  {
    var n := |alerts| - 1;
    if i < n {
      TriggeredIsPermanent(alerts[..n], quotes[..n], lastPrices, i);
    } else {
      CheckOneContract(alerts[n], quotes[n], CheckPass(alerts[..n], quotes[..n], lastPrices).lastPrices);
    }
  }

  /** `create_alert`: the request body plus a new id, creation time and status active. */
  datatype AlertBase = AlertBase(symbol: string, kind: string, condition: Condition,
                                 value: Threshold, notifyDiscord: bool)

  function NewAlert(body: AlertBase, id: AlertId, now: nat): (a: Alert)
    ensures a.status == Active && a.id == id && a.createdAt == now
  {
    Alert(id, body.symbol, body.kind, body.condition, body.value, body.notifyDiscord, now, Active)
  }

  /** `update_alert`: the body replaces every field but id, creation time and status. */
  function Updated(stored: Alert, body: AlertBase): (a: Alert)
    ensures a.id == stored.id && a.createdAt == stored.createdAt && a.status == stored.status
  {
    Alert(stored.id, body.symbol, body.kind, body.condition, body.value, body.notifyDiscord,
          stored.createdAt, stored.status)
  }

  /** Updating never changes an alert's status, so an update cannot revive a triggered
      alert, and the body is taken whole. */
  lemma UpdateKeepsStatus(stored: Alert, body: AlertBase)
    ensures var a := Updated(stored, body);
            && a.status == stored.status
            && AlertBase(a.symbol, a.kind, a.condition, a.value, a.notifyDiscord) == body
  {
  }

  /** The module-level `alerts` list and the loop's `last_prices` dictionary. */
  class AlertService {
    var alerts: seq<Alert>
    var lastPrices: map<string, real>

    constructor ()
      ensures alerts == [] && lastPrices == map[]
    {
      alerts := [];
      lastPrices := map[];
    }

    /** One pass of `check_alerts`; `quotes[i]` is the price fetched for `alerts[i]`. */
    method CheckAlerts(quotes: seq<real>)
      requires |quotes| == |alerts|
      modifies this
      ensures Pass(alerts, lastPrices) == CheckPass(old(alerts), quotes, old(lastPrices))
    {
      ghost var start := alerts;
      ghost var lastStart := lastPrices;
      var i := 0;
      while i < |alerts|
        invariant |alerts| == |start| && 0 <= i <= |start|
        invariant Pass(alerts[..i], lastPrices) == CheckPass(start[..i], quotes[..i], lastStart)
        invariant forall j :: i <= j < |alerts| ==> alerts[j] == start[j]
      {
        var c := CheckOne(alerts[i], quotes[i], lastPrices);
        assert start[..i + 1][..i] == start[..i] && quotes[..i + 1][..i] == quotes[..i];
        assert start[i] == alerts[i];
        ghost var before := alerts;
        alerts := alerts[i := c.alert];
        lastPrices := c.lastPrices;
        assert alerts[..i + 1] == before[..i] + [c.alert];
        i := i + 1;
      }
      assert start[..i] == start && quotes[..i] == quotes && alerts[..i] == alerts;
    }

    method CreateAlert(body: AlertBase, id: AlertId, now: nat) returns (a: Alert)
      modifies this
      ensures a == NewAlert(body, id, now)
      ensures alerts == old(alerts) + [a] && lastPrices == old(lastPrices)
    {
      a := NewAlert(body, id, now);
      alerts := alerts + [a];
    }

    /** `delete_alert`: pops the first alert with the id, or answers 404. */
    method DeleteAlert(id: AlertId) returns (r: Result<bool>)
      modifies this
      ensures r.Err? <==> FirstIndex(old(alerts), id).None?
      ensures alerts == RemoveFirst(old(alerts), id) && lastPrices == old(lastPrices)
    {
      var index := FirstIndex(alerts, id);
      if index.None? {
        return Err(NotFound);
      }
      alerts := alerts[..index.value] + alerts[index.value + 1..];
      r := Ok(true);
    }

    /** `update_alert`: replaces the first alert with the id, or answers 404. */
    method UpdateAlert(id: AlertId, body: AlertBase) returns (r: Result<Alert>)
      modifies this
      ensures r.Err? <==> FirstIndex(old(alerts), id).None?
      ensures r.Err? ==> alerts == old(alerts)
      ensures r.Ok? ==>
                var k := FirstIndex(old(alerts), id).value;
                r.value == Updated(old(alerts)[k], body) && alerts == old(alerts)[k := r.value]
      ensures lastPrices == old(lastPrices)
    {
      var index := FirstIndex(alerts, id);
      if index.None? {
        return Err(NotFound);
      }
      var updated := Updated(alerts[index.value], body);
      alerts := alerts[index.value := updated];
      r := Ok(updated);
    }
  }
}
