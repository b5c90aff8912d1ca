/** The browser's alert engine, `frontend/src/context/AlertsContext.jsx`: edge-triggered
    crossing detection per alert, with a remembered last price, a silent first observation
    and a one-minute cooldown kept as a map of trigger times. */
module ClientAlerts {
  import opened Common
  import opened AlertModel

  /** Milliseconds an alert stays quiet after it fires. */
  const Cooldown: int := 60000

  /** `lastCheckedPricesRef` and `triggeredTimeRef`. */
  datatype Watch = Watch(lastPrices: map<AlertId, real>, triggerTimes: map<AlertId, int>)

  /** `triggeredTimeRef.current[id] || 0`. */
  function LastTrigger(w: Watch, id: AlertId): int
  {
    if id in w.triggerTimes then w.triggerTimes[id] else 0
  }

  predicate InCooldown(w: Watch, id: AlertId, now: int)
  {
    now - LastTrigger(w, id) < Cooldown
  }

  /** The price moved from below the threshold to at or above it. */
  predicate CrossedUp(last: real, price: real, v: real)
  {
    last < v && price >= v
  }

  /** The price moved from above the threshold to at or below it. */
  predicate CrossedDown(last: real, price: real, v: real)
  {
    last > v && price <= v
  }

  /** Whether the move from `last` to `price` fires an alert of this condition; a value
      that is not a number never fires. */
  predicate Crossed(condition: Condition, last: real, value: Threshold, price: real)
  {
    match value
    case Invalid => false
    case Valid(v) =>
      match condition
      case Above => CrossedUp(last, price, v)
      case Below => CrossedDown(last, price, v)
      case Crosses => CrossedUp(last, price, v) || CrossedDown(last, price, v)
      case Other(_) => false
  }

  /** `above` fires iff `last < value <= price`, `below` iff `last > value >= price`, and
      `crosses` iff one of the two does; the two directions never hold together. */
  lemma CrossedMeaning(last: real, v: real, price: real)
    ensures Crossed(Above, last, Valid(v), price) <==> last < v <= price
    ensures Crossed(Below, last, Valid(v), price) <==> price <= v < last
    ensures Crossed(Crosses, last, Valid(v), price) <==>
              Crossed(Above, last, Valid(v), price) || Crossed(Below, last, Valid(v), price)
    ensures !(Crossed(Above, last, Valid(v), price) && Crossed(Below, last, Valid(v), price))
    ensures Crossed(Crosses, last, Valid(v), price) ==> last != price
  {
  }

  datatype Step = Step(watch: Watch, fired: bool)

  /** One alert's turn in `checkAlertsForSymbol`. */
  function Observe(w: Watch, a: Alert, price: real, now: int): Step
  {
    if a.id !in w.lastPrices then
      Step(w.(lastPrices := w.lastPrices[a.id := price]), false)
    else if InCooldown(w, a.id, now) then
      Step(w, false)
    else
      var fire := Crossed(a.condition, w.lastPrices[a.id], a.value, price);
      Step(Watch(w.lastPrices[a.id := price],
                 if fire then w.triggerTimes[a.id := now] else w.triggerTimes),
           fire)
  }

  /** The three cases of one observation: a first observation only stores the price; during
      the cooldown nothing changes, the last price included; otherwise the last price
      becomes the current one whether or not the alert fires, it fires exactly on a crossing
      from the stored price, and firing stamps the trigger time with `now`. */
  lemma ObserveCases(w: Watch, a: Alert, price: real, now: int)
    ensures var r := Observe(w, a, price, now);
            a.id !in w.lastPrices ==>
              !r.fired && r.watch.lastPrices == w.lastPrices[a.id := price] &&
              r.watch.triggerTimes == w.triggerTimes
    ensures var r := Observe(w, a, price, now);
            a.id in w.lastPrices && InCooldown(w, a.id, now) ==> r == Step(w, false)
    ensures var r := Observe(w, a, price, now);
            a.id in w.lastPrices && !InCooldown(w, a.id, now) ==>
              && r.watch.lastPrices == w.lastPrices[a.id := price]
              && (r.fired <==> Crossed(a.condition, w.lastPrices[a.id], a.value, price))
              && (r.fired ==> r.watch.triggerTimes == w.triggerTimes[a.id := now])
              && (!r.fired ==> r.watch.triggerTimes == w.triggerTimes)
  {
  }

  /** Once an alert fires, any check less than a minute later skips it. */
  lemma RepeatIsInCooldown(w: Watch, a: Alert, price: real, now: int, b: Alert, price2: real, later: int)
    requires Observe(w, a, price, now).fired
    requires b.id == a.id && later < now + Cooldown
    ensures var w1 := Observe(w, a, price, now).watch;
            Observe(w1, b, price2, later) == Step(w1, false)
  {
  }

  /** `resetTriggeredAlert`: forget the trigger time. */
  function Reset(w: Watch, id: AlertId): Watch
  {
    w.(triggerTimes := w.triggerTimes - {id})
  }

  /** After a reset, the next crossing fires at once (at any clock past the first minute of
      the epoch), and the stored last prices are kept. */
  lemma ResetReenables(w: Watch, a: Alert, price: real, now: int)
    requires now >= Cooldown && a.id in w.lastPrices
    ensures !InCooldown(Reset(w, a.id), a.id, now)
    ensures Reset(w, a.id).lastPrices == w.lastPrices
    ensures Observe(Reset(w, a.id), a, price, now).fired <==>
              Crossed(a.condition, w.lastPrices[a.id], a.value, price)
  {
  }

  /** `alerts.filter(a => a.symbol === symbol && a.status === 'active')`. */
  function Relevant(alerts: seq<Alert>, symbol: string): (r: seq<Alert>)
    ensures forall a :: a in r <==> a in alerts && a.symbol == symbol && a.status == Active
  {
    if alerts == [] then []
    else
      var init := Relevant(alerts[..|alerts| - 1], symbol);
      var last := alerts[|alerts| - 1];
      assert alerts == alerts[..|alerts| - 1] + [last];
      if last.symbol == symbol && last.status == Active then init + [last] else init
  }

  datatype Sweep = Sweep(watch: Watch, fired: seq<Alert>)

  /** The `forEach` over the relevant alerts, each one seeing the maps as the previous ones
      left them. */
  function SweepAll(w: Watch, alerts: seq<Alert>, price: real, now: int): Sweep
  {
    if alerts == [] then Sweep(w, [])
    else
      var s := SweepAll(w, alerts[..|alerts| - 1], price, now);
      var a := alerts[|alerts| - 1];
      var o := Observe(s.watch, a, price, now);
      Sweep(o.watch, s.fired + (if o.fired then [a] else []))
  }

  /** `checkAlertsForSymbol`: nothing while the initial-load flag is up. */
  function Check(alerts: seq<Alert>, w: Watch, initialLoad: bool, symbol: string, price: real, now: int): Sweep
  {
    if initialLoad then Sweep(w, []) else SweepAll(w, Relevant(alerts, symbol), price, now)
  }

  /** Every alert a sweep returns was among those checked, and afterwards its trigger time is
      `now`; the sweep writes no trigger time other than `now`. */
  lemma {:induction false} FiredAreStamped(w: Watch, alerts: seq<Alert>, price: real, now: int)
    ensures var s := SweepAll(w, alerts, price, now);
            forall a :: a in s.fired ==>
              a in alerts && a.id in s.watch.triggerTimes && s.watch.triggerTimes[a.id] == now
    ensures var s := SweepAll(w, alerts, price, now);
            forall id :: id in s.watch.triggerTimes ==>
              s.watch.triggerTimes[id] == now ||
              (id in w.triggerTimes && s.watch.triggerTimes[id] == w.triggerTimes[id])
  {
    if alerts != [] {
      var init := alerts[..|alerts| - 1];
      var a := alerts[|alerts| - 1];
      FiredAreStamped(w, init, price, now);
      var s := SweepAll(w, init, price, now);
      var o := Observe(s.watch, a, price, now);
      assert alerts == init + [a];
      forall b | b in SweepAll(w, alerts, price, now).fired
        ensures b in alerts && b.id in o.watch.triggerTimes && o.watch.triggerTimes[b.id] == now
      {
        if b in s.fired {
          assert s.watch.triggerTimes[b.id] == now;
        }
      }
    }
  }

  /** Alerts that were not checked keep their stored last price and trigger time. */
  lemma {:induction false} SweepLeavesOthers(w: Watch, alerts: seq<Alert>, price: real, now: int, id: AlertId)
    requires forall a :: a in alerts ==> a.id != id
    ensures var s := SweepAll(w, alerts, price, now);
            && (id in s.watch.lastPrices <==> id in w.lastPrices)
            && (id in w.lastPrices ==> s.watch.lastPrices[id] == w.lastPrices[id])
            && LastTrigger(s.watch, id) == LastTrigger(w, id)
  {
    if alerts != [] {
      var init := alerts[..|alerts| - 1];
      assert forall a :: a in init ==> a in alerts;
      SweepLeavesOthers(w, init, price, now, id);
    }
  }

  /** An alert `above 100` fed 90, 95, 105, 102, 108 one second apart fires once, at 105:
      the first tick only seeds the price and the last two fall in the cooldown. A minute
      later 108 does not fire again, because the stored price is still 105. */
  lemma AboveScenario(t: int)
    requires t >= Cooldown
    ensures var a := Alert("1", "BTCUSDT", "price", Above, Valid(100.0), true, 0, Active);
            var s1 := Observe(Watch(map[], map[]), a, 90.0, t);
            var s2 := Observe(s1.watch, a, 95.0, t + 1000);
            var s3 := Observe(s2.watch, a, 105.0, t + 2000);
            var s4 := Observe(s3.watch, a, 102.0, t + 3000);
            var s5 := Observe(s4.watch, a, 108.0, t + 4000);
            var s6 := Observe(s5.watch, a, 108.0, t + 2000 + Cooldown);
            && [s1.fired, s2.fired, s3.fired, s4.fired, s5.fired, s6.fired] ==
               [false, false, true, false, false, false]
            && s5.watch.lastPrices["1"] == 105.0
  {
  }

  /** `prev.map(a => a.id === id ? updated : a)`. */
  function ReplaceById(alerts: seq<Alert>, id: AlertId, updated: Alert): (r: seq<Alert>)
    ensures |r| == |alerts|
  {
    seq(|alerts|, i requires 0 <= i < |alerts| => if alerts[i].id == id then updated else alerts[i])
  }

  /** Only the alerts with the id are replaced, and an unknown id leaves the list as it was. */
  lemma ReplaceByIdOnlyMatches(alerts: seq<Alert>, id: AlertId, updated: Alert)
    ensures forall i :: 0 <= i < |alerts| && alerts[i].id != id ==> ReplaceById(alerts, id, updated)[i] == alerts[i]
    ensures forall i :: 0 <= i < |alerts| && alerts[i].id == id ==> ReplaceById(alerts, id, updated)[i] == updated
    ensures FirstIndex(alerts, id).None? ==> ReplaceById(alerts, id, updated) == alerts
  {
  }

  /** The provider's alert list and its two refs, plus the latest price per symbol. */
  class AlertMonitor {
    var alerts: seq<Alert>
    var lastPrices: map<AlertId, real>
    var triggerTimes: map<AlertId, int>
    var latestPrices: map<string, real>
    var initialLoad: bool

    function Watched(): Watch
      reads this
    {
      Watch(lastPrices, triggerTimes)
    }

    /** The provider after `fetchAlerts` returned `loaded`, still inside the initial load. */
    constructor (loaded: seq<Alert>)
      ensures alerts == loaded && Watched() == Watch(map[], map[]) && latestPrices == map[]
      ensures initialLoad
    {
      alerts := loaded;
      lastPrices := map[];
      triggerTimes := map[];
      latestPrices := map[];
      initialLoad := true;
    }

    /** The 5-second timer after loading lowers the flag. */
    method FinishInitialLoad()
      modifies this
      ensures !initialLoad
      ensures alerts == old(alerts) && Watched() == old(Watched()) && latestPrices == old(latestPrices)
    {
      initialLoad := false;
    }

    method CheckAlertsForSymbol(symbol: string, price: real, now: int) returns (fired: seq<Alert>)
      modifies this
      ensures Sweep(Watched(), fired) == Check(old(alerts), old(Watched()), old(initialLoad), symbol, price, now)
      ensures alerts == old(alerts) && initialLoad == old(initialLoad) && latestPrices == old(latestPrices)
    {
      fired := [];
      if initialLoad {
        return;
      }
      var relevant := Relevant(alerts, symbol);
      var i := 0;
      while i < |relevant|
        invariant 0 <= i <= |relevant|
        invariant Sweep(Watched(), fired) == SweepAll(old(Watched()), relevant[..i], price, now)
        invariant alerts == old(alerts) && initialLoad == old(initialLoad) && latestPrices == old(latestPrices)
      {
        var a := relevant[i];
        if a.id !in lastPrices {
          lastPrices := lastPrices[a.id := price];
        } else {
          var lastTriggered := if a.id in triggerTimes then triggerTimes[a.id] else 0;
          if now - lastTriggered >= Cooldown {
            var shouldTrigger := Crossed(a.condition, lastPrices[a.id], a.value, price);
            lastPrices := lastPrices[a.id := price];
            if shouldTrigger {
              fired := fired + [a];
              triggerTimes := triggerTimes[a.id := now];
            }
          }
        }
        assert relevant[..i + 1][..i] == relevant[..i];
        i := i + 1;
      }
      assert relevant[..i] == relevant;
    }

    /** `checkAlertsAgainstPrice`: remember the price, then check the symbol's alerts. */
    method CheckAlertsAgainstPrice(symbol: string, price: real, now: int) returns (fired: seq<Alert>)
      modifies this
      ensures Sweep(Watched(), fired) == Check(old(alerts), old(Watched()), old(initialLoad), symbol, price, now)
      ensures latestPrices == old(latestPrices)[symbol := price]
      ensures alerts == old(alerts) && initialLoad == old(initialLoad)
    {
      latestPrices := latestPrices[symbol := price];
      fired := CheckAlertsForSymbol(symbol, price, now);
    }

    method ResetTriggeredAlert(id: AlertId)
      modifies this
      ensures Watched() == Reset(old(Watched()), id)
      ensures alerts == old(alerts) && initialLoad == old(initialLoad) && latestPrices == old(latestPrices)
    {
      triggerTimes := triggerTimes - {id};
    }

    /** `createAlertWithoutRefresh` once the store returned `created`. */
    method CreateAlertWithoutRefresh(created: Alert)
      modifies this
      ensures alerts == old(alerts) + [created]
      ensures Watched() == old(Watched()) && initialLoad == old(initialLoad) && latestPrices == old(latestPrices)
    {
      alerts := alerts + [created];
    }

    /** `updateAlertWithoutRefresh` once the store returned `updated`. */
    method UpdateAlertWithoutRefresh(id: AlertId, updated: Alert)
      modifies this
      ensures alerts == ReplaceById(old(alerts), id, updated)
      ensures Watched() == old(Watched()) && initialLoad == old(initialLoad) && latestPrices == old(latestPrices)
    {
      var current := alerts;
      alerts := seq(|current|, i requires 0 <= i < |current| => if current[i].id == id then updated else current[i]);
    }
  }
}
