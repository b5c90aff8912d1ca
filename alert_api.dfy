/** The alert helpers of `frontend/src/services/api.js`: the level-based `checkAlertTrigger`
    rule and the in-memory `mockAlerts` store that create, delete and update fall back to
    when the backend does not answer. */
module AlertApi {
  import opened Common
  import opened AlertModel
  import ClientAlerts

  /** `checkAlertTrigger(alert, currentPrice)`; `None` stands for a missing alert and for a
      price that is null, undefined or NaN. */
  function CheckAlertTrigger(alert: Option<Alert>, price: Option<real>): (r: bool)
    ensures alert.None? || price.None? || price == Some(0.0) || alert.value.value.Invalid? ==> !r
  {
    if alert.None? || price.None? || price.value == 0.0 then false
    else match alert.value.value
      case Invalid => false
      case Valid(v) =>
        var p := price.value;
        match alert.value.condition
        case Above => p >= v
        case Below => p <= v
        case Crosses => NearThreshold(p, v)
        case Other(_) => false
  }

  /** The rule is level-based: for a usable alert and a non-zero price, `above` holds iff the
      price is at or over the value, `below` iff at or under it, `crosses` iff the price is
      within the band around it, and any other condition never holds. */
  lemma CheckAlertTriggerLevels(a: Alert, p: real, v: real)
    requires p != 0.0 && a.value == Valid(v)
    ensures a.condition == Above ==> (CheckAlertTrigger(Some(a), Some(p)) <==> p >= v)
    ensures a.condition == Below ==> (CheckAlertTrigger(Some(a), Some(p)) <==> p <= v)
    ensures a.condition == Crosses ==> (CheckAlertTrigger(Some(a), Some(p)) <==> Abs(p - v) < Max(0.001 * v, 0.5))
    ensures a.condition.Other? ==> !CheckAlertTrigger(Some(a), Some(p))
  {
  }

  /** Every crossing the live engine fires on is also a level hit for `above` and `below`;
      the converse fails: a price that has stayed over the value is a level hit but no
      crossing. */
  lemma EdgeImpliesLevel(a: Alert, last: real, p: real)
    requires p != 0.0 && (a.condition == Above || a.condition == Below)
    ensures ClientAlerts.Crossed(a.condition, last, a.value, p) ==> CheckAlertTrigger(Some(a), Some(p))
    ensures a.condition == Above && a.value.Valid? && p > a.value.v ==>
              CheckAlertTrigger(Some(a), Some(p)) && !ClientAlerts.Crossed(a.condition, p, a.value, p)
  {
  }

  /** What the alert form hands to `createAlert`: the alert fields plus the
      `skipTestNotification` flag, which the store drops. */
  datatype AlertInput = AlertInput(
    symbol: string, kind: string, condition: Condition, value: Threshold,
    notifyDiscord: bool, skipTestNotification: bool)

  /** The fallback record: the input's fields, a new id and creation time, status active. */
  function NewMockAlert(input: AlertInput, id: AlertId, now: nat): (a: Alert)
    ensures a.id == id && a.createdAt == now && a.status == Active
  {
    Alert(id, input.symbol, input.kind, input.condition, input.value, input.notifyDiscord, now, Active)
  }

  /** The fields an update may carry; an absent field is left as it was. */
  datatype AlertPatch = AlertPatch(
    symbol: Option<string>, kind: Option<string>, condition: Option<Condition>,
    value: Option<Threshold>, notifyDiscord: Option<bool>, status: Option<AlertStatus>)

  function Pick<T>(given: Option<T>, current: T): T
  {
    if given.Some? then given.value else current
  }

  /** `{...stored, ...patch, id, created_at: stored.created_at}`. */
  function Patched(stored: Alert, patch: AlertPatch, id: AlertId): (a: Alert)
    ensures a.id == id && a.createdAt == stored.createdAt
  {
    Alert(id, Pick(patch.symbol, stored.symbol), Pick(patch.kind, stored.kind),
          Pick(patch.condition, stored.condition), Pick(patch.value, stored.value),
          Pick(patch.notifyDiscord, stored.notifyDiscord), stored.createdAt,
          Pick(patch.status, stored.status))
  }

  /** The fallback update: the first alert with the id is patched in place, or the call
      throws `Alert not found`. */
  function UpdateMock(alerts: seq<Alert>, id: AlertId, patch: AlertPatch): Result<Alert>
  {
    match FirstIndex(alerts, id)
    case None => Err(NotFound)
    case Some(k) => Ok(Patched(alerts[k], patch, id))
  }

  /** The update fails exactly for an unknown id; otherwise it keeps id and creation time,
      takes every field the patch gives, and keeps every field it does not. */
  lemma UpdateMockContract(alerts: seq<Alert>, id: AlertId, patch: AlertPatch)
    ensures UpdateMock(alerts, id, patch).Err? <==> FirstIndex(alerts, id).None?
    ensures UpdateMock(alerts, id, patch).Ok? ==>
              var old_ := alerts[FirstIndex(alerts, id).value];
              var a := UpdateMock(alerts, id, patch).value;
              && a.id == old_.id && a.createdAt == old_.createdAt
              && (patch.value.Some? ==> a.value == patch.value.value)
              && (patch.value.None? ==> a.value == old_.value)
              && (patch.condition.Some? ==> a.condition == patch.condition.value)
              && (patch.condition.None? ==> a.condition == old_.condition)
              && (patch.symbol.Some? ==> a.symbol == patch.symbol.value)
              && (patch.symbol.None? ==> a.symbol == old_.symbol)
              && (patch.kind.Some? ==> a.kind == patch.kind.value)
              && (patch.kind.None? ==> a.kind == old_.kind)
              && (patch.notifyDiscord.Some? ==> a.notifyDiscord == patch.notifyDiscord.value)
              && (patch.notifyDiscord.None? ==> a.notifyDiscord == old_.notifyDiscord)
              && (patch.status.Some? ==> a.status == patch.status.value)
              && (patch.status.None? ==> a.status == old_.status)
  {
  }

  /** An empty patch gives back the stored alert unchanged. */
  lemma EmptyPatchIsIdentity(alerts: seq<Alert>, id: AlertId)
    requires FirstIndex(alerts, id).Some?
    ensures UpdateMock(alerts, id, AlertPatch(None, None, None, None, None, None)) ==
            Ok(alerts[FirstIndex(alerts, id).value])
  {
  }

  /** The module-level `mockAlerts` array. */
  class MockAlertStore {
    var alerts: seq<Alert>

    constructor ()
      ensures alerts == []
    {
      alerts := [];
    }

    /** The fallback of `createAlert`: `mockAlerts.push(newAlert)`. */
    method CreateAlert(input: AlertInput, id: AlertId, now: nat) returns (a: Alert)
      modifies this
      ensures a == NewMockAlert(input, id, now)
      ensures alerts == old(alerts) + [a]
    {
      a := NewMockAlert(input, id, now);
      alerts := alerts + [a];
    }

    /** The fallback of `deleteAlert`: splice out the first match; true in every case. */
    method DeleteAlert(id: AlertId) returns (ok: bool)
      modifies this
      ensures ok
      ensures alerts == RemoveFirst(old(alerts), id)
    {
      var index := FirstIndex(alerts, id);
      if index.Some? {
        alerts := alerts[..index.value] + alerts[index.value + 1..];
      }
      ok := true;
    }

    /** The fallback of `updateAlert`. */
    method UpdateAlert(id: AlertId, patch: AlertPatch) returns (r: Result<Alert>)
      modifies this
      ensures r == UpdateMock(old(alerts), id, patch)
      ensures r.Err? ==> alerts == old(alerts)
      ensures r.Ok? ==> alerts == old(alerts)[FirstIndex(old(alerts), id).value := r.value]
    {
      var index := FirstIndex(alerts, id);
      if index.None? {
        return Err(NotFound);
      }
      var updated := Patched(alerts[index.value], patch, id);
      alerts := alerts[index.value := updated];
      r := Ok(updated);
    }
  }

  /** Creating an alert and deleting it by its id restores the store, provided the id was
      new. */
  lemma CreateDeleteRoundTrip(alerts: seq<Alert>, input: AlertInput, id: AlertId, now: nat)
    requires FirstIndex(alerts, id).None?
    ensures RemoveFirst(alerts + [NewMockAlert(input, id, now)], id) == alerts
  {
    var a := NewMockAlert(input, id, now);
    var grown := alerts + [a];
    assert grown[|alerts|].id == id;
    assert FirstIndex(grown, id) == Some(|alerts|) by {
      forall j | 0 <= j < |alerts| ensures grown[j].id != id {
        assert grown[j] == alerts[j];
      }
    }
    assert grown[..|alerts|] == alerts;
  }
}
