/** The chart's active-indicator list of `frontend/src/context/IndicatorsContext.jsx`:
    adding stamps a fresh instance id, removing and updating go by instance id. */
module Indicators {
  import opened Common

  /** An indicator entry; `instanceId` is `None` for an entry that never went through
      `addIndicator` (the JavaScript `undefined`). */
  datatype Indicator = Indicator(id: string, name: string, settings: map<string, int>, instanceId: Option<string>)

  /** `${indicator.id}-${Date.now()}`. */
  function InstanceId(id: string, now: nat): string
  {
    id + "-" + NatToString(now)
  }

  /** `{...indicator, instanceId}`. */
  function Stamped(ind: Indicator, now: nat): (r: Indicator)
    ensures r.instanceId == Some(InstanceId(ind.id, now))
    ensures r.(instanceId := ind.instanceId) == ind
  {
    ind.(instanceId := Some(InstanceId(ind.id, now)))
  }

  /** `prev.filter(ind => ind.instanceId !== instanceId)`. */
  function WithoutInstance(xs: seq<Indicator>, instanceId: string): (r: seq<Indicator>)
    ensures |r| <= |xs|
    ensures forall x :: x in r <==> x in xs && x.instanceId != Some(instanceId)
  {
    if xs == [] then []
    else
      var init := WithoutInstance(xs[..|xs| - 1], instanceId);
      var last := xs[|xs| - 1];
      assert xs == xs[..|xs| - 1] + [last];
      if last.instanceId == Some(instanceId) then init else init + [last]
  }

  /** Removing an instance id that no entry carries changes nothing. */
  lemma {:induction false} WithoutAbsentInstance(xs: seq<Indicator>, instanceId: string)
    requires forall x :: x in xs ==> x.instanceId != Some(instanceId)
    ensures WithoutInstance(xs, instanceId) == xs
  {
    if xs != [] {
      var init := xs[..|xs| - 1];
      assert forall x :: x in init ==> x in xs;
      WithoutAbsentInstance(init, instanceId);
      assert xs == init + [xs[|xs| - 1]];
    }
  }

  /** `prev.map(ind => ind.instanceId === updated.instanceId ? updated : ind)`. */
  function Replaced(xs: seq<Indicator>, updated: Indicator): seq<Indicator>
  {
    seq(|xs|, i requires 0 <= i < |xs| => if xs[i].instanceId == updated.instanceId then updated else xs[i])
  }

  /** An update keeps the length, puts the new entry exactly where the instance id matched,
      leaves every other entry as it was, and is the identity for an unknown instance id. */
  lemma ReplacedContract(xs: seq<Indicator>, updated: Indicator)
    ensures |Replaced(xs, updated)| == |xs|
    ensures forall i :: 0 <= i < |xs| && xs[i].instanceId == updated.instanceId ==> Replaced(xs, updated)[i] == updated
    ensures forall i :: 0 <= i < |xs| && xs[i].instanceId != updated.instanceId ==> Replaced(xs, updated)[i] == xs[i]
    ensures (forall x :: x in xs ==> x.instanceId != updated.instanceId) ==> Replaced(xs, updated) == xs
  {
  }

  /** The `activeIndicators` state. */
  class IndicatorList {
    var active: seq<Indicator>

    constructor (saved: seq<Indicator>)
      ensures active == saved
    {
      active := saved;
    }

    /** `addIndicator`: appends the stamped entry and hands it back. */
    method AddIndicator(ind: Indicator, now: nat) returns (added: Indicator)
      modifies this
      ensures added == Stamped(ind, now)
      ensures active == old(active) + [added]
    {
      added := ind.(instanceId := Some(InstanceId(ind.id, now)));
      active := active + [added];
    }

    /** `removeIndicator`. */
    method RemoveIndicator(instanceId: string)
      modifies this
      ensures active == WithoutInstance(old(active), instanceId)
    {
      active := WithoutInstance(active, instanceId);
    }

    /** `updateIndicator`. */
    method UpdateIndicator(updated: Indicator) returns (r: Indicator)
      modifies this
      ensures r == updated
      ensures active == Replaced(old(active), updated)
    {
      var target := updated.instanceId;
      active := seq(|active|, i requires 0 <= i < |active| reads this =>
                      if active[i].instanceId == target then updated else active[i]);
      r := updated;
    }
  }

  /** Adding an indicator and removing it by the instance id it was given restores the list,
      provided no entry already carried that id. */
  lemma AddRemoveRoundTrip(xs: seq<Indicator>, ind: Indicator, now: nat)
    requires forall x :: x in xs ==> x.instanceId != Some(InstanceId(ind.id, now))
    ensures WithoutInstance(xs + [Stamped(ind, now)], InstanceId(ind.id, now)) == xs
  {
    var grown := xs + [Stamped(ind, now)];
    assert grown[..|grown| - 1] == xs;
    WithoutAbsentInstance(xs, InstanceId(ind.id, now));
  }
}
