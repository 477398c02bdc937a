/**
 * The binary sensor platform: one low-propane flag per tank, on when the
 * tank's percentage is strictly below the configured threshold.
 */
module BinarySensor {
  import opened Wrappers
  import opened Api
  import opened Entity
  import Const

  /** The threshold: the entry's option when set, else the default of 20 percent. */
  function Threshold(options: map<string, int>): (r: int)
    ensures Const.ConfLowPropaneThreshold in options ==> r == options[Const.ConfLowPropaneThreshold]
    ensures Const.ConfLowPropaneThreshold !in options ==> r == Const.DefaultLowPropaneThreshold
  {
    if Const.ConfLowPropaneThreshold in options then options[Const.ConfLowPropaneThreshold]
    else Const.DefaultLowPropaneThreshold
  }

  /** Whether a reading counts as low: strictly below the threshold. */
  predicate IsLow(pct: real, threshold: int)
  {
    pct < threshold as real
  }

  /** A tank exactly at the threshold is not low; one just below it is. */
  lemma ThresholdIsStrict(threshold: int)
    ensures !IsLow(threshold as real, threshold)
    ensures IsLow(threshold as real - 0.5, threshold)
  {
  }

  /** `"{entry_id}_{installed_product_id}_low_propane"`. */
  function LowPropaneUniqueId(entryId: string, installedProductId: string): string
  {
    entryId + "_" + installedProductId + "_low_propane"
  }

  /** `FerrellgasLowPropaneBinarySensor`. */
  class LowPropaneSensor {
    const entity: TankEntity
    const uniqueId: string

    constructor (coordinator: Coordinator, installedProductId: string)
      ensures entity.coordinator == coordinator && entity.installedProductId == installedProductId
      ensures uniqueId == LowPropaneUniqueId(coordinator.entryId, installedProductId)
      ensures entity.deviceInfo == TankDeviceInfo(FindTank(coordinator.data.tanks, installedProductId), installedProductId)
    {
      this.entity := new TankEntity(coordinator, installedProductId);
      this.uniqueId := LowPropaneUniqueId(coordinator.entryId, installedProductId);
    }

    /**
     * `is_on`: unknown when the tank is gone from the current data or has no
     * percentage; otherwise whether the percentage is strictly below the
     * threshold in the entry's options.
     */
    function IsOn(): (r: Option<bool>)
      reads entity.coordinator
      ensures r.None? <==>
        FindTank(entity.coordinator.data.tanks, entity.installedProductId).None? ||
        FindTank(entity.coordinator.data.tanks, entity.installedProductId).value.estCurrPct.None?
      ensures r.Some? ==>
        r.value == (FindTank(entity.coordinator.data.tanks, entity.installedProductId).value.estCurrPct.value
                    < Threshold(entity.coordinator.options) as real)
    {
      var tank := entity.Tank();
      if tank.None? || tank.value.estCurrPct.None? then None
      else Some(IsLow(tank.value.estCurrPct.value, Threshold(entity.coordinator.options)))
    }
  }

  /** `async_setup_entry`: one low-propane sensor per tank, in tank order. */
  method SetupEntry(coordinator: Coordinator) returns (sensors: seq<LowPropaneSensor>)
    ensures |sensors| == |coordinator.data.tanks|
    ensures forall k :: 0 <= k < |sensors| ==>
      sensors[k].entity.coordinator == coordinator &&
      sensors[k].entity.installedProductId == coordinator.data.tanks[k].installedProductId &&
      sensors[k].uniqueId == LowPropaneUniqueId(coordinator.entryId, coordinator.data.tanks[k].installedProductId)
  {
    sensors := [];
    var tanks := coordinator.data.tanks;
    for k := 0 to |tanks|
      invariant |sensors| == k
      invariant forall d :: 0 <= d < k ==>
        sensors[d].entity.coordinator == coordinator &&
        sensors[d].entity.installedProductId == tanks[d].installedProductId &&
        sensors[d].uniqueId == LowPropaneUniqueId(coordinator.entryId, tanks[d].installedProductId)
    {
      var sensor := new LowPropaneSensor(coordinator, tanks[k].installedProductId);
      sensors := sensors + [sensor];
    }
  }
}
