/**
 * The sensor platform: the value function of each per-tank sensor, the
 * per-tank sensor and account-balance entities, and the entity list the
 * platform registers.
 */
module Sensor {
  import opened Wrappers
  import opened Api
  import opened Entity
  import opened Json
  import AccountSummary
  import AccountSummaryFacts

  /** The per-tank sensors, one constructor per entry of `TANK_SENSORS`. */
  datatype TankSensorKey =
    | TankLevel
    | EstimatedGallons
    | EstimatedValue
    | TankCapacity
    | FillCapacity
    | LastReadingDate
    | LastDeliveryDate
    | LastDeliveryGallons
    | LastPricePerGallon
    | LastDeliveryTotal
    | GallonsUsedSinceFill
    | EstimatedUsageCost

  /** `TANK_SENSORS`, in declaration order. */
  const TankSensors: seq<TankSensorKey> := [
    TankLevel, EstimatedGallons, EstimatedValue, TankCapacity, FillCapacity, LastReadingDate,
    LastDeliveryDate, LastDeliveryGallons, LastPricePerGallon, LastDeliveryTotal,
    GallonsUsedSinceFill, EstimatedUsageCost]

  /** The description's `key`, part of every unique id. */
  function Key(k: TankSensorKey): string
  {
    match k
    case TankLevel => "tank_level"
    case EstimatedGallons => "estimated_gallons"
    case EstimatedValue => "estimated_value"
    case TankCapacity => "tank_capacity"
    case FillCapacity => "fill_capacity"
    case LastReadingDate => "last_reading_date"
    case LastDeliveryDate => "last_delivery_date"
    case LastDeliveryGallons => "last_delivery_gallons"
    case LastPricePerGallon => "last_price_per_gallon"
    case LastDeliveryTotal => "last_delivery_total"
    case GallonsUsedSinceFill => "gallons_used_since_fill"
    case EstimatedUsageCost => "estimated_usage_cost"
  }

  /** A sensor state: no value, a number, or a timestamp. */
  datatype Reading = NoValue | Number(x: real) | Moment(t: DateTime)

  /** Python's `round(x, ndigits)` on floats, left uninterpreted. */
  type Rounding = (real, nat) -> real

  function FromNumber(x: Option<real>): Reading
  {
    if x.Some? then Number(x.value) else NoValue
  }

  function FromMoment(t: Option<DateTime>): Reading
  {
    if t.Some? then Moment(t.value) else NoValue
  }

  /** Gallons in the tank now: the percentage of the full capacity, when both are known. */
  function CurrentGallons(tank: TankData): (r: Option<real>)
    ensures r.Some? <==> tank.estCurrPct.Some? && tank.fullCapacity.Some?
  {
    if tank.estCurrPct.Some? && tank.fullCapacity.Some?
    then Some(tank.estCurrPct.value / 100.0 * tank.fullCapacity.value)
    else None
  }

  /** The price per gallon of the last delivery, when there is one and it has a price. */
  function DeliveryPrice(tank: TankData): Option<real>
  {
    if tank.lastDelivery.Some? then tank.lastDelivery.value.propanePricePerGallon else None
  }

  /** Gallons used since the last fill: known only when the tank holds no more than its fill level. */
  function GallonsUsed(tank: TankData): (r: Option<real>)
    ensures r.Some? <==> tank.fillCapacity.Some? && CurrentGallons(tank).Some? &&
                         tank.fillCapacity.value >= CurrentGallons(tank).value
    ensures r.Some? ==> r.value >= 0.0 && r.value + CurrentGallons(tank).value == tank.fillCapacity.value
  {
    var current := CurrentGallons(tank);
    if tank.fillCapacity.Some? && current.Some? && tank.fillCapacity.value >= current.value
    then Some(tank.fillCapacity.value - current.value)
    else None
  }

  /**
   * `value_fn` of each description in `TANK_SENSORS`; the account is not
   * read by any of them. Each derived value is present exactly when its
   * inputs are, and is the rounding of the unrounded quantity above.
   */
  function ValueFn(key: TankSensorKey, tank: TankData, account: AccountData, round: Rounding): (r: Reading)
    ensures key == EstimatedGallons ==>
      r == (if CurrentGallons(tank).Some? then Number(round(CurrentGallons(tank).value, 1)) else NoValue)
    ensures key == EstimatedValue ==>
      r == (if CurrentGallons(tank).Some? && DeliveryPrice(tank).Some?
            then Number(round(CurrentGallons(tank).value * DeliveryPrice(tank).value, 2)) else NoValue)
    ensures key == GallonsUsedSinceFill ==>
      r == (if GallonsUsed(tank).Some? then Number(round(GallonsUsed(tank).value, 1)) else NoValue)
    ensures key == EstimatedUsageCost ==>
      r == (if GallonsUsed(tank).Some? && DeliveryPrice(tank).Some?
            then Number(round(GallonsUsed(tank).value * DeliveryPrice(tank).value, 2)) else NoValue)
    ensures (key in {LastDeliveryDate, LastDeliveryGallons, LastPricePerGallon, LastDeliveryTotal} &&
             tank.lastDelivery.None?) ==> r == NoValue
    ensures tank.lastDelivery.Some? ==>
      var delivery := tank.lastDelivery.value;
      (key == LastDeliveryDate ==> r == FromMoment(delivery.completeDate)) &&
      (key == LastDeliveryGallons ==> r == FromNumber(delivery.propaneGallons)) &&
      (key == LastPricePerGallon ==> r == FromNumber(delivery.propanePricePerGallon)) &&
      (key == LastDeliveryTotal ==> r == Number(delivery.grandTotal))
  {
    match key
    case TankLevel => FromNumber(tank.estCurrPct)
    case EstimatedGallons =>
      if tank.estCurrPct.Some? && tank.fullCapacity.Some?
      then
        assert CurrentGallons(tank).value == tank.estCurrPct.value / 100.0 * tank.fullCapacity.value;
        Number(round(tank.estCurrPct.value / 100.0 * tank.fullCapacity.value, 1))
      else NoValue
    case EstimatedValue =>
      if && tank.estCurrPct.Some?
         && tank.fullCapacity.Some?
         && tank.lastDelivery.Some?
         && tank.lastDelivery.value.propanePricePerGallon.Some?
      then
        assert CurrentGallons(tank).value == tank.estCurrPct.value / 100.0 * tank.fullCapacity.value;
        assert DeliveryPrice(tank) == tank.lastDelivery.value.propanePricePerGallon;
        assert CurrentGallons(tank).value * DeliveryPrice(tank).value
            == tank.estCurrPct.value / 100.0 * tank.fullCapacity.value * tank.lastDelivery.value.propanePricePerGallon.value;
        Number(round(tank.estCurrPct.value / 100.0 * tank.fullCapacity.value
                     * tank.lastDelivery.value.propanePricePerGallon.value, 2))
      else NoValue
    case TankCapacity => FromNumber(tank.fullCapacity)
    case FillCapacity => FromNumber(tank.fillCapacity)
    case LastReadingDate => FromMoment(tank.estimatedPercentageDate)
    case LastDeliveryDate =>
      if tank.lastDelivery.Some? then FromMoment(tank.lastDelivery.value.completeDate) else NoValue
    case LastDeliveryGallons =>
      if tank.lastDelivery.Some? then FromNumber(tank.lastDelivery.value.propaneGallons) else NoValue
    case LastPricePerGallon =>
      if tank.lastDelivery.Some? then FromNumber(tank.lastDelivery.value.propanePricePerGallon) else NoValue
    case LastDeliveryTotal =>
      if tank.lastDelivery.Some? then Number(tank.lastDelivery.value.grandTotal) else NoValue
    case GallonsUsedSinceFill =>
      if && tank.fillCapacity.Some?
         && tank.estCurrPct.Some?
         && tank.fullCapacity.Some?
         && tank.fillCapacity.value >= tank.estCurrPct.value / 100.0 * tank.fullCapacity.value
      then Number(round(tank.fillCapacity.value - tank.estCurrPct.value / 100.0 * tank.fullCapacity.value, 1))
      else NoValue
    case EstimatedUsageCost =>
      if && tank.fillCapacity.Some?
         && tank.estCurrPct.Some?
         && tank.fullCapacity.Some?
         && tank.lastDelivery.Some?
         && tank.lastDelivery.value.propanePricePerGallon.Some?
         && tank.fillCapacity.value >= tank.estCurrPct.value / 100.0 * tank.fullCapacity.value
      then
        assert GallonsUsed(tank).value == tank.fillCapacity.value - tank.estCurrPct.value / 100.0 * tank.fullCapacity.value;
        assert DeliveryPrice(tank) == tank.lastDelivery.value.propanePricePerGallon;
        assert GallonsUsed(tank).value * DeliveryPrice(tank).value
            == (tank.fillCapacity.value - tank.estCurrPct.value / 100.0 * tank.fullCapacity.value)
               * tank.lastDelivery.value.propanePricePerGallon.value;
        Number(round((tank.fillCapacity.value - tank.estCurrPct.value / 100.0 * tank.fullCapacity.value)
                        * tank.lastDelivery.value.propanePricePerGallon.value, 2))
      else NoValue
  }

  /** The tank-level, capacity, fill and reading-date sensors pass their tank field through unchanged. */
  lemma PassThroughSensors(tank: TankData, account: AccountData, round: Rounding)
    ensures ValueFn(TankLevel, tank, account, round) == FromNumber(tank.estCurrPct)
    ensures ValueFn(TankCapacity, tank, account, round) == FromNumber(tank.fullCapacity)
    ensures ValueFn(FillCapacity, tank, account, round) == FromNumber(tank.fillCapacity)
    ensures ValueFn(LastReadingDate, tank, account, round) == FromMoment(tank.estimatedPercentageDate)
  {
  }

  /** A present estimated value implies a present estimate of gallons. */
  lemma EstimatedValueNeedsGallons(tank: TankData, account: AccountData, round: Rounding)
    ensures ValueFn(EstimatedValue, tank, account, round) != NoValue ==>
            ValueFn(EstimatedGallons, tank, account, round) != NoValue
  {
  }

  /** A present usage cost implies a present usage; a tank above its fill level has neither. */
  lemma UsageCostNeedsUsage(tank: TankData, account: AccountData, round: Rounding)
    ensures ValueFn(EstimatedUsageCost, tank, account, round) != NoValue ==>
            ValueFn(GallonsUsedSinceFill, tank, account, round) != NoValue
    ensures CurrentGallons(tank).Some? && tank.fillCapacity.Some? &&
            tank.fillCapacity.value < CurrentGallons(tank).value ==>
            ValueFn(GallonsUsedSinceFill, tank, account, round) == NoValue &&
            ValueFn(EstimatedUsageCost, tank, account, round) == NoValue
  {
  }

  /**
   * The worked figures: 40% of a 500-gallon tank is 200 gallons, worth 500
   * at 2.50 a gallon; filled to 450 that is 250 gallons used, and a fill
   * level of 100 gives no usage at all.
   */
  lemma WorkedFigures(tank: TankData)
    requires tank.estCurrPct == Some(40.0) && tank.fullCapacity == Some(500.0)
    requires tank.lastDelivery.Some? && tank.lastDelivery.value.propanePricePerGallon == Some(2.5)
    ensures CurrentGallons(tank) == Some(200.0)
    ensures CurrentGallons(tank).value * DeliveryPrice(tank).value == 500.0
    ensures tank.fillCapacity == Some(450.0) ==> GallonsUsed(tank) == Some(250.0)
    ensures tank.fillCapacity == Some(100.0) ==> GallonsUsed(tank).None?
  {
  }

  /** An evaluation that either returns a reading or raises `AttributeError`. */
  datatype Evaluation = Returned(reading: Reading) | RaisedAttributeError

  /**
   * `value_fn` as written against the `FerrellgasTankData` the parser
   * defines, which has no `last_delivery` attribute: every lambda that
   * reaches `tank.last_delivery` raises instead of returning.
   */
  function ValueFnAsWritten(key: TankSensorKey, tank: TankData, account: AccountData, round: Rounding): (e: Evaluation)
    ensures key in {LastDeliveryDate, LastDeliveryGallons, LastPricePerGallon, LastDeliveryTotal} ==>
      e == RaisedAttributeError
    ensures key == EstimatedValue ==>
      (e == RaisedAttributeError <==> CurrentGallons(tank).Some?) &&
      (e != RaisedAttributeError ==> e == Returned(NoValue))
    ensures key == EstimatedUsageCost ==>
      (e == RaisedAttributeError <==> tank.fillCapacity.Some? && tank.estCurrPct.Some? && tank.fullCapacity.Some?) &&
      (e != RaisedAttributeError ==> e == Returned(NoValue))
    ensures key !in {EstimatedValue, EstimatedUsageCost, LastDeliveryDate, LastDeliveryGallons,
                     LastPricePerGallon, LastDeliveryTotal} ==>
      e == Returned(ValueFn(key, tank, account, round))
  {
    match key
    case EstimatedValue =>
      if tank.estCurrPct.Some? && tank.fullCapacity.Some? then RaisedAttributeError else Returned(NoValue)
    case EstimatedUsageCost =>
      if tank.fillCapacity.Some? && tank.estCurrPct.Some? && tank.fullCapacity.Some?
      then RaisedAttributeError else Returned(NoValue)
    case LastDeliveryDate => RaisedAttributeError
    case LastDeliveryGallons => RaisedAttributeError
    case LastPricePerGallon => RaisedAttributeError
    case LastDeliveryTotal => RaisedAttributeError
    case _ => Returned(ValueFn(key, tank, account, round))
  }

  /**
   * Every tank the parser produces hits the missing attribute: as written,
   * each of its delivery sensors raises, where the intended sensor reports
   * no value.
   */
  lemma {:induction false} ParsedTanksRaiseAsWritten(accountId: string, payload: seq<(string, Json)>,
                                                    parseDateTime: DateTimeParser, parseDate: DateParser,
                                                    k: nat, key: TankSensorKey, round: Rounding)
    requires k < |AccountSummary.ParsedAccount(accountId, payload, parseDateTime, parseDate).tanks|
    requires key in {LastDeliveryDate, LastDeliveryGallons, LastPricePerGallon, LastDeliveryTotal}
    ensures
      var account := AccountSummary.ParsedAccount(accountId, payload, parseDateTime, parseDate);
      ValueFnAsWritten(key, account.tanks[k], account, round) == RaisedAttributeError &&
      ValueFn(key, account.tanks[k], account, round) == NoValue
  {
    var account := AccountSummary.ParsedAccount(accountId, payload, parseDateTime, parseDate);
    AccountSummaryFacts.ParsedTanksHaveIdentity(accountId, payload, parseDateTime, parseDate);
    assert account.tanks[k] in account.tanks;
  }

  /** `"{entry_id}_{installed_product_id}_{key}"`. */
  function TankSensorUniqueId(entryId: string, installedProductId: string, key: TankSensorKey): string
  {
    entryId + "_" + installedProductId + "_" + Key(key)
  }

  /** `FerrellgasTankSensor`: a tank entity with one description. */
  class TankSensor {
    const entity: TankEntity
    const description: TankSensorKey
    const uniqueId: string

    constructor (coordinator: Coordinator, installedProductId: string, description: TankSensorKey)
      ensures entity.coordinator == coordinator && entity.installedProductId == installedProductId
      ensures this.description == description
      ensures uniqueId == TankSensorUniqueId(coordinator.entryId, installedProductId, description)
      ensures entity.deviceInfo == TankDeviceInfo(FindTank(coordinator.data.tanks, installedProductId), installedProductId)
    {
      this.entity := new TankEntity(coordinator, installedProductId);
      this.description := description;
      this.uniqueId := TankSensorUniqueId(coordinator.entryId, installedProductId, description);
    }

    /** `native_value`: no value when the tank is gone from the current data, else the description's value. */
    function NativeValue(round: Rounding): (r: Reading)
      reads entity.coordinator
      ensures FindTank(entity.coordinator.data.tanks, entity.installedProductId).None? ==> r == NoValue
      ensures FindTank(entity.coordinator.data.tanks, entity.installedProductId).Some? ==>
        r == ValueFn(description, FindTank(entity.coordinator.data.tanks, entity.installedProductId).value,
                     entity.coordinator.data, round)
    {
      match entity.Tank()
      case None => NoValue
      case Some(tank) => ValueFn(description, tank, entity.coordinator.data, round)
    }
  }

  /** `FerrellgasAccountBalanceSensor`. */
  class AccountBalanceSensor {
    const coordinator: Coordinator
    const uniqueId: string
    const deviceInfo: DeviceInfo

    constructor (coordinator: Coordinator)
      ensures this.coordinator == coordinator
      ensures uniqueId == coordinator.entryId + "_account_balance"
      ensures deviceInfo == DeviceInfo({(Const.Domain, "account_" + coordinator.data.accountId)},
                                       "Ferrellgas Account " + coordinator.data.accountId,
                                       Manufacturer, "Customer Account")
    {
      this.coordinator := coordinator;
      this.uniqueId := coordinator.entryId + "_account_balance";
      this.deviceInfo := DeviceInfo({(Const.Domain, "account_" + coordinator.data.accountId)},
                                    "Ferrellgas Account " + coordinator.data.accountId,
                                    Manufacturer, "Customer Account");
    }

    /** `native_value`: the balance of the current data. */
    function NativeValue(): (r: Option<real>)
      reads coordinator
      ensures r == coordinator.data.balance
    {
      coordinator.data.balance
    }
  }

  /** The (identity, description) pairs of one tank's sensors, in declaration order. */
  function TankPlan(installedProductId: string): (plan: seq<(string, TankSensorKey)>)
    ensures |plan| == |TankSensors|
    ensures forall j :: 0 <= j < |plan| ==> plan[j] == (installedProductId, TankSensors[j])
  {
    seq(|TankSensors|, j requires 0 <= j < |TankSensors| => (installedProductId, TankSensors[j]))
  }

  /** The (identity, description) pairs the platform creates sensors for, tank by tank. */
  function SensorPlan(tanks: seq<TankData>, n: nat): seq<(string, TankSensorKey)>
    requires n <= |tanks|
  {
    if n == 0 then [] else SensorPlan(tanks, n - 1) + TankPlan(tanks[n - 1].installedProductId)
  }

  /**
   * The plan holds twelve entries per tank: entry 12·i + j is tank i with
   * description j, so every tank gets every sensor exactly once.
   */
  lemma {:induction false} SensorPlanAt(tanks: seq<TankData>, n: nat, i: nat, j: nat)
    requires n <= |tanks| && i < n && j < |TankSensors|
    ensures |SensorPlan(tanks, n)| == |TankSensors| * n
    ensures SensorPlan(tanks, n)[|TankSensors| * i + j] == (tanks[i].installedProductId, TankSensors[j])
  {
    if i < n - 1 {
      SensorPlanAt(tanks, n - 1, i, j);
    } else {
      SensorPlanLength(tanks, n - 1);
    }
  }

  lemma {:induction false} SensorPlanLength(tanks: seq<TankData>, n: nat)
    requires n <= |tanks|
    ensures |SensorPlan(tanks, n)| == |TankSensors| * n
  {
    if n > 0 {
      SensorPlanLength(tanks, n - 1);
    }
  }

  /** What each created sensor is: its identity and description. */
  ghost function Described(sensors: seq<TankSensor>): seq<(string, TankSensorKey)>
  {
    seq(|sensors|, p requires 0 <= p < |sensors| => (sensors[p].entity.installedProductId, sensors[p].description))
  }

  /** Every sensor is bound to the coordinator and carries the unique id its identity and description give. */
  ghost predicate BoundTo(sensors: seq<TankSensor>, coordinator: Coordinator)
  {
    forall p :: 0 <= p < |sensors| ==>
      sensors[p].entity.coordinator == coordinator &&
      sensors[p].uniqueId == TankSensorUniqueId(coordinator.entryId, sensors[p].entity.installedProductId,
                                                sensors[p].description)
  }

  /** The inner loop of `async_setup_entry`: one sensor per description for one tank. */
  method TankSensorsFor(coordinator: Coordinator, installedProductId: string) returns (batch: seq<TankSensor>)
    ensures Described(batch) == TankPlan(installedProductId)
    ensures BoundTo(batch, coordinator)
  {
    batch := [];
    var descriptions := TankSensors;
    for j := 0 to |descriptions|
      invariant |batch| == j
      invariant forall d :: 0 <= d < j ==>
        batch[d].entity.installedProductId == installedProductId && batch[d].description == descriptions[d]
      invariant BoundTo(batch, coordinator)
    {
      var sensor := new TankSensor(coordinator, installedProductId, descriptions[j]);
      batch := batch + [sensor];
    }
  }

  /**
   * `async_setup_entry`: the balance sensor, then one sensor per tank and
   * description, tanks in order and descriptions in declaration order
   * (1 + 12·n entities for n tanks).
   */
  method SetupEntry(coordinator: Coordinator) returns (balance: AccountBalanceSensor, sensors: seq<TankSensor>)
    ensures balance.coordinator == coordinator
    ensures balance.uniqueId == coordinator.entryId + "_account_balance"
    ensures balance.deviceInfo.identifiers == {(Const.Domain, "account_" + coordinator.data.accountId)}
    ensures Described(sensors) == SensorPlan(coordinator.data.tanks, |coordinator.data.tanks|)
    ensures |sensors| == |TankSensors| * |coordinator.data.tanks|
    ensures BoundTo(sensors, coordinator)
  {
    balance := new AccountBalanceSensor(coordinator);
    sensors := [];
    var tanks := coordinator.data.tanks;
    for n := 0 to |tanks|
      invariant Described(sensors) == SensorPlan(tanks, n)
      invariant BoundTo(sensors, coordinator)
    {
      var batch := TankSensorsFor(coordinator, tanks[n].installedProductId);
      AppendBatch(sensors, batch, coordinator);
      sensors := sensors + batch;
    }
    SensorPlanLength(tanks, |tanks|);
    assert |sensors| == |Described(sensors)|;
  }

  /** Appending a batch of bound sensors keeps them bound and appends what they describe. */
  lemma AppendBatch(sensors: seq<TankSensor>, batch: seq<TankSensor>, coordinator: Coordinator)
    requires BoundTo(sensors, coordinator) && BoundTo(batch, coordinator)
    ensures BoundTo(sensors + batch, coordinator)
    ensures Described(sensors + batch) == Described(sensors) + Described(batch)
  {
    var all := sensors + batch;
    forall p | 0 <= p < |all|
      ensures all[p] == (if p < |sensors| then sensors[p] else batch[p - |sensors|])
    {
    }
  }
}
