/**
 * The base of every per-tank entity: it stores the tank's identity and
 * re-resolves the tank in the coordinator's current data on every read.
 */
module Entity {
  import opened Wrappers
  import opened Api
  import Const

  /**
   * The coordinator as the entities see it: the config entry's id and
   * options, the latest account data and whether the latest refresh
   * succeeded. The host replaces `data` and `lastUpdateSuccess` on each
   * refresh.
   */
  class Coordinator {
    const entryId: string
    var options: map<string, int>
    var data: AccountData
    var lastUpdateSuccess: bool

    constructor (entryId: string, options: map<string, int>, data: AccountData)
      ensures this.entryId == entryId && this.options == options && this.data == data
      ensures lastUpdateSuccess
    {
      this.entryId := entryId;
      this.options := options;
      this.data := data;
      this.lastUpdateSuccess := true;
    }
  }

  /** The device registry entry of an entity. */
  datatype DeviceInfo = DeviceInfo(
    identifiers: set<(string, string)>,
    name: string,
    manufacturer: string,
    model: string)

  const Manufacturer: string := "Ferrellgas"

  /** `_find_tank`: the first tank, in list order, with the given identity. */
  function FindTank(tanks: seq<TankData>, installedProductId: string): (r: Option<TankData>)
    ensures r.None? <==> forall k :: 0 <= k < |tanks| ==> tanks[k].installedProductId != installedProductId
    ensures r.Some? ==> r.value in tanks && r.value.installedProductId == installedProductId
  {
    if |tanks| == 0 then None
    else if tanks[0].installedProductId == installedProductId then Some(tanks[0])
    else FindTank(tanks[1..], installedProductId)
  }

  /** The loop of `_find_tank`, returning at the first tank with the identity. */
  method SearchTanks(tanks: seq<TankData>, installedProductId: string) returns (r: Option<TankData>)
    ensures r == FindTank(tanks, installedProductId)
  {
    for i := 0 to |tanks|
      invariant forall j :: 0 <= j < i ==> tanks[j].installedProductId != installedProductId
    {
      if tanks[i].installedProductId == installedProductId {
        FindTankReturnsFirst(tanks, installedProductId, i);
        return Some(tanks[i]);
      }
    }
    return None;
  }

  /** The search returns the earliest match: no tank before it has the identity. */
  lemma {:induction false} FindTankReturnsFirst(tanks: seq<TankData>, installedProductId: string, k: nat)
    requires k < |tanks| && tanks[k].installedProductId == installedProductId
    requires forall j :: 0 <= j < k ==> tanks[j].installedProductId != installedProductId
    ensures FindTank(tanks, installedProductId) == Some(tanks[k])
  {
    if k > 0 {
      FindTankReturnsFirst(tanks[1..], installedProductId, k - 1);
    }
  }

  /** With identities unique, the search finds the one tank that has it, wherever it is. */
  lemma FindTankWithUniqueIds(tanks: seq<TankData>, k: nat)
    requires k < |tanks|
    requires forall i, j :: 0 <= i < j < |tanks| ==> tanks[i].installedProductId != tanks[j].installedProductId
    ensures FindTank(tanks, tanks[k].installedProductId) == Some(tanks[k])
  {
    FindTankReturnsFirst(tanks, tanks[k].installedProductId, k);
  }

  /**
   * The device of a tank entity: named "{site_name} - {product_description}"
   * with the description as model when the tank is found, else named by the
   * identity with the generic model; the identifier is always (domain, identity).
   */
  function TankDeviceInfo(tank: Option<TankData>, installedProductId: string): (r: DeviceInfo)
    ensures r.identifiers == {(Const.Domain, installedProductId)}
    ensures r.manufacturer == Manufacturer
    ensures tank.Some? ==>
      r.name == tank.value.siteName + " - " + tank.value.productDescription && r.model == tank.value.productDescription
    ensures tank.None? ==> r.name == installedProductId && r.model == DefaultProductDescription
  {
    var deviceName := if tank.Some? then tank.value.siteName + " - " + tank.value.productDescription
                      else installedProductId;
    var deviceModel := if tank.Some? then tank.value.productDescription else DefaultProductDescription;
    DeviceInfo({(Const.Domain, installedProductId)}, deviceName, Manufacturer, deviceModel)
  }

  /** The device identifier does not depend on whether the tank was found. */
  lemma DeviceIdentifierIgnoresLookup(a: Option<TankData>, b: Option<TankData>, installedProductId: string)
    ensures TankDeviceInfo(a, installedProductId).identifiers == TankDeviceInfo(b, installedProductId).identifiers
  {
  }

  /** `FerrellgasTankEntity`. */
  class TankEntity {
    const coordinator: Coordinator
    const installedProductId: string
    const deviceInfo: DeviceInfo

    constructor (coordinator: Coordinator, installedProductId: string)
      ensures this.coordinator == coordinator && this.installedProductId == installedProductId
      ensures deviceInfo == TankDeviceInfo(FindTank(coordinator.data.tanks, installedProductId), installedProductId)
    {
      this.coordinator := coordinator;
      this.installedProductId := installedProductId;
      var tank := SearchTanks(coordinator.data.tanks, installedProductId);
      this.deviceInfo := TankDeviceInfo(tank, installedProductId);
    }

    /** `_find_tank` on the coordinator's current data. */
    function Tank(): (r: Option<TankData>)
      reads coordinator
      ensures r.None? <==> forall k :: 0 <= k < |coordinator.data.tanks| ==>
        coordinator.data.tanks[k].installedProductId != installedProductId
      ensures r.Some? ==> r.value.installedProductId == installedProductId
    {
      FindTank(coordinator.data.tanks, installedProductId)
    }

    /** `available`: the last refresh succeeded and the current data still holds this tank. */
    predicate Available()
      reads coordinator
      ensures Available() <==> (
        coordinator.lastUpdateSuccess &&
        exists k :: 0 <= k < |coordinator.data.tanks| && coordinator.data.tanks[k].installedProductId == installedProductId)
    {
      coordinator.lastUpdateSuccess && Tank().Some?
    }
  }
}
