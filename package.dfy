/** Packages: the shipping quote, creation (registration, entry into the starting warehouse, the first
    tracking event) and the status update that moves a package between warehouses and vehicles. */
module Packages {
  import opened Common
  import Service
  import Tracking
  import Users
  import Warehouses
  import Vehicles

  // ---------------------------------------------------------------------------------------------
  // Cost
  // ---------------------------------------------------------------------------------------------

  /** The fee of one special service; a service the tier does not price adds nothing. */
  function Fee(fees: map<string, real>, s: string): real
  {
    if s in fees then fees[s] else 0.0
  }

  /** The fees of the requested special services, in order. */
  function FeeSum(fees: map<string, real>, specials: seq<string>): real
  {
    if specials == [] then 0.0
    else FeeSum(fees, specials[..|specials| - 1]) + Fee(fees, specials[|specials| - 1])
  }

  /** The quote: base rate, weight charge, 0.5 per kilometre, special fees and 1% insurance. */
  function Quote(service: Service.ServiceType, weight: real, distanceKm: real, specials: seq<string>,
                 declaredValue: real): real
  {
    service.baseRate + weight * service.weightRate + distanceKm * 0.5
      + FeeSum(service.specialFees, specials) + declaredValue * 0.01
  }

  /** `_calculate_cost()`: the running total of the quote. */
  method CalculateCost(service: Service.ServiceType, weight: real, distanceKm: real, specials: seq<string>,
                       declaredValue: real)
    returns (cost: real)
    ensures cost == Quote(service, weight, distanceKm, specials, declaredValue)
  {
    cost := service.baseRate;
    cost := cost + weight * service.weightRate;
    cost := cost + distanceKm * 0.5;
    var fees := 0.0;
    for i := 0 to |specials|
      invariant fees == FeeSum(service.specialFees, specials[..i])
    {
      assert specials[..i + 1][..i] == specials[..i];
      if specials[i] in service.specialFees {
        fees := fees + service.specialFees[specials[i]];
      }
    }
    assert specials[..|specials|] == specials;
    cost := cost + fees + declaredValue * 0.01;
  }

  lemma {:induction false} FeeSumAppend(fees: map<string, real>, a: seq<string>, b: seq<string>)
    ensures FeeSum(fees, a + b) == FeeSum(fees, a) + FeeSum(fees, b)
    decreases |b|
  {
    if b == [] {
      assert a + b == a;
    } else {
      var init := b[..|b| - 1];
      assert (a + b)[..|a + b| - 1] == a + init;
      FeeSumAppend(fees, a, init);
    }
  }

  /** A requested service the tier does not price changes nothing, wherever it appears. */
  lemma UnpricedServiceIgnored(fees: map<string, real>, a: seq<string>, s: string, b: seq<string>)
    requires s !in fees
    ensures FeeSum(fees, a + [s] + b) == FeeSum(fees, a + b)
  {
    FeeSumAppend(fees, a + [s], b);
    FeeSumAppend(fees, a, [s]);
    FeeSumAppend(fees, a, b);
    assert [s][..0] == [];
  }

  /** With non-negative fees, every special service only adds to the quote. */
  lemma {:induction false} FeeSumNonNegative(fees: map<string, real>, specials: seq<string>)
    requires forall s :: s in fees ==> fees[s] >= 0.0
    ensures FeeSum(fees, specials) >= 0.0
    decreases |specials|
  {
    if specials != [] {
      FeeSumNonNegative(fees, specials[..|specials| - 1]);
    }
  }

  /** The three quotes of the reference tests: 5 kg over 200 km, declared value 1000. */
  lemma QuoteExamples()
    ensures Quote(Service.StandardService, 5.0, 200.0, [], 1000.0) == 235.0
    ensures Quote(Service.ExpressOvernight, 5.0, 200.0, ["Dangerous"], 1000.0) == 585.0
    ensures Quote(Service.ExpressOvernight, 5.0, 200.0, ["Dangerous", "Fragile", "Refrigerated"], 1000.0) == 660.0
  {
    Service.BuiltInTiers();
    var fees := Service.ExpressOvernight.specialFees;
    assert ["Dangerous"][..0] == [];
    assert FeeSum(fees, ["Dangerous"]) == 200.0;
    var three := ["Dangerous", "Fragile", "Refrigerated"];
    assert three[..2] == ["Dangerous", "Fragile"];
    assert ["Dangerous", "Fragile"][..1] == ["Dangerous"];
    assert FeeSum(fees, three) == 275.0;
  }

  // ---------------------------------------------------------------------------------------------
  // Package
  // ---------------------------------------------------------------------------------------------

  const SecondsPerDay: int := 86400

  /** The statuses for which a given vehicle takes the package aboard. */
  const LoadStatuses: set<string> := {"Picked Up", "Out for Delivery"}

  /** `str(warehouse_id)` as it appears in the location of the creation event. */
  function WarehouseLabel(warehouseId: Option<string>): string
  {
    if warehouseId.Some? then warehouseId.value else "None"
  }

  /** The warehouse registered under the id, `null` when there is none. */
  function Lookup(warehouses: Warehouses.WarehouseRegistry, warehouseId: Option<string>): (w: Warehouses.Warehouse?)
    reads warehouses
    ensures w != null <==> warehouseId.Some? && warehouseId.value in warehouses.table
    ensures w != null ==> w == warehouses.table[warehouseId.value]
  {
    if warehouseId.Some? then warehouses.Get(warehouseId.value) else null
  }

  /** The warehouse a status update releases the package from: it is looked up only when the
      package's warehouse id is truthy. */
  function HomeOf(warehouses: Warehouses.WarehouseRegistry, warehouseId: Option<string>): Warehouses.Warehouse?
    reads warehouses
  {
    if Truthy(warehouseId) then Lookup(warehouses, warehouseId) else null
  }

  function AsSet(w: Warehouses.Warehouse?): set<Warehouses.Warehouse>
  {
    if w == null then {} else {w}
  }

  function VehicleSet(v: Vehicles.Vehicle?): set<Vehicles.Vehicle>
  {
    if v == null then {} else {v}
  }

  /** A vehicle that refuses the package because it would be overloaded. */
  predicate LoadRefused(vehicle: Vehicles.Vehicle?, newStatus: string, weight: real)
    reads vehicle
  {
    vehicle != null && newStatus in LoadStatuses && vehicle.currentLoad + weight > vehicle.capacityKg
  }

  /** Where the destination warehouse stands when the package arrives: if it is also the warehouse
      just left, the package has already been removed from it. */
  function Entering(dest: Warehouses.Warehouse, home: Warehouses.Warehouse?, destBefore: Warehouses.Holding,
                    t: string): Warehouses.Holding
  {
    if dest == home then Warehouses.Removed(destBefore, dest.capacity, t) else destBefore
  }

  /** The events a vehicle writes during a status update, before the status event itself. */
  function VehicleEvents(nextId: nat, t: string, newStatus: string, location: string, actor: Option<string>,
                         vehicle: Vehicles.Vehicle?, refused: bool, eta: int, now: int): seq<Tracking.Event>
  {
    if vehicle == null then []
    else if newStatus in LoadStatuses then
      if refused then []
      else [Tracking.Event(nextId, t, now, "Vehicle " + vehicle.vehicleId, "Loaded to Vehicle", actor,
                           Some(vehicle.vehicleId), None, "Transit", Some(eta), None)]
    else if newStatus == "Delivered" then
      [Tracking.Event(nextId, t, now, location, "Unloaded from Vehicle", actor,
                      Some(vehicle.vehicleId), None, "Transit", Some(eta), None)]
    else []
  }

  function VehicleIdOf(vehicle: Vehicles.Vehicle?): Option<string>
  {
    if vehicle == null then None else Some(vehicle.vehicleId)
  }

  /** The log after a status update that passed the permission check: the vehicle's events, then the
      status event when the update went through. */
  function UpdateTrail(log: seq<Tracking.Event>, t: string, newStatus: string, location: string, username: string,
                       vehicle: Vehicles.Vehicle?, refused: bool, oldEta: int, now: int, done: bool,
                       warehouseId: Option<string>, eventType: string, eta: int, exceptionType: Option<string>)
    : seq<Tracking.Event>
  {
    var moved := log + VehicleEvents(|log| + 1, t, newStatus, location, Some(username), vehicle, refused, oldEta, now);
    moved +
      if done then
        [Tracking.Event(|moved| + 1, t, now, location, newStatus, Some(username), VehicleIdOf(vehicle),
                        warehouseId, eventType, Some(eta), exceptionType)]
      else []
  }

  /** `Package`. */
  class Package {
    const trackingNumber: string
    const customerId: string
    const weight: real
    const dimensions: seq<real>
    const declaredValue: real
    const description: string
    const serviceType: Service.ServiceType
    const specialServices: seq<string>
    const distanceKm: real
    const billingCost: real
    var currentStatus: string
    var eta: int
    var warehouseId: Option<string>

    /** `Package(...)`. The fresh tracking number and the clock reading `now` are parameters. The
        package is registered, enters its starting warehouse when that exists (a full warehouse's
        refusal is swallowed), and the creation event is logged. */
    constructor (trackingNumber: string, customerId: string, weight: real, dimensions: seq<real>,
                 declaredValue: real, description: string, serviceType: Service.ServiceType,
                 specialServices: seq<string>, distanceKm: real, createdBy: Users.User?, etaDays: int,
                 warehouseId: Option<string>, now: int, packages: PackageRegistry,
                 warehouses: Warehouses.WarehouseRegistry, ledger: Tracking.Ledger)
      modifies packages, ledger, AsSet(Lookup(warehouses, warehouseId))
      ensures this.trackingNumber == trackingNumber && this.customerId == customerId
      ensures this.weight == weight && this.dimensions == dimensions && this.declaredValue == declaredValue
      ensures this.description == description && this.serviceType == serviceType
      ensures this.specialServices == specialServices && this.distanceKm == distanceKm
      ensures billingCost == Quote(serviceType, weight, distanceKm, specialServices, declaredValue)
      ensures currentStatus == "Shipment Created" && eta == now + etaDays * SecondsPerDay
      ensures this.warehouseId == warehouseId
      ensures packages.table == old(packages.table)[trackingNumber := this]
      ensures var w := old(Lookup(warehouses, warehouseId));
              w != null ==> w.State() == Warehouses.Added(old(w.State()), w.capacity, trackingNumber).0
      ensures ledger.events == old(ledger.events) + [
        Tracking.Event(|old(ledger.events)| + 1, trackingNumber, now, "Warehouse " + WarehouseLabel(warehouseId),
                       "Shipment Created", Vehicles.Actor(createdBy), None, warehouseId, "Created",
                       Some(now + etaDays * SecondsPerDay), None)]
      ensures ledger.errors == old(ledger.errors)
      ensures old(ledger.Valid()) ==> ledger.Valid()
    {
      this.trackingNumber := trackingNumber;
      this.customerId := customerId;
      this.weight := weight;
      this.dimensions := dimensions;
      this.declaredValue := declaredValue;
      this.description := description;
      this.serviceType := serviceType;
      this.specialServices := specialServices;
      this.distanceKm := distanceKm;
      currentStatus := "Shipment Created";
      eta := now + etaDays * SecondsPerDay;
      this.warehouseId := warehouseId;
      var cost := CalculateCost(serviceType, weight, distanceKm, specialServices, declaredValue);
      billingCost := cost;
      new;
      packages.table := packages.table[trackingNumber := this];
      var wh := Lookup(warehouses, warehouseId);
      if wh != null {
        var _ := wh.AddPackage(trackingNumber);
      }
      var _ := ledger.LogEvent(trackingNumber, "Warehouse " + WarehouseLabel(warehouseId), "Shipment Created",
                               Vehicles.Actor(createdBy), None, warehouseId, "Created", Some(eta), None, now, None);
    }

    /** `update_status(...)`. The clock reading `now` is a parameter and stamps every event the
        update writes. In order: the permission check (nothing changes when it fails); release from
        the current warehouse when the warehouse id is truthy; loading onto (or unloading from) the
        vehicle, where an overloaded vehicle raises; entry into the destination warehouse, where a full
        warehouse raises; then the new status and ETA and the status event. An exception leaves the
        steps before it in place. */
    method UpdateStatus(newStatus: string, location: string, user: Users.User, eventType: string,
                        vehicle: Vehicles.Vehicle?, toWarehouse: Warehouses.Warehouse?, newEta: Option<int>,
                        exceptionType: Option<string>, warehouses: Warehouses.WarehouseRegistry,
                        ledger: Tracking.Ledger, now: int)
      returns (r: Outcome)
      modifies this`warehouseId, this`currentStatus, this`eta, ledger, VehicleSet(vehicle)`currentLoad, toWarehouse,
               AsSet(HomeOf(warehouses, warehouseId))
      // without the permission nothing changes
      ensures !user.CanUpdateStatus(newStatus) ==>
                && r == Raised(PermissionError)
                && warehouseId == old(warehouseId)
                && (vehicle != null ==> vehicle.currentLoad == old(vehicle.currentLoad))
                && (toWarehouse != null ==> toWarehouse.State() == old(toWarehouse.State()))
                && (var home := old(HomeOf(warehouses, warehouseId)); home != null ==> home.State() == old(home.State()))
      // the outcome
      ensures user.CanUpdateStatus(newStatus) ==>
                var refused := old(LoadRefused(vehicle, newStatus, weight));
                r == if refused then Raised(ValueError)
                     else if toWarehouse != null &&
                             Warehouses.Added(Entering(toWarehouse, old(HomeOf(warehouses, warehouseId)),
                                                       old(toWarehouse.State()), trackingNumber),
                                              toWarehouse.capacity, trackingNumber).1.Raised?
                     then Raised(ValueError)
                     else Done
      // the warehouse left
      ensures var home := old(HomeOf(warehouses, warehouseId));
              user.CanUpdateStatus(newStatus) && home != null ==>
                home.State() ==
                  if toWarehouse == home && !old(LoadRefused(vehicle, newStatus, weight)) then
                    Warehouses.Added(Warehouses.Removed(old(home.State()), home.capacity, trackingNumber),
                                     home.capacity, trackingNumber).0
                  else Warehouses.Removed(old(home.State()), home.capacity, trackingNumber)
      // the destination warehouse
      ensures var home := old(HomeOf(warehouses, warehouseId));
              user.CanUpdateStatus(newStatus) && toWarehouse != null && toWarehouse != home ==>
                toWarehouse.State() ==
                  if old(LoadRefused(vehicle, newStatus, weight)) then old(toWarehouse.State())
                  else Warehouses.Added(old(toWarehouse.State()), toWarehouse.capacity, trackingNumber).0
      // the vehicle
      ensures user.CanUpdateStatus(newStatus) && vehicle != null ==>
                vehicle.currentLoad ==
                  if newStatus in LoadStatuses
                  then Vehicles.LoadAdded(old(vehicle.currentLoad), vehicle.capacityKg, weight).0
                  else if newStatus == "Delivered" then Vehicles.LoadRemoved(old(vehicle.currentLoad), weight)
                  else old(vehicle.currentLoad)
      // the package
      ensures user.CanUpdateStatus(newStatus) ==>
                warehouseId ==
                  if r == Done && toWarehouse != null then Some(toWarehouse.warehouseId)
                  else if Truthy(old(warehouseId)) then None
                  else old(warehouseId)
      ensures currentStatus == if r == Done then newStatus else old(currentStatus)
      ensures eta == if r == Done && newEta.Some? then newEta.value else old(eta)
      // the ledger: the vehicle's events, then the status event
      ensures !user.CanUpdateStatus(newStatus) ==> ledger.events == old(ledger.events)
      ensures user.CanUpdateStatus(newStatus) ==>
                ledger.events ==
                  UpdateTrail(old(ledger.events), trackingNumber, newStatus, location, user.username, vehicle,
                              old(LoadRefused(vehicle, newStatus, weight)), old(eta), now, r == Done,
                              warehouseId, eventType, eta, exceptionType)
      ensures ledger.errors == old(ledger.errors)
      ensures old(ledger.Valid()) ==> ledger.Valid()
      // what the package's tracking and whereabouts then say
      ensures r == Done && (forall i :: 0 <= i < |old(ledger.events)| ==> old(ledger.events)[i].timestamp <= now)
              ==> Tracking.CurrentStatus(ledger.events, trackingNumber) == Some(newStatus)
      ensures r == Done && toWarehouse != null ==> trackingNumber in toWarehouse.stored
      ensures var home := old(HomeOf(warehouses, warehouseId));
              user.CanUpdateStatus(newStatus) && home != null && home != toWarehouse ==> trackingNumber !in home.stored
    {
      if !user.CanUpdateStatus(newStatus) {
        return Raised(PermissionError);
      }
      ghost var home := HomeOf(warehouses, warehouseId);
      ghost var refused := LoadRefused(vehicle, newStatus, weight);
      ghost var dest := if toWarehouse != null then toWarehouse.State() else Warehouses.Holding({}, "");
      LeaveWarehouse(warehouses);
      assert LoadRefused(vehicle, newStatus, weight) == refused;
      assert toWarehouse != null ==> toWarehouse.State() == Entering(toWarehouse, home, dest, trackingNumber);
      r := Advance(newStatus, location, user, eventType, vehicle, toWarehouse, newEta, exceptionType, ledger, now);
    }

    /** Steps 3 to 6 of `update_status`, once the package has left its warehouse. */
    method Advance(newStatus: string, location: string, user: Users.User, eventType: string,
                   vehicle: Vehicles.Vehicle?, toWarehouse: Warehouses.Warehouse?, newEta: Option<int>,
                   exceptionType: Option<string>, ledger: Tracking.Ledger, now: int)
      returns (r: Outcome)
      modifies this`warehouseId, this`currentStatus, this`eta, VehicleSet(vehicle)`currentLoad, toWarehouse, ledger
      ensures var refused := old(LoadRefused(vehicle, newStatus, weight));
              r == if refused then Raised(ValueError)
                   else if toWarehouse != null &&
                           Warehouses.Added(old(toWarehouse.State()), toWarehouse.capacity, trackingNumber).1.Raised?
                   then Raised(ValueError)
                   else Done
      ensures vehicle != null ==>
                vehicle.currentLoad ==
                  if newStatus in LoadStatuses
                  then Vehicles.LoadAdded(old(vehicle.currentLoad), vehicle.capacityKg, weight).0
                  else if newStatus == "Delivered" then Vehicles.LoadRemoved(old(vehicle.currentLoad), weight)
                  else old(vehicle.currentLoad)
      ensures toWarehouse != null ==>
                toWarehouse.State() ==
                  if old(LoadRefused(vehicle, newStatus, weight)) then old(toWarehouse.State())
                  else Warehouses.Added(old(toWarehouse.State()), toWarehouse.capacity, trackingNumber).0
      ensures warehouseId == if r == Done && toWarehouse != null then Some(toWarehouse.warehouseId) else old(warehouseId)
      ensures currentStatus == if r == Done then newStatus else old(currentStatus)
      ensures eta == if r == Done && newEta.Some? then newEta.value else old(eta)
      ensures ledger.events ==
                UpdateTrail(old(ledger.events), trackingNumber, newStatus, location, user.username, vehicle,
                            old(LoadRefused(vehicle, newStatus, weight)), old(eta), now, r == Done,
                            warehouseId, eventType, eta, exceptionType)
      ensures ledger.errors == old(ledger.errors)
      ensures old(ledger.Valid()) ==> ledger.Valid()
      ensures r == Done && (forall i :: 0 <= i < |old(ledger.events)| ==> old(ledger.events)[i].timestamp <= now)
              ==> Tracking.CurrentStatus(ledger.events, trackingNumber) == Some(newStatus)
    {
      r := RideVehicle(vehicle, newStatus, location, user, ledger, now);
      if r.Raised? {
        return;
      }
      r := Arrive(newStatus, location, user, eventType, vehicle, toWarehouse, newEta, exceptionType, ledger, now);
    }

    /** Steps 4 to 6 of `update_status`, once the vehicle has taken the package. */
    method Arrive(newStatus: string, location: string, user: Users.User, eventType: string,
                  vehicle: Vehicles.Vehicle?, toWarehouse: Warehouses.Warehouse?, newEta: Option<int>,
                  exceptionType: Option<string>, ledger: Tracking.Ledger, now: int)
      returns (r: Outcome)
      modifies this`warehouseId, this`currentStatus, this`eta, toWarehouse, ledger
      ensures toWarehouse == null ==> r == Done
      ensures toWarehouse != null ==>
                (toWarehouse.State(), r) == Warehouses.Added(old(toWarehouse.State()), toWarehouse.capacity, trackingNumber)
      ensures warehouseId == if r == Done && toWarehouse != null then Some(toWarehouse.warehouseId) else old(warehouseId)
      ensures currentStatus == if r == Done then newStatus else old(currentStatus)
      ensures eta == if r == Done && newEta.Some? then newEta.value else old(eta)
      ensures ledger.events == old(ledger.events) +
                (if r == Done then
                   [Tracking.Event(|old(ledger.events)| + 1, trackingNumber, now, location, newStatus,
                                   Some(user.username), VehicleIdOf(vehicle), warehouseId, eventType,
                                   Some(eta), exceptionType)]
                 else [])
      ensures ledger.errors == old(ledger.errors)
      ensures old(ledger.Valid()) ==> ledger.Valid()
      ensures r == Done && (forall i :: 0 <= i < |old(ledger.events)| ==> old(ledger.events)[i].timestamp <= now)
              ==> Tracking.CurrentStatus(ledger.events, trackingNumber) == Some(newStatus)
    {
      r := EnterWarehouse(toWarehouse);
      if r.Raised? {
        return;
      }
      Record(newStatus, location, user, eventType, vehicle, newEta, exceptionType, ledger, now);
    }

    /** Step 2 of `update_status`: leave the current warehouse if the warehouse id is truthy. */
    method LeaveWarehouse(warehouses: Warehouses.WarehouseRegistry)
      modifies this`warehouseId, AsSet(HomeOf(warehouses, warehouseId))
      ensures var home := old(HomeOf(warehouses, warehouseId));
              home != null ==> home.State() == Warehouses.Removed(old(home.State()), home.capacity, trackingNumber)
      ensures warehouseId == if Truthy(old(warehouseId)) then None else old(warehouseId)
    {
      if Truthy(warehouseId) {
        var oldWh := Lookup(warehouses, warehouseId);
        if oldWh != null {
          oldWh.RemovePackage(trackingNumber);
        }
        warehouseId := None;
      }
    }

    /** Step 3 of `update_status`: board or leave the vehicle, if one is given. */
    method RideVehicle(vehicle: Vehicles.Vehicle?, newStatus: string, location: string, user: Users.User,
                       ledger: Tracking.Ledger, now: int)
      returns (r: Outcome)
      modifies VehicleSet(vehicle)`currentLoad, ledger
      ensures r == if old(LoadRefused(vehicle, newStatus, weight)) then Raised(ValueError) else Done
      ensures vehicle != null ==>
                vehicle.currentLoad ==
                  if newStatus in LoadStatuses
                  then Vehicles.LoadAdded(old(vehicle.currentLoad), vehicle.capacityKg, weight).0
                  else if newStatus == "Delivered" then Vehicles.LoadRemoved(old(vehicle.currentLoad), weight)
                  else old(vehicle.currentLoad)
      ensures ledger.events == old(ledger.events) +
                VehicleEvents(|old(ledger.events)| + 1, trackingNumber, newStatus, location, Some(user.username),
                              vehicle, old(LoadRefused(vehicle, newStatus, weight)), eta, now)
      ensures ledger.errors == old(ledger.errors)
      ensures old(ledger.Valid()) ==> ledger.Valid()
      ensures (forall i :: 0 <= i < |old(ledger.events)| ==> old(ledger.events)[i].timestamp <= now) ==>
                forall i :: 0 <= i < |ledger.events| ==> ledger.events[i].timestamp <= now
    {
      r := Done;
      if vehicle != null {
        if newStatus in LoadStatuses {
          r := vehicle.LoadPackage(trackingNumber, weight, eta, user, ledger, now);
        } else if newStatus == "Delivered" {
          vehicle.UnloadPackage(trackingNumber, weight, eta, location, user, ledger, now);
        }
      }
    }

    /** Step 4 of `update_status`: enter the destination warehouse, if one is given. */
    method EnterWarehouse(toWarehouse: Warehouses.Warehouse?) returns (r: Outcome)
      modifies this`warehouseId, toWarehouse
      ensures toWarehouse == null ==> r == Done && warehouseId == old(warehouseId)
      ensures toWarehouse != null ==>
                && (toWarehouse.State(), r) == Warehouses.Added(old(toWarehouse.State()), toWarehouse.capacity, trackingNumber)
                && warehouseId == if r == Done then Some(toWarehouse.warehouseId) else old(warehouseId)
    {
      r := Done;
      if toWarehouse != null {
        r := toWarehouse.AddPackage(trackingNumber);
        if r == Done {
          warehouseId := Some(toWarehouse.warehouseId);
        }
      }
    }

    /** Steps 5 and 6 of `update_status`: the new status and ETA, and the status event. */
    method Record(newStatus: string, location: string, user: Users.User, eventType: string,
                  vehicle: Vehicles.Vehicle?, newEta: Option<int>, exceptionType: Option<string>,
                  ledger: Tracking.Ledger, now: int)
      modifies this`currentStatus, this`eta, ledger
      ensures currentStatus == newStatus
      ensures eta == if newEta.Some? then newEta.value else old(eta)
      ensures ledger.events == old(ledger.events) + [
        Tracking.Event(|old(ledger.events)| + 1, trackingNumber, now, location, newStatus, Some(user.username),
                       VehicleIdOf(vehicle), warehouseId, eventType, Some(eta), exceptionType)]
      ensures ledger.errors == old(ledger.errors)
      ensures old(ledger.Valid()) ==> ledger.Valid()
      ensures (forall i :: 0 <= i < |old(ledger.events)| ==> old(ledger.events)[i].timestamp <= now)
              ==> Tracking.CurrentStatus(ledger.events, trackingNumber) == Some(newStatus)
    {
      currentStatus := newStatus;
      if newEta.Some? {
        eta := newEta.value;
      }
      ghost var before := ledger.events;
      var e := ledger.LogEvent(trackingNumber, location, newStatus, Some(user.username), VehicleIdOf(vehicle),
                               warehouseId, eventType, Some(eta), exceptionType, now, None);
      if forall i :: 0 <= i < |before| ==> before[i].timestamp <= now {
        Tracking.CurrentStatusAfterLatest(before, e.value, trackingNumber);
      }
    }
  }

  /** `Package.all_packages`. */
  class PackageRegistry {
    var table: map<string, Package>

    constructor ()
      ensures table == map[]
    {
      table := map[];
    }

    /** `find_by_tracking_number(t)`: `null` stands for Python's `None`. */
    function Find(trackingNumber: string): (p: Package?)
      reads this
      ensures p != null <==> trackingNumber in table
      ensures p != null ==> p == table[trackingNumber]
    {
      if trackingNumber in table then table[trackingNumber] else null
    }

    /** What a search by customer reads of the registered packages. */
    function Shipments(): (m: map<string, Tracking.Shipment>)
      reads this
      ensures m.Keys == table.Keys
      ensures forall k :: k in m ==> m[k] == Tracking.Shipment(table[k].trackingNumber, table[k].customerId)
    {
      map k | k in table :: Tracking.Shipment(table[k].trackingNumber, table[k].customerId)
    }
  }
}
