/** Vehicles: load accounting against a capacity, driver assignment, and the tracking events a
    vehicle writes when a package is loaded or unloaded. */
module Vehicles {
  import opened Common
  import Ordering
  import Tracking
  import Users

  const ValidStatus: set<string> := {"ACTIVE", "MAINTENANCE", "OFF_DUTY"}

  /** `add_load(w)` on the load: refused, with the load unchanged, when it would exceed capacity. */
  function LoadAdded(load: real, capacity: real, weight: real): (r: (real, Outcome))
    ensures load + weight > capacity ==> r == (load, Raised(ValueError))
    ensures load + weight <= capacity ==> r == (load + weight, Done)
  {
    if load + weight > capacity then (load, Raised(ValueError)) else (load + weight, Done)
  }

  /** `remove_load(w)` on the load: never below zero. */
  function LoadRemoved(load: real, weight: real): (r: real)
    ensures r >= 0.0
    ensures r == load - weight || (r == 0.0 && load - weight < 0.0)
  {
    if load - weight > 0.0 then load - weight else 0.0
  }

  /** A load within bounds: not negative and, once a package is aboard, not over capacity. */
  predicate LoadInBounds(load: real, capacity: real)
  {
    0.0 <= load && (load <= capacity || load == 0.0)
  }

  /** Loading and unloading packages of non-negative weight keeps the load in bounds; a successful
      load never exceeds the capacity whatever the weight. */
  lemma LoadStaysInBounds(load: real, capacity: real, weight: real)
    requires LoadInBounds(load, capacity) && weight >= 0.0
    ensures LoadInBounds(LoadAdded(load, capacity, weight).0, capacity)
    ensures LoadInBounds(LoadRemoved(load, weight), capacity)
    ensures LoadAdded(load, capacity, weight).1 == Done ==> LoadAdded(load, capacity, weight).0 <= capacity
  {
  }

  /** Unloading what was just loaded gives the load back. */
  lemma LoadThenUnload(load: real, capacity: real, weight: real)
    requires load >= 0.0 && weight >= 0.0
    requires LoadAdded(load, capacity, weight).1 == Done
    ensures LoadRemoved(LoadAdded(load, capacity, weight).0, weight) == load
  {
  }

  /** The tracking numbers of a list of events, as a set. */
  function TrackingNumbers(events: seq<Tracking.Event>): set<string>
  {
    set i | 0 <= i < |events| :: events[i].trackingNumber
  }

  lemma TrackingNumbersSnoc(s: seq<Tracking.Event>, e: Tracking.Event)
    ensures TrackingNumbers(s + [e]) == TrackingNumbers(s) + {e.trackingNumber}
  {
    var t := s + [e];
    forall x ensures x in TrackingNumbers(t) <==> x in TrackingNumbers(s) + {e.trackingNumber} {
      if x in TrackingNumbers(t) {
        var i :| 0 <= i < |t| && t[i].trackingNumber == x;
        if i < |s| { assert s[i] == t[i]; }
      }
      if x in TrackingNumbers(s) {
        var i :| 0 <= i < |s| && s[i].trackingNumber == x;
        assert t[i] == s[i];
      }
      if x == e.trackingNumber {
        assert t[|s|] == e;
      }
    }
  }

  /** The tracking numbers of `events`, gathered one event at a time. */
  method CollectNumbers(events: seq<Tracking.Event>) returns (numbers: set<string>)
    ensures numbers == TrackingNumbers(events)
  {
    numbers := {};
    for i := 0 to |events|
      invariant numbers == TrackingNumbers(events[..i])
    {
      TrackingNumbersSnoc(events[..i], events[i]);
      assert events[..i + 1] == events[..i] + [events[i]];
      numbers := numbers + {events[i].trackingNumber};
    }
    assert events[..|events|] == events;
  }

  /** The packages a vehicle has events for, read off the whole log. */
  lemma VehiclePackages(log: seq<Tracking.Event>, v: string)
    ensures forall t :: t in TrackingNumbers(Tracking.SearchByVehicle(log, v)) <==>
      exists i :: 0 <= i < |log| && log[i].vehicleId == Some(v) && log[i].trackingNumber == t
  {
    var activity := Tracking.SearchByVehicle(log, v);
    Tracking.SearchesSelectMatches(log, "", "", v, "", "", map[], 0, 0);
    forall t ensures t in TrackingNumbers(activity) <==>
      exists i :: 0 <= i < |log| && log[i].vehicleId == Some(v) && log[i].trackingNumber == t
    {
      if t in TrackingNumbers(activity) {
        var j :| 0 <= j < |activity| && activity[j].trackingNumber == t;
        assert activity[j] in activity;
        var i :| 0 <= i < |log| && log[i] == activity[j];
      }
      if i :| 0 <= i < |log| && log[i].vehicleId == Some(v) && log[i].trackingNumber == t {
        assert log[i] in log;
        assert log[i] in activity;
        var j :| 0 <= j < |activity| && activity[j] == log[i];
      }
    }
  }

  /** The username recorded for an acting user (`None` for "System"). */
  function Actor(user: Users.User?): Option<string>
  {
    if user == null then None else Some(user.username)
  }

  /** `Vehicle`. */
  class Vehicle {
    const vehicleId: string
    const vehicleType: string
    const capacityKg: real
    var currentLoad: real
    var driver: Users.User?
    var status: string

    constructor (vehicleId: string, vehicleType: string, capacityKg: real, driver: Users.User?)
      ensures this.vehicleId == vehicleId && this.vehicleType == vehicleType
      ensures this.capacityKg == capacityKg && this.driver == driver
      ensures currentLoad == 0.0 && status == "ACTIVE"
      ensures Valid()
    {
      this.vehicleId := vehicleId;
      this.vehicleType := vehicleType;
      this.capacityKg := capacityKg;
      this.driver := driver;
      currentLoad := 0.0;
      status := "ACTIVE";
    }

    ghost predicate Valid()
      reads this
    {
      LoadInBounds(currentLoad, capacityKg) && status in ValidStatus
    }

    /** `assign_driver(u)`: only a user with role driver is accepted. */
    method AssignDriver(user: Users.User) returns (r: Outcome)
      modifies this`driver
      ensures user.role == "driver" ==> r == Done && driver == user
      ensures user.role != "driver" ==> r == Raised(ValueError) && driver == old(driver)
    {
      if user.role != "driver" {
        return Raised(ValueError);
      }
      driver := user;
      return Done;
    }

    /** `add_load(w)`. */
    method AddLoad(weight: real) returns (r: Outcome)
      modifies this`currentLoad
      ensures (currentLoad, r) == LoadAdded(old(currentLoad), capacityKg, weight)
      ensures old(Valid()) && weight >= 0.0 ==> Valid()
    {
      if Valid() && weight >= 0.0 {
        LoadStaysInBounds(currentLoad, capacityKg, weight);
      }
      if currentLoad + weight > capacityKg {
        return Raised(ValueError);
      }
      currentLoad := currentLoad + weight;
      return Done;
    }

    /** `remove_load(w)`. */
    method RemoveLoad(weight: real)
      modifies this`currentLoad
      ensures currentLoad == LoadRemoved(old(currentLoad), weight)
      ensures old(Valid()) && weight >= 0.0 ==> Valid()
    {
      if Valid() && weight >= 0.0 {
        LoadStaysInBounds(currentLoad, capacityKg, weight);
      }
      currentLoad := if currentLoad - weight > 0.0 then currentLoad - weight else 0.0;
    }

    /** `load_package(p, user)`: the package is given by its tracking number, weight and ETA. A
        refused load raises before any event is written. */
    method LoadPackage(trackingNumber: string, weight: real, eta: int, user: Users.User?,
                       ledger: Tracking.Ledger, now: int)
      returns (r: Outcome)
      modifies this`currentLoad, ledger
      ensures (currentLoad, r) == LoadAdded(old(currentLoad), capacityKg, weight)
      ensures old(Valid()) && weight >= 0.0 ==> Valid()
      ensures r == Done ==> ledger.events == old(ledger.events) + [
        Tracking.Event(|old(ledger.events)| + 1, trackingNumber, now, "Vehicle " + vehicleId,
                       "Loaded to Vehicle", Actor(user), Some(vehicleId), None, "Transit", Some(eta), None)]
      ensures r.Raised? ==> ledger.events == old(ledger.events)
      ensures ledger.errors == old(ledger.errors)
      ensures old(ledger.Valid()) ==> ledger.Valid()
    {
      r := AddLoad(weight);
      if r.Raised? {
        return;
      }
      var _ := ledger.LogEvent(trackingNumber, "Vehicle " + vehicleId, "Loaded to Vehicle", Actor(user),
                               Some(vehicleId), None, "Transit", Some(eta), None, now, None);
    }

    /** `unload_package(p, location, user)`. */
    method UnloadPackage(trackingNumber: string, weight: real, eta: int, location: string,
                         user: Users.User?, ledger: Tracking.Ledger, now: int)
      modifies this`currentLoad, ledger
      ensures currentLoad == LoadRemoved(old(currentLoad), weight)
      ensures old(Valid()) && weight >= 0.0 ==> Valid()
      ensures ledger.events == old(ledger.events) + [
        Tracking.Event(|old(ledger.events)| + 1, trackingNumber, now, location,
                       "Unloaded from Vehicle", Actor(user), Some(vehicleId), None, "Transit", Some(eta), None)]
      ensures ledger.errors == old(ledger.errors)
      ensures old(ledger.Valid()) ==> ledger.Valid()
    {
      RemoveLoad(weight);
      var _ := ledger.LogEvent(trackingNumber, location, "Unloaded from Vehicle", Actor(user),
                               Some(vehicleId), None, "Transit", Some(eta), None, now, None);
    }

    /** `vehicle_activity()`, over the ledger's events. */
    function VehicleActivity(log: seq<Tracking.Event>): (r: seq<Tracking.Event>)
      ensures forall e :: e in r <==> e in log && e.vehicleId == Some(vehicleId)
    {
      Tracking.SearchesSelectMatches(log, "", "", vehicleId, "", "", map[], 0, 0);
      Tracking.SearchByVehicle(log, vehicleId)
    }

    /** `list_assigned_packages()`: every package this vehicle has an event for, once, ascending. */
    method ListAssignedPackages(log: seq<Tracking.Event>) returns (r: seq<string>)
      ensures Ordering.StrictlySorted(r)
      ensures forall t :: t in r <==>
        exists i :: 0 <= i < |log| && log[i].vehicleId == Some(vehicleId) && log[i].trackingNumber == t
    {
      var activity := VehicleActivity(log);
      var numbers := CollectNumbers(activity);
      VehiclePackages(log, vehicleId);
      r := Ordering.SortedElements(numbers);
    }
  }
}
