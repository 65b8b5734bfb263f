/** Warehouses: a registry of warehouses by id, each holding a set of tracking numbers up to its
    capacity, with an ACTIVE / FULL / CLOSED status. */
module Warehouses {
  import opened Common
  import Ordering
  import Tracking

  const ValidStatus: set<string> := {"ACTIVE", "FULL", "CLOSED"}

  /** The part of a warehouse that changes: the stored tracking numbers and the status. */
  datatype Holding = Holding(stored: set<string>, status: string)

  /** `is_full()`. */
  predicate Full(h: Holding, capacity: int)
  {
    |h.stored| >= capacity
  }

  /** `add_package(t)` on the holding: a full warehouse is marked FULL and refuses. */
  function Added(h: Holding, capacity: int, t: string): (r: (Holding, Outcome))
    ensures Full(h, capacity) ==> r == (h.(status := "FULL"), Raised(ValueError))
    ensures !Full(h, capacity) ==> r == (h.(stored := h.stored + {t}), Done)
  {
    if Full(h, capacity) then (h.(status := "FULL"), Raised(ValueError))
    else (h.(stored := h.stored + {t}), Done)
  }

  /** `remove_package(t)` on the holding: drops `t` if present, and reopens when not full. */
  function Removed(h: Holding, capacity: int, t: string): (r: Holding)
    ensures r.stored == h.stored - {t}
    ensures r.status == if |h.stored - {t}| >= capacity then h.status else "ACTIVE"
  {
    var stored := h.stored - {t};
    Holding(stored, if |stored| >= capacity then h.status else "ACTIVE")
  }

  /** What every reachable holding satisfies: a known status and no more packages than the
      capacity allows (a warehouse of capacity 0 or less never takes one). */
  predicate WellFormed(h: Holding, capacity: int)
  {
    h.status in ValidStatus && (|h.stored| <= capacity || h.stored == {})
  }

  lemma AddedKeepsWellFormed(h: Holding, capacity: int, t: string)
    requires WellFormed(h, capacity)
    ensures WellFormed(Added(h, capacity, t).0, capacity)
  {
    if !Full(h, capacity) {
      assert |h.stored + {t}| <= |h.stored| + 1 by {
        if t in h.stored {
          assert h.stored + {t} == h.stored;
        }
      }
    }
  }

  lemma RemovedKeepsWellFormed(h: Holding, capacity: int, t: string)
    requires WellFormed(h, capacity)
    ensures WellFormed(Removed(h, capacity, t), capacity)
  {
    assert |h.stored - {t}| <= |h.stored| by {
      assert h.stored - {t} <= h.stored;
    }
  }

  /** A package that enters and leaves again leaves the stored set as it found it. */
  lemma AddThenRemove(h: Holding, capacity: int, t: string)
    requires t !in h.stored
    ensures Removed(Added(h, capacity, t).0, capacity, t).stored == h.stored
  {
  }

  /** Adding to a full warehouse never changes what it stores, and adding a stored package to a
      warehouse that is not full changes nothing at all. */
  lemma AddedAtMostOnce(h: Holding, capacity: int, t: string)
    ensures Added(h, capacity, t).1.Raised? <==> Full(h, capacity)
    ensures Added(h, capacity, t).0.stored == if Full(h, capacity) then h.stored else h.stored + {t}
    ensures t in h.stored && !Full(h, capacity) ==> Added(h, capacity, t).0 == h
  {
  }

  /** After a removal the warehouse is still full (status kept) or it is ACTIVE. */
  lemma RemovedReopens(h: Holding, capacity: int, t: string)
    ensures var r := Removed(h, capacity, t); Full(r, capacity) || r.status == "ACTIVE"
    ensures var r := Removed(h, capacity, t); Full(r, capacity) ==> r.status == h.status
  {
  }

  /** `Warehouse`. */
  class Warehouse {
    const warehouseId: string
    const location: string
    const capacity: int
    var stored: set<string>
    var status: string

    /** Registers the new warehouse in `registry`, replacing any warehouse with the same id. */
    constructor (warehouseId: string, location: string, capacity: int, registry: WarehouseRegistry)
      modifies registry
      ensures this.warehouseId == warehouseId && this.location == location && this.capacity == capacity
      ensures stored == {} && status == "ACTIVE"
      ensures registry.table == old(registry.table)[warehouseId := this]
      ensures Valid()
    {
      this.warehouseId := warehouseId;
      this.location := location;
      this.capacity := capacity;
      stored := {};
      status := "ACTIVE";
      new;
      registry.table := registry.table[warehouseId := this];
    }

    function State(): Holding
      reads this
    {
      Holding(stored, status)
    }

    ghost predicate Valid()
      reads this
    {
      WellFormed(State(), capacity)
    }

    /** `mark_status(s)`. */
    method MarkStatus(s: string) returns (r: Outcome)
      modifies this
      ensures s in ValidStatus ==> r == Done && status == s
      ensures s !in ValidStatus ==> r == Raised(ValueError) && status == old(status)
      ensures stored == old(stored)
      ensures old(Valid()) ==> Valid()
    {
      if s !in ValidStatus {
        return Raised(ValueError);
      }
      status := s;
      return Done;
    }

    predicate IsFull()
      reads this
    {
      Full(State(), capacity)
    }

    /** `add_package(t)`. */
    method AddPackage(t: string) returns (r: Outcome)
      modifies this
      ensures (State(), r) == Added(old(State()), capacity, t)
      ensures old(Valid()) ==> Valid()
    {
      ghost var before := State();
      if |stored| >= capacity {
        status := "FULL";
        r := Raised(ValueError);
      } else {
        stored := stored + {t};
        r := Done;
      }
      if WellFormed(before, capacity) {
        AddedKeepsWellFormed(before, capacity, t);
      }
    }

    /** `remove_package(t)`: never raises. */
    method RemovePackage(t: string)
      modifies this
      ensures State() == Removed(old(State()), capacity, t)
      ensures old(Valid()) ==> Valid()
    {
      ghost var before := State();
      if t in stored {
        stored := stored - {t};
      }
      if |stored| < capacity {
        status := "ACTIVE";
      }
      if WellFormed(before, capacity) {
        RemovedKeepsWellFormed(before, capacity, t);
      }
    }

    /** `list_packages()`: the stored tracking numbers in ascending order. */
    method ListPackages() returns (r: seq<string>)
      ensures Ordering.StrictlySorted(r)
      ensures forall x :: x in r <==> x in stored
      ensures |r| == |stored|
    {
      r := Ordering.SortedElements(stored);
    }

    /** `list_warehouse_events()`, over the ledger's events. */
    function ListWarehouseEvents(log: seq<Tracking.Event>): (r: seq<Tracking.Event>)
      ensures forall e :: e in r <==> e in log && e.warehouseId == Some(warehouseId)
    {
      Tracking.SearchesSelectMatches(log, "", "", "", warehouseId, "", map[], 0, 0);
      Tracking.SearchByWarehouse(log, warehouseId)
    }
  }

  /** `Warehouse.all_warehouses`. */
  class WarehouseRegistry {
    var table: map<string, Warehouse>

    constructor ()
      ensures table == map[]
    {
      table := map[];
    }

    /** `Warehouse.get(id)`: `null` stands for Python's `None`. */
    function Get(warehouseId: string): (w: Warehouse?)
      reads this
      ensures w != null <==> warehouseId in table
      ensures w != null ==> w == table[warehouseId]
    {
      if warehouseId in table then table[warehouseId] else null
    }
  }
}
