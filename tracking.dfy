/** The tracking ledger: an append-only log of tracking events, an error list, and the queries over
    them (history, current status, searches, health, consistency). */
module Tracking {
  import opened Common
  import opened Seqs

  /** One tracking event. `eventId` is its position in the log, counted from 1. `user` is the
      username of the acting user, the only part of the user object the system reads back from an
      event (`None` stands for "System"). */
  datatype Event = Event(
    eventId: nat,
    trackingNumber: string,
    timestamp: int,
    location: string,
    status: string,
    user: Option<string>,
    vehicleId: Option<string>,
    warehouseId: Option<string>,
    eventType: string,
    eta: Option<int>,
    exceptionType: Option<string>)

  /** An entry of `error_logs`. */
  datatype ErrorEntry = ErrorEntry(time: int, trackingNumber: string, message: string)

  /** Every event's id is its 1-based position in the log. */
  predicate NumberedInOrder(log: seq<Event>)
  {
    forall i :: 0 <= i < |log| ==> log[i].eventId == i + 1
  }

  /** `TrackingEvent.all_events` and `TrackingEvent.error_logs`. */
  class Ledger {
    var events: seq<Event>
    var errors: seq<ErrorEntry>

    constructor ()
      ensures events == [] && errors == []
    {
      events := [];
      errors := [];
    }

    ghost predicate Valid()
      reads this
    {
      NumberedInOrder(events)
    }

    /** `log_error`: records the failure, never raises. */
    method LogError(trackingNumber: string, message: string, now: int)
      modifies this
      ensures errors == old(errors) + [ErrorEntry(now, trackingNumber, message)]
      ensures events == old(events)
    {
      errors := errors + [ErrorEntry(now, trackingNumber, message)];
    }

    /** `log_event`. `now` is the clock reading; `fault` is the message of an exception raised while
        the event is built (`None` when building succeeds). */
    method LogEvent(trackingNumber: string, location: string, status: string, user: Option<string>,
                    vehicleId: Option<string>, warehouseId: Option<string>, eventType: string,
                    eta: Option<int>, exceptionType: Option<string>, now: int, fault: Option<string>)
      returns (r: Option<Event>)
      modifies this
      ensures fault.None? ==>
        && r == Some(Event(|old(events)| + 1, trackingNumber, now, location, status, user,
                           vehicleId, warehouseId, eventType, eta, exceptionType))
        && events == old(events) + [r.value]
        && errors == old(errors)
      ensures fault.Some? ==>
        && r == None
        && events == old(events)
        && errors == old(errors) + [ErrorEntry(now, trackingNumber, "事件建立失敗：" + fault.value)]
      ensures old(Valid()) ==> Valid()
    {
      if fault.Some? {
        LogError(trackingNumber, "事件建立失敗：" + fault.value, now);
        return None;
      }
      var e := Event(|events| + 1, trackingNumber, now, location, status, user,
                     vehicleId, warehouseId, eventType, eta, exceptionType);
      events := events + [e];
      return Some(e);
    }
  }

  // ---------------------------------------------------------------------------------------------
  // Ordering by timestamp (Python's `sorted(..., key=lambda e: e.timestamp)`, which is stable)
  // ---------------------------------------------------------------------------------------------

  predicate TimeOrdered(s: seq<Event>)
  {
    forall i, j :: 0 <= i < j < |s| ==> s[i].timestamp <= s[j].timestamp
  }

  /** Puts `x` in front of the first element that is not earlier than it. */
  function InsertByTime(x: Event, s: seq<Event>): (r: seq<Event>)
    ensures |r| == |s| + 1
  {
    if s == [] || x.timestamp <= s[0].timestamp then [x] + s
    else [s[0]] + InsertByTime(x, s[1..])
  }

  lemma {:induction false} InsertByTimePermutes(x: Event, s: seq<Event>)
    ensures multiset(InsertByTime(x, s)) == multiset(s) + multiset{x}
  {
    if s != [] && s[0].timestamp < x.timestamp {
      InsertByTimePermutes(x, s[1..]);
      assert s == [s[0]] + s[1..];
    }
  }

  /** A list in time order stays in time order when an event no later than all of it is put first. */
  lemma OrderedCons(y: Event, r: seq<Event>)
    requires TimeOrdered(r)
    requires forall j :: 0 <= j < |r| ==> y.timestamp <= r[j].timestamp
    ensures TimeOrdered([y] + r)
  {
    var t := [y] + r;
    forall i, j | 0 <= i < j < |t| ensures t[i].timestamp <= t[j].timestamp {
      assert t[j] == r[j - 1];
      if i > 0 {
        assert t[i] == r[i - 1];
      }
    }
  }

  lemma {:induction false} InsertByTimeLowerBound(x: Event, s: seq<Event>, b: int)
    requires b <= x.timestamp
    requires forall i :: 0 <= i < |s| ==> b <= s[i].timestamp
    ensures forall j :: 0 <= j < |InsertByTime(x, s)| ==> b <= InsertByTime(x, s)[j].timestamp
  {
    if s != [] && s[0].timestamp < x.timestamp {
      InsertByTimeLowerBound(x, s[1..], b);
      var r := InsertByTime(x, s);
      forall j | 0 <= j < |r| ensures b <= r[j].timestamp {
        if j > 0 {
          assert r[j] == InsertByTime(x, s[1..])[j - 1];
        }
      }
    } else {
      var r := [x] + s;
      forall j | 0 <= j < |r| ensures b <= r[j].timestamp {
        if j > 0 {
          assert r[j] == s[j - 1];
        }
      }
    }
  }

  lemma {:induction false} InsertByTimeOrdered(x: Event, s: seq<Event>)
    requires TimeOrdered(s)
    ensures TimeOrdered(InsertByTime(x, s))
  {
    if s == [] || x.timestamp <= s[0].timestamp {
      OrderedCons(x, s);
    } else {
      var tail := s[1..];
      assert TimeOrdered(tail);
      InsertByTimeOrdered(x, tail);
      InsertByTimeLowerBound(x, tail, s[0].timestamp);
      OrderedCons(s[0], InsertByTime(x, tail));
    }
  }

  /** A stable sort by timestamp. */
  function SortByTime(s: seq<Event>): (r: seq<Event>)
    ensures TimeOrdered(r)
    ensures multiset(r) == multiset(s)
  {
    if s == [] then []
    else
      var sortedTail := SortByTime(s[1..]);
      InsertByTimeOrdered(s[0], sortedTail);
      InsertByTimePermutes(s[0], sortedTail);
      assert s == [s[0]] + s[1..];
      InsertByTime(s[0], sortedTail)
  }

  /** The events of `s` that carry timestamp `k`, in order. */
  function AtTime(s: seq<Event>, k: int): (r: seq<Event>)
    ensures |r| <= |s|
  {
    if s == [] then [] else (if s[0].timestamp == k then [s[0]] else []) + AtTime(s[1..], k)
  }

  /** `AtTime` of a list with a known head. */
  lemma AtTimeCons(x: Event, s: seq<Event>, k: int)
    ensures AtTime([x] + s, k) == (if x.timestamp == k then [x] else []) + AtTime(s, k)
  {
    assert ([x] + s)[1..] == s;
  }

  lemma {:induction false} InsertByTimeStable(x: Event, s: seq<Event>, k: int)
    ensures AtTime(InsertByTime(x, s), k) == (if x.timestamp == k then [x] else []) + AtTime(s, k)
  {
    if s == [] || x.timestamp <= s[0].timestamp {
      AtTimeCons(x, s, k);
    } else {
      var rest := InsertByTime(x, s[1..]);
      InsertByTimeStable(x, s[1..], k);
      AtTimeCons(s[0], rest, k);
      AtTimeCons(s[0], s[1..], k);
      assert s == [s[0]] + s[1..];
      if x.timestamp == k {
        calc {
          AtTime(InsertByTime(x, s), k);
          AtTime([s[0]] + rest, k);
          AtTime(rest, k);
          [x] + AtTime(s[1..], k);
          [x] + AtTime(s, k);
        }
      } else {
        calc {
          AtTime(InsertByTime(x, s), k);
          AtTime([s[0]] + rest, k);
          (if s[0].timestamp == k then [s[0]] else []) + AtTime(rest, k);
          (if s[0].timestamp == k then [s[0]] else []) + AtTime(s[1..], k);
          AtTime(s, k);
        }
      }
    }
  }

  /** Stability: events that share a timestamp keep their relative order. */
  lemma {:induction false} SortByTimeStable(s: seq<Event>, k: int)
    ensures AtTime(SortByTime(s), k) == AtTime(s, k)
  {
    if s != [] {
      SortByTimeStable(s[1..], k);
      InsertByTimeStable(s[0], SortByTime(s[1..]), k);
    }
  }

  /** A list already in time order is left as it is. */
  lemma {:induction false} SortByTimeOfOrdered(s: seq<Event>)
    requires TimeOrdered(s)
    ensures SortByTime(s) == s
  {
    if s != [] {
      assert TimeOrdered(s[1..]);
      SortByTimeOfOrdered(s[1..]);
    }
  }

  lemma {:induction false} InsertByTimeBeforeLatest(x: Event, s: seq<Event>, e: Event)
    requires x.timestamp <= e.timestamp
    ensures InsertByTime(x, s + [e]) == InsertByTime(x, s) + [e]
  {
    if s == [] {
      assert s + [e] == [e];
      assert InsertByTime(x, [e]) == [x] + [e];
    } else {
      var t := s + [e];
      assert t[0] == s[0] && t[1..] == s[1..] + [e];
      if s[0].timestamp < x.timestamp {
        InsertByTimeBeforeLatest(x, s[1..], e);
        calc {
          InsertByTime(x, t);
          [s[0]] + InsertByTime(x, s[1..] + [e]);
          [s[0]] + (InsertByTime(x, s[1..]) + [e]);
          ([s[0]] + InsertByTime(x, s[1..])) + [e];
          InsertByTime(x, s) + [e];
        }
      } else {
        assert InsertByTime(x, t) == [x] + t;
        assert InsertByTime(x, s) == [x] + s;
      }
    }
  }

  /** An event no earlier than all others ends up last. */
  lemma {:induction false} SortByTimeLatest(s: seq<Event>, e: Event)
    requires forall i :: 0 <= i < |s| ==> s[i].timestamp <= e.timestamp
    ensures SortByTime(s + [e]) == SortByTime(s) + [e]
  {
    if s == [] {
      assert [] + [e] == [e];
    } else {
      assert (s + [e])[1..] == s[1..] + [e];
      SortByTimeLatest(s[1..], e);
      InsertByTimeBeforeLatest(s[0], SortByTime(s[1..]), e);
    }
  }

  // ---------------------------------------------------------------------------------------------
  // Searches
  // ---------------------------------------------------------------------------------------------

  /** What a search by customer needs of a package: its tracking number and its owner. */
  datatype Shipment = Shipment(trackingNumber: string, customerId: string)

  /** The tracking numbers of the customer's packages in `package_dict`. */
  function CustomerTrackingNumbers(packageDict: map<string, Shipment>, customerId: string): set<string>
  {
    set k | k in packageDict && packageDict[k].customerId == customerId :: packageDict[k].trackingNumber
  }

  /** `str.lower()` on the ASCII letters. */
  function LowerChar(c: char): char
  {
    if 'A' <= c <= 'Z' then (c as int + 32) as char else c
  }

  function Lower(s: string): (r: string)
    ensures |r| == |s| && forall i :: 0 <= i < |s| ==> r[i] == LowerChar(s[i])
  {
    if s == [] then [] else [LowerChar(s[0])] + Lower(s[1..])
  }

  /** Python's `needle in haystack` on strings. */
  predicate Contains(haystack: string, needle: string)
    decreases |haystack|
  {
    needle <= haystack || (haystack != [] && Contains(haystack[1..], needle))
  }

  predicate AtLocation(e: Event, keyword: string)
  {
    Contains(Lower(e.location), Lower(keyword))
  }

  predicate InDateRange(e: Event, start: int, end: int)
  {
    start <= e.timestamp <= end
  }

  predicate OfCustomer(e: Event, customerId: string, packageDict: map<string, Shipment>)
  {
    e.trackingNumber in CustomerTrackingNumbers(packageDict, customerId)
  }

  /** The match tests of the searches, as function values. */
  function ForPackage(trackingNumber: string): Event -> bool
  {
    (e: Event) => e.trackingNumber == trackingNumber
  }

  function ForLocation(keyword: string): Event -> bool
  {
    (e: Event) => AtLocation(e, keyword)
  }

  function ForVehicle(vehicleId: string): Event -> bool
  {
    (e: Event) => e.vehicleId == Some(vehicleId)
  }

  function ForWarehouse(warehouseId: string): Event -> bool
  {
    (e: Event) => e.warehouseId == Some(warehouseId)
  }

  function ForCustomer(customerId: string, packageDict: map<string, Shipment>): Event -> bool
  {
    (e: Event) => OfCustomer(e, customerId, packageDict)
  }

  function ForDates(start: int, end: int): Event -> bool
  {
    (e: Event) => InDateRange(e, start, end)
  }

  function SearchByTracking(log: seq<Event>, trackingNumber: string): seq<Event>
  {
    Filter(log, ForPackage(trackingNumber))
  }

  function SearchByLocation(log: seq<Event>, keyword: string): seq<Event>
  {
    Filter(log, ForLocation(keyword))
  }

  function SearchByVehicle(log: seq<Event>, vehicleId: string): seq<Event>
  {
    Filter(log, ForVehicle(vehicleId))
  }

  function SearchByWarehouse(log: seq<Event>, warehouseId: string): seq<Event>
  {
    Filter(log, ForWarehouse(warehouseId))
  }

  function SearchByCustomer(log: seq<Event>, customerId: string, packageDict: map<string, Shipment>): seq<Event>
  {
    Filter(log, ForCustomer(customerId, packageDict))
  }

  function SearchByDateRange(log: seq<Event>, start: int, end: int): seq<Event>
  {
    Filter(log, ForDates(start, end))
  }

  /** Each single-criterion search keeps the log order of the events it returns. */
  lemma SearchesKeepLogOrder(log: seq<Event>, t: string, keyword: string, v: string, w: string,
                             c: string, dict: map<string, Shipment>, start: int, end: int)
    ensures IsSubsequence(SearchByTracking(log, t), log)
    ensures IsSubsequence(SearchByLocation(log, keyword), log)
    ensures IsSubsequence(SearchByVehicle(log, v), log)
    ensures IsSubsequence(SearchByWarehouse(log, w), log)
    ensures IsSubsequence(SearchByCustomer(log, c, dict), log)
    ensures IsSubsequence(SearchByDateRange(log, start, end), log)
  {
    FilterIsSubsequence(log, ForPackage(t));
    FilterIsSubsequence(log, ForLocation(keyword));
    FilterIsSubsequence(log, ForVehicle(v));
    FilterIsSubsequence(log, ForWarehouse(w));
    FilterIsSubsequence(log, ForCustomer(c, dict));
    FilterIsSubsequence(log, ForDates(start, end));
  }

  /** Each single-criterion search returns exactly the logged events that match it. */
  lemma SearchesSelectMatches(log: seq<Event>, t: string, keyword: string, v: string, w: string,
                              c: string, dict: map<string, Shipment>, start: int, end: int)
    ensures forall e :: e in SearchByTracking(log, t) <==> e in log && e.trackingNumber == t
    ensures forall e :: e in SearchByLocation(log, keyword) <==> e in log && AtLocation(e, keyword)
    ensures forall e :: e in SearchByVehicle(log, v) <==> e in log && e.vehicleId == Some(v)
    ensures forall e :: e in SearchByWarehouse(log, w) <==> e in log && e.warehouseId == Some(w)
    ensures forall e :: e in SearchByCustomer(log, c, dict) <==> e in log && OfCustomer(e, c, dict)
    ensures forall e :: e in SearchByDateRange(log, start, end) <==> e in log && start <= e.timestamp <= end
  {
    FilterMembers(log, ForPackage(t));
    FilterMembers(log, ForLocation(keyword));
    FilterMembers(log, ForVehicle(v));
    FilterMembers(log, ForWarehouse(w));
    FilterMembers(log, ForCustomer(c, dict));
    FilterMembers(log, ForDates(start, end));
  }

  /** A package's events are exactly the logged events that carry its tracking number. */
  lemma TrackingMembers(log: seq<Event>, t: string)
    ensures forall e :: e in SearchByTracking(log, t) <==> e in log && e.trackingNumber == t
  {
    SearchesSelectMatches(log, t, "", "", "", "", map[], 0, 0);
  }

  /** Location matching ignores the case of ASCII letters on both sides. */
  lemma LocationMatchIgnoresCase(e: Event, keyword: string)
    ensures AtLocation(e, keyword) <==> AtLocation(e, Lower(keyword))
    ensures AtLocation(e, keyword) <==> AtLocation(e.(location := Lower(e.location)), keyword)
  {
    LowerIdempotent(keyword);
    LowerIdempotent(e.location);
  }

  lemma LowerIdempotent(s: string)
    ensures Lower(Lower(s)) == Lower(s)
  {
  }

  // ---------------------------------------------------------------------------------------------
  // History and current status
  // ---------------------------------------------------------------------------------------------

  /** `get_history(t)`. */
  function History(log: seq<Event>, trackingNumber: string): seq<Event>
  {
    SortByTime(SearchByTracking(log, trackingNumber))
  }

  /** `get_current_status(t)`: the status of the last history entry, `None` without history. */
  function CurrentStatus(log: seq<Event>, trackingNumber: string): Option<string>
  {
    var h := History(log, trackingNumber);
    if h == [] then None else Some(Last(h).status)
  }

  /** The history of a package is a stable sort by time of its events: it is in time order, holds
      exactly its events, and events with equal timestamps stay in log order. */
  lemma HistoryIsStableSort(log: seq<Event>, t: string)
    ensures TimeOrdered(History(log, t))
    ensures multiset(History(log, t)) == multiset(SearchByTracking(log, t))
    ensures forall e :: e in History(log, t) <==> e in log && e.trackingNumber == t
    ensures forall k :: AtTime(History(log, t), k) == AtTime(SearchByTracking(log, t), k)
  {
    var found := SearchByTracking(log, t);
    TrackingMembers(log, t);
    forall e ensures e in History(log, t) <==> e in found {
      calc {
        e in History(log, t);
        e in multiset(History(log, t));
        e in multiset(found);
        e in found;
      }
    }
    forall k ensures AtTime(History(log, t), k) == AtTime(found, k) {
      SortByTimeStable(found, k);
    }
  }

  /** When the events were logged in time order, the history is simply the log's events in order. */
  lemma HistoryOfOrderedLog(log: seq<Event>, t: string)
    requires TimeOrdered(log)
    ensures History(log, t) == SearchByTracking(log, t)
  {
    var found := SearchByTracking(log, t);
    FilterIsSubsequence(log, ForPackage(t));
    SubsequencePreservesTimeOrder(found, log);
    SortByTimeOfOrdered(found);
  }

  lemma {:induction false} SubsequencePreservesTimeOrder(a: seq<Event>, b: seq<Event>)
    requires IsSubsequence(a, b) && TimeOrdered(b)
    ensures TimeOrdered(a)
    decreases |b|
  {
    if a != [] {
      if a[0] == b[0] {
        assert TimeOrdered(b[1..]);
        SubsequencePreservesTimeOrder(a[1..], b[1..]);
        forall j | 0 < j < |a| ensures a[0].timestamp <= a[j].timestamp {
          SubsequenceMembers(a[1..], b[1..], j - 1);
        }
      } else {
        assert TimeOrdered(b[1..]);
        SubsequencePreservesTimeOrder(a, b[1..]);
      }
    }
  }

  /** Every element of a subsequence is an element of the longer list. */
  lemma {:induction false} SubsequenceMembers(a: seq<Event>, b: seq<Event>, j: nat)
    requires IsSubsequence(a, b) && j < |a|
    ensures a[j] in b
    decreases |b|
  {
    if a[0] == b[0] {
      if j > 0 { SubsequenceMembers(a[1..], b[1..], j - 1); }
    } else {
      SubsequenceMembers(a, b[1..], j);
    }
  }

  /** No status exactly when the package has no events. */
  lemma CurrentStatusAbsent(log: seq<Event>, t: string)
    ensures CurrentStatus(log, t).None? <==> forall i :: 0 <= i < |log| ==> log[i].trackingNumber != t
  {
    var found := SearchByTracking(log, t);
    TrackingMembers(log, t);
    assert |History(log, t)| == |multiset(History(log, t))| == |multiset(found)| == |found|;
    if found != [] {
      assert found[0] in found;
      assert found[0] in log;
      var i :| 0 <= i < |log| && log[i] == found[0];
    }
    if i :| 0 <= i < |log| && log[i].trackingNumber == t {
      assert log[i] in found;
    }
  }

  /** An event logged no earlier than all others becomes its package's current status, and leaves
      every other package's status as it was. */
  lemma CurrentStatusAfterLatest(log: seq<Event>, e: Event, t: string)
    requires forall i :: 0 <= i < |log| ==> log[i].timestamp <= e.timestamp
    ensures t == e.trackingNumber ==> CurrentStatus(log + [e], t) == Some(e.status)
    ensures t != e.trackingNumber ==> CurrentStatus(log + [e], t) == CurrentStatus(log, t)
  {
    FilterSnoc(log, e, ForPackage(t));
    var found := SearchByTracking(log, t);
    if t == e.trackingNumber {
      assert SearchByTracking(log + [e], t) == found + [e];
      TrackingMembers(log, t);
      forall i | 0 <= i < |found| ensures found[i].timestamp <= e.timestamp {
        assert found[i] in found;
        assert found[i] in log;
        var k :| 0 <= k < |log| && log[k] == found[i];
      }
      SortByTimeLatest(found, e);
      var h := History(log + [e], t);
      assert h == SortByTime(found) + [e];
      assert Last(h) == e;
    } else {
      assert SearchByTracking(log + [e], t) == found;
    }
  }

  // ---------------------------------------------------------------------------------------------
  // Multi-criteria search
  // ---------------------------------------------------------------------------------------------

  /** The keyword arguments of `search_multi`; `None` is an argument left out. */
  datatype Query = Query(
    tracking: Option<string>,
    customerId: Option<string>,
    packageDict: Option<map<string, Shipment>>,
    location: Option<string>,
    dateStart: Option<int>,
    dateEnd: Option<int>,
    vehicle: Option<string>,
    warehouse: Option<string>)

  const NoFilters: Query := Query(None, None, None, None, None, None, None, None)

  /** The customer filter applies only when both the id and a non-empty package dict are given. */
  predicate CustomerFilterOn(q: Query)
  {
    Truthy(q.customerId) && q.packageDict.Some? && q.packageDict.value != map[]
  }

  /** The date filter applies only when both ends are given. */
  predicate DateFilterOn(q: Query)
  {
    q.dateStart.Some? && q.dateEnd.Some?
  }

  /** Keeps what passes `p` when `on`, everything otherwise. */
  function Narrow(s: seq<Event>, on: bool, p: Event -> bool): seq<Event>
  {
    if on then Filter(s, p) else s
  }

  /** `search_multi(...)`: the filters applied one after another, each only when its argument is given. */
  function SearchMulti(log: seq<Event>, q: Query): seq<Event>
  {
    var byTracking := Narrow(log, Truthy(q.tracking), ForPackage(GetOr(q.tracking, "")));
    var byCustomer := Narrow(byTracking, CustomerFilterOn(q),
                             ForCustomer(GetOr(q.customerId, ""), GetOr(q.packageDict, map[])));
    var byLocation := Narrow(byCustomer, Truthy(q.location), ForLocation(GetOr(q.location, "")));
    var byVehicle := Narrow(byLocation, Truthy(q.vehicle), ForVehicle(GetOr(q.vehicle, "")));
    var byWarehouse := Narrow(byVehicle, Truthy(q.warehouse), ForWarehouse(GetOr(q.warehouse, "")));
    Narrow(byWarehouse, DateFilterOn(q), ForDates(GetOr(q.dateStart, 0), GetOr(q.dateEnd, 0)))
  }

  /** An event passes every filter the query turns on. */
  predicate Matches(q: Query, e: Event)
  {
    && (Truthy(q.tracking) ==> e.trackingNumber == q.tracking.value)
    && (CustomerFilterOn(q) ==> OfCustomer(e, q.customerId.value, q.packageDict.value))
    && (Truthy(q.location) ==> AtLocation(e, q.location.value))
    && (Truthy(q.vehicle) ==> e.vehicleId == Some(q.vehicle.value))
    && (Truthy(q.warehouse) ==> e.warehouseId == Some(q.warehouse.value))
    && (DateFilterOn(q) ==> InDateRange(e, q.dateStart.value, q.dateEnd.value))
  }

  function ForQuery(q: Query): Event -> bool
  {
    (e: Event) => Matches(q, e)
  }

  lemma NarrowAppend(a: seq<Event>, b: seq<Event>, on: bool, p: Event -> bool)
    ensures Narrow(a + b, on, p) == Narrow(a, on, p) + Narrow(b, on, p)
  {
    if on { FilterAppend(a, b, p); }
  }

  lemma NarrowSingle(x: Event, on: bool, p: Event -> bool)
    ensures Narrow([x], on, p) == if !on || p(x) then [x] else []
  {
    assert [x][1..] == [];
  }

  lemma NarrowEmpty(on: bool, p: Event -> bool)
    ensures Narrow([], on, p) == []
  {
  }

  /** `search_multi` distributes over a log split in two. */
  lemma SearchMultiAppend(a: seq<Event>, b: seq<Event>, q: Query)
    ensures SearchMulti(a + b, q) == SearchMulti(a, q) + SearchMulti(b, q)
  {
    var p1 := ForPackage(GetOr(q.tracking, ""));
    var p2 := ForCustomer(GetOr(q.customerId, ""), GetOr(q.packageDict, map[]));
    var p3 := ForLocation(GetOr(q.location, ""));
    var p4 := ForVehicle(GetOr(q.vehicle, ""));
    var p5 := ForWarehouse(GetOr(q.warehouse, ""));
    var p6 := ForDates(GetOr(q.dateStart, 0), GetOr(q.dateEnd, 0));
    var a1, b1 := Narrow(a, Truthy(q.tracking), p1), Narrow(b, Truthy(q.tracking), p1);
    NarrowAppend(a, b, Truthy(q.tracking), p1);
    var a2, b2 := Narrow(a1, CustomerFilterOn(q), p2), Narrow(b1, CustomerFilterOn(q), p2);
    NarrowAppend(a1, b1, CustomerFilterOn(q), p2);
    var a3, b3 := Narrow(a2, Truthy(q.location), p3), Narrow(b2, Truthy(q.location), p3);
    NarrowAppend(a2, b2, Truthy(q.location), p3);
    var a4, b4 := Narrow(a3, Truthy(q.vehicle), p4), Narrow(b3, Truthy(q.vehicle), p4);
    NarrowAppend(a3, b3, Truthy(q.vehicle), p4);
    var a5, b5 := Narrow(a4, Truthy(q.warehouse), p5), Narrow(b4, Truthy(q.warehouse), p5);
    NarrowAppend(a4, b4, Truthy(q.warehouse), p5);
    NarrowAppend(a5, b5, DateFilterOn(q), p6);
  }

  /** On a one-event log, `search_multi` keeps the event exactly when it matches. */
  lemma SearchMultiSingle(x: Event, q: Query)
    ensures SearchMulti([x], q) == if Matches(q, x) then [x] else []
  {
    var p1 := ForPackage(GetOr(q.tracking, ""));
    var p2 := ForCustomer(GetOr(q.customerId, ""), GetOr(q.packageDict, map[]));
    var p3 := ForLocation(GetOr(q.location, ""));
    var p4 := ForVehicle(GetOr(q.vehicle, ""));
    var p5 := ForWarehouse(GetOr(q.warehouse, ""));
    var p6 := ForDates(GetOr(q.dateStart, 0), GetOr(q.dateEnd, 0));
    NarrowSingle(x, Truthy(q.tracking), p1);
    NarrowSingle(x, CustomerFilterOn(q), p2);
    NarrowSingle(x, Truthy(q.location), p3);
    NarrowSingle(x, Truthy(q.vehicle), p4);
    NarrowSingle(x, Truthy(q.warehouse), p5);
    NarrowSingle(x, DateFilterOn(q), p6);
    NarrowEmpty(CustomerFilterOn(q), p2);
    NarrowEmpty(Truthy(q.location), p3);
    NarrowEmpty(Truthy(q.vehicle), p4);
    NarrowEmpty(Truthy(q.warehouse), p5);
    NarrowEmpty(DateFilterOn(q), p6);
  }

  /** The filters combine by AND: `search_multi` is the single filter "matches every given filter". */
  lemma {:induction false} SearchMultiIsConjunction(log: seq<Event>, q: Query)
    ensures SearchMulti(log, q) == Filter(log, ForQuery(q))
  {
    if log == [] {
      SearchMultiAppend([], [], q);
    } else {
      var p := ForQuery(q);
      assert log == [log[0]] + log[1..];
      SearchMultiAppend([log[0]], log[1..], q);
      SearchMultiSingle(log[0], q);
      SearchMultiIsConjunction(log[1..], q);
      assert Filter(log, p) == (if p(log[0]) then [log[0]] else []) + Filter(log[1..], p);
    }
  }

  /** With no filters, `search_multi` returns the whole log. */
  lemma SearchMultiNoFilters(log: seq<Event>)
    ensures SearchMulti(log, NoFilters) == log
  {
  }

  // ---------------------------------------------------------------------------------------------
  // Health and consistency
  // ---------------------------------------------------------------------------------------------

  datatype Health = Health(system: string, eventCount: nat, errorCount: nat, lastEvent: Option<int>)

  /** `health_status()`. */
  function HealthStatus(events: seq<Event>, errors: seq<ErrorEntry>): (h: Health)
    ensures h.eventCount == |events| && h.errorCount == |errors|
    ensures h.system == "UP" <==> |errors| == 0
    ensures h.system == "DEGRADED" <==> 1 <= |errors| <= 3
    ensures h.system == "DOWN" <==> |errors| > 3
    ensures h.lastEvent == if events == [] then None else Some(events[|events| - 1].timestamp)
  {
    var system := if |errors| == 0 then "UP" else if |errors| <= 3 then "DEGRADED" else "DOWN";
    Health(system, |events|, |errors|, if |events| > 0 then Some(events[|events| - 1].timestamp) else None)
  }

  /** UP < DEGRADED < DOWN. */
  function Severity(system: string): nat
  {
    if system == "UP" then 0 else if system == "DEGRADED" then 1 else 2
  }

  /** Recording an error never improves the health; logging an event never changes it. */
  lemma HealthMonotone(events: seq<Event>, errors: seq<ErrorEntry>, err: ErrorEntry, e: Event)
    ensures Severity(HealthStatus(events, errors + [err]).system) >= Severity(HealthStatus(events, errors).system)
    ensures HealthStatus(events + [e], errors).system == HealthStatus(events, errors).system
    ensures HealthStatus(events + [e], errors).lastEvent == Some(e.timestamp)
  {
  }

  /** The grouping step of `check_consistency`: each package's events, in log order. */
  method GroupByPackage(log: seq<Event>) returns (grouped: map<string, seq<Event>>)
    ensures forall t :: t in grouped ==> grouped[t] == SearchByTracking(log, t)
    ensures forall t :: t !in grouped ==> SearchByTracking(log, t) == []
  {
    grouped := map[];
    for i := 0 to |log|
      invariant forall t :: t in grouped ==> grouped[t] == SearchByTracking(log[..i], t)
      invariant forall t :: t !in grouped ==> SearchByTracking(log[..i], t) == []
    {
      var e := log[i];
      assert log[..i + 1] == log[..i] + [e];
      forall t
        ensures SearchByTracking(log[..i + 1], t)
             == SearchByTracking(log[..i], t) + (if e.trackingNumber == t then [e] else [])
      {
        FilterSnoc(log[..i], e, ForPackage(t));
      }
      var group := if e.trackingNumber in grouped then grouped[e.trackingNumber] else [];
      grouped := grouped[e.trackingNumber := group + [e]];
    }
    assert log[..|log|] == log;
  }

  /** The counting step of `check_consistency`: adjacent pairs whose later event is earlier. */
  method CountInversions(events: seq<Event>) returns (count: nat)
    ensures count == Inversions(events)
  {
    count := 0;
    if |events| < 2 {
      return;
    }
    var i := 1;
    while i < |events|
      invariant 1 <= i <= |events|
      invariant count == Inversions(events[..i])
    {
      assert events[..i + 1][..i] == events[..i];
      count := count + (if events[i].timestamp < events[i - 1].timestamp then 1 else 0);
      i := i + 1;
    }
    assert events[..|events|] == events;
  }

  /** `check_consistency()`, as written: every group is sorted by time before its inversions are
      counted, so the count is always 0. */
  method CheckConsistency(log: seq<Event>) returns (issues: nat)
    ensures issues == 0
  {
    issues := 0;
    var grouped := GroupByPackage(log);
    var pending := grouped.Keys;
    while pending != {}
      invariant issues == 0
      decreases pending
    {
      var t :| t in pending;
      var sorted := SortByTime(grouped[t]);
      var count := CountInversions(sorted);
      InversionsZero(sorted);
      issues := issues + count;
      pending := pending - {t};
    }
  }

  /** A log whose package "T" was logged out of time order: the as-written check still reports 0. */
  lemma UnorderedLogExample()
    ensures var a := Event(1, "T", 2, "A", "Created", None, None, None, "Transit", None, None);
            var b := Event(2, "T", 1, "B", "Delivered", None, None, None, "Transit", None, None);
            !TimeOrdered(SearchByTracking([a, b], "T"))
  {
    var a := Event(1, "T", 2, "A", "Created", None, None, None, "Transit", None, None);
    var b := Event(2, "T", 1, "B", "Delivered", None, None, None, "Transit", None, None);
    FilterCons(a, [b], ForPackage("T"));
    FilterCons(b, [], ForPackage("T"));
    assert SearchByTracking([a, b], "T") == [a, b];
  }

  /** Adjacent pairs of `s` whose later element is earlier in time. */
  function Inversions(s: seq<Event>): nat
  {
    if |s| < 2 then 0
    else Inversions(s[..|s| - 1]) + (if s[|s| - 1].timestamp < s[|s| - 2].timestamp then 1 else 0)
  }

  lemma {:induction false} InversionsZero(s: seq<Event>)
    ensures Inversions(s) == 0 <==> TimeOrdered(s)
  {
    if |s| >= 2 {
      var init := s[..|s| - 1];
      InversionsZero(init);
      if TimeOrdered(s) {
        assert TimeOrdered(init);
      }
      if Inversions(s) == 0 {
        assert TimeOrdered(init);
        forall i, j | 0 <= i < j < |s| ensures s[i].timestamp <= s[j].timestamp {
          if j == |s| - 1 && i < j - 1 {
            assert init[i].timestamp <= init[j - 1].timestamp;
          }
        }
      }
    }
  }

  /** What the consistency check evidently intends: it reports 0 exactly when every package's
      events were logged in time order. */
  method CountOutOfOrder(log: seq<Event>) returns (issues: nat)
    ensures issues == 0 <==> forall t :: TimeOrdered(SearchByTracking(log, t))
  {
    var grouped := GroupByPackage(log);
    issues := 0;
    var pending := grouped.Keys;
    while pending != {}
      invariant pending <= grouped.Keys
      invariant issues == 0 <==> forall t :: t in grouped && t !in pending ==> TimeOrdered(grouped[t])
      decreases pending
    {
      var t :| t in pending;
      var count := CountInversions(grouped[t]);
      InversionsZero(grouped[t]);
      issues := issues + count;
      pending := pending - {t};
    }
    forall t ensures TimeOrdered(SearchByTracking(log, t)) <==> (t in grouped ==> TimeOrdered(grouped[t])) {
    }
  }
}
