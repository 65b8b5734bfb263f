# Smart logistics system: the package lifecycle engine in Dafny

This project models the core of a small in-memory logistics system and proves properties of that model.

- **The package.** A package is created with a quoted shipping cost and enters its starting warehouse. A creation event is logged.
- **The status update.** It is guarded by the acting user's role. In order, it:
  1. releases the package from its current warehouse;
  2. loads the package onto a vehicle or unloads it;
  3. puts the package in a destination warehouse;
  4. commits the new status and ETA and appends a tracking event.
- **Registries.** Warehouses are capacity-bounded sets of tracking numbers. Vehicles track their load against a capacity.
- **The tracking ledger.** It is append-only: history, current status, filter searches, the multi-filter search, health thresholds and the consistency check.
- **Users.** A role-permission table, password verification and a five-strike login lockout.
- **Billing.** Payment records, monthly statements for contract customers, refunds, and the dispatch of a customer's payment by customer type.
- **The customer's view.** `merge_customer_events` keeps only milestones, each change of status once.

## The modules

| module | file | what it holds |
|---|---|---|
| `Common` | common.dfy | `Option`, `Result`, `Outcome` (`Done` or `Raised(error)`) and the Python truthiness of an optional string |
| `Seqs` | seqs.dfy | list comprehensions as `Filter`, order-preserving subsequences |
| `Ordering` | ordering.dfy | Python's string order and `sorted(set_of_strings)` |
| `Users` | users.dfy | `User`, the permission table, the login step function |
| `Service` | service.dfy | `ServiceType` and the two built-in tiers |
| `Tracking` | tracking.dfy | `TrackingEvent`'s log (`Ledger`), the queries, health and consistency |
| `Warehouses` | warehouse.dfy | `Warehouse`, its registry and the pure add/remove steps on `(stored, status)` |
| `Vehicles` | vehicle.dfy | `Vehicle`, the load steps, the events a vehicle writes |
| `Packages` | package.dfy | the quote, `Package` construction, `update_status`, the package registry |
| `Billing` | billing.dfy | `BillingRecord`, `MonthlyStatement`, `BillingSystem` |
| `Customers` | customer.dfy | `Customer`, `ContractCustomer`, the customer registry |
| `App` | app.dfy | `merge_customer_events` |

### How the system's elements are represented

- **Class-level globals become explicit state objects** passed to the operations that use them:

  | global | state object |
  |---|---|
  | `TrackingEvent.all_events`, `error_logs` | `Tracking.Ledger` |
  | `Warehouse.all_warehouses` | `Warehouses.WarehouseRegistry` |
  | `Package.all_packages` | `Packages.PackageRegistry` |
  | `BillingSystem.all_records`, `monthly_statements` | `Billing.BillingSystem` |
  | `Customer.all_customers` | `Customers.CustomerRegistry` |

- **Raised exceptions** become an `Outcome` or `Result` value.
- **When an operation raises part-way**, the steps before it stay in place, as they do in the source.
- **Each mutable entity is a class whose methods update its fields.** The mutable part of a warehouse (and of a user's account) also has a value form, `State()`. The methods are specified against pure step functions on that value: `Added`, `Removed`, `LoginStep`. The properties are proved about those step functions.

### Where the model follows the code

Where the documented design and the code differ, the model follows the code:

- **"FULL" is set automatically only when a package is refused** (warehouse.py:62-63), or explicitly by `mark_status` (warehouse.py:47-51). Being at capacity does not imply it. Removing a package sets "ACTIVE" whenever the warehouse is then below capacity, even if it was "CLOSED".
- **A refund of 0 stores 0** (billing.py:185), not a strictly negative amount.
- **A refused status update is not all-or-nothing.**
  - An overloaded vehicle raises after the package has already left its warehouse.
  - A full destination warehouse raises after the vehicle has already taken the package and logged its event.
  - The package then keeps its old status, and no status event is written (package.py:166-202).
- **The consistency check always reports 0** (tracking.py:240-253). See Findings.

## Model

| member | source | states |
|---|---|---|
| `Ordering.SortedElements` | warehouse.py:85-87 | `sorted` of a set of strings: strictly ascending in Python's string order, exactly the set's elements, one each |
| `Users.HashInjective` | user.py:45-47 | two passwords have the same digest exactly when they are the same password |
| `Users.PermitsExactly` | user.py:85-103 | the permission check is true exactly for an admin, or for a status listed in the role's entry of the permission table |
| `Users.PermissionExamples` | user.py:21-26 | a driver may set "Delivered", "Picked Up" and "Out for Delivery" but not "Shipment Created"; customer service may not set "Out for Delivery"; an admin may set any status |
| `Users.LoginStep` | user.py:55-80 | an inactive account raises PermissionError and changes nothing; a right password resets the failure count, appends the stamp to the history and makes it the last login; a wrong one adds a failure and disables the account, raising, on the fifth |
| `Users.LoginKeepsLockout` | user.py:58-78 | one login keeps the failure count at most 5, and at 5 only on a disabled account |
| `Users.LoginRunKeepsLockout` | user.py:58-78 | the same bound holds after any sequence of logins |
| `Users.FiveStrikes` | user.py:72-78 | five wrong passwords on a fresh account disable it; even the right password is then refused and changes nothing |
| `Users.User.constructor` | user.py:28-40 | the fields are as given, the password is stored hashed, and the account is active, with no failures, no history and no last login |
| `Users.User.Login` | user.py:55-80 | the account and the answer are what `LoginStep` gives for whether the password verifies; the lockout invariant is kept |
| `Users.VerifyOnlyOwnPassword` | user.py:49-50 | a user's password verifies exactly for the password it was created with |
| `Users.RolePrivileges` | user.py:108-121 | every valid role may view customer packages; only an admin may view all; only customer service and admin may create packages |
| `Users.NewUser` | user.py:28-30 | a role outside the four known ones raises ValueError; otherwise a fresh, valid user with the given fields |
| `Service.NewServiceType` | service.py:12-24 | the fields are stored unchanged; missing special fees become an empty table |
| `Service.BuiltInTiers` | service.py:42-64 | the standard tier charges 50 base and 15 per kg, with Oversize 100 and Fragile 20; the overnight tier charges 150 and 25, with Dangerous 200 and Fragile 75 |
| `Tracking.Ledger.constructor` | tracking.py:18-22 | the event log and the error log start empty |
| `Tracking.Ledger.LogError` | tracking.py:70-80 | exactly one error entry is appended; the events are untouched |
| `Tracking.Ledger.LogEvent` | tracking.py:85-118 | on success exactly one event is appended and returned, numbered one past the log's length; on a construction failure one error entry is appended, nothing is returned and the events are untouched; the numbering invariant is kept |
| `Tracking.SortByTime` | tracking.py:124-128 | the result is in non-decreasing time order and is a permutation of its input |
| `Tracking.SortByTimeStable` | tracking.py:124-128 | the sort is stable: events with the same timestamp keep their order |
| `Tracking.Lower` | tracking.py:146-147 | lowering keeps the length and lowers each character |
| `Tracking.SearchesKeepLogOrder` | tracking.py:142-170 | each of the six searches returns an order-preserving subsequence of the log |
| `Tracking.SearchesSelectMatches` | tracking.py:142-170 | each search holds exactly the logged events matching its filter (tracking number, case-insensitive location substring, vehicle, warehouse, customer through the package table, inclusive date range) |
| `Tracking.TrackingMembers` | tracking.py:142-143 | the search by tracking number holds exactly the logged events of that package |
| `Tracking.LocationMatchIgnoresCase` | tracking.py:146-147 | the location match does not depend on the case of the keyword or of the location |
| `Tracking.LowerIdempotent` | tracking.py:146-147 | lowering twice is lowering once |
| `Tracking.HistoryIsStableSort` | tracking.py:124-128 | a history is in time order, is a permutation of the package's events, holds exactly those events, and keeps log order among equal timestamps |
| `Tracking.HistoryOfOrderedLog` | tracking.py:124-128 | on a log already in time order, the history is the package's events in log order |
| `Tracking.CurrentStatusAbsent` | tracking.py:134-136 | there is no current status exactly when the log has no event for the package |
| `Tracking.CurrentStatusAfterLatest` | tracking.py:134-136 | after appending an event no earlier than any logged one, that event's status is its package's current status, and no other package's status changes |
| `Tracking.SearchMultiIsConjunction` | tracking.py:188-212 | the multi-search keeps, in log order, exactly the events passing every filter that is supplied; the date filter needs both ends; the customer filter needs a non-empty package table |
| `Tracking.SearchMultiSingle` | tracking.py:188-212 | the multi-search keeps a single event exactly when it matches the query |
| `Tracking.SearchMultiAppend` | tracking.py:188-212 | the multi-search of a concatenation is the concatenation of the multi-searches |
| `Tracking.SearchMultiNoFilters` | tracking.py:188-212 | with no filters it returns the whole log |
| `Tracking.HealthStatus` | tracking.py:218-234 | "UP" exactly for no errors, "DEGRADED" exactly for 1 to 3, "DOWN" exactly for more; the counts are the two logs' lengths; the last event time is that of the last appended event, or none |
| `Tracking.HealthMonotone` | tracking.py:218-234 | a new error never improves the health; a new event never changes it and becomes the last event time |
| `Tracking.GroupByPackage` | tracking.py:243-245 | the grouping maps each package with events to exactly its events in log order, and no other package |
| `Tracking.CountInversions` | tracking.py:249-251 | the count is the number of adjacent pairs whose later event is earlier |
| `Tracking.InversionsZero` | tracking.py:249-251 | there are no adjacent inversions exactly when the sequence is in time order |
| `Tracking.CheckConsistency` | tracking.py:240-253 | as written, the result is always 0 |
| `Tracking.UnorderedLogExample` | tracking.py:247-251 | a log of two events of one package, logged later-first, is out of time order (the as-written check still reports 0) |
| `Tracking.CountOutOfOrder` | tracking.py:240-253 | the corrected check reports 0 exactly when every package's events were logged in time order |
| `Warehouses.Added` | warehouse.py:60-66 | at or over capacity the stored set is unchanged, the status becomes "FULL" and ValueError is raised; otherwise the number is added to the set |
| `Warehouses.Removed` | warehouse.py:69-76 | the number is gone from the set, and the status is "ACTIVE" unless the warehouse is still at capacity |
| `Warehouses.AddedKeepsWellFormed` | warehouse.py:60-66 | adding keeps the stored count within capacity and the status valid |
| `Warehouses.RemovedKeepsWellFormed` | warehouse.py:69-76 | removing keeps the stored count within capacity and the status valid |
| `Warehouses.AddThenRemove` | warehouse.py:60-76 | removing a number just added gives back the stored set |
| `Warehouses.AddedAtMostOnce` | warehouse.py:60-66 | adding raises exactly when full; re-adding a stored number leaves the warehouse as it was |
| `Warehouses.RemovedReopens` | warehouse.py:69-76 | after a removal the warehouse is either still at capacity with its old status, or "ACTIVE" |
| `Warehouses.Warehouse.constructor` | warehouse.py:26-34 | an empty, active warehouse, registered under its id and replacing any previous one |
| `Warehouses.Warehouse.MarkStatus` | warehouse.py:47-51 | a status outside ACTIVE, FULL and CLOSED raises ValueError and changes nothing; otherwise it is set |
| `Warehouses.Warehouse.AddPackage` | warehouse.py:60-67 | the new state and the outcome are `Added` of the old state |
| `Warehouses.Warehouse.RemovePackage` | warehouse.py:69-76 | the new state is `Removed` of the old state; it never raises |
| `Warehouses.Warehouse.ListPackages` | warehouse.py:85-87 | exactly the stored numbers, strictly ascending |
| `Warehouses.Warehouse.ListWarehouseEvents` | warehouse.py:81-83 | exactly the logged events carrying this warehouse's id |
| `Warehouses.WarehouseRegistry.constructor` | warehouse.py:22-22 | the registry starts empty |
| `Warehouses.WarehouseRegistry.Get` | warehouse.py:39-42 | the warehouse registered under the id, or none for an unknown id |
| `Vehicles.LoadAdded` | vehicle.py:52-59 | over capacity the load is unchanged and ValueError is raised; otherwise the weight is added |
| `Vehicles.LoadRemoved` | vehicle.py:61-65 | the load drops by the weight but never below zero |
| `Vehicles.LoadStaysInBounds` | vehicle.py:57-65 | loading and unloading non-negative weights keep the load non-negative and within capacity |
| `Vehicles.LoadThenUnload` | vehicle.py:57-65 | unloading what was just loaded gives the load back |
| `Vehicles.CollectNumbers` | vehicle.py:120-121 | the set of tracking numbers of the events |
| `Vehicles.VehiclePackages` | vehicle.py:116-121 | the tracking numbers of a vehicle's activity are exactly those of the logged events carrying its id |
| `Vehicles.Vehicle.constructor` | vehicle.py:20-35 | the fields are as given; the load is zero and the status "ACTIVE" |
| `Vehicles.Vehicle.AssignDriver` | vehicle.py:40-47 | only a user with role driver is assigned; anyone else raises ValueError and leaves the driver |
| `Vehicles.Vehicle.AddLoad` | vehicle.py:52-59 | the new load and the outcome are `LoadAdded` of the old load; a non-negative weight keeps the load within bounds |
| `Vehicles.Vehicle.RemoveLoad` | vehicle.py:61-65 | the new load is `LoadRemoved` of the old load; a non-negative weight keeps the load within bounds |
| `Vehicles.Vehicle.LoadPackage` | vehicle.py:70-87 | the load is added, staying within bounds for a non-negative weight; only when that succeeds is one "Loaded to Vehicle" event appended, at "Vehicle " plus the id and carrying this vehicle's id |
| `Vehicles.Vehicle.UnloadPackage` | vehicle.py:89-105 | the load is removed, staying within bounds for a non-negative weight, and one "Unloaded from Vehicle" event is always appended at the given location, carrying this vehicle's id |
| `Vehicles.Vehicle.VehicleActivity` | vehicle.py:110-114 | exactly the logged events carrying this vehicle's id |
| `Vehicles.Vehicle.ListAssignedPackages` | vehicle.py:116-121 | the distinct tracking numbers of the events carrying this vehicle's id, strictly ascending |
| `Packages.CalculateCost` | package.py:97-125 | base rate plus weight times the weight rate, plus 0.5 per km, plus the fees of the priced special services, plus 1% of the declared value |
| `Packages.FeeSumAppend` | package.py:111-117 | the special fees of two lists of services add up |
| `Packages.UnpricedServiceIgnored` | package.py:111-117 | a service the tier does not price adds nothing, wherever it appears |
| `Packages.FeeSumNonNegative` | package.py:111-117 | with non-negative fees, the special services never lower the cost |
| `Packages.QuoteExamples` | package.py:97-125 | 5 kg over 200 km, declared at 1000: standard 235; overnight with Dangerous 585; overnight with Dangerous, Fragile and the unpriced Refrigerated 660 |
| `Packages.Lookup` | package.py:75-75 | the warehouse registered under a given id, or none |
| `Packages.Package.constructor` | package.py:28-92 | "Shipment Created"; the ETA the given days ahead; cost as quoted; the warehouse id kept whether or not the warehouse exists or has room; registered under the tracking number; the starting warehouse, if registered, adds the package (or turns "FULL"); exactly one "Created" event with that warehouse id and ETA |
| `Packages.Package.UpdateStatus` | package.py:130-224 | without permission, PermissionError and no change at all; otherwise the release from the warehouse, then vehicle load or unload, then the destination, each as its step function says; ValueError from an overloaded vehicle or a full destination, with the earlier steps kept; on success the new status, the destination's id (or none), the new ETA if given, the vehicle's event then the status event in the log, the package's current status is the new one, and it is stored at the destination and not in the warehouse it left |
| `Packages.Package.Advance` | package.py:179-224 | the vehicle step, then, if it succeeded, the destination and the status commit, with the combined outcome, load, warehouse state and log |
| `Packages.Package.Arrive` | package.py:197-224 | the destination adds the package; only when it does are the status, warehouse id and ETA committed and the status event appended |
| `Packages.Package.LeaveWarehouse` | package.py:166-174 | with a truthy warehouse id, the registered warehouse (if any) removes the package and the id becomes none; otherwise nothing changes |
| `Packages.Package.RideVehicle` | package.py:179-192 | "Picked Up" and "Out for Delivery" load the vehicle, raising on overload; "Delivered" unloads it; any other status, or no vehicle, leaves the load; the log gains exactly the vehicle's event |
| `Packages.Package.EnterWarehouse` | package.py:197-202 | the destination's state and the outcome are `Added`; on success the package's warehouse id is the destination's |
| `Packages.Package.Record` | package.py:207-224 | the status is set, the ETA replaced only when one is given, one status event appended, and the new status becomes current |
| `Packages.PackageRegistry.constructor` | package.py:26-26 | the registry starts empty |
| `Packages.PackageRegistry.Find` | package.py:229-231 | the package registered under the tracking number, or none |
| `Packages.PackageRegistry.Shipments` | tracking.py:162-165 | the tracking number and owner of every registered package, as a search by customer reads them |
| `Billing.ChargedTotalSnoc` | billing.py:57-63 | a record adds its amount to the total unless it is a refund |
| `Billing.ChargedTotalIsSumOfCharges` | billing.py:57-59 | the running total equals the sum of the amounts of the non-refund records |
| `Billing.ChargedTotalBounds` | billing.py:57-59 | a statement of refunds only totals 0, and non-negative charges never total below 0 |
| `Billing.MonthlyStatement.constructor` | billing.py:51-54 | the statement belongs to the customer, is dated now and starts empty |
| `Billing.MonthlyStatement.TotalAmount` | billing.py:56-59 | the sum of the amounts of the records that are not refunds |
| `Billing.MonthlyStatement.AddRecord` | billing.py:61-63 | the record is appended, and the total grows by its charge |
| `Billing.BillingSystem.constructor` | billing.py:97-98 | no records and no statements |
| `Billing.BillingSystem.RecordPayment` | billing.py:103-116 | exactly one record, for the package's billing cost with the given method, is appended and returned |
| `Billing.BillingSystem.PayNow` | billing.py:121-126 | one "Immediate Payment" record for the billing cost is appended and returned |
| `Billing.BillingSystem.Prepaid` | billing.py:131-144 | one "Prepaid" record of amount 0 is appended and returned |
| `Billing.BillingSystem.AddToMonthlyBill` | billing.py:149-170 | one "Monthly Billing" record for the billing cost goes to the ledger and to the customer's statement; the statement is created, dated now, only at the first such charge; other statements are untouched |
| `Billing.BillingSystem.Refund` | billing.py:175-192 | one refund record whose amount is minus the magnitude given (so never positive) is appended and returned |
| `Billing.BillingSystem.ListCustomerRecords` | billing.py:197-200 | an order-preserving subsequence of all the records holding exactly that customer's records, each as many times as it occurs among all the records |
| `Billing.BillingSystem.ListAllRecords` | billing.py:202-205 | every record, in order |
| `Billing.BillingSystem.GetMonthlyStatement` | billing.py:207-210 | the customer's statement, or none for a customer never billed monthly |
| `Customers.Customer.constructor` | customer.py:21-37 | the fields are as given, there are no payments, and the customer is registered under its id |
| `Customers.Customer.Contract` | customer.py:104-122 | a customer of type "Contract" billed "Monthly": a contract customer and not a prepaid one |
| `Customers.Customer.PayForPackage` | customer.py:53-79 | a prepaid customer gets an amount-0 "Prepaid" record; a contract customer a "Monthly Billing" record on their statement; anyone else an "Immediate Payment" record; the record goes to the ledger and to the customer's payments, and only a contract payment touches a statement, a first one opening a statement dated now |
| `Customers.Customer.ListPayments` | customer.py:84-91 | the customer's payment records in order, empty when there are none |
| `Customers.CustomerRegistry.constructor` | customer.py:19-19 | the registry starts empty |
| `App.Kept` | app.py:81-89 | the scan keeps at most as many events as it reads |
| `App.MergeCustomerEvents` | app.py:69-94 | the loop computes the customer view of the events with the four milestones visible |
| `App.KeptVisible` | app.py:84-89 | every kept event is a milestone, and the kept events are an order-preserving subsequence of the input |
| `App.KeptHasNoRepeats` | app.py:84-89 | no two neighbours share a status, and the first differs from the status kept before |
| `App.KeptEmpty` | app.py:84-93 | nothing is kept exactly when every milestone repeats the status kept before |
| `App.KeptShowsEveryStatus` | app.py:84-89 | every milestone status of the input appears among the kept events unless it was the status kept before |
| `App.CustomerViewProperties` | app.py:69-94 | no events give nothing; with a milestone, a non-empty list of milestones only; with none, the last event alone; never one status twice in a row; always in input order; every milestone status of the input shown |

## Left out

- Output: `print` diagnostics and the `__str__`/`__repr__`/`strftime` formatting. They only produce text.
- The Streamlit user interface: app_2.py, and app.py outside `merge_customer_events`. This includes app_2.py's recomputation of the billing cost.
- The clock:
  - `datetime.now()` is the parameter `now`, in whole seconds.
  - `timedelta(days=...)` is `SecondsPerDay` seconds a day.
  - The login timestamp string is the parameter `stamp`.
- Fresh identifiers: the uuid-derived tracking number and user id are parameters.
- Users.HashPassword: sha256 is an injective tag on the password. Hash collisions are not modelled.
- Packages.CalculateCost: money and weights are exact reals. The final `round(cost, 2)` and binary floating point are not modelled. The reference quotes are exact, so rounding leaves them unchanged.
- Users.User.constructor: requires a valid role. The raising path of the Python constructor is `Users.NewUser`, which returns ValueError for any other role.
- Object arguments passed by value:
  - The billing operations take the customer's id and the package, not the customer object. They read only `customer_id` of the customer.
  - `Vehicles.Vehicle.LoadPackage`/`UnloadPackage` take the package's tracking number, weight and ETA.
  - A tracking event stores the acting user's username (`None` for "System") rather than the user object, because nothing else of it is read back.
- Default arguments: `eta_days=2` and `warehouse_id="W-001"` of the package constructor (package.py:39-40), the `event_type="Transit"`, `vehicle`, `to_warehouse`, `eta` and `exception_type` defaults of `update_status` (package.py:135-139), and the defaults of `log_event` are all explicit parameters; a caller passes the default value itself.
- Tracking.Ledger.LogEvent: the reason building an event could fail is not modelled. It is given as the parameter `fault`, and callers inside the engine pass none.
- Tracking.Lower: only ASCII letters are lowered. Python's full Unicode case mapping is not modelled.
- Tracking.SearchByVehicle and Tracking.SearchByWarehouse: search for a given id. A search for `None`, which in Python would match the events with no vehicle or no warehouse, is not modelled.
- Python truthiness of the `search_multi` arguments:
  - Empty strings count as absent.
  - The package table counts only when non-empty.
  - A date bound counts when given. A bound that is falsy in Python does not occur, because the bounds are datetimes.
- `Vehicle.status` is stored but never changed by the source, so no operation on it is modelled.
- Aliasing: `list_all_records` and `list_payments` return a copy or the list itself. The model returns the sequence value, so later mutation through the returned list is not modelled.
- Concurrency: none exists in the source.

## Findings

| source | as written | input that shows it | evidently intended | confidence | as-written member | corrected member |
|---|---|---|---|---|---|---|
| tracking.py:240-253 | each package's events are sorted by timestamp before adjacent inversions are counted, so the count is always 0 | a log with two events of package "T", the first at time 2 and the second at time 1: the events are out of time order, the check reports 0 | count the adjacent pairs of each package's events, in log order, whose later event is earlier, so that 0 means every package was logged in time order | high, not executed | `Tracking.CheckConsistency`, `Tracking.UnorderedLogExample` | `Tracking.CountOutOfOrder` |
