/** Billing: the payment records of every customer, and the monthly statements of contract
    customers. The clock reading that stamps a record is a parameter. */
module Billing {
  import opened Common
  import Seqs
  import Packages

  /** `BillingRecord`: a refund carries a negative amount. */
  datatype Record = Record(customerId: string, trackingNumber: string, amount: real, payMethod: string,
                           isRefund: bool, timestamp: int)

  /** The sum of the amounts of the records that are not refunds. */
  function ChargedTotal(records: seq<Record>): real
  {
    if records == [] then 0.0
    else ChargedTotal(records[..|records| - 1]) + Charged(records[|records| - 1])
  }

  function Charged(record: Record): real
  {
    if record.isRefund then 0.0 else record.amount
  }

  /** Adding a record adds its amount to the total, unless it is a refund. */
  lemma ChargedTotalSnoc(records: seq<Record>, record: Record)
    ensures ChargedTotal(records + [record]) == ChargedTotal(records) + Charged(record)
  {
    assert (records + [record])[..|records|] == records;
  }

  /** The sum of all the amounts. */
  function AmountSum(records: seq<Record>): real
  {
    if records == [] then 0.0 else AmountSum(records[..|records| - 1]) + records[|records| - 1].amount
  }

  predicate NotRefund(record: Record)
  {
    !record.isRefund
  }

  lemma AmountSumSnoc(records: seq<Record>, record: Record)
    ensures AmountSum(records + [record]) == AmountSum(records) + record.amount
  {
    assert (records + [record])[..|records|] == records;
  }

  /** `total_amount` is the sum over the records that are not refunds. */
  lemma {:induction false} ChargedTotalIsSumOfCharges(records: seq<Record>)
    ensures ChargedTotal(records) == AmountSum(Seqs.Filter(records, NotRefund))
  {
    if records != [] {
      var front := records[..|records| - 1];
      var last := records[|records| - 1];
      ChargedTotalIsSumOfCharges(front);
      assert records == front + [last];
      Seqs.FilterSnoc(front, last, NotRefund);
      if NotRefund(last) {
        assert Seqs.Filter(records, NotRefund) == Seqs.Filter(front, NotRefund) + [last];
        AmountSumSnoc(Seqs.Filter(front, NotRefund), last);
      } else {
        assert Seqs.Filter(records, NotRefund) == Seqs.Filter(front, NotRefund);
      }
    }
  }

  /** A bill made only of refunds totals zero, and charges of non-negative amounts never total
      below zero. */
  lemma {:induction false} ChargedTotalBounds(records: seq<Record>)
    ensures (forall i :: 0 <= i < |records| ==> records[i].isRefund) ==> ChargedTotal(records) == 0.0
    ensures (forall i :: 0 <= i < |records| ==> records[i].amount >= 0.0) ==> ChargedTotal(records) >= 0.0
  {
    if records != [] {
      ChargedTotalBounds(records[..|records| - 1]);
    }
  }

  /** `MonthlyStatement`: the bill of one contract customer. */
  class MonthlyStatement {
    const customerId: string
    const createdDate: int
    var records: seq<Record>

    constructor (customerId: string, now: int)
      ensures this.customerId == customerId && createdDate == now && records == []
    {
      this.customerId := customerId;
      createdDate := now;
      records := [];
    }

    /** `total_amount`. */
    function TotalAmount(): (r: real)
      reads this
      ensures r == AmountSum(Seqs.Filter(records, NotRefund))
    {
      ChargedTotalIsSumOfCharges(records);
      ChargedTotal(records)
    }

    /** `add_record(r)`. */
    method AddRecord(record: Record)
      modifies this
      ensures records == old(records) + [record]
      ensures TotalAmount() == old(TotalAmount()) + Charged(record)
    {
      ChargedTotalSnoc(records, record);
      records := records + [record];
    }
  }

  /** Every record of a customer. */
  function OfCustomer(customerId: string): Record -> bool
  {
    (r: Record) => r.customerId == customerId
  }

  /** `BillingSystem.all_records` and `BillingSystem.monthly_statements`. */
  class BillingSystem {
    var allRecords: seq<Record>
    var statements: map<string, MonthlyStatement>

    constructor ()
      ensures allRecords == [] && statements == map[]
      ensures Valid()
    {
      allRecords := [];
      statements := map[];
    }

    /** Each statement is filed under its own customer's id (so no two ids share one). */
    ghost predicate Valid()
      reads this
    {
      forall c :: c in statements ==> statements[c].customerId == c
    }

    /** `record_payment(customer, package, method)`: the charge is the package's billing cost. */
    method RecordPayment(customerId: string, package: Packages.Package, payMethod: string, now: int)
      returns (record: Record)
      modifies this`allRecords
      ensures record == Record(customerId, package.trackingNumber, package.billingCost, payMethod, false, now)
      ensures allRecords == old(allRecords) + [record]
    {
      record := Record(customerId, package.trackingNumber, package.billingCost, payMethod, false, now);
      allRecords := allRecords + [record];
    }

    /** `pay_now(customer, package)`. */
    method PayNow(customerId: string, package: Packages.Package, now: int) returns (record: Record)
      modifies this`allRecords
      ensures record == Record(customerId, package.trackingNumber, package.billingCost, "Immediate Payment",
                               false, now)
      ensures allRecords == old(allRecords) + [record]
    {
      record := RecordPayment(customerId, package, "Immediate Payment", now);
    }

    /** `prepaid(customer, package)`: the record is kept but nothing is charged. */
    method Prepaid(customerId: string, package: Packages.Package, now: int) returns (record: Record)
      modifies this`allRecords
      ensures record == Record(customerId, package.trackingNumber, 0.0, "Prepaid", false, now)
      ensures allRecords == old(allRecords) + [record]
    {
      record := Record(customerId, package.trackingNumber, 0.0, "Prepaid", false, now);
      allRecords := allRecords + [record];
    }

    /** `add_to_monthly_bill(customer, package)`: the customer's statement is opened on their first
        monthly charge, and the record goes both to the ledger and to that statement. */
    method AddToMonthlyBill(customerId: string, package: Packages.Package, now: int) returns (record: Record)
      modifies this, if customerId in statements then {statements[customerId]} else {}
      ensures record == Record(customerId, package.trackingNumber, package.billingCost, "Monthly Billing",
                               false, now)
      ensures allRecords == old(allRecords) + [record]
      ensures statements.Keys == old(statements.Keys) + {customerId}
      ensures forall c :: c in old(statements) && c != customerId ==> statements[c] == old(statements[c])
      ensures customerId in old(statements) ==>
                && statements[customerId] == old(statements[customerId])
                && statements[customerId].records == old(statements[customerId].records) + [record]
      ensures customerId !in old(statements) ==>
                && fresh(statements[customerId])
                && statements[customerId].records == [record]
                && statements[customerId].createdDate == now
      ensures old(Valid()) ==> Valid()
    {
      record := Record(customerId, package.trackingNumber, package.billingCost, "Monthly Billing", false, now);
      allRecords := allRecords + [record];
      if customerId !in statements {
        var statement := new MonthlyStatement(customerId, now);
        statements := statements[customerId := statement];
      }
      statements[customerId].AddRecord(record);
    }

    /** `refund(customer, package, amount)`: whatever the sign given, the stored amount is the
        negated magnitude. */
    method Refund(customerId: string, package: Packages.Package, amount: real, now: int) returns (record: Record)
      modifies this`allRecords
      ensures record.amount <= 0.0 && (record.amount == amount || record.amount == -amount)
      ensures record == Record(customerId, package.trackingNumber, record.amount, "Refund", true, now)
      ensures allRecords == old(allRecords) + [record]
    {
      var magnitude := if amount < 0.0 then -amount else amount;
      record := Record(customerId, package.trackingNumber, -magnitude, "Refund", true, now);
      allRecords := allRecords + [record];
    }

    /** `list_customer_records(id)`: that customer's records, in the order they were made. */
    function ListCustomerRecords(customerId: string): (r: seq<Record>)
      reads this
      ensures Seqs.IsSubsequence(r, allRecords)
      ensures forall k :: 0 <= k < |r| ==> r[k].customerId == customerId
      ensures forall k :: 0 <= k < |allRecords| && allRecords[k].customerId == customerId ==> allRecords[k] in r
      ensures forall x :: multiset(r)[x] == if x.customerId == customerId then multiset(allRecords)[x] else 0
    {
      Seqs.FilterMultiplicity(allRecords, OfCustomer(customerId));
      Seqs.FilterIsSubsequence(allRecords, OfCustomer(customerId));
      Seqs.FilterMembers(allRecords, OfCustomer(customerId));
      Seqs.Filter(allRecords, OfCustomer(customerId))
    }

    /** `list_all_records()`: a copy of every record. */
    method ListAllRecords() returns (r: seq<Record>)
      ensures r == allRecords
    {
      r := allRecords;
    }

    /** `get_monthly_statement(id)`: `null` for a customer never billed monthly. */
    function GetMonthlyStatement(customerId: string): (s: MonthlyStatement?)
      reads this
      ensures s == null <==> customerId !in statements
      ensures s != null ==> s == statements[customerId]
    {
      if customerId in statements then statements[customerId] else null
    }
  }
}
