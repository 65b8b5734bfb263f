/** Customers: their details, their type (which decides how a package is paid for) and the payment
    records made for them. */
module Customers {
  import Billing
  import Packages

  /** `Customer`. */
  class Customer {
    const customerId: string
    const name: string
    const address: string
    const phone: string
    const email: string
    const customerType: string
    const billingPreference: string
    var paymentRecords: seq<Billing.Record>

    /** Registers the new customer in `registry`, replacing any customer with the same id. */
    constructor (customerId: string, name: string, address: string, phone: string, email: string,
                 customerType: string, billingPreference: string, registry: CustomerRegistry)
      modifies registry
      ensures this.customerId == customerId && this.name == name && this.address == address
      ensures this.phone == phone && this.email == email
      ensures this.customerType == customerType && this.billingPreference == billingPreference
      ensures paymentRecords == []
      ensures registry.table == old(registry.table)[customerId := this]
    {
      this.customerId := customerId;
      this.name := name;
      this.address := address;
      this.phone := phone;
      this.email := email;
      this.customerType := customerType;
      this.billingPreference := billingPreference;
      paymentRecords := [];
      new;
      registry.table := registry.table[customerId := this];
    }

    /** `ContractCustomer(...)`: a customer of type "Contract" billed monthly. */
    constructor Contract(customerId: string, name: string, address: string, phone: string, email: string,
                         registry: CustomerRegistry)
      modifies registry
      ensures this.customerId == customerId && this.name == name && this.address == address
      ensures this.phone == phone && this.email == email
      ensures customerType == "Contract" && billingPreference == "Monthly"
      ensures IsContract() && !IsPrepaid()
      ensures paymentRecords == []
      ensures registry.table == old(registry.table)[customerId := this]
    {
      this.customerId := customerId;
      this.name := name;
      this.address := address;
      this.phone := phone;
      this.email := email;
      customerType := "Contract";
      billingPreference := "Monthly";
      paymentRecords := [];
      new;
      registry.table := registry.table[customerId := this];
    }

    /** `is_prepaid()`. */
    predicate IsPrepaid()
    {
      customerType == "Prepaid"
    }

    /** `is_contract()`. */
    predicate IsContract()
    {
      customerType == "Contract"
    }

    /** `pay_for_package(package)`: a prepaid customer is recorded at no charge, a contract customer
        goes on the monthly bill, anyone else pays now. The record is kept with the customer too. */
    method PayForPackage(package: Packages.Package, billing: Billing.BillingSystem, now: int)
      returns (record: Billing.Record)
      modifies this`paymentRecords, billing,
               if customerId in billing.statements then {billing.statements[customerId]} else {}
      ensures record.customerId == customerId && record.trackingNumber == package.trackingNumber
      ensures !record.isRefund && record.timestamp == now
      ensures IsPrepaid() ==> record.amount == 0.0 && record.payMethod == "Prepaid"
      ensures IsContract() ==> record.amount == package.billingCost && record.payMethod == "Monthly Billing"
      ensures !IsPrepaid() && !IsContract() ==>
                record.amount == package.billingCost && record.payMethod == "Immediate Payment"
      ensures paymentRecords == old(paymentRecords) + [record]
      ensures billing.allRecords == old(billing.allRecords) + [record]
      // only a contract customer's payment touches the monthly statements
      ensures !IsContract() ==> billing.statements == old(billing.statements)
      ensures IsContract() ==>
                && billing.statements.Keys == old(billing.statements.Keys) + {customerId}
                && billing.statements[customerId].records ==
                     (if customerId in old(billing.statements) then old(billing.statements[customerId].records)
                      else []) + [record]
      ensures IsContract() && customerId !in old(billing.statements) ==>
                && fresh(billing.statements[customerId])
                && billing.statements[customerId].createdDate == now
      ensures forall c :: c in old(billing.statements) && c != customerId ==>
                billing.statements[c] == old(billing.statements[c])
      ensures old(billing.Valid()) ==> billing.Valid()
    {
      if IsPrepaid() {
        record := billing.Prepaid(customerId, package, now);
      } else if IsContract() {
        record := billing.AddToMonthlyBill(customerId, package, now);
      } else {
        record := billing.PayNow(customerId, package, now);
      }
      paymentRecords := paymentRecords + [record];
    }

    /** `list_payments()`: every record made for this customer, in order (empty when there is
        none). */
    function ListPayments(): (r: seq<Billing.Record>)
      reads this
      ensures r == paymentRecords
    {
      paymentRecords
    }
  }

  /** `Customer.all_customers`. */
  class CustomerRegistry {
    var table: map<string, Customer>

    constructor ()
      ensures table == map[]
    {
      table := map[];
    }
  }
}
