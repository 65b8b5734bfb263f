/** Service tiers: a rate card (base rate, rate per kilogram, fees for special services) and the two
    built-in tiers. */
module Service {
  import opened Common

  datatype ServiceType = ServiceType(
    serviceId: string,
    name: string,
    speed: string,
    baseRate: real,
    weightRate: real,
    specialFees: map<string, real>)

  /** `ServiceType(service_id, name, speed, base_rate, weight_rate, special_fees=None)`. */
  function NewServiceType(serviceId: string, name: string, speed: string, baseRate: real, weightRate: real,
                          specialFees: Option<map<string, real>>): (t: ServiceType)
    ensures t.serviceId == serviceId && t.name == name && t.speed == speed
    ensures t.baseRate == baseRate && t.weightRate == weightRate
    ensures specialFees.None? ==> t.specialFees == map[]
    ensures specialFees.Some? ==> t.specialFees == specialFees.value
  {
    ServiceType(serviceId, name, speed, baseRate, weightRate,
                if specialFees.Some? then specialFees.value else map[])
  }

  const StandardService: ServiceType :=
    NewServiceType("STD", "標準速遞", "Standard", 50.0, 15.0, Some(map["Oversize" := 100.0, "Fragile" := 20.0]))

  const ExpressOvernight: ServiceType :=
    NewServiceType("OVN", "隔夜達", "Overnight", 150.0, 25.0, Some(map["Dangerous" := 200.0, "Fragile" := 75.0]))

  lemma BuiltInTiers()
    ensures StandardService.baseRate == 50.0 && StandardService.weightRate == 15.0
    ensures StandardService.specialFees == map["Oversize" := 100.0, "Fragile" := 20.0]
    ensures ExpressOvernight.baseRate == 150.0 && ExpressOvernight.weightRate == 25.0
    ensures ExpressOvernight.specialFees == map["Dangerous" := 200.0, "Fragile" := 75.0]
  {
  }
}
