/**
 * Shipments and parcels (shipping/models.py) and the pricing rule
 * `Shipment.calculate_cost`. Destinations (logistics/models.py) carry the
 * three rates. Decimal amounts are exact reals.
 */
module ShippingModels {
  import opened Wrappers
  import opened Seqs

  datatype Destination = Destination(city: string, country: string, baseRate: real, weightRatePerKg: real, volumeRatePerM3: real)

  datatype ServiceType = STANDARD | EXPRESS

  datatype ShipmentStatus = PENDING | IN_TRANSIT | DELIVERED | CANCELLED

  /** A shipment row; the foreign keys are primary keys of the other tables. */
  datatype Shipment = Shipment(
    id: nat, client: nat, origin: nat, destination: nat,
    tour: Option<nat>, invoice: Option<nat>,
    serviceType: ServiceType, status: ShipmentStatus, totalCost: real)

  /** A parcel row. The dimensions are `PositiveIntegerField`s, which admit 0 and up. */
  datatype Parcel = Parcel(id: nat, shipment: nat, trackingNumber: string, weightKg: real, heightCm: nat, widthCm: nat, lengthCm: nat)

  /** The field defaults: status PENDING, service STANDARD, cost 0, no tour and no invoice. */
  function NewShipment(id: nat, client: nat, origin: nat, destination: nat, serviceType: ServiceType): (s: Shipment)
    ensures s.id == id && s.client == client && s.origin == origin && s.destination == destination
    ensures s.status == PENDING && s.totalCost == 0.0 && s.tour.None? && s.invoice.None?
  {
    Shipment(id, client, origin, destination, None, None, serviceType, PENDING, 0.0)
  }

  function WeightOf(p: Parcel): real
  {
    p.weightKg
  }

  /** `length_cm * width_cm * height_cm / 1000000.0`: the volume in cubic metres. */
  function VolumeOf(p: Parcel): (v: real)
    ensures v >= 0.0
  {
    (p.lengthCm * p.widthCm * p.heightCm) as real / 1000000.0
  }

  /** `Sum('weight_kg') or 0`. */
  function TotalWeight(parcels: seq<Parcel>): real
  {
    SumOf(parcels, WeightOf)
  }

  /** `Sum(length_cm * width_cm * height_cm / 1000000.0) or 0`. */
  function TotalVolume(parcels: seq<Parcel>): (v: real)
    ensures v >= 0.0
  {
    SumOfNonNegative(parcels, VolumeOf);
    SumOf(parcels, VolumeOf)
  }

  /** The price of a saved shipment sent to `dest` with these parcels. */
  function Cost(dest: Destination, parcels: seq<Parcel>): real
  {
    dest.baseRate + TotalWeight(parcels) * dest.weightRatePerKg + TotalVolume(parcels) * dest.volumeRatePerM3
  }

  /** The parcels of shipment `sid`: the `self.parcels` related set. */
  function OfShipment(sid: nat): Parcel -> bool
  {
    (p: Parcel) => p.shipment == sid
  }

  function ParcelsOf(parcels: seq<Parcel>, sid: nat): (r: seq<Parcel>)
    ensures forall p :: p in r <==> p in parcels && p.shipment == sid
  {
    forall p
      ensures p in Filter(parcels, OfShipment(sid)) <==> p in parcels && p.shipment == sid
    {
      FilterKeepsExactly(parcels, OfShipment(sid), p);
    }
    Filter(parcels, OfShipment(sid))
  }

  /**
   * `calculate_cost`: 0 for a shipment not yet saved (no primary key),
   * otherwise the destination's base rate plus the weight and volume charges
   * of its parcels.
   */
  function CalculateCost(pk: Option<nat>, dest: Destination, parcels: seq<Parcel>): (cost: real)
    ensures pk.None? ==> cost == 0.0
    ensures pk.Some? ==> cost == Cost(dest, ParcelsOf(parcels, pk.value))
  {
    if pk.None? then 0.0 else Cost(dest, ParcelsOf(parcels, pk.value))
  }

  /** With no parcels both sums default to 0 and the cost is the base rate. */
  lemma NoParcelsBaseRate(dest: Destination)
    ensures Cost(dest, []) == dest.baseRate
  {
  }

  /** Each parcel adds its weight charge and its volume charge. */
  lemma {:induction false} CostAddParcel(dest: Destination, parcels: seq<Parcel>, p: Parcel)
    ensures Cost(dest, parcels + [p]) ==
      Cost(dest, parcels) + p.weightKg * dest.weightRatePerKg + VolumeOf(p) * dest.volumeRatePerM3
  {
    SumOfAppend(parcels, [p], WeightOf);
    SumOfAppend(parcels, [p], VolumeOf);
    assert SumOf([p], WeightOf) == p.weightKg;
    assert SumOf([p], VolumeOf) == VolumeOf(p);
    var w, v := TotalWeight(parcels), TotalVolume(parcels);
    assert (w + p.weightKg) * dest.weightRatePerKg == w * dest.weightRatePerKg + p.weightKg * dest.weightRatePerKg;
    assert (v + VolumeOf(p)) * dest.volumeRatePerM3 == v * dest.volumeRatePerM3 + VolumeOf(p) * dest.volumeRatePerM3;
  }

  /**
   * With non-negative rates, a parcel of non-negative weight never lowers
   * the cost (its volume is never negative).
   */
  lemma AddParcelNeverCheaper(dest: Destination, parcels: seq<Parcel>, p: Parcel)
    requires dest.weightRatePerKg >= 0.0 && dest.volumeRatePerM3 >= 0.0
    requires p.weightKg >= 0.0
    ensures Cost(dest, parcels + [p]) >= Cost(dest, parcels)
  {
    CostAddParcel(dest, parcels, p);
    assert VolumeOf(p) * dest.volumeRatePerM3 >= 0.0;
    assert p.weightKg * dest.weightRatePerKg >= 0.0;
  }

  /** The cost does not depend on the order in which the parcels are listed. */
  lemma CostIgnoresOrder(dest: Destination, a: seq<Parcel>, b: seq<Parcel>)
    requires multiset(a) == multiset(b)
    ensures Cost(dest, a) == Cost(dest, b)
  {
    SumOfPermutation(a, b, WeightOf);
    SumOfPermutation(a, b, VolumeOf);
  }

  /**
   * The cost of a saved shipment reads only its destination's rates and its
   * parcels: origin, service type, status, tour and invoice play no part.
   */
  lemma CostIgnoresOtherFields(s: Shipment, t: Shipment, destinations: map<nat, Destination>, parcels: seq<Parcel>)
    requires s.id == t.id && s.destination == t.destination && s.destination in destinations
    ensures CalculateCost(Some(s.id), destinations[s.destination], parcels) ==
            CalculateCost(Some(t.id), destinations[t.destination], parcels)
  {
  }
}
