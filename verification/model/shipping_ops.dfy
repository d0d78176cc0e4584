/**
 * What the shipping app does to the tables: `Shipment.save`
 * (shipping/models.py), the nested create of `ShipmentSerializer`
 * (shipping/serializers.py) and the tour guard of `ShipmentViewSet`
 * (shipping/views.py).
 */
module ShippingOps {
  import opened Wrappers
  import opened Roles
  import opened Seqs
  import opened Accounts
  import opened ShippingModels
  import opened Database

  /**
   * `Shipment.save` for a shipment that has its primary key: write the row,
   * recompute the cost from the stored parcels, and write the cost again
   * only when it differs from the one just saved.
   */
  method SaveShipment(db: Store, s: Shipment) returns (costWritten: bool)
    requires db.Valid()
    requires s.destination in db.destinations
    requires s.id < db.nextShipment && (s.invoice.Some? ==> s.invoice.value < db.nextInvoice)
    modifies db
    ensures db.Snapshot() == old(db.Snapshot()).(shipments := db.shipments)
    ensures db.Valid()
    ensures db.shipments == Put(old(db.shipments), ShipmentId(s.id),
      s.(totalCost := CalculateCost(Some(s.id), db.destinations[s.destination], db.parcels)))
    ensures costWritten <==> s.totalCost != CalculateCost(Some(s.id), db.destinations[s.destination], db.parcels)
  {
    db.shipments := Put(db.shipments, ShipmentId(s.id), s);
    var cost := CalculateCost(Some(s.id), db.destinations[s.destination], db.parcels);
    costWritten := s.totalCost != cost;
    if costWritten {
      db.shipments := Put(db.shipments, ShipmentId(s.id), s.(totalCost := cost));
      PutTwice(old(db.shipments), ShipmentId(s.id), s, s.(totalCost := cost));
    }
  }

  /** The validated `client_id`, `origin_id`, `destination_id` and the optional `service_type`. */
  datatype ShipmentInput = ShipmentInput(clientId: nat, originId: nat, destinationId: nat, serviceType: Option<ServiceType>)

  /** `service_type` when given, otherwise the column default STANDARD. */
  function ServiceOf(input: ShipmentInput): ServiceType
  {
    if input.serviceType.Some? then input.serviceType.value else STANDARD
  }

  /** One entry of `parcels`. */
  datatype ParcelInput = ParcelInput(trackingNumber: string, weightKg: real, heightCm: nat, widthCm: nat, lengthCm: nat)

  /**
   * A rejected request: `Invalid` is a validation error (nothing is
   * written); `DuplicateTracking(i)` is the integrity error raised when
   * entry `i` repeats an earlier tracking number of the same request.
   */
  datatype CreateError = Invalid | DuplicateTracking(index: nat)

  /** `client_id` only accepts users whose role is CLIENT. */
  predicate ClientIdAccepted(users: map<nat, User>, id: nat)
  {
    id in users && users[id].role == CLIENT
  }

  function Trackings(parcels: seq<Parcel>): set<string>
  {
    set p | p in parcels :: p.trackingNumber
  }

  function InputTrackings(data: seq<ParcelInput>): set<string>
  {
    set d | d in data :: d.trackingNumber
  }

  /** `tracking_number` is a `CharField(max_length=100)`. */
  const MAX_TRACKING_LENGTH: nat := 100

  /** `weight_kg` has `max_digits=7` and `decimal_places=2`: at most five whole digits. */
  const WEIGHT_LIMIT: real := 100000.0

  /** The largest value a `PositiveIntegerField` accepts. */
  const MAX_POSITIVE_INT: nat := 2147483647

  /**
   * The field checks `ParcelSerializer` derives from the `Parcel` columns:
   * a non-blank tracking number of at most 100 characters, a weight with at
   * most two decimal places and five whole digits, and dimensions within
   * the `PositiveIntegerField` range.
   */
  predicate ParcelFieldsValid(d: ParcelInput)
  {
    d.trackingNumber != "" && |d.trackingNumber| <= MAX_TRACKING_LENGTH &&
    -WEIGHT_LIMIT < d.weightKg < WEIGHT_LIMIT && (d.weightKg * 100.0).Floor as real == d.weightKg * 100.0 &&
    d.heightCm <= MAX_POSITIVE_INT && d.widthCm <= MAX_POSITIVE_INT && d.lengthCm <= MAX_POSITIVE_INT
  }

  /** Concrete entries: two decimal places pass; a third decimal, a blank tracking number or a six-digit weight fail. */
  lemma ParcelChecks()
    ensures ParcelFieldsValid(ParcelInput("TRK-1", 2.25, 10, 10, 10))
    ensures !ParcelFieldsValid(ParcelInput("TRK-1", 2.125, 10, 10, 10))
    ensures !ParcelFieldsValid(ParcelInput("", 2.25, 10, 10, 10))
    ensures !ParcelFieldsValid(ParcelInput("TRK-1", 100000.0, 10, 10, 10))
  {
    assert (2.25 * 100.0).Floor == 225;
    assert (2.125 * 100.0).Floor == 212;
  }

  /**
   * What validation accepts: a CLIENT user, two known destinations, every
   * parcel entry's fields within their columns, and no tracking number that
   * is already stored (`tracking_number` is unique).
   */
  predicate Accepted(t: Tables, input: ShipmentInput, data: seq<ParcelInput>)
  {
    ClientIdAccepted(t.users, input.clientId) &&
    input.originId in t.destinations && input.destinationId in t.destinations &&
    (forall d :: d in data ==> ParcelFieldsValid(d)) &&
    forall d :: d in data ==> d.trackingNumber !in Trackings(t.parcels)
  }

  /** Entry `i` repeats the tracking number of an earlier entry. */
  predicate RepeatedAt(data: seq<ParcelInput>, i: nat)
    requires i < |data|
  {
    exists j :: 0 <= j < i && data[j].trackingNumber == data[i].trackingNumber
  }

  /** No entry before `n` repeats an earlier one. */
  predicate NoRepeatBefore(data: seq<ParcelInput>, n: nat)
    requires n <= |data|
  {
    forall j :: 0 <= j < n ==> !RepeatedAt(data, j)
  }

  lemma NoRepeatStep(data: seq<ParcelInput>, n: nat)
    requires n < |data| && NoRepeatBefore(data, n) && !RepeatedAt(data, n)
    ensures NoRepeatBefore(data, n + 1)
  {
  }

  lemma RepeatedAtTrackings(data: seq<ParcelInput>, i: nat)
    requires i < |data|
    ensures RepeatedAt(data, i) <==> data[i].trackingNumber in InputTrackings(data[..i])
  {
    if data[i].trackingNumber in InputTrackings(data[..i]) {
      var d :| d in data[..i] && d.trackingNumber == data[i].trackingNumber;
      var j :| 0 <= j < i && data[..i][j] == d;
      assert data[j] == d;
    }
    if RepeatedAt(data, i) {
      var j :| 0 <= j < i && data[j].trackingNumber == data[i].trackingNumber;
      assert data[..i][j] == data[j];
    }
  }

  /** The parcel rows created for `data`, with keys from `first` on, all linked to shipment `sid`. */
  function NewParcels(data: seq<ParcelInput>, sid: nat, first: nat): (r: seq<Parcel>)
    ensures |r| == |data|
    ensures forall i :: 0 <= i < |r| ==> r[i].shipment == sid && r[i].id == first + i
    ensures forall i :: 0 <= i < |r| ==> r[i].trackingNumber == data[i].trackingNumber && r[i].weightKg == data[i].weightKg
  {
    seq(|data|, i requires 0 <= i < |data| =>
      Parcel(first + i, sid, data[i].trackingNumber, data[i].weightKg, data[i].heightCm, data[i].widthCm, data[i].lengthCm))
  }

  lemma NewParcelsSnoc(data: seq<ParcelInput>, i: nat, sid: nat, first: nat)
    requires i < |data|
    ensures NewParcels(data[..i + 1], sid, first) ==
      NewParcels(data[..i], sid, first) +
      [Parcel(first + i, sid, data[i].trackingNumber, data[i].weightKg, data[i].heightCm, data[i].widthCm, data[i].lengthCm)]
  {
  }

  lemma TrackingsOfNew(data: seq<ParcelInput>, sid: nat, first: nat)
    ensures Trackings(NewParcels(data, sid, first)) == InputTrackings(data)
  {
    var ps := NewParcels(data, sid, first);
    forall t | t in InputTrackings(data)
      ensures t in Trackings(ps)
    {
      var d :| d in data && d.trackingNumber == t;
      var i :| 0 <= i < |data| && data[i] == d;
      assert ps[i] in ps;
    }
  }

  lemma TrackingsAppend(a: seq<Parcel>, b: seq<Parcel>)
    ensures Trackings(a + b) == Trackings(a) + Trackings(b)
  {
    forall t | t in Trackings(a + b)
      ensures t in Trackings(a) + Trackings(b)
    {
      var p :| p in a + b && p.trackingNumber == t;
    }
  }

  /** The created shipment row: the defaults, with the cost computed by its first save. */
  function CreatedShipment(id: nat, input: ShipmentInput, dest: Destination): (s: Shipment)
    ensures s.totalCost == dest.baseRate && s.status == PENDING && s.tour.None? && s.invoice.None?
    ensures input.serviceType.None? ==> s.serviceType == STANDARD
    ensures input.serviceType.Some? ==> s.serviceType == input.serviceType.value
  {
    NewShipment(id, input.clientId, input.originId, input.destinationId, ServiceOf(input)).(totalCost := dest.baseRate)
  }

  /**
   * `Shipment.objects.create(**validated_data)`: a new row with the field
   * defaults and a fresh key, saved once. It has no parcels yet, so its
   * save prices it at the destination's base rate.
   */
  method InsertShipment(db: Store, input: ShipmentInput) returns (id: nat)
    requires db.Valid()
    requires input.destinationId in db.destinations
    modifies db
    ensures id == old(db.nextShipment)
    ensures db.Snapshot() == old(db.Snapshot()).(shipments := db.shipments, nextShipment := id + 1)
    ensures db.shipments == old(db.shipments) + [CreatedShipment(id, input, db.destinations[input.destinationId])]
    ensures db.Valid()
  {
    id := db.nextShipment;
    db.nextShipment := db.nextShipment + 1;
    forall i | 0 <= i < |db.shipments|
      ensures !ShipmentId(id)(db.shipments[i])
    {
      assert db.shipments[i] in db.shipments;
    }
    forall p | p in db.parcels
      ensures !OfShipment(id)(p)
    {
    }
    FilterNonePass(db.parcels, OfShipment(id));
    var _ := SaveShipment(db, NewShipment(id, input.clientId, input.originId, input.destinationId, ServiceOf(input)));
  }

  /** `Parcel.objects.create(shipment=shipment, **parcel_data)`: one row with the next key. */
  method InsertParcel(db: Store, sid: nat, d: ParcelInput) returns (p: Parcel)
    requires db.Valid()
    requires sid < db.nextShipment
    modifies db
    ensures p == Parcel(old(db.nextParcel), sid, d.trackingNumber, d.weightKg, d.heightCm, d.widthCm, d.lengthCm)
    ensures db.Snapshot() == old(db.Snapshot()).(parcels := old(db.parcels) + [p], nextParcel := old(db.nextParcel) + 1)
    ensures db.parcels == old(db.parcels) + [p]
    ensures db.Valid()
  {
    p := Parcel(db.nextParcel, sid, d.trackingNumber, d.weightKg, d.heightCm, d.widthCm, d.lengthCm);
    db.parcels := db.parcels + [p];
    db.nextParcel := db.nextParcel + 1;
  }

  /** The tracking numbers after one more entry has been stored. */
  lemma TrackingsStep(parcels0: seq<Parcel>, data: seq<ParcelInput>, i: nat, sid: nat, first: nat)
    requires i < |data|
    ensures Trackings(parcels0 + NewParcels(data[..i + 1], sid, first)) ==
            Trackings(parcels0 + NewParcels(data[..i], sid, first)) + {data[i].trackingNumber}
    ensures InputTrackings(data[..i + 1]) == InputTrackings(data[..i]) + {data[i].trackingNumber}
    ensures parcels0 + NewParcels(data[..i + 1], sid, first) ==
            parcels0 + NewParcels(data[..i], sid, first) +
            [Parcel(first + i, sid, data[i].trackingNumber, data[i].weightKg, data[i].heightCm, data[i].widthCm, data[i].lengthCm)]
  {
    var p := Parcel(first + i, sid, data[i].trackingNumber, data[i].weightKg, data[i].heightCm, data[i].widthCm, data[i].lengthCm);
    NewParcelsSnoc(data, i, sid, first);
    var before := parcels0 + NewParcels(data[..i], sid, first);
    assert parcels0 + NewParcels(data[..i + 1], sid, first) == before + [p];
    TrackingsAppend(before, [p]);
    assert Trackings([p]) == {data[i].trackingNumber};
    assert data[..i + 1] == data[..i] + [data[i]];
  }

  /** The tracking numbers stored so far are the earlier ones and those of the entries stored, one entry more. */
  lemma TrackingsKept(parcels0: seq<Parcel>, data: seq<ParcelInput>, i: nat, sid: nat, first: nat)
    requires i < |data|
    requires Trackings(parcels0 + NewParcels(data[..i], sid, first)) == Trackings(parcels0) + InputTrackings(data[..i])
    ensures Trackings(parcels0 + NewParcels(data[..i + 1], sid, first)) == Trackings(parcels0) + InputTrackings(data[..i + 1])
  {
    TrackingsStep(parcels0, data, i, sid, first);
  }

  /** One turn of the loop below: entry `i` is stored, and what the loop keeps holds for `i + 1`. */
  method StoreEntry(db: Store, ghost parcels0: seq<Parcel>, data: seq<ParcelInput>, i: nat, sid: nat, first: nat)
    requires i < |data| && db.Valid() && sid < db.nextShipment
    requires db.nextParcel == first + i
    requires db.parcels == parcels0 + NewParcels(data[..i], sid, first)
    requires Trackings(db.parcels) == Trackings(parcels0) + InputTrackings(data[..i])
    requires NoRepeatBefore(data, i) && !RepeatedAt(data, i)
    modifies db
    ensures db.Valid() && db.nextParcel == first + i + 1
    ensures db.parcels == parcels0 + NewParcels(data[..i + 1], sid, first)
    ensures Trackings(db.parcels) == Trackings(parcels0) + InputTrackings(data[..i + 1])
    ensures NoRepeatBefore(data, i + 1)
    ensures db.Snapshot() == old(db.Snapshot()).(parcels := db.parcels, nextParcel := db.nextParcel)
  {
    NoRepeatStep(data, i);
    TrackingsStep(parcels0, data, i, sid, first);
    TrackingsKept(parcels0, data, i, sid, first);
    ghost var before := db.parcels;
    var p := InsertParcel(db, sid, data[i]);
    assert p == Parcel(first + i, sid, data[i].trackingNumber, data[i].weightKg, data[i].heightCm, data[i].widthCm, data[i].lengthCm);
    assert db.parcels == before + [p];
    assert db.parcels == parcels0 + NewParcels(data[..i], sid, first) + [p];
  }

  /**
   * The loop of `ShipmentSerializer.create`: one `Parcel.objects.create`
   * per entry, linked to shipment `sid`. It stops at the first entry whose
   * tracking number is already stored, which is then a repeat within `data`.
   */
  method CreateParcels(db: Store, sid: nat, data: seq<ParcelInput>) returns (stoppedAt: Option<nat>)
    requires db.Valid()
    requires sid < db.nextShipment
    requires forall d :: d in data ==> d.trackingNumber !in Trackings(db.parcels)
    modifies db
    ensures db.Valid()
    ensures db.Snapshot() == old(db.Snapshot()).(parcels := db.parcels, nextParcel := db.nextParcel)
    ensures stoppedAt.None? <==> forall i :: 0 <= i < |data| ==> !RepeatedAt(data, i)
    ensures stoppedAt.None? ==> db.parcels == old(db.parcels) + NewParcels(data, sid, old(db.nextParcel))
    ensures stoppedAt.Some? ==>
      stoppedAt.value < |data| && RepeatedAt(data, stoppedAt.value) &&
      (forall i :: 0 <= i < stoppedAt.value ==> !RepeatedAt(data, i)) &&
      db.parcels == old(db.parcels) + NewParcels(data[..stoppedAt.value], sid, old(db.nextParcel))
  {
    ghost var parcels0 := db.parcels;
    var first := db.nextParcel;
    var i := 0;
    while i < |data|
      invariant 0 <= i <= |data|
      invariant db.Valid()
      invariant db.nextParcel == first + i
      invariant db.parcels == parcels0 + NewParcels(data[..i], sid, first)
      invariant Trackings(db.parcels) == Trackings(parcels0) + InputTrackings(data[..i])
      invariant NoRepeatBefore(data, i)
      invariant db.Snapshot() == old(db.Snapshot()).(parcels := db.parcels, nextParcel := db.nextParcel)
    {
      RepeatedAtTrackings(data, i);
      if data[i].trackingNumber in Trackings(db.parcels) {
        assert data[i] in data;
        return Some(i);
      }
      StoreEntry(db, parcels0, data, i, sid, first);
      i := i + 1;
    }
    assert data[..|data|] == data;
    return None;
  }

  /**
   * `ShipmentSerializer.create`: validate, create the shipment (priced
   * while it has no parcels), then one parcel per entry. Nothing runs in a
   * transaction, so an integrity error keeps what was already written.
   */
  method CreateShipment(db: Store, input: ShipmentInput, data: seq<ParcelInput>) returns (r: Result<nat, CreateError>)
    requires db.Valid()
    modifies db
    ensures db.Valid()
    ensures !Accepted(old(db.Snapshot()), input, data) ==> r == Err(Invalid) && db.Snapshot() == old(db.Snapshot())
    ensures Accepted(old(db.Snapshot()), input, data) ==>
      r != Err(Invalid) &&
      (r.Ok? <==> forall i :: 0 <= i < |data| ==> !RepeatedAt(data, i)) &&
      db.shipments == old(db.shipments) + [CreatedShipment(old(db.nextShipment), input, old(db.destinations)[input.destinationId])]
    ensures r.Ok? ==>
      r.value == old(db.nextShipment) &&
      db.parcels == old(db.parcels) + NewParcels(data, r.value, old(db.nextParcel))
    ensures r.Err? && r.error.DuplicateTracking? ==>
      r.error.index < |data| && RepeatedAt(data, r.error.index) &&
      (forall i :: 0 <= i < r.error.index ==> !RepeatedAt(data, i)) &&
      db.parcels == old(db.parcels) + NewParcels(data[..r.error.index], old(db.nextShipment), old(db.nextParcel))
    ensures db.users == old(db.users) && db.profiles == old(db.profiles) && db.destinations == old(db.destinations)
    ensures db.invoices == old(db.invoices) && db.payments == old(db.payments)
  {
    if !Accepted(db.Snapshot(), input, data) {
      return Err(Invalid);
    }
    var id := InsertShipment(db, input);
    var stoppedAt := CreateParcels(db, id, data);
    if stoppedAt.Some? {
      return Err(DuplicateTracking(stoppedAt.value));
    }
    return Ok(id);
  }

  /** The parcels of a new shipment are exactly the rows created for it. */
  lemma ParcelsOfNew(parcels0: seq<Parcel>, data: seq<ParcelInput>, sid: nat, first: nat)
    requires forall p :: p in parcels0 ==> p.shipment != sid
    ensures ParcelsOf(parcels0 + NewParcels(data, sid, first), sid) == NewParcels(data, sid, first)
  {
    var created := NewParcels(data, sid, first);
    FilterAppend(parcels0, created, OfShipment(sid));
    FilterNonePass(parcels0, OfShipment(sid));
    FilterAllPass(created, OfShipment(sid));
  }

  /**
   * What `calculate_cost` gives for a shipment just created with `data`:
   * the base rate plus the charges of all its parcels. The row stored by
   * `CreateShipment` holds the base rate alone.
   */
  lemma CreatedCostGap(dest: Destination, parcels0: seq<Parcel>, data: seq<ParcelInput>, sid: nat, first: nat)
    requires forall p :: p in parcels0 ==> p.shipment != sid
    ensures CalculateCost(Some(sid), dest, parcels0 + NewParcels(data, sid, first)) ==
      dest.baseRate + TotalWeight(NewParcels(data, sid, first)) * dest.weightRatePerKg
                    + TotalVolume(NewParcels(data, sid, first)) * dest.volumeRatePerM3
  {
    ParcelsOfNew(parcels0, data, sid, first);
  }

  /**
   * A concrete case: base rate 500, 10 per kg, one 2 kg parcel. The
   * shipment's price is 520, but the created row stores 500.
   */
  lemma CreatedCostCounterexample()
    ensures var dest := Destination("Oran", "DZ", 500.0, 10.0, 0.0);
            var data := [ParcelInput("TRK-1", 2.0, 10, 10, 10)];
            var input := ShipmentInput(7, 3, 4, None);
            CreatedShipment(1, input, dest).totalCost == 500.0 &&
            CalculateCost(Some(1), dest, NewParcels(data, 1, 1)) == 520.0
  {
    var dest := Destination("Oran", "DZ", 500.0, 10.0, 0.0);
    var data := [ParcelInput("TRK-1", 2.0, 10, 10, 10)];
    var created := NewParcels(data, 1, 1);
    CreatedCostGap(dest, [], data, 1, 1);
    assert created == [created[0]];
    assert TotalWeight(created) == 2.0 by {
      assert SumOf(created, WeightOf) == WeightOf(created[0]) + SumOf(created[1..], WeightOf);
    }
  }

  /**
   * `ShipmentSerializer.create` as evidently intended: after the parcels
   * are created the shipment is saved again, so its stored cost is the
   * price of its parcels.
   */
  method CreateShipmentPriced(db: Store, input: ShipmentInput, data: seq<ParcelInput>) returns (r: Result<nat, CreateError>)
    requires db.Valid()
    modifies db
    ensures db.Valid()
    ensures !Accepted(old(db.Snapshot()), input, data) ==> r == Err(Invalid) && db.Snapshot() == old(db.Snapshot())
    ensures r.Ok? ==>
      r.value == old(db.nextShipment) &&
      db.parcels == old(db.parcels) + NewParcels(data, r.value, old(db.nextParcel)) &&
      db.shipments == old(db.shipments) +
        [CreatedShipment(r.value, input, old(db.destinations)[input.destinationId])
          .(totalCost := Cost(old(db.destinations)[input.destinationId], NewParcels(data, r.value, old(db.nextParcel))))]
  {
    ghost var shipments0, parcels0 := db.shipments, db.parcels;
    var first := db.nextParcel;
    r := CreateShipment(db, input, data);
    if r.Ok? {
      var id := r.value;
      var row := CreatedShipment(id, input, db.destinations[input.destinationId]);
      forall p | p in parcels0
        ensures p.shipment != id
      {
      }
      ParcelsOfNew(parcels0, data, id, first);
      forall i | 0 <= i < |shipments0|
        ensures db.shipments[i].id != id
      {
        assert shipments0[i] in shipments0;
      }
      SaveNewestAgain(db, row, NewParcels(data, id, first));
      assert (shipments0 + [row])[..|shipments0|] == shipments0;
    }
  }

  /**
   * Saving the newest shipment row once more, after its parcels exist:
   * its stored cost becomes the price of those parcels.
   */
  method SaveNewestAgain(db: Store, row: Shipment, parcels: seq<Parcel>)
    requires db.Valid()
    requires row.destination in db.destinations && row.id < db.nextShipment
    requires row.invoice.Some? ==> row.invoice.value < db.nextInvoice
    requires |db.shipments| > 0 && db.shipments[|db.shipments| - 1] == row
    requires forall i :: 0 <= i < |db.shipments| - 1 ==> db.shipments[i].id != row.id
    requires ParcelsOf(db.parcels, row.id) == parcels
    modifies db
    ensures db.Valid()
    ensures db.parcels == old(db.parcels) && db.destinations == old(db.destinations)
    ensures db.shipments == old(db.shipments)[..|old(db.shipments)| - 1] +
      [row.(totalCost := Cost(db.destinations[row.destination], parcels))]
  {
    PutLast(db.shipments, ShipmentId(row.id), row.(totalCost := Cost(db.destinations[row.destination], parcels)));
    var _ := SaveShipment(db, row);
  }

  /** The validated fields of an update; `None` leaves a field as it is. */
  datatype ShipmentChanges = ShipmentChanges(client: Option<nat>, origin: Option<nat>, destination: Option<nat>, serviceType: Option<ServiceType>)

  /** The instance after the serializer has set the validated fields. */
  function Applied(s: Shipment, ch: ShipmentChanges): (t: Shipment)
    ensures t.id == s.id && t.tour == s.tour && t.invoice == s.invoice && t.status == s.status && t.totalCost == s.totalCost
    ensures t.destination == (if ch.destination.Some? then ch.destination.value else s.destination)
  {
    Shipment(s.id,
      if ch.client.Some? then ch.client.value else s.client,
      if ch.origin.Some? then ch.origin.value else s.origin,
      if ch.destination.Some? then ch.destination.value else s.destination,
      s.tour, s.invoice,
      if ch.serviceType.Some? then ch.serviceType.value else s.serviceType,
      s.status, s.totalCost)
  }

  /** What validation guarantees of the changes: a CLIENT user and known destinations. */
  predicate ChangesAccepted(t: Tables, ch: ShipmentChanges)
  {
    (ch.client.Some? ==> ClientIdAccepted(t.users, ch.client.value)) &&
    (ch.origin.Some? ==> ch.origin.value in t.destinations) &&
    (ch.destination.Some? ==> ch.destination.value in t.destinations)
  }

  /**
   * `NestedWriteError` is the assertion DRF's default `update` raises when
   * the validated data carries the writable nested `parcels`.
   */
  datatype Outcome = Done | PermissionDenied | NestedWriteError

  /** The stored row with key `id`; `get_object` answers 404 when there is none. */
  function RowOf(shipments: seq<Shipment>, id: nat): Shipment
    requires FindIndex(shipments, ShipmentId(id)) >= 0
  {
    shipments[FindIndex(shipments, ShipmentId(id))]
  }

  /**
   * `ShipmentViewSet.perform_update`: a shipment already on a tour is
   * refused and nothing changes. Otherwise the serializer's default
   * `update` runs: it refuses validated data that carries `parcels`
   * (`withParcels`: every PUT, and a PATCH that sends them) before writing
   * anything, and else saves the changed instance, which recomputes its cost.
   */
  method PerformUpdate(db: Store, id: nat, changes: ShipmentChanges, withParcels: bool) returns (outcome: Outcome)
    requires db.Valid()
    requires FindIndex(db.shipments, ShipmentId(id)) >= 0
    requires ChangesAccepted(db.Snapshot(), changes)
    requires RowOf(db.shipments, id).destination in db.destinations
    modifies db
    ensures db.Valid()
    ensures RowOf(old(db.shipments), id).tour.Some? ==>
      outcome == PermissionDenied && db.Snapshot() == old(db.Snapshot())
    ensures RowOf(old(db.shipments), id).tour.None? && withParcels ==>
      outcome == NestedWriteError && db.Snapshot() == old(db.Snapshot())
    ensures RowOf(old(db.shipments), id).tour.None? && !withParcels ==>
      outcome == Done &&
      db.Snapshot() == old(db.Snapshot()).(shipments := db.shipments) &&
      db.shipments == Put(old(db.shipments), ShipmentId(id),
        Applied(RowOf(old(db.shipments), id), changes)
          .(totalCost := CalculateCost(Some(id), db.destinations[Applied(RowOf(old(db.shipments), id), changes).destination], db.parcels)))
  {
    var shipment := RowOf(db.shipments, id);
    if shipment.tour.Some? {
      return PermissionDenied;
    }
    if withParcels {
      return NestedWriteError;
    }
    assert shipment in db.shipments;
    var _ := SaveShipment(db, Applied(shipment, changes));
    return Done;
  }

  function OtherShipment(id: nat): Shipment -> bool
  {
    (s: Shipment) => s.id != id
  }

  function OfOtherShipment(sid: nat): Parcel -> bool
  {
    (p: Parcel) => p.shipment != sid
  }

  /**
   * `ShipmentViewSet.perform_destroy`: a shipment already on a tour is
   * refused and nothing changes; otherwise its row goes, and its parcels
   * with it (`on_delete=CASCADE`).
   */
  method PerformDestroy(db: Store, id: nat) returns (outcome: Outcome)
    requires db.Valid()
    requires FindIndex(db.shipments, ShipmentId(id)) >= 0
    modifies db
    ensures db.Valid()
    ensures RowOf(old(db.shipments), id).tour.Some? ==>
      outcome == PermissionDenied && db.Snapshot() == old(db.Snapshot())
    ensures RowOf(old(db.shipments), id).tour.None? ==>
      outcome == Done &&
      db.shipments == Filter(old(db.shipments), OtherShipment(id)) &&
      db.parcels == Filter(old(db.parcels), OfOtherShipment(id)) &&
      db.Snapshot() == old(db.Snapshot()).(shipments := db.shipments, parcels := db.parcels)
  {
    var shipment := RowOf(db.shipments, id);
    if shipment.tour.Some? {
      return PermissionDenied;
    }
    db.parcels := Filter(db.parcels, OfOtherShipment(id));
    db.shipments := Filter(db.shipments, OtherShipment(id));
    return Done;
  }

  /** After a destroy that went ahead, no shipment has that key and no parcel points to it; every other row stays. */
  lemma DestroyedLeavesNoTrace(shipments: seq<Shipment>, parcels: seq<Parcel>, id: nat, s: Shipment, p: Parcel)
    ensures s in Filter(shipments, OtherShipment(id)) <==> s in shipments && s.id != id
    ensures p in Filter(parcels, OfOtherShipment(id)) <==> p in parcels && p.shipment != id
  {
    FilterKeepsExactly(shipments, OtherShipment(id), s);
    FilterKeepsExactly(parcels, OfOtherShipment(id), p);
  }
}
