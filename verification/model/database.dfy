/**
 * The server's tables as one mutable store. Tables that the code scans or
 * sums (shipments, parcels, invoices, payments) are sequences of rows in
 * primary-key order; tables it only looks up (users, client profiles keyed
 * by their user, destinations) are maps. Each table draws fresh primary
 * keys from its own counter, as the database's sequences do.
 */
module Database {
  import opened Wrappers
  import opened Accounts
  import opened ShippingModels
  import opened FinanceModels

  /** A snapshot of every table and counter, to say what an operation leaves alone. */
  datatype Tables = Tables(
    users: map<nat, User>, profiles: map<nat, ClientProfile>, destinations: map<nat, Destination>,
    shipments: seq<Shipment>, parcels: seq<Parcel>, invoices: seq<Invoice>, payments: seq<Payment>,
    nextUser: nat, nextShipment: nat, nextParcel: nat, nextInvoice: nat, nextPayment: nat)

  class Store {
    var users: map<nat, User>
    var profiles: map<nat, ClientProfile>
    var destinations: map<nat, Destination>
    var shipments: seq<Shipment>
    var parcels: seq<Parcel>
    var invoices: seq<Invoice>
    var payments: seq<Payment>
    var nextUser: nat
    var nextShipment: nat
    var nextParcel: nat
    var nextInvoice: nat
    var nextPayment: nat

    /**
     * Every key is below its counter, every profile belongs to a user, and
     * every foreign key to a shipment or an invoice was issued by that
     * table's counter, so a fresh key is not referred to yet.
     */
    ghost predicate Valid()
      reads this
    {
      (forall k :: k in users ==> k < nextUser) &&
      (forall k :: k in profiles ==> k in users) &&
      (forall s :: s in shipments ==> s.id < nextShipment && (s.invoice.Some? ==> s.invoice.value < nextInvoice)) &&
      (forall p :: p in parcels ==> p.id < nextParcel && p.shipment < nextShipment) &&
      (forall inv :: inv in invoices ==> inv.id < nextInvoice) &&
      (forall p :: p in payments ==> p.id < nextPayment && p.invoice < nextInvoice)
    }

    function Snapshot(): Tables
      reads this
    {
      Tables(users, profiles, destinations, shipments, parcels, invoices, payments,
             nextUser, nextShipment, nextParcel, nextInvoice, nextPayment)
    }

    /** An empty database with the given destinations. */
    constructor(destinations: map<nat, Destination>)
      ensures this.destinations == destinations
      ensures users == map[] && profiles == map[]
      ensures shipments == [] && parcels == [] && invoices == [] && payments == []
      ensures Valid()
    {
      this.destinations := destinations;
      users, profiles := map[], map[];
      shipments, parcels, invoices, payments := [], [], [], [];
      nextUser, nextShipment, nextParcel, nextInvoice, nextPayment := 1, 1, 1, 1, 1;
    }
  }

  /** Picks out the row with primary key `id`. */
  function ShipmentId(id: nat): Shipment -> bool
  {
    (s: Shipment) => s.id == id
  }

  function InvoiceId(id: nat): Invoice -> bool
  {
    (inv: Invoice) => inv.id == id
  }

  function PaymentId(id: nat): Payment -> bool
  {
    (p: Payment) => p.id == id
  }
}
