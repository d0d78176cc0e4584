/**
 * The client ledger: `Payment.save` and `Invoice.delete` (finance/models.py)
 * and `InvoiceSerializer.create` (finance/serializers.py). The client's
 * `balance` is what it owes: an invoice raises it, a payment lowers it.
 */
module FinanceOps {
  import opened Wrappers
  import opened Roles
  import opened Seqs
  import opened Accounts
  import opened ShippingModels
  import opened FinanceModels
  import opened Database

  /**
   * What the ledger operations raise: `Invalid` is a validation error,
   * `ProfileMissing` the `DoesNotExist` of `ClientProfile.objects.get`,
   * `Protected` the `ProtectedError` of deleting an invoice that has payments.
   */
  datatype LedgerError = Invalid | ProfileMissing | Protected

  /** The stored invoice with key `iid`. */
  function InvoiceRow(invoices: seq<Invoice>, iid: nat): Invoice
    requires FindIndex(invoices, InvoiceId(iid)) >= 0
  {
    invoices[FindIndex(invoices, InvoiceId(iid))]
  }

  /** The profile with its balance moved by `delta`. */
  function Charged(p: ClientProfile, delta: real): (q: ClientProfile)
    ensures q.balance - p.balance == delta
    ensures q.companyName == p.companyName && q.address == p.address && q.phoneNumber == p.phoneNumber
  {
    p.(balance := p.balance + delta)
  }

  /** `client_profile.balance += amount; client_profile.save()`. */
  method ChargeClient(db: Store, client: nat, amount: real)
    requires db.Valid()
    requires client in db.profiles
    modifies db
    ensures db.Valid()
    ensures db.Snapshot() == old(db.Snapshot()).(profiles := db.profiles)
    ensures db.profiles == old(db.profiles)[client := Charged(old(db.profiles)[client], amount)]
  {
    db.profiles := db.profiles[client := Charged(db.profiles[client], amount)];
  }

  /** `super().save()` of a payment: the row is written under its key. */
  method PutPayment(db: Store, p: Payment)
    requires db.Valid()
    requires p.id < db.nextPayment && p.invoice < db.nextInvoice
    modifies db
    ensures db.Valid()
    ensures db.Snapshot() == old(db.Snapshot()).(payments := Put(old(db.payments), PaymentId(p.id), p))
  {
    db.payments := Put(db.payments, PaymentId(p.id), p);
  }

  /**
   * `Payment.save`: write the row, then look up the profile of the
   * invoice's client and lower its balance by `amount`, on every save.
   * When the profile is missing the row is already written.
   */
  method SavePayment(db: Store, p: Payment) returns (r: Result<(), LedgerError>)
    requires db.Valid()
    requires p.id < db.nextPayment
    requires FindIndex(db.invoices, InvoiceId(p.invoice)) >= 0
    modifies db
    ensures db.Valid()
    ensures db.payments == Put(old(db.payments), PaymentId(p.id), p)
    ensures var client := InvoiceRow(old(db.invoices), p.invoice).client;
      client !in old(db.profiles) ==>
        r == Err(ProfileMissing) && db.Snapshot() == old(db.Snapshot()).(payments := db.payments)
    ensures var client := InvoiceRow(old(db.invoices), p.invoice).client;
      client in old(db.profiles) ==>
        r == Ok(()) && db.Snapshot() == old(db.Snapshot()).(payments := db.payments, profiles := db.profiles)
    ensures var client := InvoiceRow(old(db.invoices), p.invoice).client;
      client in old(db.profiles) ==>
        db.profiles == old(db.profiles)[client := Charged(old(db.profiles)[client], -p.amount)]
  {
    var inv := InvoiceRow(db.invoices, p.invoice);
    assert inv in db.invoices;
    PutPayment(db, p);
    assert db.profiles == old(db.profiles) && db.payments == Put(old(db.payments), PaymentId(p.id), p);
    if inv.client !in db.profiles {
      return Err(ProfileMissing);
    }
    ChargeClient(db, inv.client, -p.amount);
    return Ok(());
  }

  /**
   * Saving the same payment twice, as an update that changes nothing does:
   * the table holds it once, yet the balance has dropped by twice its amount.
   */
  method SavePaymentTwice(db: Store, p: Payment) returns (r: Result<(), LedgerError>)
    requires db.Valid()
    requires p.id < db.nextPayment
    requires FindIndex(db.invoices, InvoiceId(p.invoice)) >= 0
    requires InvoiceRow(db.invoices, p.invoice).client in db.profiles
    modifies db
    ensures r == Ok(())
    ensures db.payments == Put(old(db.payments), PaymentId(p.id), p)
    ensures var client := InvoiceRow(old(db.invoices), p.invoice).client;
      client in db.profiles && db.profiles[client].balance == old(db.profiles)[client].balance - 2.0 * p.amount
  {
    ghost var client := InvoiceRow(db.invoices, p.invoice).client;
    var _ := SavePayment(db, p);
    r := SavePayment(db, p);
    PutTwice(old(db.payments), PaymentId(p.id), p, p);
  }

  /** The amount of the stored payment with key `id`, or 0 for a new one. */
  function StoredAmount(payments: seq<Payment>, id: nat): real
  {
    var k := FindIndex(payments, PaymentId(id));
    if k < 0 then 0.0 else payments[k].amount
  }

  /**
   * `Payment.save` as intended: the balance moves by the change in the
   * payment's amount, which is the whole amount for a new payment and
   * nothing for a re-save.
   */
  method SavePaymentOnce(db: Store, p: Payment) returns (r: Result<(), LedgerError>)
    requires db.Valid()
    requires p.id < db.nextPayment
    requires FindIndex(db.invoices, InvoiceId(p.invoice)) >= 0
    modifies db
    ensures db.Valid()
    ensures db.payments == Put(old(db.payments), PaymentId(p.id), p)
    ensures StoredAmount(db.payments, p.id) == p.amount
    ensures var client := InvoiceRow(old(db.invoices), p.invoice).client;
      client !in old(db.profiles) ==>
        r == Err(ProfileMissing) && db.Snapshot() == old(db.Snapshot()).(payments := db.payments)
    ensures var client := InvoiceRow(old(db.invoices), p.invoice).client;
      client in old(db.profiles) ==>
        r == Ok(()) && db.Snapshot() == old(db.Snapshot()).(payments := db.payments, profiles := db.profiles)
    ensures var client := InvoiceRow(old(db.invoices), p.invoice).client;
      client in old(db.profiles) ==>
        db.profiles == old(db.profiles)[client := Charged(old(db.profiles)[client], StoredAmount(old(db.payments), p.id) - p.amount)]
  {
    var inv := InvoiceRow(db.invoices, p.invoice);
    assert inv in db.invoices;
    var previous := StoredAmount(db.payments, p.id);
    PutStored(db.payments, p);
    PutPayment(db, p);
    assert db.profiles == old(db.profiles) && db.payments == Put(old(db.payments), PaymentId(p.id), p);
    if inv.client !in db.profiles {
      return Err(ProfileMissing);
    }
    ChargeClient(db, inv.client, previous - p.amount);
    return Ok(());
  }

  /** After a save, the stored amount under the payment's key is the saved one. */
  lemma PutStored(payments: seq<Payment>, p: Payment)
    ensures StoredAmount(Put(payments, PaymentId(p.id), p), p.id) == p.amount
  {
    PutFinds(payments, PaymentId(p.id), p);
  }

  /** With the intended save, saving a payment twice moves the balance once. */
  method SavePaymentOnceTwice(db: Store, p: Payment) returns (r: Result<(), LedgerError>)
    requires db.Valid()
    requires p.id < db.nextPayment
    requires FindIndex(db.invoices, InvoiceId(p.invoice)) >= 0
    requires InvoiceRow(db.invoices, p.invoice).client in db.profiles
    modifies db
    ensures r == Ok(())
    ensures db.payments == Put(old(db.payments), PaymentId(p.id), p)
    ensures var client := InvoiceRow(old(db.invoices), p.invoice).client;
      client in db.profiles && db.profiles[client].balance == old(db.profiles)[client].balance + StoredAmount(old(db.payments), p.id) - p.amount
  {
    var _ := SavePaymentOnce(db, p);
    r := SavePaymentOnce(db, p);
    PutTwice(old(db.payments), PaymentId(p.id), p, p);
  }

  predicate HasPayments(payments: seq<Payment>, iid: nat)
  {
    exists p :: p in payments && p.invoice == iid
  }

  function OtherInvoice(iid: nat): Invoice -> bool
  {
    (inv: Invoice) => inv.id != iid
  }

  /** `on_delete=SET_NULL`: the shipments of a deleted invoice lose their link and stay. */
  function Unlinked(shipments: seq<Shipment>, iid: nat): (r: seq<Shipment>)
    ensures |r| == |shipments|
  {
    seq(|shipments|, i requires 0 <= i < |shipments| =>
      if shipments[i].invoice == Some(iid) then shipments[i].(invoice := None) else shipments[i])
  }

  /** After unlinking, the deleted invoice amounts to nothing and every other invoice keeps its amount. */
  lemma {:induction false} UnlinkedAmounts(shipments: seq<Shipment>, iid: nat, other: nat)
    requires other != iid
    ensures MontantHt(Unlinked(shipments, iid), iid) == 0.0
    ensures MontantHt(Unlinked(shipments, iid), other) == MontantHt(shipments, other)
  {
    if shipments != [] {
      UnlinkedAmounts(shipments[1..], iid, other);
      assert Unlinked(shipments, iid)[1..] == Unlinked(shipments[1..], iid);
    }
  }

  /**
   * `Invoice.delete`: find the client's profile, lower its balance by the
   * invoice's `montant_ttc` and save it, then delete. The delete is refused
   * when payments refer to the invoice (`on_delete=PROTECT`), but the
   * balance has already been saved.
   */
  method DeleteInvoice(db: Store, iid: nat) returns (r: Result<(), LedgerError>)
    requires db.Valid()
    requires FindIndex(db.invoices, InvoiceId(iid)) >= 0
    modifies db
    ensures db.Valid()
    ensures var client := InvoiceRow(old(db.invoices), iid).client;
      client !in old(db.profiles) ==> r == Err(ProfileMissing) && db.Snapshot() == old(db.Snapshot())
    ensures var client := InvoiceRow(old(db.invoices), iid).client;
      client in old(db.profiles) ==>
        db.profiles == old(db.profiles)[client := Charged(old(db.profiles)[client], -MontantTtc(old(db.shipments), iid))]
    ensures var client := InvoiceRow(old(db.invoices), iid).client;
      client in old(db.profiles) && HasPayments(old(db.payments), iid) ==>
        r == Err(Protected) && db.Snapshot() == old(db.Snapshot()).(profiles := db.profiles)
    ensures var client := InvoiceRow(old(db.invoices), iid).client;
      client in old(db.profiles) && !HasPayments(old(db.payments), iid) ==>
        r == Ok(()) &&
        db.invoices == Filter(old(db.invoices), OtherInvoice(iid)) &&
        db.shipments == Unlinked(old(db.shipments), iid) &&
        db.Snapshot() == old(db.Snapshot()).(profiles := db.profiles, invoices := db.invoices, shipments := db.shipments)
  {
    var client := InvoiceRow(db.invoices, iid).client;
    if client !in db.profiles {
      return Err(ProfileMissing);
    }
    ChargeClient(db, client, -MontantTtc(db.shipments, iid));
    if exists p :: p in db.payments && p.invoice == iid {
      return Err(Protected);
    }
    RemoveInvoice(db, iid);
    return Ok(());
  }

  /** `super().delete()`: the row goes and its shipments are unlinked. */
  method RemoveInvoice(db: Store, iid: nat)
    requires db.Valid()
    modifies db
    ensures db.Valid()
    ensures db.Snapshot() == old(db.Snapshot()).(invoices := Filter(old(db.invoices), OtherInvoice(iid)),
                                                  shipments := Unlinked(old(db.shipments), iid))
  {
    UnlinkedKeepsValid(db.shipments, iid, db.nextShipment, db.nextInvoice);
    db.shipments := Unlinked(db.shipments, iid);
    db.invoices := Filter(db.invoices, OtherInvoice(iid));
  }

  lemma UnlinkedKeepsValid(shipments: seq<Shipment>, iid: nat, nextShipment: nat, nextInvoice: nat)
    requires forall s :: s in shipments ==> s.id < nextShipment && (s.invoice.Some? ==> s.invoice.value < nextInvoice)
    ensures forall s :: s in Unlinked(shipments, iid) ==> s.id < nextShipment && (s.invoice.Some? ==> s.invoice.value < nextInvoice)
  {
    forall s | s in Unlinked(shipments, iid)
      ensures s.id < nextShipment && (s.invoice.Some? ==> s.invoice.value < nextInvoice)
    {
      var i :| 0 <= i < |shipments| && Unlinked(shipments, iid)[i] == s;
      assert shipments[i] in shipments;
    }
  }

  /**
   * A refused delete, retried: the invoice is still there, and the client's
   * balance has been lowered by its amount twice.
   */
  method DeleteInvoiceRetried(db: Store, iid: nat) returns (r: Result<(), LedgerError>)
    requires db.Valid()
    requires FindIndex(db.invoices, InvoiceId(iid)) >= 0
    requires InvoiceRow(db.invoices, iid).client in db.profiles
    requires HasPayments(db.payments, iid)
    modifies db
    ensures r == Err(Protected)
    ensures db.invoices == old(db.invoices)
    ensures var client := InvoiceRow(old(db.invoices), iid).client;
      client in db.profiles && db.profiles[client].balance == old(db.profiles)[client].balance - 2.0 * MontantTtc(old(db.shipments), iid)
  {
    var _ := DeleteInvoice(db, iid);
    r := DeleteInvoice(db, iid);
  }

  /** `Invoice.delete` as intended: a protected invoice is refused before the balance is touched. */
  method DeleteInvoiceChecked(db: Store, iid: nat) returns (r: Result<(), LedgerError>)
    requires db.Valid()
    requires FindIndex(db.invoices, InvoiceId(iid)) >= 0
    modifies db
    ensures db.Valid()
    ensures r.Err? ==> db.Snapshot() == old(db.Snapshot())
    ensures HasPayments(old(db.payments), iid) ==> r == Err(Protected)
    ensures var client := InvoiceRow(old(db.invoices), iid).client;
      client !in old(db.profiles) ==> r.Err?
    ensures var client := InvoiceRow(old(db.invoices), iid).client;
      client in old(db.profiles) && !HasPayments(old(db.payments), iid) ==>
        r == Ok(()) &&
        db.profiles == old(db.profiles)[client := Charged(old(db.profiles)[client], -MontantTtc(old(db.shipments), iid))] &&
        db.invoices == Filter(old(db.invoices), OtherInvoice(iid)) &&
        db.shipments == Unlinked(old(db.shipments), iid) &&
        db.Snapshot() == old(db.Snapshot()).(profiles := db.profiles, invoices := db.invoices, shipments := db.shipments)
  {
    if exists p :: p in db.payments && p.invoice == iid {
      return Err(Protected);
    }
    r := DeleteInvoice(db, iid);
  }

  /** The shipments `create` links: listed in `shipment_ids`, of the invoice's client, not yet invoiced. */
  function Selected(ids: seq<nat>, client: nat): Shipment -> bool
  {
    (s: Shipment) => s.id in ids && s.client == client && s.invoice.None?
  }

  /** `shipments_to_update.update(invoice=invoice)`. */
  function Linked(shipments: seq<Shipment>, ids: seq<nat>, client: nat, iid: nat): (r: seq<Shipment>)
    ensures |r| == |shipments|
  {
    seq(|shipments|, i requires 0 <= i < |shipments| =>
      if Selected(ids, client)(shipments[i]) then shipments[i].(invoice := Some(iid)) else shipments[i])
  }

  /**
   * Linking touches only the selected shipments, and only their invoice:
   * a shipment ends up on the new invoice exactly when it was selected.
   */
  lemma LinkedExactly(shipments: seq<Shipment>, ids: seq<nat>, client: nat, iid: nat, i: nat)
    requires i < |shipments|
    requires shipments[i].invoice != Some(iid)
    ensures Linked(shipments, ids, client, iid)[i].invoice == Some(iid) <==>
      shipments[i].id in ids && shipments[i].client == client && shipments[i].invoice.None?
    ensures Linked(shipments, ids, client, iid)[i].(invoice := shipments[i].invoice) == shipments[i]
    ensures !Selected(ids, client)(shipments[i]) ==> Linked(shipments, ids, client, iid)[i] == shipments[i]
  {
    assert Linked(shipments, ids, client, iid)[i] ==
      if Selected(ids, client)(shipments[i]) then shipments[i].(invoice := Some(iid)) else shipments[i];
  }

  /**
   * The new invoice's `montant_ht` is the cost of the shipments just linked,
   * and the amount of every other invoice is unchanged.
   */
  lemma {:induction false} LinkedAmounts(shipments: seq<Shipment>, ids: seq<nat>, client: nat, iid: nat, other: nat)
    requires forall i :: 0 <= i < |shipments| ==> shipments[i].invoice != Some(iid)
    requires other != iid
    ensures MontantHt(Linked(shipments, ids, client, iid), iid) == SumOf(Filter(shipments, Selected(ids, client)), CostOf)
    ensures MontantHt(Linked(shipments, ids, client, iid), other) == MontantHt(shipments, other)
  {
    LinkedNewAmount(shipments, ids, client, iid);
    LinkedOtherAmount(shipments, ids, client, iid, other);
  }

  lemma {:induction false} LinkedNewAmount(shipments: seq<Shipment>, ids: seq<nat>, client: nat, iid: nat)
    requires forall i :: 0 <= i < |shipments| ==> shipments[i].invoice != Some(iid)
    ensures MontantHt(Linked(shipments, ids, client, iid), iid) == SumOf(Filter(shipments, Selected(ids, client)), CostOf)
  {
    if shipments != [] {
      LinkedNewAmount(shipments[1..], ids, client, iid);
      assert Linked(shipments, ids, client, iid)[1..] == Linked(shipments[1..], ids, client, iid);
    }
  }

  lemma {:induction false} LinkedOtherAmount(shipments: seq<Shipment>, ids: seq<nat>, client: nat, iid: nat, other: nat)
    requires other != iid
    ensures MontantHt(Linked(shipments, ids, client, iid), other) == MontantHt(shipments, other)
  {
    if shipments != [] {
      LinkedOtherAmount(shipments[1..], ids, client, iid, other);
      var after := Linked(shipments, ids, client, iid);
      assert after[1..] == Linked(shipments[1..], ids, client, iid);
      assert after[0] == if Selected(ids, client)(shipments[0]) then shipments[0].(invoice := Some(iid)) else shipments[0];
    }
  }

  /** The validated `client_id`, `status`, `due_date` and `shipment_ids`. */
  datatype InvoiceInput = InvoiceInput(clientId: nat, status: Option<InvoiceStatus>, dueDate: string, shipmentIds: seq<nat>)

  /** `client_id` only accepts users whose role is CLIENT. */
  predicate InvoiceClientAccepted(users: map<nat, User>, id: nat)
  {
    id in users && users[id].role == CLIENT
  }

  /** The created row: `shipment_ids` is not a column, and `status` defaults to UNPAID. */
  function CreatedInvoice(id: nat, input: InvoiceInput): (inv: Invoice)
    ensures inv.id == id && inv.client == input.clientId && inv.dueDate == input.dueDate
    ensures input.status.None? ==> inv.status == UNPAID
  {
    Invoice(id, input.clientId, if input.status.Some? then input.status.value else UNPAID, input.dueDate)
  }

  /**
   * `InvoiceSerializer.create`: create the invoice, link the selected
   * shipments to it, then raise the client's balance by its `montant_ttc`.
   * A missing profile raises after the invoice and the links are written.
   */
  method CreateInvoice(db: Store, input: InvoiceInput) returns (r: Result<nat, LedgerError>)
    requires db.Valid()
    modifies db
    ensures db.Valid()
    ensures !InvoiceClientAccepted(old(db.users), input.clientId) ==>
      r == Err(Invalid) && db.Snapshot() == old(db.Snapshot())
    ensures InvoiceClientAccepted(old(db.users), input.clientId) ==>
      r != Err(Invalid) && r != Err(Protected) &&
      db.invoices == old(db.invoices) + [CreatedInvoice(old(db.nextInvoice), input)] &&
      db.shipments == Linked(old(db.shipments), input.shipmentIds, input.clientId, old(db.nextInvoice)) &&
      (r.Ok? <==> input.clientId in old(db.profiles))
    ensures r.Ok? ==>
      r.value == old(db.nextInvoice) &&
      db.Snapshot() == old(db.Snapshot()).(invoices := db.invoices, shipments := db.shipments,
                                            nextInvoice := r.value + 1, profiles := db.profiles)
    ensures r.Ok? ==>
      db.profiles == old(db.profiles)[input.clientId :=
        Charged(old(db.profiles)[input.clientId],
                1.19 * SumOf(Filter(old(db.shipments), Selected(input.shipmentIds, input.clientId)), CostOf))]
    ensures r.Ok? ==>
      input.clientId in db.profiles &&
      db.profiles[input.clientId] == Charged(old(db.profiles)[input.clientId], MontantTtc(db.shipments, r.value)) &&
      FindIndex(db.invoices, InvoiceId(r.value)) == |db.invoices| - 1
    ensures r == Err(ProfileMissing) ==>
      db.Snapshot() == old(db.Snapshot()).(invoices := db.invoices, shipments := db.shipments, nextInvoice := db.nextInvoice)
  {
    if !InvoiceClientAccepted(db.users, input.clientId) {
      return Err(Invalid);
    }
    var id := InsertInvoice(db, input);
    assert db.shipments == old(db.shipments) && db.profiles == old(db.profiles);
    LinkShipments(db, input.shipmentIds, input.clientId, id);
    if input.clientId !in db.profiles {
      return Err(ProfileMissing);
    }
    ghost var amount := 1.19 * SumOf(Filter(old(db.shipments), Selected(input.shipmentIds, input.clientId)), CostOf);
    assert MontantTtc(db.shipments, id) == amount;
    ChargeClient(db, input.clientId, MontantTtc(db.shipments, id));
    return Ok(id);
  }

  /** `Invoice.objects.create(**validated_data)`: one row with the next key. */
  method InsertInvoice(db: Store, input: InvoiceInput) returns (id: nat)
    requires db.Valid()
    modifies db
    ensures id == old(db.nextInvoice)
    ensures db.Snapshot() == old(db.Snapshot()).(invoices := old(db.invoices) + [CreatedInvoice(id, input)], nextInvoice := id + 1)
    ensures db.Valid()
    ensures forall i :: 0 <= i < |db.shipments| ==> db.shipments[i].invoice != Some(id)
    ensures FindIndex(db.invoices, InvoiceId(id)) == |db.invoices| - 1
  {
    id := db.nextInvoice;
    db.nextInvoice := db.nextInvoice + 1;
    ghost var rows := db.invoices;
    db.invoices := db.invoices + [CreatedInvoice(id, input)];
    assert forall i :: 0 <= i < |rows| ==> db.invoices[i] == rows[i] && rows[i] in rows && !InvoiceId(id)(db.invoices[i]);
    assert InvoiceId(id)(db.invoices[|rows|]);
    forall i | 0 <= i < |db.shipments|
      ensures db.shipments[i].invoice != Some(id)
    {
      assert db.shipments[i] in db.shipments;
    }
  }

  /**
   * The `update(invoice=invoice)` of the selected shipments of a new
   * invoice; it then amounts to 1.19 times their cost.
   */
  method LinkShipments(db: Store, ids: seq<nat>, client: nat, iid: nat)
    requires db.Valid()
    requires iid < db.nextInvoice
    requires forall i :: 0 <= i < |db.shipments| ==> db.shipments[i].invoice != Some(iid)
    modifies db
    ensures db.Snapshot() == old(db.Snapshot()).(shipments := Linked(old(db.shipments), ids, client, iid))
    ensures db.Valid()
    ensures MontantTtc(db.shipments, iid) == 1.19 * SumOf(Filter(old(db.shipments), Selected(ids, client)), CostOf)
  {
    LinkedAmounts(db.shipments, ids, client, iid, iid + 1);
    TtcIsHtWithVat(Linked(db.shipments, ids, client, iid), iid);
    LinkedKeepsValid(db.shipments, ids, client, iid, db.nextShipment, db.nextInvoice);
    db.shipments := Linked(db.shipments, ids, client, iid);
  }

  lemma LinkedKeepsValid(shipments: seq<Shipment>, ids: seq<nat>, client: nat, iid: nat, nextShipment: nat, nextInvoice: nat)
    requires iid < nextInvoice
    requires forall s :: s in shipments ==> s.id < nextShipment && (s.invoice.Some? ==> s.invoice.value < nextInvoice)
    ensures forall s :: s in Linked(shipments, ids, client, iid) ==> s.id < nextShipment && (s.invoice.Some? ==> s.invoice.value < nextInvoice)
  {
    forall s | s in Linked(shipments, ids, client, iid)
      ensures s.id < nextShipment && (s.invoice.Some? ==> s.invoice.value < nextInvoice)
    {
      var i :| 0 <= i < |shipments| && Linked(shipments, ids, client, iid)[i] == s;
      assert shipments[i] in shipments;
    }
  }

  /**
   * Creating an invoice and then deleting it leaves the client's balance
   * where it was: a new invoice has no payments, and the delete takes back
   * the amount the create added.
   */
  method CreateThenDelete(db: Store, input: InvoiceInput) returns (r: Result<(), LedgerError>)
    requires db.Valid()
    requires InvoiceClientAccepted(db.users, input.clientId)
    requires input.clientId in db.profiles
    modifies db
    ensures r == Ok(())
    ensures db.profiles == old(db.profiles)
    ensures db.invoices == old(db.invoices)
  {
    var profile0 := db.profiles[input.clientId];
    var id := CreateForProfiledClient(db, input);
    r := DeleteNewest(db, id, input.clientId, profile0);
    assert old(db.invoices) + [CreatedInvoice(id, input)] == db.invoices + [CreatedInvoice(id, input)];
  }

  /** `InvoiceSerializer.create` for a CLIENT user with a profile: it succeeds, and the new row has no payments. */
  method CreateForProfiledClient(db: Store, input: InvoiceInput) returns (id: nat)
    requires db.Valid()
    requires InvoiceClientAccepted(db.users, input.clientId)
    requires input.clientId in db.profiles
    modifies db
    ensures db.Valid()
    ensures db.invoices == old(db.invoices) + [CreatedInvoice(id, input)]
    ensures |db.invoices| > 0 && FindIndex(db.invoices, InvoiceId(id)) == |db.invoices| - 1
    ensures InvoiceRow(db.invoices, id).client == input.clientId
    ensures input.clientId in db.profiles
    ensures db.profiles == old(db.profiles)[input.clientId :=
      Charged(old(db.profiles)[input.clientId], MontantTtc(db.shipments, id))]
    ensures !HasPayments(db.payments, id)
  {
    forall p | p in db.payments
      ensures p.invoice != db.nextInvoice
    {
    }
    var created := CreateInvoice(db, input);
    id := created.value;
  }

  /** `Invoice.delete` of an invoice without payments whose client has a profile. */
  method DeleteUnpaidInvoice(db: Store, iid: nat, client: nat) returns (r: Result<(), LedgerError>)
    requires db.Valid()
    requires FindIndex(db.invoices, InvoiceId(iid)) >= 0 && InvoiceRow(db.invoices, iid).client == client
    requires client in db.profiles && !HasPayments(db.payments, iid)
    modifies db
    ensures r == Ok(())
    ensures db.profiles == old(db.profiles)[client := Charged(old(db.profiles)[client], -MontantTtc(old(db.shipments), iid))]
    ensures db.invoices == Filter(old(db.invoices), OtherInvoice(iid))
  {
    r := DeleteInvoice(db, iid);
  }

  /**
   * Deleting the newest invoice, with no payments, from a client charged
   * exactly its amount: the charge is taken back and the row goes.
   */
  method DeleteNewest(db: Store, id: nat, client: nat, before: ClientProfile) returns (r: Result<(), LedgerError>)
    requires db.Valid()
    requires |db.invoices| > 0 && FindIndex(db.invoices, InvoiceId(id)) == |db.invoices| - 1
    requires InvoiceRow(db.invoices, id).client == client
    requires client in db.profiles && db.profiles[client] == Charged(before, MontantTtc(db.shipments, id))
    requires !HasPayments(db.payments, id)
    modifies db
    ensures r == Ok(())
    ensures db.profiles == old(db.profiles)[client := before]
    ensures db.invoices == old(db.invoices)[..|old(db.invoices)| - 1]
  {
    ChargedBack(before, MontantTtc(db.shipments, id));
    FilterDropsNewest(db.invoices, id);
    r := DeleteUnpaidInvoice(db, id, client);
  }

  /** Removing the key of the last row, found nowhere before it, drops just that row. */
  lemma FilterDropsNewest(rows: seq<Invoice>, id: nat)
    requires |rows| > 0 && FindIndex(rows, InvoiceId(id)) == |rows| - 1
    ensures Filter(rows, OtherInvoice(id)) == rows[..|rows| - 1]
  {
    assert forall i :: 0 <= i < |rows| - 1 ==> OtherInvoice(id)(rows[i]);
    FilterDropLast(rows, OtherInvoice(id));
  }

  /** Taking back what was charged restores the profile. */
  lemma ChargedBack(p: ClientProfile, amount: real)
    ensures Charged(Charged(p, amount), -amount) == p
  {
  }
}
