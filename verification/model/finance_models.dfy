/**
 * Invoices and payments (finance/models.py): the invoice amounts derived
 * from the linked shipments, at a 19% VAT rate.
 */
module FinanceModels {
  import opened Wrappers
  import opened Seqs
  import opened ShippingModels

  /** The server's invoice statuses; the client pages use other strings as well. */
  datatype InvoiceStatus = UNPAID | PAID | OVERDUE

  datatype Invoice = Invoice(id: nat, client: nat, status: InvoiceStatus, dueDate: string)

  datatype PaymentMethod = CREDIT_CARD | BANK_TRANSFER | CASH

  datatype Payment = Payment(id: nat, invoice: nat, amount: real, paymentMethod: PaymentMethod)

  /** `TVA_RATE = Decimal('0.19')`. */
  const TVA_RATE: real := 0.19

  /** The shipments linked to invoice `iid`: the `self.shipments` related set. */
  function OnInvoice(iid: nat): Shipment -> bool
  {
    (s: Shipment) => s.invoice == Some(iid)
  }

  function CostOf(s: Shipment): real
  {
    s.totalCost
  }

  /** `montant_ht`: `Sum('total_cost')` over the linked shipments, or 0 when there are none. */
  function MontantHt(shipments: seq<Shipment>, iid: nat): real
  {
    SumOf(Filter(shipments, OnInvoice(iid)), CostOf)
  }

  /** `montant_tva`. */
  function MontantTva(shipments: seq<Shipment>, iid: nat): real
  {
    MontantHt(shipments, iid) * TVA_RATE
  }

  /** `montant_ttc`. */
  function MontantTtc(shipments: seq<Shipment>, iid: nat): real
  {
    MontantHt(shipments, iid) + MontantTva(shipments, iid)
  }

  /** Tax-inclusive is 1.19 times tax-exclusive. */
  lemma TtcIsHtWithVat(shipments: seq<Shipment>, iid: nat)
    ensures MontantTva(shipments, iid) == 0.19 * MontantHt(shipments, iid)
    ensures MontantTtc(shipments, iid) == 1.19 * MontantHt(shipments, iid)
  {
  }

  /** An invoice with no linked shipment amounts to 0. */
  lemma {:induction false} NoShipmentsZero(shipments: seq<Shipment>, iid: nat)
    requires forall i :: 0 <= i < |shipments| ==> shipments[i].invoice != Some(iid)
    ensures MontantHt(shipments, iid) == 0.0 && MontantTtc(shipments, iid) == 0.0
  {
    forall s | s in shipments
      ensures !OnInvoice(iid)(s)
    {
    }
    FilterNonePass(shipments, OnInvoice(iid));
  }

  /** Amounts are not negative when the shipment costs are not. */
  lemma AmountsNonNegative(shipments: seq<Shipment>, iid: nat)
    requires forall i :: 0 <= i < |shipments| ==> shipments[i].totalCost >= 0.0
    ensures MontantHt(shipments, iid) >= 0.0 && MontantTtc(shipments, iid) >= MontantHt(shipments, iid)
  {
    var linked := Filter(shipments, OnInvoice(iid));
    forall s | s in linked
      ensures CostOf(s) >= 0.0
    {
    }
    SumOfNonNegative(linked, CostOf);
  }
}
