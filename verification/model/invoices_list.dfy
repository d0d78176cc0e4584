/**
 * The invoices page (InvoicesList.jsx): the ownership filter, the unpaid
 * toggle, the outstanding total and the status badge.
 */
module InvoicesList {
  import opened Wrappers
  import opened Roles
  import opened Seqs
  import ClientScope

  /** `montant_ttc` is the API's decimal string, read with `parseFloat`; here it is the exact amount. */
  datatype InvoiceRow = InvoiceRow(id: nat, clientUsername: string, dueDate: string, montantTtc: real, status: string)

  function ClientOf(inv: InvoiceRow): string
  {
    inv.clientUsername
  }

  /** The invoices the page keeps after fetching: a CLIENT keeps its own. */
  function VisibleInvoices(fetched: seq<InvoiceRow>, user: Option<ClientUser>): (r: seq<InvoiceRow>)
    ensures !HasRole(user, CLIENT) ==> r == fetched
    ensures HasRole(user, CLIENT) ==> forall inv :: inv in r <==> inv in fetched && inv.clientUsername == user.value.username
  {
    var r := ClientScope.OwnRows(fetched, ClientOf, user);
    if HasRole(user, CLIENT) then
      assert forall inv :: inv in r <==> inv in fetched && inv.clientUsername == user.value.username by {
        forall inv
          ensures inv in r <==> inv in fetched && inv.clientUsername == user.value.username
        {
          ClientScope.OwnRowsExactly(fetched, ClientOf, user, inv);
        }
      }
      r
    else r
  }

  /** The page state: the invoices held and the Quick Filter flag. */
  datatype InvoicesPage = InvoicesPage(invoices: seq<InvoiceRow>, filterUnpaid: bool)

  /** The initial state after a fetch: the filter is off. */
  function Loaded(fetched: seq<InvoiceRow>, user: Option<ClientUser>): (page: InvoicesPage)
    ensures !page.filterUnpaid
  {
    InvoicesPage(VisibleInvoices(fetched, user), false)
  }

  predicate IsUnpaid(inv: InvoiceRow)
  {
    inv.status == "UNPAID"
  }

  /** `displayedInvoices`. */
  function Displayed(page: InvoicesPage): (r: seq<InvoiceRow>)
    ensures !page.filterUnpaid ==> r == page.invoices
    ensures page.filterUnpaid ==> forall inv :: inv in r <==> inv in page.invoices && inv.status == "UNPAID"
  {
    if page.filterUnpaid then
      var r := Filter(page.invoices, IsUnpaid);
      assert forall inv :: inv in r <==> inv in page.invoices && inv.status == "UNPAID" by {
        forall inv
          ensures inv in r <==> inv in page.invoices && inv.status == "UNPAID"
        {
          FilterKeepsExactly(page.invoices, IsUnpaid, inv);
        }
      }
      r
    else page.invoices
  }

  /** The unpaid view keeps the order of the invoices. */
  lemma DisplayedInOrder(page: InvoicesPage)
    ensures IsSubsequence(Displayed(page), page.invoices)
  {
    if page.filterUnpaid {
      FilterIsSubsequence(page.invoices, IsUnpaid);
    } else {
      SubsequenceRefl(page.invoices);
    }
  }

  /** The Quick Filter button. */
  function Toggle(page: InvoicesPage): (next: InvoicesPage)
    ensures next.invoices == page.invoices
    ensures next.filterUnpaid != page.filterUnpaid
  {
    page.(filterUnpaid := !page.filterUnpaid)
  }

  lemma ToggleTwice(page: InvoicesPage)
    ensures Toggle(Toggle(page)) == page
    ensures Displayed(Toggle(Toggle(page))) == Displayed(page)
  {
  }

  predicate IsNotPaid(inv: InvoiceRow)
  {
    inv.status != "PAID"
  }

  function TtcOf(inv: InvoiceRow): real
  {
    inv.montantTtc
  }

  /** The Total Outstanding card: the `reduce` over `invoices`, adding the TTC of each row not PAID. */
  function Outstanding(page: InvoicesPage): real
  {
    FoldSum(page.invoices, 0.0, Masked(TtcOf, IsNotPaid))
  }

  /** Outstanding is the TTC total of the invoices that are not PAID (UNPAID, PARTIAL or any other status). */
  lemma OutstandingIsUnpaidTotal(page: InvoicesPage)
    ensures Outstanding(page) == SumOf(Filter(page.invoices, IsNotPaid), TtcOf)
  {
    FoldSumIsSum(page.invoices, 0.0, Masked(TtcOf, IsNotPaid));
    SumOfMasked(page.invoices, TtcOf, IsNotPaid);
  }

  /** One more invoice adds its TTC to the outstanding total unless it is PAID. */
  lemma OutstandingAppend(invoices: seq<InvoiceRow>, inv: InvoiceRow, filterUnpaid: bool)
    ensures Outstanding(InvoicesPage(invoices + [inv], filterUnpaid)) ==
      Outstanding(InvoicesPage(invoices, filterUnpaid)) + (if inv.status != "PAID" then inv.montantTtc else 0.0)
  {
    var f := Masked(TtcOf, IsNotPaid);
    FoldSumIsSum(invoices + [inv], 0.0, f);
    FoldSumIsSum(invoices, 0.0, f);
    SumOfAppend(invoices, [inv], f);
    assert SumOf([inv], f) == f(inv) + SumOf([], f);
    assert f(inv) == if IsNotPaid(inv) then TtcOf(inv) else 0.0;
  }

  /** The filter does not change the outstanding total, which is computed over all invoices. */
  lemma ToggleKeepsOutstanding(page: InvoicesPage)
    ensures Outstanding(Toggle(page)) == Outstanding(page)
  {
  }

  const DefaultStyle := "bg-slate-100 text-slate-700"

  /** `getStatusStyle`. */
  function StatusStyle(status: string): (style: string)
    ensures style == DefaultStyle <==> status !in {"PAID", "UNPAID", "PARTIAL"}
  {
    match status
    case "PAID" => "bg-emerald-100 text-emerald-700"
    case "UNPAID" => "bg-red-100 text-red-700"
    case "PARTIAL" => "bg-blue-100 text-blue-700"
    case _ => DefaultStyle
  }

  /** The Generate Invoice link: `['ADMIN', 'AGENT'].includes(user?.role)`. */
  predicate ShowsGenerateLink(user: Option<ClientUser>)
  {
    Includes([ADMIN, AGENT], RoleOf(user))
  }

  /** The Client column: `user?.role === 'ADMIN'`. */
  predicate ShowsClientColumn(user: Option<ClientUser>)
  {
    HasRole(user, ADMIN)
  }

  lemma ControlsByRole(name: string, r: Role)
    ensures ShowsGenerateLink(Some(ClientUser(name, Some(Name(r))))) <==> r == ADMIN || r == AGENT
    ensures ShowsClientColumn(Some(ClientUser(name, Some(Name(r))))) <==> r == ADMIN
  {
    IncludesRole([ADMIN, AGENT], r);
    NameInjective(r, ADMIN);
  }
}
