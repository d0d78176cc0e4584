/**
 * The shipments list page (ShipmentsList.jsx): the search filter, the status
 * badge style and the role-dependent column and link.
 */
module ShipmentsList {
  import opened Wrappers
  import opened Roles
  import opened Seqs
  import opened Text

  /**
   * A row as the API returns it. `clientUsername` is `None` when the
   * shipment has no client or the client object has no username.
   */
  datatype ShipmentRow = ShipmentRow(id: nat, clientUsername: Option<string>, status: string)

  /**
   * The search predicate: the id's decimal string contains the term, or the
   * lower-cased username contains the lower-cased term.
   */
  predicate Matches(row: ShipmentRow, term: string)
  {
    Contains(DecimalString(row.id), term) ||
    (row.clientUsername.Some? && Contains(Lower(row.clientUsername.value), Lower(term)))
  }

  /** `filteredShipments`. */
  function FilteredShipments(rows: seq<ShipmentRow>, term: string): (r: seq<ShipmentRow>)
    ensures |r| <= |rows|
  {
    Filter(rows, row => Matches(row, term))
  }

  /** A row is listed exactly when it matches the term. */
  lemma FilteredExactly(rows: seq<ShipmentRow>, term: string, row: ShipmentRow)
    ensures row in FilteredShipments(rows, term) <==> row in rows && Matches(row, term)
  {
    FilterKeepsExactly(rows, row => Matches(row, term), row);
  }

  /** The filtered list keeps the order of `shipments`. */
  lemma FilteredInOrder(rows: seq<ShipmentRow>, term: string)
    ensures IsSubsequence(FilteredShipments(rows, term), rows)
  {
    FilterIsSubsequence(rows, row => Matches(row, term));
  }

  /** An empty search box lists every shipment. */
  lemma EmptyTermKeepsAll(rows: seq<ShipmentRow>)
    ensures FilteredShipments(rows, "") == rows
  {
    forall row | row in rows
      ensures Matches(row, "")
    {
      ContainsEmpty(DecimalString(row.id));
    }
    FilterAllPass(rows, row => Matches(row, ""));
  }

  /** A shipment with no client username can only be found by its id. */
  lemma NoClientOnlyId(row: ShipmentRow, term: string)
    requires row.clientUsername.None?
    ensures Matches(row, term) <==> Contains(DecimalString(row.id), term)
  {
  }

  predicate IsDigit(c: char)
  {
    '0' <= c <= '9'
  }

  /** A substring of a digit string consists of digits. */
  lemma {:induction false} IdMatchNeedsDigits(id: nat, term: string)
    requires Contains(DecimalString(id), term)
    ensures forall k :: 0 <= k < |term| ==> IsDigit(term[k])
  {
    var digits := DecimalString(id);
    var i :| 0 <= i <= |digits| - |term| && OccursAt(digits, term, i);
    forall k | 0 <= k < |term|
      ensures IsDigit(term[k])
    {
      assert term[k] == digits[i..i + |term|][k] == digits[i + k];
    }
  }

  /** Lower-casing keeps digits and non-digits apart. */
  lemma LowerKeepsDigits(c: char)
    ensures IsDigit(LowerChar(c)) <==> IsDigit(c)
  {
  }

  lemma LowerIdempotent(s: string)
    ensures Lower(Lower(s)) == Lower(s)
  {
  }

  /** A term made of digits is its own lower case. */
  lemma DigitsAreLower(term: string)
    requires forall k :: 0 <= k < |term| ==> IsDigit(term[k])
    ensures Lower(term) == term
  {
  }

  /** The id test is unaffected by lower-casing the term. */
  lemma {:induction false} IdMatchIgnoresCase(id: nat, term: string)
    ensures Contains(DecimalString(id), term) <==> Contains(DecimalString(id), Lower(term))
  {
    if Contains(DecimalString(id), term) {
      IdMatchNeedsDigits(id, term);
      DigitsAreLower(term);
    }
    if Contains(DecimalString(id), Lower(term)) {
      IdMatchNeedsDigits(id, Lower(term));
      forall k | 0 <= k < |term|
        ensures IsDigit(term[k])
      {
        LowerKeepsDigits(term[k]);
      }
      DigitsAreLower(term);
    }
  }

  /** The search is case-insensitive: a term and its lower case find the same rows. */
  lemma {:induction false} SearchIgnoresCase(row: ShipmentRow, term: string)
    ensures Matches(row, term) <==> Matches(row, Lower(term))
  {
    IdMatchIgnoresCase(row.id, term);
    LowerIdempotent(term);
  }

  /**
   * The rows the page lists: nothing is fetched without a user, so the list
   * stays the initial empty array; a failed fetch also leaves it empty.
   */
  function ListedShipments(user: Option<ClientUser>, fetched: Option<seq<ShipmentRow>>, term: string): (r: seq<ShipmentRow>)
    ensures user.None? || fetched.None? ==> r == []
    ensures user.Some? && fetched.Some? ==> r == FilteredShipments(fetched.value, term)
  {
    if user.Some? && fetched.Some? then FilteredShipments(fetched.value, term) else []
  }

  const DefaultStyle := "bg-slate-100 text-slate-700 border-slate-200"

  /** `getStatusStyle`. */
  function StatusStyle(status: string): (style: string)
    ensures style == DefaultStyle <==> status !in {"DELIVERED", "IN_TRANSIT", "PENDING", "CANCELLED"}
  {
    match status
    case "DELIVERED" => "bg-emerald-100 text-emerald-700 border-emerald-200"
    case "IN_TRANSIT" => "bg-blue-100 text-blue-700 border-blue-200"
    case "PENDING" => "bg-amber-100 text-amber-700 border-amber-200"
    case "CANCELLED" => "bg-red-100 text-red-700 border-red-200"
    case _ => DefaultStyle
  }

  /** The four known statuses each get a badge of their own. */
  lemma StatusStylesDistinct(a: string, b: string)
    requires a in {"DELIVERED", "IN_TRANSIT", "PENDING", "CANCELLED"}
    requires b in {"DELIVERED", "IN_TRANSIT", "PENDING", "CANCELLED"}
    ensures StatusStyle(a) == StatusStyle(b) <==> a == b
  {
  }

  /** The Client column: shown unless the role is CLIENT (also when there is no user). */
  predicate ShowsClientColumn(user: Option<ClientUser>)
  {
    RoleOf(user) != Some(Name(CLIENT))
  }

  /** The New Shipment link: `['ADMIN', 'AGENT'].includes(user?.role)`. */
  predicate ShowsNewShipmentLink(user: Option<ClientUser>)
  {
    Includes([ADMIN, AGENT], RoleOf(user))
  }

  /** Column and link for each signed-in role. */
  lemma ControlsByRole(name: string, r: Role)
    ensures ShowsClientColumn(Some(ClientUser(name, Some(Name(r))))) <==> r != CLIENT
    ensures ShowsNewShipmentLink(Some(ClientUser(name, Some(Name(r))))) <==> r == ADMIN || r == AGENT
  {
    NameInjective(r, CLIENT);
    IncludesRole([ADMIN, AGENT], r);
  }
}
