/**
 * The API's viewsets: which permission classes guard each endpoint, the
 * role-scoped querysets, and the per-action permissions of payments
 * (shipping/views.py, finance/views.py, support/views.py, logistics/views.py).
 */
module Viewsets {
  import opened Wrappers
  import opened Roles
  import opened Seqs
  import opened Permissions
  import opened ShippingModels
  import opened FinanceModels

  /** The permission classes named in `permission_classes`. */
  datatype PermissionClass = RequireAuthenticated | RequireAdminUser | RequireAdminOrAgent | RequireOwnerOrAdmin

  /**
   * `has_permission` of one class. `IsOwnerOrAdmin` only overrides the
   * object test, so it inherits `BasePermission`'s answer, which is yes.
   */
  predicate HasPermission(c: PermissionClass, u: Requester)
  {
    match c
    case RequireAuthenticated => Authenticated(u)
    case RequireAdminUser => IsAdminUser(u)
    case RequireAdminOrAgent => IsAdminOrAgent(u)
    case RequireOwnerOrAdmin => true
  }

  /** `has_object_permission` of one class; every class but `IsOwnerOrAdmin` inherits yes. */
  predicate HasObjectPermission(c: PermissionClass, u: Requester, obj: ObjectAttrs)
    requires u != NoUser
  {
    match c
    case RequireOwnerOrAdmin => IsOwnerOrAdmin(u, obj)
    case _ => true
  }

  /** A request passes when every listed class grants it. */
  predicate AllowsRequest(classes: seq<PermissionClass>, u: Requester)
  {
    forall i :: 0 <= i < |classes| ==> HasPermission(classes[i], u)
  }

  /** Access to one object passes when every listed class grants it. */
  predicate AllowsObject(classes: seq<PermissionClass>, u: Requester, obj: ObjectAttrs)
    requires u != NoUser
  {
    forall i :: 0 <= i < |classes| ==> HasObjectPermission(classes[i], u, obj)
  }

  datatype Endpoint = Shipments | Tours | Parcels | Invoices | Payments | Incidents | Claims | Drivers | Vehicles | Destinations

  /** The `permission_classes` each viewset declares. */
  function DeclaredClasses(e: Endpoint): (classes: seq<PermissionClass>)
    ensures |classes| >= 1
  {
    match e
    case Shipments => [RequireAuthenticated, RequireOwnerOrAdmin]
    case Tours => [RequireAdminOrAgent]
    case Parcels => [RequireAuthenticated, RequireOwnerOrAdmin]
    case Invoices => [RequireAuthenticated, RequireOwnerOrAdmin]
    case Payments => [RequireAuthenticated]
    case Incidents => [RequireAdminOrAgent]
    case Claims => [RequireAuthenticated, RequireOwnerOrAdmin]
    case Drivers => [RequireAdminOrAgent]
    case Vehicles => [RequireAdminOrAgent]
    case Destinations => [RequireAuthenticated]
  }

  /** Tours, incidents, drivers and vehicles are for ADMIN and AGENT only, in every action. */
  lemma StaffEndpoints(e: Endpoint, u: Requester)
    requires e in {Tours, Incidents, Drivers, Vehicles}
    ensures AllowsRequest(DeclaredClasses(e), u) <==> IsAdminOrAgent(u)
  {
    assert DeclaredClasses(e) == [RequireAdminOrAgent];
    assert HasPermission(DeclaredClasses(e)[0], u) == IsAdminOrAgent(u);
  }

  /** In particular a DRIVER or a CLIENT cannot even report an incident. */
  lemma IncidentsRefuseDriversAndClients(id: nat, r: Role)
    requires r == DRIVER || r == CLIENT
    ensures !AllowsRequest(DeclaredClasses(Incidents), Member(id, r))
  {
    StaffEndpoints(Incidents, Member(id, r));
  }

  /** Destinations are open to every authenticated user, and only to them. */
  lemma DestinationsNeedLogin(u: Requester)
    ensures AllowsRequest(DeclaredClasses(Destinations), u) <==> Authenticated(u)
  {
    assert HasPermission(DeclaredClasses(Destinations)[0], u) == Authenticated(u);
  }

  /**
   * Shipments, invoices and claims: any signed-in user gets through the view
   * test; an object is then reachable by an ADMIN or by its `client`.
   */
  lemma OwnedEndpoints(e: Endpoint, u: Requester, obj: ObjectAttrs)
    requires e in {Shipments, Invoices, Claims}
    requires u != NoUser
    ensures AllowsRequest(DeclaredClasses(e), u) <==> Authenticated(u)
    ensures AllowsObject(DeclaredClasses(e), u, obj) <==> IsOwnerOrAdmin(u, obj)
  {
    var classes := DeclaredClasses(e);
    assert classes == [RequireAuthenticated, RequireOwnerOrAdmin];
    assert HasPermission(classes[0], u) == Authenticated(u);
    assert HasPermission(classes[1], u);
    assert HasObjectPermission(classes[0], u, obj);
    assert HasObjectPermission(classes[1], u, obj) == IsOwnerOrAdmin(u, obj);
  }

  /**
   * A parcel has neither `client` nor `user`, so through the detail routes
   * only an ADMIN reaches one.
   */
  lemma ParcelsOnlyAdminObjects(u: Requester)
    requires u != NoUser
    ensures AllowsRequest(DeclaredClasses(Parcels), u) <==> Authenticated(u)
    ensures AllowsObject(DeclaredClasses(Parcels), u, ObjectAttrs(Absent, Absent)) <==> IsAdminUser(u)
  {
    var classes := DeclaredClasses(Parcels);
    var obj := ObjectAttrs(Absent, Absent);
    assert HasPermission(classes[0], u) == Authenticated(u);
    assert HasPermission(classes[1], u);
    assert HasObjectPermission(classes[0], u, obj);
    assert HasObjectPermission(classes[1], u, obj) == IsAdminUser(u);
  }

  function OwnedBy<T>(owner: T -> nat, id: nat): T -> bool
  {
    (x: T) => owner(x) == id
  }

  /**
   * The role filter of `get_queryset`: ADMIN and AGENT see every row, a
   * CLIENT the rows whose owner is itself, any other role nothing.
   * `user.role` is read, so the user is a signed-in account.
   */
  function RoleScoped<T>(rows: seq<T>, owner: T -> nat, u: Requester): (r: seq<T>)
    requires u.Member?
    ensures u.role == ADMIN || u.role == AGENT ==> r == rows
    ensures u.role == DRIVER ==> r == []
    ensures |r| <= |rows|
  {
    if u.role == ADMIN || u.role == AGENT then rows
    else if u.role == CLIENT then Filter(rows, OwnedBy(owner, u.id))
    else []
  }

  /** A CLIENT sees exactly its own rows, in the stored order. */
  lemma RoleScopedClient<T>(rows: seq<T>, owner: T -> nat, id: nat, x: T)
    ensures x in RoleScoped(rows, owner, Member(id, CLIENT)) <==> x in rows && owner(x) == id
    ensures IsSubsequence(RoleScoped(rows, owner, Member(id, CLIENT)), rows)
  {
    FilterKeepsExactly(rows, OwnedBy(owner, id), x);
    FilterIsSubsequence(rows, OwnedBy(owner, id));
  }

  /** A CLIENT sees every stored row it owns, and only those. */
  lemma RoleScopedOwned<T>(rows: seq<T>, owner: T -> nat, id: nat)
    ensures forall x :: x in RoleScoped(rows, owner, Member(id, CLIENT)) <==> x in rows && owner(x) == id
  {
    forall x
      ensures x in RoleScoped(rows, owner, Member(id, CLIENT)) <==> x in rows && owner(x) == id
    {
      RoleScopedClient(rows, owner, id, x);
    }
  }

  function ShipmentClient(s: Shipment): nat
  {
    s.client
  }

  /** `ShipmentViewSet.get_queryset`. */
  function ShipmentQueryset(shipments: seq<Shipment>, u: Requester): (r: seq<Shipment>)
    requires u.Member?
    ensures u.role == CLIENT ==> forall s :: s in r <==> s in shipments && s.client == u.id
    ensures u.role != CLIENT ==> r == if u.role == DRIVER then [] else shipments
  {
    RoleScopedOwned(shipments, ShipmentClient, u.id);
    RoleScoped(shipments, ShipmentClient, u)
  }

  function InvoiceClient(inv: Invoice): nat
  {
    inv.client
  }

  /** `InvoiceViewSet.get_queryset`. */
  function InvoiceQueryset(invoices: seq<Invoice>, u: Requester): (r: seq<Invoice>)
    requires u.Member?
    ensures u.role == CLIENT ==> forall inv :: inv in r <==> inv in invoices && inv.client == u.id
    ensures u.role != CLIENT ==> r == if u.role == DRIVER then [] else invoices
  {
    RoleScopedOwned(invoices, InvoiceClient, u.id);
    RoleScoped(invoices, InvoiceClient, u)
  }

  datatype ClaimStatus = RECEIVED | UNDER_ANALYSIS | ACCEPTED | REFUSED

  /** A claim row (support/models.py); `incident` is a nullable key. */
  datatype Claim = Claim(id: nat, client: nat, incident: Option<nat>, reason: string, status: ClaimStatus)

  function ClaimClient(c: Claim): nat
  {
    c.client
  }

  /** `ClaimViewSet.get_queryset`. */
  function ClaimQueryset(claims: seq<Claim>, u: Requester): (r: seq<Claim>)
    requires u.Member?
    ensures u.role == CLIENT ==> forall c :: c in r <==> c in claims && c.client == u.id
    ensures u.role != CLIENT ==> r == if u.role == DRIVER then [] else claims
  {
    RoleScopedOwned(claims, ClaimClient, u.id);
    RoleScoped(claims, ClaimClient, u)
  }

  /** `invoice__client`: the client of the payment's invoice, when the invoice is stored. */
  function PaymentClient(invoices: seq<Invoice>, p: Payment): Option<nat>
  {
    var k := FindIndex(invoices, InvoiceIdIs(p.invoice));
    if k < 0 then None else Some(invoices[k].client)
  }

  function InvoiceIdIs(id: nat): Invoice -> bool
  {
    (inv: Invoice) => inv.id == id
  }

  function PaidBy(invoices: seq<Invoice>, id: nat): Payment -> bool
  {
    (p: Payment) => PaymentClient(invoices, p) == Some(id)
  }

  /**
   * `PaymentViewSet.get_queryset`: the CLIENT filter goes through the
   * payment's invoice.
   */
  function PaymentQueryset(payments: seq<Payment>, invoices: seq<Invoice>, u: Requester): (r: seq<Payment>)
    requires u.Member?
    ensures u.role == ADMIN || u.role == AGENT ==> r == payments
    ensures u.role == DRIVER ==> r == []
    ensures |r| <= |payments|
  {
    if u.role == ADMIN || u.role == AGENT then payments
    else if u.role == CLIENT then Filter(payments, PaidBy(invoices, u.id))
    else []
  }

  /** A CLIENT sees exactly the payments made on one of its own invoices. */
  lemma PaymentQuerysetClient(payments: seq<Payment>, invoices: seq<Invoice>, id: nat, p: Payment)
    ensures p in PaymentQueryset(payments, invoices, Member(id, CLIENT)) <==>
      p in payments &&
      exists k :: 0 <= k < |invoices| && invoices[k].id == p.invoice && invoices[k].client == id &&
        forall j :: 0 <= j < k ==> invoices[j].id != p.invoice
  {
    FilterKeepsExactly(payments, PaidBy(invoices, id), p);
    var k := FindIndex(invoices, InvoiceIdIs(p.invoice));
    if k >= 0 {
      assert invoices[k].id == p.invoice;
    }
  }

  /** The actions a DRF model viewset routes to. */
  datatype Action = List | Retrieve | Create | Update | PartialUpdate | Destroy

  /** The classes `get_permissions` leaves in place for an action, from the list it starts with. */
  function PaymentClassesFor(action: Action, current: seq<PermissionClass>): (classes: seq<PermissionClass>)
    ensures action in {Update, PartialUpdate, Destroy} ==> classes == [RequireAdminUser]
    ensures action == Create ==> classes == [RequireAdminOrAgent]
    ensures action in {List, Retrieve} ==> classes == current
  {
    match action
    case Update => [RequireAdminUser]
    case PartialUpdate => [RequireAdminUser]
    case Destroy => [RequireAdminUser]
    case Create => [RequireAdminOrAgent]
    case _ => current
  }

  /** One request's `PaymentViewSet` instance. */
  class PaymentViewSet {
    var action: Action
    var permissionClasses: seq<PermissionClass>

    /** A fresh instance for a request, with the declared `[IsAuthenticated]`. */
    constructor(action: Action)
      ensures this.action == action
      ensures permissionClasses == DeclaredClasses(Payments)
    {
      this.action := action;
      permissionClasses := [RequireAuthenticated];
    }

    /** `get_permissions`: replaces `self.permission_classes` for writes, then instantiates the list. */
    method GetPermissions() returns (classes: seq<PermissionClass>)
      modifies this
      ensures action == old(action)
      ensures permissionClasses == PaymentClassesFor(action, old(permissionClasses))
      ensures classes == permissionClasses
    {
      if action == Update || action == PartialUpdate || action == Destroy {
        permissionClasses := [RequireAdminUser];
      } else if action == Create {
        permissionClasses := [RequireAdminOrAgent];
      }
      classes := permissionClasses;
    }
  }

  /**
   * Who may do what with payments: changing or deleting one takes an ADMIN,
   * recording one an ADMIN or an AGENT, reading any signed-in user.
   */
  lemma PaymentAccess(action: Action, u: Requester)
    ensures AllowsRequest(PaymentClassesFor(action, DeclaredClasses(Payments)), u) <==>
      match action
      case Update | PartialUpdate | Destroy => IsAdminUser(u)
      case Create => IsAdminOrAgent(u)
      case List | Retrieve => Authenticated(u)
  {
    var classes := PaymentClassesFor(action, DeclaredClasses(Payments));
    assert |classes| == 1;
    assert AllowsRequest(classes, u) <==> HasPermission(classes[0], u);
  }

  /** Asking twice gives the same classes: the replacement does not depend on what is in place. */
  lemma PaymentClassesStable(action: Action, current: seq<PermissionClass>)
    ensures PaymentClassesFor(action, PaymentClassesFor(action, current)) == PaymentClassesFor(action, current)
  {
  }

  /** An AGENT records payments but cannot change or delete them; a CLIENT can only read them. */
  lemma PaymentRoles(id: nat)
    ensures AllowsRequest(PaymentClassesFor(Create, DeclaredClasses(Payments)), Member(id, AGENT))
    ensures !AllowsRequest(PaymentClassesFor(Destroy, DeclaredClasses(Payments)), Member(id, AGENT))
    ensures !AllowsRequest(PaymentClassesFor(Create, DeclaredClasses(Payments)), Member(id, CLIENT))
    ensures AllowsRequest(PaymentClassesFor(List, DeclaredClasses(Payments)), Member(id, CLIENT))
  {
    PaymentAccess(Create, Member(id, AGENT));
    PaymentAccess(Destroy, Member(id, AGENT));
    PaymentAccess(Create, Member(id, CLIENT));
    PaymentAccess(List, Member(id, CLIENT));
  }
}
