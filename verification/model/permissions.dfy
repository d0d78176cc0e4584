/**
 * The permission predicates of the API (users/permissions.py and the
 * `IsAdminOrAgent` class that shipping, finance, support and logistics each
 * declare with the same body).
 */
module Permissions {
  import opened Roles

  /**
   * `request.user`: missing, the anonymous user (not authenticated), or a
   * signed-in account with its primary key and role.
   */
  datatype Requester = NoUser | Anonymous | Member(id: nat, role: Role)

  /** `request.user.is_authenticated`, the test of `IsAuthenticated`. */
  predicate Authenticated(u: Requester)
  {
    u.Member?
  }

  /** `IsAdminUser.has_permission`: a user, authenticated, with role ADMIN. */
  predicate IsAdminUser(u: Requester)
  {
    u.Member? && u.role == ADMIN
  }

  /** `IsAdminOrAgent.has_permission`: a user, authenticated, with role ADMIN or AGENT. */
  predicate IsAdminOrAgent(u: Requester)
  {
    u.Member? && (u.role == ADMIN || u.role == AGENT)
  }

  /** Each test refuses a missing or anonymous user and is decided by the role alone. */
  lemma PermissionsByRole(id: nat, r: Role)
    ensures !IsAdminUser(NoUser) && !IsAdminUser(Anonymous)
    ensures !IsAdminOrAgent(NoUser) && !IsAdminOrAgent(Anonymous)
    ensures IsAdminUser(Member(id, r)) <==> r == ADMIN
    ensures IsAdminOrAgent(Member(id, r)) <==> r in {ADMIN, AGENT}
    ensures Authenticated(Member(id, r))
  {
  }

  /** Whatever `IsAdminUser` lets through, `IsAdminOrAgent` and `IsAuthenticated` let through too. */
  lemma AdminUserIsAdminOrAgent(u: Requester)
    ensures IsAdminUser(u) ==> IsAdminOrAgent(u)
    ensures IsAdminOrAgent(u) ==> Authenticated(u)
    ensures IsAdminOrAgent(u) && !IsAdminUser(u) <==> u.Member? && u.role == AGENT
  {
  }

  /** A model attribute as `hasattr` and `==` see it: no such attribute, a null foreign key, or a key. */
  datatype Attr = Absent | Null | Ref(id: nat)

  /** The two attributes `IsOwnerOrAdmin` looks for on an object. */
  datatype ObjectAttrs = ObjectAttrs(client: Attr, user: Attr)

  /** `obj.attr == request.user`: only a key equal to the signed-in user's. */
  predicate Owns(a: Attr, u: Requester)
  {
    a.Ref? && u.Member? && a.id == u.id
  }

  /**
   * `IsOwnerOrAdmin.has_object_permission`: an authenticated ADMIN always;
   * otherwise `client` decides when the object has one, else `user`, else
   * access is refused. `request.user` is dereferenced, so it must be present.
   */
  function IsOwnerOrAdmin(u: Requester, obj: ObjectAttrs): (granted: bool)
    requires u != NoUser
    ensures granted ==> IsAdminUser(u) || Owns(obj.client, u) || Owns(obj.user, u)
    ensures IsAdminUser(u) ==> granted
  {
    if u.Member? && u.role == ADMIN then true
    else if obj.client != Absent then Owns(obj.client, u)
    else if obj.user != Absent then Owns(obj.user, u)
    else false
  }

  /** For anyone but an ADMIN, an object with a `client` attribute is decided by it alone, even when `user` would match. */
  lemma ClientCheckedFirst(u: Requester, obj: ObjectAttrs)
    requires u != NoUser && !IsAdminUser(u)
    requires obj.client != Absent
    ensures IsOwnerOrAdmin(u, obj) <==> u.Member? && obj.client == Ref(u.id)
  {
  }

  /** Without `client`, the `user` attribute decides. */
  lemma UserCheckedSecond(u: Requester, obj: ObjectAttrs)
    requires u != NoUser && !IsAdminUser(u)
    requires obj.client == Absent && obj.user != Absent
    ensures IsOwnerOrAdmin(u, obj) <==> u.Member? && obj.user == Ref(u.id)
  {
  }

  /** An object with neither attribute, such as a parcel, is refused to everyone but an ADMIN. */
  lemma NoOwnerAttributeOnlyAdmin(u: Requester)
    requires u != NoUser
    ensures IsOwnerOrAdmin(u, ObjectAttrs(Absent, Absent)) <==> IsAdminUser(u)
  {
  }

  /** An object whose owner is null is refused to everyone but an ADMIN. */
  lemma NullOwnerOnlyAdmin(u: Requester, user: Attr)
    requires u != NoUser
    ensures IsOwnerOrAdmin(u, ObjectAttrs(Null, user)) <==> IsAdminUser(u)
  {
  }

  /** An AGENT gets no shortcut: for every role but ADMIN the answer does not depend on the role. */
  lemma NonAdminRoleIrrelevant(id: nat, r: Role, q: Role, obj: ObjectAttrs)
    requires r != ADMIN && q != ADMIN
    ensures IsOwnerOrAdmin(Member(id, r), obj) == IsOwnerOrAdmin(Member(id, q), obj)
    ensures IsOwnerOrAdmin(Member(id, AGENT), obj) == IsOwnerOrAdmin(Member(id, CLIENT), obj)
  {
  }
}
