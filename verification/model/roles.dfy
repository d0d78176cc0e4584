/**
 * Roles. The server stores one of four roles (users/models.py); the client
 * receives the role as an arbitrary JSON value, which may be missing.
 */
module Roles {
  import opened Wrappers

  datatype Role = ADMIN | AGENT | DRIVER | CLIENT

  /** The string the API uses for a role. */
  function Name(r: Role): (s: string)
    ensures |s| >= 5
  {
    match r
    case ADMIN => "ADMIN"
    case AGENT => "AGENT"
    case DRIVER => "DRIVER"
    case CLIENT => "CLIENT"
  }

  lemma {:induction false} NameInjective(r: Role, q: Role)
    ensures Name(r) == Name(q) <==> r == q
  {
    if Name(r) == Name(q) {
      assert Name(r)[..2] == Name(q)[..2];
      assert Name(r)[..3] == Name(q)[..3];
    }
  }

  /** The profile object the client keeps as `user`: `role` may be undefined or any string. */
  datatype ClientUser = ClientUser(username: string, role: Option<string>)

  /** JavaScript truthiness of `user.role`: present and not the empty string. */
  predicate Truthy(role: Option<string>)
  {
    role.Some? && role.value != ""
  }

  /** `user?.role === 'R'`. */
  predicate HasRole(user: Option<ClientUser>, r: Role)
  {
    user.Some? && user.value.role == Some(Name(r))
  }

  /** `allowed.includes(role)` for a list of role names. */
  predicate Includes(allowed: seq<Role>, role: Option<string>)
  {
    exists r :: r in allowed && role == Some(Name(r))
  }

  lemma {:induction false} IncludesRole(allowed: seq<Role>, r: Role)
    ensures Includes(allowed, Some(Name(r))) <==> r in allowed
  {
    if Includes(allowed, Some(Name(r))) {
      var q :| q in allowed && Some(Name(r)) == Some(Name(q));
      NameInjective(r, q);
    }
  }

  /** The role field of a user that may be absent (`user?.role`). */
  function RoleOf(user: Option<ClientUser>): Option<string>
  {
    if user.Some? then user.value.role else None
  }
}
