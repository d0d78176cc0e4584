/**
 * The account tables of the server (users/models.py): users with a role,
 * and the one-to-one client profile that carries the running balance.
 */
module Accounts {
  import opened Wrappers
  import opened Roles

  datatype User = User(username: string, email: string, role: Role)

  /** `ClientProfile`; `balance` is what the client owes, a Decimal held exactly. */
  datatype ClientProfile = ClientProfile(companyName: Option<string>, address: string, phoneNumber: string, balance: real)
}
