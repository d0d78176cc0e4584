/**
 * The ownership filter the invoice and claim pages apply after fetching:
 * a CLIENT keeps the rows whose `client.username` is their own username,
 * every other role (and a missing user) keeps every row.
 */
module ClientScope {
  import opened Wrappers
  import opened Roles
  import opened Seqs

  function OwnRows<T>(rows: seq<T>, owner: T -> string, user: Option<ClientUser>): (r: seq<T>)
    ensures !HasRole(user, CLIENT) ==> r == rows
    ensures |r| <= |rows|
  {
    if HasRole(user, CLIENT) then Filter(rows, x => owner(x) == user.value.username) else rows
  }

  /** A CLIENT sees exactly the rows it owns. */
  lemma OwnRowsExactly<T>(rows: seq<T>, owner: T -> string, user: Option<ClientUser>, x: T)
    requires HasRole(user, CLIENT)
    ensures x in OwnRows(rows, owner, user) <==> x in rows && owner(x) == user.value.username
  {
    FilterKeepsExactly(rows, y => owner(y) == user.value.username, x);
  }

  /** The rows kept stay in the order the API returned them. */
  lemma OwnRowsInOrder<T>(rows: seq<T>, owner: T -> string, user: Option<ClientUser>)
    ensures IsSubsequence(OwnRows(rows, owner, user), rows)
  {
    if HasRole(user, CLIENT) {
      FilterIsSubsequence(rows, y => owner(y) == user.value.username);
    } else {
      SubsequenceRefl(rows);
    }
  }
}
