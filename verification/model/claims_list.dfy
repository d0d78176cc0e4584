/**
 * The claims page (ClaimsList.jsx): the ownership filter, the status badge
 * and its label, and the role-dependent controls.
 */
module ClaimsList {
  import opened Wrappers
  import opened Roles
  import opened Seqs
  import opened Text
  import ClientScope

  datatype ClaimRow = ClaimRow(id: nat, reason: string, description: string, clientUsername: string, status: string)

  function ClientOf(c: ClaimRow): string
  {
    c.clientUsername
  }

  /** The claims the page keeps after fetching: a CLIENT keeps those it filed. */
  function VisibleClaims(fetched: seq<ClaimRow>, user: Option<ClientUser>): (r: seq<ClaimRow>)
    ensures !HasRole(user, CLIENT) ==> r == fetched
    ensures HasRole(user, CLIENT) ==> forall c :: c in r <==> c in fetched && c.clientUsername == user.value.username
    ensures |r| <= |fetched| && IsSubsequence(r, fetched)
  {
    var r := ClientScope.OwnRows(fetched, ClientOf, user);
    ClientScope.OwnRowsInOrder(fetched, ClientOf, user);
    if HasRole(user, CLIENT) then
      assert forall c :: c in r <==> c in fetched && c.clientUsername == user.value.username by {
        forall c
          ensures c in r <==> c in fetched && c.clientUsername == user.value.username
        {
          ClientScope.OwnRowsExactly(fetched, ClientOf, user, c);
        }
      }
      r
    else r
  }

  const DefaultStyle := "bg-slate-50 text-slate-500 border-slate-100"

  /** `getStatusStyle`. */
  function StatusStyle(status: string): (style: string)
    ensures style == DefaultStyle <==> status !in {"RESOLVED", "UNDER_REVIEW", "RECEIVED", "REJECTED"}
  {
    match status
    case "RESOLVED" => "bg-emerald-100 text-emerald-700 border-emerald-200"
    case "UNDER_REVIEW" => "bg-blue-100 text-blue-700 border-blue-200"
    case "RECEIVED" => "bg-slate-100 text-slate-700 border-slate-200"
    case "REJECTED" => "bg-red-100 text-red-700 border-red-200"
    case _ => DefaultStyle
  }

  /** The badge text: `status.replace('_', ' ')`, which replaces the first underscore only. */
  function StatusLabel(status: string): (text: string)
    ensures |text| == |status|
    ensures '_' !in status ==> text == status
  {
    ReplaceFirst(status, '_', ' ')
  }

  /** The label has exactly one underscore fewer and one space more than the status, when it has one. */
  lemma StatusLabelOneUnderscore(status: string)
    requires '_' in status
    ensures multiset(StatusLabel(status)) == multiset(status) - multiset{'_'} + multiset{' '}
    ensures forall i :: 0 <= i < |status| && i != IndexOf(status, '_') ==> StatusLabel(status)[i] == status[i]
  {
    ReplaceFirstMultiset(status, '_', ' ');
  }

  /** The New Claim link: `user?.role === 'CLIENT'`. */
  predicate ShowsNewClaimLink(user: Option<ClientUser>)
  {
    HasRole(user, CLIENT)
  }

  /** The client name and the bullet after it: `user?.role === 'ADMIN'`. */
  predicate ShowsClientName(user: Option<ClientUser>)
  {
    HasRole(user, ADMIN)
  }

  lemma ControlsByRole(name: string, r: Role)
    ensures ShowsNewClaimLink(Some(ClientUser(name, Some(Name(r))))) <==> r == CLIENT
    ensures ShowsClientName(Some(ClientUser(name, Some(Name(r))))) <==> r == ADMIN
    ensures !(ShowsNewClaimLink(Some(ClientUser(name, Some(Name(r))))) && ShowsClientName(Some(ClientUser(name, Some(Name(r))))))
  {
    NameInjective(r, CLIENT);
    NameInjective(r, ADMIN);
  }
}
