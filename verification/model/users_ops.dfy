/**
 * Creating an account (users/serializers.py): `UserSerializer.create`
 * pops the nested `client_profile`, creates the user, and creates a client
 * profile only for a CLIENT that supplied one.
 */
module UsersOps {
  import opened Wrappers
  import opened Roles
  import opened Accounts
  import opened Database

  /** The validated `client_profile`: `balance` may be left out and then takes its default. */
  datatype ProfileInput = ProfileInput(companyName: Option<string>, address: string, phoneNumber: string, balance: Option<real>)

  /** The validated data of a new user; `client_profile` is optional. */
  datatype UserInput = UserInput(username: string, email: string, role: Role, clientProfile: Option<ProfileInput>)

  /** `ClientProfile.objects.create(user=user, **profile_data)`: the supplied fields, and a balance of 0 by default. */
  function NewProfile(p: ProfileInput): (c: ClientProfile)
    ensures c.companyName == p.companyName && c.address == p.address && c.phoneNumber == p.phoneNumber
    ensures p.balance.None? ==> c.balance == 0.0
  {
    ClientProfile(p.companyName, p.address, p.phoneNumber, if p.balance.Some? then p.balance.value else 0.0)
  }

  /** The profile that `create` writes, if any: only a CLIENT with profile data gets one. */
  function ProfileFor(input: UserInput): (p: Option<ClientProfile>)
    ensures p.Some? <==> input.role == CLIENT && input.clientProfile.Some?
  {
    if input.role == CLIENT && input.clientProfile.Some? then Some(NewProfile(input.clientProfile.value)) else None
  }

  /** Profile data sent for an ADMIN, AGENT or DRIVER is dropped without an error. */
  lemma NonClientProfileDiscarded(input: UserInput, data: ProfileInput)
    requires input.role != CLIENT
    ensures ProfileFor(input.(clientProfile := Some(data))) == None
    ensures ProfileFor(input.(clientProfile := Some(data))) == ProfileFor(input.(clientProfile := None))
  {
  }

  /** The user row: `client_profile` is not a column of the user table. */
  function NewUser(input: UserInput): (u: User)
    ensures u.username == input.username && u.email == input.email && u.role == input.role
  {
    User(input.username, input.email, input.role)
  }

  /**
   * `UserSerializer.create`: exactly one user is inserted under a fresh key,
   * and a profile under the same key exactly when `ProfileFor` gives one.
   * No other row changes.
   */
  method CreateUser(db: Store, input: UserInput) returns (id: nat)
    requires db.Valid()
    modifies db
    ensures db.Valid()
    ensures id == old(db.nextUser) && id !in old(db.users) && id !in old(db.profiles)
    ensures db.users == old(db.users)[id := NewUser(input)]
    ensures db.users.Keys == old(db.users).Keys + {id}
    ensures id in db.profiles <==> input.role == CLIENT && input.clientProfile.Some?
    ensures id in db.profiles ==> Some(db.profiles[id]) == ProfileFor(input)
    ensures forall k :: k != id ==> (k in db.profiles <==> k in old(db.profiles))
    ensures forall k :: k != id && k in db.profiles ==> db.profiles[k] == old(db.profiles)[k]
    ensures db.Snapshot() == old(db.Snapshot()).(users := db.users, profiles := db.profiles, nextUser := id + 1)
  {
    id := db.nextUser;
    db.nextUser := db.nextUser + 1;
    db.users := db.users[id := NewUser(input)];
    var profile := ProfileFor(input);
    if profile.Some? {
      db.profiles := db.profiles[id := profile.value];
    }
  }
}
