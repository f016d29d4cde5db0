/** The `signIn` callback: on a login through one of the two TaraftarCell
    providers it copies three claims onto the persisted user, best effort,
    and it always lets the login proceed. */
module SignIn {
  import opened Wrappers
  import opened Profile
  import opened UserStore
  import Providers

  /** The parts of the signing-in user and of the linked account that the
      callback reads. */
  datatype SignInUser = SignInUser(id: UserId)
  datatype Account = Account(provider: string)

  /** What the callback returns (`allowed`), the store it leaves behind, and the
      error it caught and logged, if any. */
  datatype Outcome = Outcome(allowed: bool, store: Store, caught: Option<DbError>)

  predicate IsTaraftarCellProvider(provider: string) {
    provider == "fenertalk" || provider == "galatalk"
  }

  /** The callback updates the store only when both the account and the
      profile are present and the account comes from one of the two providers. */
  predicate Enriches(account: Option<Account>, profile: Option<Claims>) {
    account.Some? && profile.Some? && IsTaraftarCellProvider(account.value.provider)
  }

  /** The update's `data`: each claim copied as is, an absent claim as `null`. */
  function ProfileFieldsOf(c: Claims): (d: ProfileFields)
    ensures d.givenName == c.givenName && d.familyName == c.familyName
    ensures d.username == c.preferredUsername
  {
    ProfileFields(c.givenName, c.familyName, c.preferredUsername)
  }

  /** The `signIn` callback; `dbOk` says whether the store answers the update. */
  function SignIn(user: SignInUser, account: Option<Account>, profile: Option<Claims>, store: Store, dbOk: bool): (r: Outcome)
    ensures r.allowed
    ensures !Enriches(account, profile) ==> r.store == store && r.caught.None?
    ensures Enriches(account, profile) && dbOk && user.id in store ==>
      r.caught.None? && UpdatedOnly(store, r.store, user.id, ProfileFieldsOf(profile.value))
    ensures Enriches(account, profile) && !(dbOk && user.id in store) ==>
      r.store == store && r.caught.Some?
  {
    if Enriches(account, profile) then
      match UpdateUser(store, user.id, ProfileFieldsOf(profile.value), dbOk)
      case Success(s) => Outcome(true, s, None)
      case Failure(e) => Outcome(true, store, Some(e))
    else
      Outcome(true, store, None)
  }

  /** The gate of the callback admits exactly the providers of the table. */
  lemma GateMatchesProviderTable(env: Providers.Env, provider: string)
    ensures IsTaraftarCellProvider(provider) <==> provider in Providers.ConfiguredIds(env)
  {
    Providers.TableIds(env);
  }

  /** Signing in twice with the same claims leaves the store as signing in once. */
  lemma SignInIdempotent(user: SignInUser, account: Option<Account>, profile: Option<Claims>, store: Store, dbOk: bool)
    ensures var once := SignIn(user, account, profile, store, dbOk).store;
      SignIn(user, account, profile, once, dbOk).store == once
  {
    var once := SignIn(user, account, profile, store, dbOk).store;
    if Enriches(account, profile) && dbOk && user.id in store {
      var data := ProfileFieldsOf(profile.value);
      var twice := SignIn(user, account, profile, once, dbOk).store;
      assert UpdatedOnly(store, twice, user.id, data);
      UpdatedOnlyUnique(store, once, twice, user.id, data);
    }
  }

  /** A repeat login overwrites the provider-owned columns from the new claims
      (an absent claim clears its column) but keeps the email, avatar, display
      name and verification time the user already has, whatever the new claims say. */
  lemma RepeatLoginKeepsLocalFields(user: SignInUser, provider: string, c: Claims, store: Store)
    requires IsTaraftarCellProvider(provider) && user.id in store
    ensures var after := SignIn(user, Some(Account(provider)), Some(c), store, true).store;
      && user.id in after
      && after[user.id].email == store[user.id].email
      && after[user.id].image == store[user.id].image
      && after[user.id].name == store[user.id].name
      && after[user.id].emailVerified == store[user.id].emailVerified
      && after[user.id].givenName == c.givenName
      && after[user.id].familyName == c.familyName
      && after[user.id].username == c.preferredUsername
  {
  }
}
