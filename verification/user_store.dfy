/** The persisted users, as far as the sign-in callback touches them: an
    abstract store keyed by user id, and the one update the callback issues. */
module UserStore {
  import opened Wrappers
  import opened Profile

  type UserId = string

  /** A persisted user. `None` is a `null` column. */
  datatype User = User(
    name: Option<string>,
    email: Option<string>,
    emailVerified: Option<Instant>,
    image: Option<string>,
    givenName: Option<string>,
    familyName: Option<string>,
    username: Option<string>
  )

  type Store = map<UserId, User>

  /** The `data` of the update: the three columns the provider owns. */
  datatype ProfileFields = ProfileFields(
    givenName: Option<string>,
    familyName: Option<string>,
    username: Option<string>
  )

  /** Why the update can throw: the store could not be reached or failed, or
      no user has the given id (the record-not-found error of an update). */
  datatype DbError = Unavailable | RecordNotFound

  /** `u` and `v` agree on every column outside the three the provider owns. */
  predicate SameLocalFields(u: User, v: User) {
    u.name == v.name && u.email == v.email && u.emailVerified == v.emailVerified && u.image == v.image
  }

  /** `v` carries exactly the provider-owned columns given by `data`. */
  predicate HasProfileFields(v: User, data: ProfileFields) {
    v.givenName == data.givenName && v.familyName == data.familyName && v.username == data.username
  }

  /** `after` is `before` with the three provider-owned columns of user `id`
      set from `data`, and nothing else changed: no user added or removed, no
      other user touched, no other column of `id` touched. */
  ghost predicate UpdatedOnly(before: Store, after: Store, id: UserId, data: ProfileFields) {
    && after.Keys == before.Keys
    && id in before
    && (forall k | k in before && k != id :: after[k] == before[k])
    && SameLocalFields(before[id], after[id])
    && HasProfileFields(after[id], data)
  }

  /** `update({ where: { id }, data })` on the user table; `dbOk` says whether
      the store is reachable and answers. */
  function UpdateUser(store: Store, id: UserId, data: ProfileFields, dbOk: bool): (r: Result<Store, DbError>)
    ensures r.Success? <==> dbOk && id in store
    ensures !dbOk ==> r == Failure(Unavailable)
    ensures dbOk && id !in store ==> r == Failure(RecordNotFound)
    ensures r.Success? ==> UpdatedOnly(store, r.value, id, data)
  {
    if !dbOk then Failure(Unavailable)
    else if id !in store then Failure(RecordNotFound)
    else
      var u := store[id];
      Success(store[id := u.(givenName := data.givenName, familyName := data.familyName, username := data.username)])
  }

  /** The frame condition pins the store down: there is only one store that is
      `before` updated at `id` with `data`. */
  lemma UpdatedOnlyUnique(before: Store, a1: Store, a2: Store, id: UserId, data: ProfileFields)
    requires UpdatedOnly(before, a1, id, data) && UpdatedOnly(before, a2, id, data)
    ensures a1 == a2
  {
    forall k | k in a1 ensures a1[k] == a2[k] {
      if k == id {
        assert a1[k] == User(before[id].name, before[id].email, before[id].emailVerified, before[id].image,
          data.givenName, data.familyName, data.username);
      }
    }
  }

  /** Issuing the same update twice leaves the store as issuing it once. */
  lemma UpdateIdempotent(store: Store, id: UserId, data: ProfileFields)
    requires UpdateUser(store, id, data, true).Success?
    ensures UpdateUser(UpdateUser(store, id, data, true).value, id, data, true)
         == UpdateUser(store, id, data, true)
  {
    var s1 := UpdateUser(store, id, data, true).value;
    var s2 := UpdateUser(s1, id, data, true).value;
    assert UpdatedOnly(store, s2, id, data);
    UpdatedOnlyUnique(store, s1, s2, id, data);
  }
}
