/** The `session` callback: the session object handed to the application is
    the library's session with `user.id` set to the persisted user's id. */
module Session {
  import opened Wrappers

  /** A JavaScript value as it can appear in a session object. Numbers are
      carried as integers: the callback only copies them. */
  datatype JsValue =
    | JsNull
    | JsBool(b: bool)
    | JsNumber(n: int)
    | JsString(s: string)
    | JsObject(props: map<string, JsValue>)

  /** The own properties of an object; an absent key is an `undefined` property. */
  type Props = map<string, JsValue>

  /** The property `key` of `o`, `None` when it is undefined. */
  function Get(o: Props, key: string): Option<JsValue> {
    if key in o then Some(o[key]) else None
  }

  /** The properties `{...v}` copies: an object's own properties, and none for
      `undefined`, `null`, a boolean or a number. */
  function Spread(v: Option<JsValue>): (r: Props)
    requires !(v.Some? && v.value.JsString?)
    ensures v.Some? && v.value.JsObject? ==> r == v.value.props
    ensures !(v.Some? && v.value.JsObject?) ==> r == map[]
  {
    match v
    case Some(JsObject(props)) => props
    case _ => map[]
  }

  /** The declared session type makes `user` an object, so it is never a string
      (spreading a string would copy its characters). */
  predicate WellTypedUser(session: Props) {
    !(Get(session, "user").Some? && Get(session, "user").value.JsString?)
  }

  /** The user properties of `session` as the callback copies them. */
  function UserProps(session: Props): Props
    requires WellTypedUser(session)
  {
    Spread(Get(session, "user"))
  }

  /** `{ ...session, user: { ...session.user, id: user.id } }`. */
  function SessionCallback(session: Props, userId: string): (r: Props)
    requires WellTypedUser(session)
    ensures r.Keys == session.Keys + {"user"}
    ensures forall k | k in session && k != "user" :: r[k] == session[k]
    ensures r["user"].JsObject?
    ensures r["user"].props.Keys == UserProps(session).Keys + {"id"}
    ensures r["user"].props["id"] == JsString(userId)
    ensures forall k | k in UserProps(session) && k != "id" :: r["user"].props[k] == UserProps(session)[k]
  {
    session["user" := JsObject(UserProps(session)["id" := JsString(userId)])]
  }

  /** `session.user.id`, as the application reads it, when it is a string. */
  function UserIdOf(session: Props): Option<string> {
    match Get(session, "user")
    case Some(JsObject(u)) =>
      (match Get(u, "id")
       case Some(JsString(id)) => Some(id)
       case _ => None)
    case _ => None
  }

  /** After the callback the application reads back exactly the persisted id. */
  lemma CallbackSetsUserId(session: Props, userId: string)
    requires WellTypedUser(session)
    ensures UserIdOf(SessionCallback(session, userId)) == Some(userId)
  {
    var r := SessionCallback(session, userId);
    assert Get(r, "user") == Some(r["user"]);
  }

  /** The id written last is the one that counts: running the callback again
      with another id is the same as running it once with that id. */
  lemma CallbackLastIdWins(session: Props, a: string, b: string)
    requires WellTypedUser(session)
    ensures WellTypedUser(SessionCallback(session, a))
    ensures SessionCallback(SessionCallback(session, a), b) == SessionCallback(session, b)
  {
    var once := SessionCallback(session, a);
    var twice := SessionCallback(once, b);
    var direct := SessionCallback(session, b);
    assert Get(once, "user") == Some(once["user"]);
    assert twice["user"].props == direct["user"].props;
    assert twice.Keys == direct.Keys;
    forall k | k in twice ensures twice[k] == direct[k] {
    }
  }
}
