/** The `profile(profile)` mapping that both identity providers use to turn the
    claims returned by the userinfo endpoint into the user record the
    authentication library stores. */
module Profile {
  import opened Wrappers
  import opened JsText

  /** A point in time, as produced by `new Date()`; the clock is a parameter. */
  type Instant = int

  /** The claims the identity provider returns. Every field but the subject is
      optional; `None` stands for a claim that is absent or `null`. */
  datatype Claims = Claims(
    sub: string,                         // `sub`
    email: Option<string>,               // `email`
    givenName: Option<string>,           // `given_name`
    familyName: Option<string>,          // `family_name`
    name: Option<string>,                // `name`
    preferredUsername: Option<string>,   // `preferred_username`
    emailVerified: Option<bool>,         // `email_verified`
    picture: Option<string>              // `picture`
  )

  /** The user record handed back to the authentication library; `None` is `null`. */
  datatype NormalizedUser = NormalizedUser(
    id: string,
    name: Option<string>,
    email: Option<string>,
    image: Option<string>,
    emailVerified: Option<Instant>
  )

  /** JavaScript truthiness of the `email_verified` claim: only `true` is truthy. */
  predicate VerifiedClaimTruthy(v: Option<bool>) {
    v == Some(true)
  }

  /** The given and family names joined by one space, an absent part read as "". */
  function JoinedNames(c: Claims): string {
    c.givenName.GetOr("") + " " + c.familyName.GetOr("")
  }

  /** The display name: an explicit `name` claim wins, even when it is empty;
      otherwise the trimmed join of the given and family names when either of
      them is a non-empty string; otherwise no name at all. */
  function DisplayName(c: Claims): (r: Option<string>)
    ensures c.name.Some? ==> r == c.name
    ensures r.None? <==> c.name.None? && !Truthy(c.givenName) && !Truthy(c.familyName)
    ensures c.name.None? && r.Some? ==> IsTrimOf(JoinedNames(c), r.value)
  {
    match c.name
    case Some(n) => Some(n)
    case None =>
      if Truthy(c.givenName) || Truthy(c.familyName) then Some(Trim(JoinedNames(c)))
      else None
  }

  /** The whole `profile(profile)` mapping; `now` is the time the mapping runs. */
  function Normalize(c: Claims, now: Instant): (r: NormalizedUser)
    ensures r.id == c.sub
    ensures r.name == DisplayName(c)
    ensures r.email == c.email && r.image == c.picture
    ensures r.emailVerified.Some? <==> VerifiedClaimTruthy(c.emailVerified)
    ensures r.emailVerified.Some? ==> r.emailVerified.value == now
  {
    NormalizedUser(
      c.sub,
      DisplayName(c),
      c.email,
      c.picture,
      if VerifiedClaimTruthy(c.emailVerified) then Some(now) else None)
  }

  /** With no `name` claim, a lone unpadded given name becomes the display name
      unchanged: the separating space added by the join is trimmed away. */
  lemma GivenNameAlone(c: Claims)
    requires c.name.None? && Truthy(c.givenName) && NoEdgeWhitespace(c.givenName.value)
    requires !Truthy(c.familyName)
    ensures DisplayName(c) == c.givenName
  {
    var g := c.givenName.value;
    var j := JoinedNames(c);
    assert j == g + " ";
    assert j[..|g|] == g && j[|g|..] == " " && j[..0] == [];
    assert TrimBounds(j, 0, |g|);
    TrimUnique(j, Trim(j), g);
  }

  /** With no `name` claim, a lone unpadded family name becomes the display name. */
  lemma FamilyNameAlone(c: Claims)
    requires c.name.None? && Truthy(c.familyName) && NoEdgeWhitespace(c.familyName.value)
    requires !Truthy(c.givenName)
    ensures DisplayName(c) == c.familyName
  {
    var f := c.familyName.value;
    var j := JoinedNames(c);
    assert j == " " + f;
    assert j[..1] == " " && j[|j|..] == [] && j[1..|j|] == f;
    assert TrimBounds(j, 1, |j|);
    TrimUnique(j, Trim(j), f);
  }

  /** With no `name` claim and both names non-empty and unpadded, the display
      name is exactly "given family". */
  lemma GivenAndFamilyName(c: Claims)
    requires c.name.None? && Truthy(c.givenName) && Truthy(c.familyName)
    requires NoEdgeWhitespace(c.givenName.value) && NoEdgeWhitespace(c.familyName.value)
    ensures DisplayName(c) == Some(c.givenName.value + " " + c.familyName.value)
  {
    var j := JoinedNames(c);
    assert j[0] == c.givenName.value[0];
    assert j[|j| - 1] == c.familyName.value[|c.familyName.value| - 1];
    TrimKeepsUnpadded(j);
  }

  /** A given name made only of whitespace still counts as present, so the
      display name is the empty string rather than null. */
  lemma BlankGivenNameGivesEmptyName(c: Claims)
    requires c.name.None? && Truthy(c.givenName) && AllWhitespace(c.givenName.value)
    requires !Truthy(c.familyName)
    ensures DisplayName(c) == Some("")
  {
    var j := JoinedNames(c);
    assert c.familyName.GetOr("") == "";
    assert j == c.givenName.value + " ";
    assert AllWhitespace(j) by {
      forall i | 0 <= i < |j| ensures IsJsWhitespace(j[i]) {
        if i < |c.givenName.value| { assert j[i] == c.givenName.value[i]; }
      }
    }
    TrimEmptyIffAllWhitespace(j);
  }

  /** The example of a sign-in with only `given_name = "Ali"`. */
  lemma AliExample(sub: string)
    ensures DisplayName(Claims(sub, None, Some("Ali"), None, None, None, None, None)) == Some("Ali")
  {
    GivenNameAlone(Claims(sub, None, Some("Ali"), None, None, None, None, None));
  }

  /** The clock only reaches the `emailVerified` field: normalising the same
      claims at two times gives records that agree everywhere else. */
  lemma ClockOnlyAffectsVerification(c: Claims, t1: Instant, t2: Instant)
    ensures Normalize(c, t1).(emailVerified := None) == Normalize(c, t2).(emailVerified := None)
    ensures Normalize(c, t1).emailVerified.None? == Normalize(c, t2).emailVerified.None?
  {
  }

  /** The mapping never reads `preferred_username`, and once a `name` claim is
      present it no longer reads the given and family names either. */
  lemma NormalizeIgnoresUnusedClaims(c: Claims, given: Option<string>, family: Option<string>, username: Option<string>, now: Instant)
    ensures Normalize(c.(preferredUsername := username), now) == Normalize(c, now)
    ensures c.name.Some? ==> Normalize(c.(givenName := given, familyName := family), now) == Normalize(c, now)
  {
  }
}
