# TaraftarCell OAuth2 demo — authentication callbacks in Dafny

This project models the logic of the application's NextAuth configuration
(`src/server/auth/config.ts`). The application signs users in through two
OAuth2 identity providers, Fenertalk and Galatalk. Both are served by the
same TaraftarCell authorization server. The model covers four parts:

- **Profile mapping** (`Profile`). Each provider has a `profile(profile)`
  function that turns the userinfo claims into the user record the library
  stores: `id`, `name`, `email`, `image`, `emailVerified`. The two copies are
  textually identical, so one function, `Profile.Normalize`, models both. The
  display name mixes JavaScript `??` (only `null`/`undefined` are absent) with
  `||` truthiness (an empty string is absent too), then joins given and family
  name with a space and trims. `JsText` models truthiness and
  `String.prototype.trim`. Trim is also specified independently as "the unique
  slice with whitespace-only margins and no whitespace at its edges". The
  clock (`new Date()`) is the parameter `now`.
- **Provider table** (`Providers`). The static table is modelled as data: every
  endpoint is the base URL plus a fixed suffix, the issuer ends in `/`, PKCE is
  the only check, and both providers use the same profile mapping.
- **`signIn` callback** (`UserStore`, `SignIn`). For a login through
  `fenertalk` or `galatalk` with an account and a profile, the callback updates
  three columns of the user: `givenName`, `familyName` and `username`. The
  store is a `map<UserId, User>`. The update can fail: `dbOk` says whether the
  store answers, and a missing user id makes the update fail as well. The
  callback returns `true` on every path. A failed update is caught; the model
  reports the error in `caught` and leaves the store as it was.
- **`session` callback** (`Session`). JavaScript objects are modelled as maps
  from property names to values, and object spread is modelled as map update.
  The callback returns the session with `user.id` replaced by the persisted
  user's id and every other property kept.

Behaviour of the code that the model keeps:
- `sub` is typed as a required string and is copied to `id` without a check.
- An explicit `name` claim wins even when it is the empty string.
- Given and family names count only when they are non-empty strings.
- A whitespace-only given name gives the display name `""`, not `null`
  (`Profile.BlankGivenNameGivesEmptyName`).
- The given name, family name and preferred username never pass through the
  profile mapping. They reach the store only through the `signIn` update.

## Model

| member | source | states |
|---|---|---|
| JsText.Trim | src/server/auth/config.ts:90 | the `.trim()` result is a slice of the input whose cut-off margins are all whitespace and which has no whitespace at either end |
| JsText.TrimUnique | src/server/auth/config.ts:90 | only one string meets that description, so the specification pins `.trim()` down |
| JsText.TrimKeepsUnpadded | src/server/auth/config.ts:90 | a string with no whitespace at either end is returned unchanged |
| JsText.TrimIdempotent | src/server/auth/config.ts:90 | trimming twice equals trimming once |
| JsText.TrimEmptyIffAllWhitespace | src/server/auth/config.ts:90 | the trimmed string is empty exactly when the input is all whitespace |
| Profile.DisplayName | src/server/auth/config.ts:87-91 | a present `name` (even "") is the result; the result is null iff `name` is absent and neither given nor family name is a non-empty string; otherwise it is the trim of "given family" |
| Profile.Normalize | src/server/auth/config.ts:84-96 | `id` is the subject; `name` is the display name; `email` and `image` pass through, null when absent; `emailVerified` is set iff `email_verified` is `true`, and is then `now` |
| Profile.GivenNameAlone | src/server/auth/config.ts:89-90 | with no `name` and only an unpadded given name, the display name is that given name (the added space is trimmed) |
| Profile.FamilyNameAlone | src/server/auth/config.ts:89-90 | with no `name` and only an unpadded family name, the display name is that family name |
| Profile.GivenAndFamilyName | src/server/auth/config.ts:89-90 | with no `name` and both names non-empty and unpadded, the display name is "given family" |
| Profile.BlankGivenNameGivesEmptyName | src/server/auth/config.ts:89-91 | a whitespace-only given name is truthy, so the display name is the empty string rather than null |
| Profile.AliExample | src/server/auth/config.ts:89-90 | claims with only `given_name = "Ali"` give the display name "Ali" |
| Profile.ClockOnlyAffectsVerification | src/server/auth/config.ts:94 | the time of mapping affects only `emailVerified`; whether it is set does not depend on the time |
| Profile.NormalizeIgnoresUnusedClaims | src/server/auth/config.ts:84-96 | `preferred_username` never affects the mapped user, and given and family names do not affect it once `name` is present |
| Providers.TableShape | src/server/auth/config.ts:49-131 | every provider is an OAuth provider whose issuer is the base URL plus "/" and whose endpoints are the base URL plus fixed suffixes; it asks for response type `code` with PKCE as the only check, has issuer validation off and no signing algorithms, and requests the scopes "profile email <id>.read <id>.write" |
| Providers.ProvidersShareProfileMapping | src/server/auth/config.ts:133-145 | the Galatalk profile mapping is the same as the Fenertalk one |
| Providers.TableIds | src/server/auth/config.ts:51-105 | the table holds exactly "fenertalk" and "galatalk", each with its own client id and secret |
| UserStore.UpdateUser | src/server/auth/config.ts:173-180 | the update succeeds iff the store answers and the user exists; on success only the three provider-owned columns of that user change, to the given values; otherwise it reports which error occurred |
| UserStore.UpdatedOnlyUnique | src/server/auth/config.ts:173-180 | the "only these columns change" condition determines the updated store completely |
| UserStore.UpdateIdempotent | src/server/auth/config.ts:173-180 | repeating the same update changes nothing further |
| SignIn.SignIn | src/server/auth/config.ts:163-188 | the callback allows the login on every path; without an account, a profile or a TaraftarCell provider the store is untouched; with them and a working store it updates only the three columns of `user.id`; when the update fails the store is untouched and the error is caught |
| SignIn.GateMatchesProviderTable | src/server/auth/config.ts:165-169 | the provider test in the callback accepts exactly the providers of the table |
| SignIn.SignInIdempotent | src/server/auth/config.ts:163-188 | signing in twice with the same claims leaves the store as signing in once |
| SignIn.RepeatLoginKeepsLocalFields | src/server/auth/config.ts:173-180 | on a repeat login the email, avatar, display name and verification time stay as stored, and the three provider columns take the new claims (absent ones are cleared) |
| Session.SessionCallback | src/server/auth/config.ts:154-161 | the result keeps every top-level session property and every `session.user` property except `id`, and `user.id` is the persisted user's id |
| Session.CallbackSetsUserId | src/server/auth/config.ts:154-161 | reading `session.user.id` after the callback gives exactly the persisted id |
| Session.CallbackLastIdWins | src/server/auth/config.ts:154-161 | running the callback again with another id is the same as running it once with that id |

## Left out

- The OAuth2 authorization-code flow is not modelled: PKCE verifier and challenge (RFC 7636), `state`, token exchange, userinfo fetch and OpenID Connect Discovery. The `next-auth` library performs them, and its code is not part of this model. The configuration only selects them, and `Providers` records that selection as data.
- Account linking and session persistence are not modelled. `PrismaAdapter` (line 148) performs them, and its code is not part of this model. This covers find-or-create of users and accounts, (provider, subject) uniqueness, and session expiry and revocation.
- Whether `user.id` already exists in the store when `signIn` runs is decided by the library. The model covers both cases. A missing id makes the update fail with `RecordNotFound`, and sign-in still succeeds.
- Environment loading, `trustHost`, the `"database"` session strategy, and the `NODE_ENV` switches for secure cookies and debug output (lines 190-194) are configuration and are not modelled. `Providers.Env` stands in for the environment values the table reads.
- The model does not write the `console.error` log line. The error that would be logged is returned in `Outcome.caught`.
- The clock is the `now` parameter. A `Date` is an `Instant` (an integer), and date formatting is not modelled.
- Session.SessionCallback: spreading a string value (which copies its characters under index keys) is not modelled. The declared session type (lines 14-21) makes `user` an object, and `SessionCallback` requires that `user` is not a string.
- Numbers inside session values are integers, not IEEE doubles, because the session callback only copies them.
- Session values have no case for arrays, `Date` objects (such as the adapter user's `emailVerified`) or own properties whose value is `undefined`. The session callback only copies property values, so its contract does not depend on what those values are.
- Strings are sequences of Unicode scalar values, while JavaScript strings are sequences of UTF-16 code units. A claim holding a lone surrogate cannot be represented. On every well-formed string `Trim` and `Truthy` agree with JavaScript, because every character `trim` removes lies in the Basic Multilingual Plane.
- The module augmentation of the `Session` type (lines 13-27) is not modelled. Only its consequence, that `user` is an object, is used.
