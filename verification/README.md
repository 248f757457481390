# Account and session controllers, modelled in Dafny

This project models the account/session core of the back end's
authentication routes, `controllers/authControllers.js`: registration
(`signup`), login (`signin`), `logout`, `current`, avatar upload
(`avatars`) and `updateProfile`. Each controller is a pure transition

    State × request  →  Ok((State, Response))  |  Err(HttpError(status, message))

over an abstract user store. The store is a `map<Id, User>`, and each
`User` holds `email`, `password`, `token: Option<Token>`, `name`,
`subscription` and `avatarURL`. An error result carries no state, so the
store after a failed request is the store before it. The four error
values are module constants with the source's exact codes and messages:
409 "Email in use", 401 "Email or password is wrong", 400 "File not
found", and 400 "Upload filed try again" (the source's spelling).

Three collaborators stay abstract:

- **Password hashing.** As in the source, passwords and digests are both
  strings. `Hash` is an injective function from strings to strings. Its
  result starts with a fixed digest header, so it is never its own input.
  `CompareHash(p, h)` is `h == Hash(p)`. A digest string can be hashed
  again, and it can be offered as a password like any other string.
- **Token signing.** `IssueToken` makes a token from a counter. The token
  names its subject id and has a serial number that no earlier token has.
  The state records every token issued so far (`issued`).
- **The gravatar URL.** It is the function-typed parameter
  `gravatar: string -> string` of `Signup`.

`findUser(email)` destructured as `[user]` is modelled as "the record with
the least id holding that email". Ids come from a counter, so this is the
earliest record created. The state invariant `UserStore.Valid` says:

- ids and token serials are below their counters;
- a stored token was issued, and for that very record;
- a stored password has the shape of a digest, or is the empty string (see Findings).

Every controller preserves `Valid`.

Files:

- `types.dfy`: the data model.
- `password_hash.dfy`: the abstract hash.
- `user_store.dfy`: the store, the lookup, the patch-style `updateUser`, and token issuing.
- `auth_controllers.dfy`: the six controllers, plus the corrected `updateProfile`.
- `auth_properties.dfy`: lemmas that relate several calls.

In these places the model follows the code rather than what its messages
and names suggest:

- The avatar error message is spelled "Upload filed try again".
- `updateProfile` does not hash the new password (see Findings).
- `updateProfile` does not keep emails unique.
- Truthiness decides both guards: an empty `path` counts as a missing
  path, and an empty `password` in the profile body skips hashing.

## Model

| member | source | states |
|---|---|---|
| AuthControllers.Signup | controllers/authControllers.js:21-47 | Fails with (409, "Email in use") exactly when some record holds the email. Otherwise it adds exactly one record under a fresh id and leaves every other record as it was. The new record's password is Hash(plaintext), its avatarURL is gravatar(email), and its stored token is the returned token, which no earlier token equals. The status is 201. |
| AuthControllers.Signin | controllers/authControllers.js:50-71 | Every failure is (401, "Email or password is wrong"). It succeeds exactly when the first record with the email has a password that verifies. On success that record gets a fresh token, and no other field and no other record changes. |
| AuthControllers.Logout | controllers/authControllers.js:74-80 | The caller's token becomes null and the response is 204. Every other field, every other record and the issued-token history stay the same. |
| AuthControllers.Current | controllers/authControllers.js:83-87 | The store is unchanged. The response is 200 carrying exactly the email and subscription of the authenticated record. |
| AuthControllers.Avatars | controllers/authControllers.js:90-107 | No file gives (400, "File not found"). A file with a missing or empty path gives (400, "Upload filed try again"). Otherwise only avatarURL changes, and it becomes the path. |
| AuthControllers.UpdateProfile | controllers/authControllers.js:111-121 | The body overrides the record field by field, and absent fields keep their values. The token is untouched. With no password in the body, the password is unchanged. A non-empty password stores Hash(old stored digest string). An empty one stores "". |
| AuthControllers.GuardedBody | controllers/authControllers.js:114-116 | A truthy body password is replaced by the digest of the caller's stored password string. Any other body password is kept as given. Name, email, subscription and avatarURL pass through unchanged. The guarded body never carries a token. |
| AuthControllers.CurrentFields | controllers/authControllers.js:112 | Writing back the caller's own name, email and password changes nothing in the record. |
| AuthControllers.Spread | controllers/authControllers.js:117 | In `{ ...base, ...over }`, every field present in `over` (name, email, password, subscription, avatarURL, token) wins; otherwise the value from `base` is kept. Spreading over an empty patch, or spreading an empty base, changes nothing. |
| AuthControllers.SpreadIsSequentialPatch | controllers/authControllers.js:117-118 | Writing the spread of two patches has the same effect as writing the first patch and then the second. |
| AuthControllers.UpdateProfileIntended | controllers/authControllers.js:114-117 | Corrected update: the same field-by-field merge, but the stored password is the digest of the new password, which therefore verifies. |
| UserStore.FindUser | controllers/authControllers.js:23 | Returns nothing exactly when no record holds the email. Otherwise it returns the first (least-id) record that holds it. |
| UserStore.CreateUser | controllers/authControllers.js:32-35 | Stores the record under an id no record had, and keeps every existing record. |
| UserStore.IssueToken | controllers/authControllers.js:37-39 | The token names the given subject and is not among the tokens issued before. Afterwards it is recorded as issued. |
| UserStore.ApplyPatch | controllers/authControllers.js:41 | Each field present in the patch overwrites the record's field. Each absent field keeps its value. |
| UserStore.UpdateUser | controllers/authControllers.js:41 | The patched record becomes the patch applied to it. The id set, every other record and the counters stay the same. |
| PasswordHash.Hash | controllers/authControllers.js:30 | A digest has the digest shape and never equals the string it was made from. |
| PasswordHash.HashInjective | controllers/authControllers.js:30 | Two strings have the same digest exactly when they are equal. |
| PasswordHash.CompareHash | controllers/authControllers.js:58 | A successful comparison means the stored value has the digest shape and is not the offered password itself. |
| PasswordHash.CompareHashRoundTrip | controllers/authControllers.js:58 | A digest of p verifies against p, and against no other string. |
| AuthProperties.SignupPreservesValid | controllers/authControllers.js:28-41 | Registration keeps the state invariant. |
| AuthProperties.SigninPreservesValid | controllers/authControllers.js:64-68 | Login keeps the state invariant. |
| AuthProperties.LogoutPreservesValid | controllers/authControllers.js:77 | Logout keeps the state invariant. |
| AuthProperties.AvatarsPreservesValid | controllers/authControllers.js:102 | Setting the avatar keeps the state invariant. |
| AuthProperties.UpdateProfilePreservesValid | controllers/authControllers.js:114-118 | The profile update keeps the state invariant. |
| AuthProperties.SignupTwiceConflicts | controllers/authControllers.js:22-26 | After one successful registration, a second one with the same email fails with 409, whatever its password. |
| AuthProperties.SignupPreservesUniqueEmails | controllers/authControllers.js:22-35 | Registration never creates a second record for an email. |
| AuthProperties.SignupStoresDigest | controllers/authControllers.js:30-35 | The stored password is not the plaintext, and the plaintext verifies against it. |
| AuthProperties.SigninFailuresIndistinguishable | controllers/authControllers.js:54-62 | An unknown email and a wrong password give the identical result. |
| AuthProperties.SigninWithUniqueEmails | controllers/authControllers.js:52-62 | While emails are unique, login succeeds exactly when some record holds the email and the password verifies. |
| AuthProperties.SigninReplacesToken | controllers/authControllers.js:64-68 | After login, the user's previous token is no longer the stored token, and no record stores it. |
| AuthProperties.LogoutIdempotent | controllers/authControllers.js:77 | Logging out twice yields the same state and response as logging out once. |
| AuthProperties.LogoutRevokesToken | controllers/authControllers.js:77 | After logout, no record stores the caller's former token. |
| AuthProperties.CurrentDisclosesOnlyEmailAndSubscription | controllers/authControllers.js:84-86 | Two records that agree on email and subscription get the same answer. |
| AuthProperties.UpdateProfileStoresHashOfOldDigest | controllers/authControllers.js:112-118 | After an update with a non-empty new password, exactly one password verifies: the previous stored digest string. The new password verifies only if it equals that string. |
| AuthProperties.UpdateProfileEmptyPasswordStoredPlain | controllers/authControllers.js:114-117 | An empty password in the body is persisted unhashed as "", and no password verifies against it. |
| AuthProperties.UpdateProfileIntendedAcceptsNewPassword | controllers/authControllers.js:114-117 | With the corrected update, the new password verifies and no other one does. |
| AuthProperties.UpdateProfileMayDuplicateEmail | controllers/authControllers.js:117-118 | Gives a store with unique emails from which one profile update reaches two records with the same email. |
| AuthProperties.SessionScenario | controllers/authControllers.js:21-80 | Register, then log in, then log out. The login token differs from the registration token, the registration token ends up stored nowhere, and after logout the login token is stored nowhere. |

## Left out

- JWT signing and expiry (`jsonwebtoken`): a token is an opaque value from a counter, and there is no time.
- bcrypt: salting and the cost factor are left out. `helpers/passwordHash.js` is not part of this model; its pair of functions is the abstract `Hash`/`CompareHash`. Injectivity of `Hash` is an idealisation: bcrypt ignores input bytes past the 72nd, and its digests have a fixed length. The header-plus-input stand-in for a digest is longer than its input, but no contract relies on that.
- `gravatar.url`: an external library, modelled as a function parameter.
- The persistence service (`services/authServise.js`) is not part of this model. Its calls are map operations that always succeed, so store failures are not modelled. That covers the catch/rethrow of `avatars`, and a failure between creating a record and storing its token in `signup`.
- The response document that `updateUser`/`updateAvatar` return is modelled as the stored record. Any projection the service applies (for example hiding the password) is not visible.
- The authentication middleware that sets `req.user` is not part of this model. The authenticated controllers take an id that is in the store. So the property "a superseded token is refused at the gate" is stated only as "no record stores it any more".
- Express `req`/`res` plumbing: only status codes, messages and payloads are kept.
- Request body fields beyond the modelled ones are left out. For `signup` those are email, password, name and subscription. For `updateProfile` they are name, email, password, subscription and avatarURL. A body that sets `token` or `_id` is not modelled.
- Google OAuth (`googleAuth`, `googleRedirect`): these are network calls, they are not exported, and their imports are commented out.
- The commented-out controllers, and the environment configuration (`SECRET_KEY`, `EXPIRES_TIME`, `BASE_URL`).
- UserStore.IssueToken: `jwt.sign` is deterministic over the subject id and the issue time in whole seconds, so two tokens for one user signed within the same second are equal. The model's counter makes every token fresh, which the real signer does not promise.
- AuthProperties.SigninReplacesToken: the new token differs from the old one only under the fresh-token idealisation of IssueToken. A second login within one second of the first leaves the same token stored.
- AuthProperties.SessionScenario: the login token differs from the registration token only under the fresh-token idealisation of IssueToken. In the source, a signup and a signin within the same second yield the same token.
- AuthProperties.SignupPreservesUniqueEmails: each controller is one atomic step. In the source, the lookup at line 23 and the creation at line 32 are separate awaits. So two concurrent signups for one email can both pass the check and both create a record. Uniqueness holds only for requests handled one at a time.
- AuthControllers.UpdateProfile: a body field sent as JSON `null` is treated as absent. In the source, `null` is falsy, so the password guard skips it. The spread at line 117 then writes `null` over the stored name, email or password. The model instead keeps the stored value.
- AuthProperties.UpdateProfilePreservesValid: email uniqueness is not among the invariants `updateProfile` preserves, because it does not check it (see UpdateProfileMayDuplicateEmail).

## Findings

| source | as written | input that shows it | evidently intended | confidence | as-written member | corrected member |
|---|---|---|---|---|---|---|
| controllers/authControllers.js:115 | A new password is replaced by `createHash(password)`, where `password` is the stored digest destructured from `req.user` at line 112 | Any stored user, body `{ password: "new" }`: afterwards "new" does not verify, and the only password that does is the old stored digest string | Hash the new plaintext from the body | high, not executed | AuthProperties.UpdateProfileStoresHashOfOldDigest | AuthControllers.UpdateProfileIntended |
| controllers/authControllers.js:114 | The guard `if (req.body.password)` lets an empty string through unhashed, and the spread at line 117 stores it | Body `{ password: "" }`: the stored password becomes "" unhashed | Hash any password the body carries | low (a request validator might reject it upstream), not executed | AuthProperties.UpdateProfileEmptyPasswordStoredPlain | AuthControllers.UpdateProfileIntended |

`UpdateProfile` itself stays the as-written model of the controller.
`UpdateProfileIntended` shows the corrected behaviour, and
`UpdateProfileIntendedAcceptsNewPassword` proves its property.
