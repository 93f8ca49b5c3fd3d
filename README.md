# Authentication session of the library-management client

This project models the authentication provider of the library-management web
client: the component that owns the bearer token, mirrors it into local storage
and into the HTTP client's default `Authorization` header, keeps the current
user profile, and offers `loadUser`, `login`, `register`, `logout`,
`updateProfile` and `changePassword` together with the derived flags
`isAuthenticated` and `isAdmin`.

Every awaited request is replaced by the reply it received: a `Reply<T>` that is
either `Ok(payload)` or `Err(error)`. The error carries an optional response.
The response carries an optional body, and the body an optional `message`. Each
operation returns an `AuthResult` that is `Success` or `Failure(message)`.

Modules:

- `Values` (values.dfy): `Option`, JSON values and profiles.
- `Profiles` (profiles.dfy): the admin flag and the shallow merge that builds
  the new user from a profile-update response.
- `Http` (http.dfy): replies, the failure-message rule and the four fallback
  messages.
- `Credentials` (credentials.dfy): token truthiness (`isAuthenticated`), the
  header set at render time and the bearer header set on sign-in.
- `SessionSpec` (session_spec.dfy): the five slots as one `State`. Each operation
  is a pure step function, together with the states it passes through, one
  slot write at a time. Traces of operations are applied by `Run`. The lemmas
  `RunKeepsStoreMirrored`, `ReachableStoreMirrored`, `RunLoading`,
  `RunTokenProvenance`, `InertTraceChangesNothing`, `CredentialUntouched`,
  `LogoutEndsSession` and `RenderSynchronisesHeader` quantify over traces.
  The other lemmas fix one step or one scenario.
- `AuthSession` (session.dfy): class `Session`, whose fields are the five
  slots. Its methods update them in place. Each method is proved to yield the
  state and result of its step function. A ghost `history` records the state
  after every slot write. Each method is proved to append exactly its step's
  sequence of intermediate states, so the order of the writes is proved.

Where the code and the intended design disagree, the model follows the code:

- A failed validation (`loadUser` with a rejected identity check) removes the
  stored token and clears the in-memory token. It does not clear the current
  user. It does not touch the header either: the header still carries the
  rejected token until the next render writes `''`. The intended design clears
  the user and the header at once. `RejectedValidationKeepsUser` shows a
  reachable state in which the session is unauthenticated yet reports an
  administrator.
- `logout` deletes the header key, while a render writes the empty string. The
  model keeps the two apart: `None` is a deleted key, `Some("")` an empty one.
- A sign-in whose response carries an empty token writes the header
  `"Bearer "`, while a render with that token writes `''`. See
  `BearerHeaderMatchesRender`.
- A successful login or registration whose response lacks the token still
  reports success. Storage then holds the text "undefined", the in-memory token
  is absent and the header is "Bearer undefined". From then on storage and
  memory disagree. `SignInWithoutTokenDesynchronises` states this. The mirror
  lemmas hold for traces in which every successful sign-in carries a token.
- A profile update with no current user builds `{}` plus the response fields,
  so afterwards the current user is present.

## Model

| member | source | states |
|---|---|---|
| `Profiles.IsAdmin` | client/src/utils/AuthContext.js:128 | true exactly when a current user exists and its `membershipType` field is the string "Staff"; false for an absent user |
| `Profiles.MergeProfile` | client/src/utils/AuthContext.js:97 | the merged user has the union of both key sets; a key in the response takes the response's value; a key only in the old user keeps the old value; a null side contributes no keys |
| `Profiles.MergeIdempotent` | client/src/utils/AuthContext.js:97 | merging the same response twice gives the same user as merging it once |
| `Profiles.MergeEmptyResponse` | client/src/utils/AuthContext.js:97 | a response with no fields, or null data, leaves the user as it was |
| `Profiles.MergeExample` | client/src/utils/AuthContext.js:97 | {id:1, name:"A", membershipType:"Member"} merged with {name:"B"} is {id:1, name:"B", membershipType:"Member"} |
| `Http.ErrorMessage` | client/src/utils/AuthContext.js:53 | the message is the error body's message when present and non-empty, otherwise the fallback; it is non-empty whenever the fallback is |
| `Http.ResultOf` | client/src/utils/AuthContext.js:48-54 | the result is a success exactly when the request succeeded; a failure carries the message chosen by the fallback rule |
| `Http.FailureMessagesNonEmpty` | client/src/utils/AuthContext.js:117 | with each of the four fallbacks ("Login failed", "Registration failed", "Failed to update profile", "Failed to change password") a reported failure never has an empty message |
| `Http.DeclaredMessageWins` | client/src/utils/AuthContext.js:53 | a rejection with body {message:"Invalid credentials"} reports "Invalid credentials" |
| `Http.MissingMessageFallsBack` | client/src/utils/AuthContext.js:77 | no response, no body, no message and an empty message all give the fallback |
| `Credentials.IsAuthenticated` | client/src/utils/AuthContext.js:127 | authenticated exactly when the token is present and non-empty |
| `Credentials.BearerHeader` | client/src/utils/AuthContext.js:46 | the sign-in header is "Bearer " followed by exactly the new token |
| `Credentials.AuthorizationHeader` | client/src/utils/AuthContext.js:12 | the render-time header is non-empty exactly when the session is authenticated, and then it is "Bearer " followed by exactly the token |
| `Credentials.HeaderDeterminesToken` | client/src/utils/AuthContext.js:12 | two token slots that give the same non-empty header hold the same token |
| `Credentials.BearerHeaderMatchesRender` | client/src/utils/AuthContext.js:70 | the header written on sign-in equals the render-time header exactly when the new token is non-empty |
| `SessionSpec.AsString` | client/src/utils/AuthContext.js:41 | a present token is stored and sent as itself; a missing one becomes the text "undefined" |
| `SessionSpec.RenderStep` | client/src/utils/AuthContext.js:12 | a render sets the header to the render-time header of the token and changes no other slot |
| `SessionSpec.Initial` | client/src/utils/AuthContext.js:7-12 | at mount storage and memory hold the persisted token, there is no user, loading is true and the header is the render-time header of that token |
| `SessionSpec.LoadUserStep` | client/src/utils/AuthContext.js:16-29 | validation always ends loading and never writes the header; the token is kept or cleared; the user is kept or becomes the accepted response data; storage and memory stay equal if they were |
| `SessionSpec.SignInStep` | client/src/utils/AuthContext.js:35-80 | success exactly when the reply succeeded; on failure the state is unchanged; on success the token and user are the reply's, and storage and the header receive the token as text; loading is kept |
| `SessionSpec.LogoutStep` | client/src/utils/AuthContext.js:83-91 | after logout the session is neither authenticated nor admin, storage equals memory, the header key is gone and loading is kept |
| `SessionSpec.UpdateProfileStep` | client/src/utils/AuthContext.js:94-106 | success exactly when the reply succeeded; only the user can change, and on success a user is present; on failure nothing changes |
| `SessionSpec.RenderWrites` | client/src/utils/AuthContext.js:12 | a render is one write, ending in the render step's state |
| `SessionSpec.LoadUserWrites` | client/src/utils/AuthContext.js:16-29 | validation writes one slot at a time (user, or store then token, then loading) and ends in the validation step's state |
| `SessionSpec.SignInWrites` | client/src/utils/AuthContext.js:41-46 | a successful sign-in writes store, then token, then user, then header, one slot at a time, and ends in the sign-in step's state; a failure writes nothing |
| `SessionSpec.LogoutWrites` | client/src/utils/AuthContext.js:85-90 | logout writes store, then token, then user, then header, one slot at a time, and ends in the logout state |
| `SessionSpec.UpdateProfileWrites` | client/src/utils/AuthContext.js:96-97 | a successful update is one write of the user, a failed one none; either ends in the update step's state |
| `SessionSpec.SignInWithoutTokenDesynchronises` | client/src/utils/AuthContext.js:38-48 | a successful reply without a token reports success with storage "undefined", no in-memory token and the header "Bearer undefined", so storage and memory disagree |
| `SessionSpec.SignInSucceeds` | client/src/utils/AuthContext.js:37-48 | on success with a token, the store and token become the new token, the user becomes the response data, the header becomes "Bearer " + token, loading is kept, and the result is success |
| `SessionSpec.SignInFailureChangesNothing` | client/src/utils/AuthContext.js:73-78 | on failure every slot is unchanged and the result is a failure with the message rule applied to the operation's fallback |
| `SessionSpec.LogoutIdempotent` | client/src/utils/AuthContext.js:83-91 | after logout the store, token, user and header are all absent, so the session is neither authenticated nor admin; logging out again changes nothing |
| `SessionSpec.UpdateProfileMerges` | client/src/utils/AuthContext.js:96-98 | a successful update sets the user to the merge of the old user and the response data, leaves every other slot alone and reports success |
| `SessionSpec.UpdateProfileFailureChangesNothing` | client/src/utils/AuthContext.js:99-104 | a failed update leaves every slot unchanged and reports the message rule with "Failed to update profile" |
| `SessionSpec.LoadUserWithoutToken` | client/src/utils/AuthContext.js:17-28 | without a truthy token validation changes nothing but the loading flag, which becomes false |
| `SessionSpec.LoadUserAccepted` | client/src/utils/AuthContext.js:17-20 | with a truthy token an accepted identity check replaces the user with the response data and ends loading, changing nothing else |
| `SessionSpec.LoadUserRejected` | client/src/utils/AuthContext.js:21-26 | a rejected identity check removes the stored token, clears the token and ends loading, keeping the user and the header; the next render sets the header to "" |
| `SessionSpec.RunKeepsStoreMirrored` | client/src/utils/AuthContext.js:8-91 | along any sequence of operations in which every successful sign-in carries a token, the persisted token stays equal to the in-memory token |
| `SessionSpec.ReachableStoreMirrored` | client/src/utils/AuthContext.js:8 | from mount on, storage and memory agree about the token in every state reached by such a sequence |
| `SessionSpec.RunLoading` | client/src/utils/AuthContext.js:9-28 | loading is still true after a trace exactly when it was true before and no validation step ran; it is never set back to true |
| `SessionSpec.RunTokenProvenance` | client/src/utils/AuthContext.js:8-91 | the token after any trace is absent, the token before it, or a token returned by a successful login or registration in the trace |
| `SessionSpec.InertTraceChangesNothing` | client/src/utils/AuthContext.js:49-120 | any sequence of failed logins, failed registrations, failed profile updates and password changes leaves every slot unchanged |
| `SessionSpec.CredentialUntouched` | client/src/utils/AuthContext.js:94-120 | profile updates, password changes and renders never change the store or the token |
| `SessionSpec.LogoutEndsSession` | client/src/utils/AuthContext.js:83-91 | whatever came before, a final logout gives the logged-out state, and a second logout after it changes nothing |
| `SessionSpec.RenderSynchronisesHeader` | client/src/utils/AuthContext.js:12 | after a render the header is "Bearer " + token for a truthy token and "" otherwise |
| `SessionSpec.StartupWithoutToken` | client/src/utils/AuthContext.js:16-29 | with nothing stored no identity check is requested, loading ends and the session is unauthenticated |
| `SessionSpec.StartupWithValidToken` | client/src/utils/AuthContext.js:17-20 | with a stored token and a successful check the user is the response profile, the header is "Bearer " + token and loading is false |
| `SessionSpec.StartupWithExpiredToken` | client/src/utils/AuthContext.js:21-28 | with a stored token and a failed check, storage and token are cleared, the user stays absent and the next render sets the header to "" |
| `SessionSpec.RejectedValidationKeepsUser` | client/src/utils/AuthContext.js:20-26 | a successful Staff login followed by a rejected validation leaves an unauthenticated session that still reports an admin and still carries the old bearer header |
| `SessionSpec.LoginExample` | client/src/utils/AuthContext.js:37-48 | a login returning token "T1" and user {id:1, membershipType:"Member"} succeeds, stores "T1", sets "Bearer T1", exposes id 1, is authenticated and not admin |
| `AuthSession.Session.constructor` | client/src/utils/AuthContext.js:7-12 | the state is the mount state: the stored token read into memory, no user, loading, and the first render's header; the history holds that one state |
| `AuthSession.Session.Render` | client/src/utils/AuthContext.js:12 | the new state is the render step's; the history gains that one state |
| `AuthSession.Session.LoadUser` | client/src/utils/AuthContext.js:16-29 | the identity check is sent exactly when the token is truthy; the new state is the validation step's; the history gains exactly the validation's write-by-write states |
| `AuthSession.Session.SignIn` | client/src/utils/AuthContext.js:36-54 | the new state and result are the sign-in step's; the history gains exactly the sign-in's write-by-write states (store, token, user, header), none on failure |
| `AuthSession.Session.Login` | client/src/utils/AuthContext.js:35-56 | the sign-in contract with the fallback "Login failed" |
| `AuthSession.Session.Register` | client/src/utils/AuthContext.js:59-80 | the sign-in contract with the fallback "Registration failed" |
| `AuthSession.Session.Logout` | client/src/utils/AuthContext.js:83-91 | the new state is the logout step's; the history gains exactly the logout's write-by-write states (store, token, user, header) |
| `AuthSession.Session.UpdateProfile` | client/src/utils/AuthContext.js:94-106 | the new state and result are the update step's; the history gains one state (the user written) on success and none on failure |
| `AuthSession.Session.ChangePassword` | client/src/utils/AuthContext.js:109-120 | modifies no slot; succeeds exactly when the request did, else reports the message rule with "Failed to change password" |
| `AuthSession.LogoutTwice` | client/src/utils/AuthContext.js:83-91 | two logouts on the object leave the same state as one |
| `AuthSession.FailedLoginIsNoOp` | client/src/utils/AuthContext.js:49-54 | a failed login followed by a failed password change leaves the state and the history unchanged and reports both fallback-rule messages |

## Left out

- React machinery: the context object, the hooks' scheduling, the effect that
  re-runs validation when the token changes, and the provider's rendering.
  Renders and validations are explicit operations (`Render`, `LoadUser`), and a
  state setter takes effect at once.
- The HTTP requests, their endpoints and their request bodies (email and
  password, registration data, profile data, passwords). Each request is
  replaced by the reply it received. The request bodies affect no local slot.
- Console logging of errors.
- Concurrency between in-flight operations: last-write-wins races, and the stale
  user that `updateProfile` captures from an earlier render.
- Persistence across restarts: local storage is one slot, `store`.
- JavaScript values outside the model. A token is a string or missing; a
  `null` token in a response body, which storage would keep as "null", is not
  modelled. A success body that is itself `null` makes the destructuring throw,
  which the source reports as a failure; the model has no such reply. A declared
  error message is a string or absent; a non-string truthy message is not
  modelled. Profile data is a JSON object or absent. JSON numbers are integers.
- React's bail-out on a state update that changes nothing, which can skip a
  render after a second logout.
