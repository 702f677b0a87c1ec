# WEVC authentication resolvers and file-list reducer, in Dafny

This project models two pieces of the WEVC repository browser:

- **The file-list reducer** of the frontend store. It is a Redux reducer over a
  three-field state (`fetching`, `error`, `fileList`) driven by
  `INIT_GET_FILES`, `GET_FILES_FAIL` and `GET_FILES_SUCCESS`, plus a default
  case for every other action. `FilesReducer.Step` is one transition.
  `FilesReducer.ReduceAll` dispatches a whole history of actions. The lemmas
  describe the state after any history without referring to the fold: the
  listed files are the payload of the last success; the error flag is set
  when the last settling action was a failure; a fetch is pending when the
  last recognised action was a new request.
- **The authentication resolvers** of the GraphQL user schema: `githubLoginUrl`,
  `authorizeWithGithub`, `register` and `login`. Each resolver is a pure
  function that returns a `Run`: its result together with the list of
  collaborator calls it made, in order. The collaborators are fields of
  `Services`: the GitHub token exchange and profile fetch, the user model,
  the bcrypt comparison and the JWT signer. Each collaborator answers with
  `Success(value)` or `Failure(error)`, where the failure stands for the error
  it throws. The resolvers catch nothing, so such an error reaches the caller
  unchanged.

Two independent descriptions serve as partners for the resolvers:

- `UserSchema.EarlyExit` is one predicate for all three flows. It says every
  call except the last went through, and a response comes back exactly when
  the last call is a successful signing. Otherwise the flow fails with the
  error its last call was refused with (`UserSchema.Refusal`).
  `UserSchema.FollowsPlan` says the calls follow the flow's fixed plan in
  order.
- `QueryString` reads query parameters back out of a URL, the way an OAuth
  authorization endpoint splits it: at the first `?`, then at every `&`, then
  at each parameter's first `=`. It is the partner of the login-URL builder.

The callback URL and the client id are spliced into the authorization URL
without percent-encoding. An endpoint cuts the URL at `#`, splits it at `&`,
and percent- and `+`-decodes each value. So the configured values come back
out of the URL unchanged only when neither contains `&`, `#`, `%` or `+`
(`UserSchemaProofs.ReadsBackVerbatim`).
`UserSchemaProofs.CallbackCanShadowClientId` shows what happens when a
callback URL carries its own `client_id` parameter. The callback URL is cut
at its `&`, so `redirect_uri` reads back as only the part before it. Under a
first-occurrence rule for repeated keys, the URL also names the callback's
client instead of the configured one.

In the code, `findOrCreateUserByGitHubUser` is called without `await`
(backend/src/schema/user.ts:77), while every other user-model call is
awaited. The model treats its result as the resolved user. The consequences
if that method is asynchronous are listed under "## Left out". The user
model is not part of this model, so this cannot be settled here.

The resolvers are modelled as the code behaves:

- `register` does no input validation of its own.
- When `registerUser` returns no user, `register` fails with a generic
  `UserInputError` ("Could not create a user with given username and
  password"), not with a duplicate-username error.
- The GitHub flow raises `UserInputError` for a missing code and for a missing
  access token. Any other failure (network, invalid grant, malformed profile,
  signer configuration) is whatever the collaborator throws.
- A missing JWT secret is passed to the signer as is (`Sign(claims, None)`).
  Whether that fails is up to the signer.

## Model

| member | source | states |
|---|---|---|
| FilesReducer.Initial | frontend/src/store/reducers/files.ts:15-19 | the initial state lists no files, has a fetch pending and no error |
| FilesReducer.Step | frontend/src/store/reducers/files.ts:23-44 | `INIT_GET_FILES` raises `fetching` and keeps `error` and `fileList`; `GET_FILES_FAIL` sets `error`, clears `fetching` and keeps `fileList`; `GET_FILES_SUCCESS` replaces `fileList` by exactly the payload and clears both flags; any other action returns the state unchanged |
| FilesReducer.FileReducer | frontend/src/store/reducers/files.ts:21 | an absent state is treated as the initial state (the default parameter) |
| FilesReducer.StepIdempotent | frontend/src/store/reducers/files.ts:21-44 | dispatching any action twice gives the same state as dispatching it once |
| FilesReducer.SettledIsNotFetching | frontend/src/store/reducers/files.ts:29-41 | after a success or a failure no fetch is pending, whatever the prior state |
| FilesReducer.OthersAreNeutral | frontend/src/store/reducers/files.ts:42-43 | any number of unrecognised actions leaves the state exactly as it was |
| FilesReducer.FileListIsLastPayload | frontend/src/store/reducers/files.ts:35-41 | after any history, the listed files are the payload of the last successful fetch |
| FilesReducer.FileListWithoutSuccess | frontend/src/store/reducers/files.ts:24-34 | requests and failures never touch the listed files |
| FilesReducer.ErrorIsLastSettlement | frontend/src/store/reducers/files.ts:29-41 | after any history, the error flag is set if and only if the last success-or-failure was a failure |
| FilesReducer.ErrorWithoutSettlement | frontend/src/store/reducers/files.ts:24-28 | a new request does not clear the error flag; it keeps its value until something settles |
| FilesReducer.FetchingIsLastRequest | frontend/src/store/reducers/files.ts:24-41 | after any history, a fetch is pending if and only if the last recognised action was `INIT_GET_FILES` |
| FilesReducer.PendingUntilSettled | frontend/src/store/reducers/files.ts:15-28 | from the initial state, the store shows a pending fetch with no error and no files until a success or failure arrives |
| FilesReducer.RetryKeepsStaleError | frontend/src/store/reducers/files.ts:24-34 | from any state, a history that starts with a failure, ends with a new request and settles nothing in between leaves a fetch pending while still reporting the error |
| UserSchema.GitHubClaims | backend/src/schema/user.ts:79-85 | a GitHub session's claims are exactly `gitHubId` (the user's GitHub id) and `gitHubToken` (the exchanged token) |
| UserSchema.LocalClaims | backend/src/schema/user.ts:110-116 | a local session's claims are exactly `id` and `username` of the user |
| UserSchema.WithAccessToken | backend/src/schema/user.ts:67-72 | the profile handed on is the fetched profile (an absent one counts as empty) with `access_token` set to the exchanged token, every other field kept |
| UserSchema.ExchangedToken | backend/src/schema/user.ts:57-65 | the exchange yields a token only for a non-empty code whose exchange answers a non-empty `access_token` |
| UserSchema.GithubLoginUrl | backend/src/schema/user.ts:41-50 | fails with the "not set" error if and only if the callback URL or the client id is unset or empty; otherwise returns the authorize URL with those two values as `redirect_uri` and `client_id` |
| UserSchema.AuthorizeWithGithub | backend/src/schema/user.ts:53-91 | no code: fails with "GitHub code not provided" and calls nothing; no access token: fails with "Invalid or expired GitHub code" after the exchange alone; the profile is fetched only with the exchanged token; the profile given to the user model is the fetched profile with `access_token` set to that token; the signed claims are exactly the user's GitHub id and that token |
| UserSchema.Register | backend/src/schema/user.ts:99-122 | calls `registerUser` first; fails with "Could not create a user…" and calls nothing more when it returns no user; otherwise signs exactly `{id, username}` of the created user and returns that user |
| UserSchema.Login | backend/src/schema/user.ts:123-152 | looks the user up first; an unknown username fails with "Invalid username or password" and nothing more is called; compares the password with the stored hash, or with "" when the user has none; a rejected password fails with the same error and nothing is signed; signs exactly `{id, username}` of that user; on success returns the user found |
| UserSchema.Me | backend/src/schema/user.ts:34-40 | the `me` query returns the context's current user unchanged, or nothing when there is none |
| UserSchema.Logout | backend/src/schema/user.ts:92-98 | the `logout` mutation returns the constant "logout" and touches no session state |
| UserSchemaProofs.GithubExitsEarly | backend/src/schema/user.ts:57-90 | the GitHub login calls exchange, profile fetch, user model and signer in that order and stops at the first one that refuses, failing with its error |
| UserSchemaProofs.RegisterExitsEarly | backend/src/schema/user.ts:104-121 | registration calls the user model then the signer, stopping at the first refusal with its error |
| UserSchemaProofs.LoginExitsEarly | backend/src/schema/user.ts:128-151 | login calls lookup, comparison and signer in that order, stopping at the first refusal with its error |
| UserSchemaProofs.SuccessIffPlanCompletes | backend/src/schema/user.ts:53-152 | in any flow that exits early and follows a plan ending in signing, a response comes back if and only if every planned call was made and went through |
| UserSchemaProofs.GithubSuccessIffAllStepsProceed | backend/src/schema/user.ts:57-90 | a GitHub login succeeds if and only if all four collaborators went through |
| UserSchemaProofs.FailedExchangeIgnoresLaterSteps | backend/src/schema/user.ts:61-65 | when the exchange yields no usable token, the outcome does not depend on the profile fetch, the user model or the signer, and only the exchange is called |
| UserSchemaProofs.LoginSuccessIffAllStepsProceed | backend/src/schema/user.ts:128-151 | a local login succeeds if and only if the user is found, the password matches and the signer goes through |
| UserSchemaProofs.LoginFailuresIdentical | backend/src/schema/user.ts:130-138 | an unknown username and a wrong password give the identical failure, `UserInputError("Invalid username or password")` |
| UserSchemaProofs.PasswordlessUserComparesWithEmptyHash | backend/src/schema/user.ts:134-138 | a user without a stored password is checked against the empty hash and is let in only if the comparison accepts it |
| UserSchemaProofs.RegisterThenLoginSignsSameClaims | backend/src/schema/user.ts:140-146 | logging in as the user just registered succeeds and signs the very same `{id, username}` claims that registration signed |
| UserSchemaProofs.LoginUrlCarriesConfig | backend/src/schema/user.ts:49 | read back by an authorization endpoint, the login URL has `response_type=code`, `redirect_uri` equal to the callback URL and `client_id` equal to the client id, when neither value contains `&`, `#`, `%` or `+` |
| UserSchemaProofs.CallbackCanShadowClientId | backend/src/schema/user.ts:49 | since nothing is encoded, a callback URL ending in its own `client_id` parameter is cut at its `&` (`redirect_uri` reads back as the part before it); under first-occurrence lookup the URL names the callback's client instead of the configured one |

## Left out

- backend/src/schema/schema.ts only wires the schema together through `makeExecutableSchema`. It has no logic, so it is not part of this model.
- The `File` type is defined in frontend/src/types/files.ts, which is not modelled. It is a type parameter `F`.
- The action-type string constants are also defined in frontend/src/types/files.ts, which is not modelled. Actions are constructors, and `Other` stands for every action type the switch does not name.
- FilesReducer.StepIdempotent: states are compared by value. The code returns a fresh object for the three named actions, even when no field changes, and the same object for any other action. Redux detects changes by reference, so the lemma states structural idempotence only.
- bcrypt hashing and comparison, and JWT signing and serialisation, are foreign library calls. They are the oracle fields `compare` and `sign`.
- `sign` is a deterministic function here, while a real JWT embeds its issue time. So `RegisterThenLoginSignsSameClaims` states equal claims, not equal tokens.
- The GitHub HTTP calls are network I/O. They are the oracle fields `requestGithubToken` (which answers the `access_token` field or nothing) and `requestGithubUserAccount` (which answers a profile or nothing).
- Profile field values are strings. A non-string `access_token` and its `toString()` are not modelled.
- The user model (`findOrCreateUserByGitHubUser`, `registerUser`, `findUserByUsername`) and its persistence are oracles. No uniqueness or duplicate-username behaviour is assumed.
- Concurrency and atomic upsert for first-time GitHub logins are not modelled. backend/src/schema/user.ts has neither.
- UserSchema.AuthorizeWithGithub: assumes `findOrCreateUserByGitHubUser` (called without `await` at backend/src/schema/user.ts:77) returns the user synchronously. If it is asynchronous, the code signs whatever the upsert does: a rejection is never awaited, the `gitHubId` claim is `undefined`, and the pending promise is returned as `user`. The user-model step of `UserSchemaProofs.GithubExitsEarly` and `UserSchemaProofs.GithubSuccessIffAllStepsProceed` then holds only under this synchronous reading.
- The "No GitHub user found" branch (backend/src/schema/user.ts:73-75) is left out. It cannot be reached, because the spread at lines 69-72 always builds an object, which is truthy.
- Promises, async sequencing and the GraphQL resolver plumbing are not modelled.
- `QueryString` does not model fragment stripping, percent-decoding or reading `+` as a space. Because the URL builder encodes nothing, an endpoint's decoding can change a value. So the URL lemmas require values that these steps leave unchanged (`UserSchemaProofs.ReadsBackVerbatim`).
- UserSchemaProofs.CallbackCanShadowClientId: the client-id shadowing holds under `QueryString.Lookup`'s first-occurrence rule. Servers that keep the last value of a repeated key read the configured client id instead. The cut `redirect_uri` holds under any rule.
