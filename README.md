# Storey user accounts in Dafny

This project models the account and session handlers of the Storey back end's
user controller (`src/controllers/user.controller.js`) and proves what they
promise. The handlers are registration, login, token issuance, refresh-token
rotation, logout, password change, account-detail, avatar and cover-image
updates. The project also models the read-only channel-profile aggregation
`getUserChannelProfile`.

Files:

- `common.dfy` (module `Common`) holds the shared types: `Option`, `Result`,
  and a handler's `Failure`. A failure is either an `ApiError(status,
  message)` the handler throws itself, or a `Thrown` exception it does not
  classify. The module also defines JavaScript truthiness, and models
  `String.prototype.trim` and `toLowerCase` (ASCII letters only).
- `users.dfy` (module `Users`) holds the user document, the token and
  password abstractions, and the store invariant `WellFormed`. It also holds
  the queries (`findById` and `findOne({$or: [...]})` as first matches in
  collection order) and the pure decision steps of the handlers:
  - registration's checks and the document it creates;
  - the file inspection and upload checks;
  - the checks a presented refresh token must pass.
- `channels.dfy` (module `Channels`) holds the channel-profile pipeline. It
  matches the lower-cased username, runs the two `$lookup`s over the
  subscription edges, then applies `$addFields` and `$project`.
- `sessions.dfy` (module `Sessions`) holds the class `UserStore`. Its fields
  are the users collection, the subscriptions collection, a counter standing
  for fresh document ids, and the two token lifetimes.
  Each handler is a method of the class. A handler either fails and leaves
  the store unchanged, or changes exactly the fields its `ensures` names.
  Every method keeps `Valid()`, which says:
  - ids are distinct;
  - stored usernames are lower-cased;
  - every stored avatar URL is non-empty;
  - every stored refresh token was signed by the store for its own user,
    with the refresh lifetime.
- `scenarios.dfy` (module `Scenarios`) chains handler calls on one store,
  proved from the handlers' contracts alone:
  - a replayed refresh token is refused, unless it was issued in the same
    second as its rotation;
  - a refresh after logout is refused;
  - a login followed by a refresh of the token it returned is accepted;
  - case-variant registrations both succeed.

External pieces are modelled abstractly or passed as parameters:

- JWT signing creates a `Signed(key, claims, issuedAt, expiresAt)` token.
  `issuedAt` is the `iat` claim, the signing time in whole seconds. A
  signed token is determined by its secret and claims, so two tokens signed
  for the same user in the same second are equal. Any other string is
  `Unsigned`.
  `jwt.verify` checks the key first, then the expiry, and fails with the
  library's message ("jwt malformed", "invalid signature", "jwt expired").
- A bcrypt digest records the secret it was made from. `isPasswordCorrect`
  is equality with the digest of the candidate. An absent candidate makes
  bcrypt throw.
- The uploader's answer for a path is a parameter: nothing, or a hosted file
  with a URL.
- The clock (`now`), the request body, the uploaded files and the
  authenticated caller are parameters. `verifyJWT` puts the caller on the
  request; here it is a `caller` parameter.

The model keeps these behaviours of the code as written:

- Registration's uniqueness check compares the raw username (lines 44-46),
  but the username is stored lower-cased (line 88). So "Alice" passes when
  "alice" exists, and is stored as a second "alice"
  (`Users.CaseVariantNotRefused`, `Scenarios.CaseVariantRegistration`).
- The blank-field check rejects only fields that are present and blank
  after trimming. An absent field passes it, and the document creation then
  fails instead. So does an avatar upload without a URL: `avatar.url` is
  then undefined, and the required `avatar` field fails validation.
- The cover-image path is set only when `req.files` is an array. Even then
  it copies the avatar path. A non-array `req.files` never yields a cover
  path.
- A wrong password at login gives 400.
- The refresh handler always answers 401. An accepted token is rotated in
  the store first. The handler then calls `res.status(200).cookies`, which
  is not a function, and its `catch` turns that into a 401.
- The login answer carries the full user document, with the new refresh
  token set on it.
- In `updateAvatar` and `updateCoverImage`, an upload that returns nothing
  makes `.url` throw. An empty URL gives 400.

## Model

| member | source | states |
|---|---|---|
| Common.TrimStart | src/controllers/user.controller.js:37 | The result is the longest suffix of the input that does not start with white space; every dropped character is white space |
| Common.TrimEnd | src/controllers/user.controller.js:37 | The result is the longest prefix of the input that does not end with white space; every dropped character is white space |
| Common.IsBlank | src/controllers/user.controller.js:37 | `s.trim() === ""` holds exactly when every character of `s` is ECMAScript white space |
| Common.Lower | src/controllers/user.controller.js:88 | `toLowerCase` keeps the length and leaves no upper-case ASCII letter; a string is its own lower-case form exactly when it has no upper-case ASCII letter |
| Common.LowerKeepsBlank | src/controllers/user.controller.js:352-359 | Lower-casing a username neither makes it blank nor makes it non-blank |
| Users.FirstIndex | src/controllers/user.controller.js:44-46 | The first document in collection order that satisfies the query: it satisfies it, no earlier one does, and there is none exactly when no document does |
| Users.FindById | src/controllers/user.controller.js:207 | `findById`: a result is a stored user with that id; no result means no user has it |
| Users.FindByUsernameOrEmail | src/controllers/user.controller.js:44-46 | Finds a user matching the raw username or the email; no result exactly when no stored user matches either |
| Users.FindByIdSameIds | src/controllers/user.controller.js:207 | `findById` depends only on the ids: rewriting other fields of users does not change which user it finds |
| Users.PublicHidesSecrets | src/controllers/user.controller.js:92-94 | The view without password and refresh token identifies a document up to exactly those two fields |
| Users.AnyBlank | src/controllers/user.controller.js:36-37 | A form has a blank field exactly when one of its four fields is present and blank after trimming |
| Users.PlanUploads | src/controllers/user.controller.js:54-69 | Absent files give 400 "Avatar is Required."; success needs a non-empty avatar path; a cover path exists only when `req.files` is an array and equals the avatar path; an undefined avatar list throws |
| Users.RegisterCheck | src/controllers/user.controller.js:36-89 | Checks in this order: a present blank field gives 400, an existing match gives 409, then the file checks, then a missing avatar upload gives 400. It passes exactly when nothing is blank, no user matches, the files plan, the avatar upload has a URL, and all fields are present; an absent field or a missing URL fails the creation. Its only ApiErrors are these three |
| Users.CaseVariantNotRefused | src/controllers/user.controller.js:44-50 | In a well-formed store, a username that lower-casing changes, with a new email, matches no stored user and is never refused with 409 |
| Users.NewUser | src/controllers/user.controller.js:82-89 | The created document has the lower-cased username, the given email and fullname, a digest of the password, the avatar URL, the cover URL or "", and no refresh token |
| Users.ImageUrl | src/controllers/user.controller.js:294-304 | A missing file path gives 400 "... File is missing."; a null upload throws; an empty URL gives 400; success exactly when path, upload and URL are all present, and then gives the uploaded URL |
| Users.Verify | src/controllers/user.controller.js:202-205 | A token verifies exactly when it is signed with the expected secret and has not expired, and then yields the id it names |
| Users.Incoming | src/controllers/user.controller.js:194 | The presented token is the cookie or `body.cookies`, the cookie when it is truthy; it is truthy exactly when one of the two is |
| Users.RefreshDecision | src/controllers/user.controller.js:194-215 | Every refusal is a 401. No truthy token gives "Unauthorized request". Acceptance means the token (cookie first, else `body.cookies`) verifies against the refresh secret for a user whose stored token equals it |
| Users.StoredTokenAccepted | src/controllers/user.controller.js:202-215 | In a well-formed store, a user's stored refresh token that has not expired is accepted for that user |
| Users.ReplacedTokenRejected | src/controllers/user.controller.js:213-214 | Once the stored token of the accepted user is replaced by anything else, the same token is refused with 401 "Refresh Token Expired." |
| Sessions.UserStore.IssueTokens | src/controllers/user.controller.js:9-26 | A missing user gives 500 and no change. Otherwise the store signs a pair at time `now` and overwrites the user's single stored refresh token with the new one; nothing else changes. The new token equals a previously stored one exactly when that was the same user's token signed in the same second |
| Sessions.UserStore.Register | src/controllers/user.controller.js:28-106 | A failed check returns that check's error and leaves the store unchanged. Success appends exactly the new document with the next id and returns it without password and refresh token |
| Sessions.UserStore.Insert | src/controllers/user.controller.js:82-89 | `User.create` appends exactly the new document and advances the next id, keeping the store invariant |
| Sessions.UserStore.Login | src/controllers/user.controller.js:108-166 | Errors in order: 400 when neither username nor email is truthy, 404 when no user matches, a throw when the password is absent, 400 for a wrong password; failures change nothing. Success rotates only that user's refresh token and returns the updated document and the stored refresh token |
| Sessions.UserStore.Logout | src/controllers/user.controller.js:168-179 | Clears only the caller's stored refresh token; a caller that is not stored changes nothing |
| Sessions.UserStore.RefreshAccessToken | src/controllers/user.controller.js:193-239 | Always answers 401. A refused token answers its refusal and changes nothing. An accepted token is rotated in the store, and the answer is the 401 from the failed `cookies` call |
| Sessions.UserStore.ChangeCurrentPassword | src/controllers/user.controller.js:241-262 | A new/confirm mismatch gives 400 first; a missing caller, an absent old password or an absent new password throws; a wrong old password gives 400; failures change nothing. Success sets only the caller's password, to a digest of the new one |
| Sessions.UserStore.UpdateAccountDetails | src/controllers/user.controller.js:270-291 | Gives 400 exactly when neither fullname nor email is truthy. Otherwise writes only the fields that are given and returns the user without password; a missing caller gives no document and no change |
| Sessions.UserStore.UpdateAvatar | src/controllers/user.controller.js:293-319 | An upload failure from ImageUrl changes nothing. Otherwise sets only the caller's avatar to the uploaded URL and returns the user without password |
| Sessions.UserStore.UpdateCoverImage | src/controllers/user.controller.js:321-347 | An upload failure from ImageUrl changes nothing. Otherwise sets only the caller's cover image to the uploaded URL and returns the user without password |
| Sessions.UserStore.GetUserChannelProfile | src/controllers/user.controller.js:349-417 | Reads the stored users and subscriptions, changes nothing, and answers the channel profile of `Channels.GetUserChannelProfile` |
| Channels.Project | src/controllers/user.controller.js:378-406 | `subscribersCount` is the number of edges into the user; `channelSubscribedToCount` is the number of edges out of the user; `isSubscribed` holds exactly when the edge (caller, user) exists; `_id` and the listed fields are copied |
| Channels.SubscribersOf | src/controllers/user.controller.js:362-369 | The edges whose channel is the user, and only those, no more of them than edges in all |
| Channels.SubscribedToOf | src/controllers/user.controller.js:370-377 | The edges whose subscriber is the user, and only those, no more of them than edges in all |
| Channels.SubscriberIds | src/controllers/user.controller.js:388 | `"$subscribers.subscriber"`: one id per edge; an id occurs exactly when some edge has it as subscriber |
| Channels.FindByUsername | src/controllers/user.controller.js:356-360 | `$match` on the lower-cased name, first document: a result has exactly that username and no earlier user has it; no result exactly when no stored user has it |
| Channels.GetUserChannelProfile | src/controllers/user.controller.js:352-416 | An absent or blank username gives 400. 404 exactly when no user has the lower-cased name. A success exactly when the name is present and non-blank and some user has its lower-cased form, and then it is the projection of the first such user |
| Channels.ProfileIgnoresCase | src/controllers/user.controller.js:356-360 | Two usernames with the same lower-case form get the same answer |
| Channels.SubscribeCountsOnce | src/controllers/user.controller.js:362-382 | Adding one edge raises its channel's subscriber count by one and leaves every other count unchanged |
| Channels.SubscribersCountIsMultiplicity | src/controllers/user.controller.js:362-382 | The subscriber count is the number of times the user's id occurs in the channel column of the edges |
| Channels.SubscribedToCountIsMultiplicity | src/controllers/user.controller.js:370-385 | The subscribed-to count is the number of times the user's id occurs in the subscriber column of the edges |
| Channels.SubscribedIsCounted | src/controllers/user.controller.js:379-392 | A profile that says the caller is subscribed has at least one subscriber |
| Scenarios.RefreshReplay | src/controllers/user.controller.js:213-223 | A token accepted at second `now` and presented again at a second `later` before it expires: both calls answer 401. The replay is refused with "Refresh Token Expired." when the token was issued in a second other than `now`; a token issued at `now` equals its successor and is accepted again |
| Scenarios.LogoutThenRefresh | src/controllers/user.controller.js:168-215 | After logout, the caller's last refresh token, if still live, is refused with "Refresh Token Expired."; only the caller's token was cleared |
| Scenarios.LoginThenRefresh | src/controllers/user.controller.js:138-165 | The refresh token a successful login returns is the stored one: presented in the same second it is accepted, the answer is the `cookies` 401, and the user's stored token is the login's token again |
| Scenarios.SameFormRefused | src/controllers/user.controller.js:44-50 | Once a form has registered, the same form is refused with 409, whatever the case of its username and whatever cover image was stored |
| Scenarios.VariantAccepted | src/controllers/user.controller.js:36-89 | In a well-formed store, a form whose username lower-cases to a stored username but differs from it, and whose email is new, passes every check |
| Scenarios.CaseVariantRegistration | src/controllers/user.controller.js:44-89 | A form with a lower-case username registers; the same form is then refused with 409; a case variant of its username with a new email registers, and both new documents have the same username |

## Left out

- `getWatchHistory` (lines 419-463). As written it is not a statable join:
  - it matches `ObjectId.createFromTime` of the user id rather than the id;
  - it misspells `foreignField`;
  - it writes `onwer`;
  - it dereferences `user[0]` without a check.
- `getCurrentUser` (lines 264-268) only echoes the authenticated request user; no store state is involved.
- HTTP plumbing is not modelled: status codes of successful answers, cookies and their options, `ApiResponse` envelopes, `console.log` and `asyncHandler`. A `Thrown` failure stands for an exception whose status the error middleware chooses.
- JWT signing and verification, bcrypt and the Cloudinary uploader are abstract models or parameters, as described above; secrets come from `process.env`.
- Sessions.UserStore.Logout: clears the stored token as if `$set: {refreshToken: undefined}` unset it. Mongoose versions that strip `undefined` from updates would make logout a no-op.
- Sessions.UserStore.UpdateAccountDetails: an absent field leaves the stored value unchanged, which is how `$set` treats `undefined` when it is stripped.
- These two readings of `undefined` in `$set` do not come from a single Mongoose version: one strips it (logout is then a no-op), the other unsets it (an absent fullname or email is then cleared).
- Users.RegisterCheck: takes the schema to require fullname, email, password and avatar, and to reject an empty avatar URL; the schema itself is not part of this model.
- Users.FindByUsernameOrEmail: in the `$or` query (lines 44-46 and 121-123), a clause whose value is undefined is taken to match no stored user.
- Sessions.UserStore.RefreshAccessToken: `req.cookies` is taken to be present (cookie-parser installed). A missing `req.body` would throw before the 401 check; that is not modelled.
- Sessions.UserStore.Register: the uploader's answer for the cover path is a parameter even when that path is undefined. The `findById` re-read after `create` (lines 92-99) always succeeds in a sequential store, so its 500 branch is unreachable here.
- Common.Lower: maps only ASCII `A`-`Z`; `toLowerCase` on other scripts is not modelled.
- Token times are whole seconds, as in the `iat` and `exp` claims; a token's contents beyond its secret, payload, `iat` and `exp` are not modelled.
- The user schema's own validation, setters, indexes and `pre("save")` hook live in `src/models/user.model.js`, which is not part of this model. A unique index, if present, would refuse a case-variant duplicate at creation.
- Concurrency: the check-then-create race in registration and the verify-then-rotate race in refresh. Each handler is atomic here.
- `src/routes/user.route.js`, `src/db/index.js` and `src/index.js`: routing and database bootstrap, no logic of their own.
- The users collection is a sequence in insertion order rather than a map, because `findOne` and `channel[0]` return the first match.
