# Crowdfunding progress tracker — verified model of its core

This project models the request handling and client state of a crowdfunding tracker. Artists register, log in and manage campaigns, and each campaign has milestones, reward tiers and updates. The model covers:

- **Campaign handlers** (`CampaignController`). They create campaigns, list the caller's campaigns newest first, and read one campaign with its children through a key/value cache. Updates and deletes are limited to the owner and invalidate the cache entry. The tables are maps from primary key to row, and the cache is a map from `campaign:<id>` to the stored view. Each `SELECT … WHERE … ORDER BY …` is the generic `Query.Select`. Its result is specified by `Query.IsSelection`: exactly the matching rows, each once, in the clause's order.
- **User handlers** (`UserController`). They cover registration with a unique email, login, and reading and updating the profile. Password hashing and comparison are passed in as functions, and so is token signing.
- **The authentication gate** (`AuthMiddleware`). It takes the bearer token out of the `Authorization` header, verifies it, and either attaches its payload to the request or hands a classified error to the next handler.
- **The final error handler** (`ErrorHandler`) and the catch block the handlers share (`Errors.Rethrow`).
- **The client.** `AuthToken` installs and removes the default `Authorization` header. `CampaignSlice` and `AuthSlice` hold the campaign and session state, with their case reducers.
- **`TokenRoundTrip`**, which ties the client's header format to the server's gate.

The main proved properties:

- The cache is never stale. The invariant `Coherent` says every cached view equals a fresh read of the tables. Every handler preserves it, and an update that skipped the invalidation would break it (`StaleWithoutInvalidate`). This holds for the corrected cache key, built from the id in its stored lower-case spelling. As written, the key is built from the id exactly as it appears in the URL, so a view cached under another spelling of the same UUID survives an update (see Findings).
- Query results are correct and ordered.
- Ownership checks hold. With the corrected password check, every failed login gives the same 401, whether the email is unknown, the password is wrong or the password is missing. As written, a missing password for a known email gives 500 instead (see Findings).
- Password hashes never appear in responses.
- The client's bearer header round-trips through the server's token extraction.
- The slices keep their state invariants, and the reducers update entries by id and preserve order.

Deleting a campaign follows the code and its schema. Milestones, reward tiers and updates refer to their campaign through foreign keys with no ON DELETE rule, so the store refuses to delete a campaign that still has any of them, and the handler answers 500. Deletion neither cascades nor leaves orphaned children.

`AuthMiddleware.Gate` uses the corrected token-error classification, `CampaignService` the corrected cache key and `UserService.Login` the corrected password check. The code as written is modelled beside each (see Findings).

## Model

| member | source | states |
|---|---|---|
| Errors.Rethrow | server/src/controllers/userController.ts:52-58 | The shared catch block. An ApiError is rethrown unchanged; any other error becomes a 500 ApiError with the handler's fixed message. The same block is at campaignController.ts:113-119, 155-161 and 190-196, and userController.ts:108-114, 137-143 and 168-174. |
| Errors.RethrowIdempotent | server/src/controllers/campaignController.ts:113-119 | An error converted by one catch block passes any later catch block unchanged. |
| Errors.RethrowForgetsDetail | server/src/controllers/campaignController.ts:113-119 | Two non-ApiErrors become the same error: only the handler's message survives. |
| Tokens.EnvOr | server/src/middleware/auth.ts:13 | `JWT_SECRET \|\| 'default_secret'`, also used for `JWT_EXPIRES_IN \|\| '1d'` at userController.ts:39-43. The result is never empty. It is the fallback exactly when the variable is unset, empty or equal to the fallback, and otherwise it is the variable's value. |
| Tokens.IssueToken | server/src/controllers/userController.ts:39-43 | The token is signed over `{ id }` with JWT_SECRET when it is set and non-empty and with "default_secret" otherwise, and with expiry "1d" when JWT_EXPIRES_IN is unset or empty. The same call is at 92-96. |
| Query.InsertOrdered | server/src/controllers/campaignController.ts:38-41 | The ORDER BY step. The row is inserted into an ordered result at some position, the other rows keep their order, and the result is still ordered. |
| Query.Select | server/src/controllers/campaignController.ts:80-95 | `SELECT * … WHERE keep ORDER BY le` returns exactly the stored rows satisfying `keep`, each once, ordered by `le`. This holds for any total preorder, so ties are in any order. |
| Query.SelectedRowsMatch | server/src/controllers/campaignController.ts:80-95 | Every row a query returns is the stored row under its key and satisfies the WHERE clause, so a non-empty result implies some stored row matches. |
| Query.SelectionOfNoMatch | server/src/controllers/campaignController.ts:80-95 | A query over a table with no matching row returns the empty list. |
| CampaignController.SameCampaignIff | server/scripts/db-migrate.js:41 | Two ids name the same stored campaign exactly when they have the same length and differ, position by position, in ASCII letter case at most. |
| CampaignController.UpperCaseSpellingSameCampaign | server/scripts/db-migrate.js:41 | "C1" and "c1" are different strings that name the same stored campaign "c1". |
| CampaignController.StaleAcrossSpellingsAsWritten | server/src/controllers/campaignController.ts:59-184 | As written, a view cached under one spelling of an id is not removed by an update or a delete made under another spelling of it. After the update that view is stale, and after the delete it shows a campaign that no longer exists. |
| CampaignController.CacheKeyInjective | server/src/controllers/campaignController.ts:59 | Two campaigns with the same `campaign:<id>` key are the same campaign. |
| CampaignController.OrdersArePreorders | server/src/controllers/campaignController.ts:80-95 | The four orders used are total preorders: created_at DESC, target_amount ASC, minimum_amount ASC, and published_at DESC with NULLs first. |
| CampaignController.CoherentAfterFill | server/src/controllers/campaignController.ts:106 | Caching a freshly read view keeps every cache entry a view of the current tables. |
| CampaignController.CoherentAfterInsert | server/src/controllers/campaignController.ts:15-21 | Inserting a campaign under an unused id leaves every cached view current. |
| CampaignController.CoherentAfterInvalidate | server/src/controllers/campaignController.ts:140-149 | Rewriting a row together with deleting its cache key keeps the cache coherent. |
| CampaignController.StaleWithoutInvalidate | server/src/controllers/campaignController.ts:148-149 | Without the key deletion, a changed row leaves a stale cached view, so the cache is no longer coherent. |
| CampaignController.CoherentAfterDelete | server/src/controllers/campaignController.ts:181-184 | Deleting a row together with its cache key keeps the cache coherent. |
| CampaignController.CampaignService.CreateCampaign | server/src/controllers/campaignController.ts:9-31 | On a fresh id, exactly one row is added. It belongs to the caller, has status draft and current amount 0, takes the request's fields, and has created_at = updated_at = now. A colliding id gives 500 "Error creating campaign" and no change. The cache stays coherent. |
| CampaignController.CampaignService.GetUserCampaigns | server/src/controllers/campaignController.ts:34-51 | Exactly the caller's campaigns, each once, newest first. |
| CampaignController.CampaignService.GetCampaign | server/src/controllers/campaignController.ts:54-120 | A cache hit returns the stored view with source "cache" and changes nothing. On a miss with no row, the result is 404 "Campaign not found" and nothing changes. On a miss with a row, the view is read from the database, stored under `campaign:<id>` and returned. Any success equals a fresh read of the current tables. The id is looked up in its stored lower-case spelling, and the cache key is built from that spelling (corrected key). |
| CampaignController.CampaignService.UpdateCampaign | server/src/controllers/campaignController.ts:123-162 | A non-owner or a missing row gets 404 "Campaign not found or unauthorized" and nothing changes. The owner's request overwrites the seven body columns, including a NULL status when the body has none. It refreshes updated_at, keeps the other columns and drops the cache key. The key dropped is the one every spelling of the id reads (corrected key), so the cache stays coherent. |
| CampaignController.DeleteKeepsReferencesIff | server/scripts/db-migrate.js:57-117 | The child tables' foreign keys (milestones, reward tiers and updates refer to `campaigns(id)` with no ON DELETE rule) stay valid after removing a campaign exactly when no child row refers to it. |
| CampaignController.CampaignService.DeleteCampaign | server/src/controllers/campaignController.ts:165-197 | The same ownership check as update. If a milestone, reward tier or update still refers to the campaign, the DELETE violates its foreign key: the answer is 500 "Error deleting campaign" and nothing changes, the cache key included. Otherwise the row and its cache key are removed and the confirmation message is returned. The foreign keys and the cache stay valid. Lookup and key use the id's stored spelling (corrected key). |
| CampaignController.UpdateThenGetScenario | server/src/controllers/campaignController.ts:54-162 | Create, read, update the goal from 1000 to 2000, then read again. The first read sees a draft with amount 0 and no children, and the second read returns 2000, not the cached 1000. |
| CampaignController.UpdateThenGetOtherSpellingScenario | server/src/controllers/campaignController.ts:54-162 | Read a campaign as "C1", update it as "c1" from 1000 to 2000, and read it again as "C1": with the corrected key the second read returns 2000. |
| CampaignController.DeleteWithMilestoneScenario | server/src/controllers/campaignController.ts:181-196 | The owner of a campaign with one milestone gets 500 "Error deleting campaign", and the campaign is still served afterwards. |
| UserController.ViewsHideHash | server/src/controllers/userController.ts:99 | Neither the registration response nor the public profile depends on the stored password hash. |
| UserController.PublicViewKeepsColumns | server/src/controllers/userController.ts:123-127 | The public view keeps every column except the hash: two rows with the same view differ only in the hash. |
| UserController.CheckPasswordAsWritten | server/src/controllers/userController.ts:72-83 | As written. An unknown email gives 401 "Invalid credentials". A known email with a missing or non-string password makes the comparison reject with an error that is not an ApiError, so the catch block turns it into a 500. Every other case agrees with the corrected check. |
| UserController.MissingPasswordRevealsAccountAsWritten | server/src/controllers/userController.ts:72-114 | As written, a login with no password gets 500 "Error logging in user" for a registered email but 401 "Invalid credentials" for an unknown one. |
| UserController.CheckPassword | server/src/controllers/userController.ts:72-83 | Corrected check. Login succeeds exactly when the email is found, a password is given and it matches the hash, and then returns that row. Every failure, a missing password included, is 401 "Invalid credentials". |
| UserController.CheckPasswordDiffersOnlyOnMissingPassword | server/src/controllers/userController.ts:79 | The corrected and the as-written check agree exactly except on a known email with a missing password. |
| UserController.LoginFailuresIndistinguishable | server/src/controllers/userController.ts:72-83 | With the corrected check, every failed login, whatever the email and the password, gives the same result as an unknown email. |
| UserController.UserService.FindByEmail | server/src/controllers/userController.ts:15-18 | `SELECT … WHERE email = $1` finds the one user with that email, or none exactly when no user has it. |
| UserController.UserService.Register | server/src/controllers/userController.ts:10-59 | A taken email gets 400 "User with this email already exists" and nothing changes. A missing or non-string password makes the hashing reject, and a colliding id fails the insert: both get 500 "Error registering user" and nothing changes. Otherwise one row is added with the hashed password and the optional columns NULL, and the response is the new user without its hash plus a token signed for its id. Emails stay unique. |
| UserController.UserService.Login | server/src/controllers/userController.ts:62-115 | On success only that user's last_login_at changes, to now. The response is the row as read before that update, without its hash, plus a token for its id. Any failure, a missing password included, is 401 "Invalid credentials" with no change (corrected check). |
| UserController.UserService.GetProfile | server/src/controllers/userController.ts:118-144 | The stored user without its hash, or 404 "User not found". |
| UserController.UserService.UpdateProfile | server/src/controllers/userController.ts:147-175 | full_name, artist_name and bio are overwritten and updated_at is refreshed. Nothing else changes, in that row or any other. A missing user gets 404. |
| AuthMiddleware.FirstOccurrence | server/src/middleware/auth.ts:7 | The position found is an occurrence and nothing occurs before it; no result means no occurrence at all. |
| AuthMiddleware.ExtractToken | server/src/middleware/auth.ts:7 | A token exists exactly when the header does. It is the header itself or the header with one occurrence of "Bearer " cut out. |
| AuthMiddleware.FirstOccurrenceIs | server/src/middleware/auth.ts:7 | The search stops exactly at the first occurrence. |
| AuthMiddleware.FirstOccurrenceNone | server/src/middleware/auth.ts:7 | The search reports none when nothing occurs. |
| AuthMiddleware.ExtractCutsFirstBearer | server/src/middleware/auth.ts:7 | `.replace('Bearer ', '')` cuts out only the first "Bearer ", wherever it stands in the header. |
| AuthMiddleware.ExtractWithoutBearer | server/src/middleware/auth.ts:7 | A header without "Bearer " is taken whole as the token. |
| AuthMiddleware.ExtractAfterPrefix | server/src/middleware/auth.ts:7 | "Bearer " followed by `t` gives exactly `t`. |
| AuthMiddleware.ClassifyAsWritten | server/src/middleware/auth.ts:17-23 | As written, every token-library error, an expired token included, becomes 401 "Invalid token". Any other error passes on unchanged. |
| AuthMiddleware.ExpiredReportedInvalidAsWritten | server/src/middleware/auth.ts:17-23 | As written, an expired token is reported as 401 "Invalid token". |
| AuthMiddleware.ExpiredBranchUnreachable | server/src/middleware/auth.ts:19-20 | As written, "Token expired" comes out only when that same error went in, so the branch never fires for a token error. |
| AuthMiddleware.Classify | server/src/middleware/auth.ts:16-23 | Corrected catch block. An expired token gets "Token expired", any other token-library error gets "Invalid token", and anything else passes on unchanged. |
| AuthMiddleware.ClassifyDiffersOnlyOnExpiry | server/src/middleware/auth.ts:17-23 | The corrected and the as-written classification agree on every error except an expired token. |
| AuthMiddleware.TokenFailuresDistinct | server/src/middleware/auth.ts:9-23 | With the corrected classification, a missing, a malformed and an expired token each get their own 401 error. As written, malformed and expired tokens both get "Invalid token" (see Findings). |
| AuthMiddleware.Gate | server/src/middleware/auth.ts:5-24 | A missing or empty token gives "No token provided". A present token that verifies with the configured secret gives success with its payload. Conversely, every success is exactly such a verification. A verification failure is classified (corrected classification), and no raw token-library error escapes. |
| AuthMiddleware.Authenticate | server/src/middleware/auth.ts:5-24 | On success `req.user` is the decoded payload and `next` gets no error. Otherwise `req.user` is untouched and `next` gets the gate's error (corrected classification). |
| ErrorHandler.HandleError | server/src/middleware/errorHandler.ts:4-18 | `success` is always false. An ApiError is sent with its own status and message; anything else is sent as 500 "Server Error". |
| ErrorHandler.NoDetailLeaks | server/src/middleware/errorHandler.ts:14-17 | Two errors that are not ApiErrors give the same reply, whatever they carry. |
| ErrorHandler.ReplyAfterRethrow | server/src/middleware/errorHandler.ts:7-12 | After a handler's catch block, the client sees either the ApiError or the handler's fixed message with status 500. |
| AuthToken.WithoutAuthorization | client/src/services/authToken.ts:13-15 | The Authorization header is gone, and every other header is present with its old value exactly when it was present before. |
| AuthToken.AuthorizationHeader | client/src/services/authToken.ts:4-15 | The Authorization header a request sent with these defaults carries: present exactly when the defaults hold one, with its value. |
| AuthToken.ClearingIsIdempotent | client/src/services/authToken.ts:13-15 | Clearing twice is clearing once. |
| AuthToken.SetAuthToken | client/src/services/authToken.ts:4-10 | A non-empty token sets `Authorization: Bearer <token>`, and an empty one removes the header. Other headers are unchanged. |
| AuthToken.ClearAuthToken | client/src/services/authToken.ts:13-15 | Removes the Authorization header; other headers are unchanged. |
| TokenRoundTrip.BearerRoundTrip | server/src/middleware/auth.ts:7 | The header the client installs for a non-empty token extracts on the server to exactly that token, which therefore is not missing. |
| TokenRoundTrip.GateVerifiesSentToken | server/src/middleware/auth.ts:7-15 | The gate verifies exactly the token the client sent. It passes the payload through on success and classifies the failure otherwise (corrected classification). |
| TokenRoundTrip.ClearedClientIsRefused | client/src/services/authToken.ts:13-15 | The gate, given the header of a request sent after clearing, answers "No token provided", which the error handler sends as 401. |
| TokenRoundTrip.SetClientIsVerified | client/src/services/authToken.ts:4-10 | The gate, given the header of a request sent after setting a non-empty token, verifies exactly that token. It returns the payload on success and the classified error otherwise (corrected classification). |
| TokenRoundTrip.TokenRejectionsAre401 | server/src/middleware/auth.ts:16-23 | Every rejection of a present token by the token library reaches the client as a 401. |
| CampaignSlice.ReplaceByIdAt | client/src/features/campaigns/campaignSlice.ts:216-218 | The `map` keeps the length, and each entry becomes the payload exactly when its id matches; otherwise the entry is unchanged. |
| CampaignSlice.ReplaceByIdNoMatch | client/src/features/campaigns/campaignSlice.ts:216-218 | With no matching id the list is unchanged. An update never inserts. |
| CampaignSlice.ReplaceByIdKeepsIds | client/src/features/campaigns/campaignSlice.ts:216-218 | The sequence of ids, and so the order, is unchanged. |
| CampaignSlice.ReplaceByIdIdempotent | client/src/features/campaigns/campaignSlice.ts:216-218 | Applying the same update twice equals applying it once. |
| CampaignSlice.RemoveByIdSpec | client/src/features/campaigns/campaignSlice.ts:234-236 | After the `filter` no entry has the id, every kept entry was there before, and every other entry keeps its number of copies. |
| CampaignSlice.RemoveByIdAppend | client/src/features/campaigns/campaignSlice.ts:234-236 | The filter works piecewise over concatenation, so the kept entries stay in order. |
| CampaignSlice.RemoveByIdNoMatch | client/src/features/campaigns/campaignSlice.ts:234-236 | Removing an id no entry has changes nothing. |
| CampaignSlice.RemoveByIdIdempotent | client/src/features/campaigns/campaignSlice.ts:234-236 | Deleting the same id twice equals deleting it once. |
| CampaignSlice.CampaignState.constructor | client/src/features/campaigns/campaignSlice.ts:63-68 | initialState has no campaigns, no current campaign, is not loading and has no error. |
| CampaignSlice.CampaignState.ClearCurrentCampaign | client/src/features/campaigns/campaignSlice.ts:157-159 | Only the current campaign changes, to none. |
| CampaignSlice.CampaignState.Pending | client/src/features/campaigns/campaignSlice.ts:164-167 | Loading with no error; the lists are untouched. The same case body is at 179-182, 194-197, 210-213 and 228-231. |
| CampaignSlice.CampaignState.Rejected | client/src/features/campaigns/campaignSlice.ts:173-176 | Not loading, and the error is the payload message; the lists are untouched. The same case body is at 188-191, 204-207, 222-225 and 242-245. |
| CampaignSlice.CampaignState.UserCampaignsFulfilled | client/src/features/campaigns/campaignSlice.ts:168-172 | The list becomes the payload; the current campaign is kept. |
| CampaignSlice.CampaignState.CampaignFulfilled | client/src/features/campaigns/campaignSlice.ts:183-187 | The payload becomes current and the list is untouched. |
| CampaignSlice.CampaignState.CreateFulfilled | client/src/features/campaigns/campaignSlice.ts:198-203 | The payload is appended after the old list and becomes current. |
| CampaignSlice.CampaignState.UpdateFulfilled | client/src/features/campaigns/campaignSlice.ts:214-221 | Entries with the payload's id are replaced in place, and the others are unchanged. The payload becomes current. |
| CampaignSlice.CampaignState.DeleteFulfilled | client/src/features/campaigns/campaignSlice.ts:232-241 | Entries with the id are dropped and the others are kept in order and multiplicity. The current campaign is cleared exactly when it has that id. |
| AuthSlice.AuthState.constructor | client/src/features/auth/authSlice.ts:25-31 | initialState takes the stored token. It has no user, is not authenticated, is loading and has no error. |
| AuthSlice.AuthState.Pending | client/src/features/auth/authSlice.ts:135-138 | Loading with no error; the session fields are untouched. The same case body is at 155-158, 173-176, 192-195 and 207-210. |
| AuthSlice.AuthState.LoginOrRegisterFulfilled | client/src/features/auth/authSlice.ts:139-145 | Authenticated, with the payload's token and user. The same case body is at 159-165. |
| AuthSlice.AuthState.SessionRejected | client/src/features/auth/authSlice.ts:146-152 | Token and user are cleared, the state is not authenticated, and the error is the message. The same case body is at 183-189 and 217-223. |
| AuthSlice.AuthState.RegisterRejected | client/src/features/auth/authSlice.ts:166-170 | Not authenticated and the error is set, but token and user are left as they were. |
| AuthSlice.AuthState.ProfileFulfilled | client/src/features/auth/authSlice.ts:177-182 | The user is set and the state is authenticated; the token is untouched. The same case body is at 211-216. |
| AuthSlice.AuthState.UpdateProfileFulfilled | client/src/features/auth/authSlice.ts:196-200 | Only the user is replaced; the token and the authentication flag are kept. |
| AuthSlice.AuthState.UpdateProfileRejected | client/src/features/auth/authSlice.ts:201-204 | Only the loading flag and the error change. The session survives. |
| AuthSlice.AuthState.LogoutFulfilled | client/src/features/auth/authSlice.ts:226-232 | The signed-out state, whatever the state was before. |

Every reducer keeps its slice's invariant `Valid()`. In both slices no error is shown while loading. In the auth slice, an authenticated state always has a user.

## Left out

- I/O and infrastructure are not modelled: the HTTP layer, the database driver, the cache client's connection, `console.error` logging, the React views, the thunks that issue the requests, the socket handler and the route tables. They are not part of this model.
- Clocks, id generation and salts are parameters: `now`, `newId` and `salt`. The hash function, password comparison and token signing/verification are parameters too, and their internals belong to external libraries.
- The cache's one-hour expiry and its JSON encoding are not modelled. An expired entry behaves like a miss, which the model's miss branch already covers.
- Database failures other than a primary-key collision on insert and the foreign-key refusal of a campaign DELETE are not modelled, and neither are cache failures (connection loss, timeouts). They would all reach the catch blocks modelled by `Errors.Rethrow`.
- CampaignController.CampaignService.GetUserCampaigns: it never fails in the model, so its catch block (500 "Error fetching user campaigns", campaignController.ts:47-50) is not reachable.
- Concurrency between requests is not modelled: each handler runs atomically. In particular, the read–check–write of register and of update/delete is not atomic in the source.
- CampaignController.CampaignService.CreateCampaign, CampaignController.CampaignService.UpdateCampaign: the source does not validate request bodies. A body missing a NOT NULL column (title, description, funding goal, start or end date) makes the statement fail, and the handler answers 500. The model's bodies always carry these columns, so that failure is not modelled. The nullable status and banner URL are modelled as optional, and a missing one is written as NULL. Numbers are mathematical reals, not IEEE doubles.
- CampaignController.CampaignService.GetCampaign, CampaignController.CampaignService.UpdateCampaign, CampaignController.CampaignService.DeleteCampaign: ids are assumed to be well-formed UUIDs. Campaign ids are UUID columns, so a malformed id in the URL makes the first query fail with 500 ("Error fetching campaign", "Error updating campaign", "Error deleting campaign"). The model answers that id with 404, like any absent id.
- CampaignController.CampaignService.UpdateCampaign, CampaignController.CampaignService.GetCampaign, CampaignController.CampaignService.DeleteCampaign: the only other spelling of a UUID modelled is letter case. PostgreSQL also accepts an id in braces or without hyphens; such spellings are not modelled. CreateCampaign requires its new id to be in lower case, as the UUID generator yields it.
- UserController.UserService.Register: a body without email or full name violates a NOT NULL column, so the insert fails with 500 "Error registering user". The model's email and full name are always present, so that failure is not modelled. A missing password is modelled.
- ErrorHandler.HandleError, ErrorHandler.ReplyAfterRethrow: the model assumes an error rethrown by an async handler reaches the error handler, as it does under Express 5 or an async wrapper. The server's dependency versions are not part of this model. Under Express 4 without a wrapper, the rejection is not passed on and the request hangs.
- CampaignController.CampaignService.DeleteCampaign: pledges and comments also refer to `campaigns(id)` without an ON DELETE rule, so they block deletion too. Those tables are not part of this model, so a campaign whose only referrers are pledges or comments is deleted in the model but refused by the store.
- CampaignSlice: the client campaign's optional `milestones`, `rewardTiers` and `updates` arrays are not modelled. The reducers never read them.
- AuthSlice.AuthState.constructor: the read of `localStorage` is not modelled. The stored token is passed in.

## Findings

| source | as written | input that shows it | evidently intended | confidence | as-written member | corrected member |
|---|---|---|---|---|---|---|
| server/src/middleware/auth.ts:17-23 | `instanceof JsonWebTokenError` is tested before `instanceof TokenExpiredError`, but in the token library TokenExpiredError is a subclass of JsonWebTokenError. | A token whose `exp` has passed: verification throws TokenExpiredError, and the client gets 401 "Invalid token". The "Token expired" branch is dead. | Test the subclass first, so that expired tokens get 401 "Token expired" and other token failures get "Invalid token". | high (depends on the library's class hierarchy); not executed | AuthMiddleware.ExpiredReportedInvalidAsWritten | AuthMiddleware.Classify |
| server/src/controllers/campaignController.ts:59,106,149,184 | The cache key is `campaign:${id}` with the id exactly as written in the URL, while the campaigns table compares UUIDs regardless of letter case. | GET /campaigns/C1 caches the view under `campaign:C1`. PUT /campaigns/c1 then changes the goal and deletes only `campaign:c1`. A second GET /campaigns/C1 serves the old goal from the cache. A DELETE /campaigns/c1 likewise leaves `campaign:C1` serving the deleted campaign. | Build the key from the id in its stored (lower-case) spelling, so that every spelling reads and invalidates the same entry. | medium (depends on clients sending other spellings); not executed | CampaignController.StaleAcrossSpellingsAsWritten | CampaignController.UpdateThenGetOtherSpellingScenario |
| server/src/controllers/userController.ts:79,108-114 | `bcrypt.compare(password, hash)` runs whenever the email exists, and it rejects a missing or non-string password. That error is not an ApiError, so the catch block answers 500. | POST /login with a registered email and no password gets 500 "Error logging in user". With an unknown email it gets 401 "Invalid credentials", so the status code tells whether an account exists. | Answer 401 "Invalid credentials" for a missing password too, so that every failed login looks the same. | high (depends on the hashing library rejecting non-strings); not executed | UserController.MissingPasswordRevealsAccountAsWritten | UserController.CheckPassword |
