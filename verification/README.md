# Verified model of the identity sidecar

A model in Dafny of an OAuth 2.1 / OIDC authorization server: signing keys that rotate, single-use
authorization codes with PKCE, refresh tokens that rotate, sessions kept as opaque tokens in a table
or as signed JWTs, and the token codec underneath. The theorems are about every run: any number of
request handlers, key rotations, prunings, sweeps, revocations and restarts, interleaved in any way.

## How it is put together

* `Sidecar` is the server as a state machine. A request handler is a job that advances one atomic
  step at a time: one clock reading, one lock section, one backend call. `JWTStore.Create` and
  `mintIDToken` are three steps (read the clock, take the signer, sign), the exchange handler is cut
  at its lock, the refresh handler between validating and revoking. Part of the state is history the
  server does not keep; no step's effect on the rest depends on it. `disk` is what the last completed
  snapshot holds, and a restart loads it, however old. An operation that changes the table, and no
  other, takes a snapshot under the same lock, as in the file backend (`DiskRuns`); its event says
  whether that snapshot succeeds. `Allowed` is what the environment guarantees: the clock does not
  run back, drawn tokens are new.
* The theorem modules state invariants or simulations of that machine and what follows from them:
  `SingleUse` and `CodeReplay`, `Provenance`, `OpaqueTokens`, `RefreshChain` and `RefreshRuns`,
  `KeyCoverage` and `ShortGrace`, `KeyNames`, `Lifetimes`, `Cleanup` and `Sweeps`, `Responses`,
  `HonestFlow`, `Admission`, `TokenClaims`.
* `KeyManager`, `MemoryBackend`, `FileBackend`, `SessionStores`, `Server`, `Middleware` are the
  objects whose fields the server updates in place, with their loops. Each method is proved against
  the value-level specification (`KeyRing`, `Sessions`, `Stores`, `Grants`), and every handler of
  `Server`, run without interference, is proved to be a run of the machine (`HandlerRuns`) that a
  started server begins in its initial state (`Server.Start`), so the theorems apply to what the
  methods do.
* `Base64Url`, `Text`, `JwtClaims`, `Jwt`, `Pkce`, `BigEndian` are the codec, written out in full; `Alphabet`
  (with `Radix`) holds base64url against the tables and arithmetic of RFC 4648.

Foreign code is a parameter (`Primitives.Library`). `Faithful` is everything assumed of it: JSON
objects survive being written and read, members in order; SHA-256 is injective; a signer's own
bytes verify. `Primitives.Accepts` passes a verification only for a (key, message) pair that was
signed. A file rename is atomic and a snapshot decodes to what was encoded.

## Where the code and its documentation differ

* `README.md:53-56` says a code is deleted the instant it is presented. The code deletes it only
  after the request has shown its parameters and authenticated its client
  (`internal/oidc/token.go:87-103`): `PresentationConsumes` gives the exact condition,
  `PresentationMayKeep` a presentation that keeps the code.
* `README.md:57-59` says each use of a refresh token revokes it. Two handlers that both validate it
  before either revokes it both go on (`internal/oidc/token.go:142-156`): `OverlapDoubles` builds that
  run. Without such an overlap a login of a stateless-mode client never has more than one row
  (`AtMostOneRow`). A stateful client's access tokens refresh as well, so its logins may have two rows
  and one more for each refresh (`RowsOfLogin`), and `BoundReached` builds runs that have as many.
* `internal/jwtutil/jwt.go:42-43` says any other claim round-trips through `Extra`. Decoding matches
  field names ignoring case, the last member in key order wins, and beside extras the integer fields
  are printed from a float64. `RoundTripExactly` says exactly which claims round-trip;
  `CaseVariantOverwrites` (a `sub` spelled with a long s, which sorts last) and `LateExpiryChanges` (an
  expiry of 2^60) are claims that do not.
* `README.md:68-70` promises that a rotation does not break fresh tokens. That needs a grace period of
  the token lifetime plus one second, and the second cannot be dropped: `GraceExact`.
* `README.md:100-103` calls the file backend durable. A revocation whose snapshot fails is reported
  as done (`internal/oidc/revoke.go:39-42`) but undone by a restart: `DeletionLost`. It survives exactly
  if some operation from it on reported a change saved: `RemovalSurvives`, `RemovalSurvivesRestart`.
  After such a failure even a sweep can matter: deleting the expired row it dropped would have saved
  the table again (`FailedSnapshotShows`).
* `internal/session/backend.go:20-21` describes a journal with periodic snapshots; the code rewrites
  the whole snapshot on every change (`internal/session/backend_file.go:51-66`), and so does the model.

## Model

| member | source | states |
|---|---|---|
| KeyCoverage.LiveTokenFindsKey | internal/session/stateless.go:68-81 | in every reachable state, for every token signed since the start and every signature about to be made, access or ID token: the key lookup finds its key if the time check passes it then or at a later reading of the clock, and the grace period covers the lifetime plus a second |
| KeyCoverage.GraceExact | internal/jwtutil/jwt.go:279-288 | that extra second, from truncating to whole seconds, is necessary and sufficient for one key rotated out and pruned |
| ShortGrace.ShortGraceLosesKey | internal/keys/manager.go:156-169 | with a shorter grace period, from every reachable state in which a handler is about to mint an access JWT, and for every expiry second, there is a run to a state where that token is live, its key is not found and it is refused |
| ShortGrace.ShortGraceLosesIdKey | internal/oidc/token.go:220-240 | the same for the ten-minute ID token, from every reachable state in which a handler is about to mint one |
| KeyCoverage.StepCovered | internal/keys/manager.go:141-169 | every step keeps: a signature's key is active, or was retired after the token's clock reading, or a whole grace period has passed since that reading |
| CodeReplay.PassesOnce | internal/oidc/token.go:98-126 | once an exchange passes its checks with a code, no later step of any continuation passes with that code, however many handlers overlap |
| CodeReplay.OneHandlerPerCode | internal/oidc/token.go:98-126 | no two handlers ever go on to issue tokens for the same code |
| CodeReplay.LookedUpIsGone | internal/oidc/token.go:98-108 | once an authenticated request has looked a code up, whatever its outcome, no later request finds it |
| CodeReplay.PresentationConsumes | internal/oidc/token.go:81-103 | presenting a stored code removes it exactly when the parameters are there and the client authenticates; otherwise nothing at all changes |
| CodeReplay.PresentationMayKeep | README.md:53-56 | for every stored code there is a presentation that leaves it stored |
| SingleUse.StepOnce | internal/oidc/authorize.go:178-192 | every step keeps: a stored code has not been looked up, and each redeemed code belongs to the one handler that took it under the lock |
| Admission.ClientsProved | internal/oidc/token.go:47-68 | in every reachable state, the client of every handler that took a code, of every redemption and of every refresh on record showed, by Basic or else in the body, its id, and is public or showed its registered secret; a refresh token was its own |
| Admission.WrongSecretChangesNothing | internal/oidc/token.go:47-68 | an unknown id, or a wrong secret for a confidential client: exchange, refresh and revocation change nothing at all |
| Admission.CodesAreProper | internal/oidc/authorize.go:90-192 | in every reachable state every stored code and every login on record is for a registered client, one of its redirect URIs, response type code and a non-empty S256 challenge, by a user with the right password; the code holds the redirect URI, scope, challenge and nonce asked for, the login's clock reading, and expires the configured time after the second one |
| Admission.ProperRequestStores | internal/oidc/authorize.go:90-192 | and every such request is accepted: with a user's right password it stores its code |
| Admission.ImproperRequestChangesNothing | internal/oidc/authorize.go:90-166 | any other request, or a wrong password, changes nothing |
| Grants.RefusesInOrder | internal/oidc/authorize.go:106-124 | a refused request is refused for the first thing amiss, nothing past the redirect URI being looked at before that is known to be registered |
| Grants.ExchangePassesExactly | internal/oidc/token.go:109-124 | an exchange passes if and only if it is in time, by the code's client, with its redirect URI and a fitting verifier; each refusal names the first of these that fails |
| Provenance.RowHasLogin | internal/oidc/token.go:165-208 | every table row carries subject, client and scope of a successful login, for a request with a registered client, one of its redirect URIs, the code flow and an S256 challenge, whose code that client redeemed in time, having shown its secret unless it is public, with the bound redirect URI and a verifier of 43 to 128 unreserved characters that hashes to the challenge |
| Provenance.AcceptedJwtHasLogin | internal/session/stateless.go:68-102 | the first two segments of every accepted JWT were signed for such a login, with the configured issuer, that login's subject and client, its scope or none for an ID token, and the times of its minting |
| Provenance.StepTraced | internal/oidc/token.go:81-208 | every step keeps: codes, handlers, rows and signatures all go back to a recorded login, and redemptions were proper |
| OpaqueTokens.NoResurrection | internal/session/stateful.go:57-94 | a known token that does not validate, because revoked, subject revoked, spent, expired or never issued, validates at some later point of a run if and only if a restart of that run loads its row from the disk |
| OpaqueTokens.RemovalSurvivesRestart | internal/session/backend_file.go:32-66 | after its row has gone, a token validates after the next restart if and only if the disk had the row, no snapshot was completed since and the row has not expired |
| OpaqueTokens.RevocationKills | internal/oidc/revoke.go:25-40 | after a token revocation, a subject revocation or the revocation inside a refresh, the row is gone and the token validates at a later point of a run if and only if a restart loads the row back |
| OpaqueTokens.SubjectRevocation | internal/session/bridge.go:83-89 | removes exactly the subject's rows, as many as it counts; every other opaque token and every JWT validates as before |
| OpaqueTokens.KindsNeverMix | internal/session/bridge.go:61-69 | in every reachable state a string accepted as stateful has no dot and is refused as a JWT, one accepted as stateless has three segments and no row |
| OpaqueTokens.StepSettles | internal/session/stateful.go:57-75 | every step keeps rows, in the table and on the disk, filed under hashes of seen, dot-free tokens and the two in agreement; short of a restart no row is rewritten and new rows are for unseen tokens |
| OpaqueTokens.StepTable | internal/session/backend_file.go:68-129 | a step runs at most one operation on the table, and the disk becomes the new table exactly if the operation changed something and its snapshot succeeds |
| DiskRuns.DiskIsCommitted | internal/session/backend_file.go:50-129 | over every run without a restart, the machine's table and disk are those of the file backend's own specification, run on the operations of the run and the fates of their snapshots |
| RefreshChain.RowsOfLogin | internal/oidc/token.go:129-208 | in every run that keeps handlers of the same refresh token apart, restarts from any snapshot included, a login has at most one table row, or with a stateful-mode client at most two and one more for each refresh the run had of it |
| RefreshChain.AtMostOneRow | internal/oidc/token.go:129-208 | so a login of a stateless-mode client never has two rows, and none while its code is stored |
| RefreshRuns.BoundReached | internal/oidc/token.go:142-208 | that bound is reached for every number of refreshes: a stateful client's handler left alone stores two rows, and refreshes one after another add a row each, none of them overlapping |
| RefreshChain.RefreshConserves | internal/oidc/token.go:142-208 | a refresh removes exactly the presented row; over the rest of any run its handler adds at most one row (a stateful client's at most two), with the same subject, client and scope |
| RefreshRuns.OverlapDoubles | internal/oidc/token.go:142-158 | whenever a refresh token of a stateless-mode client with `offline_access` is live, two overlapping handlers lead to two rows of the same login: the hypothesis of RowsOfLogin is needed |
| RefreshChain.RefreshAccepts | internal/oidc/token.go:129-150 | a refresh request goes on if and only if its client authenticates and the token has a live row of that client, of whatever kind, and with that row's session |
| RefreshChain.AccessTokenRefreshes | cmd/sidecar/main.go:60-67 | so a stateful client's access token, just minted, is taken for a refresh token of its login |
| RefreshChain.StepBounded | internal/oidc/token.go:129-208 | the invariant behind it: no step adds to the rows a login has or may still get, from its code, its handlers and the disk, except that spending a refresh token trades one for as many as a handler stores |
| Lifetimes.OpaqueWindow | internal/session/stateful.go:57-86 | an opaque token validates at every instant up to its minting clock reading plus its TTL and at none after, over every run that does not revoke it |
| Lifetimes.JwtWindow | internal/session/stateless.go:31-102 | given that grace period, a JWT is accepted, as stateless, up to its minting clock reading plus its TTL and refused from one second later, over every run without a restart, revocations included |
| Lifetimes.ExpiresInKept | internal/oidc/token.go:177-218 | in both modes, while not revoked or lost to a restart and with the same grace period, the access token of a response is accepted at every instant up to expires_in seconds after it was minted |
| Lifetimes.JwtNotOpaque | internal/session/bridge.go:61-69 | no JWT the server signs is the token of a table row |
| Cleanup.CleanupInvisible | internal/session/backend_memory.go:60-71 | runs that differ only in where rows are swept and codes pruned, and in which snapshots succeed, cannot be told apart by validations, now or later, nor by tokens issued or exchanges passed; with restarts, if each restart, in both runs, finds the same live rows on the disk as in the table |
| Cleanup.SavedRunsLookSame | internal/session/backend_file.go:50-129 | so it is, restarts included, when every snapshot that is due in the two runs succeeds |
| Sweeps.SweepHiddenExactly | internal/session/backend_file.go:113-129 | in every reachable state, a sweep, whether its own snapshot succeeds or not, shows in no continuation that saves the snapshots due, restarts included, if and only if it drops no row or table and disk have the same live rows |
| Sweeps.SweepsCanShow | internal/session/backend_file.go:50-129 | from every reachable state two honest logins lead to states with an expired row to sweep in which every sweep shows, one whose live row the disk lacks and one whose removed row the disk still has, and to one where table and disk agree |
| Sweeps.FailedSnapshotShows | internal/session/backend_file.go:85-129 | one failed snapshot makes a sweep show even there: with a live row beside the expired one, revoking the live token with a failing snapshot, then the expired one with a snapshot that succeeds, then restarting refuses the live token without the sweep and accepts it with the sweep |
| Cleanup.StepMatches | internal/oidc/server.go:125-132 | the simulation behind it: a step of the cleaned-up server is matched by the same step without cleanup, where restarts keep the table, leftovers being expired rows, expired codes and handlers bound to fail |
| Responses.EveryResponse | internal/oidc/token.go:165-208 | every response ever sent answers a grant of a properly redeemed login: the login and nonce of the code its handler redeemed, or else the refresh token its handler presented; that scope, an access token of the kind the client is registered for, with its expires_in, on record as a row or as the text of a signature made for that very grant over the claims that grant gets at some clock reading, an ID token so signed exactly for `openid`, a refresh row of that login exactly for `offline_access` |
| Responses.IssueSoFar | internal/oidc/token.go:178-207 | each step of issuing adds to the response exactly the token due, whose signature or row is on record for the grant, and only a complete response is sent |
| TokenClaims.IdTokenOfResponse | internal/oidc/token.go:220-240 | the second segment of every ID token ever delivered reads back as claims with the configured issuer, the login's subject and client, issue and expiry ten minutes apart; answering a code, with the login's clock reading as auth_time and the nonce of the login's query if it had one; answering a refresh, with the time the presented row was issued and no nonce; and with the subject's profile, which prevails over both, all of it but `sub` and nothing else |
| TokenClaims.AccessTokenOfResponse | internal/oidc/token.go:70-79 | a client registered with the word stateful always gets an opaque token with a row on record and the stateful lifetime in expires_in, one with stateless a JWT that reads back with the configured issuer, its login's subject, client and scope and the stateless lifetime, one with any other word what the configured default gives |
| HonestFlow.HonestExchange | internal/oidc/token.go:81-127 | from every reachable state, a stored code presented in time by its own client with the bound URI and a matching verifier has a run of its handler to a delivered response of that login |
| HonestFlow.HonestRefresh | internal/oidc/token.go:129-159 | so has a live refresh token presented by its own client |
| HonestFlow.LoginStores | internal/oidc/authorize.go:149-192 | and a valid login leads to a stored code that the matching exchange can redeem |
| HandlerRuns.LeadsReachable | internal/oidc/token.go:23-45 | what a handler's run leads to from a reachable state is reachable, so all of the above holds there |
| Server.Start | cmd/sidecar/main.go:38-110 | a server started on an empty table shows an initial state of the machine, one started on a loaded snapshot what a restart makes of a state that left it |
| Server.Server.ExchangeCode | internal/oidc/token.go:81-127 | the handler is a run of the machine and answers what it delivers; the error names the first check that fails; the code is consumed exactly when parameters and client are right; once the checks pass, the exact tokens of the code's grant, or a server error exactly if the mode is unknown or a draw or snapshot that is needed fails; table and disk exactly |
| Server.Server.FinishExchange | internal/oidc/token.go:105-127 | the part after the lock: expiry, client, redirect URI, verifier in that order, then exactly the tokens of the grant and its rows |
| Server.Server.Refresh | internal/oidc/token.go:129-159 | the handler is a run of the machine; the errors come in the order of the checks and leave table and disk alone; an accepted token is spent, its row gone whether or not tokens come out, and the answer and the new rows are exactly those of its login's grant |
| Server.Server.FinishRefresh | internal/oidc/token.go:152-159 | the part from the revocation on: the presented row is gone whatever fails, on the disk too if a snapshot is saved, and the answer is exactly that of issuing for its row's login |
| Server.Server.IssueTokenSet | internal/oidc/token.go:165-208 | from the grant to the response as a run of the machine: there is one if and only if the mode is known and every draw and snapshot that is needed succeeds, and its tokens, the table and the disk are exactly the grant's |
| Server.Server.IssueAccess | internal/oidc/token.go:165-183 | the access token in the client's mode, none exactly for an unknown mode, a failed draw or a stateful row whose snapshot fails, with the row or the signature the machine records |
| Server.Server.IssueId | internal/oidc/token.go:185-192 | exactly when the scope has `openid`, the active key's token over the grant's claims; no row changes |
| Server.Server.IssueRefresh | internal/oidc/token.go:194-205 | a refresh row exactly when the scope has `offline_access` and the draw succeeds; the handler fails exactly if the draw or the snapshot does |
| Server.Server.MintIdToken | internal/oidc/token.go:220-240 | the method signs the specification's claims, of which `IdTokenOfResponse` says what is in them, with the profile copied in a loop, and the active key |
| Server.Server.ProcessLogin | internal/oidc/authorize.go:149-192 | the handler is the machine's login step, with its three readings of the clock; its errors name the failing check and change nothing |
| Server.Server.PruneExpiredCodes | internal/oidc/server.go:125-132 | the deleting loop keeps exactly the codes that have not expired |
| Server.Server.Authenticate | internal/oidc/token.go:51-68 | the method is the specification's decision, of which `Admission` says whom it lets in |
| Server.Server.CheckAuthRequest | internal/oidc/authorize.go:90-132 | the method is the specification's decision, of which `Admission` and `RefusesInOrder` say what it lets through and what it answers |
| Server.Server.Revoke | internal/oidc/revoke.go:16-42 | a run of the machine whose two deletions together drop exactly the token's row, for any authenticated client, on the disk only if the first snapshot is saved |
| Server.RedirectAllowed | internal/oidc/clients.go:17-24 | the search loop finds a URI exactly when it is registered |
| Server.AsksFor | internal/oidc/token.go:242-249 | the search loop agrees with the words of the scope |
| Server.ClientRegistry.Register | internal/oidc/clients.go:39-43 | clients stay filed under their own id |
| Server.ClientRegistry.Get | internal/oidc/clients.go:45-50 | a registered client is always found, and one that is found bears the id asked for as long as clients are filed under their own ids, which Register keeps |
| SessionStores.OpaqueStore.Create | internal/session/stateful.go:57-75 | the new row, under the token's hash, with the times and default id; a failed snapshot loses the token but not the row |
| SessionStores.OpaqueStore.Validate | internal/session/stateful.go:77-86 | the live row under the token's hash, over either backend |
| SessionStores.OpaqueStore.Revoke | internal/session/stateful.go:88-90 | removes the token's row and no other; when it reports an error |
| SessionStores.OpaqueStore.RevokeAllForSubject | internal/session/stateful.go:92-94 | removes and counts the subject's rows |
| SessionStores.JWTStore.Create | internal/session/stateless.go:31-66 | the token is signed by the active key over the session's claims, and nothing else is signed |
| SessionStores.JWTStore.Validate | internal/session/stateless.go:68-102 | the session of the claims, when the key resolves, the signature verifies and the times pass |
| SessionStores.JWTStore.CopyIn | internal/session/stateless.go:53-58 | the loop copies every extra |
| SessionStores.JWTStore.CopyOut | internal/session/stateless.go:93-100 | the loop copies exactly the extras that are strings |
| SessionStores.Bridge.Create | internal/session/bridge.go:39-45 | each mode creates in its own store and leaves the other alone; an unknown mode is refused |
| SessionStores.Bridge.Validate | internal/session/bridge.go:49-55 | each mode asks its own store |
| SessionStores.Bridge.ValidateAny | internal/session/bridge.go:61-69 | the row's session at the first reading of the clock, else the JWT's at the second, which may be later; at one instant, what the machine accepts |
| SessionStores.Bridge.Revoke | internal/session/bridge.go:75-81 | removes the row in stateful mode; stateless mode is refused and changes nothing |
| SessionStores.Bridge.RevokeAllForSubject | internal/session/bridge.go:87-89 | stateful sessions only |
| KeyManager.Manager.NewManager | internal/keys/manager.go:83-91 | an unsupported algorithm or failed generation yields no manager |
| KeyManager.Manager.Generate | internal/keys/manager.go:93-114 | the sequence number is spent whether or not a key comes out |
| KeyManager.Manager.AppendRetired | internal/keys/manager.go:149 | Go's append: in place while there is room, else a copy, older entries unchanged |
| KeyManager.Manager.Rotate | internal/keys/manager.go:141-154 | the active key joins the end of the retired list and the new one takes over; a failure changes only the sequence number |
| KeyManager.Manager.Prune | internal/keys/manager.go:156-169 | the in-place filter over the slice's own array keeps exactly the keys retired after the cutoff, in order |
| KeyManager.Manager.ActiveSigner | internal/keys/manager.go:172-176 | the active key |
| KeyManager.Manager.Verifier | internal/keys/manager.go:181-193 | the search loop agrees with the ring's lookup |
| KeyManager.Manager.JWKS | internal/keys/manager.go:215-237 | the published document: active key first, then every retired one |
| KeyRing.PruneDropsPrefix | internal/keys/manager.go:156-169 | the list stays ordered by retirement time, so pruning drops exactly a prefix |
| KeyRing.RoundsBound | internal/keys/manager.go:116-169 | with rotations at least R apart, at most ceil(G/R) retired keys are left after every rotate-and-prune of any schedule |
| KeyRing.KidIff | internal/keys/manager.go:93-96 | two kids are the same if and only if algorithm, second and sequence number are |
| KeyNames.KidsDistinct | internal/keys/manager.go:83-114 | of all keys ever made in a run, two share a kid if and only if they were made in different lives of the process under the same algorithm, in the same second, with the same number |
| KeyRing.FindHeld | internal/keys/manager.go:181-193 | every held key is found by its kid |
| KeyRing.FindOnlyHeld | internal/keys/manager.go:181-193 | what is found is held and has the kid asked for |
| KeyRing.PublishedIffFound | internal/keys/manager.go:181-237 | a kid is published exactly when the lookup resolves it, to the same key |
| KeyRing.PublishedDistinct | internal/keys/manager.go:215-237 | published kids are distinct |
| KeyRing.PublishedForms | internal/keys/manager.go:195-237 | active key first, then the retired ones, oldest first, each with the key type, curve, use and algorithm name its kind of key has, the name its tokens' headers carry |
| KeyRing.KidWritten | internal/keys/manager.go:93-96 | a kid is algorithm, second and sequence number in decimal |
| Middleware.CachedKeyOutlivesToken | examples/middleware/middleware.go:169-228 | a key set cached in a reachable state resolves every token whose signer was fetched by then, as long as that token stays live |
| Middleware.CacheResolvesIffMade | examples/middleware/middleware.go:169-228 | of the keys the server holds at any later point of the same life, a cached key set answers for exactly those made by the time of the fetch, each with its own entry: a token under a newer key is not resolved until the next fetch |
| Middleware.JwksAgrees | internal/keys/manager.go:215-237 | in every reachable state a cached copy of the published keys answers as the server's own lookup |
| Middleware.CacheAnswers | examples/middleware/middleware.go:192-198 | the cache answers with an entry of the document, whenever there is one for the kid |
| Middleware.LocalValidator.RefreshIfStale | examples/middleware/middleware.go:169-200 | keys no older than the ttl are kept without a fetch; older ones are refetched, and a failed fetch is an error that keeps them; after success the keys are at most ttl old and are the document's if refetched |
| Middleware.LocalValidator.Keys | examples/middleware/middleware.go:220-228 | answers only from keys at most ttl old, of the refreshed cache |
| FileBackend.FileRefinesMap | internal/session/backend_file.go:50-129 | whatever snapshots fail, the table is the map specification's, and the disk holds it unless the last attempt failed |
| FileBackend.CrashAndReload | internal/session/backend_file.go:32-66 | stopping at any point of any operation after any run and loading yields exactly the table of the last completed rename |
| FileBackend.CrashAtomic | internal/session/backend_file.go:51-66 | within one operation: the table before the snapshot or the one after, never a mixture |
| FileBackend.RemovalSurvives | internal/session/backend_file.go:32-129 | after any run that removed a key the disk had and put it back never, a restart finds the key gone if and only if some operation from the removal on changed the table and reported its snapshot saved |
| FileBackend.PutSurvives | internal/session/backend_file.go:32-129 | after any run that put a row and left it there, a restart finds the row if and only if some operation from the put on changed the table and reported its snapshot saved |
| FileBackend.DeletionLost | internal/session/backend_file.go:85-93 | a deletion whose snapshot fails is back after a restart |
| FileBackend.FileBackend.Open | internal/session/backend_file.go:24-48 | an absent file is a fresh table, an undecodable one is refused |
| FileBackend.FileBackend.Snapshot | internal/session/backend_file.go:51-66 | every directory state on the way, for every point of failure |
| FileBackend.FileBackend.Put | internal/session/backend_file.go:68-73 | the specification's step and its trail of directory states |
| FileBackend.FileBackend.Get | internal/session/backend_file.go:75-83 | an expired row answers like an absent one |
| FileBackend.FileBackend.Delete | internal/session/backend_file.go:85-93 | no snapshot for an absent row |
| FileBackend.FileBackend.DeleteWhereSubject | internal/session/backend_file.go:95-111 | the counting loop; no snapshot when nothing goes |
| FileBackend.FileBackend.Sweep | internal/session/backend_file.go:113-129 | the counting loop; no snapshot when nothing goes |
| MemoryBackend.MemoryBackend.Put | internal/session/backend_memory.go:20-25 | the specification's step |
| MemoryBackend.MemoryBackend.Get | internal/session/backend_memory.go:27-38 | an expired row answers like an absent one |
| MemoryBackend.MemoryBackend.Delete | internal/session/backend_memory.go:40-45 | the specification's step |
| MemoryBackend.MemoryBackend.DeleteWhereSubject | internal/session/backend_memory.go:47-58 | removes and counts exactly the subject's rows |
| MemoryBackend.MemoryBackend.Sweep | internal/session/backend_memory.go:60-71 | removes and counts exactly the expired rows |
| Sessions.DeleteMatching | internal/session/backend_memory.go:50-57 | the deleting and counting loop, in any order of the map |
| Sessions.SubjectDeletion | internal/session/backend_memory.go:47-58 | the count is the number of rows gone, and other keys answer as before |
| Sessions.SweepInvisible | internal/session/backend_memory.go:60-71 | a sweep changes no lookup, now or later |
| Stores.CreateThenValidate | internal/session/stateless.go:31-102 | validating a created token gives back id, subject, client, scope and extras, with times truncated to seconds |
| Stores.CreateThenLookup | internal/session/stateful.go:57-86 | an opaque token just created validates up to its expiry and not after, with subject, client, scope and extras as given, its times, and the first sixteen characters of its row key for a missing id |
| Stores.ValidateAfterSign | internal/session/stateless.go:68-102 | a signed token validates exactly while its claims are live, if its key resolves |
| Stores.KindsDisjoint | internal/session/bridge.go:61-69 | what is accepted as stateful has no dot, what is accepted as stateless splits in three |
| Stores.HashTokenInjective | internal/session/stateful.go:96-99 | different tokens never share a row key |
| Jwt.SplitSigned | internal/jwtutil/jwt.go:251-277 | splitting a signed token returns exactly its header, claims, signing input and signature |
| Jwt.PeekSigned | internal/jwtutil/jwt.go:292-306 | peeking at a signed token returns the signer's kid and algorithm |
| Jwt.VerifySigned | internal/jwtutil/jwt.go:158-247 | for both algorithms: a signed token verifies under a key exactly when the algorithm agrees, that key signed this message and the times pass, and then gives the claims signed |
| Jwt.VerifyExactly | internal/jwtutil/jwt.go:158-277 | exactly which strings verify: three dot-free segments, a header that names the algorithm, claims that parse and are live, and a third segment with a valid signature, one that was made, over the first two |
| Jwt.HeaderWritten | internal/jwtutil/jwt.go:131-142 | a token's first segment is its header object, with the algorithm's registered name, typ JWT and the kid |
| Jwt.LiveExactly | internal/jwtutil/jwt.go:279-288 | the time check in instants: to the end of the expiry second, from the start of the not-before second |
| Jwt.SigningInputInjective | internal/jwtutil/jwt.go:131-142 | the signing input determines header and claims |
| Jwt.AcceptedMessage | internal/jwtutil/jwt.go:184-197 | whatever token text is accepted for a signed message, the claims reported are the claims signed |
| JwtClaims.RoundTripExactly | internal/jwtutil/jwt.go:58-106 | claims read back as they were if and only if there are no extras, or no extra has a registered name, extra numbers are float64 values, and for each field every member whose name matches it ignoring case fits it and the last of them in key order carries its value, numbers as printed from a float64 |
| JwtClaims.UnflattenFlatten | internal/jwtutil/jwt.go:58-106 | so the round trip holds when extra keys differ from the registered names even ignoring case and integers stay within 2^53, empty fields dropped and restored |
| JwtClaims.VariantDecides | internal/jwtutil/jwt.go:71-85 | beside a subject, an extra key that is `sub` but for case survives with it if and only if it repeats the subject or sorts before `sub` |
| JwtClaims.CaseVariantOverwrites | internal/jwtutil/jwt.go:79-85 | an extra `sub` spelled with a long s overwrites the subject; one in capitals does not |
| JwtClaims.LateExpiryChanges | internal/jwtutil/jwt.go:67-74 | with an extra, an expiry of 2^60 comes back as another number |
| JwtClaims.FieldsWritten | internal/jwtutil/jwt.go:42-66 | without extras the document is iss, sub, aud, exp, nbf, iat, jti, scope in this order, each with its field's value and left out when that is empty |
| JwtClaims.ExtrasWritten | internal/jwtutil/jwt.go:58-75 | with extras it has exactly the extras and, under the other of these names, the non-empty fields, one member a name, names ascending |
| JwtClaims.FoldsToSub | internal/jwtutil/jwt.go:79-85 | the spellings decoding takes for `sub` |
| JwtClaims.MarshalClaims | internal/jwtutil/jwt.go:58-75 | the document written: fields in declaration order, or with extras the map the loop fills, keys ascending |
| JwtClaims.CollectExtra | internal/jwtutil/jwt.go:91-104 | the map-filling loop keeps exactly the members that are not registered names |
| Pkce.EncodedVerifier | internal/pkce/pkce.go:20-32 | the encoding of n bytes is an acceptable verifier exactly for 32 to 96 bytes |
| Pkce.VerifyExactly | internal/pkce/pkce.go:20-62 | a verifier fits if and only if it has 43 to 128 unreserved characters and the challenge is the base64url text of its hash; only S256 is accepted |
| Pkce.PageFlowVerifies | cmd/sidecar/main.go:191-200 | a challenge made by the demo page always verifies |
| Pkce.ChallengeBinds | internal/pkce/pkce.go:53-62 | at most one verifier matches a challenge |
| Alphabet.EncodeSpellsNumber | internal/jwtutil/jwt.go:123-125 | each character of an encoding is a symbol of the base64url table, and the digits it stands for spell the number the bytes spell, shifted by the unused bits of the last character |
| Alphabet.DecodeReadsNumber | internal/jwtutil/jwt.go:127-129 | decoding accepts exactly text of the table's symbols whose length is not one over a multiple of four, and gives the number the digits spell without the unused bits |
| Alphabet.BreaksIgnored | internal/jwtutil/jwt.go:127-129 | line breaks anywhere change nothing |
| Base64Url.RoundTrip | internal/jwtutil/jwt.go:123-129 | decoding an encoding gives the bytes back |
| Base64Url.EncodeAfterDecode | internal/jwtutil/jwt.go:127-129 | re-encoding what the lenient decoder accepts gives the text back exactly when it is canonical |
| Base64Url.EncodeInjective | internal/jwtutil/jwt.go:123-125 | different bytes never encode alike |
| Base64Url.PageEncodeIsEncode | cmd/sidecar/main.go:191-196 | the page's pad, translate and strip encoder is the unpadded encoder |
| Text.FieldsAreStandingWords | internal/oidc/token.go:242-249 | a scope has a word exactly when the word stands in it between white space or the ends |
| Text.FieldsOfSpaced | internal/oidc/token.go:242-249 | words without white space, parted by plain spaces, are exactly the fields, in order |
| Text.SpacesListed | internal/oidc/token.go:242-249 | the white space characters, one by one |
| Text.SplitJoined | internal/jwtutil/jwt.go:252-255 | three dot-free parts joined by dots split into the same three |
| Text.SplitJoins | internal/jwtutil/jwt.go:252-255 | the pieces of any text are dot-free and joined by dots are the text |
| Text.DigitsRead | internal/keys/manager.go:93-96 | a printed number's figures read back as the number, without a leading zero |
| Grants.LiveWindow | internal/jwtutil/jwt.go:279-288 | the time check against the instants themselves, not whole seconds |
| Grants.IdClaimsSound | internal/oidc/token.go:220-239 | ID token claims survive the trip through JSON |
| Grants.ExpiresInBound | internal/oidc/token.go:178-183 | expires_in is the lifetime in whole seconds, rounded toward zero |
| Clock.UnixSecond | internal/jwtutil/jwt.go:279-288 | a Unix time is the second an instant falls in |
| BigEndian.Big64 | internal/jwtutil/jwt.go:316-327 | the bytes have the number as their value and no leading zero |
| BigEndian.MinimalUnique | internal/jwtutil/jwt.go:316-327 | such an encoding is unique |

## Left out

- HTTP routing, form and header parsing, templates, redirect URLs, the discovery document and the wording of errors: handlers start from parsed parameters.
- RSA, Ed25519, SHA-256, the random generator and constant-time comparison: foreign code, see `Primitives.Faithful`; drawn tokens are new when they first become visible.
- The bytes of JSON and gob: one round trip each is assumed. Numbers among the extras are Go integers, as the server puts them there, and text is valid UTF-8; booleans, objects, fractions and mixed arrays among the claims are carried as they are.
- Go's bounded integers: clock readings are taken to be in the range a float64 holds to the second (`Sidecar.ClockOk`), and the key sequence number does not overflow.
- `ttl.Seconds()` as a float64: its rounding matters only for lifetimes of many weeks that are not whole seconds.
- Power loss: the code never syncs a file, so only a stopped process is in scope.
- The rotation goroutine's timer: rotations and prunings are separate events at any time, so a handler can also run between the two; only that goroutine rotates.
- `NewTicker` refusing a period that is not positive, demo users, environment configuration, logging: no state worth proving; authentication and profiles are functions fixed for the run, profile keys apart from registered claim names.
- `RemoteValidator`, the example application and the unfinished `LocalValidator.Validate`.
- /userinfo: one call of `ValidateAny`, see `SessionStores.Bridge.ValidateAny`.
- Lifetimes.JwtWindow: a token whose expiry is second zero of the epoch is excluded, because the time check skips it.
