# Verification of the session and token lifecycle

This project models, in Dafny, the stateful core of the repository: the authorization server's codes,
refresh-token families, SSO sessions and their revocation; the stores underneath; the services' tenant
sessions and their refresh lock; login with a second factor; and a handful of self-contained algorithms
(Base32, TOTP, key-set fetching, rate limiting, redirect templates). It proves what holds of them over every
run, and, where something does not hold, exactly when it does.

`dafny verify dfyconfig.toml` checks everything.

## How it is laid out

| Files | What they hold |
|---|---|
| `Timed`, `KvStore` | Plain timed maps, and the three in-memory stores proved to behave like them |
| `SessionExpiry`, `SessionRepository` | Idle and absolute limits; the record of browser sessions |
| `AuthSpec`, `AuthService` | Each use case of the authorization server as a function on the state, and as a method that makes the store calls one after the other and is proved to equal that function |
| `AuthInvariant`, `AuthRuns`, `AuthTheorems` | The invariant of all stores and indexes, its preservation by every use case, and what follows for whole runs |
| `AuthAnswers`, `AuthFlows` | What each answer means and what is told to whom; a user's way from the authorization request to the code, the first refresh token and its successors |
| `TokenRace`, `TokenRaceTheorems` | The same codes and tokens with any number of requests in flight, every store call one step |
| `TokenRaceLimits` | What a revocation among other requests can miss, and what presenting one token twice can do |
| `TokenRaceAlone` | A request running alone does to codes, tokens and families what its use case in `AuthSpec` does, however it ends |
| `TenantSession`, `TenantSessionTheorems` | A service's sessions and their sid index, over the stores of `KvStore` |
| `RefreshLock`, `RefreshLockTheorems` | Concurrent refreshes of tenant sessions under the lock, every store call and every call to the authorization server one step |
| `LogoutRace`, `LogoutRaceTheorems` | A service's requests from loading a session to touching it, calling with it and retrying, among Back-Channel Logouts: when a logout is final |
| `Cognito`, `Users`, `Mfa`, `MfaService`, `MfaTheorems`, `MfaHistory` | Login from the password to the SSO session, and back from the session to the password |
| `Base32`, `Totp`, `Jwks`, `RateLimit`, `RedirectTemplate`, `FamilyRef`, `Text`, `Arithmetic` | The self-contained algorithms |

Every stateful object is a class whose methods are proved against functions on its abstract state; the
lemmas are about those functions. Random values come from a supply that never repeats; a secret and its
digest are the same name; sealing is the identity; S256, HMAC-SHA1 and the check of a code against a secret
are arbitrary functions (HMAC with digests of twenty bytes). The clock only moves forward.

## Two granularities

`AuthSpec` serves one use case at a time; its revocation theorems therefore speak of revocations that no
other request overlaps. `TokenRace` drops that assumption for codes, tokens and families: single use,
linearity of a family and "dead stays dead" hold in every interleaving, `RevocationSettles` says what a
revocation needs of the requests around it, and `TokenRaceLimits` that it needs all of it.

`TenantSession` serves one request at a time too, and its runs, with everything in `TenantSessionTheorems`
that speaks of runs, are runs of whole requests. `RefreshLock` has the steps of a refresh apart. `LogoutRace`
puts whole requests on top of those steps: a request loads its session, reads it again for a touch, saves it,
begins its API call whenever it likes, and may begin the retry, each in a step of its own, and
`LogoutRaceTheorems` says over those steps when a logout is final. The authorization server may answer every
presented token in any way there, except that after a step that makes it refuse a session's tokens
(apps/auth-api/src/application/usecases/global-logout.ts:52-63, which comes before the notifications) no token
of it presented later is answered with success.

## Where the code differs from what is said of it

* docs/design/04-token-design.md:127 says that presenting one refresh token twice at the same moment leaves
  the family alive. In some interleavings it does not: the second request can find the token already written
  back as rotated, and then revokes the family together with the successor just issued
  (`TokenRaceLimits.SimultaneousPresentationMayKill`).
* A family revocation that overlaps other requests can leave an active token, exactly when one of them is in
  the middle of issuing one (`TokenRaceLimits.RevocationMissesIff`); if tokens may also be taken meanwhile,
  exactly when the family was not dead before (`TokenRaceLimits.RevocationOutlivedIff`).
* Removing a member cuts refreshes off but not outstanding codes: every code is redeemed after the removal
  exactly when it was before (`AuthTheorems.RemovalKeepsCodes`).
* docs/design/10-logout-design.md:143 selects families by reading their tokens; the code selects them by the
  references listed under the sid, and so does the model.
* packages/oidc-client/src/api-client.ts:61-74 saves a session it read before it called the authorization
  server, api-client.ts:43 falls back on the session the request loaded (packages/oidc-client/src/middleware.ts:30,
  before the request's body is awaited in packages/web-core/src/app.ts:131), and the retry
  (api-client.ts:115-118) on the one the first call ended with. A Back-Channel Logout in between is undone: the
  session comes back outside the sid index. A logout is final for a session exactly when no request has it in
  hand, in a call, or for a retry (`LogoutRaceTheorems.LogoutFinalIff`); after the authorization server's own
  global logout, which refuses the tokens first, exactly when no request is about to save it: none that has yet
  to touch it, that presented its token before, or that has new tokens to store
  (`LogoutRaceTheorems.GlobalLogoutFinalIff`; see also `LogoutRaceTheorems.SavedAfterLogoutSurvives`,
  `TenantSessionTheorems.LateSaveKeepsIndex`).
* packages/oidc-client/src/session.ts:109 falls back to the session the request loaded earlier. A session
  destroyed in between comes back outside the sid index, where a repeated Back-Channel Logout does not find it
  (`TenantSessionTheorems.LateTouchKeepsIndex`, `LateTouchRevives`).
* packages/oidc-client/src/session.ts:101 promises that a touch never overwrites tokens refreshed at the same time.
  It reads before it writes, but not in one step: a refresh stored in between is undone, and the exchanged token
  can then be presented again (`LogoutRaceTheorems.TouchUndoesRefresh`; exactly when tokens are kept, in
  `LogoutRaceTheorems.TouchKeepsTokensIff`).
* apps/auth-api/src/application/usecases/sso-session.ts:105-108 writes the SSO session back as the request loaded
  it. A session revoked by its sid in between comes back outside the sid index: it loads by its cookie, the sid
  finds nothing, and revoking the sid again leaves it alive (`AuthTheorems.LateTouchRevives`; exactly when the
  touch is harmless, in `AuthTheorems.LateTouchKeepsIff`).
* packages/oidc-client/src/api-client.ts:43 has the same fallback; with it a waiting request can present a
  refresh token that was already exchanged (`RefreshLockTheorems.LoggedOutSessionReplays`).
* packages/oidc-client/src/api-client.ts:95 promises a refresh after an expired-token answer; it happens only
  when the stored session is itself due (`RefreshLockTheorems.ForcedRetrySendsIff`).
* packages/shared/src/jwks.ts:60-63 is never reached (`Jwks.RemoteJwksSource.GetKeys`).
* packages/shared/src/totp.ts:68 throws, rather than answering, for six digits in the first 30 seconds after
  the epoch (`Totp.ThreeSteps`).
* Of two set-ups of one user, the page opened first goes on showing a secret that is no longer checked
  (`MfaTheorems.SecondSetupOutdatesFirst`; exactly when, in `MfaTheorems.ShownSecretCheckedIff`).
* A redirect URI matches its service's template only if the base host was registered in lower case
  (`RedirectTemplate.RedirectUriMatchesIff`); tools/provision/src/main.ts:102 does not convert it.

## Model

| member | source | states |
|---|---|---|
| `KvStore.Sweep` | packages/shared/src/kv-store.ts:41-45 | Exactly the entries past their expiry are dropped |
| `KvStore.MemoryKeyValueStore.Get` | packages/shared/src/kv-store.ts:53-71 | Answers as a plain timed map that never deletes, although expired entries go lazily |
| `KvStore.MemoryKeyValueStore.Set` | packages/shared/src/kv-store.ts:63-75 | Writes value and expiry; the sweep every 256 writes is invisible |
| `KvStore.MemoryKeyValueStore.Update` | packages/shared/src/kv-store.ts:77-82 | Replaces a visible value, keeps its expiry, and says whether there was one |
| `KvStore.MemoryKeyValueStore.Delete` | packages/shared/src/kv-store.ts:84-86 | Removes the key |
| `KvStore.MemoryKeyValueStore.GetAndDelete` | packages/shared/src/kv-store.ts:88-93 | Hands out the visible value and removes the key in one step |
| `KvStore.MemoryKeyValueStore.SetIfAbsent` | packages/shared/src/kv-store.ts:95-99 | Writes only when nothing is visible, and says so |
| `KvStore.MemorySetStore.Add` | packages/shared/src/kv-store.ts:118-124 | Adds to the visible set and renews the expiry of the whole set |
| `KvStore.MemorySetStore.Remove` | packages/shared/src/kv-store.ts:126-128 | Removes a member without renewing the set |
| `KvStore.MemorySetStore.Members` | packages/shared/src/kv-store.ts:130-132 | The visible members |
| `KvStore.MemorySetStore.Delete` | packages/shared/src/kv-store.ts:134-136 | Removes the set |
| `KvStore.MemoryCounterStore.Increment` | packages/shared/src/kv-store.ts:145-156 | Counts up; the first count of a counter fixes its expiry |
| `KvStore.Replay` | packages/shared/src/kv-store.ts:47-100 | Any sequence of calls at non-decreasing times gets the answers of a plain timed map |
| `KvStore.ReplaySet` | packages/shared/src/kv-store.ts:102-137 | The same for any sequence of calls on the set store |
| `KvStore.ReplayCounts` | packages/shared/src/kv-store.ts:139-157 | The same for any sequence of increments |
| `KvStore.HandedOutOnce` | packages/shared/src/kv-store.ts:88-93 | Of two takes of a key with no write in between, the second finds nothing |
| `Timed.PutMeans` | packages/shared/src/kv-store.ts:73-75 | A value is seen until its expiry; no other key is affected |
| `Timed.UpdateMeans` | packages/shared/src/kv-store.ts:77-82 | An update is seen exactly as long as the value it replaces |
| `Timed.AddMemberMeans` | packages/shared/src/kv-store.ts:118-124 | The members before and the new one, all until the new expiry |
| `Timed.RemoveMemberMeans` | packages/shared/src/kv-store.ts:126-128 | The member is gone, the others are seen as long as before |
| `Timed.CountMeans` | packages/shared/src/kv-store.ts:145-156 | A count goes on from the one seen until the expiry of that, or starts at one |
| `SessionRepository.MemorySessionRepository.Create` | apps/auth-api/src/infrastructure/memory-session-repository.ts:20-22 | A new record, not revoked, seen now |
| `SessionRepository.MemorySessionRepository.Touch` | apps/auth-api/src/infrastructure/memory-session-repository.ts:24-33 | Updates environment and last sighting of a known session, answers the environment before |
| `SessionRepository.MemorySessionRepository.RecordClient` | apps/auth-api/src/infrastructure/memory-session-repository.ts:35-51 | Finds the entry by a scan, renews it or appends one |
| `SessionRepository.MemorySessionRepository.MarkRevoked` | apps/auth-api/src/infrastructure/memory-session-repository.ts:53-61 | Marks a known session revoked once; the first reason stays |
| `SessionRepository.MemorySessionRepository.ListActiveByUser` | apps/auth-api/src/infrastructure/memory-session-repository.ts:63-75 | The user's sessions that are neither revoked nor past a limit |
| `SessionRepository.MemorySessionRepository.ClientsOf` | apps/auth-api/src/infrastructure/memory-session-repository.ts:87-89 | Exactly the client and tenant pairs visited in the session |
| `SessionRepository.RecordedVisits` | apps/auth-api/src/infrastructure/memory-session-repository.ts:35-51 | Recording a client adds that visit and forgets none |
| `SessionRepository.RecordedKeeps` | apps/auth-api/src/infrastructure/memory-session-repository.ts:35-51 | One entry per session, client and tenant; the visit's entry is seen now and keeps its first sighting, every other entry stays |
| `AuthService.Server.CreateSsoSession` | apps/auth-api/src/application/usecases/sso-session.ts:61-91 | Stores session, index entry and record, as the specification does |
| `AuthService.Server.LoadSsoSessionByKey` | apps/auth-api/src/application/usecases/sso-session.ts:35-46 | Finds a session within both limits, and destroys one past them |
| `AuthService.Server.FindSsoSessionBySid` | apps/auth-api/src/application/usecases/sso-session.ts:49-56 | Finds it through the sid index |
| `AuthService.Server.TouchSsoSession` | apps/auth-api/src/application/usecases/sso-session.ts:97-124 | Renews the last sighting and records the client, without moving the absolute end |
| `AuthService.Server.DestroySsoSession` | apps/auth-api/src/application/usecases/sso-session.ts:126-131 | Removes session and index entry |
| `AuthService.Server.FinishLogin` | apps/auth-api/src/interface/http/routes/login.ts:93-97 | A new session, and the browser's previous one destroyed |
| `AuthService.Server.AuthorizeWithSession` | apps/auth-api/src/application/usecases/authorize.ts:55-99 | Issues a code bound to session, client, tenant and challenge, or the reason of the refusal in the order of the checks |
| `AuthService.Server.CreateRefreshTokenFamily` | apps/auth-api/src/application/usecases/refresh-tokens.ts:38-53 | A first token, its family's set, and the reference under the sid |
| `AuthService.Server.ConsumeRefreshToken` | apps/auth-api/src/application/usecases/refresh-tokens.ts:76-91 | Takes the token out and writes it back, rotated if it was active |
| `AuthService.Server.RotateRefreshToken` | apps/auth-api/src/application/usecases/refresh-tokens.ts:96-107 | A successor of the same grant, added to the family's set |
| `AuthService.Server.RevokeRefreshTokenFamily` | apps/auth-api/src/application/usecases/refresh-tokens.ts:112-127 | The loop revokes every stored member of the set and nothing else |
| `AuthService.Server.ExchangeAuthorizationCode` | apps/auth-api/src/application/usecases/token.ts:79-141 | Takes the code out first; then reuse, binding, session, user and tenant in order |
| `AuthService.Server.RefreshAccessToken` | apps/auth-api/src/application/usecases/token.ts:172-233 | Consumes first; reuse, foreign client and failed checks revoke the family |
| `AuthService.Server.RevokeRefreshToken` | apps/auth-api/src/application/usecases/token.ts:255-263 | Revokes the family of an own token |
| `AuthService.Server.RevokeSessionBySid` | apps/auth-api/src/application/usecases/global-logout.ts:42-79 | Families, session, indexes and record of the sid, and the clients to notify |
| `AuthService.Server.RevokeClientAccess` | apps/auth-api/src/application/usecases/global-logout.ts:95-117 | The loops over sessions and references revoke exactly the affected families |
| `AuthService.Server.InviteServiceMember` | apps/auth-api/src/application/usecases/service-members.ts:34-59 | Checks the contract, creates a missing user, activates the membership |
| `AuthService.Server.RevokeServiceMember` | apps/auth-api/src/application/usecases/service-members.ts:61-81 | Removes the membership and cuts the service's access off |
| `AuthRuns.InitialInv` | apps/auth-api/src/application/ports/stores.ts:94-109 | A freshly started server satisfies the invariant of stores and indexes |
| `AuthRuns.RunKeeps` | apps/auth-api/src/application/usecases/token.ts:79-263 | In every run of all use cases: the invariant holds, nothing dead comes back, nothing reuse detection needs is forgotten early |
| `AuthTheorems.NothingReturns` | apps/auth-api/src/application/usecases/refresh-tokens.ts:76-127 | A dead family stays dead, a barred one barred and an ended sid ended, in every continuation |
| `AuthTheorems.BarredGrantsNothing` | apps/auth-api/src/application/usecases/token.ts:236-250 | No request in any later run yields tokens of a family whose active tokens belong to ended sessions |
| `AuthTheorems.GrantedOnlyAlive` | apps/auth-api/src/application/usecases/token.ts:106-113 | Tokens are granted only in a live session, and only in a new family or one with an active token |
| `AuthTheorems.RevokeFamilyKills` | apps/auth-api/src/application/usecases/refresh-tokens.ts:112-127 | One pass over the set leaves no active token of the family, remembers each that was as revoked for twelve hours, and changes no other family |
| `AuthTheorems.RefreshRotatesOrKills` | apps/auth-api/src/application/usecases/token.ts:172-233 | Presenting a remembered token is granted exactly if it is active, the client's own, its session alive, and user, tenant, contract and membership are active; otherwise its family is dead |
| `AuthTheorems.RefreshHandsOver` | apps/auth-api/src/application/usecases/refresh-tokens.ts:76-107 | A granted refresh leaves one rotated token, one new active one of the same grant, and every other untouched |
| `AuthTheorems.RotatedTokenReused` | apps/auth-api/src/application/usecases/token.ts:181-192 | A rotated token presented again within twelve hours, by anyone and after any run, kills its family |
| `AuthTheorems.ExchangeGrantedIff` | apps/auth-api/src/application/usecases/token.ts:79-159 | A code is redeemed exactly by its client, redirect URI and verifier while its session lives |
| `AuthTheorems.CodeReused` | apps/auth-api/src/application/usecases/token.ts:88-101 | An exchanged code never yields tokens again; presented within ten minutes, after any run, it kills the family it minted |
| `AuthTheorems.LiveSessionFoundBySid` | apps/auth-api/src/application/usecases/sso-session.ts:49-91 | A live session is always reachable through the sid index |
| `AuthTheorems.SidNeverGrantsAgain` | apps/auth-api/src/application/usecases/global-logout.ts:42-60 | After a logout no code or refresh token of the sid yields tokens, in any later run |
| `AuthTheorems.LateTouchKeepsIff` | apps/auth-api/src/application/usecases/sso-session.ts:97-108 | Before the absolute limit, a touch with the session as loaded before any run keeps invariant and endings exactly when the session is still alive |
| `AuthTheorems.LateTouchRevives` | apps/auth-api/src/application/usecases/sso-session.ts:105-108 | After a revocation by sid and any run, such a touch brings the session back; the sid finds nothing, and revoking it again leaves the session alive |
| `AuthTheorems.LogoutRevokesEveryFamily` | apps/auth-api/src/application/usecases/global-logout.ts:52-60 | The list under the sid, never renewed by rotation, misses no family with an active token of a live session |
| `AuthTheorems.LogoutReachesEveryClient` | apps/auth-api/src/application/usecases/global-logout.ts:62-66 | Every client holding a code or token of the sid is notified, even without a session; tokens of other sids are unchanged |
| `AuthTheorems.RevokeMemberBars` | apps/auth-api/src/application/usecases/global-logout.ts:95-117 | Each existing family of the member at that client and tenant has no active token in a live session |
| `AuthTheorems.RevokeMemberSparesOthers` | apps/auth-api/src/application/usecases/service-members.ts:61-81 | Tokens of other members, clients and tenants, all sessions and all codes are unchanged |
| `AuthTheorems.RevokeMemberReachesEverySession` | apps/auth-api/src/application/usecases/global-logout.ts:101-116 | Every live session in which the client holds a code or token of the member is reported |
| `AuthTheorems.RemovedMemberNeverRefreshes` | apps/auth-api/src/application/usecases/service-members.ts:61-81 | The removed member's families never refresh again, also after a new invitation |
| `AuthTheorems.RevokeTokenOwnOnly` | apps/auth-api/src/application/usecases/token.ts:255-263 | An own token's family dies; for anything else nothing changes and no error is told |
| `AuthTheorems.LoginReplacesSession` | apps/auth-api/src/interface/http/routes/login.ts:93-97 | The browser's previous session is over in every later run, the new one alive, all others unchanged |
| `AuthTheorems.MemberMayAuthorizeIff` | apps/auth-api/src/application/usecases/authorize.ts:25-99 | With a session, an invited user gets a code exactly when the service is contracted and neither user nor tenant is suspended, and a removed one never |
| `AuthTheorems.InvitedMayEnterIff` | apps/auth-api/src/application/usecases/service-members.ts:34-59 | An invitation needs a tenant and its contract; it activates that membership, adds a missing user, and changes no other row |
| `AuthTheorems.RemovedMayNotEnter` | apps/auth-api/src/application/usecases/service-members.ts:61-81 | A removal needs tenant, contract and user; it takes that membership away and no other row |
| `AuthTheorems.AccessDeniedReason` | apps/auth-api/src/application/usecases/authorize.ts:25-48 | The access decision refuses exactly those for whom user, tenant, contract or membership is not active, and tells the first of them that fails |
| `AuthTheorems.AuthorizeGrantedIff` | apps/auth-api/src/application/usecases/authorize.ts:55-99 | A code is issued exactly to a live session whose user may enter; otherwise the first reason is told |
| `AuthFlows.AuthorizeIssues` | apps/auth-api/src/application/usecases/authorize.ts:76-99 | The code is under a new name, for a minute, bound to session, user, client, tenant, redirect URI and challenge; the session is seen now, its record shows browser and visit |
| `AuthFlows.CodeRedeemedIff` | apps/auth-api/src/application/usecases/token.ts:79-159 | From end to end, over any run: a code is redeemed exactly within a minute, by its client, with the redirect URI and a verifier of the challenge of its authorization request, while session, user and tenant are there, and for just that user, session, client and tenant |
| `AuthFlows.ExchangeHandsOver` | apps/auth-api/src/application/usecases/token.ts:118-141 | The token handed out was in no store before and is stored as the active one of a new family, for the code's grant and twelve hours, listed in set and sid; every other token is unchanged |
| `AuthFlows.FirstRefreshGrantedIff` | apps/auth-api/src/application/usecases/token.ts:172-233 | That token is refreshed exactly when the user may enter |
| `AuthFlows.SuccessorRefreshesIff` | apps/auth-api/src/application/usecases/token.ts:172-233 | So is every successor, after any run in which it stays active, while its session lives |
| `AuthFlows.BarredUntilLetIn` | apps/auth-api/src/application/usecases/authorize.ts:25-48 | Once user, tenant, contract or membership is not active, no code is issued and no token refreshed for them, in any run, until an edit or an invitation makes all of them active |
| `AuthAnswers.SessionAliveIff` | packages/shared/src/session-expiry.ts:26-35 | An SSO session lives for two hours after its last sighting, and at most twelve |
| `AuthAnswers.LoadMeans` | apps/auth-api/src/application/usecases/sso-session.ts:35-46 | A session is found exactly while it lives; one past a limit is destroyed with its index entry, no other is touched |
| `AuthAnswers.LoginCreates` | apps/auth-api/src/application/usecases/sso-session.ts:61-91 | With or without a previous session, a login answers a new session of the user, alive, found by its sid, and on record as active with the browser's environment |
| `AuthAnswers.InactiveClientRefused` | apps/auth-api/src/application/usecases/token.ts:41-76 | Whoever names no active client gets nothing and changes nothing |
| `AuthAnswers.ValidVerifierIff` | packages/shared/src/random.ts:20-30 | A verifier has 43 to 128 characters of those section 4.1 of RFC 7636 permits |
| `AuthAnswers.ExchangeRefusedWhy` | apps/auth-api/src/application/usecases/token.ts:79-159 | Why a code is refused, the first condition that fails; unless it was redeemed before, it is gone and no token has changed |
| `AuthAnswers.RefreshRefusedWhy` | apps/auth-api/src/application/usecases/token.ts:172-250 | Why a token is refused, the first condition that fails |
| `AuthAnswers.LogoutTells` | apps/auth-api/src/application/usecases/global-logout.ts:42-66 | Exactly the clients visited are notified; the record is marked, the first reason stays, other records are unchanged; index entry and family list of a live session go |
| `AuthAnswers.RemovalTells` | apps/auth-api/src/application/usecases/global-logout.ts:101-117 | The sessions reported are exactly the member's on record, neither revoked nor past a limit, in which the service got a code for the tenant |
| `AuthAnswers.RevokedTokenReused` | apps/auth-api/src/application/usecases/refresh-tokens.ts:112-127 | A token revoked with its family is answered as reused for twelve hours, by anyone and after any run, and its family never yields tokens again |
| `AuthTheorems.RemovalKeepsCodes` | apps/auth-api/src/application/usecases/token.ts:79-141 | A code is redeemed after the removal of a member exactly when it was before |
| `TokenRace.RunInv` | apps/auth-api/src/application/usecases/refresh-tokens.ts:38-157 | In every interleaving: families are linear, tokens covered by their set or about to be, consumed and minted names distinct |
| `TokenRaceTheorems.SingleUse` | apps/auth-api/src/application/usecases/token.ts:172-192 | In every interleaving no token is consumed twice, no code mints twice, and a family has at most one right to continue |
| `TokenRaceTheorems.ConsumedTokenPresentedAgain` | apps/auth-api/src/application/usecases/refresh-tokens.ts:76-91 | A second presentation is refused, or revokes the family, depending only on whether the token is written back yet |
| `TokenRaceTheorems.DeadStaysDead` | apps/auth-api/src/application/usecases/refresh-tokens.ts:96-127 | A family without active token or pending successor is never continued, in any interleaving |
| `TokenRaceTheorems.RevocationSettles` | apps/auth-api/src/application/usecases/refresh-tokens.ts:112-127 | A revocation with no issuance of the family in progress, and no token taken meanwhile, leaves it dead for good, whatever else runs in between |
| `TokenRaceLimits.RevocationMissesIff` | apps/auth-api/src/application/usecases/refresh-tokens.ts:96-127 | From every state: a revocation can leave an active token, although nobody takes one meanwhile, exactly when some request is in the middle of issuing one |
| `TokenRaceLimits.RevocationOutlivedIff` | apps/auth-api/src/application/usecases/refresh-tokens.ts:76-127 | If tokens may be taken meanwhile, it can exactly when the family is not dead yet |
| `TokenRaceLimits.SimultaneousPresentationMayKill` | apps/auth-api/src/application/usecases/token.ts:178-192 | Whenever two requests present one active token, some run issues a successor to one and ends with the family dead |
| `TokenRaceAlone.RefreshAlone` | apps/auth-api/src/application/usecases/token.ts:172-233 | The store calls of a lone refresh, granted or refused in any way, end in the stores the use case specifies |
| `TokenRaceAlone.ExchangeAlone` | apps/auth-api/src/application/usecases/token.ts:79-141 | The store calls of a lone exchange, granted, refused or of a reused code, end in the stores the use case specifies |
| `TokenRaceAlone.RevokeAlone` | apps/auth-api/src/application/usecases/refresh-tokens.ts:112-127 | The reads and writes of a lone revocation end in the stores the use case specifies |
| `TokenRaceAlone.RevokeTokenAlone` | apps/auth-api/src/application/usecases/token.ts:255-263 | The same for the revocation endpoint, with an own, a foreign and an unknown token |
| `FamilyRef.RoundTripIff` | apps/auth-api/src/application/usecases/refresh-tokens.ts:22-33 | A reference is read back as written exactly when no part has a colon |
| `FamilyRef.EncodeInjective` | apps/auth-api/src/application/usecases/refresh-tokens.ts:25-27 | Different colon-free references are different members |
| `TenantSession.KeysDiffer` | packages/oidc-client/src/session.ts:17-19 | Tenants with colon-free slugs never share a key |
| `TenantSession.TenantSessions.LoadSession` | packages/oidc-client/src/session.ts:28-41 | The session of the tenant's key; one past a limit is destroyed with its index entry |
| `TenantSession.TenantSessions.CreateSession` | packages/oidc-client/src/session.ts:56-82 | Session and index entry, both for the absolute lifetime |
| `TenantSession.TenantSessions.SaveSession` | packages/oidc-client/src/session.ts:85-97 | Stores the session as seen now, for what is left of its absolute lifetime |
| `TenantSession.TenantSessions.TouchSession` | packages/oidc-client/src/session.ts:103-110 | Writes only after the touch interval, and on the latest stored version |
| `TenantSession.TenantSessions.DestroySession` | packages/oidc-client/src/session.ts:112-118 | Removes session and index entry |
| `TenantSession.TenantSessions.DestroySessionsBySid` | packages/oidc-client/src/session.ts:123-130 | The loop removes every listed session and the set, and counts them |
| `TenantSession.LoadOwnTenant` | packages/oidc-client/src/session.ts:25-41 | A session is found only under its own tenant and id |
| `TenantSession.RunInv` | packages/oidc-client/src/session.ts:17-130 | In every run of whole requests stored expiry is creation plus twelve hours and each live session is listed under its sid |
| `TenantSessionTheorems.EverySessionListed` | packages/oidc-client/src/session.ts:76-80 | As long as requests run one at a time, a live session's key is in exactly its own sid's live set |
| `TenantSessionTheorems.LogoutReachesEveryTenant` | packages/oidc-client/src/session.ts:120-130 | No session of the sid is left in any tenant, now or in any later run of whole requests; others and their index are unchanged |
| `LogoutRace.RunRace` | packages/oidc-client/src/api-client.ts:29-92 | In every interleaving of refreshes, stored sessions keep who they are and when they end, and a live lock has a holder |
| `LogoutRace.RunScene` | packages/oidc-client/src/middleware.ts:30-33 | The same in every interleaving of whole requests; what a request has in hand, in its call or for its retry is a session as it was once created |
| `LogoutRaceTheorems.NeverReturns` | packages/oidc-client/src/api-client.ts:41-76 | An ended session that no request can still write, or past its absolute limit, stays ended in every continuation |
| `LogoutRaceTheorems.ReturnsIff` | packages/oidc-client/src/api-client.ts:41-118 | An ended session can come back exactly when, before its absolute limit, a request has it in hand, in a call or for a retry; with its tokens refused, exactly when a request has still to touch it, presented its token before, or has new tokens to store |
| `LogoutRaceTheorems.LogoutFinalIff` | packages/oidc-client/src/session.ts:120-130 | A Back-Channel Logout ends a listed session, for good exactly when no request can still write it in that sense |
| `LogoutRaceTheorems.GlobalLogoutFinalIff` | apps/auth-api/src/application/usecases/global-logout.ts:52-79 | With the tokens refused some time before the notification, it is final exactly when no request is about to save the session |
| `LogoutRaceTheorems.SavedAfterLogoutSurvives` | packages/oidc-client/src/api-client.ts:68-74 | A session saved after the logout is alive, missing from the index, and survives the logout repeated |
| `LogoutRaceTheorems.TouchKeepsTokensIff` | packages/oidc-client/src/session.ts:107-109 | A touch that is due reads the stored version and then saves just that; it keeps the tokens stored by then exactly when they are the ones it read |
| `LogoutRaceTheorems.TouchUndoesRefresh` | packages/oidc-client/src/session.ts:107-109 | A refresh stored between a touch's read and its save is undone, and some continuation presents the exchanged token again |
| `TenantSessionTheorems.EndedForGood` | packages/oidc-client/src/session.ts:28-41 | A session no request finds is found by none in any later run of whole requests |
| `TenantSessionTheorems.EndedNotFound` | packages/oidc-client/src/session.ts:33-40 | Loading finds nothing exactly when the session has ended |
| `TenantSessionTheorems.SteadyUseKeepsAlive` | packages/shared/src/session-expiry.ts:23-35 | Uses at most the idle limit less 60 s apart keep a session until its absolute limit |
| `TenantSessionTheorems.IdleEnds` | packages/shared/src/session-expiry.ts:29-31 | A gap of the idle limit, or the absolute limit, ends a session for good |
| `TenantSessionTheorems.GapOneSecondLongerEnds` | packages/shared/src/session-expiry.ts:23-24 | A gap one second longer than that can end it |
| `TenantSessionTheorems.LateTouchKeepsIndex` | packages/oidc-client/src/session.ts:103-110 | Exactly when touching a session loaded earlier leaves the index complete |
| `TenantSessionTheorems.LateTouchRevives` | packages/oidc-client/src/session.ts:109 | A touch after a Back-Channel Logout brings the session back, out of reach of its repetition |
| `TenantSessionTheorems.LateSaveKeepsIndex` | packages/oidc-client/src/session.ts:85-97 | Exactly when saving a session loaded earlier leaves the index complete |
| `TenantSessionTheorems.TouchKeepsStored` | packages/oidc-client/src/session.ts:99-110 | A touch with a copy loaded at any time before changes nothing of a stored session but its last sighting, and answers what it wrote; within a minute it writes nothing |
| `TenantSessionTheorems.LateTouchKeepsTokens` | packages/oidc-client/src/session.ts:99-110 | After any run, a touch with a copy loaded before the run keeps the tokens stored by then |
| `TenantSessionTheorems.EndedIff` | packages/shared/src/session-expiry.ts:26-35 | A tenant session lives for half an hour after its last sighting, and at most twelve hours |
| `TenantSessionTheorems.LoadMeans` | packages/oidc-client/src/session.ts:28-41 | Found exactly by its tenant and cookie while it lives; one past a limit is destroyed with its index entry, no other is touched |
| `TenantSessionTheorems.CallbackMeans` | packages/oidc-client/src/routes.ts:164-177 | A login stores the new session, found and listed under its sid, ends the browser's previous one, and no other |
| `TenantSessionTheorems.LogoutMeans` | packages/oidc-client/src/routes.ts:209 | A logout ends the browser's own session, index entry included, and no other |
| `TenantSessionTheorems.RefreshedMeans` | packages/oidc-client/src/api-client.ts:68-74 | A refresh alone stores the new tokens in the session found, seen now, for what is left of its lifetime |
| `RefreshLock.RunInv` | packages/oidc-client/src/api-client.ts:29-92 | In every orderly interleaving one request holds a session's lock and stored tokens are current |
| `RefreshLockTheorems.OneRefreshAtATime` | packages/oidc-client/src/api-client.ts:29-76 | At most one refresh of a session in flight; no token presented after a successful answer |
| `RefreshLockTheorems.ReloadPresentsAnsweredIff` | packages/oidc-client/src/api-client.ts:43-45 | A holder presents an answered token exactly when the session is gone and its own copy is that old |
| `RefreshLockTheorems.RefreshAlone` | packages/oidc-client/src/api-client.ts:37-76 | A request that finds the lock free stores and answers the new tokens and frees the lock |
| `RefreshLockTheorems.LoggedOutSessionReplays` | packages/oidc-client/src/api-client.ts:43 | Without the session staying, a run with prompt holders presents an exchanged token again |
| `RefreshLockTheorems.OverrunReplays` | packages/oidc-client/src/api-client.ts:38-48 | With a holder outliving the lock, a run that finds every session presents an exchanged token again |
| `RefreshLockTheorems.ForcedRetrySendsIff` | packages/oidc-client/src/api-client.ts:115-120 | The retry that finds the lock free presents a refresh token exactly when the stored session is due or gone |
| `RefreshLockTheorems.ForcedRetryWaits` | packages/oidc-client/src/api-client.ts:38-39 | The retry that finds the lock held waits and presents nothing |
| `RefreshLockTheorems.WaitingEnds` | packages/oidc-client/src/api-client.ts:79-92 | In every interleaving a waiting request never presents a token, has answered after 30 looks, and with no session that was due when it began |
| `RefreshLockTheorems.LookAnswersIff` | packages/oidc-client/src/api-client.ts:84-90 | A look answers "expired" exactly when the session is gone, and with the stored session exactly when it is not due |
| `RefreshLockTheorems.RefreshBeginsIff` | packages/oidc-client/src/api-client.ts:17-35 | A call answers at once exactly when its access token lasts for more than a minute, and otherwise goes for the lock |
| `RefreshLockTheorems.LockKeepsOut` | packages/oidc-client/src/api-client.ts:37-39 | A lock that is not released keeps other calls waiting for ten seconds and not longer |
| `RefreshLockTheorems.AnswersFresh` | packages/oidc-client/src/api-client.ts:29-92 | In every step, a session a call comes to answer with has an access token for more than a minute, or tokens just saved |
| `RefreshLockTheorems.RefusedRefreshEnds` | packages/oidc-client/src/api-client.ts:60-67 | A refused token ends session and index entry and is answered as expired; another failure keeps them; both free the lock |
| `Cognito.MockCognitoAuthenticator.AuthenticateUser` | apps/auth-api/src/infrastructure/mock-cognito.ts:62-80 | A challenge for an enrolled user, a token for another, nothing for a wrong password |
| `Cognito.MockCognitoAuthenticator.RespondToChallenge` | apps/auth-api/src/infrastructure/mock-cognito.ts:82-103 | Checks session, user and lifetime before the code; a session is used up by success only |
| `Cognito.MockCognitoAuthenticator.AssociateSoftwareToken` | apps/auth-api/src/infrastructure/mock-cognito.ts:105-113 | The user's pending secret is replaced |
| `Cognito.MockCognitoAuthenticator.VerifySoftwareToken` | apps/auth-api/src/infrastructure/mock-cognito.ts:115-125 | A code is checked against the pending secret |
| `Cognito.MockCognitoAuthenticator.EnableTotp` | apps/auth-api/src/infrastructure/mock-cognito.ts:127-135 | Only a verified secret is enrolled |
| `Cognito.RespondMeans` | apps/auth-api/src/infrastructure/mock-cognito.ts:82-103 | Exactly when a challenge is answered rightly, wrongly or not at all; only a right answer uses the session up |
| `Cognito.SessionUsedOnce` | apps/auth-api/src/infrastructure/mock-cognito.ts:82-103 | A session answered rightly once is never answered again |
| `Users.ResolveKeeps` | apps/auth-api/src/application/usecases/login.ts:151-173 | At most one row changes, it only gains a missing identity, and identities and addresses stay distinct |
| `Users.ResolveAgain` | apps/auth-api/src/application/usecases/login.ts:151-173 | Whoever may log in is found again by the same identity under any address |
| `Users.ResolveMeans` | apps/auth-api/src/application/usecases/login.ts:151-173 | The linked row; else the row with the address, linked now, or refused if linked to another identity; else a new active row; nobody's status changes |
| `MfaService.LoginFlow.PasswordLogin` | apps/auth-api/src/application/usecases/login.ts:41-82 | A pending challenge or set-up for five minutes, never a session |
| `MfaService.LoginFlow.ResolveUser` | apps/auth-api/src/application/usecases/login.ts:151-173 | By identity, then by an unlinked row's address, then a new row |
| `MfaService.LoginFlow.Finish` | apps/auth-api/src/application/usecases/login.ts:91-122 | A session unless the user is disabled |
| `MfaService.LoginFlow.CompleteTotpChallenge` | apps/auth-api/src/application/usecases/mfa.ts:53-93 | Counts wrong codes without renewing, ends at the fifth, finishes on a right one |
| `MfaService.LoginFlow.BeginTotpSetup` | apps/auth-api/src/application/usecases/mfa.ts:99-138 | Shows a secret younger than three minutes, or issues a new one |
| `MfaService.LoginFlow.CompleteTotpSetup` | apps/auth-api/src/application/usecases/mfa.ts:143-202 | Verifies, enrols and finishes, with the source's order of errors |
| `Mfa.RunInv` | apps/auth-api/src/application/usecases/mfa.ts:53-202 | In every run pending logins, Cognito's state and the sessions made agree |
| `MfaTheorems.AttemptsBounded` | apps/auth-api/src/application/usecases/mfa.ts:67-83 | At most five wrong codes per challenge, each counted, its expiry fixed at creation plus 300 s |
| `MfaTheorems.OverForGood` | apps/auth-api/src/application/usecases/login.ts:124-143 | Once gone, a pending login answers nothing but "expired" and makes no session, in any later run |
| `MfaTheorems.ChallengeEnds` | apps/auth-api/src/application/usecases/mfa.ts:76-89 | The fifth wrong code, 300 s, a code after 180 s, and success each end a challenge |
| `MfaTheorems.ChallengeCompletesIff` | apps/auth-api/src/application/usecases/mfa.ts:53-93 | Exactly when a code completes a challenge |
| `MfaTheorems.OneSessionPerLogin` | apps/auth-api/src/application/usecases/mfa.ts:89-92 | Sessions come from distinct pending logins, each of a user who passed the password, linked and active |
| `MfaTheorems.SessionNeedsFactor` | apps/auth-api/src/application/usecases/mfa.ts:53-202 | A session is made only with a code right for the secret then enrolled for that user |
| `MfaTheorems.EnrolledBy` | apps/auth-api/src/application/usecases/mfa.ts:143-179 | A set-up enrols exactly the secret last issued to the user, less than 180 s before, proved by a code |
| `MfaTheorems.OnlySetupEnrols` | apps/auth-api/src/infrastructure/mock-cognito.ts:127-135 | No other request changes an enrolled secret |
| `MfaTheorems.ShownSecretCheckedIff` | apps/auth-api/src/application/usecases/mfa.ts:108-116 | The secret shown again is the one checked exactly when it is the last issued to the user and not enrolled yet |
| `MfaTheorems.SecondSetupOutdatesFirst` | apps/auth-api/src/application/usecases/mfa.ts:108-116 | The first of two set-ups goes on showing a secret that is no longer checked |
| `MfaHistory.LoginMeans` | apps/auth-api/src/application/usecases/login.ts:41-82 | Refused, and nothing changed, exactly for a wrong password or unknown name; else a challenge exactly for the enrolled and a set-up for the others, under a new name for five minutes |
| `MfaHistory.SessionsBeganWithPassword` | apps/auth-api/src/application/usecases/login.ts:41-122 | Over runs: every session goes back to an earlier request with the right password of its user, answered with the pending login it was made for |
| `MfaHistory.LoggedInReturns` | apps/auth-api/src/application/usecases/login.ts:41-122 | Over runs: whoever is logged in returns to the very request the password was given for |
| `MfaHistory.ChallengeAnswers` | apps/auth-api/src/application/usecases/mfa.ts:53-93 | What a code for a challenge is answered, exactly when, and what is left of it |
| `MfaHistory.SetupAnswers` | apps/auth-api/src/application/usecases/mfa.ts:143-202 | What a code for a set-up is answered, in the source's order, and what is left of it |
| `MfaHistory.SetupCompletesIff` | apps/auth-api/src/application/usecases/mfa.ts:143-202 | Exactly when a code completes a set-up |
| `MfaHistory.SetupShows` | apps/auth-api/src/application/usecases/mfa.ts:99-138 | The secret shown before while younger than three minutes; otherwise one never given out, which is then checked |
| `MfaHistory.FinishAnswers` | apps/auth-api/src/application/usecases/login.ts:91-122 | A session exactly for a user who is not disabled; the second factor is noted once |
| `Base32.Base32Encode` | packages/shared/src/totp.ts:12-26 | The loop with 32-bit shifts writes groups of five bits, as section 6 of RFC 4648 defines |
| `Base32.Base32Decode` | packages/shared/src/totp.ts:28-44 | The loop with 32-bit shifts reads groups of eight bits back, or rejects a foreign character |
| `Base32.ShiftIn` | packages/shared/src/totp.ts:17-18 | Shifting in a group appends it to the pending bits although the word wraps |
| `Base32.RoundTrip` | packages/shared/src/totp.ts:12-44 | Every byte sequence is decoded from its encoding, also in lower case and with padding |
| `Base32.EncodedLength` | packages/shared/src/totp.ts:12-26 | ceil(8n/5) characters, all of the alphabet |
| `Base32.LetterMeans` | packages/shared/src/totp.ts:8-10 | The letters are those of the alphabet of section 6 of RFC 4648, in its order |
| `Totp.SixDigits` | packages/shared/src/totp.ts:51-65 | Reads in bounds, a 31-bit number, and exactly six digits that stand for it modulo a million |
| `Totp.TruncateMeans` | packages/shared/src/totp.ts:59-64 | The truncated number is that of four bytes from the offset, without the top bit (section 5.3 of RFC 4226) |
| `Totp.VerifyTotp` | packages/shared/src/totp.ts:68-75 | The loop tries the steps of the window in order; both sides of the comparison have six characters |
| `Totp.ScanMeans` | packages/shared/src/totp.ts:70-74 | A scan accepts exactly the codes of the steps in its window |
| `Totp.ThreeSteps` | packages/shared/src/totp.ts:68-75 | From 30 s on exactly the three adjacent steps are accepted; before that six digits throw |
| `Totp.CodesNearbyAccepted` | packages/shared/src/totp.ts:67-75 | A code made within 30 s of the check is accepted |
| `Jwks.RemoteJwksSource.GetKeys` | packages/shared/src/jwks.ts:49-68 | Cached, joined or started, with the branch at 60-63 proved unreachable |
| `Jwks.RemoteJwksSource.FetchDone` | packages/shared/src/jwks.ts:70-89 | New keys replace the cache; a failure falls back on it |
| `Jwks.RunInv` | packages/shared/src/jwks.ts:49-68 | In every run forced fetches are 60 s apart and others 600 s after any, once there is a cache |
| `Jwks.NeverFailsOnceCached` | packages/shared/src/jwks.ts:70-89 | Once there is a key set no call fails, in any run |
| `Jwks.StartsAreApart` | packages/shared/src/jwks.ts:64-67 | In every run the end of a fetch lies between two starts |
| `Jwks.UncachedNeverHeldBack` | packages/shared/src/jwks.ts:49-68 | As long as no fetch has brought keys, in every run every call joins the fetch in flight or starts one |
| `Jwks.StartsIff` | packages/shared/src/jwks.ts:49-68 | Exactly when a call starts a fetch |
| `Jwks.CachedIsLatest` | packages/shared/src/jwks.ts:70-89 | In every run calls answered from the cache, and callers of a failed fetch, get what the last successful fetch brought |
| `Jwks.StaleIsFetched` | packages/shared/src/jwks.ts:49-68 | In every run a call starts a fetch when none is in flight or younger than ten minutes, and is answered from the cache when one is |
| `Jwks.ForcedHeldBackIff` | packages/shared/src/jwks.ts:52-57 | A forced call holds further ones back for one minute, whatever else happens, and not longer |
| `Jwks.FetchesBounded` | packages/shared/src/jwks.ts:26-27 | At most one forced fetch per 60 s and one other per 600 s, and one more of each, in any interval |
| `RateLimit.Limit` | packages/shared/src/rate-limit.ts:33-47 | Counts the request under subject and window, and passes it up to the limit |
| `RateLimit.WholeSeconds` | packages/shared/src/rate-limit.ts:36 | Milliseconds fall in the window their whole second falls in |
| `RateLimit.KeysDiffer` | packages/shared/src/rate-limit.ts:37-38 | Subject and window are told apart by the key, even with colons in the subject |
| `RateLimit.CountsAll` | packages/shared/src/rate-limit.ts:36-39 | A counter holds the requests seen and cannot expire inside its window |
| `RateLimit.PassesIff` | packages/shared/src/rate-limit.ts:36-45 | A request passes exactly when fewer than the limit came before it in its window |
| `RateLimit.PassedInWindow` | packages/shared/src/rate-limit.ts:36-45 | Of a window's requests as many pass as there are, up to the limit |
| `RateLimit.AtMostTwiceTheLimit` | packages/shared/src/rate-limit.ts:29-47 | At most twice the limit in any interval as long as a window |
| `RedirectTemplate.MatchIff` | packages/shared/src/redirect-template.ts:10-30 | A URI matches with a slug exactly when it is the template expanded with that valid slug |
| `RedirectTemplate.ValidSlugIff` | packages/shared/src/redirect-template.ts:6 | A slug is valid exactly when it matches the pattern |
| `RedirectTemplate.ExpandMeans` | packages/shared/src/redirect-template.ts:10-12 | A valid slug takes the place of the first placeholder and nothing else changes |
| `RedirectTemplate.SlugUnique` | packages/shared/src/redirect-template.ts:18-30 | No two valid slugs expand to the same URI |
| `RedirectTemplate.ResolveIff` | packages/web-core/src/config.ts:99-104 | A host is a tenant's exactly when it is slug, dot and base host, in any case |
| `RedirectTemplate.RedirectUriMatchesIff` | packages/web-core/src/config.ts:105-109 | The URI built for a host matches its template with the same slug exactly when the base host is in lower case |

## Left out

- HTTP, cookies, forms, CSRF tokens, pending authorization requests and the React code: plumbing around the modelled use cases.
- Redis, PostgreSQL and the Cognito SDK: the stores are the in-memory ones, the identity tables are maps that an administrator may edit at any time, except that a registered client is neither removed nor given another internal id (AuthSpec.ClientsKept refuses such an edit), Cognito is the repository's own stand-in.
- Signing, sealing and hashing: ID and access tokens are not modelled; S256 and HMAC are arbitrary functions, a digest is identified with what it digests.
- Client authentication: a request names an active registered client.
- Audit entries, log lines and the reading of a family for them (refresh-tokens.ts:130-137).
- Delivery of Back-Channel Logout: a notification is a member of a set; whether a client is active or has a logout URI is not looked at.
- Lost updates between a read and its write-back in touchSession, touchSsoSession and updatePending: each is one atomic step in the runs, but a touch's read and save are apart in LogoutRace, and late touches are in LateTouchKeepsIndex and AuthTheorems.LateTouchKeepsIff. A refresh's read and its save are apart in RefreshLock and LogoutRace, and one step in TenantSession. The two writes of creating or destroying a session are one step everywhere.
- TenantSession.RunInv: requests run one at a time; what late saves and touches do is in LogoutRaceTheorems and in LateSaveKeepsIndex and LateTouchKeepsIndex.
- Families listed under a sid in the interleaving model: TokenRace has codes, tokens and family sets only.
- Checks that do not touch tokens in the interleaving model: client binding, PKCE, session and membership may go either way at any time.
- Redis's smallest lifetime of one second: entries written with a remaining lifetime of zero or less are simply never visible.
- AuthService.Server.InviteServiceMember: identifies the invited user by id; looking the user up by e-mail is modelled for logins in Users only.
- AuthService.Server.FinishLogin: starts where the user is settled; settling the user is modelled in MfaService, which records the sessions made instead of storing them.
- SessionRepository.MemorySessionRepository.ListActiveByUser: answers the set of sids, so the order by last sighting and the attached client entries are not captured.
- SessionRepository.MemorySessionRepository.ClientsOf: answers the visited pairs without their times of sighting.
- MfaService.LoginFlow.Finish: records the session made; storing it is AuthService.Server.CreateSsoSession.
- AuthService.Server.RevokeSessionBySid: Cognito's refresh token is not revoked, as tokens of Cognito are not stored in the model.
- Base32.Base32Decode: changes the case of ASCII letters only; the few other letters that JavaScript maps to ASCII when upper-casing are rejected here.
- RedirectTemplate.ResolveIff: converts ASCII letters only to lower case, as host names have no others.
- Permission resolution, masking, posts, end users and the portal's listing: easy members.
