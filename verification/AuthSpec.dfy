/** The authorization server's token and session lifecycle, one use case per function: what a
    use case does to the volatile stores and what it answers, with nothing else running. */
module AuthSpec {
  import opened Timed
  import opened SessionExpiry
  import opened SessionRepository

  const AUTHORIZATION_CODE_TTL_SECONDS := 60
  const CONSUMED_CODE_RETENTION_SECONDS := 10 * 60
  const REFRESH_TOKEN_TTL_SECONDS := 12 * 60 * 60
  const SSO_SESSION_ABSOLUTE_SECONDS := SSO_POLICY.absoluteSeconds

  datatype OidcClient = OidcClient(id: string, clientId: string, active: bool)

  /** The identity tables; a status is a bool, true for active. */
  datatype Identity = Identity(
    clients: map<string, OidcClient>,                 // by client_id
    users: map<string, bool>,
    tenants: map<string, bool>,
    contracts: map<(string, string), bool>,           // tenant, client
    memberships: map<(string, string, string), bool>) // tenant, client, user

  datatype SsoSession = SsoSession(id: nat, sid: nat, userId: string, createdAt: int, lastSeenAt: int)

  /** What a code or a refresh token is bound to. */
  datatype Grant = Grant(clientId: string, userId: string, tenantId: string, sid: nat, ssoSessionId: nat)

  datatype Code =
    | Unused(grant: Grant, redirectUri: string, codeChallenge: string)
    | Used(familyId: nat)

  datatype Status = Active | Rotated | Revoked

  datatype RefreshToken = RefreshToken(familyId: nat, grant: Grant, status: Status)

  datatype FamilyRef = FamilyRef(familyId: nat, clientId: string, tenantId: string)

  /** The volatile stores, the session records, the identity tables, the clock, the supply of
      names never used before, and the S256 function of PKCE. Secrets and their digests are
      identified. */
  datatype State = State(
    now: int,
    next: nat,
    codes: map<nat, Entry<Code>>,
    tokens: map<nat, Entry<RefreshToken>>,
    families: map<nat, Entry<set<nat>>>,
    sidFamilies: map<nat, Entry<set<FamilyRef>>>,
    sso: map<nat, Entry<SsoSession>>,
    sidIndex: map<nat, Entry<nat>>,
    repo: Repo,
    identity: Identity,
    s256: string -> string)

  datatype Reply =
    | Granted(token: nat, familyId: nat, grant: Grant)
    | CodeIssued(code: nat)
    | LoggedIn(session: SsoSession)
    | Notified(clients: set<string>)
    | AccessRevoked(sids: set<nat>)
    | Rejected(reason: string)
    | Done

  // ---------- SSO sessions ----------

  predicate Expired(session: SsoSession, now: int) {
    IsExpired(SSO_POLICY, session.createdAt, session.lastSeenAt, now)
  }

  function Destroy(s: State, session: SsoSession): State {
    s.(sso := s.sso - {session.id}, sidIndex := s.sidIndex - {session.sid})
  }

  /** The session of a key; one past its idle or absolute limit is destroyed on the way. */
  function LoadSession(s: State, key: nat): (State, Option<SsoSession>) {
    match Get(s.sso, key, s.now)
    case None => (s, None)
    case Some(session) => if Expired(session, s.now) then (Destroy(s, session), None) else (s, Some(session))
  }

  function FindSessionBySid(s: State, sid: nat): (State, Option<SsoSession>) {
    match Get(s.sidIndex, sid, s.now)
    case None => (s, None)
    case Some(key) => LoadSession(s, key)
  }

  function CreateSession(s: State, userId: string, environment: Environment): (State, SsoSession) {
    var session := SsoSession(s.next, s.next + 1, userId, s.now, s.now);
    (s.(next := s.next + 2,
        sso := Put(s.sso, session.id, session, s.now, SSO_SESSION_ABSOLUTE_SECONDS),
        sidIndex := Put(s.sidIndex, session.sid, session.id, s.now, SSO_SESSION_ABSOLUTE_SECONDS),
        repo := Created(s.repo, session.sid, userId, environment, s.now)), session)
  }

  function TouchSession(s: State, session: SsoSession, client: OidcClient, tenantId: string,
                        environment: Environment): State {
    var updated := session.(lastSeenAt := s.now);
    var repo := Touched(s.repo, session.sid, environment, s.now);
    s.(sso := Put(s.sso, updated.id, updated, s.now, RemainingTtl(SSO_POLICY, updated.createdAt, s.now)),
       repo := repo.(clients := Recorded(repo.clients, session.sid, client.id, tenantId, s.now)))
  }

  /** A finished login: the browser's previous session, if any, does not outlive it. */
  function Login(s: State, previous: Option<nat>, userId: string, environment: Environment): (State, Reply) {
    var (created, session) := CreateSession(s, userId, environment);
    if previous.None? then (created, LoggedIn(session))
    else
      var (loaded, earlier) := LoadSession(created, previous.value);
      (if earlier.Some? then Destroy(loaded, earlier.value) else loaded, LoggedIn(session))
  }

  // ---------- Access decision and codes ----------

  /** None when the user may enter; otherwise the reason, checked in this order. */
  function AccessDenied(identity: Identity, client: OidcClient, tenantId: string, userId: string): Option<string>
    requires tenantId in identity.tenants
  {
    if userId !in identity.users || !identity.users[userId] then Some("user_disabled")
    else if !identity.tenants[tenantId] then Some("tenant_suspended")
    else if (tenantId, client.id) !in identity.contracts || !identity.contracts[(tenantId, client.id)]
    then Some("not_contracted")
    else if (tenantId, client.id, userId) !in identity.memberships then Some("no_membership")
    else if !identity.memberships[(tenantId, client.id, userId)] then Some("membership_inactive")
    else None
  }

  function Authorize(s: State, cookie: nat, client: OidcClient, tenantId: string, redirectUri: string,
                     codeChallenge: string, environment: Environment): (State, Reply) {
    if tenantId !in s.identity.tenants then (s, Rejected("invalid_redirect_uri"))
    else
      match LoadSession(s, cookie)
      case (loaded, None) => (loaded, Rejected("login_required"))
      case (loaded, Some(session)) =>
        match AccessDenied(s.identity, client, tenantId, session.userId)
        case Some(reason) => (loaded, Rejected(reason))
        case None =>
          var code := Unused(Grant(client.clientId, session.userId, tenantId, session.sid, session.id), redirectUri,
                             codeChallenge);
          var issued := loaded.(next := s.next + 1,
                                codes := Put(s.codes, s.next, code, s.now, AUTHORIZATION_CODE_TTL_SECONDS));
          (TouchSession(issued, session, client, tenantId, environment), CodeIssued(s.next))
  }

  // ---------- Refresh-token families ----------

  /** Stores a new active token in a family and in the family's set. */
  function StoreToken(s: State, familyId: nat, grant: Grant): State {
    s.(next := s.next + 1,
       tokens := Put(s.tokens, s.next, RefreshToken(familyId, grant, Active), s.now, REFRESH_TOKEN_TTL_SECONDS),
       families := AddMember(s.families, familyId, s.next, s.now, REFRESH_TOKEN_TTL_SECONDS))
  }

  /** A new family is also listed under its sid. */
  function CreateFamily(s: State, grant: Grant): State {
    var stored := StoreToken(s.(next := s.next + 1), s.next, grant);
    stored.(sidFamilies := AddMember(s.sidFamilies, grant.sid, FamilyRef(s.next, grant.clientId, grant.tenantId),
                                     s.now, REFRESH_TOKEN_TTL_SECONDS))
  }

  /** Every stored token among `keys` becomes revoked, and is remembered for a full lifetime. */
  function RevokeKeys(tokens: map<nat, Entry<RefreshToken>>, keys: set<nat>, now: int): map<nat, Entry<RefreshToken>> {
    map k | k in tokens ::
      if k in keys && Live(tokens, k, now)
      then Entry(tokens[k].value.(status := Revoked), now + REFRESH_TOKEN_TTL_SECONDS)
      else tokens[k]
  }

  function RevokeFamily(s: State, familyId: nat): State {
    s.(tokens := RevokeKeys(s.tokens, Members(s.families, familyId, s.now), s.now))
  }

  function KeysOf(s: State, refs: set<FamilyRef>): set<nat> {
    set ref, k | ref in refs && k in Members(s.families, ref.familyId, s.now) :: k
  }

  function RevokeFamilies(s: State, refs: set<FamilyRef>): State {
    s.(tokens := RevokeKeys(s.tokens, KeysOf(s, refs), s.now))
  }

  // ---------- The token endpoint ----------

  predicate ValidVerifier(v: string) {
    43 <= |v| <= 128 && forall c :: c in v ==>
      'A' <= c <= 'Z' || 'a' <= c <= 'z' || '0' <= c <= '9' || c in "-._~"
  }

  /** None when the code may be redeemed by this client with this request. */
  function BindingError(code: Code, client: OidcClient, redirectUri: string, verifier: string,
                        s256: string -> string): Option<string>
    requires code.Unused?
  {
    if code.grant.clientId != client.clientId then Some("client_mismatch")
    else if code.redirectUri != redirectUri then Some("redirect_uri_mismatch")
    else if !ValidVerifier(verifier) then Some("code_verifier_invalid")
    else if s256(verifier) != code.codeChallenge then Some("pkce_mismatch")
    else None
  }

  /** grant_type=authorization_code. A code is taken out before anything is checked; a code that
      was exchanged before takes its whole family down. */
  function Exchange(s: State, client: OidcClient, code: nat, redirectUri: string, verifier: string): (State, Reply) {
    var taken := s.(codes := s.codes - {code});
    var stored: Option<Code> := Get(s.codes, code, s.now);
    if stored.None? then (taken, Rejected("code_unknown_or_expired"))
    else if stored.value.Used? then
      (RememberCode(RevokeFamily(taken, stored.value.familyId), code, stored.value.familyId), Rejected("code_reused"))
    else
      var grant := stored.value.grant;
      match BindingError(stored.value, client, redirectUri, verifier, s.s256)
      case Some(reason) => (taken, Rejected(reason))
      case None =>
        var (loaded, session) := LoadSession(taken, grant.ssoSessionId);
        if session.None? then (loaded, Rejected("sso_session_expired"))
        else if grant.userId !in s.identity.users then (loaded, Rejected("user_missing"))
        else if grant.tenantId !in s.identity.tenants then (loaded, Rejected("tenant_missing"))
        else (RememberCode(CreateFamily(loaded, grant), code, s.next), Granted(s.next + 1, s.next, grant))
  }

  function RememberCode(s: State, code: nat, familyId: nat): State {
    s.(codes := Put(s.codes, code, Used(familyId), s.now, CONSUMED_CODE_RETENTION_SECONDS))
  }

  /** grant_type=refresh_token. The token is consumed first; every failure after that, and every
      token that was not active, takes its whole family down. */
  function Refresh(s: State, client: OidcClient, token: nat): (State, Reply) {
    match Get(s.tokens, token, s.now)
    case None => (s.(tokens := s.tokens - {token}), Rejected("refresh_token_unknown_or_expired"))
    case Some(stored) =>
      if !stored.status.Active? then
        (RevokeFamily(WriteBack(s, token, stored), stored.familyId), Rejected("refresh_token_reused"))
      else
        var consumed := WriteBack(s, token, stored.(status := Rotated));
        if stored.grant.clientId != client.clientId then
          (RevokeFamily(consumed, stored.familyId), Rejected("client_mismatch"))
        else
          match RefreshContext(consumed, client, stored.grant)
          case (checked, Some(reason)) => (RevokeFamily(checked, stored.familyId), Rejected(reason))
          case (checked, None) =>
            (StoreToken(checked, stored.familyId, stored.grant), Granted(s.next, stored.familyId, stored.grant))
  }

  function WriteBack(s: State, token: nat, record: RefreshToken): State {
    s.(tokens := Put(s.tokens, token, record, s.now, REFRESH_TOKEN_TTL_SECONDS))
  }

  /** Is the session still alive and may the user still enter? None means yes. */
  function RefreshContext(s: State, client: OidcClient, grant: Grant): (State, Option<string>) {
    var (loaded, session) := LoadSession(s, grant.ssoSessionId);
    if session.None? then (loaded, Some("sso_session_expired"))
    else if grant.tenantId !in s.identity.tenants then (loaded, Some("tenant_missing"))
    else (loaded, AccessDenied(s.identity, client, grant.tenantId, grant.userId))
  }

  /** Revocation by the client that owns the token; an unknown token is no error. */
  function RevokeToken(s: State, client: OidcClient, token: nat): (State, Reply) {
    match Get(s.tokens, token, s.now)
    case None => (s, Done)
    case Some(stored) =>
      if stored.grant.clientId != client.clientId then (s, Done) else (RevokeFamily(s, stored.familyId), Done)
  }

  // ---------- Logout and members ----------

  function VisitedClients(repo: Repo, sid: nat): set<string> {
    set e | e in repo.clients && e.sessionId == sid :: e.oidcClientId
  }

  /** Logout of one sid everywhere. The clients to notify come from the session record, so they
      are known even when the session itself is already gone. */
  function RevokeSession(s: State, sid: nat, reason: RevokeReason): (State, Reply) {
    var (found, session) := FindSessionBySid(s, sid);
    var cleared :=
      if session.None? then found
      else
        var revoked := Destroy(RevokeFamilies(found, Members(found.sidFamilies, sid, s.now)), session.value);
        revoked.(sidFamilies := revoked.sidFamilies - {sid});
    (cleared.(repo := MarkedRevoked(cleared.repo, sid, reason, s.now)),
     Notified(if sid in s.repo.sessions then VisitedClients(s.repo, sid) else {}))
  }

  /** The active sessions of the user in which the client issued a code for the tenant. */
  function AffectedSids(s: State, userId: string, client: OidcClient, tenantId: string): set<nat> {
    set sid | sid in ActiveByUser(s.repo, userId, s.now) && Visited(s.repo, sid, client.id, tenantId)
  }

  /** The families of the client and tenant listed under these sids. */
  function RefsUnder(s: State, sids: set<nat>, client: OidcClient, tenantId: string): set<FamilyRef> {
    set sid, ref | sid in sids && ref in Members(s.sidFamilies, sid, s.now)
                   && ref.clientId == client.clientId && ref.tenantId == tenantId :: ref
  }

  function AffectedRefs(s: State, userId: string, client: OidcClient, tenantId: string): set<FamilyRef> {
    RefsUnder(s, AffectedSids(s, userId, client, tenantId), client, tenantId)
  }

  function ContractError(identity: Identity, client: OidcClient, tenantId: string): Option<string> {
    if tenantId !in identity.tenants then Some("tenant_not_found")
    else if (tenantId, client.id) !in identity.contracts || !identity.contracts[(tenantId, client.id)]
    then Some("not_contracted")
    else None
  }

  function InviteMember(s: State, client: OidcClient, tenantId: string, userId: string): (State, Reply) {
    match ContractError(s.identity, client, tenantId)
    case Some(reason) => (s, Rejected(reason))
    case None =>
      var users := if userId in s.identity.users then s.identity.users else s.identity.users[userId := true];
      (s.(identity := s.identity.(
         users := users, memberships := s.identity.memberships[(tenantId, client.id, userId) := true])), Done)
  }

  /** The member's sessions at the service are named, for the service to be told of each. */
  function RevokeMember(s: State, client: OidcClient, tenantId: string, userId: string): (State, Reply) {
    match ContractError(s.identity, client, tenantId)
    case Some(reason) => (s, Rejected(reason))
    case None =>
      if userId !in s.identity.users then (s, Rejected("user_not_found"))
      else
        (RevokeFamilies(s, AffectedRefs(s, userId, client, tenantId)).(
           identity := s.identity.(memberships := s.identity.memberships - {(tenantId, client.id, userId)})),
         AccessRevoked(AffectedSids(s, userId, client, tenantId)))
  }

  // ---------- Runs ----------

  /** Registered clients are never removed and never change their internal id. */
  ghost predicate ClientsKept(before: Identity, after: Identity) {
    && (forall c :: c in after.clients ==> after.clients[c].clientId == c)
    && (forall c :: c in before.clients ==> c in after.clients && after.clients[c].id == before.clients[c].id)
  }

  /** One event: time passes, an administrator edits the identity tables, or one request is served. */
  datatype Event =
    | Tick(seconds: nat)
    | EditIdentity(identity: Identity)
    | LoginRequest(previous: Option<nat>, userId: string, environment: Environment)
    | LoadRequest(cookie: nat)
    | AuthorizeRequest(cookie: nat, clientId: string, tenantId: string, redirectUri: string, codeChallenge: string,
                       environment: Environment)
    | ExchangeRequest(clientId: string, code: nat, redirectUri: string, verifier: string)
    | RefreshRequest(clientId: string, token: nat)
    | RevokeTokenRequest(clientId: string, token: nat)
    | RevokeSessionRequest(sid: nat, reason: RevokeReason)
    | InviteRequest(clientId: string, tenantId: string, userId: string)
    | RevokeMemberRequest(clientId: string, tenantId: string, userId: string)

  /** The client authenticated at an endpoint. */
  function Client(s: State, clientId: string): Option<OidcClient> {
    if clientId in s.identity.clients && s.identity.clients[clientId].active
    then Some(s.identity.clients[clientId])
    else None
  }

  ghost function Serve(s: State, e: Event): (State, Reply) {
    match e
    case Tick(seconds) => (s.(now := s.now + seconds), Done)
    case EditIdentity(identity) =>
      if ClientsKept(s.identity, identity) then (s.(identity := identity), Done) else (s, Rejected("refused"))
    case LoginRequest(previous, userId, environment) => Login(s, previous, userId, environment)
    case LoadRequest(cookie) => (LoadSession(s, cookie).0, Done)
    case RevokeSessionRequest(sid, reason) => RevokeSession(s, sid, reason)
    case _ =>
      match Client(s, e.clientId)
      case None => (s, Rejected("invalid_client"))
      case Some(client) => ServeClient(s, client, e)
  }

  ghost function ServeClient(s: State, client: OidcClient, e: Event): (State, Reply) {
    match e
    case AuthorizeRequest(cookie, _, tenantId, redirectUri, challenge, environment) =>
      Authorize(s, cookie, client, tenantId, redirectUri, challenge, environment)
    case ExchangeRequest(_, code, redirectUri, verifier) => Exchange(s, client, code, redirectUri, verifier)
    case RefreshRequest(_, token) => Refresh(s, client, token)
    case RevokeTokenRequest(_, token) => RevokeToken(s, client, token)
    case InviteRequest(_, tenantId, userId) => InviteMember(s, client, tenantId, userId)
    case RevokeMemberRequest(_, tenantId, userId) => RevokeMember(s, client, tenantId, userId)
    case _ => (s, Done)
  }

  ghost function Run(s: State, events: seq<Event>): State
    decreases events
  {
    if events == [] then s else Run(Serve(s, events[0]).0, events[1..])
  }
}
