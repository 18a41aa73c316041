/** The use cases as the authorization server performs them: store call after store call, in the
    order of the source. Each method is proved to do exactly what its function in AuthSpec says. */
module AuthService {
  import opened Timed
  import opened SessionExpiry
  import opened SessionRepository
  import opened AuthSpec
  import opened KvStore

  datatype ConsumeResult = Consumed(token: RefreshToken) | Unknown | Reused(token: RefreshToken)

  class Server {
    const clock: Clock
    const sessions: MemorySessionRepository
    const s256: string -> string
    var next: nat
    var codes: map<nat, Entry<Code>>
    var tokens: map<nat, Entry<RefreshToken>>
    var families: map<nat, Entry<set<nat>>>
    var sidFamilies: map<nat, Entry<set<FamilyRef>>>
    var sso: map<nat, Entry<SsoSession>>
    var sidIndex: map<nat, Entry<nat>>
    var identity: Identity

    constructor (clock: Clock, identity: Identity, s256: string -> string)
      ensures this.clock == clock && fresh(sessions)
      ensures View() == State(clock.now, 0, map[], map[], map[], map[], map[], map[], Repo(map[], []), identity, s256)
    {
      this.clock, this.identity, this.s256 := clock, identity, s256;
      sessions := new MemorySessionRepository();
      next := 0;
      codes, tokens, families, sidFamilies, sso, sidIndex := map[], map[], map[], map[], map[], map[];
    }

    ghost function View(): State
      reads this, sessions, clock
    {
      State(clock.now, next, codes, tokens, families, sidFamilies, sso, sidIndex, sessions.Contents(), identity, s256)
    }

    /** A value never used before. */
    method RandomToken() returns (value: nat)
      modifies this`next
      ensures value == old(next) && next == old(next) + 1
    {
      value := next;
      next := next + 1;
    }

    // ---------- sso-session.ts ----------

    method DestroySsoSession(session: SsoSession)
      modifies this`sso, this`sidIndex
      ensures View() == Destroy(old(View()), session)
    {
      sso := sso - {session.id};
      sidIndex := sidIndex - {session.sid};
    }

    method LoadSsoSessionByKey(key: nat) returns (session: Option<SsoSession>)
      modifies this`sso, this`sidIndex
      ensures (View(), session) == LoadSession(old(View()), key)
    {
      session := Get(sso, key, clock.now);
      if session.None? {
        return;
      }
      if Expired(session.value, clock.now) {
        DestroySsoSession(session.value);
        return None;
      }
    }

    method FindSsoSessionBySid(sid: nat) returns (session: Option<SsoSession>)
      modifies this`sso, this`sidIndex
      ensures (View(), session) == FindSessionBySid(old(View()), sid)
    {
      var key := Get(sidIndex, sid, clock.now);
      if key.None? {
        return None;
      }
      session := LoadSsoSessionByKey(key.value);
    }

    method CreateSsoSession(userId: string, environment: Environment) returns (session: SsoSession)
      modifies this`next, this`sso, this`sidIndex, sessions
      ensures (View(), session) == CreateSession(old(View()), userId, environment)
    {
      var now := clock.now;
      var cookieValue := RandomToken();
      var sid := RandomToken();
      session := SsoSession(cookieValue, sid, userId, now, now);
      sso := Put(sso, session.id, session, now, SSO_SESSION_ABSOLUTE_SECONDS);
      sidIndex := Put(sidIndex, session.sid, session.id, now, SSO_SESSION_ABSOLUTE_SECONDS);
      sessions.Create(session.sid, userId, environment, now);
    }

    method TouchSsoSession(session: SsoSession, client: OidcClient, tenantId: string, environment: Environment)
      returns (updated: SsoSession)
      modifies this`sso, sessions
      ensures View() == TouchSession(old(View()), session, client, tenantId, environment)
      ensures updated == session.(lastSeenAt := clock.now)
    {
      var now := clock.now;
      updated := session.(lastSeenAt := now);
      var previous := sessions.Touch(session.sid, environment, now);
      sso := Put(sso, updated.id, updated, now, RemainingTtl(SSO_POLICY, updated.createdAt, now));
      sessions.RecordClient(session.sid, client.id, tenantId, now);
    }

    /** The end of a login: a new session is created, then the browser's previous one is destroyed. */
    method FinishLogin(previous: Option<nat>, userId: string, environment: Environment) returns (reply: Reply)
      modifies this`next, this`sso, this`sidIndex, sessions
      ensures (View(), reply) == Login(old(View()), previous, userId, environment)
    {
      var session := CreateSsoSession(userId, environment);
      if previous.Some? {
        var earlier := LoadSsoSessionByKey(previous.value);
        if earlier.Some? {
          DestroySsoSession(earlier.value);
        }
      }
      return LoggedIn(session);
    }

    // ---------- authorize.ts ----------

    method AuthorizeWithSession(cookie: nat, client: OidcClient, tenantId: string, redirectUri: string,
                                codeChallenge: string, environment: Environment) returns (reply: Reply)
      modifies this`next, this`codes, this`sso, this`sidIndex, sessions
      ensures (View(), reply) == Authorize(old(View()), cookie, client, tenantId, redirectUri, codeChallenge,
                                           environment)
    {
      if tenantId !in identity.tenants {
        return Rejected("invalid_redirect_uri");
      }
      var session := LoadSsoSessionByKey(cookie);
      if session.None? {
        return Rejected("login_required");
      }
      var denied := AccessDenied(identity, client, tenantId, session.value.userId);
      if denied.Some? {
        return Rejected(denied.value);
      }
      var codeValue := RandomToken();
      var grant := Grant(client.clientId, session.value.userId, tenantId, session.value.sid, session.value.id);
      codes := Put(codes, codeValue, Unused(grant, redirectUri, codeChallenge), clock.now,
                   AUTHORIZATION_CODE_TTL_SECONDS);
      var updated := TouchSsoSession(session.value, client, tenantId, environment);
      return CodeIssued(codeValue);
    }

    // ---------- refresh-tokens.ts ----------

    method StoreRefreshToken(familyId: nat, grant: Grant) returns (value: nat)
      modifies this`next, this`tokens
      ensures value == old(next) && next == old(next) + 1
      ensures tokens == Put(old(tokens), value, RefreshToken(familyId, grant, Active), clock.now,
                            REFRESH_TOKEN_TTL_SECONDS)
    {
      value := RandomToken();
      tokens := Put(tokens, value, RefreshToken(familyId, grant, Active), clock.now, REFRESH_TOKEN_TTL_SECONDS);
    }

    method CreateRefreshTokenFamily(grant: Grant) returns (familyId: nat, value: nat)
      modifies this`next, this`tokens, this`families, this`sidFamilies
      ensures View() == CreateFamily(old(View()), grant)
      ensures familyId == old(next) && value == old(next) + 1
    {
      familyId := RandomToken();
      value := StoreRefreshToken(familyId, grant);
      families := AddMember(families, familyId, value, clock.now, REFRESH_TOKEN_TTL_SECONDS);
      sidFamilies := AddMember(sidFamilies, grant.sid, FamilyRef(familyId, grant.clientId, grant.tenantId),
                               clock.now, REFRESH_TOKEN_TTL_SECONDS);
    }

    /** Takes the token out and puts it back marked as used. */
    method ConsumeRefreshToken(value: nat) returns (result: ConsumeResult)
      modifies this`tokens
      ensures match Get(old(tokens), value, clock.now)
              case None => result == Unknown && tokens == old(tokens) - {value}
              case Some(stored) =>
                if stored.status.Active?
                then result == Consumed(stored) && View() == WriteBack(old(View()), value, stored.(status := Rotated))
                else result == Reused(stored) && View() == WriteBack(old(View()), value, stored)
    {
      var stored := Get(tokens, value, clock.now);
      ghost var before := tokens;
      tokens := tokens - {value};
      if stored.None? {
        return Unknown;
      }
      var record := if stored.value.status.Active? then stored.value.(status := Rotated) else stored.value;
      tokens := Put(tokens, value, record, clock.now, REFRESH_TOKEN_TTL_SECONDS);
      assert tokens == before[value := tokens[value]];
      return if stored.value.status.Active? then Consumed(stored.value) else Reused(stored.value);
    }

    method RotateRefreshToken(current: RefreshToken) returns (value: nat)
      modifies this`next, this`tokens, this`families
      ensures View() == StoreToken(old(View()), current.familyId, current.grant)
      ensures value == old(next)
    {
      value := StoreRefreshToken(current.familyId, current.grant);
      families := AddMember(families, current.familyId, value, clock.now, REFRESH_TOKEN_TTL_SECONDS);
    }

    /** Reads every stored member first, then writes each of them back as revoked. */
    method RevokeRefreshTokenFamily(familyId: nat)
      modifies this`tokens
      ensures View() == RevokeFamily(old(View()), familyId)
    {
      var keys := Members(families, familyId, clock.now);
      var records := map k | k in keys && Live(tokens, k, clock.now) :: tokens[k].value;
      var todo := records.Keys;
      RevokeNothing(tokens, clock.now);
      assert records.Keys - todo == {};
      while todo != {}
        invariant todo <= records.Keys
        invariant tokens == RevokeKeys(old(tokens), records.Keys - todo, clock.now)
        decreases todo
      {
        var key :| key in todo;
        RevokeOneKey(old(tokens), records.Keys - todo, key, clock.now);
        tokens := Put(tokens, key, records[key].(status := Revoked), clock.now, REFRESH_TOKEN_TTL_SECONDS);
        todo := todo - {key};
        assert records.Keys - todo == records.Keys - (todo + {key}) + {key};
      }
      VisibleKeysOnly(old(tokens), keys, records.Keys, clock.now);
    }

    method RevokeRefreshTokenFamilies(refs: set<FamilyRef>)
      modifies this`tokens
      ensures View() == RevokeFamilies(old(View()), refs)
    {
      ghost var s := View();
      var todo := refs;
      ghost var done: set<FamilyRef> := {};
      RevokeNothing(tokens, clock.now);
      assert KeysOf(s, {}) == {};
      while todo != {}
        invariant todo <= refs && done == refs - todo
        invariant tokens == RevokeKeys(s.tokens, KeysOf(s, done), s.now)
        decreases todo
      {
        var ref :| ref in todo;
        RevokeRefreshTokenFamily(ref.familyId);
        RevokeTwice(s.tokens, KeysOf(s, done), Members(s.families, ref.familyId, s.now), s.now);
        KeysOfOneMore(s, done, ref);
        todo := todo - {ref};
        done := done + {ref};
      }
      assert done == refs;
    }

    method ListRefreshFamilies(sid: nat) returns (refs: set<FamilyRef>)
      ensures refs == Members(sidFamilies, sid, clock.now)
    {
      refs := Members(sidFamilies, sid, clock.now);
    }

    // ---------- token.ts ----------

    method RememberConsumedCode(code: nat, familyId: nat)
      modifies this`codes
      ensures View() == RememberCode(old(View()), code, familyId)
    {
      codes := Put(codes, code, Used(familyId), clock.now, CONSUMED_CODE_RETENTION_SECONDS);
    }

    method ExchangeAuthorizationCode(client: OidcClient, code: nat, redirectUri: string, verifier: string)
      returns (reply: Reply)
      modifies this
      ensures (View(), reply) == Exchange(old(View()), client, code, redirectUri, verifier)
    {
      var stored := Get(codes, code, clock.now);
      codes := codes - {code};
      if stored.None? {
        return Rejected("code_unknown_or_expired");
      }
      if stored.value.Used? {
        RevokeRefreshTokenFamily(stored.value.familyId);
        RememberConsumedCode(code, stored.value.familyId);
        return Rejected("code_reused");
      }
      var validation := BindingError(stored.value, client, redirectUri, verifier, s256);
      if validation.Some? {
        return Rejected(validation.value);
      }
      var grant := stored.value.grant;
      var session := LoadSsoSessionByKey(grant.ssoSessionId);
      if session.None? {
        return Rejected("sso_session_expired");
      }
      if grant.userId !in identity.users {
        return Rejected("user_missing");
      }
      if grant.tenantId !in identity.tenants {
        return Rejected("tenant_missing");
      }
      var familyId, value := CreateRefreshTokenFamily(grant);
      RememberConsumedCode(code, familyId);
      return Granted(value, familyId, grant);
    }

    method ValidateRefreshContext(client: OidcClient, grant: Grant) returns (error: Option<string>)
      modifies this`sso, this`sidIndex
      ensures (View(), error) == RefreshContext(old(View()), client, grant)
    {
      var session := LoadSsoSessionByKey(grant.ssoSessionId);
      if session.None? {
        return Some("sso_session_expired");
      }
      if grant.tenantId !in identity.tenants {
        return Some("tenant_missing");
      }
      return AccessDenied(identity, client, grant.tenantId, grant.userId);
    }

    method RefreshAccessToken(client: OidcClient, token: nat) returns (reply: Reply)
      modifies this
      ensures (View(), reply) == Refresh(old(View()), client, token)
    {
      var consumed := ConsumeRefreshToken(token);
      if consumed.Unknown? {
        return Rejected("refresh_token_unknown_or_expired");
      }
      var stored := consumed.token;
      if consumed.Reused? {
        RevokeRefreshTokenFamily(stored.familyId);
        return Rejected("refresh_token_reused");
      }
      if stored.grant.clientId != client.clientId {
        RevokeRefreshTokenFamily(stored.familyId);
        return Rejected("client_mismatch");
      }
      var error := ValidateRefreshContext(client, stored.grant);
      if error.Some? {
        RevokeRefreshTokenFamily(stored.familyId);
        return Rejected(error.value);
      }
      var value := RotateRefreshToken(stored);
      return Granted(value, stored.familyId, stored.grant);
    }

    method RevokeRefreshToken(client: OidcClient, token: nat) returns (reply: Reply)
      modifies this`tokens
      ensures (View(), reply) == RevokeToken(old(View()), client, token)
    {
      var stored := Get(tokens, token, clock.now);
      if stored.None? || stored.value.grant.clientId != client.clientId {
        return Done;
      }
      RevokeRefreshTokenFamily(stored.value.familyId);
      return Done;
    }

    // ---------- global-logout.ts ----------

    method RevokeSessionBySid(sid: nat, reason: RevokeReason) returns (reply: Reply)
      modifies this, sessions
      ensures (View(), reply) == RevokeSession(old(View()), sid, reason)
    {
      var session := FindSsoSessionBySid(sid);
      var recorded := if sid in sessions.sessions
        then set e | e in sessions.clients && e.sessionId == sid :: e.oidcClientId
        else {};
      if session.Some? {
        var refs := ListRefreshFamilies(sid);
        RevokeRefreshTokenFamilies(refs);
        DestroySsoSession(session.value);
        sidFamilies := sidFamilies - {sid};
      }
      sessions.MarkRevoked(sid, reason, clock.now);
      return Notified(recorded);
    }

    /** The families of one client and tenant under one sid. */
    method RevokeListedFamilies(sid: nat, client: OidcClient, tenantId: string)
      modifies this`tokens
      ensures View() == RevokeFamilies(old(View()), RefsUnder(old(View()), {sid}, client, tenantId))
    {
      var listed := ListRefreshFamilies(sid);
      var refs := set ref | ref in listed && ref.clientId == client.clientId && ref.tenantId == tenantId;
      assert refs == RefsUnder(View(), {sid}, client, tenantId);
      RevokeRefreshTokenFamilies(refs);
    }

    /** The active sessions of the user that have entered the client for the tenant. */
    method ListAffectedSessions(userId: string, client: OidcClient, tenantId: string) returns (affected: set<nat>)
      ensures affected == AffectedSids(View(), userId, client, tenantId)
    {
      var active := sessions.ListActiveByUser(userId, clock.now);
      var repo := Repo(sessions.sessions, sessions.clients);
      affected := set sid | sid in active && Visited(repo, sid, client.id, tenantId);
    }

    /** Answers the sids whose families were looked through and whose client was notified. */
    method RevokeClientAccess(userId: string, client: OidcClient, tenantId: string) returns (affected: set<nat>)
      modifies this`tokens
      ensures View() == RevokeFamilies(old(View()), AffectedRefs(old(View()), userId, client, tenantId))
      ensures affected == AffectedSids(old(View()), userId, client, tenantId)
    {
      ghost var s := View();
      affected := ListAffectedSessions(userId, client, tenantId);
      var todo := affected;
      ghost var done: set<nat> := {};
      RevokeNothing(tokens, clock.now);
      assert RefsUnder(s, {}, client, tenantId) == {};
      while todo != {}
        invariant todo <= affected && done == affected - todo
        invariant View() == RevokeFamilies(s, RefsUnder(s, done, client, tenantId))
        decreases todo
      {
        var sid :| sid in todo;
        ghost var t := View();
        RevokeListedFamilies(sid, client, tenantId);
        RevokeOneMore(s, t, done, sid, client, tenantId);
        todo := todo - {sid};
        done := done + {sid};
      }
      assert done == affected;
    }

    // ---------- service-members.ts ----------

    method InviteServiceMember(client: OidcClient, tenantId: string, userId: string) returns (reply: Reply)
      modifies this`identity
      ensures (View(), reply) == InviteMember(old(View()), client, tenantId, userId)
    {
      var error := ContractError(identity, client, tenantId);
      if error.Some? {
        return Rejected(error.value);
      }
      if userId !in identity.users {
        identity := identity.(users := identity.users[userId := true]);
      }
      identity := identity.(memberships := identity.memberships[(tenantId, client.id, userId) := true]);
      return Done;
    }

    method RevokeServiceMember(client: OidcClient, tenantId: string, userId: string) returns (reply: Reply)
      modifies this`identity, this`tokens
      ensures (View(), reply) == RevokeMember(old(View()), client, tenantId, userId)
    {
      var error := ContractError(identity, client, tenantId);
      if error.Some? {
        return Rejected(error.value);
      }
      if userId !in identity.users {
        return Rejected("user_not_found");
      }
      identity := identity.(memberships := identity.memberships - {(tenantId, client.id, userId)});
      var affected := RevokeClientAccess(userId, client, tenantId);
      return AccessRevoked(affected);
    }
  }

  lemma RevokeOneKey(tokens: map<nat, Entry<RefreshToken>>, done: set<nat>, key: nat, now: int)
    requires Live(tokens, key, now)
    ensures RevokeKeys(tokens, done, now)[key := Entry(tokens[key].value.(status := Revoked),
                                                       now + REFRESH_TOKEN_TTL_SECONDS)]
         == RevokeKeys(tokens, done + {key}, now)
  {
  }

  lemma VisibleKeysOnly(tokens: map<nat, Entry<RefreshToken>>, keys: set<nat>, visible: set<nat>, now: int)
    requires visible == set k | k in keys && Live(tokens, k, now)
    ensures RevokeKeys(tokens, visible, now) == RevokeKeys(tokens, keys, now)
  {
  }

  lemma RevokeNothing(tokens: map<nat, Entry<RefreshToken>>, now: int)
    ensures RevokeKeys(tokens, {}, now) == tokens
  {
  }

  lemma RevokeTwice(tokens: map<nat, Entry<RefreshToken>>, a: set<nat>, b: set<nat>, now: int)
    ensures RevokeKeys(RevokeKeys(tokens, a, now), b, now) == RevokeKeys(tokens, a + b, now)
  {
  }

  lemma KeysOfOneMore(s: State, done: set<FamilyRef>, ref: FamilyRef)
    ensures KeysOf(s, done + {ref}) == KeysOf(s, done) + Members(s.families, ref.familyId, s.now)
  {
  }

  lemma RevokeOneMore(s: State, t: State, done: set<nat>, sid: nat, client: OidcClient, tenantId: string)
    requires t == RevokeFamilies(s, RefsUnder(s, done, client, tenantId))
    ensures RevokeFamilies(t, RefsUnder(t, {sid}, client, tenantId))
         == RevokeFamilies(s, RefsUnder(s, done + {sid}, client, tenantId))
  {
    var before, more := RefsUnder(s, done, client, tenantId), RefsUnder(s, {sid}, client, tenantId);
    assert RefsUnder(t, {sid}, client, tenantId) == more;
    assert RefsUnder(s, done + {sid}, client, tenantId) == before + more;
    assert KeysOf(t, more) == KeysOf(s, more);
    assert KeysOf(s, before + more) == KeysOf(s, before) + KeysOf(s, more);
    RevokeTwice(s.tokens, KeysOf(s, before), KeysOf(s, more), s.now);
  }
}
