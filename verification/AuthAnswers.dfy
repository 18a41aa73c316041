/** What each answer of the authorization server means, and what is told to whom. */
module AuthAnswers {
  import opened Timed
  import opened SessionRepository
  import opened AuthSpec
  import opened AuthInvariant
  import opened AuthRuns
  import opened AuthTheorems

  // ---------- Sessions ----------

  /** A session lives for two hours after its last sighting, and never longer than twelve. */
  lemma SessionAliveIff(s: State, key: nat)
    requires Inv(s) && key in s.sso
    ensures var x := s.sso[key].value;
            SessionAlive(s, key) <==> s.now < x.lastSeenAt + 2 * 60 * 60 && s.now < x.createdAt + 12 * 60 * 60
  {
    assert Ok(s, key);
  }

  /** A session is found by its key exactly while it lives; one past a limit is destroyed on the way, with
      its index entry, and no other session is touched. */
  lemma LoadMeans(s: State, key: nat)
    requires Inv(s)
    ensures var (t, found) := LoadSession(s, key);
            && (found.Some? <==> SessionAlive(s, key))
            && (found.Some? ==> t == s && found.value == s.sso[key].value)
            && (Live(s.sso, key, s.now) && !SessionAlive(s, key) ==>
                  key !in t.sso && s.sso[key].value.sid !in t.sidIndex)
            && (forall other :: other != key && other in s.sso ==> other in t.sso && t.sso[other] == s.sso[other])
            && t == s.(sso := t.sso, sidIndex := t.sidIndex)
  {
    assert Ok(s, key);
  }

  /** Whatever session the browser had before, or none, a login answers a new one of the user under new
      names, alive, found by its sid, and on record as active with the browser's environment. */
  lemma LoginCreates(s: State, previous: Option<nat>, userId: string, environment: Environment)
    requires Inv(s) && (previous.Some? ==> previous.value < s.next)
    ensures var (t, reply) := Login(s, previous, userId, environment);
            && reply.LoggedIn?
            && var x := reply.session;
            && x.userId == userId && x.createdAt == x.lastSeenAt == s.now && x.id != x.sid
            && x.id !in s.sso && x.sid !in s.sidIndex && x.sid !in s.repo.sessions
            && SessionAlive(t, x.id) && t.sso[x.id] == Entry(x, s.now + 12 * 60 * 60)
            && FindSessionBySid(t, x.sid) == (t, Some(x))
            && t.repo.clients == s.repo.clients
            && t.repo.sessions == s.repo.sessions[x.sid := SessionRecord(userId, environment, s.now, s.now, None)]
            && x.sid in ActiveByUser(t.repo, userId, t.now)
            && t.tokens == s.tokens && t.codes == s.codes
            && (previous.None? ==> t.sso == s.sso[x.id := t.sso[x.id]])
  {
    assert Ok(s, s.next) && Ok(s, s.next + 1);
    var (created, x) := CreateSession(s, userId, environment);
    CreateSessionKeeps(s, userId, environment);
    LoginKeeps(s, previous, userId, environment);
    var t := Login(s, previous, userId, environment).0;
    if previous.Some? {
      assert Ok(created, previous.value) && Ok(s, previous.value);
      LoadKeeps(created, previous.value);
    }
    assert Ok(t, x.id);
    LiveSessionFoundBySid(t, x.id);
  }

  // ---------- Requests of clients ----------

  /** The code points that section 4.1 of RFC 7636 permits in a verifier: %x41-5A, %x61-7A, %x30-39 and the
      four of "-._~". */
  predicate Unreserved(point: int) {
    0x41 <= point <= 0x5A || 0x61 <= point <= 0x7A || 0x30 <= point <= 0x39 || point in {0x2D, 0x2E, 0x5F, 0x7E}
  }

  /** A verifier has 43 to 128 of those characters, and no other. */
  lemma ValidVerifierIff(v: string)
    ensures ValidVerifier(v) <==> 43 <= |v| <= 128 && forall i :: 0 <= i < |v| ==> Unreserved(v[i] as int)
  {
    forall i | 0 <= i < |v|
      ensures Unreserved(v[i] as int) <==>
              'A' <= v[i] <= 'Z' || 'a' <= v[i] <= 'z' || '0' <= v[i] <= '9' || v[i] in "-._~"
    {
      UnreservedMeans(v[i]);
    }
  }

  lemma UnreservedMeans(c: char)
    ensures Unreserved(c as int) <==>
            'A' <= c <= 'Z' || 'a' <= c <= 'z' || '0' <= c <= '9' || c in "-._~"
  {
  }

  /** The client a request names. */
  function Named(e: Event): Option<string> {
    match e
    case AuthorizeRequest(_, clientId, _, _, _, _) => Some(clientId)
    case ExchangeRequest(clientId, _, _, _) => Some(clientId)
    case RefreshRequest(clientId, _) => Some(clientId)
    case RevokeTokenRequest(clientId, _) => Some(clientId)
    case InviteRequest(clientId, _, _) => Some(clientId)
    case RevokeMemberRequest(clientId, _, _) => Some(clientId)
    case _ => None
  }

  predicate ActiveClient(identity: Identity, clientId: string) {
    clientId in identity.clients && identity.clients[clientId].active
  }

  /** Whoever names no active client gets nothing and changes nothing. */
  lemma InactiveClientRefused(s: State, e: Event)
    requires Named(e).Some? && !ActiveClient(s.identity, Named(e).value)
    ensures Serve(s, e) == (s, Rejected("invalid_client"))
  {
  }

  /** Why a code is not redeemed: the first condition that fails, in this order. Unless it was redeemed
      before, the code is gone, whoever presented it, and no token has changed. */
  lemma ExchangeRefusedWhy(s: State, client: OidcClient, code: nat, redirectUri: string, verifier: string)
    requires Inv(s) && !Exchange(s, client, code, redirectUri, verifier).1.Granted?
    ensures var (t, reply) := Exchange(s, client, code, redirectUri, verifier);
            && reply.Rejected?
            && (reply.reason == "code_unknown_or_expired" <==> !Live(s.codes, code, s.now))
            && (reply.reason == "code_reused" <==> Live(s.codes, code, s.now) && s.codes[code].value.Used?)
            && (reply.reason != "code_reused" ==> code !in t.codes && t.tokens == s.tokens)
            && (Live(s.codes, code, s.now) && s.codes[code].value.Unused? ==>
                  reply.reason == RefusalOf(s, s.codes[code].value, client, redirectUri, verifier))
  {
    assert Ok(s, code);
    if Live(s.codes, code, s.now) && s.codes[code].value.Unused? {
      TakeCodeKeeps(s, code);
      LoadKeeps(s.(codes := s.codes - {code}), s.codes[code].value.grant.ssoSessionId);
    }
  }

  /** The first thing wrong with presenting an unused code. */
  function RefusalOf(s: State, code: Code, client: OidcClient, redirectUri: string, verifier: string): string
    requires code.Unused?
  {
    if client.clientId != code.grant.clientId then "client_mismatch"
    else if redirectUri != code.redirectUri then "redirect_uri_mismatch"
    else if !ValidVerifier(verifier) then "code_verifier_invalid"
    else if code.codeChallenge != s.s256(verifier) then "pkce_mismatch"
    else if !SessionAlive(s, code.grant.ssoSessionId) then "sso_session_expired"
    else if code.grant.userId !in s.identity.users then "user_missing"
    else "tenant_missing"
  }

  /** Why a token is not refreshed: the first condition that fails, in this order. */
  lemma RefreshRefusedWhy(s: State, client: OidcClient, token: nat)
    requires Inv(s) && !Refresh(s, client, token).1.Granted?
    ensures var reply := Refresh(s, client, token).1;
            && reply.Rejected?
            && (reply.reason == "refresh_token_unknown_or_expired" <==> !Live(s.tokens, token, s.now))
            && (reply.reason == "refresh_token_reused" <==>
                  Live(s.tokens, token, s.now) && !s.tokens[token].value.status.Active?)
            && (ActiveToken(s, token) ==>
                  var g := s.tokens[token].value.grant;
                  && (reply.reason == "client_mismatch" <==> g.clientId != client.clientId)
                  && (reply.reason == "sso_session_expired" <==>
                        g.clientId == client.clientId && !SessionAlive(s, g.ssoSessionId))
                  && (reply.reason == "tenant_missing" <==>
                        && g.clientId == client.clientId && SessionAlive(s, g.ssoSessionId)
                        && g.tenantId !in s.identity.tenants)
                  && (g.clientId == client.clientId && SessionAlive(s, g.ssoSessionId)
                      && g.tenantId in s.identity.tenants ==>
                        Some(reply.reason) == AccessDenied(s.identity, client, g.tenantId, g.userId)))
  {
    if ActiveToken(s, token) {
      var stored := s.tokens[token].value;
      assert Ok(s, token);
      WriteBackKeeps(s, token, stored.(status := Rotated));
      LoadKeeps(WriteBack(s, token, stored.(status := Rotated)), stored.grant.ssoSessionId);
      if stored.grant.tenantId in s.identity.tenants {
        AccessDeniedReason(s.identity, client, stored.grant.tenantId, stored.grant.userId);
      }
    }
  }

  // ---------- What is told on a logout and on a removal ----------

  /** A logout of a sid notifies exactly the clients the session visited, marks its record with the
      reason unless it was marked before, and leaves neither the sid's index entry nor its list of
      families behind when the session was alive. Other records and visits are as before. */
  lemma LogoutTells(s: State, sid: nat, reason: RevokeReason)
    requires Inv(s)
    ensures var (t, reply) := RevokeSession(s, sid, reason);
            && reply.Notified?
            && (forall c :: c in reply.clients <==>
                  sid in s.repo.sessions && exists tenantId :: Visited(s.repo, sid, c, tenantId))
    ensures var t := RevokeSession(s, sid, reason).0;
            && t.repo.clients == s.repo.clients && t.repo.sessions.Keys == s.repo.sessions.Keys
            && (forall other :: other in s.repo.sessions && other != sid ==>
                  t.repo.sessions[other] == s.repo.sessions[other])
            && (sid in s.repo.sessions ==>
                  t.repo.sessions[sid] == s.repo.sessions[sid].(
                    revoked := if s.repo.sessions[sid].revoked.Some? then s.repo.sessions[sid].revoked
                               else Some((s.now, reason))))
            && (forall userId :: sid !in ActiveByUser(t.repo, userId, t.now))
            && (FindSessionBySid(s, sid).1.Some? ==> sid !in t.sidIndex && sid !in t.sidFamilies)
  {
    FindKeeps(s, sid);
    var reply := RevokeSession(s, sid, reason).1;
    if sid in s.repo.sessions {
      forall c ensures c in reply.clients <==> exists tenantId :: Visited(s.repo, sid, c, tenantId) {
        VisitedMeans(s.repo, sid, c);
      }
    }
  }

  lemma VisitedMeans(repo: Repo, sid: nat, c: string)
    ensures c in VisitedClients(repo, sid) <==> exists tenantId :: Visited(repo, sid, c, tenantId)
  {
    if c in VisitedClients(repo, sid) {
      var e :| e in repo.clients && e.sessionId == sid && e.oidcClientId == c;
      assert IsFor(e, sid, c, e.tenantId);
      assert Visited(repo, sid, c, e.tenantId);
    }
  }

  /** A removal reports exactly the sessions on record that are the member's, are neither revoked nor
      past a limit, and in which the service got a code for the tenant. */
  lemma RemovalTells(s: State, client: OidcClient, tenantId: string, userId: string)
    requires RevokeMember(s, client, tenantId, userId).1.AccessRevoked?
    ensures forall sid :: sid in RevokeMember(s, client, tenantId, userId).1.sids <==>
              && sid in s.repo.sessions && s.repo.sessions[sid].userId == userId
              && s.repo.sessions[sid].revoked.None?
              && s.now < s.repo.sessions[sid].lastSeenAt + 2 * 60 * 60
              && s.now < s.repo.sessions[sid].createdAt + 12 * 60 * 60
              && Visited(s.repo, sid, client.id, tenantId)
  {
  }

  // ---------- What revoked tokens are remembered for ----------

  /** Every active token of a family that its owner revokes is answered as reused when it is presented
      again within twelve hours, by anyone and after any run, and never yields tokens again. */
  lemma RevokedTokenReused(s: State, client: OidcClient, token: nat, k: nat, events: seq<Event>, again: OidcClient)
    requires Inv(s) && Live(s.tokens, token, s.now) && s.tokens[token].value.grant.clientId == client.clientId
    requires ActiveToken(s, k) && s.tokens[k].value.familyId == s.tokens[token].value.familyId
    ensures var v := Run(RevokeToken(s, client, token).0, events);
            var reply := Refresh(v, again, k).1;
            && (v.now < s.now + 12 * 60 * 60 ==> reply == Rejected("refresh_token_reused"))
            && (reply.Granted? ==> reply.familyId != s.tokens[token].value.familyId)
  {
    var familyId := s.tokens[token].value.familyId;
    assert Ok(s, token) && Ok(s, k);
    RevokeFamilyKills(s, familyId);
    RevokeTokenKeeps(s, client, token);
    var t := RevokeToken(s, client, token).0;
    RunKeeps(t, events);
    var v := Run(t, events);
    assert TokenKept(t, v, k);
    NothingReturns(t, events, familyId, 0);
    if Refresh(v, again, k).1.Granted? { RefreshAlive(v, again, k); }
  }
}
