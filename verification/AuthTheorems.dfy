/** What revocation, reuse detection and logout guarantee over whole runs. */
module AuthTheorems {
  import opened Timed
  import opened SessionRepository
  import opened AuthSpec
  import opened AuthInvariant
  import opened AuthRuns

  // ---------- Who may enter ----------

  predicate UserActive(identity: Identity, userId: string) {
    userId in identity.users && identity.users[userId]
  }

  predicate TenantActive(identity: Identity, tenantId: string) {
    tenantId in identity.tenants && identity.tenants[tenantId]
  }

  predicate Contracted(identity: Identity, oidcClientId: string, tenantId: string) {
    (tenantId, oidcClientId) in identity.contracts && identity.contracts[(tenantId, oidcClientId)]
  }

  predicate MemberActive(identity: Identity, oidcClientId: string, tenantId: string, userId: string) {
    && (tenantId, oidcClientId, userId) in identity.memberships
    && identity.memberships[(tenantId, oidcClientId, userId)]
  }

  /** The user and the tenant are active, the tenant has a contract for the service, and the user is
      an active member there. */
  predicate MayEnter(identity: Identity, oidcClientId: string, tenantId: string, userId: string) {
    && UserActive(identity, userId) && TenantActive(identity, tenantId)
    && Contracted(identity, oidcClientId, tenantId) && MemberActive(identity, oidcClientId, tenantId, userId)
  }

  /** The access decision refuses exactly those who may not enter, and tells the first condition
      that fails: user, tenant, contract, member, active member. */
  lemma AccessDeniedReason(identity: Identity, client: OidcClient, tenantId: string, userId: string)
    requires tenantId in identity.tenants
    ensures var denied := AccessDenied(identity, client, tenantId, userId);
            var known := (tenantId, client.id, userId) in identity.memberships;
            && (denied.None? <==> MayEnter(identity, client.id, tenantId, userId))
            && (denied == Some("user_disabled") <==> !UserActive(identity, userId))
            && (denied == Some("tenant_suspended") <==>
                  UserActive(identity, userId) && !TenantActive(identity, tenantId))
            && (denied == Some("not_contracted") <==>
                  UserActive(identity, userId) && TenantActive(identity, tenantId)
                  && !Contracted(identity, client.id, tenantId))
            && (denied == Some("no_membership") <==>
                  UserActive(identity, userId) && TenantActive(identity, tenantId)
                  && Contracted(identity, client.id, tenantId) && !known)
            && (denied == Some("membership_inactive") <==>
                  UserActive(identity, userId) && TenantActive(identity, tenantId)
                  && Contracted(identity, client.id, tenantId) && known
                  && !MemberActive(identity, client.id, tenantId, userId))
  {
  }

  /** A code is issued exactly to a live session whose user may enter; otherwise the reason is told,
      the tenant's address first, then the session, then the first condition of entry that fails. */
  lemma AuthorizeGrantedIff(s: State, cookie: nat, client: OidcClient, tenantId: string, redirectUri: string,
                            challenge: string, environment: Environment)
    ensures var reply := Authorize(s, cookie, client, tenantId, redirectUri, challenge, environment).1;
            && (reply.CodeIssued? <==>
                  SessionAlive(s, cookie) && MayEnter(s.identity, client.id, tenantId, s.sso[cookie].value.userId))
            && (reply == Rejected("invalid_redirect_uri") <==> tenantId !in s.identity.tenants)
            && (reply == Rejected("login_required") <==> tenantId in s.identity.tenants && !SessionAlive(s, cookie))
            && (tenantId in s.identity.tenants && SessionAlive(s, cookie) ==>
                  var denied := AccessDenied(s.identity, client, tenantId, s.sso[cookie].value.userId);
                  reply.CodeIssued? || (denied.Some? && reply == Rejected(denied.value)))
  {
    if tenantId in s.identity.tenants && SessionAlive(s, cookie) {
      AccessDeniedReason(s.identity, client, tenantId, s.sso[cookie].value.userId);
    }
  }

  // ---------- Dead families and dead sessions ----------

  /** No active token is left in the family. */
  ghost predicate Dead(s: State, familyId: nat) {
    familyId < s.next && forall k :: ActiveToken(s, k) ==> s.tokens[k].value.familyId != familyId
  }

  /** Whatever is still active in the family belongs to a session that is over. */
  ghost predicate Barred(s: State, familyId: nat) {
    familyId < s.next && forall k :: ActiveToken(s, k) && s.tokens[k].value.familyId == familyId ==>
      !SessionAlive(s, s.tokens[k].value.grant.ssoSessionId)
  }

  ghost predicate SidOver(s: State, sid: nat) {
    sid < s.next && forall key: nat :: SessionAlive(s, key) ==> s.sso[key].value.sid != sid
  }

  /** Dead stays dead, barred stays barred, over stays over: in every continuation. */
  lemma NothingReturns(s: State, events: seq<Event>, familyId: nat, sid: nat)
    requires Inv(s)
    ensures Dead(s, familyId) ==> Dead(Run(s, events), familyId)
    ensures Barred(s, familyId) ==> Barred(Run(s, events), familyId)
    ensures SidOver(s, sid) ==> SidOver(Run(s, events), sid)
  {
    var t := Run(s, events);
    RunKeeps(s, events);
    if Dead(s, familyId) {
      forall k | ActiveToken(t, k) && t.tokens[k].value.familyId == familyId
        ensures Lineage(s, familyId, t.tokens[k].value.grant.ssoSessionId) {}
    }
    if Barred(s, familyId) {
      forall k | ActiveToken(t, k) && t.tokens[k].value.familyId == familyId
        ensures !SessionAlive(t, t.tokens[k].value.grant.ssoSessionId)
      {
        var key := t.tokens[k].value.grant.ssoSessionId;
        assert Lineage(s, familyId, key);
        var j :| ActiveToken(s, j) && s.tokens[j].value.familyId == familyId
            && s.tokens[j].value.grant.ssoSessionId == key;
        assert Ok(s, j);
      }
    }
  }

  /** A barred family never yields tokens again, whatever is requested. */
  lemma BarredGrantsNothing(s: State, events: seq<Event>, e: Event, familyId: nat)
    requires Inv(s) && Barred(s, familyId)
    ensures var reply := Serve(Run(s, events), e).1; reply.Granted? ==> reply.familyId != familyId
  {
    var t := Run(s, events);
    RunKeeps(s, events);
    NothingReturns(s, events, familyId, 0);
    if Serve(t, e).1.Granted? {
      GrantedOnlyAlive(t, e);
    }
  }

  /** Tokens come from a live session only: with a code, in a family never used before; with a
      refresh token, in the family of an active one. */
  lemma GrantedOnlyAlive(s: State, e: Event)
    requires Inv(s) && Serve(s, e).1.Granted?
    ensures var reply := Serve(s, e).1;
            && SessionAlive(s, reply.grant.ssoSessionId)
            && s.sso[reply.grant.ssoSessionId].value.sid == reply.grant.sid
            && (reply.familyId == s.next
                || exists k :: ActiveToken(s, k)
                    && s.tokens[k].value == RefreshToken(reply.familyId, reply.grant, Active))
  {
    match e
    case ExchangeRequest(clientId, code, redirectUri, verifier) =>
      ExchangeAlive(s, Client(s, clientId).value, code, redirectUri, verifier);
    case RefreshRequest(clientId, token) => RefreshAlive(s, Client(s, clientId).value, token);
    case _ =>
  }

  predicate FromLiveSession(s: State, grant: Grant) {
    SessionAlive(s, grant.ssoSessionId) && s.sso[grant.ssoSessionId].value.sid == grant.sid
  }

  lemma ExchangeAlive(s: State, client: OidcClient, code: nat, redirectUri: string, verifier: string)
    requires Inv(s) && Exchange(s, client, code, redirectUri, verifier).1.Granted?
    ensures var reply := Exchange(s, client, code, redirectUri, verifier).1;
            FromLiveSession(s, reply.grant) && reply.familyId == s.next
  {
    var grant := s.codes[code].value.grant;
    assert Ok(s, code);
    TakeCodeKeeps(s, code);
    LoadKeeps(s.(codes := s.codes - {code}), grant.ssoSessionId);
  }

  lemma RefreshAlive(s: State, client: OidcClient, token: nat)
    requires Inv(s) && Refresh(s, client, token).1.Granted?
    ensures var reply := Refresh(s, client, token).1;
            FromLiveSession(s, reply.grant) && ActiveToken(s, token)
            && s.tokens[token].value == RefreshToken(reply.familyId, reply.grant, Active)
  {
    var stored := s.tokens[token].value;
    assert Ok(s, token);
    WriteBackKeeps(s, token, stored.(status := Rotated));
    LoadKeeps(WriteBack(s, token, stored.(status := Rotated)), stored.grant.ssoSessionId);
  }

  // ---------- Families ----------

  /** The family's set covers every active token, so one pass over it leaves none: each is remembered
      as revoked for a full lifetime. */
  lemma RevokeFamilyKills(s: State, familyId: nat)
    requires Inv(s) && familyId < s.next
    ensures Dead(RevokeFamily(s, familyId), familyId)
    ensures forall k :: ActiveToken(s, k) && s.tokens[k].value.familyId == familyId ==>
              && k in RevokeFamily(s, familyId).tokens
              && RevokeFamily(s, familyId).tokens[k]
                 == Entry(s.tokens[k].value.(status := Revoked), s.now + REFRESH_TOKEN_TTL_SECONDS)
    ensures forall k :: k in s.tokens && s.tokens[k].value.familyId != familyId ==>
              k in RevokeFamily(s, familyId).tokens && RevokeFamily(s, familyId).tokens[k] == s.tokens[k]
  {
    var t := RevokeFamily(s, familyId);
    assert Ok(s, familyId);
    forall k | ActiveToken(s, k) && s.tokens[k].value.familyId == familyId
      ensures k in Members(s.families, familyId, s.now)
    {
      assert Ok(s, k);
    }
    forall k | ActiveToken(t, k) ensures t.tokens[k].value.familyId != familyId {
      assert ActiveToken(s, k);
    }
  }

  /** Presenting a refresh token that is still remembered either rotates it, or leaves its whole
      family dead. There is no third outcome. */
  lemma RefreshRotatesOrKills(s: State, client: OidcClient, token: nat)
    requires Inv(s) && Live(s.tokens, token, s.now)
    ensures var (t, reply) := Refresh(s, client, token); var stored := s.tokens[token].value;
            && (reply.Granted? || (reply.Rejected? && Dead(t, stored.familyId)))
            && (reply.Granted? <==>
                  && stored.status.Active?
                  && stored.grant.clientId == client.clientId
                  && SessionAlive(s, stored.grant.ssoSessionId)
                  && MayEnter(s.identity, client.id, stored.grant.tenantId, stored.grant.userId))
  {
    var stored := s.tokens[token].value;
    assert Ok(s, token);
    var written := WriteBack(s, token, Consumed(stored));
    WriteBackKeeps(s, token, Consumed(stored));
    LoadKeeps(written, stored.grant.ssoSessionId);
    RefreshOutcome(s, client, token);
    RevokeFamilyKills(written, stored.familyId);
    RevokeFamilyKills(LoadSession(written, stored.grant.ssoSessionId).0, stored.familyId);
  }

  /** A token as it is written back. */
  function Consumed(stored: RefreshToken): RefreshToken {
    if stored.status.Active? then stored.(status := Rotated) else stored
  }

  lemma RefreshOutcome(s: State, client: OidcClient, token: nat)
    requires Live(s.tokens, token, s.now)
    ensures var (t, reply) := Refresh(s, client, token); var stored := s.tokens[token].value;
            var written := WriteBack(s, token, Consumed(stored));
            var (loaded, session) := LoadSession(written, stored.grant.ssoSessionId);
            && (reply.Granted? <==>
                  && stored.status.Active? && stored.grant.clientId == client.clientId && session.Some?
                  && stored.grant.tenantId in s.identity.tenants
                  && MayEnter(s.identity, client.id, stored.grant.tenantId, stored.grant.userId))
            && (!reply.Granted? ==>
                  reply.Rejected?
                  && (t == RevokeFamily(written, stored.familyId) || t == RevokeFamily(loaded, stored.familyId)))
  {
    var stored := s.tokens[token].value;
    if stored.grant.tenantId in s.identity.tenants {
      AccessDeniedReason(s.identity, client, stored.grant.tenantId, stored.grant.userId);
    }
  }

  /** A successful refresh leaves the presented token rotated and one new active token of the same
      grant in its place; every other stored token is untouched. */
  lemma RefreshHandsOver(s: State, client: OidcClient, token: nat)
    requires Inv(s) && Refresh(s, client, token).1.Granted?
    ensures var (t, reply) := Refresh(s, client, token); var stored := s.tokens[token].value;
            && reply == Granted(s.next, stored.familyId, stored.grant)
            && t.tokens == s.tokens[token := Entry(stored.(status := Rotated), s.now + REFRESH_TOKEN_TTL_SECONDS)]
                                   [s.next := Entry(stored, s.now + REFRESH_TOKEN_TTL_SECONDS)]
            && ActiveToken(t, s.next) && !ActiveToken(t, token)
  {
    assert Ok(s, token);
  }

  // ---------- Reuse of refresh tokens ----------

  /** A token that was rotated kills its family when it comes back within twelve hours, however
      far the family has rotated on in between, and whoever presents it. */
  lemma RotatedTokenReused(s: State, client: OidcClient, token: nat, events: seq<Event>, again: OidcClient)
    requires Inv(s) && Refresh(s, client, token).1.Granted?
    ensures var (r, first) := Refresh(s, client, token);
            var t := Run(r, events);
            t.now < s.now + REFRESH_TOKEN_TTL_SECONDS ==>
              Refresh(t, again, token).1 == Rejected("refresh_token_reused")
                  && Dead(Refresh(t, again, token).0, first.familyId)
  {
    var r := Refresh(s, client, token).0;
    RefreshKeeps(s, client, token);
    RefreshHandsOver(s, client, token);
    RunKeeps(r, events);
    var t := Run(r, events);
    assert TokenKept(r, t, token);
    if t.now < s.now + REFRESH_TOKEN_TTL_SECONDS {
      RefreshRotatesOrKills(t, again, token);
    }
  }

  // ---------- Reuse of codes ----------

  /** A code is redeemed exactly by the client, redirect_uri and verifier it was issued for, while
      its session lives. Membership is not looked at again. */
  lemma ExchangeGrantedIff(s: State, client: OidcClient, code: nat, redirectUri: string, verifier: string)
    requires Inv(s)
    ensures Exchange(s, client, code, redirectUri, verifier).1.Granted? <==>
              && Live(s.codes, code, s.now)
              && var c := s.codes[code].value;
              && c.Unused?
              && c.grant.clientId == client.clientId && c.redirectUri == redirectUri
              && ValidVerifier(verifier) && s.s256(verifier) == c.codeChallenge
              && SessionAlive(s, c.grant.ssoSessionId)
              && c.grant.userId in s.identity.users && c.grant.tenantId in s.identity.tenants
  {
    if Live(s.codes, code, s.now) && s.codes[code].value.Unused? {
      TakeCodeKeeps(s, code);
      LoadKeeps(s.(codes := s.codes - {code}), s.codes[code].value.grant.ssoSessionId);
    }
  }

  /** An exchanged code never yields tokens again. Presented while it is still remembered, which
      is for at least ten minutes, it kills the family it minted; after that it is refused like
      an unknown code and every token stays as it is. */
  lemma CodeReused(s: State, client: OidcClient, code: nat, redirectUri: string, verifier: string,
                   events: seq<Event>, again: OidcClient, redirectUri': string, verifier': string)
    requires Inv(s) && Exchange(s, client, code, redirectUri, verifier).1.Granted?
    ensures var (r, first) := Exchange(s, client, code, redirectUri, verifier);
            var t := Run(r, events);
            var (u, second) := Exchange(t, again, code, redirectUri', verifier');
            && (Live(t.codes, code, t.now) ==> second == Rejected("code_reused") && Dead(u, first.familyId))
            && (!Live(t.codes, code, t.now) ==> second == Rejected("code_unknown_or_expired") && u.tokens == t.tokens)
            && (t.now < s.now + CONSUMED_CODE_RETENTION_SECONDS ==> Live(t.codes, code, t.now))
  {
    var (r, first) := Exchange(s, client, code, redirectUri, verifier);
    ExchangeKeeps(s, client, code, redirectUri, verifier);
    assert Ok(s, code) && Ok(r, code);
    assert r.codes[code] == Entry(Used(first.familyId), s.now + CONSUMED_CODE_RETENTION_SECONDS);
    RunKeeps(r, events);
    var t := Run(r, events);
    assert CodeKept(r, t, code);
    RememberedCodeKills(t, again, code, redirectUri', verifier');
  }

  lemma RememberedCodeKills(s: State, client: OidcClient, code: nat, redirectUri: string, verifier: string)
    requires Inv(s) && (Live(s.codes, code, s.now) ==> s.codes[code].value.Used?)
    ensures var (t, reply) := Exchange(s, client, code, redirectUri, verifier);
            && (Live(s.codes, code, s.now) ==>
                reply == Rejected("code_reused") && Dead(t, s.codes[code].value.familyId))
            && (!Live(s.codes, code, s.now) ==> reply == Rejected("code_unknown_or_expired") && t.tokens == s.tokens)
  {
    assert Ok(s, code);
    if Live(s.codes, code, s.now) {
      RevokeFamilyKills(s, s.codes[code].value.familyId);
    }
  }

  // ---------- Logout of a sid ----------

  /** A live session is always found by its sid. */
  lemma LiveSessionFoundBySid(s: State, key: nat)
    requires Inv(s) && SessionAlive(s, key)
    ensures FindSessionBySid(s, s.sso[key].value.sid) == (s, Some(s.sso[key].value))
  {
    assert Ok(s, key);
  }

  /** After a logout of a sid, nothing yields tokens for that sid again: no code, no refresh
      token, in no run. */
  lemma SidNeverGrantsAgain(s: State, sid: nat, reason: RevokeReason, events: seq<Event>, e: Event)
    requires Inv(s) && sid < s.next
    ensures var reply := Serve(Run(RevokeSession(s, sid, reason).0, events), e).1;
            reply.Granted? ==> reply.grant.sid != sid
  {
    var r := RevokeSession(s, sid, reason).0;
    RevokeSessionKeeps(s, sid, reason);
    assert SidOver(r, sid);
    NothingReturns(r, events, 0, sid);
    RunKeeps(r, events);
    if Serve(Run(r, events), e).1.Granted? {
      GrantedOnlyAlive(Run(r, events), e);
    }
  }

  // ---------- A touch that comes late ----------

  /** A request touches the session as it loaded it, whatever was served in between. Before the
      absolute limit that keeps what every use case keeps exactly when the session is still there. */
  lemma LateTouchKeepsIff(s: State, key: nat, events: seq<Event>, client: OidcClient, tenantId: string,
                          environment: Environment)
    requires Inv(s) && SessionAlive(s, key)
    requires Run(s, events).now < s.sso[key].value.createdAt + SSO_SESSION_ABSOLUTE_SECONDS
    ensures var v := Run(s, events);
            Keeps(v, TouchSession(v, s.sso[key].value, client, tenantId, environment)) <==> SessionAlive(v, key)
  {
    var v, x := Run(s, events), s.sso[key].value;
    RunKeeps(s, events);
    assert Ok(s, key);
    if SessionAlive(v, key) {
      assert SameSession(v.sso[key].value, x);
      TouchKeeps(v, v.sso[key].value, client, tenantId, environment);
      assert TouchSession(v, v.sso[key].value, client, tenantId, environment)
          == TouchSession(v, x, client, tenantId, environment);
    } else {
      assert SessionAlive(TouchSession(v, x, client, tenantId, environment), key);
    }
  }

  /** A session ended by its sid comes back by a touch of a request that loaded it before, and no
      repetition of the logout reaches it any more. */
  lemma LateTouchRevives(s: State, key: nat, reason: RevokeReason, events: seq<Event>, client: OidcClient,
                         tenantId: string, environment: Environment)
    requires Inv(s) && SessionAlive(s, key)
    requires Run(RevokeSession(s, s.sso[key].value.sid, reason).0, events).now
             < s.sso[key].value.createdAt + SSO_SESSION_ABSOLUTE_SECONDS
    ensures var x := s.sso[key].value;
            var v := Run(RevokeSession(s, x.sid, reason).0, events);
            var t := TouchSession(v, x, client, tenantId, environment);
            && LoadSession(v, key).1.None?
            && LoadSession(t, key).1 == Some(x.(lastSeenAt := v.now))
            && FindSessionBySid(t, x.sid).1.None?
            && SessionAlive(RevokeSession(t, x.sid, reason).0, key)
  {
    var x := s.sso[key].value;
    var r := RevokeSession(s, x.sid, reason).0;
    LiveSessionFoundBySid(s, key);
    RevokeSessionKeeps(s, x.sid, reason);
    RunKeeps(r, events);
    assert Ok(s, key) && key !in r.sso && x.sid !in r.sidIndex;
  }

  /** When the session was alive, its sid also has no active refresh token left: the list of
      families under the sid, which rotation never renews, missed none. */
  lemma LogoutRevokesEveryFamily(s: State, sid: nat, reason: RevokeReason)
    requires Inv(s) && exists key: nat :: SessionAlive(s, key) && s.sso[key].value.sid == sid
    ensures var t := RevokeSession(s, sid, reason).0;
            forall k :: ActiveToken(t, k) ==> t.tokens[k].value.grant.sid != sid
  {
    var key: nat :| SessionAlive(s, key) && s.sso[key].value.sid == sid;
    assert Ok(s, key);
    FindKeeps(s, sid);
    var t := RevokeSession(s, sid, reason).0;
    forall k | ActiveToken(t, k) ensures t.tokens[k].value.grant.sid != sid {
      ActiveListed(s, key, k);
      assert ActiveToken(s, k) && k !in KeysOf(s, Members(s.sidFamilies, sid, s.now));
    }
  }

  /** The list under the sid of a live session leads to every active token of it. */
  lemma ActiveListed(s: State, key: nat, k: nat)
    requires Inv(s) && SessionAlive(s, key)
    ensures var sid := s.sso[key].value.sid;
            ActiveToken(s, k) && s.tokens[k].value.grant.sid == sid ==>
              k in KeysOf(s, Members(s.sidFamilies, sid, s.now))
  {
    assert Ok(s, key) && Ok(s, k);
    if ActiveToken(s, k) && s.tokens[k].value.grant.sid == s.sso[key].value.sid {
      var record := s.tokens[k].value;
      var ref := FamilyRef(record.familyId, record.grant.clientId, record.grant.tenantId);
      assert ref in Members(s.sidFamilies, record.grant.sid, s.now) && k in Members(s.families, ref.familyId, s.now);
    }
  }

  /** This client is registered and among the notified. */
  predicate Reached(s: State, reply: Reply, clientId: string) {
    reply.Notified? && clientId in s.identity.clients && s.identity.clients[clientId].id in reply.clients
  }

  /** Every client that holds a code or a refresh token of the sid is notified, even when the
      session itself is gone; and the tokens of other sids stay as they are. */
  lemma LogoutReachesEveryClient(s: State, sid: nat, reason: RevokeReason)
    requires Inv(s)
    ensures var (t, reply) := RevokeSession(s, sid, reason);
            && (forall k :: k in s.tokens && s.tokens[k].value.grant.sid == sid ==>
                  Reached(s, reply, s.tokens[k].value.grant.clientId))
            && (forall c :: c in s.codes && s.codes[c].value.Unused? && s.codes[c].value.grant.sid == sid ==>
                  Reached(s, reply, s.codes[c].value.grant.clientId))
            && (forall k :: k in s.tokens && s.tokens[k].value.grant.sid != sid ==>
                k in t.tokens && t.tokens[k] == s.tokens[k])
  {
    var (t, reply) := RevokeSession(s, sid, reason);
    forall k | k in s.tokens && s.tokens[k].value.grant.sid == sid
      ensures Reached(s, reply, s.tokens[k].value.grant.clientId)
    {
      assert Ok(s, k);
    }
    forall c | c in s.codes && s.codes[c].value.Unused? && s.codes[c].value.grant.sid == sid
      ensures Reached(s, reply, s.codes[c].value.grant.clientId)
    {
      assert Ok(s, c);
    }
    forall k | k in s.tokens && s.tokens[k].value.grant.sid != sid ensures k in t.tokens && t.tokens[k] == s.tokens[k] {
      OtherSidUnlisted(s, sid, k);
      FindKeeps(s, sid);
    }
  }

  /** The families listed under a sid hold no token of another. */
  lemma OtherSidUnlisted(s: State, sid: nat, k: nat)
    requires Inv(s) && k in s.tokens && s.tokens[k].value.grant.sid != sid
    ensures k !in KeysOf(s, Members(s.sidFamilies, sid, s.now))
  {
    assert Ok(s, sid);
    forall ref | ref in Members(s.sidFamilies, sid, s.now) ensures k !in Members(s.families, ref.familyId, s.now) {
      assert RefOk(s, sid, ref) && Ok(s, ref.familyId);
    }
  }

  // ---------- Removal of a member ----------

  predicate BelongsTo(g: Grant, clientId: string, tenantId: string, userId: string) {
    g.clientId == clientId && g.tenantId == tenantId && g.userId == userId
  }

  /** Removing a member leaves each of the member's families at that service and tenant without an
      active token in any live session, and changes no token of anyone or anything else. */
  lemma RevokeMemberBars(s: State, client: OidcClient, tenantId: string, userId: string, familyId: nat)
    requires Inv(s) && client.clientId in s.identity.clients && s.identity.clients[client.clientId] == client
    requires RevokeMember(s, client, tenantId, userId).1.AccessRevoked?
    requires exists k :: k in s.tokens && s.tokens[k].value.familyId == familyId
                         && BelongsTo(s.tokens[k].value.grant, client.clientId, tenantId, userId)
    ensures Barred(RevokeMember(s, client, tenantId, userId).0, familyId)
  {
    var t := RevokeMember(s, client, tenantId, userId).0;
    var j :| j in s.tokens && s.tokens[j].value.familyId == familyId
             && BelongsTo(s.tokens[j].value.grant, client.clientId, tenantId, userId);
    assert Ok(s, j);
    forall k | ActiveToken(s, k) && s.tokens[k].value.familyId == familyId
               && SessionAlive(s, s.tokens[k].value.grant.ssoSessionId)
      ensures k in KeysOf(s, AffectedRefs(s, userId, client, tenantId))
    {
      assert SameGrant(s, j, k);
      ActiveTokenAffected(s, client, tenantId, userId, k);
    }
  }

  lemma ActiveTokenAffected(s: State, client: OidcClient, tenantId: string, userId: string, k: nat)
    requires Inv(s) && client.clientId in s.identity.clients && s.identity.clients[client.clientId] == client
    requires ActiveToken(s, k) && SessionAlive(s, s.tokens[k].value.grant.ssoSessionId)
    requires BelongsTo(s.tokens[k].value.grant, client.clientId, tenantId, userId)
    ensures k in KeysOf(s, AffectedRefs(s, userId, client, tenantId))
  {
    var g := s.tokens[k].value.grant;
    assert Ok(s, k) && Ok(s, g.ssoSessionId);
    var ref := FamilyRef(s.tokens[k].value.familyId, g.clientId, tenantId);
    assert g.sid in ActiveByUser(s.repo, userId, s.now);
    assert ref in Members(s.sidFamilies, g.sid, s.now);
    assert ref in AffectedRefs(s, userId, client, tenantId) && k in Members(s.families, ref.familyId, s.now);
  }

  lemma AffectedBelong(s: State, client: OidcClient, tenantId: string, userId: string, n: nat)
    requires Inv(s) && n in s.tokens && n in KeysOf(s, AffectedRefs(s, userId, client, tenantId))
    ensures BelongsTo(s.tokens[n].value.grant, client.clientId, tenantId, userId)
  {
    var ref :| ref in AffectedRefs(s, userId, client, tenantId) && n in Members(s.families, ref.familyId, s.now);
    var sid :| sid in ActiveByUser(s.repo, userId, s.now) && ref in Members(s.sidFamilies, sid, s.now)
               && ref.clientId == client.clientId && ref.tenantId == tenantId;
    assert Members(s.sidFamilies, sid, s.now) != {} && Ok(s, sid);
    assert RefOk(s, sid, ref) && Ok(s, ref.familyId) && Ok(s, n);
  }

  lemma RevokeMemberSparesOthers(s: State, client: OidcClient, tenantId: string, userId: string, k: nat)
    requires Inv(s) && k in s.tokens && !BelongsTo(s.tokens[k].value.grant, client.clientId, tenantId, userId)
    ensures var t := RevokeMember(s, client, tenantId, userId).0;
            k in t.tokens && t.tokens[k] == s.tokens[k] && t.sso == s.sso && t.codes == s.codes
  {
    assert k !in KeysOf(s, AffectedRefs(s, userId, client, tenantId)) by {
      if k in KeysOf(s, AffectedRefs(s, userId, client, tenantId)) {
        AffectedBelong(s, client, tenantId, userId, k);
      }
    }
  }

  predicate Told(s: State, g: Grant, client: OidcClient, tenantId: string, userId: string, sids: set<nat>) {
    BelongsTo(g, client.clientId, tenantId, userId) && SessionAlive(s, g.ssoSessionId) ==> g.sid in sids
  }

  /** The service is told of every live session in which it holds a code or a token of the member. */
  lemma RevokeMemberReachesEverySession(s: State, client: OidcClient, tenantId: string, userId: string, n: nat)
    requires Inv(s) && client.clientId in s.identity.clients && s.identity.clients[client.clientId] == client
    requires RevokeMember(s, client, tenantId, userId).1.AccessRevoked?
    ensures var sids := RevokeMember(s, client, tenantId, userId).1.sids;
            && (n in s.tokens ==> Told(s, s.tokens[n].value.grant, client, tenantId, userId, sids))
            && (n in s.codes && s.codes[n].value.Unused? ==>
                Told(s, s.codes[n].value.grant, client, tenantId, userId, sids))
  {
    assert Ok(s, n);
    if n in s.tokens { HolderTold(s, s.tokens[n].value.grant, client, tenantId, userId); }
    if n in s.codes && s.codes[n].value.Unused? { HolderTold(s, s.codes[n].value.grant, client, tenantId, userId); }
  }

  lemma HolderTold(s: State, g: Grant, client: OidcClient, tenantId: string, userId: string)
    requires Inv(s) && client.clientId in s.identity.clients && s.identity.clients[client.clientId] == client
    requires GrantOk(s, g)
    ensures Told(s, g, client, tenantId, userId, AffectedSids(s, userId, client, tenantId))
  {
    assert Ok(s, g.ssoSessionId);
  }

  /** A removed member's families never refresh again, not even after a new invitation. */
  lemma RemovedMemberNeverRefreshes(s: State, client: OidcClient, tenantId: string, userId: string, familyId: nat,
                                    events: seq<Event>, e: Event)
    requires Inv(s) && client.clientId in s.identity.clients && s.identity.clients[client.clientId] == client
    requires RevokeMember(s, client, tenantId, userId).1.AccessRevoked?
    requires exists k :: k in s.tokens && s.tokens[k].value.familyId == familyId
                         && BelongsTo(s.tokens[k].value.grant, client.clientId, tenantId, userId)
    ensures var reply := Serve(Run(RevokeMember(s, client, tenantId, userId).0, events), e).1;
            reply.Granted? ==> reply.familyId != familyId
  {
    RevokeMemberKeeps(s, client, tenantId, userId);
    RevokeMemberBars(s, client, tenantId, userId, familyId);
    BarredGrantsNothing(RevokeMember(s, client, tenantId, userId).0, events, e, familyId);
  }

  // ---------- Other endings and beginnings ----------

  /** The revocation endpoint kills the family of a token the client owns, and otherwise does nothing. */
  lemma RevokeTokenOwnOnly(s: State, client: OidcClient, token: nat)
    requires Inv(s)
    ensures var (t, reply) := RevokeToken(s, client, token);
            && reply == Done
            && if Live(s.tokens, token, s.now) && s.tokens[token].value.grant.clientId == client.clientId
               then Dead(t, s.tokens[token].value.familyId) && t == s.(tokens := t.tokens)
               else t == s
  {
    assert Ok(s, token);
    if Live(s.tokens, token, s.now) {
      RevokeFamilyKills(s, s.tokens[token].value.familyId);
    }
  }

  /** A login under a new session ends the browser's previous one for good, and no other. */
  lemma LoginReplacesSession(s: State, previous: nat, userId: string, environment: Environment, events: seq<Event>)
    requires Inv(s) && previous < s.next
    ensures var (t, reply) := Login(s, Some(previous), userId, environment);
            && reply.LoggedIn? && reply.session.userId == userId && SessionAlive(t, reply.session.id)
            && !SessionAlive(Run(t, events), previous)
            && (forall key: nat :: SessionAlive(s, key) && key != previous ==> key in t.sso && t.sso[key] == s.sso[key])
  {
    LoginKeeps(s, Some(previous), userId, environment);
    var t := Login(s, Some(previous), userId, environment).0;
    LoginSwaps(s, previous, userId, environment);
    RunKeeps(t, events);
  }

  lemma LoginSwaps(s: State, previous: nat, userId: string, environment: Environment)
    requires Inv(s) && previous < s.next
    ensures var t := Login(s, Some(previous), userId, environment).0;
            && t.now == s.now && s.next in t.sso
                && t.sso[s.next] == Entry(SsoSession(s.next, s.next + 1, userId, s.now, s.now),
                                          s.now + SSO_SESSION_ABSOLUTE_SECONDS)
            && !SessionAlive(t, previous)
            && (forall key: nat :: SessionAlive(s, key) && key != previous ==> key in t.sso && t.sso[key] == s.sso[key])
  {
    assert Ok(s, previous) && Ok(s, s.next);
  }

  /** The code is unused, the request fits it, and its session, user and tenant are there. */
  predicate Redeemable(s: State, client: OidcClient, code: nat, redirectUri: string, verifier: string) {
    && Live(s.codes, code, s.now) && s.codes[code].value.Unused?
    && BindingError(s.codes[code].value, client, redirectUri, verifier, s.s256).None?
    && var grant := s.codes[code].value.grant;
    && SessionAlive(s, grant.ssoSessionId)
    && grant.userId in s.identity.users && grant.tenantId in s.identity.tenants
  }

  lemma RedeemableGranted(s: State, client: OidcClient, code: nat, redirectUri: string, verifier: string)
    ensures Exchange(s, client, code, redirectUri, verifier).1.Granted? <==>
        Redeemable(s, client, code, redirectUri, verifier)
  {
  }

  /** Removing a member leaves outstanding codes as they were: whatever code any client presents,
      it is redeemed after the removal exactly when it was before. */
  lemma RemovalKeepsCodes(s: State, client: OidcClient, tenantId: string, userId: string,
                          other: OidcClient, code: nat, redirectUri: string, verifier: string)
    ensures var t := RevokeMember(s, client, tenantId, userId).0;
            Exchange(t, other, code, redirectUri, verifier).1.Granted? <==>
            Exchange(s, other, code, redirectUri, verifier).1.Granted?
  {
    var t := RevokeMember(s, client, tenantId, userId).0;
    assert t == s.(tokens := t.tokens, identity := t.identity);
    assert t.identity == s.identity.(memberships := t.identity.memberships);
    RedeemableGranted(s, other, code, redirectUri, verifier);
    SameRedeemable(s, t.tokens, t.identity.memberships, other, code, redirectUri, verifier);
    RedeemableGranted(t, other, code, redirectUri, verifier);
  }

  lemma SameRedeemable(s: State, tokens: map<nat, Entry<RefreshToken>>,
                       memberships: map<(string, string, string), bool>,
                       client: OidcClient, code: nat, redirectUri: string, verifier: string)
    ensures var t := s.(tokens := tokens, identity := s.identity.(memberships := memberships));
            Redeemable(t, client, code, redirectUri, verifier) <==> Redeemable(s, client, code, redirectUri, verifier)
  {
  }

  /** A user with a session gets a code after an invitation exactly when the service is contracted
      for the tenant and neither the tenant nor the user is suspended; after a removal never. */
  lemma MemberMayAuthorizeIff(s: State, client: OidcClient, tenantId: string, x: SsoSession,
                              redirectUri: string, challenge: string, environment: Environment)
    requires LoadSession(s, x.id) == (s, Some(x))
    ensures var invited := InviteMember(s, client, tenantId, x.userId).0;
            Authorize(invited, x.id, client, tenantId, redirectUri, challenge, environment).1.CodeIssued? <==>
              && Contracted(s.identity, client.id, tenantId) && TenantActive(s.identity, tenantId)
              && (x.userId in s.identity.users ==> s.identity.users[x.userId])
    ensures var removed := RevokeMember(s, client, tenantId, x.userId).0;
            !Authorize(removed, x.id, client, tenantId, redirectUri, challenge, environment).1.CodeIssued?
  {
    AuthorizeGrantedIff(InviteMember(s, client, tenantId, x.userId).0, x.id, client, tenantId, redirectUri, challenge,
                        environment);
    AuthorizeGrantedIff(RevokeMember(s, client, tenantId, x.userId).0, x.id, client, tenantId, redirectUri, challenge,
                        environment);
    InvitedMayEnterIff(s, client, tenantId, x.userId);
    RemovedMayNotEnter(s, client, tenantId, x.userId);
  }

  /** An invitation changes the membership it is about, adds the user if unknown, and nothing else. */
  lemma InvitedMayEnterIff(s: State, client: OidcClient, tenantId: string, userId: string)
    ensures var (t, reply) := InviteMember(s, client, tenantId, userId);
            && t == s.(identity := t.identity)
            && (MayEnter(t.identity, client.id, tenantId, userId) <==>
                  && Contracted(s.identity, client.id, tenantId) && TenantActive(s.identity, tenantId)
                  && (userId in s.identity.users ==> s.identity.users[userId]))
            && (reply == Rejected("tenant_not_found") <==> tenantId !in s.identity.tenants)
            && (reply == Rejected("not_contracted") <==>
                  tenantId in s.identity.tenants && !Contracted(s.identity, client.id, tenantId))
            && (if reply != Done then t == s
                else
                  && t.identity == s.identity.(users := t.identity.users, memberships := t.identity.memberships)
                  && t.identity.memberships == s.identity.memberships[(tenantId, client.id, userId) := true]
                  && t.identity.users == if userId in s.identity.users then s.identity.users
                                         else s.identity.users[userId := true])
  {
  }

  /** A removal takes away the membership it is about, and changes no other row. */
  lemma RemovedMayNotEnter(s: State, client: OidcClient, tenantId: string, userId: string)
    ensures var (t, reply) := RevokeMember(s, client, tenantId, userId);
            && !MayEnter(t.identity, client.id, tenantId, userId)
            && t == s.(identity := t.identity, tokens := t.tokens)
            && (reply == Rejected("tenant_not_found") <==> tenantId !in s.identity.tenants)
            && (reply == Rejected("not_contracted") <==>
                  tenantId in s.identity.tenants && !Contracted(s.identity, client.id, tenantId))
            && (reply == Rejected("user_not_found") <==>
                  && tenantId in s.identity.tenants && Contracted(s.identity, client.id, tenantId)
                  && userId !in s.identity.users)
            && (if !reply.AccessRevoked? then t == s
                else t.identity == s.identity.(
                       memberships := s.identity.memberships - {(tenantId, client.id, userId)}))
  {
  }
}
