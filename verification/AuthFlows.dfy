/** A user's way through the authorization server, over whole runs: from the code to the first refresh
    token and on to its successors, and in and out of a service. */
module AuthFlows {
  import opened Timed
  import opened SessionRepository
  import opened AuthSpec
  import opened AuthInvariant
  import opened AuthRuns
  import opened AuthTheorems

  // ---------- From the authorization request to the code ----------

  /** What a code stands for: it was issued for this session, client, tenant, address and challenge. */
  predicate IssuedFor(s: State, code: nat, x: SsoSession, client: OidcClient, tenantId: string, redirectUri: string,
                      challenge: string)
  {
    && code in s.codes && s.codes[code].value.Unused?
    && s.codes[code].value.grant == Grant(client.clientId, x.userId, tenantId, x.sid, x.id)
    && s.codes[code].value.redirectUri == redirectUri && s.codes[code].value.codeChallenge == challenge
  }

  /** The name is in none of the volatile stores. */
  predicate Unused(s: State, name: nat) {
    && name !in s.codes && name !in s.tokens && name !in s.families && name !in s.sidFamilies
    && name !in s.sso && name !in s.sidIndex
  }

  /** What an issued code leaves behind: the code under a new name, for a minute, and the session seen
      now; the record of the session shows the browser and the visit. */
  lemma AuthorizeIssues(s: State, cookie: nat, client: OidcClient, tenantId: string, redirectUri: string,
                        challenge: string, environment: Environment)
    requires Inv(s) && Authorize(s, cookie, client, tenantId, redirectUri, challenge, environment).1.CodeIssued?
    ensures var (t, reply) := Authorize(s, cookie, client, tenantId, redirectUri, challenge, environment);
            var x := s.sso[cookie].value;
            && Unused(s, reply.code)
            && IssuedFor(t, reply.code, x, client, tenantId, redirectUri, challenge)
            && t.codes == s.codes[reply.code := Entry(t.codes[reply.code].value, s.now + 60)]
            && t.sso == s.sso[cookie := s.sso[cookie].(value := x.(lastSeenAt := s.now))]
            && t.tokens == s.tokens && t.families == s.families && t.sidIndex == s.sidIndex
            && t.s256 == s.s256 && t.now == s.now
    ensures var t := Authorize(s, cookie, client, tenantId, redirectUri, challenge, environment).0;
            var x := s.sso[cookie].value;
            && x.sid in s.repo.sessions && x.sid in t.repo.sessions
            && t.repo.sessions[x.sid] == s.repo.sessions[x.sid].(environment := environment, lastSeenAt := s.now)
            && Visited(t.repo, x.sid, client.id, tenantId)
  {
    assert Ok(s, cookie) && Ok(s, s.next);
    var x := s.sso[cookie].value;
    TouchKeeps(s, x, client, tenantId, environment);
  }

  // ---------- From the code to its redemption ----------

  /** The event presents the code. */
  predicate Presents(e: Event, code: nat) {
    e.ExchangeRequest? && e.code == code
  }

  predicate NeverPresented(events: seq<Event>, code: nat) {
    forall i :: 0 <= i < |events| ==> !Presents(events[i], code)
  }

  lemma ServeKeepsCode(s: State, e: Event, code: nat)
    requires Inv(s) && code in s.codes && !Presents(e, code)
    ensures var t := Serve(s, e).0; code in t.codes && t.codes[code] == s.codes[code] && t.s256 == s.s256
  {
    assert Ok(s, code);
    match e
    case Tick(_) =>
    case EditIdentity(_) =>
    case LoginRequest(previous, userId, environment) => LoginFrame(s, previous, userId, environment);
    case LoadRequest(cookie) => LoadFrame(s, cookie);
    case RevokeSessionRequest(sid, reason) => RevokeSessionFrame(s, sid, reason);
    case _ => if Client(s, e.clientId).Some? { ClientFrame(s, Client(s, e.clientId).value, e); }
  }

  ghost predicate SameTables(s: State, t: State) {
    t.codes == s.codes && t.identity == s.identity && t.s256 == s.s256
  }

  lemma LoadFrame(s: State, key: nat)
    ensures var t := LoadSession(s, key).0; t == s.(sso := t.sso, sidIndex := t.sidIndex)
  {
  }

  lemma LoginFrame(s: State, previous: Option<nat>, userId: string, environment: Environment)
    ensures var t := Login(s, previous, userId, environment).0;
            SameTables(s, t)
  {
    if previous.Some? { LoadFrame(CreateSession(s, userId, environment).0, previous.value); }
  }

  lemma RevokeSessionFrame(s: State, sid: nat, reason: RevokeReason)
    ensures var t := RevokeSession(s, sid, reason).0;
            SameTables(s, t)
  {
    if Live(s.sidIndex, sid, s.now) { LoadFrame(s, s.sidIndex[sid].value); }
  }

  /** Only presenting a code changes it, and only invitations and removals change the identity tables. */
  lemma ClientFrame(s: State, client: OidcClient, e: Event)
    ensures var t := ServeClient(s, client, e).0;
            && t.s256 == s.s256
            && (e.InviteRequest? || e.RevokeMemberRequest? || t.identity == s.identity)
            && (forall code :: code in s.codes && code < s.next && !Presents(e, code) ==>
                  code in t.codes && t.codes[code] == s.codes[code])
  {
    match e
    case AuthorizeRequest(cookie, _, tenantId, redirectUri, challenge, environment) =>
      AuthorizeFrame(s, client, cookie, tenantId, redirectUri, challenge, environment);
    case ExchangeRequest(_, code, redirectUri, verifier) =>
      ExchangeFrame(s, client, code, redirectUri, verifier);
      OtherCodesStay(s, Exchange(s, client, code, redirectUri, verifier).0, code);
    case RefreshRequest(_, token) => RefreshFrame(s, client, token);
    case _ =>
  }

  lemma AuthorizeFrame(s: State, client: OidcClient, cookie: nat, tenantId: string, redirectUri: string,
                       challenge: string, environment: Environment)
    ensures var t := Authorize(s, cookie, client, tenantId, redirectUri, challenge, environment).0;
            && t.identity == s.identity && t.s256 == s.s256
            && (t.codes == s.codes || (s.next in t.codes && t.codes == s.codes[s.next := t.codes[s.next]]))
  {
    LoadFrame(s, cookie);
  }

  lemma OtherCodesStay(s: State, t: State, code: nat)
    requires t.codes - {code} == s.codes - {code}
    ensures forall other :: other in s.codes && other != code ==> other in t.codes && t.codes[other] == s.codes[other]
  {
    forall other | other in s.codes && other != code ensures other in t.codes && t.codes[other] == s.codes[other] {
      assert other in s.codes - {code} && (t.codes - {code})[other] == (s.codes - {code})[other];
    }
  }

  lemma ExchangeFrame(s: State, client: OidcClient, code: nat, redirectUri: string, verifier: string)
    ensures var t := Exchange(s, client, code, redirectUri, verifier).0;
            && t.identity == s.identity && t.s256 == s.s256 && t.codes - {code} == s.codes - {code}
  {
    var taken := s.(codes := s.codes - {code});
    if code !in s.codes || s.codes[code].value.Used? {
      KnownCodeFrame(s, client, code, redirectUri, verifier);
    } else {
      LoadFrame(taken, s.codes[code].value.grant.ssoSessionId);
      ExchangeSteps(s, client, code, redirectUri, verifier, taken,
                    LoadSession(taken, s.codes[code].value.grant.ssoSessionId).0);
    }
  }

  lemma KnownCodeFrame(s: State, client: OidcClient, code: nat, redirectUri: string, verifier: string)
    requires code !in s.codes || s.codes[code].value.Used?
    ensures var t := Exchange(s, client, code, redirectUri, verifier).0;
            && t.identity == s.identity && t.s256 == s.s256 && t.codes - {code} == s.codes - {code}
  {
  }

  lemma ExchangeSteps(s: State, client: OidcClient, code: nat, redirectUri: string, verifier: string, taken: State,
                      loaded: State)
    requires code in s.codes && s.codes[code].value.Unused? && taken == s.(codes := s.codes - {code})
    requires loaded == LoadSession(taken, s.codes[code].value.grant.ssoSessionId).0
    ensures var t := Exchange(s, client, code, redirectUri, verifier).0;
            t == taken || t == loaded
            || t == RememberCode(CreateFamily(loaded, s.codes[code].value.grant), code, s.next)
  {
  }

  lemma RefreshFrame(s: State, client: OidcClient, token: nat)
    ensures SameTables(s, Refresh(s, client, token).0)
  {
    if Live(s.tokens, token, s.now) {
      var stored := s.tokens[token].value;
      var consumed := WriteBack(s, token, stored.(status := Rotated));
      ContextFrame(consumed, client, stored.grant);
      RefreshSteps(s, client, token, stored, consumed, RefreshContext(consumed, client, stored.grant).0);
    }
  }

  lemma ContextFrame(s: State, client: OidcClient, grant: Grant)
    ensures SameTables(s, RefreshContext(s, client, grant).0)
  {
    LoadFrame(s, grant.ssoSessionId);
  }

  lemma RefreshSteps(s: State, client: OidcClient, token: nat, stored: RefreshToken, consumed: State, checked: State)
    requires Live(s.tokens, token, s.now) && stored == s.tokens[token].value
    requires consumed == WriteBack(s, token, stored.(status := Rotated))
    requires checked == RefreshContext(consumed, client, stored.grant).0
    ensures var t := Refresh(s, client, token).0;
            || t == RevokeFamily(WriteBack(s, token, stored), stored.familyId)
            || t == RevokeFamily(consumed, stored.familyId)
            || t == RevokeFamily(checked, stored.familyId)
            || t == StoreToken(checked, stored.familyId, stored.grant)
  {
  }

  lemma {:induction false} RunKeepsCode(s: State, events: seq<Event>, code: nat)
    requires Inv(s) && code in s.codes && NeverPresented(events, code)
    ensures var t := Run(s, events); code in t.codes && t.codes[code] == s.codes[code] && t.s256 == s.s256
    decreases events
  {
    if events != [] {
      assert !Presents(events[0], code);
      ServeKeepsCode(s, events[0], code);
      ServeKeeps(s, events[0]);
      RunKeepsCode(Serve(s, events[0]).0, events[1..], code);
    }
  }

  /** From end to end: a code is redeemed, after whatever has been served in between, exactly within a
      minute, by the client it was issued to, with the redirect URI and a verifier of the challenge of
      the authorization request, while session, user and tenant are there; and what it is redeemed for is
      the session's user, in that session, at that client and tenant. */
  lemma CodeRedeemedIff(s: State, cookie: nat, client: OidcClient, tenantId: string, redirectUri: string,
                        challenge: string, environment: Environment, events: seq<Event>,
                        other: OidcClient, redirectUri': string, verifier: string)
    requires Inv(s) && client.clientId in s.identity.clients && s.identity.clients[client.clientId] == client
    requires Authorize(s, cookie, client, tenantId, redirectUri, challenge, environment).1.CodeIssued?
    requires var (t, issued) := Authorize(s, cookie, client, tenantId, redirectUri, challenge, environment);
             NeverPresented(events, issued.code)
    ensures var (t, issued) := Authorize(s, cookie, client, tenantId, redirectUri, challenge, environment);
            var x, v := s.sso[cookie].value, Run(t, events);
            var reply := Exchange(v, other, issued.code, redirectUri', verifier).1;
            && (reply.Granted? <==>
                  && v.now < s.now + 60
                  && other.clientId == client.clientId && redirectUri' == redirectUri
                  && ValidVerifier(verifier) && s.s256(verifier) == challenge
                  && SessionAlive(v, cookie) && x.userId in v.identity.users && tenantId in v.identity.tenants)
            && (reply.Granted? ==> reply.grant == Grant(client.clientId, x.userId, tenantId, x.sid, cookie))
            && (v.now >= s.now + 60 ==> reply == Rejected("code_unknown_or_expired"))
  {
    var (t, issued) := Authorize(s, cookie, client, tenantId, redirectUri, challenge, environment);
    AuthorizeKeeps(s, cookie, client, tenantId, redirectUri, challenge, environment);
    AuthorizeIssues(s, cookie, client, tenantId, redirectUri, challenge, environment);
    assert Ok(s, cookie);
    RunKeepsCode(t, events, issued.code);
    RunKeeps(t, events);
    var v := Run(t, events);
    ExchangeGrantedIff(v, other, issued.code, redirectUri', verifier);
    if Exchange(v, other, issued.code, redirectUri', verifier).1.Granted? {
      ExchangeHandsOver(v, other, issued.code, redirectUri', verifier);
    }
  }

  // ---------- From the redemption to the first refresh token ----------

  /** A redeemed code hands out the one token of a new family: a name that was in no store, stored as
      active for twelve hours, listed in its family's set and under its sid. Nothing else changes but the
      code, which is remembered with the family. */
  lemma ExchangeHandsOver(s: State, client: OidcClient, code: nat, redirectUri: string, verifier: string)
    requires Inv(s) && Exchange(s, client, code, redirectUri, verifier).1.Granted?
    ensures var (t, reply) := Exchange(s, client, code, redirectUri, verifier);
            && code in s.codes && s.codes[code].value.Unused? && reply.grant == s.codes[code].value.grant
            && Unused(s, reply.token) && Unused(s, reply.familyId) && reply.token != reply.familyId
            && t.tokens == s.tokens[reply.token := Entry(RefreshToken(reply.familyId, reply.grant, Active),
                                                         s.now + 12 * 60 * 60)]
            && t.families == s.families[reply.familyId := Entry({reply.token}, s.now + 12 * 60 * 60)]
            && t.codes == s.codes[code := Entry(Used(reply.familyId), s.now + 10 * 60)]
            && t.sso == s.sso && t.sidIndex == s.sidIndex && t.repo == s.repo && t.identity == s.identity
            && t.now == s.now
    ensures var (t, reply) := Exchange(s, client, code, redirectUri, verifier);
            var (sid, ref) := (reply.grant.sid, FamilyRef(reply.familyId, reply.grant.clientId, reply.grant.tenantId));
            && Members(t.sidFamilies, sid, t.now) == Members(s.sidFamilies, sid, s.now) + {ref}
            && (forall other :: other != sid ==>
                  Members(t.sidFamilies, other, t.now) == Members(s.sidFamilies, other, s.now))
  {
    NewNamesUnused(s);
    GrantedIs(s, client, code, redirectUri, verifier);
    RedeemMeans(s, code);
  }

  lemma NewNamesUnused(s: State)
    requires Inv(s)
    ensures Unused(s, s.next) && Unused(s, s.next + 1)
  {
    assert Ok(s, s.next) && Ok(s, s.next + 1);
  }

  lemma GrantedIs(s: State, client: OidcClient, code: nat, redirectUri: string, verifier: string)
    requires Inv(s) && Exchange(s, client, code, redirectUri, verifier).1.Granted?
    ensures code in s.codes && s.codes[code].value.Unused?
    ensures var taken, grant := s.(codes := s.codes - {code}), s.codes[code].value.grant;
            Exchange(s, client, code, redirectUri, verifier)
            == (RememberCode(CreateFamily(taken, grant), code, s.next), Granted(s.next + 1, s.next, grant))
  {
    TakeCodeKeeps(s, code);
    LoadKeeps(s.(codes := s.codes - {code}), s.codes[code].value.grant.ssoSessionId);
  }

  lemma RedeemMeans(s: State, code: nat)
    requires code in s.codes && s.codes[code].value.Unused? && s.next !in s.families
    ensures var g := s.codes[code].value.grant;
            var t := RememberCode(CreateFamily(s.(codes := s.codes - {code}), g), code, s.next);
            && t == s.(next := s.next + 2, tokens := t.tokens, families := t.families, sidFamilies := t.sidFamilies,
                       codes := t.codes)
            && t.tokens == s.tokens[s.next + 1 := Entry(RefreshToken(s.next, g, Active), s.now + 12 * 60 * 60)]
            && t.families == s.families[s.next := Entry({s.next + 1}, s.now + 12 * 60 * 60)]
            && t.codes == s.codes[code := Entry(Used(s.next), s.now + 10 * 60)]
            && Members(t.sidFamilies, g.sid, t.now)
               == Members(s.sidFamilies, g.sid, s.now) + {FamilyRef(s.next, g.clientId, g.tenantId)}
            && (forall other :: other != g.sid ==>
                  Members(t.sidFamilies, other, t.now) == Members(s.sidFamilies, other, s.now))
  {
    CreateFamilyMeans(s.(codes := s.codes - {code}), s.codes[code].value.grant);
    assert (s.codes - {code})[code := Entry(Used(s.next), s.now + 10 * 60)]
        == s.codes[code := Entry(Used(s.next), s.now + 10 * 60)];
  }

  lemma CreateFamilyMeans(s: State, grant: Grant)
    requires s.next !in s.families
    ensures var t := CreateFamily(s, grant);
            var ref := FamilyRef(s.next, grant.clientId, grant.tenantId);
            && t == s.(next := s.next + 2, tokens := t.tokens, families := t.families, sidFamilies := t.sidFamilies)
            && t.tokens == s.tokens[s.next + 1 := Entry(RefreshToken(s.next, grant, Active), s.now + 12 * 60 * 60)]
            && t.families == s.families[s.next := Entry({s.next + 1}, s.now + 12 * 60 * 60)]
            && Members(t.sidFamilies, grant.sid, t.now) == Members(s.sidFamilies, grant.sid, s.now) + {ref}
            && (forall other :: other != grant.sid ==>
                  Members(t.sidFamilies, other, t.now) == Members(s.sidFamilies, other, s.now))
  {
    StoreTokenMeans(s.(next := s.next + 1), s.next, grant);
  }

  lemma StoreTokenMeans(s: State, familyId: nat, grant: Grant)
    requires familyId !in s.families
    ensures var t := StoreToken(s, familyId, grant);
            && t == s.(next := s.next + 1, tokens := t.tokens, families := t.families)
            && t.tokens == s.tokens[s.next := Entry(RefreshToken(familyId, grant, Active), s.now + 12 * 60 * 60)]
            && t.families == s.families[familyId := Entry({s.next}, s.now + 12 * 60 * 60)]
  {
    assert {} + {s.next} == {s.next};
  }

  /** The token that a redeemed code hands out works: the client gets its successor at once exactly when
      the user may enter the service. */
  lemma FirstRefreshGrantedIff(s: State, client: OidcClient, code: nat, redirectUri: string, verifier: string)
    requires Inv(s) && Exchange(s, client, code, redirectUri, verifier).1.Granted?
    ensures var (t, reply) := Exchange(s, client, code, redirectUri, verifier);
            Refresh(t, client, reply.token).1.Granted? <==>
            MayEnter(s.identity, client.id, reply.grant.tenantId, reply.grant.userId)
  {
    var (t, reply) := Exchange(s, client, code, redirectUri, verifier);
    ExchangeKeeps(s, client, code, redirectUri, verifier);
    ExchangeHandsOver(s, client, code, redirectUri, verifier);
    ExchangeGrantedIff(s, client, code, redirectUri, verifier);
    RefreshRotatesOrKills(t, client, reply.token);
  }

  /** So does every successor: as long as it is remembered as active, after any run, it is refreshed
      exactly while its session lives and its user may enter. */
  lemma SuccessorRefreshesIff(s: State, client: OidcClient, token: nat, events: seq<Event>)
    requires Inv(s) && Refresh(s, client, token).1.Granted?
    requires var (t, reply) := Refresh(s, client, token);
             var v := Run(t, events);
             ActiveToken(v, reply.token) && v.tokens[reply.token].value == t.tokens[reply.token].value
    ensures var (t, reply) := Refresh(s, client, token);
            var v := Run(t, events);
            && Unused(s, reply.token)
            && (Refresh(v, client, reply.token).1.Granted? <==>
                SessionAlive(v, reply.grant.ssoSessionId)
                && MayEnter(v.identity, client.id, reply.grant.tenantId, reply.grant.userId))
  {
    var (t, reply) := Refresh(s, client, token);
    assert Ok(s, reply.token);
    RefreshAlive(s, client, token);
    RefreshRotatesOrKills(s, client, token);
    RefreshKeeps(s, client, token);
    RefreshHandsOver(s, client, token);
    RunKeeps(t, events);
    RefreshRotatesOrKills(Run(t, events), client, reply.token);
  }

  // ---------- In and out of a service ----------

  /** An edit of the identity tables or an invitation that lets the user in. */
  ghost predicate LetsIn(s: State, e: Event, oidcClientId: string, tenantId: string, userId: string) {
    (e.EditIdentity? || e.InviteRequest?) && MayEnter(Serve(s, e).0.identity, oidcClientId, tenantId, userId)
  }

  ghost predicate NeverLetIn(s: State, events: seq<Event>, oidcClientId: string, tenantId: string, userId: string)
    decreases events
  {
    events != [] ==>
      && !LetsIn(s, events[0], oidcClientId, tenantId, userId)
      && NeverLetIn(Serve(s, events[0]).0, events[1..], oidcClientId, tenantId, userId)
  }

  /** Nothing but an edit or an invitation lets anybody in. */
  lemma OnlyLetIn(s: State, e: Event, oidcClientId: string, tenantId: string, userId: string)
    requires !MayEnter(s.identity, oidcClientId, tenantId, userId) && !LetsIn(s, e, oidcClientId, tenantId, userId)
    ensures !MayEnter(Serve(s, e).0.identity, oidcClientId, tenantId, userId)
  {
    match e
    case Tick(_) =>
    case EditIdentity(_) =>
    case InviteRequest(_, _, _) =>
    case LoginRequest(previous, user, environment) => LoginFrame(s, previous, user, environment);
    case LoadRequest(cookie) => LoadFrame(s, cookie);
    case RevokeSessionRequest(sid, reason) => RevokeSessionFrame(s, sid, reason);
    case RevokeMemberRequest(clientId, tenant, user) =>
      if Client(s, clientId).Some? { RemovedMayNotEnter(s, Client(s, clientId).value, tenant, user); }
    case _ => if Client(s, e.clientId).Some? { ClientFrame(s, Client(s, e.clientId).value, e); }
  }

  /** The request asks for this client, in this tenant. */
  predicate Asks(s: State, e: Event, oidcClientId: string, tenantId: string) {
    match e
    case AuthorizeRequest(_, clientId, tenant, _, _, _) =>
      tenant == tenantId && clientId in s.identity.clients && s.identity.clients[clientId].id == oidcClientId
    case RefreshRequest(clientId, token) =>
      && clientId in s.identity.clients && s.identity.clients[clientId].id == oidcClientId
      && token in s.tokens && s.tokens[token].value.grant.tenantId == tenantId
    case _ => false
  }

  /** Whose session or token the request presents. */
  predicate PresentedBy(s: State, e: Event, userId: string) {
    match e
    case AuthorizeRequest(cookie, _, _, _, _, _) => cookie in s.sso && s.sso[cookie].value.userId == userId
    case RefreshRequest(_, token) => token in s.tokens && s.tokens[token].value.grant.userId == userId
    case _ => false
  }

  /** Once a contract, a membership, a tenant or a user is suspended or gone, no code is issued and no
      token refreshed for that user at that service and tenant, in any run, until an edit or an
      invitation lets the user in again. */
  lemma {:induction false} BarredUntilLetIn(s: State, events: seq<Event>, e: Event, oidcClientId: string,
                                            tenantId: string, userId: string)
    requires Inv(s) && !MayEnter(s.identity, oidcClientId, tenantId, userId)
    requires NeverLetIn(s, events, oidcClientId, tenantId, userId)
    ensures var v := Run(s, events);
            && !MayEnter(v.identity, oidcClientId, tenantId, userId)
            && (Asks(v, e, oidcClientId, tenantId) && PresentedBy(v, e, userId) ==> Serve(v, e).1.Rejected?)
    decreases events
  {
    if events == [] {
      if Asks(s, e, oidcClientId, tenantId) && PresentedBy(s, e, userId) {
        NotLetIn(s, e, oidcClientId, tenantId, userId);
      }
    } else {
      OnlyLetIn(s, events[0], oidcClientId, tenantId, userId);
      ServeKeeps(s, events[0]);
      BarredUntilLetIn(Serve(s, events[0]).0, events[1..], e, oidcClientId, tenantId, userId);
    }
  }

  lemma NotLetIn(s: State, e: Event, oidcClientId: string, tenantId: string, userId: string)
    requires Inv(s) && !MayEnter(s.identity, oidcClientId, tenantId, userId)
    requires Asks(s, e, oidcClientId, tenantId) && PresentedBy(s, e, userId)
    ensures Serve(s, e).1.Rejected?
  {
    var client := Client(s, e.clientId);
    if client.Some? {
      match e
      case AuthorizeRequest(cookie, _, tenant, redirectUri, challenge, environment) =>
        AuthorizeGrantedIff(s, cookie, client.value, tenant, redirectUri, challenge, environment);
      case RefreshRequest(_, token) =>
        if Live(s.tokens, token, s.now) { RefreshRotatesOrKills(s, client.value, token); }
    }
  }
}
