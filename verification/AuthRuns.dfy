/** Every run of the authorization server keeps the invariant and brings nothing back. */
module AuthRuns {
  import opened Timed
  import opened SessionRepository
  import opened AuthSpec
  import opened AuthInvariant

  lemma InitialInv(s: State)
    requires Initial(s)
    ensures Inv(s)
  {
    forall n ensures Ok(s, n) {}
  }

  lemma LoginKeeps(s: State, previous: Option<nat>, userId: string, environment: Environment)
    requires Inv(s)
    ensures Keeps(s, Login(s, previous, userId, environment).0)
  {
    var created := CreateSession(s, userId, environment).0;
    CreateSessionKeeps(s, userId, environment);
    if previous.Some? {
      var (loaded, session) := LoadSession(created, previous.value);
      LoadKeeps(created, previous.value);
      KeepsTransitive(s, created, loaded);
      if session.Some? {
        DestroyKeeps(loaded, session.value);
        KeepsTransitive(s, loaded, Destroy(loaded, session.value));
      }
    }
  }

  lemma AuthorizeKeeps(s: State, cookie: nat, client: OidcClient, tenantId: string, redirectUri: string,
                       codeChallenge: string, environment: Environment)
    requires Inv(s) && client.clientId in s.identity.clients && s.identity.clients[client.clientId] == client
    ensures Keeps(s, Authorize(s, cookie, client, tenantId, redirectUri, codeChallenge, environment).0)
  {
    SelfKeeps(s);
    if tenantId in s.identity.tenants {
      LoadKeeps(s, cookie);
      var (loaded, session) := LoadSession(s, cookie);
      if session.Some? && AccessDenied(s.identity, client, tenantId, session.value.userId).None? {
        var touched := TouchSession(s, session.value, client, tenantId, environment);
        TouchKeeps(s, session.value, client, tenantId, environment);
        assert Ok(touched, cookie);
        var grant := Grant(client.clientId, session.value.userId, tenantId, session.value.sid, cookie);
        var t := Issued(touched, Unused(grant, redirectUri, codeChallenge));
        IssueKeeps(touched, Unused(grant, redirectUri, codeChallenge));
        KeepsTransitive(s, touched, t);
        assert t == Authorize(s, cookie, client, tenantId, redirectUri, codeChallenge, environment).0;
      }
    }
  }

  function Issued(s: State, code: Code): State {
    s.(codes := Put(s.codes, s.next, code, s.now, AUTHORIZATION_CODE_TTL_SECONDS), next := s.next + 1)
  }

  lemma IssueKeeps(s: State, code: Code)
    requires Inv(s) && code.Unused? && GrantOk(s, code.grant)
    ensures Keeps(s, Issued(s, code))
  {
    var t := Issued(s, code);
    assert t == s.(codes := t.codes, next := s.next + 1);
    forall n ensures CodeOk(t, n) && CodeKept(s, t, n) { IssuedCode(s, code, n); }
    CodesKeep(s, t.codes, s.next + 1);
  }

  lemma IssuedCode(s: State, code: Code, n: nat)
    requires Inv(s) && code.Unused? && GrantOk(s, code.grant)
    ensures CodeOk(Issued(s, code), n) && CodeKept(s, Issued(s, code), n)
  {
    assert Ok(s, n) && Ok(s, s.next);
  }

  lemma TakeCodeKeeps(s: State, code: nat)
    requires Inv(s) && (Live(s.codes, code, s.now) ==> s.codes[code].value.Unused?)
    ensures Keeps(s, s.(codes := s.codes - {code}))
  {
    forall c | c in s.codes ensures CodeOk(s, c) { assert Ok(s, c); }
    CodesKeep(s, s.codes - {code}, s.next);
    assert s.(codes := s.codes - {code}) == s.(codes := s.codes - {code}, next := s.next);
  }

  lemma RememberCodeInv(s: State, code: nat, familyId: nat)
    requires Inv(s) && code < s.next && familyId < s.next
    ensures Inv(RememberCode(s, code, familyId)) && Evolves(s, RememberCode(s, code, familyId))
  {
    forall c | c in s.codes ensures CodeOk(s, c) { assert Ok(s, c); }
    var t := RememberCode(s, code, familyId);
    CodesKeep(s, t.codes, s.next);
    assert t == s.(codes := t.codes, next := s.next);
  }

  lemma ExchangeKeeps(s: State, client: OidcClient, code: nat, redirectUri: string, verifier: string)
    requires Inv(s)
    ensures Keeps(s, Exchange(s, client, code, redirectUri, verifier).0)
  {
    if Live(s.codes, code, s.now) && s.codes[code].value.Used? {
      ReuseKeeps(s, client, code, redirectUri, verifier);
    } else {
      var taken := s.(codes := s.codes - {code});
      TakeCodeKeeps(s, code);
      if Live(s.codes, code, s.now) && BindingError(s.codes[code].value, client, redirectUri, verifier, s.s256).None? {
        var grant := s.codes[code].value.grant;
        var (loaded, session) := LoadSession(taken, grant.ssoSessionId);
        LoadKeeps(taken, grant.ssoSessionId);
        KeepsTransitive(s, taken, loaded);
        if session.Some? && grant.userId in s.identity.users && grant.tenantId in s.identity.tenants {
          RedeemKeeps(s, code);
        }
      }
    }
  }

  lemma ReuseKeeps(s: State, client: OidcClient, code: nat, redirectUri: string, verifier: string)
    requires Inv(s) && Live(s.codes, code, s.now) && s.codes[code].value.Used?
    ensures Keeps(s, Exchange(s, client, code, redirectUri, verifier).0)
  {
    assert Ok(s, code);
    var familyId := s.codes[code].value.familyId;
    var u := RevokeFamily(s, familyId);
    RevokeKeysKeeps(s, Members(s.families, familyId, s.now));
    var t := RememberCode(u, code, familyId);
    RememberCodeInv(u, code, familyId);
    EvolvesTransitive(s, u, t);
    forall n ensures TokenKept(s, t, n) && CodeKept(s, t, n) { assert TokenKept(s, u, n); }
    assert t.codes == (s.codes - {code})[code := t.codes[code]];
    assert t == Exchange(s, client, code, redirectUri, verifier).0;
  }

  /** Redeeming an unused code of a live session. */
  lemma RedeemKeeps(s: State, code: nat)
    requires Inv(s) && code in s.codes && s.codes[code].value.Unused?
    requires SessionAlive(s, s.codes[code].value.grant.ssoSessionId)
    ensures Keeps(s, RememberCode(CreateFamily(s.(codes := s.codes - {code}), s.codes[code].value.grant), code, s.next))
  {
    assert Ok(s, code);
    var taken := s.(codes := s.codes - {code});
    TakeCodeKeeps(s, code);
    assert GrantOk(taken, s.codes[code].value.grant);
    var u := CreateFamily(taken, s.codes[code].value.grant);
    CreateFamilyKeeps(taken, s.codes[code].value.grant);
    var t := RememberCode(u, code, s.next);
    RememberCodeInv(u, code, s.next);
    EvolvesTransitive(s, taken, u);
    EvolvesTransitive(s, u, t);
    forall n ensures TokenKept(s, t, n) && CodeKept(s, t, n) { assert TokenKept(taken, u, n); }
  }

  lemma RefreshKeeps(s: State, client: OidcClient, token: nat)
    requires Inv(s)
    ensures Keeps(s, Refresh(s, client, token).0)
  {
    if !Live(s.tokens, token, s.now) {
      forall k | k in s.tokens ensures TokenOk(s, k) { assert Ok(s, k); }
      TokensFadeKeeps(s, s.tokens - {token});
    } else {
      var stored := s.tokens[token].value;
      var record := if stored.status.Active? then stored.(status := Rotated) else stored;
      var written := WriteBack(s, token, record);
      WriteBackKeeps(s, token, record);
      if !stored.status.Active? || stored.grant.clientId != client.clientId {
        RevokeFamilyKeeps(s, written, stored.familyId);
      } else {
        var (checked, error) := RefreshContext(written, client, stored.grant);
        LoadKeeps(written, stored.grant.ssoSessionId);
        if error.Some? {
          KeepsTransitive(s, written, checked);
          RevokeFamilyKeeps(s, checked, stored.familyId);
        } else {
          RotateKeeps(s, token);
        }
      }
    }
  }

  lemma RevokeFamilyKeeps(s: State, t: State, familyId: nat)
    requires Keeps(s, t)
    ensures Keeps(s, RevokeFamily(t, familyId))
  {
    RevokeKeysKeeps(t, Members(t.families, familyId, t.now));
    KeepsTransitive(s, t, RevokeFamily(t, familyId));
  }

  /** The sid index never loses a live session: when it finds nothing, there is none. */
  lemma FindKeeps(s: State, sid: nat)
    requires Inv(s)
    ensures var (t, session) := FindSessionBySid(s, sid);
            && Keeps(s, t)
            && t == s.(sso := t.sso, sidIndex := t.sidIndex)
            && (session.Some? ==> t == s && SessionAlive(s, session.value.id)
                                  && s.sso[session.value.id].value == session.value && session.value.sid == sid)
            && (session.None? ==> forall key :: Live(t.sso, key, t.now) ==> t.sso[key].value.sid != sid)
            && forall k :: k in t.sso ==> k in s.sso && t.sso[k] == s.sso[k]
  {
    SelfKeeps(s);
    var (t, session) := FindSessionBySid(s, sid);
    if Live(s.sidIndex, sid, s.now) {
      LoadKeeps(s, s.sidIndex[sid].value);
      assert Ok(s, s.sidIndex[sid].value);
    }
    forall key | Live(t.sso, key, t.now) && t.sso[key].value.sid == sid
      ensures session.Some?
    {
      assert Ok(s, key);
    }
    if session.Some? {
      assert Ok(s, sid);
    }
  }

  lemma RevokeSessionKeeps(s: State, sid: nat, reason: RevokeReason)
    requires Inv(s)
    ensures var t := RevokeSession(s, sid, reason).0;
            Keeps(s, t) && forall key :: Live(t.sso, key, t.now) ==> t.sso[key].value.sid != sid
  {
    var (found, session) := FindSessionBySid(s, sid);
    FindKeeps(s, sid);
    var cleared := found;
    if session.Some? {
      var refs := Members(found.sidFamilies, sid, s.now);
      var revoked := RevokeFamilies(found, refs);
      RevokeKeysKeeps(found, KeysOf(found, refs));
      KeepsTransitive(s, found, revoked);
      var destroyed := Destroy(revoked, session.value);
      DestroyKeeps(revoked, session.value);
      KeepsTransitive(s, revoked, destroyed);
      cleared := destroyed.(sidFamilies := destroyed.sidFamilies - {sid});
      ForgetSidKeeps(destroyed, sid);
      KeepsTransitive(s, destroyed, cleared);
    }
    MarkRevokedKeeps(cleared, sid, reason);
    KeepsTransitive(s, cleared, RevokeSession(s, sid, reason).0);
  }

  lemma RevokeMemberKeeps(s: State, client: OidcClient, tenantId: string, userId: string)
    requires Inv(s)
    ensures Keeps(s, RevokeMember(s, client, tenantId, userId).0)
  {
    SelfKeeps(s);
    if RevokeMember(s, client, tenantId, userId).1.AccessRevoked? {
      var refs := AffectedRefs(s, userId, client, tenantId);
      var u := RevokeFamilies(s, refs);
      RevokeKeysKeeps(s, KeysOf(s, refs));
      var identity := s.identity.(memberships := s.identity.memberships - {(tenantId, client.id, userId)});
      EditKeeps(u, identity);
      KeepsTransitive(s, u, u.(identity := identity));
    }
  }

  /** One event, whatever it is, keeps the invariant and brings nothing back. */
  lemma ServeKeeps(s: State, e: Event)
    requires Inv(s)
    ensures Keeps(s, Serve(s, e).0)
  {
    match e
    case Tick(_) => OutsideKeeps(s, e);
    case EditIdentity(_) => OutsideKeeps(s, e);
    case LoginRequest(previous, userId, environment) => LoginKeeps(s, previous, userId, environment);
    case LoadRequest(cookie) => LoadKeeps(s, cookie);
    case RevokeSessionRequest(sid, reason) => RevokeSessionKeeps(s, sid, reason);
    case _ => NamedKeeps(s, e.clientId, e);
  }

  lemma OutsideKeeps(s: State, e: Event)
    requires Inv(s) && (e.Tick? || e.EditIdentity?)
    ensures Keeps(s, Serve(s, e).0)
  {
    match e
    case Tick(seconds) => TickKeeps(s, seconds);
    case EditIdentity(identity) =>
      if ClientsKept(s.identity, identity) { EditKeeps(s, identity); } else { SelfKeeps(s); }
  }

  lemma NamedKeeps(s: State, clientId: string, e: Event)
    requires Inv(s)
    ensures match Client(s, clientId)
            case None => Keeps(s, s)
            case Some(client) => Keeps(s, ServeClient(s, client, e).0)
  {
    SelfKeeps(s);
    if Client(s, clientId).Some? {
      ServeClientKeeps(s, Client(s, clientId).value, e);
    }
  }

  lemma RevokeTokenKeeps(s: State, client: OidcClient, token: nat)
    requires Inv(s)
    ensures Keeps(s, RevokeToken(s, client, token).0)
  {
    SelfKeeps(s);
    if Live(s.tokens, token, s.now) {
      RevokeFamilyKeeps(s, s, s.tokens[token].value.familyId);
    }
  }

  lemma InviteMemberKeeps(s: State, client: OidcClient, tenantId: string, userId: string)
    requires Inv(s)
    ensures Keeps(s, InviteMember(s, client, tenantId, userId).0)
  {
    var t := InviteMember(s, client, tenantId, userId).0;
    EditKeeps(s, t.identity);
    assert t == s.(identity := t.identity);
  }

  lemma ServeClientKeeps(s: State, client: OidcClient, e: Event)
    requires Inv(s) && client.clientId in s.identity.clients && s.identity.clients[client.clientId] == client
    ensures Keeps(s, ServeClient(s, client, e).0)
  {
    match e
    case AuthorizeRequest(cookie, _, tenantId, redirectUri, challenge, environment) =>
      AuthorizeKeeps(s, cookie, client, tenantId, redirectUri, challenge, environment);
    case ExchangeRequest(_, code, redirectUri, verifier) => ExchangeKeeps(s, client, code, redirectUri, verifier);
    case RefreshRequest(_, token) => RefreshKeeps(s, client, token);
    case RevokeTokenRequest(_, token) => RevokeTokenKeeps(s, client, token);
    case InviteRequest(_, tenantId, userId) => InviteMemberKeeps(s, client, tenantId, userId);
    case RevokeMemberRequest(_, tenantId, userId) => RevokeMemberKeeps(s, client, tenantId, userId);
    case _ => SelfKeeps(s);
  }

  lemma {:induction false} RunKeeps(s: State, events: seq<Event>)
    requires Inv(s)
    ensures Keeps(s, Run(s, events))
    decreases events
  {
    if events == [] {
      SelfKeeps(s);
    } else {
      var t := Serve(s, events[0]).0;
      ServeKeeps(s, events[0]);
      RunKeeps(t, events[1..]);
      KeepsTransitive(s, t, Run(s, events));
    }
  }
}
