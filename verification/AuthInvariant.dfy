/** What every use case of the authorization server keeps, and what no use case can bring back. */
module AuthInvariant {
  import opened Timed
  import opened SessionRepository
  import opened AuthSpec

  predicate SessionAlive(s: State, key: nat) {
    Live(s.sso, key, s.now) && !Expired(s.sso[key].value, s.now)
  }

  predicate ActiveToken(s: State, k: nat) {
    Live(s.tokens, k, s.now) && s.tokens[k].value.status.Active?
  }

  // ---------- The invariant ----------

  /** A stored session and its entry in the sid index end at the same moment. */
  predicate SessionOk(s: State, key: nat) {
    key in s.sso ==>
      var x := s.sso[key].value;
      && key < s.next && x.id == key && x.sid < s.next
      && x.createdAt <= x.lastSeenAt <= s.now
      && s.sso[key].expiresAt == x.createdAt + SSO_SESSION_ABSOLUTE_SECONDS
      && x.sid in s.sidIndex && s.sidIndex[x.sid] == Entry(key, s.sso[key].expiresAt)
  }

  /** An index entry leads to the session of its sid or to none. */
  predicate IndexOk(s: State, sid: nat) {
    sid in s.sidIndex ==>
      && sid < s.next && s.sidIndex[sid].value < s.next
      && (s.sidIndex[sid].value in s.sso ==> s.sso[s.sidIndex[sid].value].value.sid == sid)
  }

  /** The session record agrees with the stored session for as long as that is visible. */
  predicate RecordOk(s: State, key: nat) {
    Live(s.sso, key, s.now) ==>
      var x := s.sso[key].value;
      && x.sid in s.repo.sessions
      && var r := s.repo.sessions[x.sid];
         r.userId == x.userId && r.createdAt == x.createdAt && r.lastSeenAt == x.lastSeenAt && r.revoked.None?
  }

  /** What a grant says about its session is true, and its client and tenant are on record. */
  predicate GrantOk(s: State, g: Grant) {
    && g.sid < s.next && g.ssoSessionId < s.next
    && g.clientId in s.identity.clients
    && Visited(s.repo, g.sid, s.identity.clients[g.clientId].id, g.tenantId)
    && g.sid in s.repo.sessions && s.repo.sessions[g.sid].userId == g.userId
    && (g.sid in s.sidIndex ==> s.sidIndex[g.sid].value == g.ssoSessionId)
    && (g.ssoSessionId in s.sso ==>
          s.sso[g.ssoSessionId].value.sid == g.sid && s.sso[g.ssoSessionId].value.userId == g.userId)
  }

  predicate CodeOk(s: State, c: nat) {
    c in s.codes ==>
      && c < s.next
      && match s.codes[c].value
         case Unused(grant, _, _) => GrantOk(s, grant)
         case Used(familyId) =>
           familyId < s.next && s.codes[c].expiresAt <= s.now + CONSUMED_CODE_RETENTION_SECONDS
  }

  /** The family's set knows the token and outlives it. */
  predicate Covered(s: State, k: nat)
    requires k in s.tokens
  {
    var f := s.tokens[k].value.familyId;
    f in s.families && k in s.families[f].value && s.families[f].expiresAt >= s.tokens[k].expiresAt
  }

  /** The sid's list knows the family and outlives the session. */
  predicate Listed(s: State, record: RefreshToken) {
    var g := record.grant;
    g.ssoSessionId in s.sso ==>
      && g.sid in s.sidFamilies
      && FamilyRef(record.familyId, g.clientId, g.tenantId) in s.sidFamilies[g.sid].value
      && s.sidFamilies[g.sid].expiresAt >= s.sso[g.ssoSessionId].expiresAt
  }

  predicate TokenOk(s: State, k: nat) {
    k in s.tokens ==>
      && k < s.next && s.tokens[k].value.familyId < s.next
      && s.tokens[k].expiresAt <= s.now + REFRESH_TOKEN_TTL_SECONDS
      && GrantOk(s, s.tokens[k].value.grant)
      && (ActiveToken(s, k) ==> Covered(s, k) && Listed(s, s.tokens[k].value))
  }

  /** A family's set holds keys of that family only. */
  predicate FamilyOk(s: State, f: nat) {
    f in s.families ==>
      && f < s.next
      && forall k :: k in s.families[f].value ==> k < s.next && (k in s.tokens ==> s.tokens[k].value.familyId == f)
  }

  /** A listed reference describes every token of its family. */
  ghost predicate RefOk(s: State, sid: nat, ref: FamilyRef) {
    && ref.familyId < s.next
    && forall k :: k in s.tokens && s.tokens[k].value.familyId == ref.familyId ==>
         var g := s.tokens[k].value.grant;
         g.sid == sid && g.clientId == ref.clientId && g.tenantId == ref.tenantId
  }

  ghost predicate ListOk(s: State, sid: nat) {
    sid in s.sidFamilies ==> sid < s.next && forall ref :: ref in s.sidFamilies[sid].value ==> RefOk(s, sid, ref)
  }

  ghost predicate SameGrant(s: State, j: nat, k: nat) {
    j in s.tokens && k in s.tokens && s.tokens[j].value.familyId == s.tokens[k].value.familyId ==>
      s.tokens[j].value.grant == s.tokens[k].value.grant
  }

  /** Everything the invariant says about one name, whatever it names. */
  ghost predicate Ok(s: State, n: nat) {
    && SessionOk(s, n) && IndexOk(s, n) && RecordOk(s, n) && CodeOk(s, n) && TokenOk(s, n) && FamilyOk(s, n)
        && ListOk(s, n)
    && (n in s.repo.sessions ==> n < s.next)
  }

  ghost predicate Inv(s: State) {
    && (forall c :: c in s.identity.clients ==> s.identity.clients[c].clientId == c)
    && (forall n :: Ok(s, n))
    && forall j, k :: SameGrant(s, j, k)
  }

  /** A freshly started server. */
  predicate Initial(s: State) {
    && s.codes == map[] && s.tokens == map[] && s.families == map[] && s.sidFamilies == map[]
    && s.sso == map[] && s.sidIndex == map[] && s.repo == Repo(map[], [])
    && forall c :: c in s.identity.clients ==> s.identity.clients[c].clientId == c
  }

  // ---------- What cannot come back ----------

  /** Some active token of this family belongs to this session. */
  ghost predicate Lineage(s: State, familyId: nat, ssoSessionId: nat) {
    exists k :: ActiveToken(s, k) && s.tokens[k].value.familyId == familyId
                && s.tokens[k].value.grant.ssoSessionId == ssoSessionId
  }

  /** The same session, maybe seen at another time. */
  predicate SameSession(x: SsoSession, y: SsoSession) {
    x == y.(lastSeenAt := x.lastSeenAt)
  }

  /** Between two states of one run: names only get used up, a dead session stays dead, a sid that is
      not indexed stays so, a new session has a new sid, and an old family has active tokens later
      only if it had some before. */
  ghost predicate Evolves(s: State, t: State) {
    && s.now <= t.now && s.next <= t.next
    && (forall key: nat :: SessionAlive(t, key) ==>
          || (SessionAlive(s, key) && SameSession(t.sso[key].value, s.sso[key].value))
          || (key >= s.next && t.sso[key].value.sid >= s.next))
    && (forall sid: nat :: sid in t.sidIndex ==> sid in s.sidIndex || sid >= s.next)
    && (forall k :: ActiveToken(t, k) && t.tokens[k].value.familyId < s.next ==>
          Lineage(s, t.tokens[k].value.familyId, t.tokens[k].value.grant.ssoSessionId))
  }

  lemma EvolvesTransitive(s: State, t: State, u: State)
    requires Evolves(s, t) && Evolves(t, u)
    ensures Evolves(s, u)
  {
    forall k | ActiveToken(u, k) && u.tokens[k].value.familyId < s.next
      ensures Lineage(s, u.tokens[k].value.familyId, u.tokens[k].value.grant.ssoSessionId)
    {
      assert Lineage(t, u.tokens[k].value.familyId, u.tokens[k].value.grant.ssoSessionId);
      var j :| ActiveToken(t, j) && t.tokens[j].value.familyId == u.tokens[k].value.familyId
               && t.tokens[j].value.grant.ssoSessionId == u.tokens[k].value.grant.ssoSessionId;
    }
  }

  /** An inactive token stays remembered as inactive until its time is up. */
  ghost predicate TokenKept(s: State, t: State, k: nat) {
    k in s.tokens && !s.tokens[k].value.status.Active? && s.tokens[k].expiresAt > t.now ==>
      && k in t.tokens && !t.tokens[k].value.status.Active?
      && t.tokens[k].value.familyId == s.tokens[k].value.familyId
      && t.tokens[k].expiresAt >= s.tokens[k].expiresAt
  }

  /** An exchanged code stays tied to its family until its time is up, and a code that was taken
      out never returns. */
  ghost predicate CodeKept(s: State, t: State, c: nat) {
    && (c in s.codes && s.codes[c].value.Used? && s.codes[c].expiresAt > t.now ==>
          c in t.codes && t.codes[c].value == s.codes[c].value && t.codes[c].expiresAt >= s.codes[c].expiresAt)
    && (c in t.codes && c < s.next ==>
          c in s.codes && (s.codes[c].value.Used? ==> t.codes[c].value == s.codes[c].value))
  }

  /** Between two states of one run: what reuse detection needs is not forgotten early. */
  ghost predicate Remembers(s: State, t: State) {
    forall n :: TokenKept(s, t, n) && CodeKept(s, t, n)
  }

  lemma RemembersTransitive(s: State, t: State, u: State)
    requires s.now <= t.now <= u.now && s.next <= t.next && Remembers(s, t) && Remembers(t, u)
    ensures Remembers(s, u)
  {
    forall n ensures TokenKept(s, u, n) && CodeKept(s, u, n) {
      assert TokenKept(s, t, n) && CodeKept(s, t, n) && TokenKept(t, u, n) && CodeKept(t, u, n);
    }
  }

  ghost predicate Keeps(s: State, t: State) {
    Inv(t) && Evolves(s, t) && Remembers(s, t)
  }

  lemma KeepsTransitive(s: State, t: State, u: State)
    requires Keeps(s, t) && Keeps(t, u)
    ensures Keeps(s, u)
  {
    EvolvesTransitive(s, t, u);
    RemembersTransitive(s, t, u);
  }

  // ---------- The parts of the use cases ----------

  /** A step that leaves codes, tokens and the clock alone. */
  lemma SameTokensKeep(s: State, t: State)
    requires Inv(s) && (forall n :: Ok(t, n)) && t.tokens == s.tokens && t.codes == s.codes
    requires t.now == s.now && s.next <= t.next && t.identity.clients == s.identity.clients
    requires forall key: nat :: SessionAlive(t, key) ==>
               || (SessionAlive(s, key) && SameSession(t.sso[key].value, s.sso[key].value))
               || (key >= s.next && t.sso[key].value.sid >= s.next)
    requires forall sid: nat :: sid in t.sidIndex ==> sid in s.sidIndex || sid >= s.next
    ensures Keeps(s, t)
  {
    forall j, k ensures SameGrant(t, j, k) { assert SameGrant(s, j, k); }
    forall k | ActiveToken(t, k)
      ensures Lineage(s, t.tokens[k].value.familyId, t.tokens[k].value.grant.ssoSessionId)
    {
      assert ActiveToken(s, k);
    }
  }

  lemma TickKeeps(s: State, seconds: nat)
    requires Inv(s)
    ensures Keeps(s, s.(now := s.now + seconds))
  {
    var t := s.(now := s.now + seconds);
    forall k | ActiveToken(t, k)
      ensures ActiveToken(s, k) && Lineage(s, t.tokens[k].value.familyId, t.tokens[k].value.grant.ssoSessionId) {}
    forall n ensures Ok(t, n) { assert Ok(s, n); }
    forall j, k ensures SameGrant(t, j, k) { assert SameGrant(s, j, k); }
  }

  lemma EditKeeps(s: State, identity: Identity)
    requires Inv(s) && ClientsKept(s.identity, identity)
    ensures Keeps(s, s.(identity := identity))
  {
    var t := s.(identity := identity);
    forall n ensures Ok(t, n) { assert Ok(s, n); }
    forall j, k ensures SameGrant(t, j, k) { assert SameGrant(s, j, k); }
  }

  lemma DestroyKeeps(s: State, session: SsoSession)
    requires Inv(s) && session.id in s.sso && s.sso[session.id].value == session
    ensures Keeps(s, Destroy(s, session))
    ensures forall key :: key in Destroy(s, session).sso ==> s.sso[key].value.sid != session.sid
  {
    var t := Destroy(s, session);
    assert Ok(s, session.id);
    forall n ensures Ok(t, n) && (n in t.sso ==> t.sso[n].value.sid != session.sid) { assert Ok(s, n); }
    SameTokensKeep(s, t);
  }

  lemma LoadKeeps(s: State, key: nat)
    requires Inv(s)
    ensures var (t, session) := LoadSession(s, key);
            && Keeps(s, t)
            && t == s.(sso := t.sso, sidIndex := t.sidIndex)
            && (session.Some? <==> SessionAlive(s, key))
            && (session.Some? ==> t == s && session.value == s.sso[key].value && session.value.id == key)
            && (session.None? ==> !Live(t.sso, key, t.now))
            && forall k :: k in t.sso ==> k in s.sso && t.sso[k] == s.sso[k]
  {
    assert Ok(s, key);
    SelfKeeps(s);
    if Live(s.sso, key, s.now) && Expired(s.sso[key].value, s.now) {
      DestroyKeeps(s, s.sso[key].value);
    }
  }

  lemma SelfKeeps(s: State)
    requires Inv(s)
    ensures Keeps(s, s)
  {
    forall k | ActiveToken(s, k) ensures Lineage(s, s.tokens[k].value.familyId, s.tokens[k].value.grant.ssoSessionId) {}
  }

  lemma CreateSessionKeeps(s: State, userId: string, environment: Environment)
    requires Inv(s)
    ensures var (t, session) := CreateSession(s, userId, environment);
            Keeps(s, t) && SessionAlive(t, session.id) && t.sso[session.id].value == session
  {
    var (t, session) := CreateSession(s, userId, environment);
    CreatedOk(s, t, session, environment);
    SameTokensKeep(s, t);
  }

  lemma CreatedOk(s: State, t: State, session: SsoSession, environment: Environment)
    requires (forall n :: Ok(s, n)) && (t, session) == CreateSession(s, session.userId, environment)
    ensures forall n :: Ok(t, n)
  {
    forall sid, c, tenant | Visited(s.repo, sid, c, tenant) ensures Visited(t.repo, sid, c, tenant) {}
    forall n ensures Ok(t, n) { assert Ok(s, n); }
  }

  lemma TouchKeeps(s: State, session: SsoSession, client: OidcClient, tenantId: string, environment: Environment)
    requires Inv(s) && SessionAlive(s, session.id) && s.sso[session.id].value == session
    ensures var t := TouchSession(s, session, client, tenantId, environment);
            && Keeps(s, t)
            && SessionAlive(t, session.id)
            && t.sso[session.id] == s.sso[session.id].(value := session.(lastSeenAt := s.now))
            && Visited(t.repo, session.sid, client.id, tenantId)
  {
    var t := TouchSession(s, session, client, tenantId, environment);
    var touched := Touched(s.repo, session.sid, environment, s.now);
    assert Ok(s, session.id);
    RecordedVisits(touched, session.sid, client.id, tenantId, s.now);
    forall sid, c, tenant | Visited(s.repo, sid, c, tenant) ensures Visited(t.repo, sid, c, tenant) {
      assert Visited(touched, sid, c, tenant);
    }
    assert t.sso == s.sso[session.id := s.sso[session.id].(value := session.(lastSeenAt := s.now))];
    TouchedOk(s, t, session);
    SameTokensKeep(s, t);
  }

  lemma TouchedOk(s: State, t: State, session: SsoSession)
    requires (forall n :: Ok(s, n)) && SessionAlive(s, session.id) && s.sso[session.id].value == session
    requires t == s.(sso := s.sso[session.id := s.sso[session.id].(value := session.(lastSeenAt := s.now))],
                     repo := t.repo)
    requires t.repo.sessions.Keys == s.repo.sessions.Keys && session.sid in s.repo.sessions
    requires t.repo.sessions == s.repo.sessions[session.sid := t.repo.sessions[session.sid]]
    requires var before, after := s.repo.sessions[session.sid], t.repo.sessions[session.sid];
             after == before.(environment := after.environment, lastSeenAt := s.now)
    requires forall sid, c, tenant :: Visited(s.repo, sid, c, tenant) ==> Visited(t.repo, sid, c, tenant)
    ensures forall n :: Ok(t, n)
  {
    assert Ok(s, session.id);
    forall n ensures Ok(t, n) { assert Ok(s, n); }
  }

  /** Codes come and go without touching anything else. */
  lemma CodesKeep(s: State, codes: map<nat, Entry<Code>>, next: nat)
    requires Inv(s) && s.next <= next
    requires forall c :: c in codes ==> CodeOk(s.(codes := codes, next := next), c)
    ensures Inv(s.(codes := codes, next := next)) && Evolves(s, s.(codes := codes, next := next))
  {
    var t := s.(codes := codes, next := next);
    forall n ensures Ok(t, n) { assert Ok(s, n); }
    forall j, k ensures SameGrant(t, j, k) { assert SameGrant(s, j, k); }
    forall k | ActiveToken(t, k)
      ensures Lineage(s, t.tokens[k].value.familyId, t.tokens[k].value.grant.ssoSessionId)
    {
      assert ActiveToken(s, k);
    }
  }

  /** Tokens may be dropped or stop being active. */
  lemma TokensFadeKeeps(s: State, tokens: map<nat, Entry<RefreshToken>>)
    requires Inv(s)
    requires forall k :: k in tokens ==>
               && k in s.tokens && tokens[k].expiresAt <= s.now + REFRESH_TOKEN_TTL_SECONDS
               && tokens[k].value.(status := Active) == s.tokens[k].value.(status := Active)
               && (tokens[k] == s.tokens[k] || !tokens[k].value.status.Active?)
    requires forall k :: Live(s.tokens, k, s.now) ==> k in tokens && tokens[k].expiresAt >= s.tokens[k].expiresAt
    ensures Keeps(s, s.(tokens := tokens))
  {
    var t := s.(tokens := tokens);
    forall n ensures Ok(t, n) { assert Ok(s, n); }
    forall j, k ensures SameGrant(t, j, k) { assert SameGrant(s, j, k); }
    forall k | ActiveToken(t, k)
      ensures Lineage(s, t.tokens[k].value.familyId, t.tokens[k].value.grant.ssoSessionId)
    {
      assert ActiveToken(s, k);
    }
  }

  lemma RevokeKeysKeeps(s: State, keys: set<nat>)
    requires Inv(s)
    ensures Keeps(s, s.(tokens := RevokeKeys(s.tokens, keys, s.now)))
  {
    forall k | k in s.tokens ensures TokenOk(s, k) { assert Ok(s, k); }
    TokensFadeKeeps(s, RevokeKeys(s.tokens, keys, s.now));
  }

  lemma WriteBackKeeps(s: State, token: nat, record: RefreshToken)
    requires Inv(s) && token in s.tokens && !record.status.Active?
    requires record.(status := Active) == s.tokens[token].value.(status := Active)
    ensures Keeps(s, WriteBack(s, token, record))
  {
    forall k | k in s.tokens ensures TokenOk(s, k) { assert Ok(s, k); }
    TokensFadeKeeps(s, WriteBack(s, token, record).tokens);
  }

  /** Rotation: a consumed active token of a live session is replaced by a new one. */
  lemma RotateKeeps(s: State, token: nat)
    requires Inv(s) && ActiveToken(s, token)
    ensures var record := s.tokens[token].value;
            Keeps(s, StoreToken(WriteBack(s, token, record.(status := Rotated)), record.familyId, record.grant))
  {
    var record := s.tokens[token].value;
    var u := WriteBack(s, token, record.(status := Rotated));
    var t := StoreToken(u, record.familyId, record.grant);
    WriteBackKeeps(s, token, record.(status := Rotated));
    assert Ok(s, token) && Ok(s, record.familyId) && Lineage(s, record.familyId, record.grant.ssoSessionId);
    SuccessorOk(u, t, token);
    forall k | ActiveToken(t, k) ensures Lineage(s, t.tokens[k].value.familyId, t.tokens[k].value.grant.ssoSessionId) {
      assert k == u.next || ActiveToken(s, k);
    }
    forall n ensures TokenKept(s, t, n) && CodeKept(s, t, n) { assert Ok(s, n); }
  }

  /** A new active token beside a rotated one of the same grant. */
  lemma SuccessorOk(u: State, t: State, token: nat)
    requires Inv(u) && token in u.tokens
    requires var record := u.tokens[token].value;
             && record.familyId in u.families
             && (record.grant.ssoSessionId in u.sso ==> Listed(u, record))
             && t == StoreToken(u, record.familyId, record.grant)
    ensures Inv(t)
  {
    assert Ok(u, token);
    forall n ensures Ok(t, n) {
      assert Ok(u, n);
      forall ref | n in u.sidFamilies && ref in u.sidFamilies[n].value
        ensures RefOk(t, n, ref)
      {
        assert RefOk(u, n, ref);
      }
    }
    forall j, k
      ensures SameGrant(t, j, k)
    {
      assert SameGrant(u, j, k) && SameGrant(u, token, k) && SameGrant(u, j, token);
    }
  }

  lemma CreateFamilyKeeps(s: State, grant: Grant)
    requires Inv(s) && GrantOk(s, grant) && SessionAlive(s, grant.ssoSessionId)
    ensures Keeps(s, CreateFamily(s, grant))
  {
    var t := CreateFamily(s, grant);
    forall k | k in s.tokens ensures s.tokens[k].value.familyId < s.next { assert Ok(s, k); }
    NewFamilyOk(s, t, grant);
    forall j, k ensures SameGrant(t, j, k) { assert SameGrant(s, j, k); }
    NewFamilyRemembers(s, t, grant);
    forall k | ActiveToken(t, k) && t.tokens[k].value.familyId < s.next
      ensures Lineage(s, t.tokens[k].value.familyId, t.tokens[k].value.grant.ssoSessionId)
    {
      assert ActiveToken(s, k);
    }
  }

  lemma NewFamilyOk(s: State, t: State, grant: Grant)
    requires Inv(s) && GrantOk(s, grant) && SessionAlive(s, grant.ssoSessionId) && t == CreateFamily(s, grant)
    requires forall k :: k in s.tokens ==> s.tokens[k].value.familyId < s.next
    ensures forall n :: Ok(t, n)
  {
    forall n ensures Ok(t, n) {
      assert Ok(s, n);
      NewFamilyToken(s, t, grant, n);
      NewFamilyList(s, t, grant, n);
    }
  }

  lemma NewFamilyToken(s: State, t: State, grant: Grant, n: nat)
    requires GrantOk(s, grant) && SessionAlive(s, grant.ssoSessionId) && t == CreateFamily(s, grant)
    requires (forall n :: Ok(s, n)) && forall k :: k in s.tokens ==> s.tokens[k].value.familyId < s.next
    ensures TokenOk(t, n) && FamilyOk(t, n)
  {
    assert Ok(s, n) && Ok(s, grant.ssoSessionId);
    if n in s.tokens {
      assert Ok(s, s.tokens[n].value.grant.ssoSessionId);
    }
  }

  lemma NewFamilyList(s: State, t: State, grant: Grant, n: nat)
    requires GrantOk(s, grant) && t == CreateFamily(s, grant) && Ok(s, n)
    requires forall k :: k in s.tokens ==> s.tokens[k].value.familyId < s.next
    ensures ListOk(t, n)
  {
    forall ref | n in t.sidFamilies && ref in t.sidFamilies[n].value ensures RefOk(t, n, ref) {
      assert n in s.sidFamilies && ref in s.sidFamilies[n].value ==> RefOk(s, n, ref);
    }
  }

  lemma NewFamilyRemembers(s: State, t: State, grant: Grant)
    requires Inv(s) && t == CreateFamily(s, grant)
    ensures Remembers(s, t)
  {
    forall n ensures TokenKept(s, t, n) && CodeKept(s, t, n) { assert Ok(s, n); }
  }

  /** The list and the record of a sid whose session is gone may go too. */
  lemma ForgetSidKeeps(s: State, sid: nat)
    requires Inv(s) && forall key :: key in s.sso ==> s.sso[key].value.sid != sid
    ensures Keeps(s, s.(sidFamilies := s.sidFamilies - {sid}))
  {
    var t := s.(sidFamilies := s.sidFamilies - {sid});
    forall n ensures Ok(t, n) { assert Ok(s, n); }
    SameTokensKeep(s, t);
  }

  lemma MarkRevokedKeeps(s: State, sid: nat, reason: RevokeReason)
    requires Inv(s) && forall key :: Live(s.sso, key, s.now) ==> s.sso[key].value.sid != sid
    ensures Keeps(s, s.(repo := MarkedRevoked(s.repo, sid, reason, s.now)))
  {
    var t := s.(repo := MarkedRevoked(s.repo, sid, reason, s.now));
    forall id, c, tenant | Visited(s.repo, id, c, tenant) ensures Visited(t.repo, id, c, tenant) {}
    forall n ensures Ok(t, n) { assert Ok(s, n); }
    SameTokensKeep(s, t);
  }
}
