/** A request that runs alone, store call after store call, does to codes, tokens and families
    what its use case in AuthSpec does in one step. */
module TokenRaceAlone {
  import opened Timed
  import AuthSpec
  import opened TokenRace
  import opened TokenRaceTheorems

  function TokensOf(tokens: map<nat, Entry<AuthSpec.RefreshToken>>): map<nat, Entry<Record>> {
    map k | k in tokens :: Entry(Record(tokens[k].value.familyId, tokens[k].value.status), tokens[k].expiresAt)
  }

  function CodeRecordOf(code: AuthSpec.Code): CodeRecord {
    if code.Used? then UsedCode(code.familyId) else FreshCode
  }

  function CodesOf(codes: map<nat, Entry<AuthSpec.Code>>): map<nat, Entry<CodeRecord>> {
    map c | c in codes :: Entry(CodeRecordOf(codes[c].value), codes[c].expiresAt)
  }

  /** The world's stores are those of the state. */
  ghost predicate Shows(w: World, s: AuthSpec.State) {
    w.now == s.now && w.next == s.next && w.codes == CodesOf(s.codes) && w.tokens == TokensOf(s.tokens)
        && w.families == s.families
  }

  /** From here the request can finish alone, and then the stores are those of the state. */
  ghost predicate Finishes(w: World, t: nat, s: AuthSpec.State) {
    exists v :: Leads(w, v) && t in v.threads && v.threads[t] == Finished && Shows(v, s)
  }

  lemma StepThen(w: World, t: nat, accept: bool, pick: nat, v: World, s: AuthSpec.State)
    requires t in w.threads && Advance(w, t, accept, pick) == v && Finishes(v, t, s)
    ensures Finishes(w, t, s)
  {
    var u :| Leads(v, u) && t in u.threads && u.threads[t] == Finished && Shows(u, s);
    var steps :| TokenRace.Run(v, steps) == u;
    assert ([Go(t, accept, pick)] + steps)[1..] == steps;
    assert TokenRace.Run(w, [Go(t, accept, pick)] + steps) == u;
  }

  lemma RefreshThen(w: World, t: nat, accept: bool, v: World, s: AuthSpec.State)
    requires t in w.threads && Refreshing(w.threads[t]) && AdvanceRefresh(w, t, accept) == v && Finishes(v, t, s)
    ensures Finishes(w, t, s)
  {
    StepThen(w, t, accept, 0, v, s);
  }

  lemma ExchangeThen(w: World, t: nat, accept: bool, v: World, s: AuthSpec.State)
    requires t in w.threads && Exchanging(w.threads[t]) && AdvanceExchange(w, t, accept) == v && Finishes(v, t, s)
    ensures Finishes(w, t, s)
  {
    StepThen(w, t, accept, 0, v, s);
  }

  lemma RevokeThen(w: World, t: nat, accept: bool, pick: nat, v: World, s: AuthSpec.State)
    requires t in w.threads && !Exchanging(w.threads[t]) && !Refreshing(w.threads[t])
    requires AdvanceRevoke(w, t, accept, pick) == v && Finishes(v, t, s)
    ensures Finishes(w, t, s)
  {
    StepThen(w, t, accept, pick, v, s);
  }

  lemma DoneAlready(w: World, t: nat, s: AuthSpec.State)
    requires t in w.threads && w.threads[t] == Finished && Shows(w, s)
    ensures Finishes(w, t, s)
  {
    LeadsNowhere(w);
  }

  lemma TokensOfWrite(tokens: map<nat, Entry<AuthSpec.RefreshToken>>, k: nat, record: AuthSpec.RefreshToken,
                      expiresAt: int)
    ensures TokensOf(tokens[k := Entry(record, expiresAt)])
         == TokensOf(tokens)[k := Entry(Record(record.familyId, record.status), expiresAt)]
  {
  }

  lemma CodesOfWrite(codes: map<nat, Entry<AuthSpec.Code>>, c: nat, code: AuthSpec.Code, expiresAt: int)
    ensures CodesOf(codes[c := Entry(code, expiresAt)]) == CodesOf(codes)[c := Entry(CodeRecordOf(code), expiresAt)]
  {
  }

  // ---------- Refresh ----------

  /** Storing a successor and adding it to the family. */
  lemma RotateAlone(w: World, t: nat, u: AuthSpec.State, familyId: nat, grant: AuthSpec.Grant)
    requires t in w.threads && w.threads[t] == Check(familyId) && Shows(w, u)
    ensures Finishes(w, t, AuthSpec.StoreToken(u, familyId, grant))
  {
    var w1 := At(w, t, StoreNext(familyId));
    StoreAlone(w1, t, u, familyId, grant);
    RefreshThen(w, t, true, w1, AuthSpec.StoreToken(u, familyId, grant));
  }

  lemma StoreAlone(w: World, t: nat, u: AuthSpec.State, familyId: nat, grant: AuthSpec.Grant)
    requires t in w.threads && w.threads[t] == StoreNext(familyId) && Shows(w, u)
    ensures Finishes(w, t, AuthSpec.StoreToken(u, familyId, grant))
  {
    var s := AuthSpec.StoreToken(u, familyId, grant);
    TokensOfWrite(u.tokens, u.next, AuthSpec.RefreshToken(familyId, grant, AuthSpec.Active),
                  u.now + AuthSpec.REFRESH_TOKEN_TTL_SECONDS);
    var w2 := AdvanceRefresh(w, t, true);
    AddAlone(w2, t, s, familyId, u.next, u.families);
    RefreshThen(w, t, true, w2, s);
  }

  lemma AddAlone(w: World, t: nat, s: AuthSpec.State, familyId: nat, token: nat, families: map<nat, Entry<set<nat>>>)
    requires t in w.threads && w.threads[t] == AddNext(familyId, token) && w.families == families
    requires w.now == s.now && w.next == s.next && w.codes == CodesOf(s.codes) && w.tokens == TokensOf(s.tokens)
    requires s.families == AddMember(families, familyId, token, s.now, AuthSpec.REFRESH_TOKEN_TTL_SECONDS)
    ensures Finishes(w, t, s)
  {
    var w3 := At(w.(families := s.families), t, Finished);
    DoneAlready(w3, t, s);
    RefreshThen(w, t, true, w3, s);
  }

  /** A refresh, however it ends. */
  lemma RefreshAlone(w: World, t: nat, s: AuthSpec.State, client: AuthSpec.OidcClient, token: nat)
    requires t in w.threads && w.threads[t] == TakeToken(token) && Shows(w, s)
    ensures Finishes(w, t, AuthSpec.Refresh(s, client, token).0)
  {
    if !Live(s.tokens, token, s.now) {
      UnknownAlone(w, t, s, token);
    } else if !s.tokens[token].value.status.Active? {
      ReusedAlone(w, t, s, token);
    } else {
      var stored := s.tokens[token].value;
      var written := AuthSpec.WriteBack(s, token, stored.(status := AuthSpec.Rotated));
      var (goal, reply) := AuthSpec.Refresh(s, client, token);
      if reply.Granted? {
        assert goal == AuthSpec.StoreToken(written, stored.familyId, stored.grant);
        ConsumeAlone(w, t, s, token, written, goal, true);
      } else {
        RefusedGoal(s, client, token, written);
        ConsumeAlone(w, t, s, token, written, goal, false);
      }
    }
  }

  lemma UnknownAlone(w: World, t: nat, s: AuthSpec.State, token: nat)
    requires t in w.threads && w.threads[t] == TakeToken(token) && Shows(w, s) && !Live(s.tokens, token, s.now)
    ensures Finishes(w, t, s.(tokens := s.tokens - {token}))
  {
    var v := AdvanceRefresh(w, t, true);
    assert v.tokens == TokensOf(s.tokens - {token});
    DoneAlready(v, t, s.(tokens := s.tokens - {token}));
    RefreshThen(w, t, true, v, s.(tokens := s.tokens - {token}));
  }

  /** A token that is not active: written back unchanged, and the family revoked. */
  lemma ReusedAlone(w: World, t: nat, s: AuthSpec.State, token: nat)
    requires t in w.threads && w.threads[t] == TakeToken(token) && Shows(w, s)
    requires Live(s.tokens, token, s.now) && !s.tokens[token].value.status.Active?
    ensures var stored := s.tokens[token].value;
            Finishes(w, t, AuthSpec.RevokeFamily(AuthSpec.WriteBack(s, token, stored), stored.familyId))
  {
    var stored := s.tokens[token].value;
    var goal := AuthSpec.RevokeFamily(AuthSpec.WriteBack(s, token, stored), stored.familyId);
    var w1 := AdvanceRefresh(w, t, true);
    assert w1.threads[t] == WriteUnchanged(token, Record(stored.familyId, stored.status));
    assert w1.tokens == TokensOf(s.tokens) - {token};
    WriteUnchangedAlone(w1, t, s, token);
    RefreshThen(w, t, true, w1, goal);
  }

  lemma WriteUnchangedAlone(w: World, t: nat, s: AuthSpec.State, token: nat)
    requires token in s.tokens && t in w.threads
    requires var stored := s.tokens[token].value;
             w.threads[t] == WriteUnchanged(token, Record(stored.familyId, stored.status))
    requires w.now == s.now && w.next == s.next && w.codes == CodesOf(s.codes) && w.families == s.families
    requires w.tokens == TokensOf(s.tokens) - {token}
    ensures var stored := s.tokens[token].value;
            Finishes(w, t, AuthSpec.RevokeFamily(AuthSpec.WriteBack(s, token, stored), stored.familyId))
  {
    var stored := s.tokens[token].value;
    var written := AuthSpec.WriteBack(s, token, stored);
    TokensOfWrite(s.tokens, token, stored, s.now + AuthSpec.REFRESH_TOKEN_TTL_SECONDS);
    var w2 := AdvanceRefresh(w, t, true);
    RevokeAlone(w2, t, written, stored.familyId, None);
    RefreshThen(w, t, true, w2, AuthSpec.RevokeFamily(written, stored.familyId));
  }

  /** Same codes, tokens, families, clock and supply of names. */
  predicate SameStores(a: AuthSpec.State, b: AuthSpec.State) {
    a.now == b.now && a.next == b.next && a.codes == b.codes && a.tokens == b.tokens && a.families == b.families
  }

  /** A refused refresh of an active token revokes the family, after the session may have been dropped. */
  lemma RefusedGoal(s: AuthSpec.State, client: AuthSpec.OidcClient, token: nat, written: AuthSpec.State)
    requires Live(s.tokens, token, s.now) && s.tokens[token].value.status.Active?
    requires written == AuthSpec.WriteBack(s, token, s.tokens[token].value.(status := AuthSpec.Rotated))
    requires !AuthSpec.Refresh(s, client, token).1.Granted?
    ensures SameStores(AuthSpec.Refresh(s, client, token).0,
                       AuthSpec.RevokeFamily(written, s.tokens[token].value.familyId))
  {
    var stored := s.tokens[token].value;
    var checked := AuthSpec.RefreshContext(written, client, stored.grant).0;
    ContextStores(written, client, stored.grant);
    RevokedStores(checked, written, stored.familyId);
  }

  lemma ContextStores(s: AuthSpec.State, client: AuthSpec.OidcClient, grant: AuthSpec.Grant)
    ensures SameStores(AuthSpec.RefreshContext(s, client, grant).0, s)
  {
  }

  lemma RevokedStores(a: AuthSpec.State, b: AuthSpec.State, familyId: nat)
    requires SameStores(a, b)
    ensures SameStores(AuthSpec.RevokeFamily(a, familyId), AuthSpec.RevokeFamily(b, familyId))
  {
  }

  /** What follows once the consumed token is written back. */
  predicate Follows(s: AuthSpec.State, written: AuthSpec.State, token: nat, goal: AuthSpec.State, granted: bool)
    requires token in s.tokens
  {
    var stored := s.tokens[token].value;
    SameStores(goal, if granted then AuthSpec.StoreToken(written, stored.familyId, stored.grant)
                     else AuthSpec.RevokeFamily(written, stored.familyId))
  }

  lemma ConsumeAlone(w: World, t: nat, s: AuthSpec.State, token: nat, written: AuthSpec.State, goal: AuthSpec.State,
                     granted: bool)
    requires t in w.threads && w.threads[t] == TakeToken(token) && Shows(w, s)
    requires Live(s.tokens, token, s.now) && s.tokens[token].value.status.Active?
    requires written == AuthSpec.WriteBack(s, token, s.tokens[token].value.(status := AuthSpec.Rotated))
    requires Follows(s, written, token, goal, granted)
    ensures Finishes(w, t, goal)
  {
    var w1 := AdvanceRefresh(w, t, true);
    assert w1.threads[t] == WriteRotated(token, s.tokens[token].value.familyId);
    WriteBackAlone(w1, t, s, token, written, goal, granted);
    RefreshThen(w, t, true, w1, goal);
  }

  lemma WriteBackAlone(w: World, t: nat, s: AuthSpec.State, token: nat, written: AuthSpec.State, goal: AuthSpec.State,
                       granted: bool)
    requires token in s.tokens && t in w.threads && w.threads[t] == WriteRotated(token, s.tokens[token].value.familyId)
    requires w.now == s.now && w.next == s.next && w.codes == CodesOf(s.codes) && w.families == s.families
    requires w.tokens == TokensOf(s.tokens) - {token}
    requires written == AuthSpec.WriteBack(s, token, s.tokens[token].value.(status := AuthSpec.Rotated))
    requires Follows(s, written, token, goal, granted)
    ensures Finishes(w, t, goal)
  {
    var stored := s.tokens[token].value;
    TokensOfWrite(s.tokens, token, stored.(status := AuthSpec.Rotated), s.now + AuthSpec.REFRESH_TOKEN_TTL_SECONDS);
    var w2 := AdvanceRefresh(w, t, true);
    CheckAlone(w2, t, s, token, written, goal, granted);
    RefreshThen(w, t, true, w2, goal);
  }

  lemma CheckAlone(w: World, t: nat, s: AuthSpec.State, token: nat, written: AuthSpec.State, goal: AuthSpec.State,
                   granted: bool)
    requires token in s.tokens && t in w.threads && w.threads[t] == Check(s.tokens[token].value.familyId)
    requires Shows(w, written) && Follows(s, written, token, goal, granted)
    ensures Finishes(w, t, goal)
  {
    var stored := s.tokens[token].value;
    if granted {
      RotateAlone(w, t, written, stored.familyId, stored.grant);
      SameFinish(w, t, AuthSpec.StoreToken(written, stored.familyId, stored.grant), goal);
    } else {
      RefuseAlone(w, t, written, stored.familyId);
      SameFinish(w, t, AuthSpec.RevokeFamily(written, stored.familyId), goal);
    }
  }

  lemma SameFinish(w: World, t: nat, s: AuthSpec.State, goal: AuthSpec.State)
    requires Finishes(w, t, s) && SameStores(goal, s)
    ensures Finishes(w, t, goal)
  {
    var v :| Leads(w, v) && t in v.threads && v.threads[t] == Finished && Shows(v, s);
    assert Shows(v, goal);
  }

  /** A check that fails. */
  lemma RefuseAlone(w: World, t: nat, written: AuthSpec.State, familyId: nat)
    requires t in w.threads && w.threads[t] == Check(familyId) && Shows(w, written)
    ensures Finishes(w, t, AuthSpec.RevokeFamily(written, familyId))
  {
    var v := AdvanceRefresh(w, t, false);
    RevokeAlone(v, t, written, familyId, None);
    RefreshThen(w, t, false, v, AuthSpec.RevokeFamily(written, familyId));
  }

  // ---------- Exchange ----------

  /** An exchange, however it ends. */
  lemma ExchangeAlone(w: World, t: nat, s: AuthSpec.State, client: AuthSpec.OidcClient, code: nat, redirectUri: string,
                      verifier: string)
    requires t in w.threads && w.threads[t] == TakeCode(code) && Shows(w, s)
    ensures Finishes(w, t, AuthSpec.Exchange(s, client, code, redirectUri, verifier).0)
  {
    var (goal, reply) := AuthSpec.Exchange(s, client, code, redirectUri, verifier);
    if Live(s.codes, code, s.now) && s.codes[code].value.Used? {
      UsedCodeAlone(w, t, s, code);
    } else if reply.Granted? {
      RedeemedGoal(s, client, code, redirectUri, verifier);
      RedeemAlone(w, t, s, goal, code, s.codes[code].value.grant);
    } else {
      RejectedGoal(s, client, code, redirectUri, verifier);
      RejectAlone(w, t, s, code, goal);
    }
  }

  lemma RedeemedGoal(s: AuthSpec.State, client: AuthSpec.OidcClient, code: nat, redirectUri: string, verifier: string)
    requires AuthSpec.Exchange(s, client, code, redirectUri, verifier).1.Granted?
    ensures Live(s.codes, code, s.now) && s.codes[code].value.Unused?
    ensures Redeemed(s, AuthSpec.Exchange(s, client, code, redirectUri, verifier).0, code, s.codes[code].value.grant)
  {
  }

  lemma RejectedGoal(s: AuthSpec.State, client: AuthSpec.OidcClient, code: nat, redirectUri: string, verifier: string)
    requires !AuthSpec.Exchange(s, client, code, redirectUri, verifier).1.Granted?
    requires Live(s.codes, code, s.now) ==> s.codes[code].value.Unused?
    ensures SameStores(AuthSpec.Exchange(s, client, code, redirectUri, verifier).0, s.(codes := s.codes - {code}))
  {
  }

  /** An unknown code, or one that fails a check: only the code goes. */
  lemma RejectAlone(w: World, t: nat, s: AuthSpec.State, code: nat, goal: AuthSpec.State)
    requires t in w.threads && w.threads[t] == TakeCode(code) && Shows(w, s)
    requires Live(s.codes, code, s.now) ==> s.codes[code].value.Unused?
    requires SameStores(goal, s.(codes := s.codes - {code}))
    ensures Finishes(w, t, goal)
  {
    var v := AdvanceExchange(w, t, false);
    assert CodesOf(s.codes - {code}) == CodesOf(s.codes) - {code};
    assert v.threads[t] == Finished;
    DoneAlready(v, t, goal);
    ExchangeThen(w, t, false, v, goal);
  }

  /** A code exchanged before: its family is revoked, and it is remembered again. */
  lemma UsedCodeAlone(w: World, t: nat, s: AuthSpec.State, code: nat)
    requires t in w.threads && w.threads[t] == TakeCode(code) && Shows(w, s)
    requires Live(s.codes, code, s.now) && s.codes[code].value.Used?
    ensures Finishes(w, t, Revoked(s.(codes := s.codes - {code}), s.codes[code].value.familyId, Some(code)))
  {
    var familyId := s.codes[code].value.familyId;
    var taken := s.(codes := s.codes - {code});
    var v := AdvanceExchange(w, t, true);
    assert CodesOf(s.codes - {code}) == CodesOf(s.codes) - {code};
    assert v.threads[t] == ListKeys(familyId, Some(code));
    RevokeAlone(v, t, taken, familyId, Some(code));
    ExchangeThen(w, t, true, v, Revoked(taken, familyId, Some(code)));
  }

  ghost predicate Redeemed(s: AuthSpec.State, r: AuthSpec.State, code: nat, grant: AuthSpec.Grant) {
    && r.now == s.now && r.next == s.next + 2
    && r.tokens == Put(s.tokens, s.next + 1, AuthSpec.RefreshToken(s.next, grant, AuthSpec.Active), s.now,
                       AuthSpec.REFRESH_TOKEN_TTL_SECONDS)
    && r.families == AddMember(s.families, s.next, s.next + 1, s.now, AuthSpec.REFRESH_TOKEN_TTL_SECONDS)
    && r.codes == Put(s.codes - {code}, code, AuthSpec.Used(s.next), s.now, AuthSpec.CONSUMED_CODE_RETENTION_SECONDS)
  }

  lemma RedeemAlone(w: World, t: nat, s: AuthSpec.State, r: AuthSpec.State, code: nat, grant: AuthSpec.Grant)
    requires t in w.threads && w.threads[t] == TakeCode(code) && Shows(w, s) && Redeemed(s, r, code, grant)
    requires Live(s.codes, code, s.now) && s.codes[code].value.Unused?
    ensures Finishes(w, t, r)
  {
    var w1 := At(w.(codes := w.codes - {code}, next := w.next + 1, minted := w.minted + [(code, w.next)]), t,
                 StoreFirst(code, s.next));
    assert Get(w.codes, code, w.now) == Some(FreshCode);
    MintAlone(w1, t, s, r, code, grant);
    ExchangeThen(w, t, true, w1, r);
  }

  lemma MintAlone(w: World, t: nat, s: AuthSpec.State, r: AuthSpec.State, code: nat, grant: AuthSpec.Grant)
    requires t in w.threads && w.threads[t] == StoreFirst(code, s.next) && Redeemed(s, r, code, grant)
    requires w.now == s.now && w.next == s.next + 1 && w.tokens == TokensOf(s.tokens) && w.families == s.families
    requires w.codes == CodesOf(s.codes) - {code}
    ensures Finishes(w, t, r)
  {
    TokensOfWrite(s.tokens, s.next + 1, AuthSpec.RefreshToken(s.next, grant, AuthSpec.Active),
                  s.now + AuthSpec.REFRESH_TOKEN_TTL_SECONDS);
    var w2 := AdvanceExchange(w, t, true);
    EnlistAlone(w2, t, s, r, code, grant);
    ExchangeThen(w, t, true, w2, r);
  }

  lemma EnlistAlone(w: World, t: nat, s: AuthSpec.State, r: AuthSpec.State, code: nat, grant: AuthSpec.Grant)
    requires t in w.threads && w.threads[t] == AddFirst(code, s.next, s.next + 1) && Redeemed(s, r, code, grant)
    requires w.now == s.now && w.next == r.next && w.tokens == TokensOf(r.tokens) && w.families == s.families
    requires w.codes == CodesOf(s.codes) - {code}
    ensures Finishes(w, t, r)
  {
    var w3 := AdvanceExchange(w, t, true);
    RememberAlone(w3, t, s, r, code, grant);
    ExchangeThen(w, t, true, w3, r);
  }

  lemma RememberAlone(w: World, t: nat, s: AuthSpec.State, r: AuthSpec.State, code: nat, grant: AuthSpec.Grant)
    requires t in w.threads && w.threads[t] == WriteUsed(code, s.next) && Redeemed(s, r, code, grant)
    requires w.now == r.now && w.next == r.next && w.tokens == TokensOf(r.tokens) && w.families == r.families
    requires w.codes == CodesOf(s.codes) - {code}
    ensures Finishes(w, t, r)
  {
    CodesOfWrite(s.codes - {code}, code, AuthSpec.Used(s.next), s.now + AuthSpec.CONSUMED_CODE_RETENTION_SECONDS);
    assert CodesOf(s.codes - {code}) == CodesOf(s.codes) - {code};
    var w4 := AdvanceExchange(w, t, true);
    DoneAlready(w4, t, r);
    ExchangeThen(w, t, true, w4, r);
  }

  // ---------- Revocation ----------

  /** A family revoked, and a reused code remembered again. */
  function Revoked(s: AuthSpec.State, familyId: nat, reused: Option<nat>): AuthSpec.State {
    var revoked := AuthSpec.RevokeFamily(s, familyId);
    if reused.None? then revoked else AuthSpec.RememberCode(revoked, reused.value, familyId)
  }

  /** The revocation endpoint, however it ends. */
  lemma RevokeTokenAlone(w: World, t: nat, s: AuthSpec.State, client: AuthSpec.OidcClient, token: nat)
    requires t in w.threads && w.threads[t] == LookUp(token) && Shows(w, s)
    ensures Finishes(w, t, AuthSpec.RevokeToken(s, client, token).0)
  {
    var goal := AuthSpec.RevokeToken(s, client, token).0;
    var own := Live(s.tokens, token, s.now) && s.tokens[token].value.grant.clientId == client.clientId;
    var v := AdvanceRevoke(w, t, own, 0);
    if own {
      assert v.threads[t] == ListKeys(s.tokens[token].value.familyId, None);
      RevokeAlone(v, t, s, s.tokens[token].value.familyId, None);
    } else {
      assert v.threads[t] == Finished;
      DoneAlready(v, t, s);
    }
    RevokeThen(w, t, own, 0, v, goal);
  }

  /** A revocation alone revokes what the use case revokes. */
  lemma RevokeAlone(w: World, t: nat, s: AuthSpec.State, familyId: nat, reused: Option<nat>)
    requires t in w.threads && w.threads[t] == ListKeys(familyId, reused) && Shows(w, s)
    ensures Finishes(w, t, Revoked(s, familyId, reused))
  {
    var keys := Members(s.families, familyId, s.now);
    assert keys - keys == {};
    NothingFound(s);
    var w1 := At(w, t, ReadKeys(familyId, keys, map[], reused));
    ReadAlone(w1, t, s, familyId, keys, keys, reused);
    RevokeThen(w, t, true, 0, w1, Revoked(s, familyId, reused));
  }

  /** What has been read of these keys. */
  function Found(s: AuthSpec.State, keys: set<nat>): map<nat, Record> {
    map k | k in keys && Live(s.tokens, k, s.now) :: Record(s.tokens[k].value.familyId, s.tokens[k].value.status)
  }

  lemma NothingFound(s: AuthSpec.State)
    ensures Found(s, {}) == map[]
  {
  }

  lemma FoundOneMore(s: AuthSpec.State, keys: set<nat>, k: nat)
    ensures Found(s, keys + {k}) == match Get(TokensOf(s.tokens), k, s.now)
                                    case None => Found(s, keys)
                                    case Some(record) => Found(s, keys)[k := record]
  {
  }

  lemma {:induction false} ReadAlone(w: World, t: nat, s: AuthSpec.State, familyId: nat, keys: set<nat>, todo: set<nat>,
                                     reused: Option<nat>)
    requires keys == Members(s.families, familyId, s.now) && todo <= keys && Shows(w, s)
    requires t in w.threads && w.threads[t] == ReadKeys(familyId, todo, Found(s, keys - todo), reused)
    ensures Finishes(w, t, Revoked(s, familyId, reused))
    decreases todo
  {
    if todo == {} {
      assert keys - todo == keys;
      ReadAll(w, t, s, familyId, keys, reused);
    } else {
      var k :| k in todo;
      var rest := todo - {k};
      assert keys - rest == keys - todo + {k};
      FoundOneMore(s, keys - todo, k);
      var w1 := At(w, t, ReadKeys(familyId, rest, Found(s, keys - rest), reused));
      ReadAlone(w1, t, s, familyId, keys, rest, reused);
      RevokeThen(w, t, true, k, w1, Revoked(s, familyId, reused));
    }
  }

  lemma ReadAll(w: World, t: nat, s: AuthSpec.State, familyId: nat, keys: set<nat>, reused: Option<nat>)
    requires keys == Members(s.families, familyId, s.now) && Shows(w, s)
    requires t in w.threads && w.threads[t] == ReadKeys(familyId, {}, Found(s, keys), reused)
    ensures Finishes(w, t, Revoked(s, familyId, reused))
  {
    var found := Found(s, keys);
    NothingLeft(s, keys);
    var w1 := At(w, t, WriteKeys(familyId, found.Keys, found, reused));
    WriteAlone(w1, t, s, familyId, keys, found.Keys, reused);
    RevokeThen(w, t, true, 0, w1, Revoked(s, familyId, reused));
  }

  /** Keys that were not found have nothing to revoke. */
  lemma NothingLeft(s: AuthSpec.State, keys: set<nat>)
    ensures AuthSpec.RevokeKeys(s.tokens, keys - Found(s, keys).Keys, s.now) == s.tokens
  {
  }

  lemma RevokedOneMore(s: AuthSpec.State, keys: set<nat>, k: nat)
    requires Live(s.tokens, k, s.now)
    ensures TokensOf(AuthSpec.RevokeKeys(s.tokens, keys + {k}, s.now))
         == TokensOf(AuthSpec.RevokeKeys(s.tokens, keys, s.now))
              [k := Entry(Record(s.tokens[k].value.familyId, AuthSpec.Revoked),
                          s.now + AuthSpec.REFRESH_TOKEN_TTL_SECONDS)]
  {
  }

  lemma {:induction false} WriteAlone(w: World, t: nat, s: AuthSpec.State, familyId: nat, keys: set<nat>,
                                      todo: set<nat>,
                                     reused: Option<nat>)
    requires keys == Members(s.families, familyId, s.now) && todo <= Found(s, keys).Keys
    requires Shows(w, s.(tokens := AuthSpec.RevokeKeys(s.tokens, keys - todo, s.now)))
    requires t in w.threads && w.threads[t] == WriteKeys(familyId, todo, Found(s, keys), reused)
    ensures Finishes(w, t, Revoked(s, familyId, reused))
    decreases todo
  {
    if todo == {} {
      assert keys - todo == keys;
      Written(w, t, s, familyId, reused);
    } else {
      var k :| k in todo;
      var rest := todo - {k};
      assert keys - rest == keys - todo + {k};
      RevokedOneMore(s, keys - todo, k);
      var w1 := AdvanceRevoke(w, t, true, k);
      WriteAlone(w1, t, s, familyId, keys, rest, reused);
      RevokeThen(w, t, true, k, w1, Revoked(s, familyId, reused));
    }
  }

  /** All keys are written; a reused code is remembered again. */
  lemma Written(w: World, t: nat, s: AuthSpec.State, familyId: nat, reused: Option<nat>)
    requires Shows(w, AuthSpec.RevokeFamily(s, familyId))
    requires t in w.threads && w.threads[t].WriteKeys? && w.threads[t].familyId == familyId
    requires w.threads[t].todo == {} && w.threads[t].reused == reused
    ensures Finishes(w, t, Revoked(s, familyId, reused))
  {
    var revoked := AuthSpec.RevokeFamily(s, familyId);
    if reused.None? {
      var v := At(w, t, Finished);
      DoneAlready(v, t, revoked);
      RevokeThen(w, t, true, 0, v, revoked);
    } else {
      var v := At(w, t, WriteUsed(reused.value, familyId));
      RememberedAgain(v, t, revoked, familyId, reused.value);
      RevokeThen(w, t, true, 0, v, AuthSpec.RememberCode(revoked, reused.value, familyId));
    }
  }

  lemma RememberedAgain(w: World, t: nat, s: AuthSpec.State, familyId: nat, code: nat)
    requires Shows(w, s) && t in w.threads && w.threads[t] == WriteUsed(code, familyId)
    ensures Finishes(w, t, AuthSpec.RememberCode(s, code, familyId))
  {
    var goal := AuthSpec.RememberCode(s, code, familyId);
    CodesOfWrite(s.codes, code, AuthSpec.Used(familyId), s.now + AuthSpec.CONSUMED_CODE_RETENTION_SECONDS);
    var v := AdvanceExchange(w, t, true);
    DoneAlready(v, t, goal);
    ExchangeThen(w, t, true, v, goal);
  }
}
