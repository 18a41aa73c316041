/** A service's own browser sessions, as packages/oidc-client/src/session.ts keeps them: one entry
    per session under its tenant, and for each sid the set of its sessions' keys in every tenant. */
module TenantSession {
  import opened Timed
  import opened SessionExpiry
  import KvStore

  const SESSION_IDLE_SECONDS := 30 * 60
  const SESSION_ABSOLUTE_SECONDS := 12 * 60 * 60
  const POLICY := Policy(SESSION_IDLE_SECONDS, SESSION_ABSOLUTE_SECONDS)

  datatype Tokens = Tokens(access: string, accessExpiresAt: int, refresh: string)

  datatype Session = Session(
    id: string, tenantSlug: string, userId: string, tenantId: string, sid: string,
    tokens: Tokens, createdAt: int, lastSeenAt: int)

  /** `created` records every session ever made, under its key; only the choice of new ids,
      which never repeat, depends on it. */
  datatype State = State(
    now: int,
    sessions: map<string, Entry<Session>>,
    sessionsBySid: map<string, Entry<set<string>>>,
    created: map<string, Session>)

  function SessionKey(tenantSlug: string, id: string): string {
    tenantSlug + ":" + id
  }

  function SidKey(sid: string): string {
    "sid:" + sid
  }

  function KeyOf(x: Session): string {
    SessionKey(x.tenantSlug, x.id)
  }

  /** Tenants whose slugs have no colon never share a key. */
  lemma KeysDiffer(slug: string, id: string, slug': string, id': string)
    requires ':' !in slug && ':' !in slug'
    ensures SessionKey(slug, id) == SessionKey(slug', id') <==> slug == slug' && id == id'
  {
    var k, k' := SessionKey(slug, id), SessionKey(slug', id');
    assert forall i :: 0 <= i < |slug| ==> k[i] == slug[i];
    assert forall i :: 0 <= i < |slug'| ==> k'[i] == slug'[i];
    assert k[|slug|] == ':' && k'[|slug'|] == ':';
    if k == k' {
      assert |slug| == |slug'|;
      assert slug == k[..|slug|] == slug' && id == k[|slug| + 1..] == id';
    }
  }

  lemma SidKeysDiffer(sid: string, sid': string)
    ensures SidKey(sid) == SidKey(sid') <==> sid == sid'
  {
    assert SidKey(sid)[4..] == sid && SidKey(sid')[4..] == sid';
  }

  // ---------- What each operation does ----------

  predicate Expired(x: Session, now: int) {
    IsExpired(POLICY, x.createdAt, x.lastSeenAt, now)
  }

  function Destroy(s: State, x: Session): State {
    s.(sessions := s.sessions - {KeyOf(x)},
       sessionsBySid := RemoveMember(s.sessionsBySid, SidKey(x.sid), KeyOf(x), s.now))
  }

  /** An absent cookie reads as the empty one. */
  function Load(s: State, slug: string, cookie: string): (State, Option<Session>) {
    if cookie == "" then (s, None)
    else
      match Get(s.sessions, SessionKey(slug, cookie), s.now)
      case None => (s, None)
      case Some(x) => if Expired(x, s.now) then (Destroy(s, x), None) else (s, Some(x))
  }

  function Create(s: State, x: Session): State {
    s.(sessions := Put(s.sessions, KeyOf(x), x, s.now, SESSION_ABSOLUTE_SECONDS),
       sessionsBySid := AddMember(s.sessionsBySid, SidKey(x.sid), KeyOf(x), s.now, SESSION_ABSOLUTE_SECONDS),
       created := s.created[KeyOf(x) := x])
  }

  function Save(s: State, x: Session): (State, Session) {
    var updated := x.(lastSeenAt := s.now);
    (s.(sessions := Put(s.sessions, KeyOf(x), updated, s.now, RemainingTtl(POLICY, x.createdAt, s.now))), updated)
  }

  /** `x` is the session as the caller loaded it, which may be some time ago. */
  function Touch(s: State, x: Session): (State, Session) {
    if !ShouldTouch(x.lastSeenAt, s.now) then (s, x)
    else
      var latest := Get(s.sessions, KeyOf(x), s.now);
      Save(s, if latest.Some? then latest.value else x)
  }

  function DestroyBySid(s: State, sid: string): State {
    s.(sessions := s.sessions - Members(s.sessionsBySid, SidKey(sid), s.now),
       sessionsBySid := s.sessionsBySid - {SidKey(sid)})
  }

  // ---------- The operations on the stores ----------

  /** The operations as store calls, on stores that delete lazily and sweep. */
  class TenantSessions {
    const clock: KvStore.Clock
    const sessions: KvStore.MemoryKeyValueStore<Session>
    const sessionsBySid: KvStore.MemorySetStore
    ghost var created: map<string, Session>

    ghost predicate Valid()
      reads this, clock, sessions, sessionsBySid
    {
      sessions.clock == clock && sessionsBySid.clock == clock && sessions.Valid() && sessionsBySid.Valid()
    }

    ghost function View(): State
      reads this, clock, sessions, sessionsBySid
    {
      State(clock.now, sessions.model, sessionsBySid.model, created)
    }

    constructor (clock: KvStore.Clock)
      ensures Valid() && this.clock == clock && fresh(sessions) && fresh(sessionsBySid)
      ensures View() == State(clock.now, map[], map[], map[])
    {
      this.clock := clock;
      sessions := new KvStore.MemoryKeyValueStore<Session>(clock);
      sessionsBySid := new KvStore.MemorySetStore(clock);
      created := map[];
    }

    method DestroySession(x: Session)
      requires Valid()
      modifies sessions, sessionsBySid
      ensures Valid() && View() == Destroy(old(View()), x)
    {
      var key := KeyOf(x);
      sessions.Delete(key);
      sessionsBySid.Remove(SidKey(x.sid), key);
    }

    method LoadSession(slug: string, cookie: string) returns (found: Option<Session>)
      requires Valid()
      modifies sessions, sessionsBySid
      ensures Valid() && (View(), found) == Load(old(View()), slug, cookie)
    {
      if cookie == "" {
        return None;
      }
      found := sessions.Get(SessionKey(slug, cookie));
      if found.Some? && Expired(found.value, clock.now) {
        DestroySession(found.value);
        return None;
      }
    }

    method CreateSession(slug: string, id: string, userId: string, tenantId: string, sid: string,
                         accessToken: string, expiresIn: int, refreshToken: string) returns (x: Session)
      requires Valid()
      modifies this, sessions, sessionsBySid
      ensures Valid() && View() == Create(old(View()), x)
      ensures x == Session(id, slug, userId, tenantId, sid, Tokens(accessToken, clock.now + expiresIn, refreshToken),
                           clock.now, clock.now)
    {
      var now := clock.now;
      x := Session(id, slug, userId, tenantId, sid, Tokens(accessToken, now + expiresIn, refreshToken), now, now);
      var key := SessionKey(slug, id);
      sessions.Set(key, x, SESSION_ABSOLUTE_SECONDS);
      sessionsBySid.Add(SidKey(sid), key, SESSION_ABSOLUTE_SECONDS);
      created := created[key := x];
    }

    method SaveSession(x: Session) returns (updated: Session)
      requires Valid()
      modifies sessions
      ensures Valid() && (View(), updated) == Save(old(View()), x)
    {
      updated := x.(lastSeenAt := clock.now);
      sessions.Set(KeyOf(updated), updated, RemainingTtl(POLICY, updated.createdAt, clock.now));
    }

    method TouchSession(x: Session) returns (updated: Session)
      requires Valid()
      modifies sessions
      ensures Valid() && (View(), updated) == Touch(old(View()), x)
    {
      if !ShouldTouch(x.lastSeenAt, clock.now) {
        return x;
      }
      var latest := sessions.Get(KeyOf(x));
      updated := SaveSession(if latest.Some? then latest.value else x);
    }

    method DestroySessionsBySid(sid: string) returns (removed: nat)
      requires Valid()
      modifies sessions, sessionsBySid
      ensures Valid() && View() == DestroyBySid(old(View()), sid)
      ensures removed == |Members(old(sessionsBySid.model), SidKey(sid), clock.now)|
    {
      var keys := sessionsBySid.Members(SidKey(sid));
      var todo := keys;
      while todo != {}
        invariant Valid() && sessionsBySid.model == old(sessionsBySid.model) && todo <= keys
        invariant sessions.model == old(sessions.model) - (keys - todo)
        decreases todo
      {
        var key :| key in todo;
        sessions.Delete(key);
        todo := todo - {key};
      }
      sessionsBySid.Delete(SidKey(sid));
      return |keys|;
    }
  }

  // ---------- Runs ----------

  /** One event, served with nothing else running; `Refreshed` is a whole refresh, from reading the
      session to saving it. LogoutRace has the steps of a refresh apart. Cookies and slugs are whatever the browser and
      the host name say; slugs never contain a colon. */
  datatype Event =
    | Tick(seconds: nat)
    | Callback(slug: string, cookie: string, id: string, userId: string, tenantId: string, sid: string, tokens: Tokens)
    | Request(slug: string, cookie: string)
    | Refreshed(slug: string, cookie: string, tokens: Tokens)
    | Logout(slug: string, cookie: string)
    | BackchannelLogout(sid: string)

  function Serve(s: State, e: Event): State {
    match e
    case Tick(seconds) => s.(now := s.now + seconds)
    case Callback(slug, cookie, id, userId, tenantId, sid, tokens) =>
      if ':' in slug || id == "" || SessionKey(slug, id) in s.created then s
      else
        var (loaded, existing) := Load(s, slug, cookie);
        Create(if existing.Some? then Destroy(loaded, existing.value) else loaded,
               Session(id, slug, userId, tenantId, sid, tokens, s.now, s.now))
    case Request(slug, cookie) =>
      var (loaded, x) := Load(s, slug, cookie);
      if x.None? then loaded else Touch(loaded, x.value).0
    case Refreshed(slug, cookie, tokens) =>
      var (loaded, x) := Load(s, slug, cookie);
      if x.None? then loaded else Save(loaded, x.value.(tokens := tokens)).0
    case Logout(slug, cookie) =>
      var (loaded, x) := Load(s, slug, cookie);
      if x.None? then loaded else Destroy(loaded, x.value)
    case BackchannelLogout(sid) => DestroyBySid(s, sid)
  }

  function Run(s: State, events: seq<Event>): State
    decreases events
  {
    if events == [] then s else Run(Serve(s, events[0]), events[1..])
  }

  predicate Listed(s: State, key: string, x: Session, until: int) {
    && SidKey(x.sid) in s.sessionsBySid
    && key in s.sessionsBySid[SidKey(x.sid)].value
    && s.sessionsBySid[SidKey(x.sid)].expiresAt >= until
  }

  predicate SessionOk(s: State, key: string) {
    key in s.sessions ==>
      var Entry(x, expiresAt) := s.sessions[key];
      && key in s.created && x == s.created[key].(tokens := x.tokens, lastSeenAt := x.lastSeenAt)
      && expiresAt == x.createdAt + SESSION_ABSOLUTE_SECONDS
      && x.createdAt <= x.lastSeenAt <= s.now
      && (expiresAt > s.now ==> Listed(s, key, x, expiresAt))
  }

  predicate CreatedOk(s: State, key: string) {
    key in s.created ==> key == KeyOf(s.created[key]) && ':' !in s.created[key].tenantSlug && s.created[key].id != ""
  }

  predicate IndexOk(s: State, sidKey: string) {
    sidKey in s.sessionsBySid ==>
      forall key :: key in s.sessionsBySid[sidKey].value ==> key in s.created && SidKey(s.created[key].sid) == sidKey
  }

  ghost predicate Inv(s: State) {
    && (forall key :: SessionOk(s, key))
    && (forall key :: CreatedOk(s, key))
    && (forall sidKey :: IndexOk(s, sidKey))
  }

  lemma DestroyInv(s: State, x: Session)
    requires Inv(s) && KeyOf(x) in s.created && x.sid == s.created[KeyOf(x)].sid
    ensures Inv(Destroy(s, x))
  {
    var v := Destroy(s, x);
    forall key ensures SessionOk(v, key) { assert SessionOk(s, key); }
    forall key ensures CreatedOk(v, key) { assert CreatedOk(s, key); }
    forall sidKey ensures IndexOk(v, sidKey) { assert IndexOk(s, sidKey); }
  }

  /** What is found is stored under the key asked for, alive, and belongs to the tenant asked for. */
  lemma LoadFinds(s: State, slug: string, cookie: string)
    requires Inv(s)
    ensures Inv(Load(s, slug, cookie).0)
    ensures var (loaded, x) := Load(s, slug, cookie);
            x.Some? ==>
              loaded == s && KeyOf(x.value) == SessionKey(slug, cookie) && Live(s.sessions, KeyOf(x.value), s.now)
              && x.value == s.sessions[KeyOf(x.value)].value && !Expired(x.value, s.now)
  {
    var key := SessionKey(slug, cookie);
    assert SessionOk(s, key) && CreatedOk(s, key);
    if Live(s.sessions, key, s.now) && cookie != "" {
      DestroyInv(s, s.sessions[key].value);
    }
  }

  /** A session is found only through its own tenant and its own id. */
  lemma LoadOwnTenant(s: State, slug: string, cookie: string)
    requires Inv(s) && ':' !in slug
    ensures var found := Load(s, slug, cookie).1;
            found.Some? ==> found.value.tenantSlug == slug && found.value.id == cookie
  {
    LoadFinds(s, slug, cookie);
    var found := Load(s, slug, cookie).1;
    if found.Some? {
      assert SessionOk(s, KeyOf(found.value)) && CreatedOk(s, KeyOf(found.value));
      KeysDiffer(slug, cookie, found.value.tenantSlug, found.value.id);
    }
  }

  lemma CreateInv(s: State, x: Session)
    requires Inv(s) && KeyOf(x) !in s.created && ':' !in x.tenantSlug && x.id != ""
        && x.createdAt == x.lastSeenAt == s.now
    ensures Inv(Create(s, x))
  {
    var v := Create(s, x);
    forall key ensures SessionOk(v, key) { assert SessionOk(s, key); }
    forall key ensures CreatedOk(v, key) { assert CreatedOk(s, key); }
    forall sidKey ensures IndexOk(v, sidKey) { assert IndexOk(s, sidKey); }
  }

  /** Saving a session that is still stored, whatever its new tokens. */
  lemma SaveInv(s: State, x: Session)
    requires Inv(s) && Live(s.sessions, KeyOf(x), s.now)
    requires x == s.sessions[KeyOf(x)].value.(tokens := x.tokens)
    ensures Inv(Save(s, x).0)
  {
    var v := Save(s, x).0;
    forall key ensures SessionOk(v, key) { assert SessionOk(s, key); }
    forall key ensures CreatedOk(v, key) { assert CreatedOk(s, key); }
    forall sidKey ensures IndexOk(v, sidKey) { assert IndexOk(s, sidKey); }
  }

  lemma DestroyBySidInv(s: State, sid: string)
    requires Inv(s)
    ensures Inv(DestroyBySid(s, sid))
  {
    var v := DestroyBySid(s, sid);
    forall key ensures SessionOk(v, key) { assert SessionOk(s, key); }
    forall key ensures CreatedOk(v, key) { assert CreatedOk(s, key); }
    forall sidKey ensures IndexOk(v, sidKey) { assert IndexOk(s, sidKey); }
  }

  lemma TickInv(s: State, seconds: nat)
    requires Inv(s)
    ensures Inv(s.(now := s.now + seconds))
  {
    var v := s.(now := s.now + seconds);
    forall key ensures SessionOk(v, key) { assert SessionOk(s, key); }
    forall key ensures CreatedOk(v, key) { assert CreatedOk(s, key); }
    forall sidKey ensures IndexOk(v, sidKey) { assert IndexOk(s, sidKey); }
  }

  lemma ServeInv(s: State, e: Event)
    requires Inv(s)
    ensures Inv(Serve(s, e))
  {
    match e
    case Tick(seconds) => TickInv(s, seconds);
    case BackchannelLogout(sid) => DestroyBySidInv(s, sid);
    case Callback(slug, cookie, id, userId, tenantId, sid, tokens) =>
      FoundInv(s, slug, cookie);
      if ':' !in slug && id != "" && SessionKey(slug, id) !in s.created {
        var (loaded, x) := Load(s, slug, cookie);
        CreateInv(if x.Some? then Destroy(loaded, x.value) else loaded,
                  Session(id, slug, userId, tenantId, sid, tokens, s.now, s.now));
      }
    case Request(slug, cookie) =>
      FoundInv(s, slug, cookie);
      var x := Load(s, slug, cookie).1;
      if x.Some? { SaveInv(s, x.value); }
    case Refreshed(slug, cookie, tokens) =>
      FoundInv(s, slug, cookie);
      var x := Load(s, slug, cookie).1;
      if x.Some? { SaveInv(s, x.value.(tokens := tokens)); }
    case Logout(slug, cookie) =>
      FoundInv(s, slug, cookie);
  }

  lemma FoundInv(s: State, slug: string, cookie: string)
    requires Inv(s)
    ensures var (loaded, x) := Load(s, slug, cookie);
            && Inv(loaded) && (x.Some? ==> loaded == s && Inv(Destroy(s, x.value)))
            && (x.Some? ==> Live(s.sessions, KeyOf(x.value), s.now) && x.value == s.sessions[KeyOf(x.value)].value)
  {
    LoadFinds(s, slug, cookie);
    var x := Load(s, slug, cookie).1;
    if x.Some? {
      assert SessionOk(s, KeyOf(x.value));
      DestroyInv(s, x.value);
    }
  }

  /** From any start, every run of whole requests keeps the stores and the sid index consistent. */
  lemma {:induction false} RunInv(s: State, events: seq<Event>)
    requires Inv(s)
    ensures Inv(Run(s, events))
    decreases events
  {
    if events != [] {
      ServeInv(s, events[0]);
      RunInv(Serve(s, events[0]), events[1..]);
    }
  }
}
