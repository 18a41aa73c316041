/** Keeping access tokens fresh, as packages/oidc-client/src/api-client.ts does it: any number of
    requests for any number of sessions, every store call and every call to the authorization
    server one atomic step, and one lock per session. */
module RefreshLock {
  import opened Timed
  import opened TenantSession

  const ACCESS_TOKEN_REFRESH_MARGIN_SECONDS := 60
  const REFRESH_LOCK_TTL_SECONDS := 10
  const REFRESH_WAIT_ATTEMPTS := 30

  predicate NeedsRefresh(x: Session, now: int) {
    x.tokens.accessExpiresAt - now <= ACCESS_TOKEN_REFRESH_MARGIN_SECONDS
  }

  datatype Outcome = Fresh(session: Session) | SessionExpired | ProviderUnavailable

  /** Where a request stands. `since` is when it took the lock. */
  datatype Pc =
    | TakeLock(mine: Session)
    | Reload(mine: Session, since: int)
    | Send(x: Session, since: int)
    | Await(x: Session, since: int)
    | Store(x: Session, since: int)
    | Drop(x: Session, since: int)
    | Unlock(key: string, outcome: Outcome, since: int)
    | Wait(mine: Session, attempt: nat)
    | Answered(outcome: Outcome)

  datatype Reply = Success(access: string, expiresIn: int, refresh: string) | InvalidGrant | Failure

  /** `issued` maps every refresh token to the session it was issued for, `answered` holds those a
      successful reply replaced, and `replays` those presented after that. Only the choice of new
      tokens, which never repeat, depends on these. */
  datatype World = World(
    s: State,
    locks: map<string, Entry<string>>,
    threads: map<nat, Pc>,
    issued: map<string, string>,
    answered: set<string>,
    replays: set<string>)

  datatype Step =
    | Other(event: Event)
    | Start(thread: nat, mine: Session)
    | Go(thread: nat, reply: Reply)

  function Next(w: World, step: Step): World {
    match step
    case Other(e) => OtherEvent(w, e)
    case Start(t, mine) =>
      if t in w.threads then w
      else At(w, t, if NeedsRefresh(mine, w.s.now) then TakeLock(mine) else Answered(Fresh(mine)))
    case Go(t, reply) => if t in w.threads then Advance(w, t, reply) else w
  }

  /** Time passing, logins, touches and logouts around the refreshes. */
  function OtherEvent(w: World, e: Event): World {
    match e
    case Refreshed(_, _, _) => w
    case Callback(slug, _, id, _, _, _, tokens) =>
      if tokens.refresh in w.issued then w
      else w.(s := Serve(w.s, e), issued := w.issued[tokens.refresh := SessionKey(slug, id)])
    case _ => w.(s := Serve(w.s, e))
  }

  function At(w: World, t: nat, pc: Pc): World {
    w.(threads := w.threads[t := pc])
  }

  function Advance(w: World, t: nat, reply: Reply): World
    requires t in w.threads
  {
    match w.threads[t]
    case TakeLock(mine) =>
      if Live(w.locks, KeyOf(mine), w.s.now) then At(w, t, Wait(mine, 0))
      else At(w.(locks := Put(w.locks, KeyOf(mine), "1", w.s.now, REFRESH_LOCK_TTL_SECONDS)), t, Reload(mine, w.s.now))
    case Reload(mine, since) =>
      var (loaded, found) := Load(w.s, mine.tenantSlug, mine.id);
      var latest := if found.Some? then found.value else mine;
      At(w.(s := loaded), t, if NeedsRefresh(latest, w.s.now) then Send(latest, since)
          else Unlock(KeyOf(mine), Fresh(latest), since))
    case Send(x, since) =>
      At(w.(replays := w.replays + ({x.tokens.refresh} * w.answered)), t, Await(x, since))
    case Await(x, since) => Receive(w, t, x, since, reply)
    case Store(x, since) =>
      var (saved, updated) := Save(w.s, x);
      At(w.(s := saved), t, Unlock(KeyOf(x), Fresh(updated), since))
    case Drop(x, since) => At(w.(s := Destroy(w.s, x)), t, Unlock(KeyOf(x), SessionExpired, since))
    case Unlock(key, outcome, _) => At(w.(locks := w.locks - {key}), t, Answered(outcome))
    case Wait(mine, attempt) => LookAgain(w, t, mine, attempt)
    case Answered(_) => w
  }

  function Receive(w: World, t: nat, x: Session, since: int, reply: Reply): World {
    match reply
    case Success(access, expiresIn, refresh) =>
      if refresh in w.issued then w
      else
        At(w.(issued := w.issued[refresh := KeyOf(x)], answered := w.answered + {x.tokens.refresh}), t,
           Store(x.(tokens := Tokens(access, w.s.now + expiresIn, refresh)), since))
    case InvalidGrant => At(w, t, Drop(x, since))
    case Failure => At(w, t, Unlock(KeyOf(x), ProviderUnavailable, since))
  }

  function LookAgain(w: World, t: nat, mine: Session, attempt: nat): World {
    var (loaded, found) := Load(w.s, mine.tenantSlug, mine.id);
    At(w.(s := loaded), t,
       if found.None? then Answered(SessionExpired)
       else if !NeedsRefresh(found.value, w.s.now) then Answered(Fresh(found.value))
       else if attempt + 1 < REFRESH_WAIT_ATTEMPTS then Wait(mine, attempt + 1)
       else Answered(ProviderUnavailable))
  }

  function Run(w: World, steps: seq<Step>): World
    decreases steps
  {
    if steps == [] then w else Run(Next(w, steps[0]), steps[1..])
  }

  // ---------- What the protocol assumes ----------

  /** The session whose lock the request holds, and since when. */
  function Held(pc: Pc): Option<(string, int)> {
    match pc
    case Reload(mine, since) => Some((KeyOf(mine), since))
    case Send(x, since) => Some((KeyOf(x), since))
    case Await(x, since) => Some((KeyOf(x), since))
    case Store(x, since) => Some((KeyOf(x), since))
    case Drop(x, since) => Some((KeyOf(x), since))
    case Unlock(key, _, since) => Some((key, since))
    case _ => None
  }

  /** No holder has outlived its lock. */
  predicate Prompt(w: World) {
    forall t :: t in w.threads && Held(w.threads[t]).Some? ==>
        w.s.now < Held(w.threads[t]).value.1 + REFRESH_LOCK_TTL_SECONDS
  }

  /** Whoever reads the session again under the lock still finds it. */
  predicate Finds(w: World, step: Step) {
    step.Go? && step.thread in w.threads && w.threads[step.thread].Reload? ==>
      Load(w.s, w.threads[step.thread].mine.tenantSlug, w.threads[step.thread].mine.id).1.Some?
  }

  /** A run that keeps to the first assumption, if `prompt`, and to the second, if `finds`. */
  predicate Orderly(w: World, steps: seq<Step>, prompt: bool, finds: bool)
    decreases steps
  {
    && (prompt ==> Prompt(w))
    && (steps != [] ==> (finds ==> Finds(w, steps[0])) && Orderly(Next(w, steps[0]), steps[1..], prompt, finds))
  }

  // ---------- The invariant ----------

  ghost predicate Storing(w: World, key: string) {
    exists t :: t in w.threads && w.threads[t].Store? && KeyOf(w.threads[t].x) == key
  }

  predicate Current(w: World, x: Session) {
    x.tokens.refresh in w.issued && w.issued[x.tokens.refresh] == KeyOf(x) && x.tokens.refresh !in w.answered
  }

  /** A stored session holds a token issued for it, and one still good unless its successor is
      about to be stored. */
  ghost predicate SessionSound(w: World, key: string) {
    key in w.s.sessions ==>
      var x := w.s.sessions[key].value;
      && KeyOf(x) == key
      && x.tokens.refresh in w.issued && w.issued[x.tokens.refresh] == key
      && (x.tokens.refresh in w.answered ==> Storing(w, key))
  }

  predicate ThreadSound(w: World, t: nat)
    requires t in w.threads
  {
    var pc := w.threads[t];
    && (pc.Send? || pc.Await? || pc.Store? ==> Current(w, pc.x))
    && (Held(pc).Some? ==>
          var (key, since) := Held(pc).value;
          key in w.locks && w.locks[key].expiresAt == since + REFRESH_LOCK_TTL_SECONDS)
  }

  predicate SameLock(pc: Pc, other: Pc) {
    Held(pc).Some? && Held(other).Some? && Held(pc).value.0 == Held(other).value.0
  }

  /** At most one request holds the lock of a session. */
  predicate OneHolder(w: World) {
    forall t, u :: t in w.threads && u in w.threads && SameLock(w.threads[t], w.threads[u]) ==> t == u
  }

  ghost predicate Inv(w: World) {
    && (forall key :: SessionSound(w, key))
    && (forall t :: t in w.threads ==> ThreadSound(w, t))
    && OneHolder(w)
    && (forall token :: token in w.answered ==> token in w.issued)
    && w.replays == {}
  }

  // ---------- Every step keeps it ----------

  /** Session events change no session's token; a login adds a session under a new token. */
  lemma EventTokens(s: State, e: Event, key: string)
    requires !e.Refreshed? && forall k :: k in s.sessions ==> KeyOf(s.sessions[k].value) == k
    ensures var v := Serve(s, e);
            key in v.sessions ==>
              && KeyOf(v.sessions[key].value) == key
              && ((key in s.sessions && v.sessions[key].value.tokens == s.sessions[key].value.tokens)
                  || (e.Callback? && key == SessionKey(e.slug, e.id) && v.sessions[key].value.tokens == e.tokens))
  {
  }

  lemma OtherInv(w: World, e: Event)
    requires Inv(w)
    ensures Inv(OtherEvent(w, e))
  {
    var v := OtherEvent(w, e);
    if !e.Refreshed? {
      forall key ensures SessionSound(v, key) {
        forall k | k in w.s.sessions ensures KeyOf(w.s.sessions[k].value) == k { assert SessionSound(w, k); }
        EventTokens(w.s, e, key);
        assert SessionSound(w, key);
        assert Storing(w, key) ==> Storing(v, key);
      }
      forall t | t in v.threads ensures ThreadSound(v, t) { assert ThreadSound(w, t); }
    }
  }

  /** Moving one request that neither gains the lock nor stops storing. */
  lemma MoveInv(w: World, t: nat, pc: Pc)
    requires Inv(w) && t in w.threads && !w.threads[t].Store?
    requires Held(pc).Some? ==> Held(pc) == Held(w.threads[t])
    requires pc.Send? || pc.Await? || pc.Store? ==> Current(w, pc.x)
    ensures Inv(At(w, t, pc))
  {
    var v := At(w, t, pc);
    forall key ensures SessionSound(v, key) {
      assert SessionSound(w, key);
      if Storing(w, key) {
        var u :| u in w.threads && w.threads[u].Store? && KeyOf(w.threads[u].x) == key;
        assert v.threads[u] == w.threads[u];
      }
    }
    forall u | u in v.threads ensures ThreadSound(v, u) {
      assert ThreadSound(w, t);
      if u != t { assert ThreadSound(w, u); }
    }
  }

  /** Sessions may go at any moment. */
  lemma LoseInv(w: World, s: State)
    requires Inv(w) && s.now == w.s.now
    requires forall key :: key in s.sessions ==> key in w.s.sessions && s.sessions[key] == w.s.sessions[key]
    ensures Inv(w.(s := s))
  {
    var v := w.(s := s);
    forall key ensures SessionSound(v, key) {
      assert SessionSound(w, key);
      assert Storing(w, key) ==> Storing(v, key);
    }
    forall u | u in v.threads ensures ThreadSound(v, u) { assert ThreadSound(w, u); }
  }

  lemma LockInv(w: World, t: nat, mine: Session)
    requires Inv(w) && Prompt(w) && t in w.threads && w.threads[t] == TakeLock(mine)
    requires !Live(w.locks, KeyOf(mine), w.s.now)
    ensures Inv(At(w.(locks := Put(w.locks, KeyOf(mine), "1", w.s.now, REFRESH_LOCK_TTL_SECONDS)), t,
                   Reload(mine, w.s.now)))
  {
    var v := At(w.(locks := Put(w.locks, KeyOf(mine), "1", w.s.now, REFRESH_LOCK_TTL_SECONDS)), t,
                Reload(mine, w.s.now));
    forall u | u in w.threads && Held(w.threads[u]).Some? ensures Held(w.threads[u]).value.0 != KeyOf(mine) {
      assert ThreadSound(w, u);
    }
    forall key ensures SessionSound(v, key) {
      assert SessionSound(w, key);
      if Storing(w, key) {
        var u :| u in w.threads && w.threads[u].Store? && KeyOf(w.threads[u].x) == key;
        assert v.threads[u] == w.threads[u];
      }
    }
    forall u | u in v.threads ensures ThreadSound(v, u) {
      if u != t { assert ThreadSound(w, u); }
    }
  }

  /** What a holder finds in the store is current: nobody else can be replacing it. */
  lemma FoundCurrent(w: World, t: nat, mine: Session, since: int)
    requires Inv(w) && t in w.threads && w.threads[t] == Reload(mine, since)
    ensures var found := Load(w.s, mine.tenantSlug, mine.id).1;
            found.Some? ==> Current(w, found.value) && KeyOf(found.value) == KeyOf(mine)
  {
    var key := SessionKey(mine.tenantSlug, mine.id);
    assert SessionSound(w, key) && KeyOf(mine) == key;
    forall u | u in w.threads && w.threads[u].Store? ensures KeyOf(w.threads[u].x) != key {
      assert SameLock(w.threads[u], w.threads[t]) ==> u == t;
    }
    assert !Storing(w, key);
  }

  lemma ReloadInv(w: World, t: nat, mine: Session, since: int, reply: Reply)
    requires Inv(w) && t in w.threads && w.threads[t] == Reload(mine, since) && Finds(w, Go(t, reply))
    ensures Inv(Advance(w, t, reply))
  {
    FoundCurrent(w, t, mine, since);
    var found := Load(w.s, mine.tenantSlug, mine.id).1.value;
    assert Load(w.s, mine.tenantSlug, mine.id).0 == w.s;
    MoveInv(w, t, if NeedsRefresh(found, w.s.now) then Send(found, since)
        else Unlock(KeyOf(mine), Fresh(found), since));
  }

  lemma SuccessInv(w: World, t: nat, x: Session, since: int, reply: Reply)
    requires Inv(w) && t in w.threads && w.threads[t] == Await(x, since) && reply.Success? && reply.refresh !in w.issued
    ensures Inv(Receive(w, t, x, since, reply))
  {
    var v := Receive(w, t, x, since, reply);
    assert ThreadSound(w, t);
    assert Storing(v, KeyOf(x)) by { assert v.threads[t].Store?; }
    forall key ensures SessionSound(v, key) {
      assert SessionSound(w, key);
      if Storing(w, key) {
        var u :| u in w.threads && w.threads[u].Store? && KeyOf(w.threads[u].x) == key;
        assert v.threads[u] == w.threads[u];
      }
    }
    forall u | u in v.threads ensures ThreadSound(v, u) {
      if u != t {
        assert ThreadSound(w, u);
        assert !SameLock(w.threads[u], w.threads[t]);
      }
    }
  }

  lemma StoreInv(w: World, t: nat, x: Session, since: int, reply: Reply)
    requires Inv(w) && t in w.threads && w.threads[t] == Store(x, since)
    ensures Inv(Advance(w, t, reply))
  {
    var v := Advance(w, t, reply);
    assert ThreadSound(w, t);
    forall key ensures SessionSound(v, key) {
      assert SessionSound(w, key);
      if key != KeyOf(x) && Storing(w, key) {
        var u :| u in w.threads && w.threads[u].Store? && KeyOf(w.threads[u].x) == key;
        assert v.threads[u] == w.threads[u];
      }
    }
    forall u | u in v.threads ensures ThreadSound(v, u) {
      if u != t { assert ThreadSound(w, u); }
    }
  }

  lemma UnlockInv(w: World, t: nat, reply: Reply)
    requires Inv(w) && t in w.threads && w.threads[t].Unlock?
    ensures Inv(Advance(w, t, reply))
  {
    var v := Advance(w, t, reply);
    forall key ensures SessionSound(v, key) {
      assert SessionSound(w, key);
      if Storing(w, key) {
        var u :| u in w.threads && w.threads[u].Store? && KeyOf(w.threads[u].x) == key;
        assert v.threads[u] == w.threads[u];
      }
    }
    forall u | u in v.threads ensures ThreadSound(v, u) {
      if u != t {
        assert ThreadSound(w, u);
        assert !SameLock(w.threads[u], w.threads[t]);
      }
    }
  }

  lemma AdvanceInv(w: World, t: nat, reply: Reply)
    requires Inv(w) && Prompt(w) && t in w.threads && Finds(w, Go(t, reply))
    ensures Inv(Advance(w, t, reply))
  {
    assert ThreadSound(w, t);
    match w.threads[t]
    case TakeLock(mine) =>
      if Live(w.locks, KeyOf(mine), w.s.now) { MoveInv(w, t, Wait(mine, 0)); } else { LockInv(w, t, mine); }
    case Reload(mine, since) => ReloadInv(w, t, mine, since, reply);
    case Send(x, since) =>
      assert w.replays + ({x.tokens.refresh} * w.answered) == w.replays;
      MoveInv(w, t, Await(x, since));
    case Await(x, since) =>
      match reply {
        case Success(_, _, refresh) => if refresh !in w.issued { SuccessInv(w, t, x, since, reply); }
        case InvalidGrant => MoveInv(w, t, Drop(x, since));
        case Failure => MoveInv(w, t, Unlock(KeyOf(x), ProviderUnavailable, since));
      }
    case Store(x, since) => StoreInv(w, t, x, since, reply);
    case Drop(x, since) =>
      LoseInv(w, Destroy(w.s, x));
      MoveInv(w.(s := Destroy(w.s, x)), t, Unlock(KeyOf(x), SessionExpired, since));
    case Unlock(_, _, _) => UnlockInv(w, t, reply);
    case Wait(mine, attempt) =>
      var loaded := Load(w.s, mine.tenantSlug, mine.id).0;
      LoseInv(w, loaded);
      MoveInv(w.(s := loaded), t, LookAgain(w, t, mine, attempt).threads[t]);
    case Answered(_) =>
  }

  lemma StartInv(w: World, t: nat, mine: Session)
    requires Inv(w)
    ensures Inv(Next(w, Start(t, mine)))
  {
    var v := Next(w, Start(t, mine));
    if t !in w.threads {
      forall key ensures SessionSound(v, key) {
        assert SessionSound(w, key);
        if Storing(w, key) {
          var u :| u in w.threads && w.threads[u].Store? && KeyOf(w.threads[u].x) == key;
          assert v.threads[u] == w.threads[u];
        }
      }
      forall u | u in v.threads ensures ThreadSound(v, u) {
        if u != t { assert ThreadSound(w, u); }
      }
    }
  }

  lemma StepInv(w: World, step: Step)
    requires Inv(w) && Prompt(w) && Finds(w, step)
    ensures Inv(Next(w, step))
  {
    match step
    case Other(e) => OtherInv(w, e);
    case Start(t, mine) => StartInv(w, t, mine);
    case Go(t, reply) => if t in w.threads { AdvanceInv(w, t, reply); }
  }

  lemma {:induction false} RunInv(w: World, steps: seq<Step>)
    requires Inv(w) && Orderly(w, steps, true, true)
    ensures Inv(Run(w, steps)) && Prompt(Run(w, steps))
    decreases steps
  {
    if steps != [] {
      StepInv(w, steps[0]);
      RunInv(Next(w, steps[0]), steps[1..]);
    }
  }
}
