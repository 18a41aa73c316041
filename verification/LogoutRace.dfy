/** Logout while requests are in flight, every store call and every call to the authorization server
    one step. A request works with the session it loaded: a touch or a refresh that begins before
    or after the logout saves it without asking whether it is still there, and brings it back. */
module LogoutRace {
  import opened Timed
  import opened SessionExpiry
  import opened TenantSession
  import opened TenantSessionTheorems
  import opened RefreshLock

  // ---------- What is true in every interleaving ----------

  /** The session as it was created, with other tokens and sightings. */
  predicate SameSession(s: State, x: Session) {
    KeyOf(x) in s.created && x == s.created[KeyOf(x)].(tokens := x.tokens, lastSeenAt := x.lastSeenAt)
  }

  function Limit(s: State, key: string): int
    requires key in s.created
  {
    s.created[key].createdAt + SESSION_ABSOLUTE_SECONDS
  }

  predicate StoredOk(s: State, key: string) {
    key in s.sessions ==>
      var Entry(x, expiresAt) := s.sessions[key];
      KeyOf(x) == key && SameSession(s, x) && expiresAt == x.createdAt + SESSION_ABSOLUTE_SECONDS
  }

  /** The session a request may still write. */
  function Carried(pc: Pc): Option<Session> {
    match pc
    case TakeLock(mine) => Some(mine)
    case Reload(mine, _) => Some(mine)
    case Send(x, _) => Some(x)
    case Await(x, _) => Some(x)
    case Store(x, _) => Some(x)
    case _ => None
  }

  predicate Carries(pc: Pc, key: string) {
    Carried(pc).Some? && KeyOf(Carried(pc).value) == key
  }

  /** The call ends, or is about to end, with this session for its caller. */
  function Kept(pc: Pc): Option<Session> {
    match pc
    case Answered(Fresh(x)) => Some(x)
    case Unlock(_, Fresh(x), _) => Some(x)
    case _ => None
  }

  predicate Keeps(pc: Pc, key: string) {
    Kept(pc).Some? && KeyOf(Kept(pc).value) == key
  }

  predicate Holds(pc: Pc, key: string) {
    Held(pc).Some? && Held(pc).value.0 == key
  }

  predicate PcOk(s: State, pc: Pc) {
    && (Carried(pc).Some? ==> SameSession(s, Carried(pc).value))
    && (Kept(pc).Some? ==> SameSession(s, Kept(pc).value))
    && (pc.TakeLock? || pc.Reload? ==> NeedsRefresh(pc.mine, s.now))
  }

  /** A lock that is still live has a holder. */
  ghost predicate LockOk(w: World, key: string) {
    Live(w.locks, key, w.s.now) ==> exists t :: t in w.threads && Holds(w.threads[t], key)
  }

  ghost predicate RaceInv(w: World) {
    && (forall key :: StoredOk(w.s, key))
    && (forall key :: CreatedOk(w.s, key))
    && (forall key :: LockOk(w, key))
    && (forall t :: t in w.threads ==> PcOk(w.s, w.threads[t]))
  }

  /** A refresh starts with a session that was loaded at some time. */
  predicate Honest(w: World, step: Step) {
    step.Start? ==> SameSession(w.s, step.mine)
  }

  /** Sessions keep who they are, and new ones have new keys. */
  predicate Grows(s: State, v: State) {
    s.now <= v.now && forall key :: key in s.created ==> key in v.created && v.created[key] == s.created[key]
  }

  lemma EventStored(s: State, e: Event)
    requires (forall key :: StoredOk(s, key)) && (forall key :: CreatedOk(s, key)) && !e.Refreshed?
    ensures (forall key :: StoredOk(Serve(s, e), key)) && (forall key :: CreatedOk(Serve(s, e), key))
    ensures Grows(s, Serve(s, e))
  {
    forall key ensures StoredOk(Serve(s, e), key) {
      EventKey(s, e, key);
    }
    forall key ensures CreatedOk(Serve(s, e), key) { assert CreatedOk(s, key); }
  }

  /** Apart from refreshes, an event leaves a session alone, drops it, touches it, or creates it. */
  lemma EventKey(s: State, e: Event, key: string)
    requires (forall k :: StoredOk(s, k)) && !e.Refreshed?
    ensures StoredOk(Serve(s, e), key)
    ensures key in s.created && Ended(s, key) ==> Ended(Serve(s, e), key)
  {
    assert StoredOk(s, key);
    match e
    case Tick(_) =>
    case BackchannelLogout(_) =>
    case Callback(slug, cookie, _, _, _, _, _) => assert StoredOk(s, SessionKey(slug, cookie));
    case Request(slug, cookie) => assert StoredOk(s, SessionKey(slug, cookie));
    case Logout(slug, cookie) => assert StoredOk(s, SessionKey(slug, cookie));
  }

  lemma OtherRace(w: World, e: Event)
    requires RaceInv(w)
    ensures RaceInv(OtherEvent(w, e)) && Grows(w.s, OtherEvent(w, e).s)
  {
    var v := OtherEvent(w, e);
    if !e.Refreshed? { EventStored(w.s, e); }
    forall t | t in v.threads ensures PcOk(v.s, v.threads[t]) { assert PcOk(w.s, w.threads[t]); }
    forall key ensures LockOk(v, key) {
      assert LockOk(w, key);
      if Live(v.locks, key, v.s.now) {
        var t :| t in w.threads && Holds(w.threads[t], key);
        assert t in v.threads && Holds(v.threads[t], key);
      }
    }
  }

  /** A request moves on and keeps its lock, if any, and the sessions. */
  lemma MoveRace(w: World, t: nat, pc: Pc)
    requires RaceInv(w) && t in w.threads && PcOk(w.s, pc)
    requires forall key :: Holds(w.threads[t], key) ==> Holds(pc, key)
    ensures RaceInv(At(w, t, pc))
  {
    var v := At(w, t, pc);
    forall key ensures LockOk(v, key) {
      assert LockOk(w, key);
      if Live(v.locks, key, v.s.now) {
        var u :| u in w.threads && Holds(w.threads[u], key);
        assert u in v.threads && Holds(v.threads[u], key);
      }
    }
  }

  lemma LoseRace(w: World, s: State)
    requires RaceInv(w) && s.now == w.s.now && s.created == w.s.created
    requires forall key :: key in s.sessions ==> key in w.s.sessions && s.sessions[key] == w.s.sessions[key]
    ensures RaceInv(w.(s := s))
  {
    var v := w.(s := s);
    forall key ensures StoredOk(s, key) { assert StoredOk(w.s, key); }
    forall key ensures CreatedOk(s, key) { assert CreatedOk(w.s, key); }
    forall key ensures LockOk(v, key) { assert LockOk(w, key); }
    forall t | t in v.threads ensures PcOk(s, v.threads[t]) { assert PcOk(w.s, w.threads[t]); }
  }

  lemma LoadLoses(s: State, slug: string, id: string)
    ensures var v := Load(s, slug, id).0;
            && v.now == s.now && v.created == s.created
            && forall key :: key in v.sessions ==> key in s.sessions && v.sessions[key] == s.sessions[key]
  {
  }

  lemma TakeLockRace(w: World, t: nat, reply: Reply)
    requires RaceInv(w) && t in w.threads && w.threads[t].TakeLock?
    ensures RaceInv(Advance(w, t, reply))
  {
    var mine := w.threads[t].mine;
    var v := Advance(w, t, reply);
    assert PcOk(w.s, w.threads[t]);
    forall key ensures LockOk(v, key) {
      assert LockOk(w, key);
      if Live(w.locks, key, w.s.now) {
        var u :| u in w.threads && Holds(w.threads[u], key);
        assert u in v.threads && Holds(v.threads[u], key);
      } else if Live(v.locks, key, v.s.now) {
        assert Holds(v.threads[t], key);
      }
    }
    forall u | u in v.threads ensures PcOk(v.s, v.threads[u]) { assert u == t || PcOk(w.s, w.threads[u]); }
  }

  lemma ReloadRace(w: World, t: nat, reply: Reply)
    requires RaceInv(w) && t in w.threads && w.threads[t].Reload?
    ensures RaceInv(Advance(w, t, reply))
  {
    var mine, since := w.threads[t].mine, w.threads[t].since;
    assert PcOk(w.s, w.threads[t]);
    var (loaded, found) := Load(w.s, mine.tenantSlug, mine.id);
    assert StoredOk(w.s, SessionKey(mine.tenantSlug, mine.id));
    LoadLoses(w.s, mine.tenantSlug, mine.id);
    LoseRace(w, loaded);
    var latest := if found.Some? then found.value else mine;
    MoveRace(w.(s := loaded), t,
             if NeedsRefresh(latest, w.s.now) then Send(latest, since) else Unlock(KeyOf(mine), Fresh(latest), since));
  }

  lemma ReceiveRace(w: World, t: nat, reply: Reply)
    requires RaceInv(w) && t in w.threads && w.threads[t].Await?
    ensures RaceInv(Advance(w, t, reply))
  {
    var v := Advance(w, t, reply);
    assert PcOk(w.s, w.threads[t]);
    MoveRace(w, t, v.threads[t]);
    var u := At(w, t, v.threads[t]);
    forall key ensures LockOk(v, key) { assert LockOk(u, key); }
  }

  lemma StoreRace(w: World, t: nat, reply: Reply)
    requires RaceInv(w) && t in w.threads && w.threads[t].Store?
    ensures RaceInv(Advance(w, t, reply))
  {
    var v := Advance(w, t, reply);
    assert PcOk(w.s, w.threads[t]);
    MoveRace(w, t, v.threads[t]);
    var u := At(w, t, v.threads[t]);
    forall key ensures StoredOk(v.s, key) { assert StoredOk(w.s, key); }
    forall key ensures CreatedOk(v.s, key) { assert CreatedOk(w.s, key); }
    forall key ensures LockOk(v, key) { assert LockOk(u, key); }
    forall r | r in v.threads ensures PcOk(v.s, v.threads[r]) { assert PcOk(u.s, u.threads[r]); }
  }

  lemma UnlockRace(w: World, t: nat, reply: Reply)
    requires RaceInv(w) && t in w.threads && w.threads[t].Unlock?
    ensures RaceInv(Advance(w, t, reply))
  {
    var v := Advance(w, t, reply);
    forall key ensures LockOk(v, key) {
      assert LockOk(w, key);
      if Live(v.locks, key, v.s.now) {
        var u :| u in w.threads && Holds(w.threads[u], key);
        assert u in v.threads && Holds(v.threads[u], key);
      }
    }
  }

  lemma AdvanceRace(w: World, t: nat, reply: Reply)
    requires RaceInv(w) && t in w.threads
    ensures RaceInv(Advance(w, t, reply)) && Grows(w.s, Advance(w, t, reply).s)
  {
    AdvanceGrows(w, t, reply);
    match w.threads[t]
    case TakeLock(_) => TakeLockRace(w, t, reply);
    case Reload(_, _) => ReloadRace(w, t, reply);
    case Send(_, _) => SendRace(w, t, reply);
    case Await(_, _) => ReceiveRace(w, t, reply);
    case Store(_, _) => StoreRace(w, t, reply);
    case Drop(_, _) => DropRace(w, t, reply);
    case Unlock(_, _, _) => UnlockRace(w, t, reply);
    case Wait(_, _) => WaitRace(w, t, reply);
    case Answered(_) =>
  }

  lemma AdvanceGrows(w: World, t: nat, reply: Reply)
    requires t in w.threads
    ensures Grows(w.s, Advance(w, t, reply).s)
  {
    match w.threads[t]
    case Reload(mine, _) => LoadLoses(w.s, mine.tenantSlug, mine.id);
    case Wait(mine, _) => LoadLoses(w.s, mine.tenantSlug, mine.id);
    case _ =>
  }

  lemma SendRace(w: World, t: nat, reply: Reply)
    requires RaceInv(w) && t in w.threads && w.threads[t].Send?
    ensures RaceInv(Advance(w, t, reply))
  {
    var x, since := w.threads[t].x, w.threads[t].since;
    assert PcOk(w.s, w.threads[t]);
    MoveRace(w, t, Await(x, since));
    var u := At(w, t, Await(x, since));
    forall key ensures LockOk(Advance(w, t, reply), key) { assert LockOk(u, key); }
  }

  lemma DropRace(w: World, t: nat, reply: Reply)
    requires RaceInv(w) && t in w.threads && w.threads[t].Drop?
    ensures RaceInv(Advance(w, t, reply))
  {
    var x, since := w.threads[t].x, w.threads[t].since;
    LoseRace(w, Destroy(w.s, x));
    MoveRace(w.(s := Destroy(w.s, x)), t, Unlock(KeyOf(x), SessionExpired, since));
  }

  lemma WaitRace(w: World, t: nat, reply: Reply)
    requires RaceInv(w) && t in w.threads && w.threads[t].Wait?
    ensures RaceInv(Advance(w, t, reply))
  {
    var mine, attempt := w.threads[t].mine, w.threads[t].attempt;
    var loaded := Load(w.s, mine.tenantSlug, mine.id).0;
    assert StoredOk(w.s, SessionKey(mine.tenantSlug, mine.id));
    LoadLoses(w.s, mine.tenantSlug, mine.id);
    LoseRace(w, loaded);
    MoveRace(w.(s := loaded), t, LookAgain(w, t, mine, attempt).threads[t]);
  }

  lemma StartRace(w: World, t: nat, mine: Session)
    requires RaceInv(w) && Honest(w, Start(t, mine))
    ensures RaceInv(Next(w, Start(t, mine)))
  {
    var v := Next(w, Start(t, mine));
    if t !in w.threads {
      forall key ensures LockOk(v, key) {
        assert LockOk(w, key);
        if Live(v.locks, key, v.s.now) {
          var u :| u in w.threads && Holds(w.threads[u], key);
          assert u in v.threads && Holds(v.threads[u], key);
        }
      }
      forall u | u in v.threads ensures PcOk(v.s, v.threads[u]) { assert u == t || PcOk(w.s, w.threads[u]); }
    }
  }

  lemma StepRace(w: World, step: Step)
    requires RaceInv(w) && Honest(w, step)
    ensures RaceInv(Next(w, step)) && Grows(w.s, Next(w, step).s)
  {
    match step
    case Other(e) => OtherRace(w, e);
    case Start(t, mine) => StartRace(w, t, mine);
    case Go(t, reply) => if t in w.threads { AdvanceRace(w, t, reply); }
  }

  predicate AllHonest(w: World, steps: seq<Step>)
    decreases steps
  {
    steps != [] ==> Honest(w, steps[0]) && AllHonest(Next(w, steps[0]), steps[1..])
  }

  /** In every run from empty stores whose refreshes start with sessions loaded at some time. */
  lemma {:induction false} RunRace(w: World, steps: seq<Step>)
    requires RaceInv(w) || (w.s.sessions == map[] && w.s.created == map[] && w.locks == map[] && w.threads == map[])
    requires AllHonest(w, steps)
    ensures RaceInv(RefreshLock.Run(w, steps))
    decreases steps
  {
    if steps != [] {
      StepRace(w, steps[0]);
      RunRace(Next(w, steps[0]), steps[1..]);
    }
  }

  // ---------- Requests ----------

  /** Where a request of a service stands: tenantContext loads and touches the session, and a
      handler may call the API with it, once, and once more if the access token has run out. */
  datatype Stage =
    | Loaded(x: Session)
    | Touching(x: Session)
    | Serving(x: Session)
    | Called
    | Retried
    | Left

  /** Request `r` makes its call as thread 2r of `w`, and its retry as thread 2r + 1. `refused` holds
      the sessions whose tokens the authorization server no longer accepts, and `late` the threads
      that presented such a token after it was revoked. */
  datatype Scene = Scene(w: World, requests: map<nat, Stage>, refused: set<string>, late: set<nat>)

  /** `Ambient` is time passing, a login or a logout; touches and refreshes go by their own steps. */
  datatype Act =
    | Ambient(event: Event)
    | Arrive(request: nat, slug: string, cookie: string)
    | Move(request: nat)
    | Leave(request: nat)
    | Call(thread: nat, reply: Reply)
    | Refuse(sid: string)

  function Play(c: Scene, act: Act): Scene {
    match act
    case Ambient(e) => if e.Request? || e.Refreshed? then c else c.(w := OtherEvent(c.w, e))
    case Arrive(r, slug, cookie) =>
      if r in c.requests then c
      else
        var (loaded, x) := Load(c.w.s, slug, cookie);
        c.(w := c.w.(s := loaded), requests := c.requests[r := if x.Some? then Loaded(x.value) else Left])
    case Move(r) => if r in c.requests then MoveOn(c, r) else c
    case Leave(r) =>
      if r in c.requests && (c.requests[r].Serving? || MayRetry(c, r)) then c.(requests := c.requests[r := Left]) else c
    case Call(t, reply) => if t in c.w.threads then Goes(c, t, reply) else c
    case Refuse(sid) => c.(refused := c.refused + set key | key in c.w.s.created && c.w.s.created[key].sid == sid)
  }

  /** The first call has been answered with a session. */
  predicate MayRetry(c: Scene, r: nat) {
    && r in c.requests && c.requests[r] == Called && 2 * r in c.w.threads
    && c.w.threads[2 * r].Answered? && c.w.threads[2 * r].outcome.Fresh?
  }

  function Forced(x: Session): Session {
    x.(tokens := x.tokens.(accessExpiresAt := 0))
  }

  function MoveOn(c: Scene, r: nat): Scene
    requires r in c.requests
  {
    match c.requests[r]
    case Loaded(x) =>
      if !ShouldTouch(x.lastSeenAt, c.w.s.now) then c.(requests := c.requests[r := Serving(x)])
      else
        var latest := Get(c.w.s.sessions, KeyOf(x), c.w.s.now);
        c.(requests := c.requests[r := Touching(if latest.Some? then latest.value else x)])
    case Touching(x) =>
      var (saved, updated) := Save(c.w.s, x);
      c.(w := c.w.(s := saved), requests := c.requests[r := Serving(updated)])
    case Serving(x) => c.(w := Next(c.w, Start(2 * r, x)), requests := c.requests[r := Called])
    case Called =>
      if !MayRetry(c, r) then c
      else
        c.(w := Next(c.w, Start(2 * r + 1, Forced(c.w.threads[2 * r].outcome.session))),
           requests := c.requests[r := Retried])
    case _ => c
  }

  /** A call's own step. A token presented late is not answered with success. */
  function Goes(c: Scene, t: nat, reply: Reply): Scene
    requires t in c.w.threads
  {
    if c.w.threads[t].Await? && t in c.late && reply.Success? then c
    else
      c.(w := Advance(c.w, t, reply),
         late := if c.w.threads[t].Send? && KeyOf(c.w.threads[t].x) in c.refused then c.late + {t} else c.late)
  }

  function PlayAll(c: Scene, acts: seq<Act>): Scene
    decreases acts
  {
    if acts == [] then c else PlayAll(Play(c, acts[0]), acts[1..])
  }

  // ---------- What is true of them in every interleaving ----------

  /** The session a request has in hand. */
  function InHand(stage: Stage): Option<Session> {
    match stage
    case Loaded(x) => Some(x)
    case Touching(x) => Some(x)
    case Serving(x) => Some(x)
    case _ => None
  }

  predicate StageOk(c: Scene, r: nat)
    requires r in c.requests
  {
    var stage := c.requests[r];
    && (InHand(stage).Some? ==>
          SameSession(c.w.s, InHand(stage).value) && 2 * r !in c.w.threads && 2 * r + 1 !in c.w.threads)
    && (stage.Called? ==> 2 * r in c.w.threads && 2 * r + 1 !in c.w.threads)
  }

  /** A thread that presented a refused token is past presenting. */
  predicate LateOk(c: Scene, t: nat) {
    t in c.late ==>
      && t in c.w.threads
      && var pc := c.w.threads[t];
         !pc.TakeLock? && !pc.Reload? && !pc.Send? && (pc.Await? ==> KeyOf(pc.x) in c.refused)
  }

  ghost predicate SceneInv(c: Scene) {
    && RaceInv(c.w) && 0 <= c.w.s.now
    && (forall r :: r in c.requests ==> StageOk(c, r))
    && (forall t :: t in c.w.threads ==> t / 2 in c.requests)
    && (forall t :: LateOk(c, t))
  }

  /** Sessions changing under the requests, their threads as they are. */
  lemma WorldInv(c: Scene, w: World)
    requires SceneInv(c) && RaceInv(w) && Grows(c.w.s, w.s) && w.threads == c.w.threads
    ensures SceneInv(c.(w := w))
  {
    var v := c.(w := w);
    forall r | r in v.requests ensures StageOk(v, r) { assert StageOk(c, r); }
    forall t ensures LateOk(v, t) { assert LateOk(c, t); }
  }

  /** A request changing what it has in hand. */
  lemma InHandInv(c: Scene, r: nat, stage: Stage)
    requires SceneInv(c) && (r in c.requests ==> InHand(c.requests[r]).Some? || stage.Left?)
    requires !stage.Called? && !stage.Retried?
    requires InHand(stage).Some? ==> SameSession(c.w.s, InHand(stage).value)
    ensures SceneInv(c.(requests := c.requests[r := stage]))
  {
    var v := c.(requests := c.requests[r := stage]);
    forall k | k in v.requests ensures StageOk(v, k) {
      if k in c.requests { assert StageOk(c, k); }
    }
    forall t ensures LateOk(v, t) { assert LateOk(c, t); }
  }

  /** A request beginning a call. */
  lemma BeginCallInv(c: Scene, r: nat, t: nat, mine: Session, stage: Stage)
    requires SceneInv(c) && r in c.requests && SameSession(c.w.s, mine) && t !in c.w.threads
    requires (t == 2 * r && InHand(c.requests[r]).Some? && stage == Called)
             || (t == 2 * r + 1 && c.requests[r] == Called && stage == Retried)
    ensures SceneInv(c.(w := Next(c.w, Start(t, mine)), requests := c.requests[r := stage]))
  {
    var v := c.(w := Next(c.w, Start(t, mine)), requests := c.requests[r := stage]);
    StartRace(c.w, t, mine);
    forall k | k in v.requests ensures StageOk(v, k) { assert StageOk(c, k); }
    forall u ensures LateOk(v, u) { assert LateOk(c, u); }
  }

  lemma ArriveInv(c: Scene, r: nat, slug: string, cookie: string)
    requires SceneInv(c) && r !in c.requests
    ensures SceneInv(Play(c, Arrive(r, slug, cookie)))
  {
    var (loaded, x) := Load(c.w.s, slug, cookie);
    LoadLoses(c.w.s, slug, cookie);
    LoseRace(c.w, loaded);
    assert StoredOk(c.w.s, SessionKey(slug, cookie));
    WorldInv(c, c.w.(s := loaded));
    InHandInv(c.(w := c.w.(s := loaded)), r, if x.Some? then Loaded(x.value) else Left);
  }

  lemma TouchRace(w: World, x: Session)
    requires RaceInv(w) && SameSession(w.s, x)
    ensures RaceInv(w.(s := Save(w.s, x).0)) && Grows(w.s, Save(w.s, x).0)
  {
    var v := w.(s := Save(w.s, x).0);
    forall key ensures StoredOk(v.s, key) { assert StoredOk(w.s, key); }
    forall key ensures CreatedOk(v.s, key) { assert CreatedOk(w.s, key); }
    forall key ensures LockOk(v, key) { assert LockOk(w, key); }
    forall t | t in v.threads ensures PcOk(v.s, v.threads[t]) { assert PcOk(w.s, w.threads[t]); }
  }

  lemma MoveOnInv(c: Scene, r: nat)
    requires SceneInv(c) && r in c.requests
    ensures SceneInv(MoveOn(c, r))
  {
    assert StageOk(c, r);
    match c.requests[r]
    case Loaded(x) =>
      assert StoredOk(c.w.s, KeyOf(x));
      InHandInv(c, r, MoveOn(c, r).requests[r]);
    case Touching(x) =>
      TouchRace(c.w, x);
      WorldInv(c, c.w.(s := Save(c.w.s, x).0));
      InHandInv(c.(w := c.w.(s := Save(c.w.s, x).0)), r, Serving(Save(c.w.s, x).1));
    case Serving(x) => BeginCallInv(c, r, 2 * r, x, Called);
    case Called =>
      if MayRetry(c, r) {
        assert PcOk(c.w.s, c.w.threads[2 * r]);
        BeginCallInv(c, r, 2 * r + 1, Forced(c.w.threads[2 * r].outcome.session), Retried);
      }
    case _ =>
  }

  lemma GoesInv(c: Scene, t: nat, reply: Reply)
    requires SceneInv(c) && t in c.w.threads
    ensures SceneInv(Goes(c, t, reply))
  {
    var v := Goes(c, t, reply);
    AdvanceRace(c.w, t, reply);
    AdvanceShape(c.w, t, reply);
    forall r | r in v.requests ensures StageOk(v, r) { assert StageOk(c, r); }
    forall u ensures LateOk(v, u) { assert LateOk(c, u); }
  }

  /** A step of a call moves no other call, and no call goes back to presenting a token. */
  lemma AdvanceShape(w: World, t: nat, reply: Reply)
    requires t in w.threads
    ensures var v := Advance(w, t, reply);
            && v.threads.Keys == w.threads.Keys
            && (forall u :: u in w.threads && u != t ==> v.threads[u] == w.threads[u])
            && var before, after := w.threads[t], v.threads[t];
            && !after.TakeLock? && (after.Reload? ==> before.TakeLock?) && (after.Send? ==> before.Reload?)
            && (after.Await? ==> before == after || (before.Send? && before.x == after.x))
            && (after.Store? ==> before.Await? && reply.Success? && KeyOf(before.x) == KeyOf(after.x))
  {
    match w.threads[t]
    case Await(_, _) =>
    case Wait(_, _) =>
    case _ =>
  }

  lemma PlayInv(c: Scene, act: Act)
    requires SceneInv(c)
    ensures SceneInv(Play(c, act)) && Grows(c.w.s, Play(c, act).w.s)
  {
    match act
    case Ambient(e) =>
      OtherRace(c.w, e);
      if !e.Request? && !e.Refreshed? { WorldInv(c, OtherEvent(c.w, e)); }
    case Arrive(r, slug, cookie) =>
      LoadLoses(c.w.s, slug, cookie);
      if r !in c.requests { ArriveInv(c, r, slug, cookie); }
    case Move(r) =>
      if r in c.requests {
        MoveOnInv(c, r);
        MoveOnGrows(c, r);
      }
    case Leave(r) =>
      if r in c.requests && (c.requests[r].Serving? || MayRetry(c, r)) { InHandInv(c, r, Left); }
    case Call(t, reply) =>
      if t in c.w.threads {
        GoesInv(c, t, reply);
        AdvanceRace(c.w, t, reply);
      }
    case Refuse(_) =>
      var v := Play(c, act);
      forall r | r in v.requests ensures StageOk(v, r) { assert StageOk(c, r); }
      forall t ensures LateOk(v, t) { assert LateOk(c, t); }
  }

  lemma MoveOnGrows(c: Scene, r: nat)
    requires r in c.requests
    ensures Grows(c.w.s, MoveOn(c, r).w.s)
  {
  }

  /** From empty stores on, in every interleaving. */
  lemma {:induction false} RunScene(c: Scene, acts: seq<Act>)
    requires SceneInv(c)
             || (c.w.s.sessions == map[] && c.w.s.created == map[] && c.w.locks == map[] && c.w.threads == map[]
                 && c.requests == map[] && c.late == {} && 0 <= c.w.s.now)
    ensures SceneInv(PlayAll(c, acts))
    decreases acts
  {
    if acts != [] {
      PlayInv(c, acts[0]);
      RunScene(Play(c, acts[0]), acts[1..]);
    }
  }
}
