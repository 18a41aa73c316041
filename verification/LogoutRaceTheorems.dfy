/** When a logout is final although requests are in flight: exactly when none of them can still write
    the session. */
module LogoutRaceTheorems {
  import opened Timed
  import opened SessionExpiry
  import opened TenantSession
  import opened TenantSessionTheorems
  import opened RefreshLock
  import opened LogoutRace

  // ---------- Who can still write a session ----------

  /** A call that ends with the session, for a caller that may still retry with it. */
  predicate MayCallAgain(c: Scene, r: nat, key: string) {
    r in c.requests && c.requests[r] == Called && 2 * r in c.w.threads && Keeps(c.w.threads[2 * r], key)
  }

  /** A call that may still write the session. */
  predicate Calls(c: Scene, t: nat, key: string) {
    t in c.w.threads && Carries(c.w.threads[t], key)
  }

  predicate HasInHand(c: Scene, r: nat, key: string) {
    r in c.requests && InHand(c.requests[r]).Some? && KeyOf(InHand(c.requests[r]).value) == key
  }

  /** The request is about to save the session, or will once a touch is due. */
  predicate WillTouch(c: Scene, r: nat) {
    r in c.requests
    && match c.requests[r]
       case Loaded(x) => x.lastSeenAt + TOUCH_INTERVAL_SECONDS < x.createdAt + SESSION_ABSOLUTE_SECONDS
       case Touching(_) => true
       case _ => false
  }

  /** The call has new tokens to save, or presented its token before the server refused it. */
  predicate WillSave(c: Scene, t: nat) {
    t in c.w.threads && (c.w.threads[t].Store? || (c.w.threads[t].Await? && t !in c.late))
  }

  /** Somebody saves the session without needing the server's consent any more. */
  ghost predicate Saving(c: Scene, key: string) {
    || (exists r :: HasInHand(c, r, key) && WillTouch(c, r))
    || (exists t :: Calls(c, t, key) && WillSave(c, t))
  }

  /** Somebody has the session in hand, in a call, or for a retry. */
  ghost predicate Working(c: Scene, key: string) {
    || (exists r :: HasInHand(c, r, key) || MayCallAgain(c, r, key))
    || (exists t :: Calls(c, t, key))
  }

  /** Some request can still write the session. A session whose tokens the server refuses is only
      written by those who need nothing more from the server. */
  ghost predicate InFlightFor(c: Scene, key: string) {
    Saving(c, key) || (key !in c.refused && Working(c, key))
  }

  // ---------- Ended for good, as long as nobody can write the session ----------

  /** A step of a call brings no session back, unless it stores one. */
  lemma AdvanceEnded(w: World, t: nat, reply: Reply, key: string)
    requires RaceInv(w) && t in w.threads && Ended(w.s, key) && !(w.threads[t].Store? && Carries(w.threads[t], key))
    ensures Ended(Advance(w, t, reply).s, key)
  {
    match w.threads[t]
    case Reload(mine, _) => LoadLoses(w.s, mine.tenantSlug, mine.id);
    case Await(x, since) => ReceiveTakesUp(w, t, x, since, reply, key);
    case Wait(mine, attempt) => LookTakesUp(w, t, mine, attempt, key);
    case _ =>
  }

  /** A call takes up no session that has ended. */
  lemma AdvanceTakesUp(w: World, t: nat, reply: Reply, key: string)
    requires RaceInv(w) && t in w.threads && Ended(w.s, key)
    ensures var v := Advance(w, t, reply);
            && t in v.threads
            && (Carries(v.threads[t], key) ==> Carries(w.threads[t], key))
            && (Keeps(v.threads[t], key) ==> Carries(w.threads[t], key) || Keeps(w.threads[t], key))
  {
    match w.threads[t]
    case Reload(mine, _) => assert StoredOk(w.s, SessionKey(mine.tenantSlug, mine.id));
    case Await(x, since) => ReceiveTakesUp(w, t, x, since, reply, key);
    case Wait(mine, attempt) =>
      assert StoredOk(w.s, SessionKey(mine.tenantSlug, mine.id));
      LookTakesUp(w, t, mine, attempt, key);
    case _ =>
  }

  lemma ReceiveTakesUp(w: World, t: nat, x: Session, since: int, reply: Reply, key: string)
    requires t in w.threads && w.threads[t] == Await(x, since)
    ensures var v := Receive(w, t, x, since, reply);
            && v.s == w.s && t in v.threads
            && (Carries(v.threads[t], key) || Keeps(v.threads[t], key) ==> KeyOf(x) == key)
  {
  }

  lemma LookTakesUp(w: World, t: nat, mine: Session, attempt: nat, key: string)
    requires Ended(w.s, key)
    ensures var v := LookAgain(w, t, mine, attempt);
            && Ended(v.s, key) && t in v.threads && !Carries(v.threads[t], key)
            && (StoredOk(w.s, SessionKey(mine.tenantSlug, mine.id)) ==> !Keeps(v.threads[t], key))
  {
    LoadLoses(w.s, mine.tenantSlug, mine.id);
  }

  /** Nobody takes the session up who did not have it. */
  lemma WorkingStays(c: Scene, act: Act, key: string)
    requires SceneInv(c) && key in c.w.s.created && Ended(c.w.s, key)
    ensures Working(Play(c, act), key) ==> Working(c, key)
  {
    var v := Play(c, act);
    match act
    case Ambient(e) => SameRequests(c, v, key);
    case Arrive(r, slug, cookie) => ArriveWorks(c, r, slug, cookie, key);
    case Move(r) => if r in c.requests { MoveWorks(c, r, key); }
    case Leave(r) => LeaveWorks(c, r, key);
    case Call(t, reply) => if t in c.w.threads { CallWorks(c, t, reply, key); }
    case Refuse(_) => SameRequests(c, v, key);
  }

  lemma SameRequests(c: Scene, v: Scene, key: string)
    requires v.requests == c.requests && v.w.threads == c.w.threads
    ensures Working(v, key) ==> Working(c, key)
  {
    if r: nat :| HasInHand(v, r, key) || MayCallAgain(v, r, key) {
      assert HasInHand(c, r, key) || MayCallAgain(c, r, key);
    }
    if t: nat :| Calls(v, t, key) {
      assert Calls(c, t, key);
    }
  }

  lemma ArriveWorks(c: Scene, r: nat, slug: string, cookie: string, key: string)
    requires SceneInv(c) && Ended(c.w.s, key)
    ensures Working(Play(c, Arrive(r, slug, cookie)), key) ==> Working(c, key)
  {
    var v := Play(c, Arrive(r, slug, cookie));
    assert StoredOk(c.w.s, SessionKey(slug, cookie));
    if k: nat :| HasInHand(v, k, key) || MayCallAgain(v, k, key) {
      assert HasInHand(c, k, key) || MayCallAgain(c, k, key);
    }
    if t: nat :| Calls(v, t, key) {
      assert Calls(c, t, key);
    }
  }

  lemma LeaveWorks(c: Scene, r: nat, key: string)
    ensures Working(Play(c, Leave(r)), key) ==> Working(c, key)
  {
    var v := Play(c, Leave(r));
    if k: nat :| HasInHand(v, k, key) || MayCallAgain(v, k, key) {
      assert HasInHand(c, k, key) || MayCallAgain(c, k, key);
    }
    if t: nat :| Calls(v, t, key) {
      assert Calls(c, t, key);
    }
  }

  lemma MoveWorks(c: Scene, r: nat, key: string)
    requires SceneInv(c) && r in c.requests
    ensures Working(MoveOn(c, r), key) ==> Working(c, key)
  {
    var v := MoveOn(c, r);
    MoveKeepsKey(c, r, key);
    if k: nat :| HasInHand(v, k, key) || MayCallAgain(v, k, key) {
      assert HasInHand(c, k, key) || MayCallAgain(c, k, key) || HasInHand(c, r, key) || MayCallAgain(c, r, key);
    }
    if t: nat :| Calls(v, t, key) {
      assert Calls(c, t, key) || HasInHand(c, r, key) || MayCallAgain(c, r, key);
    }
  }

  /** What a request does, it does with the session it had. */
  lemma MoveKeepsKey(c: Scene, r: nat, key: string)
    requires SceneInv(c) && r in c.requests
    ensures var v := MoveOn(c, r);
            && (forall k :: k in v.requests && k != r ==> k in c.requests && v.requests[k] == c.requests[k])
            && (HasInHand(v, r, key) || MayCallAgain(v, r, key) ==> HasInHand(c, r, key) || MayCallAgain(c, r, key))
            && (forall t :: t in v.w.threads ==>
                  || (t in c.w.threads && v.w.threads[t] == c.w.threads[t])
                  || (t / 2 == r && (Carries(v.w.threads[t], key) ==> HasInHand(c, r, key) || MayCallAgain(c, r, key))))
  {
    assert StageOk(c, r);
    if c.requests[r].Loaded? { assert StoredOk(c.w.s, KeyOf(c.requests[r].x)); }
  }

  lemma CallWorks(c: Scene, t: nat, reply: Reply, key: string)
    requires SceneInv(c) && t in c.w.threads && Ended(c.w.s, key)
    ensures Working(Goes(c, t, reply), key) ==> Working(c, key)
  {
    var v := Goes(c, t, reply);
    AdvanceTakesUp(c.w, t, reply, key);
    AdvanceShape(c.w, t, reply);
    if k: nat :| HasInHand(v, k, key) || MayCallAgain(v, k, key) {
      CallAgainWorks(c, t, reply, k, key);
    }
    if u: nat :| Calls(v, u, key) {
      assert Calls(c, u, key);
    }
  }

  lemma CallAgainWorks(c: Scene, t: nat, reply: Reply, k: nat, key: string)
    requires SceneInv(c) && t in c.w.threads && Ended(c.w.s, key)
    requires HasInHand(Goes(c, t, reply), k, key) || MayCallAgain(Goes(c, t, reply), k, key)
    ensures Working(c, key)
  {
    AdvanceTakesUp(c.w, t, reply, key);
    AdvanceShape(c.w, t, reply);
    if HasInHand(c, k, key) || MayCallAgain(c, k, key) {
    } else {
      assert Calls(c, t, key);
    }
  }

  /** Once the server refuses the session's tokens, nobody comes to save it who was not about to. */
  lemma SavingStays(c: Scene, act: Act, key: string)
    requires SceneInv(c) && key in c.w.s.created && Ended(c.w.s, key)
    requires key in c.refused && c.w.s.now < Limit(c.w.s, key)
    ensures Saving(Play(c, act), key) ==> Saving(c, key)
  {
    var v := Play(c, act);
    match act
    case Ambient(_) => SameSaving(c, v, key);
    case Arrive(r, slug, cookie) => ArriveSaves(c, r, slug, cookie, key);
    case Move(r) => if r in c.requests { MoveSaves(c, r, key); }
    case Leave(r) => LeaveSaves(c, r, key);
    case Call(t, reply) => if t in c.w.threads { CallSaves(c, t, reply, key); }
    case Refuse(_) => SameSaving(c, v, key);
  }

  lemma SameSaving(c: Scene, v: Scene, key: string)
    requires v.requests == c.requests && v.w.threads == c.w.threads && v.late == c.late
    ensures Saving(v, key) ==> Saving(c, key)
  {
    if r: nat :| HasInHand(v, r, key) && WillTouch(v, r) {
      assert HasInHand(c, r, key) && WillTouch(c, r);
    }
    if t: nat :| Calls(v, t, key) && WillSave(v, t) {
      assert Calls(c, t, key) && WillSave(c, t);
    }
  }

  lemma ArriveSaves(c: Scene, r: nat, slug: string, cookie: string, key: string)
    requires SceneInv(c) && Ended(c.w.s, key)
    ensures Saving(Play(c, Arrive(r, slug, cookie)), key) ==> Saving(c, key)
  {
    var v := Play(c, Arrive(r, slug, cookie));
    assert StoredOk(c.w.s, SessionKey(slug, cookie));
    if k: nat :| HasInHand(v, k, key) && WillTouch(v, k) {
      assert HasInHand(c, k, key) && WillTouch(c, k);
    }
    if t: nat :| Calls(v, t, key) && WillSave(v, t) {
      assert Calls(c, t, key) && WillSave(c, t);
    }
  }

  lemma LeaveSaves(c: Scene, r: nat, key: string)
    ensures Saving(Play(c, Leave(r)), key) ==> Saving(c, key)
  {
    var v := Play(c, Leave(r));
    if k: nat :| HasInHand(v, k, key) && WillTouch(v, k) {
      assert HasInHand(c, k, key) && WillTouch(c, k);
    }
    if t: nat :| Calls(v, t, key) && WillSave(v, t) {
      assert Calls(c, t, key) && WillSave(c, t);
    }
  }

  lemma MoveSaves(c: Scene, r: nat, key: string)
    requires SceneInv(c) && r in c.requests && key in c.w.s.created && c.w.s.now < Limit(c.w.s, key)
    ensures Saving(MoveOn(c, r), key) ==> Saving(c, key)
  {
    var v := MoveOn(c, r);
    MoveBegins(c, r);
    if k: nat :| HasInHand(v, k, key) && WillTouch(v, k) {
      MoveTouches(c, r, k, key);
    }
    if t: nat :| Calls(v, t, key) && WillSave(v, t) {
      assert Calls(c, t, key) && WillSave(c, t);
    }
  }

  lemma MoveTouches(c: Scene, r: nat, k: nat, key: string)
    requires SceneInv(c) && r in c.requests && key in c.w.s.created && c.w.s.now < Limit(c.w.s, key)
    requires HasInHand(MoveOn(c, r), k, key) && WillTouch(MoveOn(c, r), k)
    ensures HasInHand(c, k, key) && WillTouch(c, k)
  {
    assert StageOk(c, r);
    if c.requests[r].Loaded? { assert StoredOk(c.w.s, KeyOf(c.requests[r].x)); }
  }

  /** A request moving on leaves the calls under way alone, and the one it begins has yet to present a token. */
  lemma MoveBegins(c: Scene, r: nat)
    requires r in c.requests
    ensures var v := MoveOn(c, r);
            && v.late == c.late
            && forall t: nat :: t in v.w.threads ==>
                 v.w.threads[t].TakeLock? || v.w.threads[t].Answered?
                 || (t in c.w.threads && v.w.threads[t] == c.w.threads[t])
  {
  }

  lemma CallSaves(c: Scene, t: nat, reply: Reply, key: string)
    requires SceneInv(c) && t in c.w.threads && Ended(c.w.s, key) && key in c.refused
    ensures Saving(Goes(c, t, reply), key) ==> Saving(c, key)
  {
    var v := Goes(c, t, reply);
    AdvanceTakesUp(c.w, t, reply, key);
    AdvanceShape(c.w, t, reply);
    if k: nat :| HasInHand(v, k, key) && WillTouch(v, k) {
      assert HasInHand(c, k, key) && WillTouch(c, k);
    }
    if u: nat :| Calls(v, u, key) && WillSave(v, u) {
      assert Calls(c, u, key) && WillSave(c, u);
    }
  }

  /** A session that has ended comes back only by being saved. */
  lemma EndedStays(c: Scene, act: Act, key: string)
    requires SceneInv(c) && key in c.w.s.created && Ended(c.w.s, key) && !Saving(c, key)
    ensures Ended(Play(c, act).w.s, key)
  {
    match act
    case Ambient(e) => if !e.Refreshed? { EventKey(c.w.s, e, key); }
    case Arrive(_, slug, cookie) => LoadLoses(c.w.s, slug, cookie);
    case Move(r) =>
      if r in c.requests && c.requests[r].Touching? { assert !HasInHand(c, r, key) || !WillTouch(c, r); }
    case Call(t, reply) =>
      if t in c.w.threads {
        assert !Calls(c, t, key) || !WillSave(c, t);
        AdvanceEnded(c.w, t, reply, key);
      }
    case _ =>
  }

  lemma SavingWorks(c: Scene, key: string)
    ensures Saving(c, key) ==> Working(c, key)
  {
  }

  lemma StepNoReturn(c: Scene, act: Act, key: string)
    requires SceneInv(c) && key in c.w.s.created && Ended(c.w.s, key) && !InFlightFor(c, key)
    requires c.w.s.now < Limit(c.w.s, key)
    ensures Ended(Play(c, act).w.s, key) && !InFlightFor(Play(c, act), key)
  {
    EndedStays(c, act, key);
    if key in c.refused {
      SavingStays(c, act, key);
      assert key in Play(c, act).refused by { RefusedStays(c, act); }
    } else {
      WorkingStays(c, act, key);
      SavingWorks(Play(c, act), key);
    }
  }

  lemma RefusedStays(c: Scene, act: Act)
    ensures c.refused <= Play(c, act).refused
  {
  }

  /** A session nobody can write any more, or past its absolute limit, never comes back. */
  lemma {:induction false} NeverReturns(c: Scene, acts: seq<Act>, key: string)
    requires SceneInv(c) && key in c.w.s.created && Ended(c.w.s, key)
    requires !InFlightFor(c, key) || Limit(c.w.s, key) <= c.w.s.now
    ensures Ended(PlayAll(c, acts).w.s, key)
    decreases acts
  {
    if acts != [] {
      var v := Play(c, acts[0]);
      PlayInv(c, acts[0]);
      if c.w.s.now < Limit(c.w.s, key) {
        StepNoReturn(c, acts[0], key);
      } else {
        assert StoredOk(v.w.s, key);
      }
      NeverReturns(v, acts[1..], key);
    }
  }

  // ---------- Whoever can write it can bring it back ----------

  ghost predicate Returns(c: Scene, key: string) {
    exists acts :: !Ended(PlayAll(c, acts).w.s, key)
  }

  lemma ReturnsNow(c: Scene, key: string)
    requires !Ended(c.w.s, key)
    ensures Returns(c, key)
  {
    assert PlayAll(c, []) == c;
  }

  lemma ReturnsAfter(c: Scene, act: Act, key: string)
    requires Returns(Play(c, act), key)
    ensures Returns(c, key)
  {
    var acts :| !Ended(PlayAll(Play(c, act), acts).w.s, key);
    var all := [act] + acts;
    assert all[1..] == acts && PlayAll(c, all) == PlayAll(Play(c, act), acts);
  }

  /** There is always a token not issued yet. */
  ghost function NewToken(used: set<string>): (token: string)
    ensures forall u :: u in used ==> |u| < |token|
  {
    if used == {} then "a"
    else
      var u :| u in used;
      NewToken(used - {u}) + u + "a"
  }

  /** Before the session's absolute limit. */
  predicate InTime(c: Scene, key: string) {
    key in c.w.s.created && c.w.s.now < Limit(c.w.s, key)
  }

  lemma CallInv(c: Scene, t: nat, reply: Reply, key: string)
    requires SceneInv(c) && t in c.w.threads && InTime(c, key)
    ensures SceneInv(Play(c, Call(t, reply))) && InTime(Play(c, Call(t, reply)), key)
    ensures Play(c, Call(t, reply)).refused == c.refused
  {
    PlayInv(c, Call(t, reply));
    AdvanceNow(c.w, t, reply);
  }

  /** Calls take no time of their own. */
  lemma AdvanceNow(w: World, t: nat, reply: Reply)
    requires t in w.threads
    ensures Advance(w, t, reply).s.now == w.s.now
  {
    match w.threads[t]
    case Reload(mine, _) => LoadLoses(w.s, mine.tenantSlug, mine.id);
    case Wait(mine, _) => LoadLoses(w.s, mine.tenantSlug, mine.id);
    case _ =>
  }

  lemma StoreReturns(c: Scene, t: nat, key: string)
    requires SceneInv(c) && Calls(c, t, key) && InTime(c, key) && c.w.threads[t].Store?
    ensures Returns(c, key)
  {
    assert PcOk(c.w.s, c.w.threads[t]);
    ReturnsNow(Play(c, Call(t, Failure)), key);
    ReturnsAfter(c, Call(t, Failure), key);
  }

  lemma AwaitReturns(c: Scene, t: nat, key: string)
    requires SceneInv(c) && Calls(c, t, key) && InTime(c, key) && c.w.threads[t].Await? && t !in c.late
    ensures Returns(c, key)
  {
    var reply := Success("", 0, NewToken(c.w.issued.Keys));
    CallInv(c, t, reply, key);
    StoreReturns(Play(c, Call(t, reply)), t, key);
    ReturnsAfter(c, Call(t, reply), key);
  }

  lemma SendReturns(c: Scene, t: nat, key: string)
    requires SceneInv(c) && Calls(c, t, key) && InTime(c, key) && c.w.threads[t].Send? && key !in c.refused
    ensures Returns(c, key)
  {
    assert LateOk(c, t);
    CallInv(c, t, Failure, key);
    AwaitReturns(Play(c, Call(t, Failure)), t, key);
    ReturnsAfter(c, Call(t, Failure), key);
  }

  lemma ReloadReturns(c: Scene, t: nat, key: string)
    requires SceneInv(c) && Calls(c, t, key) && InTime(c, key) && c.w.threads[t].Reload? && key !in c.refused
    ensures Returns(c, key)
  {
    if !Ended(c.w.s, key) {
      ReturnsNow(c, key);
    } else {
      assert PcOk(c.w.s, c.w.threads[t]);
      CallInv(c, t, Failure, key);
      SendReturns(Play(c, Call(t, Failure)), t, key);
      ReturnsAfter(c, Call(t, Failure), key);
    }
  }

  lemma HolderReturns(c: Scene, t: nat, key: string)
    requires SceneInv(c) && Calls(c, t, key) && InTime(c, key) && !c.w.threads[t].TakeLock? && key !in c.refused
    ensures Returns(c, key)
  {
    assert LateOk(c, t);
    match c.w.threads[t]
    case Reload(_, _) => ReloadReturns(c, t, key);
    case Send(_, _) => SendReturns(c, t, key);
    case Await(_, _) => AwaitReturns(c, t, key);
    case Store(_, _) => StoreReturns(c, t, key);
  }

  lemma FreeLockReturns(c: Scene, t: nat, key: string)
    requires SceneInv(c) && Calls(c, t, key) && InTime(c, key) && c.w.threads[t].TakeLock? && key !in c.refused
    requires !Live(c.w.locks, key, c.w.s.now)
    ensures Returns(c, key)
  {
    CallInv(c, t, Failure, key);
    ReloadReturns(Play(c, Call(t, Failure)), t, key);
    ReturnsAfter(c, Call(t, Failure), key);
  }

  /** A holder with nothing to write gives the lock up first. */
  lemma UnlockReturns(c: Scene, t: nat, u: nat, key: string)
    requires SceneInv(c) && Calls(c, t, key) && InTime(c, key) && c.w.threads[t].TakeLock? && key !in c.refused
    requires u in c.w.threads && Holds(c.w.threads[u], key) && c.w.threads[u].Unlock?
    ensures Returns(c, key)
  {
    CallInv(c, u, Failure, key);
    FreeLockReturns(Play(c, Call(u, Failure)), t, key);
    ReturnsAfter(c, Call(u, Failure), key);
  }

  lemma DropReturns(c: Scene, t: nat, u: nat, key: string)
    requires SceneInv(c) && Calls(c, t, key) && InTime(c, key) && c.w.threads[t].TakeLock? && key !in c.refused
    requires u in c.w.threads && Holds(c.w.threads[u], key) && c.w.threads[u].Drop?
    ensures Returns(c, key)
  {
    CallInv(c, u, Failure, key);
    UnlockReturns(Play(c, Call(u, Failure)), t, u, key);
    ReturnsAfter(c, Call(u, Failure), key);
  }

  lemma CallerReturns(c: Scene, t: nat, key: string)
    requires SceneInv(c) && Calls(c, t, key) && InTime(c, key) && key !in c.refused
    ensures Returns(c, key)
  {
    if !c.w.threads[t].TakeLock? {
      HolderReturns(c, t, key);
    } else if !Live(c.w.locks, key, c.w.s.now) {
      FreeLockReturns(c, t, key);
    } else {
      assert LockOk(c.w, key);
      var u: nat :| u in c.w.threads && Holds(c.w.threads[u], key);
      match c.w.threads[u]
      case Unlock(_, _, _) => UnlockReturns(c, t, u, key);
      case Drop(_, _) => DropReturns(c, t, u, key);
      case _ => HolderReturns(c, u, key);
    }
  }

  /** The access token has run out by the time the API looks at it, and the call is made again. */
  lemma RetryReturns(c: Scene, r: nat, key: string)
    requires SceneInv(c) && InTime(c, key) && key !in c.refused && MayCallAgain(c, r, key)
    requires c.w.threads[2 * r].Answered?
    ensures Returns(c, key)
  {
    assert StageOk(c, r) && PcOk(c.w.s, c.w.threads[2 * r]);
    PlayInv(c, Move(r));
    CallerReturns(Play(c, Move(r)), 2 * r + 1, key);
    ReturnsAfter(c, Move(r), key);
  }

  lemma CallAgainReturns(c: Scene, r: nat, key: string)
    requires SceneInv(c) && InTime(c, key) && key !in c.refused && MayCallAgain(c, r, key)
    ensures Returns(c, key)
  {
    if c.w.threads[2 * r].Answered? {
      RetryReturns(c, r, key);
    } else {
      CallInv(c, 2 * r, Failure, key);
      RetryReturns(Play(c, Call(2 * r, Failure)), r, key);
      ReturnsAfter(c, Call(2 * r, Failure), key);
    }
  }

  lemma ServingReturns(c: Scene, r: nat, key: string)
    requires SceneInv(c) && InTime(c, key) && key !in c.refused && HasInHand(c, r, key) && c.requests[r].Serving?
    ensures Returns(c, key)
  {
    assert StageOk(c, r);
    var v := Play(c, Move(r));
    PlayInv(c, Move(r));
    if v.w.threads[2 * r].TakeLock? {
      CallerReturns(v, 2 * r, key);
    } else {
      CallAgainReturns(v, r, key);
    }
    ReturnsAfter(c, Move(r), key);
  }

  lemma TouchingReturns(c: Scene, r: nat, key: string)
    requires SceneInv(c) && InTime(c, key) && HasInHand(c, r, key) && c.requests[r].Touching?
    ensures Returns(c, key)
  {
    assert StageOk(c, r);
    ReturnsNow(Play(c, Move(r)), key);
    ReturnsAfter(c, Move(r), key);
  }

  lemma DueTouchReturns(c: Scene, r: nat, key: string)
    requires SceneInv(c) && InTime(c, key) && HasInHand(c, r, key) && c.requests[r].Loaded?
    requires ShouldTouch(c.requests[r].x.lastSeenAt, c.w.s.now)
    ensures Returns(c, key)
  {
    PlayInv(c, Move(r));
    assert StoredOk(c.w.s, key);
    TouchingReturns(Play(c, Move(r)), r, key);
    ReturnsAfter(c, Move(r), key);
  }

  /** A request can be slow between loading its session and touching it. */
  lemma TouchReturns(c: Scene, r: nat, key: string)
    requires SceneInv(c) && InTime(c, key) && HasInHand(c, r, key) && WillTouch(c, r)
    ensures Returns(c, key)
  {
    assert StageOk(c, r);
    if c.requests[r].Touching? {
      TouchingReturns(c, r, key);
    } else if ShouldTouch(c.requests[r].x.lastSeenAt, c.w.s.now) {
      DueTouchReturns(c, r, key);
    } else {
      var tick := Ambient(Tick(c.requests[r].x.lastSeenAt + TOUCH_INTERVAL_SECONDS - c.w.s.now));
      PlayInv(c, tick);
      DueTouchReturns(Play(c, tick), r, key);
      ReturnsAfter(c, tick, key);
    }
  }

  lemma InHandReturns(c: Scene, r: nat, key: string)
    requires SceneInv(c) && InTime(c, key) && key !in c.refused && HasInHand(c, r, key)
    ensures Returns(c, key)
  {
    assert StageOk(c, r);
    if WillTouch(c, r) {
      TouchReturns(c, r, key);
    } else if c.requests[r].Serving? {
      ServingReturns(c, r, key);
    } else {
      PlayInv(c, Move(r));
      ServingReturns(Play(c, Move(r)), r, key);
      ReturnsAfter(c, Move(r), key);
    }
  }

  lemma SaverReturns(c: Scene, key: string)
    requires SceneInv(c) && InTime(c, key) && Saving(c, key)
    ensures Returns(c, key)
  {
    if r: nat :| HasInHand(c, r, key) && WillTouch(c, r) {
      TouchReturns(c, r, key);
    } else {
      var t: nat :| Calls(c, t, key) && WillSave(c, t);
      if c.w.threads[t].Store? { StoreReturns(c, t, key); } else { AwaitReturns(c, t, key); }
    }
  }

  lemma WorkerReturns(c: Scene, key: string)
    requires SceneInv(c) && InTime(c, key) && key !in c.refused && Working(c, key)
    ensures Returns(c, key)
  {
    if r: nat :| HasInHand(c, r, key) || MayCallAgain(c, r, key) {
      if HasInHand(c, r, key) { InHandReturns(c, r, key); } else { CallAgainReturns(c, r, key); }
    } else {
      var t: nat :| Calls(c, t, key);
      CallerReturns(c, t, key);
    }
  }

  // ---------- When a logout is final ----------

  /** In any interleaving a session that has ended can come back exactly when some request can still
      write it, and its absolute limit is not reached. */
  lemma ReturnsIff(c: Scene, key: string)
    requires SceneInv(c) && key in c.w.s.created && Ended(c.w.s, key)
    ensures Returns(c, key) <==> InFlightFor(c, key) && c.w.s.now < Limit(c.w.s, key)
  {
    if InFlightFor(c, key) && c.w.s.now < Limit(c.w.s, key) {
      if Saving(c, key) { SaverReturns(c, key); } else { WorkerReturns(c, key); }
    } else {
      forall acts ensures Ended(PlayAll(c, acts).w.s, key) {
        NeverReturns(c, acts, key);
      }
    }
  }

  /** A Back-Channel Logout ends every session listed under the sid; each of them is gone for good
      exactly when no request can still write it. */
  lemma LogoutFinalIff(c: Scene, sid: string, key: string)
    requires SceneInv(c) && InTime(c, key) && c.w.s.created[key].sid == sid
    requires Ended(c.w.s, key) || key in Members(c.w.s.sessionsBySid, SidKey(sid), c.w.s.now)
    ensures var v := Play(c, Ambient(BackchannelLogout(sid)));
            Ended(v.w.s, key) && (!Returns(v, key) <==> !InFlightFor(c, key))
  {
    var v := Play(c, Ambient(BackchannelLogout(sid)));
    PlayInv(c, Ambient(BackchannelLogout(sid)));
    assert StoredOk(c.w.s, key);
    SameInFlight(c, v, key);
    ReturnsIff(v, key);
  }

  /** The authorization server ends its own session first, and refuses the tokens issued in it from then
      on: whatever happens until it notifies the service, its logout is final for a session of the service
      exactly when nobody is about to save that. */
  lemma GlobalLogoutFinalIff(c: Scene, sid: string, acts: seq<Act>, key: string)
    requires SceneInv(c) && key in c.w.s.created && c.w.s.created[key].sid == sid
    requires var u := PlayAll(Play(c, Refuse(sid)), acts);
             InTime(u, key) && (Ended(u.w.s, key) || key in Members(u.w.s.sessionsBySid, SidKey(sid), u.w.s.now))
    ensures var u := PlayAll(Play(c, Refuse(sid)), acts);
            var v := Play(u, Ambient(BackchannelLogout(sid)));
            Ended(v.w.s, key) && (!Returns(v, key) <==> !Saving(u, key))
  {
    PlayInv(c, Refuse(sid));
    RefusedForGood(Play(c, Refuse(sid)), acts, key);
    LogoutFinalIff(PlayAll(Play(c, Refuse(sid)), acts), sid, key);
  }

  lemma {:induction false} RefusedForGood(c: Scene, acts: seq<Act>, key: string)
    requires SceneInv(c) && key in c.refused
    ensures SceneInv(PlayAll(c, acts)) && Grows(c.w.s, PlayAll(c, acts).w.s) && key in PlayAll(c, acts).refused
    decreases acts
  {
    if acts != [] {
      PlayInv(c, acts[0]);
      RefusedStays(c, acts[0]);
      RefusedForGood(Play(c, acts[0]), acts[1..], key);
    }
  }

  lemma SameInFlight(c: Scene, v: Scene, key: string)
    requires v.requests == c.requests && v.w.threads == c.w.threads && v.late == c.late && v.refused == c.refused
    ensures InFlightFor(v, key) <==> InFlightFor(c, key)
  {
    SameSaving(c, v, key);
    SameSaving(v, c, key);
    SameRequests(c, v, key);
    SameRequests(v, c, key);
  }

  /** The session a refresh saves after the logout is alive, missing from the index, and survives
      the same logout again. */
  lemma SavedAfterLogoutSurvives(w: World, t: nat, x: Session, since: int, reply: Reply)
    requires RaceInv(w) && t in w.threads && w.threads[t] == Store(x, since) && w.s.now < Limit(w.s, KeyOf(x))
    ensures var v := Next(Next(w, Other(BackchannelLogout(x.sid))), Go(t, reply));
            && !Ended(v.s, KeyOf(x))
            && KeyOf(x) !in Members(v.s.sessionsBySid, SidKey(x.sid), v.s.now)
            && !Ended(Next(v, Other(BackchannelLogout(x.sid))).s, KeyOf(x))
  {
    assert PcOk(w.s, w.threads[t]);
  }

  // ---------- A touch and a refresh at the same time ----------

  /** A touch that is due reads the stored version, if there is one, and then saves just that. What it
      does to the tokens stored when it saves: it keeps them exactly when they are the ones it read. */
  lemma TouchKeepsTokensIff(c: Scene, r: nat, key: string)
    requires SceneInv(c) && HasInHand(c, r, key) && Live(c.w.s.sessions, key, c.w.s.now)
    ensures var v := Play(c, Move(r));
            var stored := c.w.s.sessions[key].value;
            && key in v.w.s.sessions
            && (c.requests[r].Loaded? && c.requests[r].x.lastSeenAt + 60 <= c.w.s.now ==>
                  v.requests[r] == Touching(stored) && v.w == c.w)
            && (c.requests[r].Loaded? && c.requests[r].x.lastSeenAt + 60 > c.w.s.now ==>
                  v.requests[r] == Serving(c.requests[r].x) && v.w == c.w)
            && (c.requests[r].Touching? ==>
                  && v.w.s.sessions[key].value == c.requests[r].x.(lastSeenAt := c.w.s.now)
                  && (v.w.s.sessions[key].value.tokens == stored.tokens <==> c.requests[r].x.tokens == stored.tokens))
  {
    assert StageOk(c, r) && StoredOk(c.w.s, key);
  }

  /** Some continuation presents a token that was exchanged before. */
  ghost predicate Replays(c: Scene, token: string) {
    exists acts :: token in PlayAll(c, acts).w.replays
  }

  lemma ReplaysAfter(c: Scene, act: Act, token: string)
    requires Replays(Play(c, act), token)
    ensures Replays(c, token)
  {
    var acts :| token in PlayAll(Play(c, act), acts).w.replays;
    var all := [act] + acts;
    assert all[1..] == acts && PlayAll(c, all) == PlayAll(Play(c, act), acts);
  }

  lemma SendReplays(c: Scene, t: nat, token: string)
    requires t in c.w.threads && c.w.threads[t].Send? && c.w.threads[t].x.tokens.refresh == token
    requires token in c.w.answered
    ensures Replays(c, token)
  {
    var v := Play(c, Call(t, Failure));
    assert PlayAll(v, []) == v;
    ReplaysAfter(c, Call(t, Failure), token);
  }

  /** A request that finds a session whose token was exchanged before, due and its lock free. */
  lemma CallReplays(c: Scene, r: nat, x: Session)
    requires SceneInv(c) && r in c.requests && c.requests[r] == Serving(x) && x.id != ""
    requires Live(c.w.s.sessions, KeyOf(x), c.w.s.now) && c.w.s.sessions[KeyOf(x)].value == x
    requires !Expired(x, c.w.s.now) && NeedsRefresh(x, c.w.s.now) && !Live(c.w.locks, KeyOf(x), c.w.s.now)
    requires x.tokens.refresh in c.w.answered
    ensures Replays(c, x.tokens.refresh)
  {
    var t := 2 * r;
    assert StageOk(c, r);
    var c1 := Play(c, Move(r));
    assert c1.w.threads[t] == TakeLock(x);
    var c2 := Play(c1, Call(t, Failure));
    assert c2.w.threads[t] == Reload(x, c.w.s.now);
    var c3 := Play(c2, Call(t, Failure));
    assert c3.w.threads[t] == Send(x, c.w.s.now);
    SendReplays(c3, t, x.tokens.refresh);
    ReplaysAfter(c2, Call(t, Failure), x.tokens.refresh);
    ReplaysAfter(c1, Call(t, Failure), x.tokens.refresh);
    ReplaysAfter(c, Move(r), x.tokens.refresh);
  }

  lemma ArrivalReplays(c: Scene, r: nat, x: Session)
    requires SceneInv(c) && r !in c.requests && x.lastSeenAt == c.w.s.now && KeyOf(x) in c.w.s.created
    requires Live(c.w.s.sessions, KeyOf(x), c.w.s.now) && c.w.s.sessions[KeyOf(x)].value == x
    requires !Expired(x, c.w.s.now) && NeedsRefresh(x, c.w.s.now) && !Live(c.w.locks, KeyOf(x), c.w.s.now)
    requires x.tokens.refresh in c.w.answered
    ensures Replays(c, x.tokens.refresh)
  {
    assert CreatedOk(c.w.s, KeyOf(x)) && StoredOk(c.w.s, KeyOf(x));
    var arrive := Arrive(r, x.tenantSlug, x.id);
    var c1 := Play(c, arrive);
    assert c1.requests[r] == Loaded(x) && c1.w == c.w;
    PlayInv(c, arrive);
    var c2 := Play(c1, Move(r));
    assert c2.requests[r] == Serving(x) && c2.w == c.w;
    PlayInv(c1, Move(r));
    CallReplays(c2, r, x);
    ReplaysAfter(c1, Move(r), x.tokens.refresh);
    ReplaysAfter(c, arrive, x.tokens.refresh);
  }

  /** Although a touch reads the stored version just before it writes, a refresh that stores its new
      tokens in between is undone: the exchanged token is stored again, and some continuation presents it,
      as long as the session may live and its old access token is about to run out. */
  lemma TouchUndoesRefresh(c: Scene, r: nat, t: nat, x: Session, renewed: Session, since: int, later: nat)
    requires SceneInv(c) && InTime(c, KeyOf(x)) && r in c.requests && c.requests[r] == Touching(x)
    requires t in c.w.threads && c.w.threads[t] == Store(renewed, since) && KeyOf(renewed) == KeyOf(x)
    requires x.tokens.refresh in c.w.answered && NeedsRefresh(x, c.w.s.now) && later !in c.requests
    ensures var u := Play(c, Call(t, Failure));
            var v := Play(u, Move(r));
            && KeyOf(x) in u.w.s.sessions && u.w.s.sessions[KeyOf(x)].value.tokens == renewed.tokens
            && KeyOf(x) in v.w.s.sessions && v.w.s.sessions[KeyOf(x)].value.tokens == x.tokens
    ensures Replays(c, x.tokens.refresh)
  {
    var u := Play(c, Call(t, Failure));
    CallInv(c, t, Failure, KeyOf(x));
    StoredByCall(c, t, renewed, since);
    var v := Play(u, Move(r));
    SavedByTouch(u, r, x);
    PlayInv(u, Move(r));
    UnlockedReplays(v, t, later, x.(lastSeenAt := c.w.s.now));
    ReplaysAfter(u, Move(r), x.tokens.refresh);
    ReplaysAfter(c, Call(t, Failure), x.tokens.refresh);
  }

  lemma StoredByCall(c: Scene, t: nat, renewed: Session, since: int)
    requires t in c.w.threads && c.w.threads[t] == Store(renewed, since)
    ensures var u := Play(c, Call(t, Failure));
            && u.requests == c.requests && u.w.s.created == c.w.s.created && u.w.s.now == c.w.s.now
            && u.w.answered == c.w.answered
            && KeyOf(renewed) in u.w.s.sessions && u.w.s.sessions[KeyOf(renewed)].value.tokens == renewed.tokens
            && t in u.w.threads && u.w.threads[t].Unlock? && u.w.threads[t].key == KeyOf(renewed)
  {
  }

  lemma SavedByTouch(c: Scene, r: nat, x: Session)
    requires SceneInv(c) && InTime(c, KeyOf(x)) && r in c.requests && c.requests[r] == Touching(x)
    ensures var v := Play(c, Move(r)); var y := x.(lastSeenAt := c.w.s.now);
            && v.w == c.w.(s := v.w.s) && v.requests.Keys == c.requests.Keys
            && v.w.s.now == c.w.s.now && v.w.s.created == c.w.s.created
            && Live(v.w.s.sessions, KeyOf(x), v.w.s.now) && v.w.s.sessions[KeyOf(x)].value == y
            && !Expired(y, v.w.s.now)
  {
    assert StageOk(c, r);
  }

  lemma UnlockedReplays(c: Scene, t: nat, later: nat, x: Session)
    requires SceneInv(c) && later !in c.requests && KeyOf(x) in c.w.s.created && x.lastSeenAt == c.w.s.now
    requires Live(c.w.s.sessions, KeyOf(x), c.w.s.now) && c.w.s.sessions[KeyOf(x)].value == x
    requires !Expired(x, c.w.s.now) && NeedsRefresh(x, c.w.s.now) && x.tokens.refresh in c.w.answered
    requires t in c.w.threads && c.w.threads[t].Unlock? && c.w.threads[t].key == KeyOf(x)
    ensures Replays(c, x.tokens.refresh)
  {
    PlayInv(c, Call(t, Failure));
    ArrivalReplays(Play(c, Call(t, Failure)), later, x);
    ReplaysAfter(c, Call(t, Failure), x.tokens.refresh);
  }
}
