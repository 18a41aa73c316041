/** What the refresh lock guarantees, and that neither of its assumptions can be dropped. */
module RefreshLockTheorems {
  import opened Timed
  import opened TenantSession
  import opened RefreshLock

  ghost predicate Initial(w: World) {
    w.s.sessions == map[] && w.s.sessionsBySid == map[] && w.s.created == map[]
    && w.locks == map[] && w.threads == map[] && w.issued == map[] && w.answered == {} && w.replays == {}
  }

  /** The request is about to present a token, waits for the answer, or has yet to store it. */
  predicate InFlight(pc: Pc, key: string) {
    (pc.Send? || pc.Await? || pc.Store?) && KeyOf(pc.x) == key
  }

  /** However requests interleave, a session has at most one refresh in flight, what it presents
      was never answered before, and no token is presented after a successful answer. */
  lemma OneRefreshAtATime(w: World, steps: seq<Step>)
    requires Initial(w) && Orderly(w, steps, true, true)
    ensures var v := RefreshLock.Run(w, steps);
            && v.replays == {}
            && (forall key, t, u ::
                  (t in v.threads && u in v.threads && InFlight(v.threads[t], key)
                      && InFlight(v.threads[u], key)) ==> t == u)
            && (forall t :: t in v.threads && v.threads[t].Send? ==> v.threads[t].x.tokens.refresh !in v.answered)
  {
    RefreshLock.RunInv(w, steps);
    var v := RefreshLock.Run(w, steps);
    forall key, t, u | t in v.threads && u in v.threads && InFlight(v.threads[t], key) && InFlight(v.threads[u], key)
      ensures t == u
    {
      assert SameLock(v.threads[t], v.threads[u]);
    }
    forall t | t in v.threads && v.threads[t].Send? ensures v.threads[t].x.tokens.refresh !in v.answered {
      assert ThreadSound(v, t);
    }
  }

  /** A holder goes on to present an answered token exactly when the session is gone and the
      request still carries a token answered before. */
  lemma ReloadPresentsAnsweredIff(w: World, t: nat, mine: Session, since: int, reply: Reply)
    requires RefreshLock.Inv(w) && t in w.threads && w.threads[t] == Reload(mine, since) && NeedsRefresh(mine, w.s.now)
    ensures var pc := Advance(w, t, reply).threads[t];
            (pc.Send? && pc.x.tokens.refresh in w.answered) <==>
            Load(w.s, mine.tenantSlug, mine.id).1.None? && mine.tokens.refresh in w.answered
  {
    FoundCurrent(w, t, mine, since);
  }

  // ---------- A refresh alone ----------

  ghost predicate Leads(w: World, v: World, prompt: bool, finds: bool) {
    exists steps :: RefreshLock.Run(w, steps) == v && Orderly(w, steps, prompt, finds)
  }

  lemma LeadsNowhere(w: World, prompt: bool, finds: bool)
    requires prompt ==> Prompt(w)
    ensures Leads(w, w, prompt, finds)
  {
    assert RefreshLock.Run(w, []) == w && Orderly(w, [], prompt, finds);
  }

  lemma LeadsOn(w: World, v: World, step: Step, u: World, prompt: bool, finds: bool)
    requires Leads(w, v, prompt, finds) && Next(v, step) == u
    requires (prompt ==> Prompt(u)) && (finds ==> Finds(v, step))
    ensures Leads(w, u, prompt, finds)
  {
    var steps :| RefreshLock.Run(w, steps) == v && Orderly(w, steps, prompt, finds);
    RunAppend(w, steps, step, prompt, finds);
  }

  lemma {:induction false} RunAppend(w: World, steps: seq<Step>, step: Step, prompt: bool, finds: bool)
    requires Orderly(w, steps, prompt, finds)
    requires var v := RefreshLock.Run(w, steps); (prompt ==> Prompt(Next(v, step))) && (finds ==> Finds(v, step))
    ensures RefreshLock.Run(w, steps + [step]) == Next(RefreshLock.Run(w, steps), step)
        && Orderly(w, steps + [step], prompt, finds)
    decreases steps
  {
    if steps == [] {
      assert steps + [step] == [step] && [step][1..] == [];
      assert RefreshLock.Run(Next(w, step), []) == Next(w, step) && Orderly(Next(w, step), [], prompt, finds);
    } else {
      assert (steps + [step])[1..] == steps[1..] + [step];
      RunAppend(Next(w, steps[0]), steps[1..], step, prompt, finds);
    }
  }

  /** The session is stored, has not ended, and its access token is about to run out. */
  predicate Due(w: World, x: Session) {
    && x.id != "" && Live(w.s.sessions, KeyOf(x), w.s.now) && w.s.sessions[KeyOf(x)].value == x
    && !Expired(x, w.s.now) && NeedsRefresh(x, w.s.now)
  }

  function Renewed(w: World, x: Session, reply: Reply): Session
    requires reply.Success?
  {
    x.(tokens := Tokens(reply.access, w.s.now + reply.expiresIn, reply.refresh), lastSeenAt := w.s.now)
  }

  /** Where the world is once request `t` has refreshed `x` and released the lock. */
  function AfterRefresh(w: World, t: nat, x: Session, reply: Reply): World
    requires reply.Success?
  {
    World(Save(w.s, Renewed(w, x, reply)).0, w.locks - {KeyOf(x)},
          w.threads[t := Answered(Fresh(Renewed(w, x, reply)))],
          w.issued[reply.refresh := KeyOf(x)], w.answered + {x.tokens.refresh}, w.replays)
  }

  /** Left to itself, a request that finds the lock free stores the new tokens, answers with
      them, and frees the lock. */
  lemma RefreshAlone(w0: World, w: World, t: nat, x: Session, reply: Reply, finds: bool)
    requires Leads(w0, w, true, finds) && Prompt(w) && Due(w, x) && x.tokens.refresh !in w.answered
    requires t in w.threads && w.threads[t] == TakeLock(x) && !Live(w.locks, KeyOf(x), w.s.now)
    requires reply.Success? && reply.refresh !in w.issued
    ensures Leads(w0, AfterRefresh(w, t, x, reply), true, finds) && Prompt(AfterRefresh(w, t, x, reply))
  {
    var now, key := w.s.now, KeyOf(x);
    var locked := w.(locks := Put(w.locks, key, "1", now, REFRESH_LOCK_TTL_SECONDS));
    LeadsOn(w0, w, Go(t, Failure), At(locked, t, Reload(x, now)), true, finds);
    LeadsOn(w0, At(locked, t, Reload(x, now)), Go(t, Failure), At(locked, t, Send(x, now)), true, finds);
    assert w.replays + ({x.tokens.refresh} * w.answered) == w.replays;
    LeadsOn(w0, At(locked, t, Send(x, now)), Go(t, Failure), At(locked, t, Await(x, now)), true, finds);
    FinishRefresh(w0, w, At(locked, t, Await(x, now)), t, x, reply, finds);
  }

  lemma FinishRefresh(w0: World, w: World, waiting: World, t: nat, x: Session, reply: Reply, finds: bool)
    requires Leads(w0, waiting, true, finds) && Prompt(w) && reply.Success? && reply.refresh !in w.issued
    requires waiting == At(w.(locks := Put(w.locks, KeyOf(x), "1", w.s.now, REFRESH_LOCK_TTL_SECONDS)), t,
                           Await(x, w.s.now))
    ensures Leads(w0, AfterRefresh(w, t, x, reply), true, finds) && Prompt(AfterRefresh(w, t, x, reply))
  {
    var now, key := w.s.now, KeyOf(x);
    var renewed := x.(tokens := Tokens(reply.access, now + reply.expiresIn, reply.refresh));
    var told := At(waiting.(issued := w.issued[reply.refresh := key], answered := w.answered + {x.tokens.refresh}), t,
                   Store(renewed, now));
    LeadsOn(w0, waiting, Go(t, reply), told, true, finds);
    StoreAndUnlock(w0, w, told, t, x, reply, finds);
  }

  lemma StoreAndUnlock(w0: World, w: World, told: World, t: nat, x: Session, reply: Reply, finds: bool)
    requires Leads(w0, told, true, finds) && Prompt(w) && reply.Success?
    requires told == World(w.s, Put(w.locks, KeyOf(x), "1", w.s.now, REFRESH_LOCK_TTL_SECONDS),
                           w.threads[t := Store(Renewed(w, x, reply).(lastSeenAt := x.lastSeenAt), w.s.now)],
                           w.issued[reply.refresh := KeyOf(x)], w.answered + {x.tokens.refresh}, w.replays)
    ensures Leads(w0, AfterRefresh(w, t, x, reply), true, finds) && Prompt(AfterRefresh(w, t, x, reply))
  {
    var now, key := w.s.now, KeyOf(x);
    var renewed := Renewed(w, x, reply);
    assert Save(w.s, renewed.(lastSeenAt := x.lastSeenAt)) == Save(w.s, renewed);
    var stored := At(told.(s := Save(w.s, renewed).0), t, Unlock(key, Fresh(renewed), now));
    LeadsOn(w0, told, Go(t, Failure), stored, true, finds);
    UnlockAtLast(w0, w, stored, t, x, reply, finds);
  }

  lemma UnlockAtLast(w0: World, w: World, stored: World, t: nat, x: Session, reply: Reply, finds: bool)
    requires Leads(w0, stored, true, finds) && Prompt(w) && reply.Success?
    requires stored == World(Save(w.s, Renewed(w, x, reply)).0,
                             Put(w.locks, KeyOf(x), "1", w.s.now, REFRESH_LOCK_TTL_SECONDS),
                             w.threads[t := Unlock(KeyOf(x), Fresh(Renewed(w, x, reply)), w.s.now)],
                             w.issued[reply.refresh := KeyOf(x)], w.answered + {x.tokens.refresh}, w.replays)
    ensures Leads(w0, AfterRefresh(w, t, x, reply), true, finds) && Prompt(AfterRefresh(w, t, x, reply))
  {
    assert Put(w.locks, KeyOf(x), "1", w.s.now, REFRESH_LOCK_TTL_SECONDS) - {KeyOf(x)} == w.locks - {KeyOf(x)};
    LeadsOn(w0, stored, Go(t, Failure), AfterRefresh(w, t, x, reply), true, finds);
  }

  // ---------- Neither assumption can be dropped ----------

  /** Although every holder is prompt, a request whose session is logged out while it waits for
      the lock presents the token the request before it had already exchanged. */
  lemma LoggedOutSessionReplays(w: World, t: nat, u: nat, x: Session, reply: Reply)
    requires Prompt(w) && Due(w, x) && x.tokens.refresh !in w.answered && !Live(w.locks, KeyOf(x), w.s.now)
    requires t != u && t !in w.threads && u !in w.threads
    requires reply.Success? && reply.refresh !in w.issued
    ensures exists v :: Leads(w, v, true, false) && x.tokens.refresh in v.replays
  {
    var w1 := At(w, t, TakeLock(x));
    var w2 := At(w1, u, TakeLock(x));
    LeadsNowhere(w, true, false);
    LeadsOn(w, w, Start(t, x), w1, true, false);
    LeadsOn(w, w1, Start(u, x), w2, true, false);
    RefreshAlone(w, w2, t, x, reply, false);
    PresentsAfterLogout(w, AfterRefresh(w2, t, x, reply), u, x);
  }

  lemma PresentsAfterLogout(w0: World, w: World, u: nat, x: Session)
    requires Leads(w0, w, true, false) && Prompt(w) && x.tokens.refresh in w.answered && NeedsRefresh(x, w.s.now)
    requires u in w.threads && w.threads[u] == TakeLock(x) && !Live(w.locks, KeyOf(x), w.s.now)
    requires KeyOf(x) in w.s.sessions ==> KeyOf(w.s.sessions[KeyOf(x)].value) == KeyOf(x)
    ensures exists v :: Leads(w0, v, true, false) && x.tokens.refresh in v.replays
  {
    var w1 := w.(s := Serve(w.s, Logout(x.tenantSlug, x.id)));
    LeadsOn(w0, w, Other(Logout(x.tenantSlug, x.id)), w1, true, false);
    PresentsOldToken(w0, w1, u, x);
  }

  lemma PresentsOldToken(w0: World, w: World, u: nat, x: Session)
    requires Leads(w0, w, true, false) && Prompt(w) && x.tokens.refresh in w.answered && NeedsRefresh(x, w.s.now)
    requires u in w.threads && w.threads[u] == TakeLock(x) && !Live(w.locks, KeyOf(x), w.s.now)
    requires Load(w.s, x.tenantSlug, x.id) == (w.s, None)
    ensures exists v :: Leads(w0, v, true, false) && x.tokens.refresh in v.replays
  {
    var now := w.s.now;
    var w2 := At(w.(locks := Put(w.locks, KeyOf(x), "1", now, REFRESH_LOCK_TTL_SECONDS)), u, Reload(x, now));
    var w3 := At(w2, u, Send(x, now));
    var w4 := At(w3.(replays := w3.replays + ({x.tokens.refresh} * w3.answered)), u, Await(x, now));
    LeadsOn(w0, w, Go(u, Failure), w2, true, false);
    LeadsOn(w0, w2, Go(u, Failure), w3, true, false);
    LeadsOn(w0, w3, Go(u, Failure), w4, true, false);
  }

  /** Although every session stays where it is, a holder that outlives its lock lets a second
      one in, which presents the token the first is just having exchanged. */
  lemma OverrunReplays(w: World, t: nat, u: nat, x: Session, reply: Reply)
    requires Due(w, x) && !Expired(x, w.s.now + REFRESH_LOCK_TTL_SECONDS)
    requires w.s.sessions[KeyOf(x)].expiresAt > w.s.now + REFRESH_LOCK_TTL_SECONDS
    requires x.tokens.refresh !in w.answered && !Live(w.locks, KeyOf(x), w.s.now)
    requires t != u && t !in w.threads && u !in w.threads
    requires reply.Success? && reply.refresh !in w.issued
    ensures exists v :: Leads(w, v, false, true) && x.tokens.refresh in v.replays
  {
    var now, key := w.s.now, KeyOf(x);
    var w1 := At(w, t, TakeLock(x));
    var w2 := At(w1.(locks := Put(w.locks, key, "1", now, REFRESH_LOCK_TTL_SECONDS)), t, Reload(x, now));
    var w3 := At(w2, t, Send(x, now));
    LeadsNowhere(w, false, true);
    LeadsOn(w, w, Start(t, x), w1, false, true);
    LeadsOn(w, w1, Go(t, Failure), w2, false, true);
    LeadsOn(w, w2, Go(t, Failure), w3, false, true);
    assert w3.replays + ({x.tokens.refresh} * w3.answered) == w3.replays;
    var w4 := At(w3, t, Await(x, now));
    LeadsOn(w, w3, Go(t, Failure), w4, false, true);
    var w5 := w4.(s := w.s.(now := now + REFRESH_LOCK_TTL_SECONDS));
    LeadsOn(w, w4, Other(Tick(REFRESH_LOCK_TTL_SECONDS)), w5, false, true);
    SecondHolder(w, w5, t, u, x, now, reply);
  }

  lemma SecondHolder(w0: World, w: World, t: nat, u: nat, x: Session, since: int, reply: Reply)
    requires Leads(w0, w, false, true) && Due(w, x) && !Live(w.locks, KeyOf(x), w.s.now)
    requires t != u && t in w.threads && u !in w.threads && w.threads[t] == Await(x, since)
    requires reply.Success? && reply.refresh !in w.issued
    ensures exists v :: Leads(w0, v, false, true) && x.tokens.refresh in v.replays
  {
    var now, key := w.s.now, KeyOf(x);
    var w1 := At(w, u, TakeLock(x));
    var w2 := At(w1.(locks := Put(w.locks, key, "1", now, REFRESH_LOCK_TTL_SECONDS)), u, Reload(x, now));
    var w3 := At(w2, u, Send(x, now));
    LeadsOn(w0, w, Start(u, x), w1, false, true);
    LeadsOn(w0, w1, Go(u, Failure), w2, false, true);
    LeadsOn(w0, w2, Go(u, Failure), w3, false, true);
    var w4 := Receive(w3, t, x, since, reply);
    LeadsOn(w0, w3, Go(t, reply), w4, false, true);
    assert w4.threads[u] == Send(x, now) && x.tokens.refresh in w4.answered;
    LeadsOn(w0, w4, Go(u, Failure), Advance(w4, u, Failure), false, true);
  }

  // ---------- The retry after an expired-token answer ----------

  /** The retry pretends its access token has run out. It presents a refresh token exactly when
      the stored session is itself due, or gone; otherwise it ends with the stored access token,
      which may be the very one the API has just refused. */
  lemma ForcedRetrySendsIff(w: World, t: nat, before: Session, reply: Reply)
    requires t !in w.threads && !Live(w.locks, KeyOf(before), w.s.now) && 0 <= w.s.now
    ensures var forced := before.(tokens := before.tokens.(accessExpiresAt := 0));
            var found := Load(w.s, before.tenantSlug, before.id).1;
            var v := RefreshLock.Run(w, [Start(t, forced), Go(t, reply), Go(t, reply)]);
            && t in v.threads
            && (v.threads[t].Send? <==> found.None? || NeedsRefresh(found.value, w.s.now))
            && (!v.threads[t].Send? ==> v.threads[t] == Unlock(KeyOf(before), Fresh(found.value), w.s.now))
  {
    var forced := before.(tokens := before.tokens.(accessExpiresAt := 0));
    var steps := [Start(t, forced), Go(t, reply), Go(t, reply)];
    assert steps[1..] == [Go(t, reply), Go(t, reply)] && steps[1..][1..] == [Go(t, reply)]
        && steps[1..][1..][1..] == [];
    var w1 := At(w, t, TakeLock(forced));
    assert Next(w, steps[0]) == w1;
    var w2 := Advance(w1, t, reply);
    assert w2.threads[t] == Reload(forced, w.s.now);
    assert RefreshLock.Run(w, steps) == RefreshLock.Run(w1, steps[1..]) == RefreshLock.Run(w2, steps[1..][1..])
        == RefreshLock.Run(Next(w2, Go(t, reply)), []);
  }

  // ---------- Waiting for another's refresh ----------

  /** How often the request itself moves in these steps. */
  function Moves(steps: seq<Step>, t: nat): nat {
    if steps == [] then 0 else (if steps[0].Go? && steps[0].thread == t then 1 else 0) + Moves(steps[1..], t)
  }

  /** A request that found the lock held, the retry after an expired-token answer included, never
      presents a token and never writes. In every interleaving it looks at most 30 times and then
      has answered; a session it answers with was not due when it began to wait. */
  lemma {:induction false} WaitingEnds(w: World, steps: seq<Step>, t: nat, mine: Session, attempt: nat)
    requires t in w.threads && w.threads[t] == Wait(mine, attempt) && attempt < REFRESH_WAIT_ATTEMPTS
    ensures var v := RefreshLock.Run(w, steps);
            && t in v.threads
            && (v.threads[t] == Wait(mine, attempt + Moves(steps, t)) || v.threads[t].Answered?)
            && (attempt + Moves(steps, t) >= REFRESH_WAIT_ATTEMPTS ==> v.threads[t].Answered?)
            && (v.threads[t].Answered? && v.threads[t].outcome.Fresh? ==>
                !NeedsRefresh(v.threads[t].outcome.session, w.s.now))
    decreases steps
  {
    if steps != [] {
      var v := Next(w, steps[0]);
      var mover := steps[0].Go? && steps[0].thread == t;
      TimeMovesOn(w, steps[0]);
      if mover { LookMoves(w, t, mine, attempt, steps[0].reply); } else { OthersMove(w, steps[0], t); }
      if v.threads[t].Answered? {
        AnsweredStays(v, steps[1..], t);
      } else {
        WaitingEnds(v, steps[1..], t, mine, if mover then attempt + 1 else attempt);
      }
    }
  }

  lemma TimeMovesOn(w: World, step: Step)
    ensures w.s.now <= Next(w, step).s.now
  {
    match step
    case Other(e) => EventTime(w.s, e);
    case Start(_, _) =>
    case Go(t, reply) => if t in w.threads { AdvanceTime(w, t, reply); }
  }

  lemma EventTime(s: State, e: Event)
    ensures s.now <= Serve(s, e).now
  {
  }

  lemma AdvanceTime(w: World, t: nat, reply: Reply)
    requires t in w.threads
    ensures Advance(w, t, reply).s.now == w.s.now
  {
  }

  lemma OthersMove(w: World, step: Step, t: nat)
    requires t in w.threads && !(step.Go? && step.thread == t)
    ensures t in Next(w, step).threads && Next(w, step).threads[t] == w.threads[t]
  {
  }

  lemma LookMoves(w: World, t: nat, mine: Session, attempt: nat, reply: Reply)
    requires t in w.threads && w.threads[t] == Wait(mine, attempt)
    ensures var v := Next(w, Go(t, reply));
            && t in v.threads
            && (v.threads[t].Answered? || (v.threads[t] == Wait(mine, attempt + 1)
                && attempt + 1 < REFRESH_WAIT_ATTEMPTS))
            && (v.threads[t].Answered? && v.threads[t].outcome.Fresh? ==>
                !NeedsRefresh(v.threads[t].outcome.session, w.s.now))
  {
  }

  lemma {:induction false} AnsweredStays(w: World, steps: seq<Step>, t: nat)
    requires t in w.threads && w.threads[t].Answered?
    ensures t in RefreshLock.Run(w, steps).threads && RefreshLock.Run(w, steps).threads[t] == w.threads[t]
    decreases steps
  {
    if steps != [] {
      AnsweredStays(Next(w, steps[0]), steps[1..], t);
    }
  }

  /** The retry that finds the lock held waits, and presents nothing. */
  lemma ForcedRetryWaits(w: World, t: nat, before: Session, reply: Reply)
    requires t !in w.threads && Live(w.locks, KeyOf(before), w.s.now) && 0 <= w.s.now
    ensures var forced := before.(tokens := before.tokens.(accessExpiresAt := 0));
            Next(Next(w, Start(t, forced)), Go(t, reply)) == At(w, t, Wait(forced, 0))
  {
    var forced := before.(tokens := before.tokens.(accessExpiresAt := 0));
    assert At(At(w, t, TakeLock(forced)), t, Wait(forced, 0)) == At(w, t, Wait(forced, 0));
  }

  /** What one look answers, and when. */
  lemma LookAnswersIff(w: World, t: nat, mine: Session, attempt: nat)
    requires t in w.threads && w.threads[t] == Wait(mine, attempt)
    ensures var found := Load(w.s, mine.tenantSlug, mine.id).1;
            var pc := LookAgain(w, t, mine, attempt).threads[t];
            && (pc == Answered(SessionExpired) <==> found.None?)
            && (found.Some? && !NeedsRefresh(found.value, w.s.now) <==> pc.Answered? && pc.outcome.Fresh?)
            && (pc.Answered? && pc.outcome.Fresh? ==> pc.outcome.session == found.value)
            && (found.Some? && NeedsRefresh(found.value, w.s.now) ==>
                  pc == if attempt < 29 then Wait(mine, attempt + 1) else Answered(ProviderUnavailable))
  {
  }

  // ---------- When a refresh begins, and how it ends ----------

  /** A call answers at once, with the session it was given, exactly when the access token lasts for more
      than a minute; otherwise it goes for the lock. */
  lemma RefreshBeginsIff(w: World, t: nat, x: Session)
    requires t !in w.threads
    ensures var v := Next(w, Start(t, x));
            && v == w.(threads := v.threads) && t in v.threads
            && v.threads[t] == if x.tokens.accessExpiresAt > w.s.now + 60 then Answered(Fresh(x)) else TakeLock(x)
  {
  }

  /** Of two calls for one session, the one that takes the lock keeps the other waiting for ten seconds
      and not longer, if it does not release it before. */
  lemma LockKeepsOut(w: World, t: nat, u: nat, x: Session, y: Session, seconds: nat)
    requires t != u && t in w.threads && u in w.threads && KeyOf(x) == KeyOf(y)
    requires w.threads[t] == TakeLock(x) && w.threads[u] == TakeLock(y) && !Live(w.locks, KeyOf(x), w.s.now)
    ensures var v := Next(Next(Next(w, Go(t, Failure)), Other(Tick(seconds))), Go(u, Failure));
            && t in v.threads && u in v.threads && v.threads[t] == Reload(x, w.s.now)
            && v.threads[u] == if seconds < 10 then Wait(y, 0) else Reload(y, w.s.now + seconds)
  {
    var w1 := Next(w, Go(t, Failure));
    var w2 := Next(w1, Other(Tick(seconds)));
    assert w2.threads == w1.threads && w2.locks == w1.locks && w2.s.now == w.s.now + seconds;
    assert w2.threads[u] == TakeLock(y);
  }

  /** A session that a call comes to answer with. */
  function Answers(pc: Pc): Option<Session> {
    match pc
    case Unlock(_, Fresh(x), _) => Some(x)
    case Answered(Fresh(x)) => Some(x)
    case _ => None
  }

  /** In every step of every interleaving, a session that a call comes to answer with has an access token
      that lasts for more than a minute, or tokens the call has just saved. */
  lemma AnswersFresh(w: World, t: nat, reply: Reply)
    requires t in w.threads && Answers(w.threads[t]).None?
    ensures var v := Advance(w, t, reply);
            t in v.threads && Answers(v.threads[t]).Some? ==>
              var x := Answers(v.threads[t]).value;
              || x.tokens.accessExpiresAt > w.s.now + 60
              || (w.threads[t].Store? && x == w.threads[t].x.(lastSeenAt := w.s.now)
                  && KeyOf(x) in v.s.sessions && v.s.sessions[KeyOf(x)].value == x)
  {
    match w.threads[t]
    case Await(_, _) =>
    case Wait(_, _) =>
    case _ =>
  }

  /** Three steps of one call, with nothing else in between. */
  function ThreeSteps(w: World, t: nat, reply: Reply): World {
    Next(Next(Next(w, Go(t, reply)), Go(t, Failure)), Go(t, Failure))
  }

  /** A refused token ends the session and its index entry, frees the lock, and is answered as expired; any
      other failure keeps the session, frees the lock, and is answered as such. */
  lemma RefusedRefreshEnds(w: World, t: nat, x: Session, since: int)
    requires t in w.threads && w.threads[t] == Await(x, since)
    ensures var refused := ThreeSteps(w, t, InvalidGrant);
            && t in refused.threads && refused.threads[t] == Answered(SessionExpired)
            && KeyOf(x) !in refused.s.sessions && KeyOf(x) !in refused.locks
            && KeyOf(x) !in Members(refused.s.sessionsBySid, SidKey(x.sid), w.s.now)
            && (forall key :: key != KeyOf(x) && key in w.s.sessions ==>
                  key in refused.s.sessions && refused.s.sessions[key] == w.s.sessions[key])
            && refused.answered == w.answered
    ensures var failed := ThreeSteps(w, t, Failure);
            && t in failed.threads && failed.threads[t] == Answered(ProviderUnavailable)
            && failed.s == w.s && KeyOf(x) !in failed.locks && failed.answered == w.answered
  {
    var w1 := Next(w, Go(t, InvalidGrant));
    assert w1.threads[t] == Drop(x, since);
    var w2 := Next(w1, Go(t, Failure));
    assert w2.threads[t] == Unlock(KeyOf(x), SessionExpired, since);
    var u1 := Next(w, Go(t, Failure));
    assert u1.threads[t] == Unlock(KeyOf(x), ProviderUnavailable, since);
    var u2 := Next(u1, Go(t, Failure));
    assert u2.threads[t] == Answered(ProviderUnavailable);
  }
}
