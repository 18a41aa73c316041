/** How long a tenant session lives, and what ends it. */
module TenantSessionTheorems {
  import opened Timed
  import opened SessionExpiry
  import opened TenantSession

  /** The request reads this session. */
  predicate Uses(e: Event, key: string) {
    (e.Request? || e.Refreshed?) && e.cookie != "" && SessionKey(e.slug, e.cookie) == key
  }

  /** The event does not log this session out. */
  predicate Spares(e: Event, x: Session) {
    && (e.Logout? || e.Callback? ==> SessionKey(e.slug, e.cookie) != KeyOf(x))
    && (e.BackchannelLogout? ==> e.sid != x.sid)
  }

  /** No request finds the session. */
  predicate Ended(s: State, key: string) {
    !Live(s.sessions, key, s.now) || Expired(s.sessions[key].value, s.now)
  }

  // ---------- What one event does to one session ----------

  lemma LoadKey(s: State, slug: string, cookie: string, key: string)
    requires Inv(s)
    ensures var loaded := Load(s, slug, cookie).0;
            && loaded.created == s.created && loaded.now == s.now
            && (key in loaded.sessions ==> key in s.sessions && loaded.sessions[key] == s.sessions[key])
            && (!Ended(s, key) ==> key in loaded.sessions)
  {
    LoadFinds(s, slug, cookie);
    assert SessionOk(s, SessionKey(slug, cookie)) && CreatedOk(s, SessionKey(slug, cookie));
  }

  /** An event leaves a session alone, drops it, or has it used; only a session that has not
      ended is used. */
  lemma ServeKey(s: State, e: Event, key: string)
    requires Inv(s) && key in s.created
    ensures var v := Serve(s, e);
            && key in v.created && v.created[key] == s.created[key] && s.now <= v.now
            && (key in v.sessions ==>
                  && key in s.sessions
                  && (v.sessions[key] == s.sessions[key]
                      || (Uses(e, key) && !Ended(s, key) && v.sessions[key].value.lastSeenAt == s.now)))
  {
    match e
    case Tick(_) =>
    case BackchannelLogout(_) =>
    case _ =>
      LoadKey(s, e.slug, e.cookie, key);
      LoadFinds(s, e.slug, e.cookie);
  }

  /** A session that has not ended and is not logged out stays, and a request that uses it leaves
      its last sighting less than a touch interval behind. */
  lemma ServeAlive(s: State, e: Event, key: string)
    requires Inv(s) && key in s.created && !Ended(s, key) && Spares(e, s.created[key])
    ensures var v := Serve(s, e);
            && key in v.sessions
            && v.sessions[key].value.lastSeenAt >= s.sessions[key].value.lastSeenAt
            && (Uses(e, key) ==> s.now - v.sessions[key].value.lastSeenAt < TOUCH_INTERVAL_SECONDS)
  {
    assert SessionOk(s, key) && CreatedOk(s, key);
    match e
    case Tick(_) =>
    case BackchannelLogout(sid) =>
      assert IndexOk(s, SidKey(sid));
      SidKeysDiffer(sid, s.created[key].sid);
    case _ =>
      LoadKey(s, e.slug, e.cookie, key);
      LoadFinds(s, e.slug, e.cookie);
  }

  // ---------- Ended is for good ----------

  lemma {:induction false} EndedForGood(s: State, events: seq<Event>, key: string)
    requires Inv(s) && key in s.created && Ended(s, key)
    ensures Ended(Run(s, events), key)
    decreases events
  {
    if events != [] {
      ServeKey(s, events[0], key);
      ServeInv(s, events[0]);
      EndedForGood(Serve(s, events[0]), events[1..], key);
    }
  }

  /** A session that has ended is what a request does not find; one that has not is found under
      its own tenant and id. */
  lemma EndedNotFound(s: State, key: string)
    requires Inv(s) && key in s.created
    ensures var x := s.created[key];
            Load(s, x.tenantSlug, x.id).1.None? <==> Ended(s, key)
  {
    assert CreatedOk(s, key);
  }

  /** From an empty store on, as long as requests run one at a time, every live session is in the
      live set of its own sid, and no set names a live session of another sid. */
  lemma EverySessionListed(now: int, events: seq<Event>)
    ensures var v := Run(State(now, map[], map[], map[]), events);
            forall key, sid :: Live(v.sessions, key, v.now) ==>
              (key in Members(v.sessionsBySid, SidKey(sid), v.now) <==> v.sessions[key].value.sid == sid)
  {
    var v := Run(State(now, map[], map[], map[]), events);
    RunInv(State(now, map[], map[], map[]), events);
    forall key, sid | Live(v.sessions, key, v.now)
      ensures key in Members(v.sessionsBySid, SidKey(sid), v.now) <==> v.sessions[key].value.sid == sid
    {
      assert SessionOk(v, key) && IndexOk(v, SidKey(sid));
      SidKeysDiffer(v.created[key].sid, sid);
    }
  }

  /** Back-Channel Logout leaves no session of the sid, in any tenant, now or in any later run of
      whole requests, and every other session and index entry as it was. What a refresh in flight
      can do to it is the subject of LogoutRace. */
  lemma LogoutReachesEveryTenant(s: State, sid: string, later: seq<Event>)
    requires Inv(s)
    ensures var v := DestroyBySid(s, sid);
            && (forall key :: Live(v.sessions, key, v.now) ==> v.sessions[key].value.sid != sid)
            && (forall key :: Live(s.sessions, key, s.now) && s.sessions[key].value.sid != sid ==>
                  key in v.sessions && v.sessions[key] == s.sessions[key])
            && (forall other :: other != sid ==>
                  Members(v.sessionsBySid, SidKey(other), v.now) == Members(s.sessionsBySid, SidKey(other), s.now))
            && (forall key :: key in s.created && s.created[key].sid == sid ==> Ended(Run(v, later), key))
  {
    var v := DestroyBySid(s, sid);
    DestroyBySidInv(s, sid);
    forall key: string | Live(v.sessions, key, v.now)
      ensures v.sessions[key].value.sid != sid
    {
      LogoutKey(s, sid, key);
    }
    forall key: string | Live(s.sessions, key, s.now) && s.sessions[key].value.sid != sid
      ensures key in v.sessions && v.sessions[key] == s.sessions[key]
    {
      LogoutKey(s, sid, key);
    }
    forall other: string | other != sid
      ensures Members(v.sessionsBySid, SidKey(other), v.now) == Members(s.sessionsBySid, SidKey(other), s.now)
    {
      SidKeysDiffer(other, sid);
    }
    forall key | key in s.created && s.created[key].sid == sid ensures Ended(Run(v, later), key) {
      LogoutKey(s, sid, key);
      EndedForGood(v, later, key);
    }
  }

  lemma LogoutKey(s: State, sid: string, key: string)
    requires Inv(s)
    ensures var v := DestroyBySid(s, sid);
            && (key in s.created && s.created[key].sid == sid ==> !Live(v.sessions, key, v.now))
            && (Live(v.sessions, key, v.now) ==> v.sessions[key].value.sid != sid)
            && (Live(s.sessions, key, s.now) && s.sessions[key].value.sid != sid ==>
                  key in v.sessions && v.sessions[key] == s.sessions[key])
  {
    assert SessionOk(s, key) && IndexOk(s, SidKey(sid));
    if key in s.created { SidKeysDiffer(s.created[key].sid, sid); }
  }

  // ---------- Throttled touches ----------

  /** When the session was last used, after these events. */
  function LastUse(s: State, last: int, events: seq<Event>, key: string): int
    decreases events
  {
    if events == [] then last
    else LastUse(Serve(s, events[0]), if Uses(events[0], key) then s.now else last, events[1..], key)
  }

  /** Nobody logs the session out, and no two uses are more than the idle limit less the touch
      interval apart. */
  predicate Steady(s: State, last: int, events: seq<Event>, key: string)
    requires key in s.created
    decreases events
  {
    events != [] ==>
      && Spares(events[0], s.created[key])
      && (Uses(events[0], key) ==> s.now - last <= SESSION_IDLE_SECONDS - TOUCH_INTERVAL_SECONDS)
      && key in Serve(s, events[0]).created
      && Steady(Serve(s, events[0]), if Uses(events[0], key) then s.now else last, events[1..], key)
  }

  lemma {:induction false} TimePasses(s: State, events: seq<Event>, last: int, key: string)
    requires last <= s.now
    ensures s.now <= Run(s, events).now && last <= LastUse(s, last, events, key) <= Run(s, events).now
    decreases events
  {
    if events != [] {
      assert s.now <= Serve(s, events[0]).now;
      TimePasses(Serve(s, events[0]), events[1..], if Uses(events[0], key) then s.now else last, key);
    }
  }

  /** Steady use keeps a session until its absolute limit, although most uses are not written. */
  lemma {:induction false} SteadyUseKeepsAlive(s: State, last: int, events: seq<Event>, key: string)
    requires Inv(s) && key in s.created && Live(s.sessions, key, s.now)
    requires last - TOUCH_INTERVAL_SECONDS < s.sessions[key].value.lastSeenAt && last <= s.now
    requires Steady(s, last, events, key)
    requires var v := Run(s, events);
             && v.now - LastUse(s, last, events, key) <= SESSION_IDLE_SECONDS - TOUCH_INTERVAL_SECONDS
             && v.now < s.created[key].createdAt + SESSION_ABSOLUTE_SECONDS
    ensures key in Run(s, events).created && !Ended(Run(s, events), key)
    ensures Load(Run(s, events), s.created[key].tenantSlug, s.created[key].id).1.Some?
    decreases events
  {
    assert SessionOk(s, key);
    if events == [] {
      EndedNotFound(s, key);
    } else {
      var e := events[0];
      var v := Serve(s, e);
      var next := if Uses(e, key) then s.now else last;
      ServeInv(s, e);
      ServeKey(s, e, key);
      assert SessionOk(v, key);
      TimePasses(v, events[1..], next, key);
      UnusedSoFar(s, last, events, key);
      assert !Ended(s, key);
      ServeAlive(s, e, key);
      SteadyUseKeepsAlive(v, next, events[1..], key);
    }
  }

  /** In a steady run the time since the last use never exceeds the permitted gap before the
      next use, or the end. */
  lemma {:induction false} UnusedSoFar(s: State, last: int, events: seq<Event>, key: string)
    requires key in s.created && last <= s.now && Steady(s, last, events, key)
    requires Run(s, events).now - LastUse(s, last, events, key) <= SESSION_IDLE_SECONDS - TOUCH_INTERVAL_SECONDS
    ensures s.now - last <= SESSION_IDLE_SECONDS - TOUCH_INTERVAL_SECONDS
    decreases events
  {
    if events != [] && !Uses(events[0], key) {
      assert s.now <= Serve(s, events[0]).now;
      UnusedSoFar(Serve(s, events[0]), last, events[1..], key);
    }
  }

  /** The session is left unused by all events. */
  predicate Unused(events: seq<Event>, key: string) {
    forall i :: 0 <= i < |events| ==> !Uses(events[i], key)
  }

  /** A gap of the idle limit, or reaching the absolute limit, ends a session whatever else happens. */
  lemma {:induction false} IdleEnds(s: State, events: seq<Event>, later: seq<Event>, key: string)
    requires Inv(s) && key in s.created
    requires || (Unused(events, key) && Run(s, events).now >= s.now + SESSION_IDLE_SECONDS)
             || Run(s, events).now >= s.created[key].createdAt + SESSION_ABSOLUTE_SECONDS
    ensures Ended(Run(s, events), key) && Ended(Run(Run(s, events), later), key)
  {
    assert SessionOk(s, key);
    RunInv(s, events);
    RunKey(s, events, key, s.now);
    var v := Run(s, events);
    assert SessionOk(v, key);
    EndedForGood(v, later, key);
  }

  lemma {:induction false} RunKey(s: State, events: seq<Event>, key: string, seen: int)
    requires Inv(s) && key in s.created
    requires key in s.sessions ==> s.sessions[key].value.lastSeenAt <= seen
    ensures var v := Run(s, events);
            && key in v.created && v.created[key] == s.created[key]
            && (key in v.sessions && Unused(events, key) ==> v.sessions[key].value.lastSeenAt <= seen)
    decreases events
  {
    if events != [] {
      ServeKey(s, events[0], key);
      ServeInv(s, events[0]);
      assert SessionOk(Serve(s, events[0]), key);
      if Unused(events, key) {
        RunKey(Serve(s, events[0]), events[1..], key, seen);
      } else {
        var v := Serve(s, events[0]);
        RunKey(v, events[1..], key, if key in v.sessions then v.sessions[key].value.lastSeenAt else seen);
      }
    }
  }

  /** The permitted gap cannot be longer: a use within the touch interval is not written, so a gap
      one second over it ends the session. */
  lemma GapOneSecondLongerEnds(s: State, key: string)
    requires Inv(s) && !Ended(s, key) && s.sessions[key].value.lastSeenAt == s.now
    ensures var x := s.sessions[key].value;
            var gap: nat := SESSION_IDLE_SECONDS - TOUCH_INTERVAL_SECONDS + 1;
            Ended(Run(s, [Tick(59), Request(x.tenantSlug, x.id), Tick(gap)]), key)
  {
    var x := s.sessions[key].value;
    var gap: nat := SESSION_IDLE_SECONDS - TOUCH_INTERVAL_SECONDS + 1;
    var events := [Tick(59), Request(x.tenantSlug, x.id), Tick(gap)];
    assert SessionOk(s, key) && CreatedOk(s, key);
    var v := Serve(s, events[0]);
    assert events[1..] == [events[1], events[2]] && events[1..][1..] == [events[2]] && [events[2]][1..] == [];
    assert Run(s, events) == Run(v, events[1..]) == Run(Serve(v, events[1]), [events[2]]);
    assert Run(Serve(v, events[1]), [events[2]]) == Serve(Serve(v, events[1]), events[2]);
  }

  // ---------- A touch that comes late ----------

  /** A session as some request loaded it earlier. */
  predicate LoadedEarlier(s: State, x: Session) {
    && KeyOf(x) in s.created && x == s.created[KeyOf(x)].(tokens := x.tokens, lastSeenAt := x.lastSeenAt)
    && x.createdAt <= x.lastSeenAt <= s.now
  }

  /** Exactly when touching a session loaded earlier keeps the sid index complete. */
  lemma LateTouchKeepsIndex(s: State, x: Session)
    requires Inv(s) && LoadedEarlier(s, x)
    ensures Inv(Touch(s, x).0) <==>
      || !ShouldTouch(x.lastSeenAt, s.now)
      || Live(s.sessions, KeyOf(x), s.now)
      || RemainingTtl(POLICY, x.createdAt, s.now) <= 0
      || Listed(s, KeyOf(x), x, x.createdAt + SESSION_ABSOLUTE_SECONDS)
  {
    var key := KeyOf(x);
    var v := Touch(s, x).0;
    assert SessionOk(s, key);
    if ShouldTouch(x.lastSeenAt, s.now) {
      if Live(s.sessions, key, s.now) {
        SaveInv(s, s.sessions[key].value);
      } else {
        assert v.sessions[key] == Entry(x.(lastSeenAt := s.now), x.createdAt + SESSION_ABSOLUTE_SECONDS);
        assert SessionOk(v, key) <==>
          RemainingTtl(POLICY, x.createdAt, s.now) <= 0 || Listed(s, key, x, x.createdAt + SESSION_ABSOLUTE_SECONDS);
        forall other | other != key ensures SessionOk(v, other) { assert SessionOk(s, other); }
        forall other ensures CreatedOk(v, other) { assert CreatedOk(s, other); }
        forall other ensures IndexOk(v, other) { assert IndexOk(s, other); }
      }
    }
  }

  /** A request that loaded its session just before a Back-Channel Logout and touches it just
      after brings it back, out of reach of any repetition of the logout. */
  lemma LateTouchRevives(s: State, x: Session)
    requires Inv(s) && LoadedEarlier(s, x) && !Expired(x, s.now) && ShouldTouch(x.lastSeenAt, s.now)
    requires Live(s.sessions, KeyOf(x), s.now)
    ensures var v := Touch(DestroyBySid(s, x.sid), x).0;
            && !Ended(v, KeyOf(x)) && !Ended(DestroyBySid(v, x.sid), KeyOf(x))
  {
    assert SessionOk(s, KeyOf(x));
  }

  /** A refresh saves the session it loaded before it called the authorization server. Exactly
      when that keeps the sid index complete. */
  lemma LateSaveKeepsIndex(s: State, x: Session)
    requires Inv(s) && LoadedEarlier(s, x)
    ensures Inv(Save(s, x).0) <==>
      || RemainingTtl(POLICY, x.createdAt, s.now) <= 0
      || Listed(s, KeyOf(x), x, x.createdAt + SESSION_ABSOLUTE_SECONDS)
  {
    var key := KeyOf(x);
    var v := Save(s, x).0;
    assert v.sessions[key] == Entry(x.(lastSeenAt := s.now), x.createdAt + SESSION_ABSOLUTE_SECONDS);
    assert SessionOk(v, key) <==>
      RemainingTtl(POLICY, x.createdAt, s.now) <= 0 || Listed(s, key, x, x.createdAt + SESSION_ABSOLUTE_SECONDS);
    forall other | other != key ensures SessionOk(v, other) { assert SessionOk(s, other); }
    forall other ensures CreatedOk(v, other) { assert CreatedOk(s, other); }
    forall other ensures IndexOk(v, other) { assert IndexOk(s, other); }
  }

  // ---------- What a touch writes ----------

  /** A touch with a copy of the session, loaded at any time before, writes the stored version and not
      the copy: tokens that a refresh has stored meanwhile stay. It changes the last sighting and nothing
      else, and answers what it wrote; within a minute of the copy's sighting it writes nothing. */
  lemma TouchKeepsStored(s: State, x: Session)
    requires Inv(s) && LoadedEarlier(s, x) && Live(s.sessions, KeyOf(x), s.now)
    ensures var (v, answered) := Touch(s, x);
            var stored := s.sessions[KeyOf(x)];
            if s.now < x.lastSeenAt + 60 then (v, answered) == (s, x)
            else
              && answered == stored.value.(lastSeenAt := s.now)
              && v == s.(sessions := s.sessions[KeyOf(x) := Entry(answered, stored.expiresAt)])
  {
    assert SessionOk(s, KeyOf(x));
  }

  /** Over runs: whatever is served after a request loaded its session, its touch keeps the tokens
      that are stored by then. */
  lemma LateTouchKeepsTokens(s: State, key: string, events: seq<Event>)
    requires Inv(s) && Live(s.sessions, key, s.now) && Live(Run(s, events).sessions, key, Run(s, events).now)
    ensures var v := Run(s, events);
            var (t, answered) := Touch(v, s.sessions[key].value);
            && key in t.sessions && t.sessions[key].value.tokens == v.sessions[key].value.tokens
            && t.sessions[key].expiresAt == v.sessions[key].expiresAt
            && t == v.(sessions := v.sessions[key := t.sessions[key]])
            && (answered == s.sessions[key].value || answered == t.sessions[key].value)
  {
    assert SessionOk(s, key) && CreatedOk(s, key);
    RunInv(s, events);
    RunKey(s, events, key, s.now);
    RunTime(s, events);
    var v := Run(s, events);
    assert SessionOk(v, key) && CreatedOk(v, key);
    TouchKeepsStored(v, s.sessions[key].value);
    assert v.sessions[key := v.sessions[key]] == v.sessions;
  }

  lemma {:induction false} RunTime(s: State, events: seq<Event>)
    ensures s.now <= Run(s, events).now
    decreases events
  {
    if events != [] {
      assert s.now <= Serve(s, events[0]).now;
      RunTime(Serve(s, events[0]), events[1..]);
    }
  }

  // ---------- What the other requests do ----------

  /** A session has not ended as long as it is stored, was seen in the last half hour, and was created in
      the last twelve. */
  lemma EndedIff(s: State, key: string)
    requires Inv(s)
    ensures !Ended(s, key) <==>
              && key in s.sessions
              && s.now < s.sessions[key].value.lastSeenAt + 30 * 60
              && s.now < s.sessions[key].value.createdAt + 12 * 60 * 60
  {
    assert SessionOk(s, key);
  }

  /** A request finds the session of its tenant and cookie exactly when it has not ended; one that is past
      a limit and still stored is destroyed on the way, with its index entry. No other session is touched. */
  lemma LoadMeans(s: State, slug: string, cookie: string)
    requires Inv(s)
    ensures var (v, found) := Load(s, slug, cookie); var key := SessionKey(slug, cookie);
            && (found.Some? <==> cookie != "" && !Ended(s, key))
            && (found.Some? ==> v == s && found.value == s.sessions[key].value)
            && (cookie == "" ==> v == s)
            && (cookie != "" && Live(s.sessions, key, s.now) && Ended(s, key) ==>
                  && key !in v.sessions
                  && key !in Members(v.sessionsBySid, SidKey(s.sessions[key].value.sid), v.now))
            && (forall other :: other != key && other in s.sessions ==>
                  other in v.sessions && v.sessions[other] == s.sessions[other])
  {
    LoadFinds(s, slug, cookie);
    assert SessionOk(s, SessionKey(slug, cookie)) && CreatedOk(s, SessionKey(slug, cookie));
  }

  /** A login creates the session it was told, alive and found under its tenant and id for twelve hours at
      most, ends the browser's previous session at that tenant, and leaves every other alone. */
  lemma CallbackMeans(s: State, slug: string, cookie: string, id: string, userId: string, tenantId: string,
                      sid: string, tokens: Tokens)
    requires Inv(s) && ':' !in slug && id != "" && SessionKey(slug, id) !in s.created
    ensures var v := Serve(s, Callback(slug, cookie, id, userId, tenantId, sid, tokens));
            var x := Session(id, slug, userId, tenantId, sid, tokens, s.now, s.now);
            && Load(v, slug, id) == (v, Some(x))
            && v.sessions[KeyOf(x)].expiresAt == s.now + 12 * 60 * 60
            && KeyOf(x) in Members(v.sessionsBySid, SidKey(sid), v.now)
            && (cookie != "" && cookie != id ==> Ended(v, SessionKey(slug, cookie)))
            && (forall key :: key != KeyOf(x) && key != SessionKey(slug, cookie) && key in s.sessions ==>
                  key in v.sessions && v.sessions[key] == s.sessions[key])
  {
    LoadFinds(s, slug, cookie);
    assert SessionOk(s, SessionKey(slug, cookie)) && CreatedOk(s, SessionKey(slug, cookie));
    assert SessionOk(s, SessionKey(slug, id));
    KeysDiffer(slug, cookie, slug, id);
  }

  /** A logout ends the browser's own session, and no other. */
  lemma LogoutMeans(s: State, slug: string, cookie: string)
    requires Inv(s) && cookie != ""
    ensures var v := Serve(s, Logout(slug, cookie));
            && Ended(v, SessionKey(slug, cookie))
            && (!Ended(s, SessionKey(slug, cookie)) ==>
                  var sid := s.sessions[SessionKey(slug, cookie)].value.sid;
                  SessionKey(slug, cookie) !in Members(v.sessionsBySid, SidKey(sid), v.now))
            && (forall key :: key != SessionKey(slug, cookie) && key in s.sessions ==>
                  key in v.sessions && v.sessions[key] == s.sessions[key])
  {
    LoadFinds(s, slug, cookie);
    assert SessionOk(s, SessionKey(slug, cookie)) && CreatedOk(s, SessionKey(slug, cookie));
  }

  /** A refresh with nothing else running stores the new tokens in the session that was found, seen now. */
  lemma RefreshedMeans(s: State, slug: string, cookie: string, tokens: Tokens)
    requires Inv(s) && Load(s, slug, cookie).1.Some?
    ensures var key := SessionKey(slug, cookie);
            key in s.sessions
            && Serve(s, Refreshed(slug, cookie, tokens))
               == s.(sessions := s.sessions[key := Entry(s.sessions[key].value.(tokens := tokens, lastSeenAt := s.now),
                                                         s.sessions[key].expiresAt)])
  {
    LoadFinds(s, slug, cookie);
    assert SessionOk(s, SessionKey(slug, cookie)) && CreatedOk(s, SessionKey(slug, cookie));
  }
}
