/** The cached key set of packages/shared/src/jwks.ts: when it fetches, and what it answers. */
module Jwks {
  import opened Timed

  const REFRESH_MIN_INTERVAL_SECONDS := 60
  const CACHE_TTL_SECONDS := 10 * 60

  type Keys = set<string>

  /** A call is answered from the cache at once, or with the outcome of the fetch in flight. */
  datatype Answer = Cached(keys: Keys) | Awaiting

  /** A fetch: when it started, for a forced call or not, and whether there was a cache then. */
  datatype Fetch = Fetch(at: int, forced: bool, cached: bool)

  /** `fetches` records every fetch; no step depends on it. */
  datatype State = State(now: int, cached: Option<Keys>, attemptedAt: int, forcedAt: int, inflight: bool,
                         fetches: seq<Fetch>)

  // ---------- What a call and a finished fetch do ----------

  function StartOrJoin(s: State, forced: bool): State {
    if s.inflight then s
    else s.(attemptedAt := s.now, inflight := true, fetches := s.fetches + [Fetch(s.now, forced, s.cached.Some?)])
  }

  function GetKeySet(s: State, force: bool): (State, Answer) {
    var throttled := if force then s.now - s.forcedAt < REFRESH_MIN_INTERVAL_SECONDS
        else s.now - s.attemptedAt < CACHE_TTL_SECONDS;
    if s.cached.Some? && throttled then (s, Cached(s.cached.value))
    else (StartOrJoin(if force then s.(forcedAt := s.now) else s, force), Awaiting)
  }

  /** A fetch ends with keys, or in some failure; what its callers get, None for an error. */
  function Finish(s: State, fetched: Option<Keys>): (State, Option<Keys>) {
    var s' := s.(inflight := false, cached := if fetched.Some? then fetched else s.cached);
    (s', s'.cached)
  }

  class RemoteJwksSource {
    var cached: Option<Keys>
    var attemptedAt: int
    var forcedAt: int
    var inflight: bool
    ghost var fetches: seq<Fetch>

    ghost function View(now: int): State
      reads this
    {
      State(now, cached, attemptedAt, forcedAt, inflight, fetches)
    }

    constructor ()
      ensures forall now :: View(now) == State(now, None, 0, 0, false, [])
    {
      cached, attemptedAt, forcedAt, inflight, fetches := None, 0, 0, false, [];
    }

    /** The branch for a retry soon after a failure is never taken: whatever it would hold back
        counts as fresh before. */
    method GetKeys(force: bool, now: int) returns (answer: Answer)
      modifies this
      ensures (View(now), answer) == GetKeySet(old(View(now)), force)
    {
      var recent := cached.Some? && now - attemptedAt < CACHE_TTL_SECONDS;
      if force {
        if now - forcedAt < REFRESH_MIN_INTERVAL_SECONDS && cached.Some? {
          return Cached(cached.value);
        }
        forcedAt := now;
      } else if recent {
        return Cached(cached.value);
      } else if cached.Some? && now - attemptedAt < REFRESH_MIN_INTERVAL_SECONDS {
        assert false;
      }
      if !inflight {
        attemptedAt, inflight := now, true;
        fetches := fetches + [Fetch(now, force, cached.Some?)];
      }
      return Awaiting;
    }

    method FetchDone(fetched: Option<Keys>, ghost now: int) returns (result: Option<Keys>)
      modifies this
      ensures (View(now), result) == Finish(old(View(now)), fetched)
    {
      inflight := false;
      if fetched.Some? {
        cached := fetched;
      }
      return cached;
    }
  }

  // ---------- Runs ----------

  datatype Event = Tick(seconds: nat) | Call(force: bool) | Done(fetched: Option<Keys>)

  function Serve(s: State, e: Event): State {
    match e
    case Tick(seconds) => s.(now := s.now + seconds)
    case Call(force) => GetKeySet(s, force).0
    case Done(fetched) => if s.inflight then Finish(s, fetched).0 else s
  }

  function Run(s: State, events: seq<Event>): State
    decreases events
  {
    if events == [] then s else Run(Serve(s, events[0]), events[1..])
  }

  /** How long before a fetch made with a cache an earlier one must have started. */
  predicate Spaced(earlier: Fetch, later: Fetch) {
    && earlier.at <= later.at
    && (later.cached && later.forced && earlier.forced ==> earlier.at + REFRESH_MIN_INTERVAL_SECONDS <= later.at)
    && (later.cached && !later.forced ==> earlier.at + CACHE_TTL_SECONDS <= later.at)
  }

  predicate Inv(s: State) {
    && (forall i, j :: 0 <= i < j < |s.fetches| ==> Spaced(s.fetches[i], s.fetches[j]))
    && (forall i :: 0 <= i < |s.fetches| ==> s.fetches[i].at <= s.attemptedAt && s.fetches[i].at <= s.now)
    && (forall i :: 0 <= i < |s.fetches| && s.fetches[i].forced ==> s.fetches[i].at <= s.forcedAt)
  }

  lemma ServeInv(s: State, e: Event)
    requires Inv(s)
    ensures Inv(Serve(s, e))
  {
  }

  lemma {:induction false} RunInv(s: State, events: seq<Event>)
    requires Inv(s)
    ensures Inv(Run(s, events))
    decreases events
  {
    if events != [] {
      ServeInv(s, events[0]);
      RunInv(Serve(s, events[0]), events[1..]);
    }
  }

  /** Once there is a key set, in every run there is one, every call is answered from it or waits
      for the one fetch in flight, and that fetch gives its callers a key set however it ends. */
  lemma {:induction false} NeverFailsOnceCached(s: State, events: seq<Event>, force: bool, fetched: Option<Keys>)
    requires s.cached.Some?
    ensures var v := Run(s, events);
            && v.cached.Some?
            && (GetKeySet(v, force).1 == Cached(v.cached.value)
                || (GetKeySet(v, force).1 == Awaiting && GetKeySet(v, force).0.inflight))
            && Finish(v, fetched).1.Some?
    decreases events
  {
    if events != [] {
      NeverFailsOnceCached(Serve(s, events[0]), events[1..], force, fetched);
    }
  }

  /** A fetch starts only when none is in flight. */
  lemma OneInFlight(s: State, e: Event)
    ensures var v := Serve(s, e);
            v.fetches == s.fetches || (!s.inflight && v.inflight && |v.fetches| == |s.fetches| + 1)
  {
  }

  /** Exactly when a call starts a fetch. Without a cache nothing is held back. */
  lemma StartsIff(s: State, force: bool)
    ensures |GetKeySet(s, force).0.fetches| == |s.fetches| + 1 <==>
              && !s.inflight
              && (|| s.cached.None?
                  || s.now >= (if force then s.forcedAt + REFRESH_MIN_INTERVAL_SECONDS
                      else s.attemptedAt + CACHE_TTL_SECONDS))
  {
  }

  predicate Fetched(e: Event) {
    e.Done? && e.fetched.Some?
  }

  /** Between two starts of a fetch there is always the end of one, in every run. */
  lemma {:induction false} StartsAreApart(s: State, events: seq<Event>)
    requires forall i :: 0 <= i < |events| ==> !events[i].Done?
    ensures var v := Run(s, events);
            |v.fetches| <= |s.fetches| + (if s.inflight then 0 else 1)
                && (|v.fetches| > |s.fetches| || s.inflight ==> v.inflight)
    decreases events
  {
    if events != [] {
      OneInFlight(s, events[0]);
      assert forall i :: 0 <= i < |events[1..]| ==> events[1..][i] == events[i + 1];
      StartsAreApart(Serve(s, events[0]), events[1..]);
    }
  }

  /** As long as no fetch has brought keys, nothing is held back: in every run every call either
      joins the fetch in flight or starts one. */
  lemma {:induction false} UncachedNeverHeldBack(s: State, events: seq<Event>, force: bool)
    requires s.cached.None? && forall i :: 0 <= i < |events| ==> !Fetched(events[i])
    ensures var v := Run(s, events);
            && v.cached.None? && GetKeySet(v, force).1 == Awaiting
            && (|GetKeySet(v, force).0.fetches| == |v.fetches| + 1 <==> !v.inflight)
    decreases events
  {
    if events != [] {
      assert !Fetched(events[0]);
      assert forall i :: 0 <= i < |events[1..]| ==> events[1..][i] == events[i + 1];
      UncachedNeverHeldBack(Serve(s, events[0]), events[1..], force);
    }
  }

  /** What the last fetch that brought keys has brought is what is cached: when it ends its callers get
      those keys, and in every run calls answered from the cache get them until another fetch brings keys,
      while a fetch that fails gives them to its callers as well. */
  lemma CachedIsLatest(s: State, keys: Keys, events: seq<Event>, force: bool)
    requires forall i :: 0 <= i < |events| ==> !Fetched(events[i])
    ensures Finish(s, Some(keys)).1 == Some(keys)
    ensures var v := Run(Finish(s, Some(keys)).0, events);
            && GetKeySet(v, force).1 in {Cached(keys), Awaiting}
            && Finish(v, None).1 == Some(keys)
  {
    KeysStay(Finish(s, Some(keys)).0, keys, events);
  }

  lemma {:induction false} KeysStay(s: State, keys: Keys, events: seq<Event>)
    requires s.cached == Some(keys) && forall i :: 0 <= i < |events| ==> !Fetched(events[i])
    ensures Run(s, events).cached == Some(keys)
    decreases events
  {
    if events != [] {
      assert !Fetched(events[0]);
      assert forall i :: 0 <= i < |events[1..]| ==> events[1..][i] == events[i + 1];
      KeysStay(Serve(s, events[0]), keys, events[1..]);
    }
  }

  /** Every fetch so far is at least this old. */
  predicate Older(s: State, seconds: int) {
    forall i :: 0 <= i < |s.fetches| ==> s.fetches[i].at + seconds <= s.now
  }

  /** Keys go stale: in every run, once no fetch is in flight and none has started for ten minutes, a call
      starts one; until then a call that is not forced is answered from the cache, if there is one. */
  lemma StaleIsFetched(now: int, events: seq<Event>)
    requires now >= 10 * 60
    ensures var v := Run(State(now, None, 0, 0, false, []), events);
            && (!v.inflight && Older(v, 10 * 60) ==> |GetKeySet(v, false).0.fetches| == |v.fetches| + 1)
            && (v.cached.Some? && !Older(v, 10 * 60) ==> GetKeySet(v, false) == (v, Cached(v.cached.value)))
  {
    var s := State(now, None, 0, 0, false, []);
    AttemptIsLast(s, events);
    RunInv(s, events);
    var v := Run(s, events);
    StartsIff(v, false);
  }

  predicate Attempted(s: State) {
    if s.fetches == [] then s.attemptedAt == 0 && s.now >= 10 * 60 else s.attemptedAt == s.fetches[|s.fetches| - 1].at
  }

  lemma {:induction false} AttemptIsLast(s: State, events: seq<Event>)
    requires Attempted(s)
    ensures Attempted(Run(s, events))
    decreases events
  {
    if events != [] {
      AttemptIsLast(Serve(s, events[0]), events[1..]);
    }
  }

  /** A forced call that was not held back holds further ones back for one minute, whatever else is called
      and fetched meanwhile, and not longer; a call answered from the cache changes nothing. */
  lemma ForcedHeldBackIff(s: State, events: seq<Event>)
    requires s.cached.Some? && GetKeySet(s, true).1.Awaiting?
    ensures var v := Run(GetKeySet(s, true).0, events);
            && (v.now < s.now + 60 ==> v.cached.Some? && GetKeySet(v, true) == (v, Cached(v.cached.value)))
            && (v.now >= s.now + 60 && (forall i :: 0 <= i < |events| ==> events[i] != Call(true)) ==>
                  GetKeySet(v, true).1.Awaiting?)
  {
    ForcedStays(GetKeySet(s, true).0, s.now, events);
  }

  lemma {:induction false} ForcedStays(s: State, at: int, events: seq<Event>)
    requires s.cached.Some? && s.forcedAt == at && at <= s.now
    ensures var v := Run(s, events);
            && v.cached.Some? && s.now <= v.now
            && (v.now < at + 60 || (forall i :: 0 <= i < |events| ==> events[i] != Call(true)) ==> v.forcedAt == at)
    decreases events
  {
    if events != [] {
      var v := Serve(s, events[0]);
      assert forall i :: 0 <= i < |events[1..]| ==> events[1..][i] == events[i + 1];
      if v.forcedAt == at { ForcedStays(v, at, events[1..]); } else { TimeOnly(v, events[1..]); }
    }
  }

  lemma {:induction false} TimeOnly(s: State, events: seq<Event>)
    requires s.cached.Some?
    ensures Run(s, events).cached.Some? && s.now <= Run(s, events).now
    decreases events
  {
    if events != [] {
      TimeOnly(Serve(s, events[0]), events[1..]);
    }
  }

  // ---------- How many fetches ----------

  /** The fetches of one kind, made with a cache, that start between two times. */
  function Count(fetches: seq<Fetch>, forced: bool, from: int, to: int): nat {
    if fetches == [] then 0
    else
      var last := fetches[|fetches| - 1];
      Count(fetches[..|fetches| - 1], forced, from, to)
      + (if last.cached && last.forced == forced && from <= last.at <= to then 1 else 0)
  }

  function Gap(forced: bool): int {
    if forced then REFRESH_MIN_INTERVAL_SECONDS else CACHE_TTL_SECONDS
  }

  /** One more fetch of a kind needs one more gap. */
  lemma {:induction false} CountBound(fetches: seq<Fetch>, forced: bool, from: int, to: int)
    requires forall i, j :: 0 <= i < j < |fetches| ==> Spaced(fetches[i], fetches[j])
    requires from <= to
    ensures (Count(fetches, forced, from, to) - 1) * Gap(forced) <= to - from
    decreases |fetches|
  {
    if fetches != [] {
      var n := |fetches| - 1;
      var last := fetches[n];
      var rest := fetches[..n];
      if last.cached && last.forced == forced && from <= last.at <= to {
        if last.at - Gap(forced) >= from {
          CountBound(rest, forced, from, last.at - Gap(forced));
          CountNarrow(rest, forced, from, to, last.at - Gap(forced));
        } else {
          CountNarrow(rest, forced, from, to, from - 1);
          CountEmpty(rest, forced, from, from - 1);
        }
      } else {
        CountBound(rest, forced, from, to);
      }
    }
  }

  /** Fetches of the kind that all start by `end` are counted by then. */
  lemma {:induction false} CountNarrow(fetches: seq<Fetch>, forced: bool, from: int, to: int, end: int)
    requires end <= to
    requires forall i :: 0 <= i < |fetches| && fetches[i].cached && fetches[i].forced == forced ==> fetches[i].at <= end
    ensures Count(fetches, forced, from, to) == Count(fetches, forced, from, end)
    decreases |fetches|
  {
    if fetches != [] {
      CountNarrow(fetches[..|fetches| - 1], forced, from, to, end);
    }
  }

  lemma {:induction false} CountEmpty(fetches: seq<Fetch>, forced: bool, from: int, to: int)
    requires to < from
    ensures Count(fetches, forced, from, to) == 0
    decreases |fetches|
  {
    if fetches != [] {
      CountEmpty(fetches[..|fetches| - 1], forced, from, to);
    }
  }

  /** In any interval of any run, at most one forced fetch per 60 seconds and one other per 600,
      and one more of each, are made while there is a cache. */
  lemma FetchesBounded(now: int, events: seq<Event>, from: int, seconds: nat)
    ensures var v := Run(State(now, None, 0, 0, false, []), events);
            && Count(v.fetches, true, from, from + seconds) <= seconds / REFRESH_MIN_INTERVAL_SECONDS + 1
            && Count(v.fetches, false, from, from + seconds) <= seconds / CACHE_TTL_SECONDS + 1
  {
    var s := State(now, None, 0, 0, false, []);
    RunInv(s, events);
    var fetches := Run(s, events).fetches;
    CountBound(fetches, true, from, from + seconds);
    CountBound(fetches, false, from, from + seconds);
  }
}
