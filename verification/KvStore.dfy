/** The in-memory TTL stores of packages/shared/src/kv-store.ts. Each store carries, as a ghost,
    the plain timed map that has seen the same calls; lazy deletion and the sweep every 256
    writes never show. */
module KvStore {
  import opened Timed

  const SWEEP_EVERY := 256

  /** A clock that only moves forward. */
  class Clock {
    var now: int

    constructor (start: int)
      ensures now == start
    {
      now := start;
    }

    method Advance(seconds: nat)
      modifies this
      ensures now == old(now) + seconds
    {
      now := now + seconds;
    }
  }

  /** Deletes exactly the expired entries, one key at a time. */
  method Sweep<V>(entries: map<string, Entry<V>>, now: int) returns (kept: map<string, Entry<V>>)
    ensures kept == map k | k in entries && Live(entries, k, now) :: entries[k]
  {
    kept := entries;
    var keys := entries.Keys;
    while keys != {}
      invariant keys <= entries.Keys
      invariant kept.Keys == set k | k in entries && (k in keys || Live(entries, k, now))
      invariant forall k :: k in kept ==> kept[k] == entries[k]
      decreases keys
    {
      var key :| key in keys;
      if entries[key].expiresAt <= now {
        kept := kept - {key};
      }
      keys := keys - {key};
    }
  }

  class MemoryKeyValueStore<V(!new)> {
    const clock: Clock
    var entries: map<string, Entry<V>>
    var writes: nat
    ghost var model: map<string, Entry<V>>

    ghost predicate Valid()
      reads this, clock
    {
      Agree(entries, model, clock.now)
    }

    constructor (clock: Clock)
      ensures this.clock == clock && Valid() && model == map[]
    {
      this.clock := clock;
      entries, writes, model := map[], 0, map[];
    }

    /** The visible entry; an expired one is deleted on the way. */
    method Visible(key: string) returns (entry: Option<Entry<V>>)
      requires Valid()
      modifies this`entries
      ensures Valid()
      ensures entry == if Live(model, key, clock.now) then Some(model[key]) else None
      ensures entry.Some? ==> Live(entries, key, clock.now)
      ensures entry.None? ==> key !in entries
    {
      if key !in entries {
        assert SameAt(entries, model, key, clock.now);
        return None;
      }
      assert SameAt(entries, model, key, clock.now);
      if entries[key].expiresAt <= clock.now {
        AgreeCleaned(entries, entries - {key}, model, clock.now);
        entries := entries - {key};
        return None;
      }
      return Some(entries[key]);
    }

    method Write(key: string, entry: Entry<V>)
      requires Valid()
      modifies this
      ensures Valid() && model == old(model)[key := entry]
    {
      entries := entries[key := entry];
      writes := writes + 1;
      model := model[key := entry];
      assert Agree(entries, model, clock.now) by { AgreeWrite(old(entries), old(model), key, entry, clock.now); }
      if writes % SWEEP_EVERY == 0 {
        ghost var full := entries;
        entries := Sweep(entries, clock.now);
        AgreeCleaned(full, entries, model, clock.now);
      }
    }

    method Get(key: string) returns (value: Option<V>)
      requires Valid()
      modifies this
      ensures Valid() && model == old(model)
      ensures value == Timed.Get(model, key, clock.now)
    {
      var entry := Visible(key);
      return if entry.Some? then Some(entry.value.value) else None;
    }

    method Set(key: string, value: V, ttlSeconds: int)
      requires Valid()
      modifies this
      ensures Valid() && model == Put(old(model), key, value, clock.now, ttlSeconds)
    {
      Write(key, Entry(value, clock.now + ttlSeconds));
    }

    method Update(key: string, value: V) returns (updated: bool)
      requires Valid()
      modifies this
      ensures Valid() && model == Timed.Update(old(model), key, value, clock.now)
      ensures updated == Live(old(model), key, clock.now)
    {
      var entry := Visible(key);
      if entry.None? {
        return false;
      }
      AgreeWrite(entries, model, key, Entry(value, entry.value.expiresAt), clock.now);
      entries := entries[key := Entry(value, entry.value.expiresAt)];
      model := model[key := Entry(value, entry.value.expiresAt)];
      return true;
    }

    method Delete(key: string)
      requires Valid()
      modifies this
      ensures Valid() && model == old(model) - {key}
    {
      AgreeRemove(entries, model, key, clock.now);
      entries := entries - {key};
      model := model - {key};
    }

    method GetAndDelete(key: string) returns (value: Option<V>)
      requires Valid()
      modifies this
      ensures Valid() && model == old(model) - {key}
      ensures value == Timed.Get(old(model), key, clock.now)
    {
      var entry := Visible(key);
      Delete(key);
      return if entry.Some? then Some(entry.value.value) else None;
    }

    method SetIfAbsent(key: string, value: V, ttlSeconds: int) returns (written: bool)
      requires Valid()
      modifies this
      ensures Valid() && written == !Live(old(model), key, clock.now)
      ensures model == if written then Put(old(model), key, value, clock.now, ttlSeconds) else old(model)
    {
      var entry := Visible(key);
      if entry.Some? {
        return false;
      }
      Write(key, Entry(value, clock.now + ttlSeconds));
      return true;
    }
  }

  class MemorySetStore {
    const clock: Clock
    var sets: map<string, Entry<set<string>>>
    var writes: nat
    ghost var model: map<string, Entry<set<string>>>

    ghost predicate Valid()
      reads this, clock
    {
      Agree(sets, model, clock.now)
    }

    constructor (clock: Clock)
      ensures this.clock == clock && Valid() && model == map[]
    {
      this.clock := clock;
      sets, writes, model := map[], 0, map[];
    }

    method Visible(key: string) returns (members: Option<set<string>>)
      requires Valid()
      modifies this`sets
      ensures Valid()
      ensures members == Timed.Get(model, key, clock.now)
      ensures members.Some? ==> Live(sets, key, clock.now)
    {
      if key !in sets {
        assert SameAt(sets, model, key, clock.now);
        return None;
      }
      assert SameAt(sets, model, key, clock.now);
      if sets[key].expiresAt <= clock.now {
        AgreeCleaned(sets, sets - {key}, model, clock.now);
        sets := sets - {key};
        return None;
      }
      return Some(sets[key].value);
    }

    method Add(key: string, member: string, ttlSeconds: int)
      requires Valid()
      modifies this
      ensures Valid() && model == AddMember(old(model), key, member, clock.now, ttlSeconds)
    {
      var live := Visible(key);
      var members := (if live.Some? then live.value else {}) + {member};
      AgreeWrite(sets, model, key, Entry(members, clock.now + ttlSeconds), clock.now);
      sets := sets[key := Entry(members, clock.now + ttlSeconds)];
      model := model[key := Entry(members, clock.now + ttlSeconds)];
      writes := writes + 1;
      if writes % SWEEP_EVERY == 0 {
        ghost var full := sets;
        sets := Sweep(sets, clock.now);
        AgreeCleaned(full, sets, model, clock.now);
      }
    }

    method Remove(key: string, member: string)
      requires Valid()
      modifies this
      ensures Valid() && model == RemoveMember(old(model), key, member, clock.now)
    {
      var live := Visible(key);
      if live.Some? {
        var entry := Entry(live.value - {member}, sets[key].expiresAt);
        assert SameAt(sets, model, key, clock.now);
        AgreeWrite(sets, model, key, entry, clock.now);
        sets := sets[key := entry];
        model := model[key := entry];
      }
    }

    method Members(key: string) returns (members: set<string>)
      requires Valid()
      modifies this
      ensures Valid() && model == old(model)
      ensures members == Timed.Members(model, key, clock.now)
    {
      var live := Visible(key);
      return if live.Some? then live.value else {};
    }

    method Delete(key: string)
      requires Valid()
      modifies this
      ensures Valid() && model == old(model) - {key}
    {
      AgreeRemove(sets, model, key, clock.now);
      sets := sets - {key};
      model := model - {key};
    }
  }

  class MemoryCounterStore {
    const clock: Clock
    var counters: map<string, Entry<nat>>
    var writes: nat
    ghost var model: map<string, Entry<nat>>

    ghost predicate Valid()
      reads this, clock
    {
      Agree(counters, model, clock.now)
    }

    constructor (clock: Clock)
      ensures this.clock == clock && Valid() && model == map[]
    {
      this.clock := clock;
      counters, writes, model := map[], 0, map[];
    }

    method Increment(key: string, ttlSeconds: int) returns (count: nat)
      requires Valid()
      modifies this
      ensures Valid() && model == Count(old(model), key, clock.now, ttlSeconds)
      ensures count == model[key].value
    {
      var now := clock.now;
      assert SameAt(counters, model, key, now);
      ghost var counted := Count(model, key, now, ttlSeconds);
      AgreeWrite(counters, model, key, counted[key], now);
      if key !in counters || counters[key].expiresAt <= now {
        counters := counters[key := Entry(1, now + ttlSeconds)];
        model := counted;
        writes := writes + 1;
        if writes % SWEEP_EVERY == 0 {
          ghost var full := counters;
          counters := Sweep(counters, now);
          AgreeCleaned(full, counters, model, now);
        }
        return 1;
      }
      counters := counters[key := Entry(counters[key].value + 1, counters[key].expiresAt)];
      model := counted;
      return counters[key].value;
    }
  }

  /** A call on a key-value store, made after the clock has moved on by `delay`. */
  datatype Call<V> =
    | GetCall(delay: nat, key: string)
    | SetCall(delay: nat, key: string, value: V, ttl: int)
    | UpdateCall(delay: nat, key: string, value: V)
    | DeleteCall(delay: nat, key: string)
    | TakeCall(delay: nat, key: string)
    | SetIfAbsentCall(delay: nat, key: string, value: V, ttl: int)

  datatype Answer<V> = Value(found: Option<V>) | Flag(done: bool) | Nothing

  /** The answers of a plain timed map to a sequence of calls. */
  function Answers<V>(m: map<string, Entry<V>>, now: int, calls: seq<Call<V>>): (answers: seq<Answer<V>>)
    ensures |answers| == |calls|
    decreases calls
  {
    if calls == [] then []
    else
      var t := now + calls[0].delay;
      var (m', answer) := Respond(m, t, calls[0]);
      [answer] + Answers(m', t, calls[1..])
  }

  function Respond<V>(m: map<string, Entry<V>>, t: int, call: Call<V>): (map<string, Entry<V>>, Answer<V>) {
    match call
    case GetCall(_, k) => (m, Value(Timed.Get(m, k, t)))
    case SetCall(_, k, v, ttl) => (Put(m, k, v, t, ttl), Nothing)
    case UpdateCall(_, k, v) => (Timed.Update(m, k, v, t), Flag(Live(m, k, t)))
    case DeleteCall(_, k) => (m - {k}, Nothing)
    case TakeCall(_, k) => (m - {k}, Value(Timed.Get(m, k, t)))
    case SetIfAbsentCall(_, k, v, ttl) =>
      if Live(m, k, t) then (m, Flag(false)) else (Put(m, k, v, t, ttl), Flag(true))
  }

  method Perform<V(!new)>(store: MemoryKeyValueStore<V>, call: Call<V>) returns (answer: Answer<V>)
    requires store.Valid()
    modifies store
    ensures store.Valid() && (store.model, answer) == Respond(old(store.model), store.clock.now, call)
  {
    match call {
      case GetCall(_, k) => var v := store.Get(k); answer := Value(v);
      case SetCall(_, k, v, ttl) => store.Set(k, v, ttl); answer := Nothing;
      case UpdateCall(_, k, v) => var b := store.Update(k, v); answer := Flag(b);
      case DeleteCall(_, k) => store.Delete(k); answer := Nothing;
      case TakeCall(_, k) => var v := store.GetAndDelete(k); answer := Value(v);
      case SetIfAbsentCall(_, k, v, ttl) => var b := store.SetIfAbsent(k, v, ttl); answer := Flag(b);
    }
  }

  /** Any sequence of calls, at any non-decreasing times, is answered as the plain timed map
      would answer it. */
  method Replay<V(!new)>(store: MemoryKeyValueStore<V>, calls: seq<Call<V>>) returns (answers: seq<Answer<V>>)
    requires store.Valid()
    modifies store, store.clock
    ensures store.Valid()
    ensures answers == Answers(old(store.model), old(store.clock.now), calls)
  {
    answers := [];
    var i := 0;
    while i < |calls|
      invariant 0 <= i <= |calls| && store.Valid()
      invariant answers + Answers(store.model, store.clock.now, calls[i..])
             == Answers(old(store.model), old(store.clock.now), calls)
    {
      ghost var rest := calls[i..];
      assert rest[0] == calls[i] && rest[1..] == calls[i + 1..];
      AgreeLater(store.entries, store.model, store.clock.now, store.clock.now + calls[i].delay);
      store.clock.Advance(calls[i].delay);
      var answer := Perform(store, calls[i]);
      answers := answers + [answer];
      i := i + 1;
    }
    assert calls[i..] == [];
  }

  /** A call on a set store, made after the clock has moved on by `delay`. */
  datatype CallOnSet =
    | AddMemberCall(delay: nat, key: string, member: string, ttl: int)
    | RemoveMemberCall(delay: nat, key: string, member: string)
    | MembersCall(delay: nat, key: string)
    | DeleteSetCall(delay: nat, key: string)

  /** Only a look at the members has an answer. */
  datatype SetAnswer = Seen(members: set<string>) | Silent

  /** What a plain timed map of sets does and answers. */
  function RespondSet(m: map<string, Entry<set<string>>>, t: int, call: CallOnSet)
    : (map<string, Entry<set<string>>>, SetAnswer)
  {
    match call
    case AddMemberCall(_, k, v, ttl) => (AddMember(m, k, v, t, ttl), Silent)
    case RemoveMemberCall(_, k, v) => (RemoveMember(m, k, v, t), Silent)
    case MembersCall(_, k) => (m, Seen(Members(m, k, t)))
    case DeleteSetCall(_, k) => (m - {k}, Silent)
  }

  function SetAnswers(m: map<string, Entry<set<string>>>, now: int, calls: seq<CallOnSet>): seq<SetAnswer>
    decreases calls
  {
    if calls == [] then []
    else
      var t := now + calls[0].delay;
      var (m', answer) := RespondSet(m, t, calls[0]);
      [answer] + SetAnswers(m', t, calls[1..])
  }

  method PerformSet(store: MemorySetStore, call: CallOnSet) returns (answer: SetAnswer)
    requires store.Valid()
    modifies store, store.clock
    ensures store.Valid() && store.clock.now == old(store.clock.now) + call.delay
    ensures (store.model, answer) == RespondSet(old(store.model), store.clock.now, call)
  {
    AgreeLater(store.sets, store.model, store.clock.now, store.clock.now + call.delay);
    store.clock.Advance(call.delay);
    answer := Silent;
    match call {
      case AddMemberCall(_, k, v, ttl) => store.Add(k, v, ttl);
      case RemoveMemberCall(_, k, v) => store.Remove(k, v);
      case MembersCall(_, k) => var members := store.Members(k); answer := Seen(members);
      case DeleteSetCall(_, k) => store.Delete(k);
    }
  }

  /** The same for sets, which are renewed by every addition. */
  method ReplaySet(store: MemorySetStore, calls: seq<CallOnSet>) returns (answers: seq<SetAnswer>)
    requires store.Valid()
    modifies store, store.clock
    ensures store.Valid()
    ensures answers == SetAnswers(old(store.model), old(store.clock.now), calls)
  {
    answers := [];
    var i := 0;
    while i < |calls|
      invariant 0 <= i <= |calls| && store.Valid()
      invariant answers + SetAnswers(store.model, store.clock.now, calls[i..])
             == SetAnswers(old(store.model), old(store.clock.now), calls)
    {
      assert calls[i..][0] == calls[i] && calls[i..][1..] == calls[i + 1..];
      var answer := PerformSet(store, calls[i]);
      answers := answers + [answer];
      i := i + 1;
    }
    assert calls[i..] == [];
  }

  /** An increment of a counter, made after the clock has moved on by `delay`. */
  datatype CountCall = CountCall(delay: nat, key: string, ttl: int)

  function Counts(m: map<string, Entry<nat>>, now: int, calls: seq<CountCall>): seq<nat>
    decreases calls
  {
    if calls == [] then []
    else
      var t := now + calls[0].delay;
      var m' := Count(m, calls[0].key, t, calls[0].ttl);
      [m'[calls[0].key].value] + Counts(m', t, calls[1..])
  }

  /** And for counters, which keep their first expiry. */
  method ReplayCounts(store: MemoryCounterStore, calls: seq<CountCall>) returns (counts: seq<nat>)
    requires store.Valid()
    modifies store, store.clock
    ensures store.Valid()
    ensures counts == Counts(old(store.model), old(store.clock.now), calls)
  {
    counts := [];
    var i := 0;
    while i < |calls|
      invariant 0 <= i <= |calls| && store.Valid()
      invariant counts + Counts(store.model, store.clock.now, calls[i..])
             == Counts(old(store.model), old(store.clock.now), calls)
    {
      ghost var rest := calls[i..];
      assert rest[0] == calls[i] && rest[1..] == calls[i + 1..];
      AgreeLater(store.counters, store.model, store.clock.now, store.clock.now + calls[i].delay);
      store.clock.Advance(calls[i].delay);
      var count := store.Increment(calls[i].key, calls[i].ttl);
      counts := counts + [count];
      i := i + 1;
    }
    assert calls[i..] == [];
  }

  predicate Writes<V>(call: Call<V>, key: string) {
    (call.SetCall? || call.SetIfAbsentCall?) && call.key == key
  }

  /** What was handed out by getAndDelete is handed out again only after a new write:
      of two takes of one key with no write between them, the second finds nothing. */
  lemma {:induction false} HandedOutOnce<V>(m: map<string, Entry<V>>, now: int, calls: seq<Call<V>>, i: nat, j: nat)
    requires i < j < |calls| && calls[i].TakeCall? && calls[j].TakeCall? && calls[i].key == calls[j].key
    requires forall n :: i < n < j ==> !Writes(calls[n], calls[i].key)
    ensures Answers(m, now, calls)[j] == Value(None)
    decreases calls
  {
    var t := now + calls[0].delay;
    var m' := Respond(m, t, calls[0]).0;
    if i == 0 {
      AbsentUntilWritten(m', t, calls[1..], j - 1);
    } else {
      HandedOutOnce(m', t, calls[1..], i - 1, j - 1);
    }
  }

  lemma {:induction false} AbsentUntilWritten<V>(m: map<string, Entry<V>>, now: int, calls: seq<Call<V>>, j: nat)
    requires j < |calls| && calls[j].TakeCall? && calls[j].key !in m
    requires forall n :: 0 <= n < j ==> !Writes(calls[n], calls[j].key)
    ensures Answers(m, now, calls)[j] == Value(None)
    decreases calls
  {
    if j > 0 {
      var t := now + calls[0].delay;
      assert !Writes(calls[0], calls[j].key);
      AbsentUntilWritten(Respond(m, t, calls[0]).0, t, calls[1..], j - 1);
    }
  }
}
