/** Plain timed maps: what a TTL store means, apart from how it cleans up after itself.
    An entry is never removed because it expired; it just stops being visible. */
module Timed {
  datatype Option<+T> = None | Some(value: T)

  datatype Entry<+V> = Entry(value: V, expiresAt: int)

  /** An entry is visible strictly before its expiry. */
  predicate Live<K, V>(m: map<K, Entry<V>>, k: K, now: int) {
    k in m && m[k].expiresAt > now
  }

  function Get<K, V>(m: map<K, Entry<V>>, k: K, now: int): Option<V> {
    if Live(m, k, now) then Some(m[k].value) else None
  }

  function Put<K, V>(m: map<K, Entry<V>>, k: K, v: V, now: int, ttl: int): map<K, Entry<V>> {
    m[k := Entry(v, now + ttl)]
  }

  /** Replaces the value of a visible key and leaves its expiry alone. */
  function Update<K, V>(m: map<K, Entry<V>>, k: K, v: V, now: int): map<K, Entry<V>> {
    if Live(m, k, now) then m[k := Entry(v, m[k].expiresAt)] else m
  }

  function Members<K, V>(m: map<K, Entry<set<V>>>, k: K, now: int): set<V> {
    if Live(m, k, now) then m[k].value else {}
  }

  /** Adding to a set renews the expiry of the whole set. */
  function AddMember<K, V>(m: map<K, Entry<set<V>>>, k: K, v: V, now: int, ttl: int): map<K, Entry<set<V>>> {
    m[k := Entry(Members(m, k, now) + {v}, now + ttl)]
  }

  /** Removing from a set does not renew it. */
  function RemoveMember<K, V>(m: map<K, Entry<set<V>>>, k: K, v: V, now: int): map<K, Entry<set<V>>> {
    if Live(m, k, now) then m[k := Entry(m[k].value - {v}, m[k].expiresAt)] else m
  }

  /** A counter keeps the expiry of its first increment. */
  function Count<K>(m: map<K, Entry<nat>>, k: K, now: int, ttl: int): map<K, Entry<nat>> {
    if Live(m, k, now) then m[k := Entry(m[k].value + 1, m[k].expiresAt)] else m[k := Entry(1, now + ttl)]
  }

  // ---------- What is seen after a write ----------

  /** A value is seen from its write until its expiry, and no other key is affected. */
  lemma PutMeans<K, V>(m: map<K, Entry<V>>, k: K, v: V, now: int, ttl: int, later: int)
    requires now <= later
    ensures Get(Put(m, k, v, now, ttl), k, later) == if later < now + ttl then Some(v) else None
    ensures forall other :: other != k ==> Get(Put(m, k, v, now, ttl), other, later) == Get(m, other, later)
  {
  }

  /** An update is seen exactly as long as the value it replaces would have been. */
  lemma UpdateMeans<K, V>(m: map<K, Entry<V>>, k: K, v: V, now: int, later: int)
    requires now <= later
    ensures Get(Update(m, k, v, now), k, later) == if Get(m, k, later).Some? then Some(v) else None
    ensures forall other :: other != k ==> Get(Update(m, k, v, now), other, later) == Get(m, other, later)
  {
  }

  /** After an addition the members are those before and the new one, all of them until the new expiry. */
  lemma AddMemberMeans<K, V>(m: map<K, Entry<set<V>>>, k: K, v: V, now: int, ttl: int, later: int)
    requires now <= later
    ensures Members(AddMember(m, k, v, now, ttl), k, later)
         == if later < now + ttl then Members(m, k, now) + {v} else {}
    ensures forall other :: other != k ==>
              Members(AddMember(m, k, v, now, ttl), other, later) == Members(m, other, later)
  {
  }

  /** After a removal the member is gone, and the others are seen as long as before. */
  lemma RemoveMemberMeans<K, V>(m: map<K, Entry<set<V>>>, k: K, v: V, now: int, later: int)
    requires now <= later
    ensures Members(RemoveMember(m, k, v, now), k, later) == Members(m, k, later) - {v}
    ensures forall other :: other != k ==> Members(RemoveMember(m, k, v, now), other, later) == Members(m, other, later)
  {
  }

  /** A count goes on from the count that is seen, until the expiry of that; otherwise it starts at one. */
  lemma CountMeans<K>(m: map<K, Entry<nat>>, k: K, now: int, ttl: int, later: int)
    requires now <= later
    ensures var seen := Get(m, k, now);
            Get(Count(m, k, now, ttl), k, later)
            == if seen.None? then (if later < now + ttl then Some(1) else None)
               else if later < m[k].expiresAt then Some(seen.value + 1) else None
    ensures forall other :: other != k ==> Get(Count(m, k, now, ttl), other, later) == Get(m, other, later)
  {
  }

  // ---------- Maps that cannot be told apart ----------

  ghost predicate SameAt<K, V>(m: map<K, Entry<V>>, n: map<K, Entry<V>>, k: K, now: int) {
    (Live(m, k, now) <==> Live(n, k, now)) && (Live(m, k, now) ==> m[k] == n[k])
  }

  /** Two timed maps that no call at `now` or later can tell apart. */
  ghost predicate Agree<K(!new), V>(m: map<K, Entry<V>>, n: map<K, Entry<V>>, now: int) {
    forall k :: SameAt(m, n, k, now)
  }

  /** Agreement survives the passing of time. */
  lemma AgreeLater<K(!new), V>(m: map<K, Entry<V>>, n: map<K, Entry<V>>, now: int, later: int)
    requires Agree(m, n, now) && now <= later
    ensures Agree(m, n, later)
  {
    forall k ensures SameAt(m, n, k, later) {
      assert SameAt(m, n, k, now);
    }
  }

  /** Dropping only entries that are no longer visible changes nothing. */
  lemma AgreeCleaned<K(!new), V>(m: map<K, Entry<V>>, kept: map<K, Entry<V>>, n: map<K, Entry<V>>, now: int)
    requires Agree(m, n, now)
    requires forall k :: k in kept ==> k in m && kept[k] == m[k]
    requires forall k :: Live(m, k, now) ==> k in kept
    ensures Agree(kept, n, now)
  {
    forall k ensures SameAt(kept, n, k, now) {
      assert SameAt(m, n, k, now);
    }
  }

  lemma AgreeWrite<K(!new), V>(m: map<K, Entry<V>>, n: map<K, Entry<V>>, key: K, entry: Entry<V>, now: int)
    requires Agree(m, n, now)
    ensures Agree(m[key := entry], n[key := entry], now)
  {
    var m', n' := m[key := entry], n[key := entry];
    forall k ensures SameAt(m', n', k, now) {
      assert SameAt(m, n, k, now);
    }
  }

  lemma AgreeRemove<K(!new), V>(m: map<K, Entry<V>>, n: map<K, Entry<V>>, key: K, now: int)
    requires Agree(m, n, now)
    ensures Agree(m - {key}, n - {key}, now)
  {
    var m', n' := m - {key}, n - {key};
    forall k ensures SameAt(m', n', k, now) {
      assert SameAt(m, n, k, now);
    }
  }
}
