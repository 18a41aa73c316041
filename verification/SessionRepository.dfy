/** The record of browser sessions kept beside the volatile stores, as
    memory-session-repository.ts keeps it: records are never deleted. */
module SessionRepository {
  import opened Timed
  import opened SessionExpiry

  const SSO_POLICY := Policy(2 * 60 * 60, 12 * 60 * 60)

  datatype Environment = Environment(ip: string, userAgent: string)

  datatype RevokeReason = GlobalLogout | UserRevoked

  datatype SessionRecord = SessionRecord(
    userId: string, environment: Environment, createdAt: int, lastSeenAt: int,
    revoked: Option<(int, RevokeReason)>)

  datatype ClientEntry = ClientEntry(
    sessionId: nat, oidcClientId: string, tenantId: string, firstSeenAt: int, lastSeenAt: int)

  datatype Repo = Repo(sessions: map<nat, SessionRecord>, clients: seq<ClientEntry>)

  predicate IsFor(entry: ClientEntry, sessionId: nat, oidcClientId: string, tenantId: string) {
    entry.sessionId == sessionId && entry.oidcClientId == oidcClientId && entry.tenantId == tenantId
  }

  /** The session issued a code to this client for this tenant. */
  predicate Visited(repo: Repo, sessionId: nat, oidcClientId: string, tenantId: string) {
    exists e :: e in repo.clients && IsFor(e, sessionId, oidcClientId, tenantId)
  }

  /** One entry per session, client and tenant. */
  ghost predicate NoDuplicates(clients: seq<ClientEntry>) {
    forall i, j :: 0 <= i < j < |clients| ==>
      !IsFor(clients[j], clients[i].sessionId, clients[i].oidcClientId, clients[i].tenantId)
  }

  function Created(repo: Repo, id: nat, userId: string, environment: Environment, at: int): Repo {
    repo.(sessions := repo.sessions[id := SessionRecord(userId, environment, at, at, None)])
  }

  function Touched(repo: Repo, id: nat, environment: Environment, at: int): Repo {
    if id !in repo.sessions then repo
    else repo.(sessions := repo.sessions[id := repo.sessions[id].(environment := environment, lastSeenAt := at)])
  }

  /** The position of the entry, or the length when there is none. */
  function IndexOf(clients: seq<ClientEntry>, sessionId: nat, oidcClientId: string, tenantId: string): (i: nat)
    ensures i <= |clients|
    ensures forall j :: 0 <= j < i ==> !IsFor(clients[j], sessionId, oidcClientId, tenantId)
    ensures i < |clients| ==> IsFor(clients[i], sessionId, oidcClientId, tenantId)
  {
    if clients == [] || IsFor(clients[0], sessionId, oidcClientId, tenantId) then 0
    else 1 + IndexOf(clients[1..], sessionId, oidcClientId, tenantId)
  }

  function Recorded(clients: seq<ClientEntry>, sessionId: nat, oidcClientId: string, tenantId: string, at: int)
    : seq<ClientEntry>
  {
    var i := IndexOf(clients, sessionId, oidcClientId, tenantId);
    if i < |clients| then clients[i := clients[i].(lastSeenAt := at)]
    else clients + [ClientEntry(sessionId, oidcClientId, tenantId, at, at)]
  }

  function MarkedRevoked(repo: Repo, id: nat, reason: RevokeReason, at: int): Repo {
    if id !in repo.sessions || repo.sessions[id].revoked.Some? then repo
    else repo.(sessions := repo.sessions[id := repo.sessions[id].(revoked := Some((at, reason)))])
  }

  predicate Active(record: SessionRecord, now: int) {
    && record.revoked.None?
    && record.lastSeenAt + SSO_POLICY.idleSeconds > now
    && record.createdAt + SSO_POLICY.absoluteSeconds > now
  }

  function ActiveByUser(repo: Repo, userId: string, now: int): set<nat> {
    set id | id in repo.sessions && repo.sessions[id].userId == userId && Active(repo.sessions[id], now)
  }

  /** Recording a client remembers it and forgets nobody. */
  lemma RecordedVisits(repo: Repo, sessionId: nat, oidcClientId: string, tenantId: string, at: int)
    ensures var repo' := repo.(clients := Recorded(repo.clients, sessionId, oidcClientId, tenantId, at));
            forall sid, c, t :: Visited(repo', sid, c, t) <==>
              Visited(repo, sid, c, t) || (sid == sessionId && c == oidcClientId && t == tenantId)
  {
    var repo' := repo.(clients := Recorded(repo.clients, sessionId, oidcClientId, tenantId, at));
    var i := IndexOf(repo.clients, sessionId, oidcClientId, tenantId);
    assert IsFor(repo'.clients[i], sessionId, oidcClientId, tenantId);
    forall sid, c, t | Visited(repo, sid, c, t) ensures Visited(repo', sid, c, t) {
      var e :| e in repo.clients && IsFor(e, sid, c, t);
      var j :| 0 <= j < |repo.clients| && repo.clients[j] == e;
      assert IsFor(repo'.clients[j], sid, c, t);
    }
  }

  /** The record of visits keeps one entry per session, client and tenant. The entry of this visit is seen
      now and keeps the time it was first seen; every other stays as it is. */
  lemma RecordedKeeps(clients: seq<ClientEntry>, sessionId: nat, oidcClientId: string, tenantId: string, at: int)
    requires NoDuplicates(clients)
    ensures var r := Recorded(clients, sessionId, oidcClientId, tenantId, at);
            && NoDuplicates(r)
            && |clients| <= |r| <= |clients| + 1
            && (forall i :: 0 <= i < |clients| ==>
                  r[i] == if IsFor(clients[i], sessionId, oidcClientId, tenantId)
                          then clients[i].(lastSeenAt := at) else clients[i])
            && (|r| > |clients| ==> r[|clients|] == ClientEntry(sessionId, oidcClientId, tenantId, at, at))
  {
    var r := Recorded(clients, sessionId, oidcClientId, tenantId, at);
    forall i, j | 0 <= i < j < |r|
      ensures !IsFor(r[j], r[i].sessionId, r[i].oidcClientId, r[i].tenantId)
    {
      if j < |clients| {
        assert !IsFor(clients[j], clients[i].sessionId, clients[i].oidcClientId, clients[i].tenantId);
      } else {
        assert !IsFor(clients[i], sessionId, oidcClientId, tenantId);
      }
    }
  }

  class MemorySessionRepository {
    var sessions: map<nat, SessionRecord>
    var clients: seq<ClientEntry>

    ghost function Contents(): Repo
      reads this
    {
      Repo(sessions, clients)
    }

    constructor ()
      ensures Contents() == Repo(map[], [])
    {
      sessions, clients := map[], [];
    }

    method Create(id: nat, userId: string, environment: Environment, at: int)
      modifies this
      ensures Contents() == Created(old(Contents()), id, userId, environment, at)
    {
      sessions := sessions[id := SessionRecord(userId, environment, at, at, None)];
    }

    /** Answers the environment seen before. */
    method Touch(id: nat, environment: Environment, at: int) returns (previous: Option<Environment>)
      modifies this
      ensures Contents() == Touched(old(Contents()), id, environment, at)
      ensures previous == if id in old(sessions) then Some(old(sessions)[id].environment) else None
    {
      if id !in sessions {
        return None;
      }
      previous := Some(sessions[id].environment);
      sessions := sessions[id := sessions[id].(environment := environment, lastSeenAt := at)];
    }

    method RecordClient(sessionId: nat, oidcClientId: string, tenantId: string, at: int)
      modifies this
      ensures sessions == old(sessions)
      ensures clients == Recorded(old(clients), sessionId, oidcClientId, tenantId, at)
    {
      var i := 0;
      while i < |clients| && !IsFor(clients[i], sessionId, oidcClientId, tenantId)
        invariant 0 <= i <= |clients|
        invariant forall j :: 0 <= j < i ==> !IsFor(clients[j], sessionId, oidcClientId, tenantId)
      {
        i := i + 1;
      }
      assert i == IndexOf(clients, sessionId, oidcClientId, tenantId);
      if i < |clients| {
        clients := clients[i := clients[i].(lastSeenAt := at)];
        return;
      }
      clients := clients + [ClientEntry(sessionId, oidcClientId, tenantId, at, at)];
    }

    method MarkRevoked(id: nat, reason: RevokeReason, at: int)
      modifies this
      ensures Contents() == MarkedRevoked(old(Contents()), id, reason, at)
    {
      if id !in sessions || sessions[id].revoked.Some? {
        return;
      }
      sessions := sessions[id := sessions[id].(revoked := Some((at, reason)))];
    }

    method ListActiveByUser(userId: string, now: int) returns (ids: set<nat>)
      ensures ids == ActiveByUser(Contents(), userId, now)
    {
      ids := set id | id in sessions && sessions[id].userId == userId && Active(sessions[id], now);
    }

    /** The clients this session issued codes to. */
    method ClientsOf(id: nat) returns (visited: set<(string, string)>)
      ensures forall c, t :: (c, t) in visited <==> Visited(Contents(), id, c, t)
    {
      visited := set e | e in clients && e.sessionId == id :: (e.oidcClientId, e.tenantId);
      forall c, t ensures (c, t) in visited <==> Visited(Contents(), id, c, t) {
        if (c, t) in visited {
          var e :| e in clients && e.sessionId == id && (e.oidcClientId, e.tenantId) == (c, t);
          assert IsFor(e, id, c, t);
        }
        if Visited(Contents(), id, c, t) {
          var e :| e in clients && IsFor(e, id, c, t);
        }
      }
    }
  }
}
