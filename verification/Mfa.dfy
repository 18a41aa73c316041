/** Login with a second factor, from the password to the SSO session: usecases/login.ts and
    usecases/mfa.ts, with one request at a time. */
module Mfa {
  import opened Timed
  import opened Cognito
  import opened Users

  const MFA_PENDING_TTL_SECONDS := 5 * 60
  const MFA_MAX_ATTEMPTS := 5
  const TOTP_SETUP_TTL_SECONDS := 3 * 60

  /** A login that has passed the password and still owes the second factor. A secret goes with
      the time of its issue. */
  datatype Pending =
    | Challenge(username: string, session: nat, rid: string, attempts: nat)
    | Setup(profile: Profile, accessToken: nat, secret: Option<(nat, int)>, rid: string)

  datatype MfaError = BadCredentials | Expired | WrongCode | SetupExpired | UserDisabled

  datatype Reply =
    | ChallengeFor(pendingId: nat)
    | SetupFor(pendingId: nat)
    | ShowSecret(secret: nat, expiresAt: int)
    | LoggedIn(user: User, rid: string)
    | Failed(error: MfaError)
    | Nothing

  /** An SSO session made by a login: whose it is, and the factor that was accepted for it. */
  datatype Made = Made(pendingId: nat, user: User, profile: Profile, code: string)

  /** `accepts` says whether a code is right for a secret. The last five fields record what
      happened and no step depends on them: who passed the password for a pending login and when,
      how many wrong codes were checked for it, the secret last issued to a user, and the
      sessions made. */
  datatype State = State(
    now: int,
    next: nat,
    cognito: Directory,
    pending: map<nat, Entry<Pending>>,
    users: seq<User>,
    methods: map<nat, int>,
    accepts: Checker,
    passed: map<nat, string>,
    born: map<nat, int>,
    wrong: map<nat, nat>,
    issued: map<string, (nat, int)>,
    made: seq<Made>)

  function WrongCodes(s: State, id: nat): nat {
    if id in s.wrong then s.wrong[id] else 0
  }

  // ---------- The use cases ----------

  function StorePending(s: State, pending: Pending, username: string): State {
    var id := s.next + 1;
    s.(next := s.next + 2,
       pending := Put(s.pending, id, pending, s.now, MFA_PENDING_TTL_SECONDS),
       passed := s.passed[id := username], born := s.born[id := s.now])
  }

  function Login(s: State, username: string, password: string, rid: string): (State, Reply) {
    var (c, outcome) := Authenticate(s.cognito, username, password, s.next, s.now);
    match outcome
    case InvalidCredentials => (s, Failed(BadCredentials))
    case TotpRequired(session) =>
      (StorePending(s.(cognito := c), Challenge(username, session, rid, 0), username), ChallengeFor(s.next + 1))
    case Authenticated(profile, token) =>
      (StorePending(s.(cognito := c), Setup(profile, token, None, rid), username), SetupFor(s.next + 1))
  }

  function DeletePending(s: State, id: nat): State {
    s.(pending := s.pending - {id})
  }

  /** Both factors are accepted: the user is settled, and unless disabled gets a session. */
  function FinishLogin(s: State, id: nat, profile: Profile, code: string, rid: string): (State, Reply) {
    var (users, user) := Resolve(s.users, profile.sub, profile.email, s.next);
    var resolved := s.(next := s.next + 1, users := users);
    if !user.active then (resolved, Failed(UserDisabled))
    else
      (resolved.(methods := if user.id in s.methods then s.methods else s.methods[user.id := s.now],
                 made := s.made + [Made(id, user, profile, code)]), LoggedIn(user, rid))
  }

  function CompleteChallenge(s: State, id: nat, code: string): (State, Reply) {
    var found := Get(s.pending, id, s.now);
    if found.None? || !found.value.Challenge? then (s, Failed(Expired))
    else
      var p := found.value;
      var (c, outcome) := RespondToTotp(s.cognito, p.username, p.session, code, s.next, s.now, s.accepts);
      AfterResponse(s, id, code, c, outcome)
  }

  function AfterResponse(s: State, id: nat, code: string, c: Directory, outcome: MfaOutcome<Profile>): (State, Reply)
    requires id in s.pending && s.pending[id].value.Challenge?
  {
    match outcome
    case CodeMismatch => CountWrongCode(s, id)
    case SessionGone => (DeletePending(s, id), Failed(Expired))
    case Ok(profile) =>
      var answered := DeletePending(s.(next := s.next + 1, cognito := c), id);
      FinishLogin(answered, id, profile, code, s.pending[id].value.rid)
  }

  /** The fifth wrong code ends the challenge; the others are counted without renewing it. */
  function CountWrongCode(s: State, id: nat): (State, Reply)
    requires id in s.pending && s.pending[id].value.Challenge?
  {
    var p := s.pending[id].value;
    var counted := s.(wrong := s.wrong[id := WrongCodes(s, id) + 1]);
    if p.attempts + 1 >= MFA_MAX_ATTEMPTS then (DeletePending(counted, id), Failed(Expired))
    else (counted.(pending := Update(s.pending, id, p.(attempts := p.attempts + 1), s.now)), Failed(WrongCode))
  }

  function BeginSetup(s: State, id: nat, renew: bool): (State, Reply) {
    var found := Get(s.pending, id, s.now);
    if found.None? || !found.value.Setup? then (s, Failed(Expired))
    else
      var p := found.value;
      if p.secret.Some? && p.secret.value.1 + TOTP_SETUP_TTL_SECONDS > s.now && !renew then
        (s, ShowSecret(p.secret.value.0, p.secret.value.1 + TOTP_SETUP_TTL_SECONDS))
      else
        var (c, ok) := Associate(s.cognito, p.accessToken, s.next);
        if !ok then (s, Failed(Expired))
        else
          (s.(next := s.next + 1, cognito := c,
              issued := s.issued[s.cognito.accessTokens[p.accessToken] := (s.next, s.now)],
              pending := Put(s.pending, id, p.(secret := Some((s.next, s.now))), s.now, MFA_PENDING_TTL_SECONDS)),
           ShowSecret(s.next, s.now + TOTP_SETUP_TTL_SECONDS))
  }

  function CompleteSetup(s: State, id: nat, code: string): (State, Reply) {
    var found := Get(s.pending, id, s.now);
    if found.None? || !found.value.Setup? then (s, Failed(Expired))
    else
      var p := found.value;
      if p.secret.None? || p.secret.value.1 + TOTP_SETUP_TTL_SECONDS <= s.now then (s, Failed(SetupExpired))
      else
        var (verified, outcome) := VerifySecret(s.cognito, p.accessToken, code, s.now, s.accepts);
        AfterVerification(s, id, code, verified, outcome)
  }

  function AfterVerification(s: State, id: nat, code: string, verified: Directory, outcome: MfaOutcome<()>)
    : (State, Reply)
    requires id in s.pending && s.pending[id].value.Setup?
  {
    match outcome
    case CodeMismatch => (s, Failed(WrongCode))
    case SessionGone => (DeletePending(s, id), Failed(Expired))
    case Ok(_) =>
      var p := s.pending[id].value;
      var (enabled, ok) := Enable(verified, p.accessToken);
      var done := DeletePending(s.(cognito := enabled), id);
      if !ok then (done, Failed(Expired)) else FinishLogin(done, id, p.profile, code, p.rid)
  }

  // ---------- Runs ----------

  datatype Event =
    | Tick(seconds: nat)
    | EditUsers(users: seq<User>)
    | PasswordRequest(username: string, password: string, rid: string)
    | ChallengeRequest(pendingId: nat, code: string)
    | SetupRequest(pendingId: nat, renew: bool)
    | EnrolRequest(pendingId: nat, code: string)

  function Serve(s: State, e: Event): (State, Reply) {
    match e
    case Tick(seconds) => (s.(now := s.now + seconds), Nothing)
    case EditUsers(users) => (s.(users := users), Nothing)
    case PasswordRequest(username, password, rid) => Login(s, username, password, rid)
    case ChallengeRequest(id, code) => CompleteChallenge(s, id, code)
    case SetupRequest(id, renew) => BeginSetup(s, id, renew)
    case EnrolRequest(id, code) => CompleteSetup(s, id, code)
  }

  function Run(s: State, events: seq<Event>): State
    decreases events
  {
    if events == [] then s else Run(Serve(s, events[0]).0, events[1..])
  }

  // ---------- The invariant ----------

  /** A pending login belongs to the user who passed the password for it. A challenge still has
      its first expiry, has counted every wrong code, and its Cognito session is its own; the
      secret of a set-up is no newer than the last one issued to the user. */
  predicate PendingOk(s: State, id: nat) {
    id in s.pending ==>
      && id < s.next && id in s.passed && id in s.born && s.born[id] <= s.now && s.passed[id] in s.cognito.users
      && match s.pending[id].value
         case Challenge(username, session, _, attempts) =>
           && username == s.passed[id] && username in s.cognito.enrolled
           && s.pending[id].expiresAt == s.born[id] + MFA_PENDING_TTL_SECONDS
           && attempts == WrongCodes(s, id) < MFA_MAX_ATTEMPTS
           && session + 1 == id && session in s.cognito.sessions
           && s.cognito.sessions[session] == (username, s.born[id] + MOCK_SESSION_LIFETIME_SECONDS)
         case Setup(profile, token, secret, _) =>
           && profile == s.cognito.users[s.passed[id]].profile
           && token + 1 == id && token in s.cognito.accessTokens && s.cognito.accessTokens[token] == s.passed[id]
           && WrongCodes(s, id) == 0
           && (secret.Some? ==> s.passed[id] in s.issued && secret.value.1 <= s.issued[s.passed[id]].1)
  }

  /** The secret Cognito checks is the one issued last, as long as it is not enrolled. */
  predicate SecretOk(s: State, username: string) {
    && (username in s.cognito.pendingSecrets ==>
          username in s.issued && s.issued[username].0 == s.cognito.pendingSecrets[username])
    && (username in s.issued ==>
          && s.issued[username].0 < s.next && s.issued[username].1 <= s.now
          && (username in s.cognito.pendingSecrets <==> !Enrolled(s, username, s.issued[username].0)))
    && (username in s.cognito.enrolled ==> s.cognito.enrolled[username] < s.next)
    && username !in s.cognito.verifiedSecrets
  }

  predicate Enrolled(s: State, username: string, secret: nat) {
    username in s.cognito.enrolled && s.cognito.enrolled[username] == secret
  }

  predicate HistoryOk(s: State, id: nat) {
    && (id in s.passed ==> id < s.next) && (id in s.born ==> id < s.next)
    && (id in s.wrong ==> id < s.next && s.wrong[id] <= MFA_MAX_ATTEMPTS)
  }

  /** A session belongs to a pending login that is gone, and to the row linked to its user. */
  predicate MadeOk(s: State, i: nat) {
    i < |s.made| ==>
      var m := s.made[i];
      && m.pendingId < s.next && m.pendingId !in s.pending && m.pendingId in s.passed
      && m.user.active && m.user.sub == Some(m.profile.sub)
      && s.passed[m.pendingId] in s.cognito.users && m.profile == s.cognito.users[s.passed[m.pendingId]].profile
  }

  predicate Apart(s: State, i: nat, j: nat) {
    i < j < |s.made| ==> s.made[i].pendingId != s.made[j].pendingId
  }

  ghost predicate Inv(s: State) {
    && (forall id :: PendingOk(s, id)) && (forall id :: HistoryOk(s, id)) && (forall username :: SecretOk(s, username))
    && (forall i :: MadeOk(s, i)) && (forall i, j :: Apart(s, i, j))
  }

  ghost predicate Initial(s: State) {
    && s.pending == map[] && s.passed == map[] && s.born == map[] && s.wrong == map[] && s.issued == map[]
        && s.made == []
    && s.cognito.pendingSecrets == map[] && s.cognito.verifiedSecrets == map[]
    && forall username :: username in s.cognito.enrolled ==> s.cognito.enrolled[username] < s.next
  }

  /** Cognito's part of what a pending login other than this one rests on is as before. */
  ghost predicate CognitoKept(c: Directory, d: Directory, next: nat, id: nat) {
    && d.users == c.users
    && (forall u :: u in c.enrolled ==> u in d.enrolled)
    && (forall t :: t in c.accessTokens && t < next ==> t in d.accessTokens && d.accessTokens[t] == c.accessTokens[t])
    && (forall x :: x in c.sessions && x + 1 != id && x < next ==> x in d.sessions && d.sessions[x] == c.sessions[x])
  }

  /** Nothing but this pending login, and what only grows, is different. */
  ghost predicate RecordsKept(s: State, v: State, id: nat) {
    && (forall k :: k in s.passed ==> k in v.passed && v.passed[k] == s.passed[k])
    && (forall k :: k in s.born ==> k in v.born && v.born[k] == s.born[k])
    && (forall k :: k != id && (k in v.passed || k in v.born || k in v.wrong) ==>
        k in s.passed || k in s.born || k in s.wrong)
    && (forall k :: k != id ==> (k in v.wrong <==> k in s.wrong) && (k in s.wrong ==> v.wrong[k] == s.wrong[k]))
    && (forall u :: u in s.issued ==> u in v.issued && s.issued[u].1 <= v.issued[u].1)
    && (forall k :: k in v.pending && k != id ==> k in s.pending && v.pending[k] == s.pending[k])
  }

  ghost predicate Keeps(s: State, v: State, id: nat) {
    s.next <= v.next && s.now <= v.now && CognitoKept(s.cognito, v.cognito, s.next, id) && RecordsKept(s, v, id)
  }

  /** A step that makes nothing and touches one pending login keeps the invariant if it keeps that
      one in order. */
  lemma Assemble(s: State, v: State, id: nat)
    requires Inv(s) && Keeps(s, v, id) && PendingOk(v, id) && HistoryOk(v, id) && v.made == s.made
    requires forall username :: SecretOk(v, username)
    requires id in v.pending && id < s.next ==> id in s.pending
    ensures Inv(v)
  {
    forall k ensures PendingOk(v, k) && HistoryOk(v, k) { assert PendingOk(s, k) && HistoryOk(s, k); }
    forall i ensures MadeOk(v, i) { assert MadeOk(s, i); }
    forall i, j ensures Apart(v, i, j) { assert Apart(s, i, j); }
  }

  lemma ResolvedLinked(users: seq<User>, sub: string, email: string, newId: nat)
    ensures var user := Resolve(users, sub, email, newId).1; user.active ==> user.sub == Some(sub)
  {
  }

  /** Finishing a login whose pending entry is already gone. */
  lemma FinishInv(s: State, id: nat, profile: Profile, code: string, rid: string)
    requires Inv(s) && id < s.next && id !in s.pending && id in s.passed && s.passed[id] in s.cognito.users
    requires profile == s.cognito.users[s.passed[id]].profile
    requires forall i :: 0 <= i < |s.made| ==> s.made[i].pendingId != id
    ensures Inv(FinishLogin(s, id, profile, code, rid).0)
  {
    var v := FinishLogin(s, id, profile, code, rid).0;
    var user := Resolve(s.users, profile.sub, profile.email, s.next).1;
    ResolvedLinked(s.users, profile.sub, profile.email, s.next);
    assert v.made == s.made || v.made == s.made + [Made(id, user, profile, code)];
    FinishFrame(s, v);
    forall i ensures MadeOk(v, i) { assert MadeOk(s, i); }
    forall i, j ensures Apart(v, i, j) { assert Apart(s, i, j); }
  }

  lemma FinishFrame(s: State, v: State)
    requires Inv(s) && v == s.(next := s.next + 1, users := v.users, methods := v.methods, made := v.made)
    ensures (forall k :: PendingOk(v, k)) && (forall k :: HistoryOk(v, k)) && (forall u :: SecretOk(v, u))
  {
    forall k ensures PendingOk(v, k) && HistoryOk(v, k) { assert PendingOk(s, k) && HistoryOk(s, k); }
    forall u ensures SecretOk(v, u) { assert SecretOk(s, u); }
  }

  /** A new pending login, with a new session or token in Cognito. */
  lemma StoreKeeps(s: State, v: State, pending: Pending, username: string)
    requires HistoryOk(s, s.next + 1)
    requires v.next == s.next + 2 && v.now == s.now && v.wrong == s.wrong && v.issued == s.issued
    requires v.pending == s.pending[s.next + 1 := Entry(pending, s.now + MFA_PENDING_TTL_SECONDS)]
    requires v.passed == s.passed[s.next + 1 := username] && v.born == s.born[s.next + 1 := s.now]
    requires v.cognito.users == s.cognito.users && v.cognito.enrolled == s.cognito.enrolled
    requires forall t :: t in s.cognito.accessTokens && t < s.next ==>
               t in v.cognito.accessTokens && v.cognito.accessTokens[t] == s.cognito.accessTokens[t]
    requires forall x :: x in s.cognito.sessions && x < s.next ==>
               x in v.cognito.sessions && v.cognito.sessions[x] == s.cognito.sessions[x]
    ensures Keeps(s, v, s.next + 1)
  {
  }

  lemma StoreHistory(s: State, c: Directory, pending: Pending, username: string)
    requires Inv(s) && c.pendingSecrets == s.cognito.pendingSecrets && c.verifiedSecrets == s.cognito.verifiedSecrets
    requires c.enrolled == s.cognito.enrolled
    ensures var v := StorePending(s.(cognito := c), pending, username);
            HistoryOk(v, s.next + 1) && (forall u :: SecretOk(v, u)) && WrongCodes(v, s.next + 1) == 0
  {
    var v := StorePending(s.(cognito := c), pending, username);
    assert HistoryOk(s, s.next + 1);
    forall u ensures SecretOk(v, u) { assert SecretOk(s, u); }
  }

  lemma LoginInv(s: State, username: string, password: string, rid: string)
    requires Inv(s)
    ensures Inv(Login(s, username, password, rid).0)
  {
    var (c, outcome) := Authenticate(s.cognito, username, password, s.next, s.now);
    match outcome
    case InvalidCredentials =>
    case TotpRequired(session) => StoreInv(s, c, Challenge(username, session, rid, 0), username);
    case Authenticated(profile, token) => StoreInv(s, c, Setup(profile, token, None, rid), username);
  }

  lemma StoreInv(s: State, c: Directory, pending: Pending, username: string)
    requires Inv(s) && username in c.users && c.users == s.cognito.users
    requires match pending
             case Challenge(name, session, _, attempts) =>
               name == username && username in c.enrolled && session == s.next && attempts == 0
               && c == s.cognito.(
                    sessions := s.cognito.sessions[s.next := (username, s.now + MOCK_SESSION_LIFETIME_SECONDS)])
             case Setup(profile, token, secret, _) =>
               profile == c.users[username].profile && token == s.next && secret.None?
               && c == s.cognito.(accessTokens := s.cognito.accessTokens[s.next := username])
    ensures Inv(StorePending(s.(cognito := c), pending, username))
  {
    var v := StorePending(s.(cognito := c), pending, username);
    assert HistoryOk(s, s.next + 1);
    StoreKeeps(s, v, pending, username);
    StoreHistory(s, c, pending, username);
    assert v.pending[s.next + 1] == Entry(pending, s.now + MFA_PENDING_TTL_SECONDS);
    assert PendingOk(v, s.next + 1);
    Assemble(s, v, s.next + 1);
  }

  /** A step that only drops a pending login and moves Cognito on. */
  lemma DropInv(s: State, c: Directory, next: nat, id: nat)
    requires Inv(s) && s.next <= next && c.users == s.cognito.users
    requires forall u :: u in s.cognito.enrolled ==> u in c.enrolled
    requires forall u :: SecretOk(s.(next := next, cognito := c), u)
    requires forall x :: x in s.cognito.sessions && x + 1 != id ==>
        x in c.sessions && c.sessions[x] == s.cognito.sessions[x]
    requires forall t :: t in s.cognito.accessTokens && t < s.next ==>
        t in c.accessTokens && c.accessTokens[t] == s.cognito.accessTokens[t]
    ensures Inv(DeletePending(s.(next := next, cognito := c), id))
  {
    var v := DeletePending(s.(next := next, cognito := c), id);
    assert PendingOk(s, id) && HistoryOk(s, id);
    forall u ensures SecretOk(v, u) { assert SecretOk(s.(next := next, cognito := c), u); }
    Assemble(s, v, id);
  }

  lemma NotMadeYet(s: State, id: nat)
    requires Inv(s) && id in s.pending
    ensures forall i :: 0 <= i < |s.made| ==> s.made[i].pendingId != id
  {
    forall i | 0 <= i < |s.made| ensures s.made[i].pendingId != id { assert MadeOk(s, i); }
  }

  lemma ChallengeInv(s: State, id: nat, code: string)
    requires Inv(s)
    ensures Inv(CompleteChallenge(s, id, code).0)
  {
    var found := Get(s.pending, id, s.now);
    if found.Some? && found.value.Challenge? {
      var p := found.value;
      var (c, outcome) := RespondToTotp(s.cognito, p.username, p.session, code, s.next, s.now, s.accepts);
      match outcome
      case CodeMismatch => WrongCodeInv(s, id, CountWrongCode(s, id).0);
      case SessionGone => GoneInv(s, id);
      case Ok(profile) => AcceptedInv(s, id, code, c, profile);
    }
  }

  lemma GoneInv(s: State, id: nat)
    requires Inv(s)
    ensures Inv(DeletePending(s, id))
  {
    assert s.(next := s.next, cognito := s.cognito) == s;
    DropInv(s, s.cognito, s.next, id);
  }

  lemma AcceptedInv(s: State, id: nat, code: string, c: Directory, profile: Profile)
    requires Inv(s) && Live(s.pending, id, s.now) && s.pending[id].value.Challenge?
    requires var p := s.pending[id].value;
             (c, Ok(profile)) == RespondToTotp(s.cognito, p.username, p.session, code, s.next, s.now, s.accepts)
    ensures Inv(FinishLogin(DeletePending(s.(next := s.next + 1, cognito := c), id), id, profile, code,
                            s.pending[id].value.rid).0)
  {
    assert PendingOk(s, id);
    NotMadeYet(s, id);
    var answered := s.(next := s.next + 1, cognito := c);
    forall u ensures SecretOk(answered, u) { assert SecretOk(s, u); }
    DropInv(s, c, s.next + 1, id);
    FinishInv(DeletePending(s.(next := s.next + 1, cognito := c), id), id, profile, code, s.pending[id].value.rid);
  }

  lemma WrongCodeInv(s: State, id: nat, v: State)
    requires Inv(s) && Live(s.pending, id, s.now) && s.pending[id].value.Challenge?
    requires v == s.(wrong := s.wrong[id := WrongCodes(s, id) + 1], pending := v.pending)
    requires var p := s.pending[id].value;
             v.pending == if p.attempts + 1 >= MFA_MAX_ATTEMPTS then s.pending - {id}
                          else s.pending[id := Entry(p.(attempts := p.attempts + 1), s.pending[id].expiresAt)]
    ensures Inv(v)
  {
    assert PendingOk(s, id) && HistoryOk(s, id);
    forall u ensures SecretOk(v, u) { assert SecretOk(s, u); }
    Assemble(s, v, id);
  }

  lemma BeginSetupInv(s: State, id: nat, renew: bool)
    requires Inv(s)
    ensures Inv(BeginSetup(s, id, renew).0)
  {
    var v := BeginSetup(s, id, renew).0;
    if v.next != s.next {
      assert PendingOk(s, id);
      NewSecretInv(s, v, id, s.passed[id]);
    }
  }

  lemma NewSecretInv(s: State, v: State, id: nat, username: string)
    requires Inv(s) && Live(s.pending, id, s.now) && s.pending[id].value.Setup?
    requires id in s.passed && username == s.passed[id]
    requires v == s.(next := s.next + 1, issued := s.issued[username := (s.next, s.now)],
                     cognito := s.cognito.(pendingSecrets := s.cognito.pendingSecrets[username := s.next]),
                     pending := s.pending[id := Entry(s.pending[id].value.(secret := Some((s.next, s.now))),
                                                      s.now + MFA_PENDING_TTL_SECONDS)])
    ensures Inv(v)
  {
    assert PendingOk(s, id) && HistoryOk(s, id) && SecretOk(s, username);
    forall u ensures SecretOk(v, u) { assert SecretOk(s, u); }
    Assemble(s, v, id);
  }

  lemma EnabledSecrets(s: State, c: Directory, username: string)
    requires Inv(s) && username in s.cognito.pendingSecrets
    requires c.enrolled == s.cognito.enrolled[username := s.cognito.pendingSecrets[username]]
    requires c.pendingSecrets == s.cognito.pendingSecrets - {username}
    requires c.verifiedSecrets == s.cognito.verifiedSecrets - {username}
    ensures forall u :: SecretOk(s.(next := s.next, cognito := c), u)
  {
    forall u ensures SecretOk(s.(next := s.next, cognito := c), u) { assert SecretOk(s, u) && SecretOk(s, username); }
  }

  lemma CompleteSetupInv(s: State, id: nat, code: string)
    requires Inv(s)
    ensures Inv(CompleteSetup(s, id, code).0)
  {
    assert PendingOk(s, id);
    var found := Get(s.pending, id, s.now);
    if found.Some? && found.value.Setup? {
      var p := found.value;
      var (verified, outcome) := VerifySecret(s.cognito, p.accessToken, code, s.now, s.accepts);
      GoneInv(s, id);
      if outcome.Ok? {
        var c := Enable(verified, p.accessToken).0;
        NotMadeYet(s, id);
        assert c.verifiedSecrets == s.cognito.verifiedSecrets - {s.cognito.accessTokens[p.accessToken]};
        EnabledSecrets(s, c, s.cognito.accessTokens[p.accessToken]);
        DropInv(s, c, s.next, id);
        assert DeletePending(s.(next := s.next, cognito := c), id) == DeletePending(s.(cognito := c), id);
        FinishInv(DeletePending(s.(cognito := c), id), id, p.profile, code, p.rid);
      }
    }
  }

  lemma ServeInv(s: State, e: Event)
    requires Inv(s)
    ensures Inv(Serve(s, e).0)
  {
    match e
    case PasswordRequest(username, password, rid) => LoginInv(s, username, password, rid);
    case ChallengeRequest(id, code) => ChallengeInv(s, id, code);
    case SetupRequest(id, renew) => BeginSetupInv(s, id, renew);
    case EnrolRequest(id, code) => CompleteSetupInv(s, id, code);
    case _ =>
      var v := Serve(s, e).0;
      forall k: nat ensures PendingOk(v, k) && HistoryOk(v, k) { assert PendingOk(s, k) && HistoryOk(s, k); }
      forall u ensures SecretOk(v, u) { assert SecretOk(s, u); }
      forall i: nat ensures MadeOk(v, i) { assert MadeOk(s, i); }
      forall i: nat, j: nat ensures Apart(v, i, j) { assert Apart(s, i, j); }
  }

  lemma {:induction false} RunInv(s: State, events: seq<Event>)
    requires Inv(s)
    ensures Inv(Run(s, events))
    decreases events
  {
    if events != [] {
      ServeInv(s, events[0]);
      RunInv(Serve(s, events[0]).0, events[1..]);
    }
  }
}
