/** The login use cases as a sequence of calls to Cognito, the store of pending logins and the
    users table. Each method is proved to do what its function in Mfa says. */
module MfaService {
  import opened Timed
  import opened Cognito
  import opened Users
  import opened Mfa
  import KvStore

  class LoginFlow {
    const clock: KvStore.Clock
    const cognito: MockCognitoAuthenticator
    var next: nat
    var pending: map<nat, Entry<Pending>>
    var users: seq<User>
    var methods: map<nat, int>
    ghost var passed: map<nat, string>
    ghost var born: map<nat, int>
    ghost var wrong: map<nat, nat>
    ghost var issued: map<string, (nat, int)>
    ghost var made: seq<Made>

    ghost function View(): State
      reads this, clock, cognito
    {
      State(clock.now, next, cognito.Contents(), pending, users, methods, cognito.accepts, passed, born, wrong,
            issued, made)
    }

    constructor (clock: KvStore.Clock, cognito: MockCognitoAuthenticator, users: seq<User>, next: nat)
      ensures this.cognito == cognito && this.clock == clock
      ensures View() == State(clock.now, next, cognito.Contents(), map[], users, map[], cognito.accepts, map[], map[],
                              map[], map[], [])
    {
      this.clock, this.cognito, this.users, this.next := clock, cognito, users, next;
      pending, methods, passed, born, wrong, issued, made := map[], map[], map[], map[], map[], map[], [];
    }

    method RandomToken() returns (value: nat)
      modifies this`next
      ensures value == old(next) && next == old(next) + 1
    {
      value := next;
      next := next + 1;
    }

    method StorePendingLogin(state: Pending, ghost username: string) returns (id: nat)
      modifies this`next, this`pending, this`passed, this`born
      ensures id == old(next) && next == old(next) + 1
      ensures pending == Put(old(pending), id, state, clock.now, MFA_PENDING_TTL_SECONDS)
      ensures passed == old(passed)[id := username] && born == old(born)[id := clock.now]
    {
      id := RandomToken();
      pending := Put(pending, id, state, clock.now, MFA_PENDING_TTL_SECONDS);
      passed, born := passed[id := username], born[id := clock.now];
    }

    method PasswordLogin(username: string, password: string, rid: string) returns (reply: Reply)
      modifies this, cognito
      ensures (View(), reply) == Login(old(View()), username, password, rid)
    {
      var outcome := cognito.AuthenticateUser(username, password, next, clock.now);
      match outcome {
        case InvalidCredentials =>
          return Failed(BadCredentials);
        case TotpRequired(session) =>
          next := next + 1;
          var id := StorePendingLogin(Challenge(username, session, rid, 0), username);
          return ChallengeFor(id);
        case Authenticated(profile, token) =>
          next := next + 1;
          var id := StorePendingLogin(Setup(profile, token, None, rid), username);
          return SetupFor(id);
      }
    }

    method ResolveUser(sub: string, email: string) returns (user: User)
      modifies this`next, this`users
      ensures (users, user) == Resolve(old(users), sub, email, old(next)) && next == old(next) + 1
    {
      var newId := RandomToken();
      var i := BySub(users, sub);
      if i < |users| {
        return users[i];
      }
      var j := ByEmail(users, email);
      if j < |users| {
        if users[j].sub.Some? {
          return users[j].(active := false);
        }
        user := users[j].(sub := Some(sub));
        users := users[j := user];
        return;
      }
      user := User(newId, Some(sub), email, true);
      users := users + [user];
    }

    method Finish(id: nat, profile: Profile, code: string, rid: string) returns (reply: Reply)
      modifies this`next, this`users, this`methods, this`made
      ensures (View(), reply) == FinishLogin(old(View()), id, profile, code, rid)
    {
      var user := ResolveUser(profile.sub, profile.email);
      if !user.active {
        return Failed(UserDisabled);
      }
      if user.id !in methods {
        methods := methods[user.id := clock.now];
      }
      made := made + [Made(id, user, profile, code)];
      return LoggedIn(user, rid);
    }

    method CountFailure(id: nat, p: Pending) returns (reply: Reply)
      requires id in pending && pending[id].value == p && p.Challenge?
      modifies this`pending, this`wrong
      ensures (View(), reply) == CountWrongCode(old(View()), id)
    {
      wrong := wrong[id := WrongCodes(View(), id) + 1];
      if p.attempts + 1 >= MFA_MAX_ATTEMPTS {
        pending := pending - {id};
        return Failed(Expired);
      }
      pending := Update(pending, id, p.(attempts := p.attempts + 1), clock.now);
      return Failed(WrongCode);
    }

    method CompleteTotpChallenge(id: nat, code: string) returns (reply: Reply)
      modifies this, cognito
      ensures (View(), reply) == CompleteChallenge(old(View()), id, code)
    {
      var found := Get(pending, id, clock.now);
      if found.None? || !found.value.Challenge? {
        return Failed(Expired);
      }
      var p := found.value;
      var outcome := cognito.RespondToChallenge(p.username, p.session, code, next, clock.now);
      match outcome {
        case CodeMismatch =>
          reply := CountFailure(id, p);
        case SessionGone =>
          pending := pending - {id};
          return Failed(Expired);
        case Ok(profile) =>
          next := next + 1;
          pending := pending - {id};
          reply := Finish(id, profile, code, p.rid);
      }
    }

    method BeginTotpSetup(id: nat, renew: bool) returns (reply: Reply)
      modifies this, cognito
      ensures (View(), reply) == BeginSetup(old(View()), id, renew)
    {
      var found := Get(pending, id, clock.now);
      if found.None? || !found.value.Setup? {
        return Failed(Expired);
      }
      var p := found.value;
      if p.secret.Some? && p.secret.value.1 + TOTP_SETUP_TTL_SECONDS > clock.now && !renew {
        return ShowSecret(p.secret.value.0, p.secret.value.1 + TOTP_SETUP_TTL_SECONDS);
      }
      var ok := cognito.AssociateSoftwareToken(p.accessToken, next);
      if !ok {
        return Failed(Expired);
      }
      issued := issued[cognito.accessTokens[p.accessToken] := (next, clock.now)];
      var secret := RandomToken();
      pending := Put(pending, id, p.(secret := Some((secret, clock.now))), clock.now, MFA_PENDING_TTL_SECONDS);
      return ShowSecret(secret, clock.now + TOTP_SETUP_TTL_SECONDS);
    }

    method CompleteTotpSetup(id: nat, code: string) returns (reply: Reply)
      modifies this, cognito
      ensures (View(), reply) == CompleteSetup(old(View()), id, code)
    {
      var found := Get(pending, id, clock.now);
      if found.None? || !found.value.Setup? {
        return Failed(Expired);
      }
      var p := found.value;
      if p.secret.None? || p.secret.value.1 + TOTP_SETUP_TTL_SECONDS <= clock.now {
        return Failed(SetupExpired);
      }
      var outcome := cognito.VerifySoftwareToken(p.accessToken, code, clock.now);
      if outcome.CodeMismatch? {
        return Failed(WrongCode);
      }
      if outcome.SessionGone? {
        pending := pending - {id};
        return Failed(Expired);
      }
      var ok := cognito.EnableTotp(p.accessToken);
      pending := pending - {id};
      if !ok {
        return Failed(Expired);
      }
      reply := Finish(id, p.profile, code, p.rid);
    }
  }
}
