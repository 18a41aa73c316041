/** The local stand-in for Cognito, as infrastructure/mock-cognito.ts keeps it: passwords, and one
    authenticator secret per user. Tokens, sessions and secrets are names given by the caller,
    who never gives one twice. */
module Cognito {
  import opened Timed

  const MOCK_SESSION_LIFETIME_SECONDS := 3 * 60

  datatype Profile = Profile(sub: string, email: string, name: Option<string>)

  datatype MockUser = MockUser(password: string, profile: Profile)

  datatype Directory = Directory(
    users: map<string, MockUser>,
    enrolled: map<string, nat>,
    pendingSecrets: map<string, nat>,
    verifiedSecrets: map<string, nat>,
    accessTokens: map<nat, string>,
    sessions: map<nat, (string, int)>)

  datatype AuthOutcome =
    | InvalidCredentials
    | TotpRequired(session: nat)
    | Authenticated(profile: Profile, accessToken: nat)

  datatype MfaOutcome<T> = Ok(value: T) | CodeMismatch | SessionGone

  /** Whether a code is right for a secret at a time. */
  type Checker = (nat, string, int) -> bool

  function Authenticate(c: Directory, username: string, password: string, name: nat, now: int)
    : (Directory, AuthOutcome)
  {
    if username !in c.users || password != c.users[username].password then (c, InvalidCredentials)
    else if username in c.enrolled then
      (c.(sessions := c.sessions[name := (username, now + MOCK_SESSION_LIFETIME_SECONDS)]), TotpRequired(name))
    else (c.(accessTokens := c.accessTokens[name := username]), Authenticated(c.users[username].profile, name))
  }

  function RespondToTotp(c: Directory, username: string, session: nat, code: string, name: nat, now: int,
                         accepts: Checker)
    : (Directory, MfaOutcome<Profile>)
  {
    if session !in c.sessions || c.sessions[session].0 != username || c.sessions[session].1 < now then (c, SessionGone)
    else if username !in c.enrolled || username !in c.users then (c, SessionGone)
    else if !accepts(c.enrolled[username], code, now) then (c, CodeMismatch)
    else (c.(sessions := c.sessions - {session}, accessTokens := c.accessTokens[name := username]),
          Ok(c.users[username].profile))
  }

  function Associate(c: Directory, accessToken: nat, secret: nat): (Directory, bool) {
    if accessToken !in c.accessTokens then (c, false)
    else (c.(pendingSecrets := c.pendingSecrets[c.accessTokens[accessToken] := secret]), true)
  }

  function VerifySecret(c: Directory, accessToken: nat, code: string, now: int, accepts: Checker)
    : (Directory, MfaOutcome<()>)
  {
    if accessToken !in c.accessTokens || c.accessTokens[accessToken] !in c.pendingSecrets then (c, SessionGone)
    else
      var username := c.accessTokens[accessToken];
      var secret := c.pendingSecrets[username];
      if !accepts(secret, code, now) then (c, CodeMismatch)
      else (c.(verifiedSecrets := c.verifiedSecrets[username := secret]), Ok(()))
  }

  function Enable(c: Directory, accessToken: nat): (Directory, bool) {
    if accessToken !in c.accessTokens || c.accessTokens[accessToken] !in c.verifiedSecrets then (c, false)
    else
      var username := c.accessTokens[accessToken];
      (c.(enrolled := c.enrolled[username := c.verifiedSecrets[username]],
          pendingSecrets := c.pendingSecrets - {username}, verifiedSecrets := c.verifiedSecrets - {username}), true)
  }

  /** A challenge is answered with the profile exactly when the session was given to this user no more than
      three minutes ago, the user is still there and enrolled, and the code is right for the enrolled secret.
      A session is used up by success, and by nothing else. */
  lemma RespondMeans(c: Directory, username: string, session: nat, code: string, name: nat, now: int,
                     accepts: Checker)
    ensures var (d, outcome) := RespondToTotp(c, username, session, code, name, now, accepts);
            var open := session in c.sessions && c.sessions[session].0 == username && now <= c.sessions[session].1
                        && username in c.enrolled && username in c.users;
            && (outcome.Ok? <==> open && accepts(c.enrolled[username], code, now))
            && (outcome.CodeMismatch? <==> open && !accepts(c.enrolled[username], code, now))
            && (outcome.Ok? ==> outcome.value == c.users[username].profile)
            && d.sessions == (if outcome.Ok? then c.sessions - {session} else c.sessions)
            && d.users == c.users && d.enrolled == c.enrolled
  {
  }

  /** A session that was answered rightly once is never answered again. */
  lemma SessionUsedOnce(c: Directory, username: string, session: nat, code: string, name: nat, now: int,
                        accepts: Checker, username': string, code': string, name': nat, now': int)
    requires RespondToTotp(c, username, session, code, name, now, accepts).1.Ok?
    ensures var d := RespondToTotp(c, username, session, code, name, now, accepts).0;
            RespondToTotp(d, username', session, code', name', now', accepts) == (d, SessionGone)
  {
  }

  class MockCognitoAuthenticator {
    const users: map<string, MockUser>
    const accepts: Checker
    var enrolled: map<string, nat>
    var pendingSecrets: map<string, nat>
    var verifiedSecrets: map<string, nat>
    var accessTokens: map<nat, string>
    var sessions: map<nat, (string, int)>

    ghost function Contents(): Directory
      reads this
    {
      Directory(users, enrolled, pendingSecrets, verifiedSecrets, accessTokens, sessions)
    }

    constructor (users: map<string, MockUser>, secrets: map<string, nat>, accepts: Checker)
      ensures this.accepts == accepts && Contents() == Directory(users, secrets, map[], map[], map[], map[])
    {
      this.users, this.accepts, enrolled := users, accepts, secrets;
      pendingSecrets, verifiedSecrets, accessTokens, sessions := map[], map[], map[], map[];
    }

    method AuthenticateUser(username: string, password: string, name: nat, now: int) returns (outcome: AuthOutcome)
      modifies this
      ensures (Contents(), outcome) == Authenticate(old(Contents()), username, password, name, now)
    {
      if username !in users || password != users[username].password {
        return InvalidCredentials;
      }
      if username in enrolled {
        sessions := sessions[name := (username, now + MOCK_SESSION_LIFETIME_SECONDS)];
        return TotpRequired(name);
      }
      accessTokens := accessTokens[name := username];
      return Authenticated(users[username].profile, name);
    }

    method RespondToChallenge(username: string, session: nat, code: string, name: nat, now: int)
      returns (outcome: MfaOutcome<Profile>)
      modifies this
      ensures (Contents(), outcome) == RespondToTotp(old(Contents()), username, session, code, name, now, accepts)
    {
      if session !in sessions || sessions[session].0 != username || sessions[session].1 < now {
        return SessionGone;
      }
      if username !in enrolled || username !in users {
        return SessionGone;
      }
      if !accepts(enrolled[username], code, now) {
        return CodeMismatch;
      }
      sessions := sessions - {session};
      accessTokens := accessTokens[name := username];
      return Ok(users[username].profile);
    }

    method AssociateSoftwareToken(accessToken: nat, secret: nat) returns (ok: bool)
      modifies this
      ensures (Contents(), ok) == Associate(old(Contents()), accessToken, secret)
    {
      if accessToken !in accessTokens {
        return false;
      }
      pendingSecrets := pendingSecrets[accessTokens[accessToken] := secret];
      return true;
    }

    method VerifySoftwareToken(accessToken: nat, code: string, now: int) returns (outcome: MfaOutcome<()>)
      modifies this
      ensures (Contents(), outcome) == VerifySecret(old(Contents()), accessToken, code, now, accepts)
    {
      if accessToken !in accessTokens || accessTokens[accessToken] !in pendingSecrets {
        return SessionGone;
      }
      var username := accessTokens[accessToken];
      if !accepts(pendingSecrets[username], code, now) {
        return CodeMismatch;
      }
      verifiedSecrets := verifiedSecrets[username := pendingSecrets[username]];
      return Ok(());
    }

    method EnableTotp(accessToken: nat) returns (ok: bool)
      modifies this
      ensures (Contents(), ok) == Enable(old(Contents()), accessToken)
    {
      if accessToken !in accessTokens || accessTokens[accessToken] !in verifiedSecrets {
        return false;
      }
      var username := accessTokens[accessToken];
      enrolled := enrolled[username := verifiedSecrets[username]];
      pendingSecrets := pendingSecrets - {username};
      verifiedSecrets := verifiedSecrets - {username};
      return true;
    }
  }
}
