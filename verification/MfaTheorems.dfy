/** What holds of logins in every sequential run. */
module MfaTheorems {
  import opened Timed
  import opened Cognito
  import opened Users
  import opened Mfa

  lemma InitialInv(s: State)
    requires Initial(s)
    ensures Inv(s)
  {
    forall id: nat ensures PendingOk(s, id) && HistoryOk(s, id) {}
    forall u ensures SecretOk(s, u) {}
    forall i: nat ensures MadeOk(s, i) {}
    forall i: nat, j: nat ensures Apart(s, i, j) {}
  }

  // ---------- Attempts and deadlines of a challenge ----------

  /** At most five wrong codes are ever checked for a challenge. While a challenge is stored,
      it has counted every one, there were fewer than five, and it expires five minutes after it
      was made, however often it failed. */
  lemma AttemptsBounded(s: State, events: seq<Event>, id: nat)
    requires Initial(s)
    ensures var v := Run(s, events);
            && WrongCodes(v, id) <= MFA_MAX_ATTEMPTS
            && (id in v.pending && v.pending[id].value.Challenge? ==>
                  && id in v.born && v.pending[id].expiresAt == v.born[id] + MFA_PENDING_TTL_SECONDS
                  && v.pending[id].value.attempts == WrongCodes(v, id) < MFA_MAX_ATTEMPTS)
  {
    InitialInv(s);
    RunInv(s, events);
    assert PendingOk(Run(s, events), id) && HistoryOk(Run(s, events), id);
  }

  /** The name was given out, and no pending login is visible under it. */
  predicate Over(s: State, id: nat) {
    id < s.next && !Live(s.pending, id, s.now)
  }

  ghost predicate MadeFor(s: State, id: nat) {
    exists i :: 0 <= i < |s.made| && s.made[i].pendingId == id
  }

  /** The pending login a request is about, and the code it carries. */
  function About(e: Event): Option<nat> {
    match e
    case ChallengeRequest(id, _) => Some(id)
    case EnrolRequest(id, _) => Some(id)
    case SetupRequest(id, _) => Some(id)
    case _ => None
  }

  function CodeOf(e: Event): Option<string> {
    match e
    case ChallengeRequest(_, code) => Some(code)
    case EnrolRequest(_, code) => Some(code)
    case _ => None
  }

  /** At most one session is made, for a pending login that was visible and is gone afterwards;
      no pending login reappears under an old name. */
  ghost predicate Effect(s: State, e: Event, v: State, reply: Reply) {
    && s.next <= v.next && s.now <= v.now
    && (forall id: nat :: id < s.next && Live(v.pending, id, v.now) ==> Live(s.pending, id, s.now))
    && (if !reply.LoggedIn? then v.made == s.made
        else
          && |v.made| == |s.made| + 1 && v.made[..|s.made|] == s.made
          && var m := v.made[|s.made|];
          && About(e) == Some(m.pendingId) && CodeOf(e) == Some(m.code) && m.user == reply.user
          && Live(s.pending, m.pendingId, s.now) && m.pendingId !in v.pending)
  }

  lemma FinishEffect(s: State, id: nat, profile: Profile, code: string, rid: string)
    ensures var (v, reply) := FinishLogin(s, id, profile, code, rid);
            && v.pending == s.pending && v.now == s.now && v.next == s.next + 1 && v.cognito == s.cognito
            && v.issued == s.issued && v.accepts == s.accepts && (reply.LoggedIn? || reply == Failed(UserDisabled))
            && (if reply.LoggedIn? then v.made == s.made + [Made(id, reply.user, profile, code)] else v.made == s.made)
  {
  }

  lemma FinishedEffect(s: State, e: Event, u: State, id: nat, profile: Profile, code: string, rid: string)
    requires Live(s.pending, id, s.now) && About(e) == Some(id) && CodeOf(e) == Some(code)
    requires u.pending == s.pending - {id} && u.made == s.made && s.next <= u.next && u.now == s.now
    ensures Effect(s, e, FinishLogin(u, id, profile, code, rid).0, FinishLogin(u, id, profile, code, rid).1)
  {
    FinishEffect(u, id, profile, code, rid);
  }

  predicate AtChallenge(s: State, id: nat) {
    Live(s.pending, id, s.now) && s.pending[id].value.Challenge?
  }

  lemma ChallengeEffect(s: State, id: nat, code: string)
    ensures Effect(s, ChallengeRequest(id, code), CompleteChallenge(s, id, code).0, CompleteChallenge(s, id, code).1)
  {
    if AtChallenge(s, id) {
      var p := s.pending[id].value;
      var (c, outcome) := RespondToTotp(s.cognito, p.username, p.session, code, s.next, s.now, s.accepts);
      ResponseEffect(s, id, code, c, outcome);
    }
  }

  lemma ResponseEffect(s: State, id: nat, code: string, c: Directory, outcome: MfaOutcome<Profile>)
    requires AtChallenge(s, id)
    ensures var (v, reply) := AfterResponse(s, id, code, c, outcome); Effect(s, ChallengeRequest(id, code), v, reply)
  {
    match outcome
    case CodeMismatch => MissEffect(s, id, code);
    case SessionGone => GoneEffect(s, id, ChallengeRequest(id, code));
    case Ok(profile) =>
      var answered := DeletePending(s.(next := s.next + 1, cognito := c), id);
      FinishedEffect(s, ChallengeRequest(id, code), answered, id, profile, code, s.pending[id].value.rid);
  }

  lemma GoneEffect(s: State, id: nat, e: Event)
    ensures Effect(s, e, DeletePending(s, id), Failed(Expired))
  {
  }

  lemma MissEffect(s: State, id: nat, code: string)
    requires AtChallenge(s, id)
    ensures Effect(s, ChallengeRequest(id, code), CountWrongCode(s, id).0, CountWrongCode(s, id).1)
  {
  }

  lemma EnrolEffect(s: State, id: nat, code: string)
    ensures Effect(s, EnrolRequest(id, code), CompleteSetup(s, id, code).0, CompleteSetup(s, id, code).1)
  {
    if Live(s.pending, id, s.now) && s.pending[id].value.Setup? {
      var p := s.pending[id].value;
      var (verified, outcome) := VerifySecret(s.cognito, p.accessToken, code, s.now, s.accepts);
      VerificationEffect(s, id, code, verified, outcome);
    }
  }

  lemma VerificationEffect(s: State, id: nat, code: string, verified: Directory, outcome: MfaOutcome<()>)
    requires Live(s.pending, id, s.now) && s.pending[id].value.Setup?
    ensures var (v, reply) := AfterVerification(s, id, code, verified, outcome);
            Effect(s, EnrolRequest(id, code), v, reply)
  {
    match outcome
    case CodeMismatch =>
    case SessionGone => GoneEffect(s, id, EnrolRequest(id, code));
    case Ok(_) =>
      var p := s.pending[id].value;
      var done := DeletePending(s.(cognito := Enable(verified, p.accessToken).0), id);
      FinishedEffect(s, EnrolRequest(id, code), done, id, p.profile, code, p.rid);
  }

  lemma SetupEffect(s: State, id: nat, renew: bool)
    ensures Effect(s, SetupRequest(id, renew), BeginSetup(s, id, renew).0, BeginSetup(s, id, renew).1)
  {
  }

  lemma PasswordEffect(s: State, username: string, password: string, rid: string)
    ensures Effect(s, PasswordRequest(username, password, rid), Login(s, username, password, rid).0,
                   Login(s, username, password, rid).1)
  {
  }

  lemma ServeEffect(s: State, e: Event)
    ensures Effect(s, e, Serve(s, e).0, Serve(s, e).1)
  {
    match e
    case PasswordRequest(username, password, rid) => PasswordEffect(s, username, password, rid);
    case ChallengeRequest(id, code) => ChallengeEffect(s, id, code);
    case SetupRequest(id, renew) => SetupEffect(s, id, renew);
    case EnrolRequest(id, code) => EnrolEffect(s, id, code);
    case _ =>
  }

  /** Once a pending login is gone, whether used, failed too often or expired, no later request
      about it gets anywhere. */
  lemma {:induction false} OverForGood(s: State, events: seq<Event>, id: nat, e: Event)
    requires Over(s, id) && About(e) == Some(id)
    ensures Over(Run(s, events), id)
    ensures Serve(Run(s, events), e) == (Run(s, events), Failed(Expired))
    ensures MadeFor(Run(s, events), id) ==> MadeFor(s, id)
    decreases events
  {
    if events != [] {
      var v := Serve(s, events[0]).0;
      ServeOver(s, events[0], id);
      OverForGood(v, events[1..], id, e);
    } else {
      GoneRefused(s, id, e);
    }
  }

  lemma ServeOver(s: State, e: Event, id: nat)
    requires Over(s, id)
    ensures Over(Serve(s, e).0, id) && (MadeFor(Serve(s, e).0, id) ==> MadeFor(s, id))
  {
    ServeEffect(s, e);
    OverEffect(s, e, Serve(s, e).0, Serve(s, e).1, id);
  }

  lemma OverEffect(s: State, e: Event, v: State, reply: Reply, id: nat)
    requires Over(s, id) && Effect(s, e, v, reply)
    ensures Over(v, id) && (MadeFor(v, id) ==> MadeFor(s, id))
  {
    assert Live(v.pending, id, v.now) ==> Live(s.pending, id, s.now);
    if MadeFor(v, id) {
      var i :| 0 <= i < |v.made| && v.made[i].pendingId == id;
      assert i < |s.made|;
      assert reply.LoggedIn? ==> v.made[i] == v.made[..|s.made|][i];
      assert s.made[i].pendingId == id;
    }
  }

  lemma GoneRefused(s: State, id: nat, e: Event)
    requires Over(s, id) && About(e) == Some(id)
    ensures Serve(s, e) == (s, Failed(Expired))
  {
  }

  /** What ends a challenge: five minutes, the fifth wrong code, a code later than Cognito's three
      minutes, or success. */
  lemma ChallengeEnds(s: State, id: nat, code: string)
    requires Inv(s) && id in s.pending && s.pending[id].value.Challenge? && id in s.born
    ensures s.now >= s.born[id] + MFA_PENDING_TTL_SECONDS ==> Over(s, id)
    ensures var v := CompleteChallenge(s, id, code).0;
            (|| WrongCodes(v, id) == MFA_MAX_ATTEMPTS
             || s.now > s.born[id] + MOCK_SESSION_LIFETIME_SECONDS
             || v.made != s.made) ==> Over(v, id)
  {
    assert PendingOk(s, id);
    if Live(s.pending, id, s.now) {
      var p := s.pending[id].value;
      var (c, outcome) := RespondToTotp(s.cognito, p.username, p.session, code, s.next, s.now, s.accepts);
      assert outcome.CodeMismatch? ==> s.now <= s.born[id] + MOCK_SESSION_LIFETIME_SECONDS;
      ResponseEnds(s, id, code, c, outcome);
    }
  }

  lemma ResponseEnds(s: State, id: nat, code: string, c: Directory, outcome: MfaOutcome<Profile>)
    requires PendingOk(s, id) && AtChallenge(s, id)
    ensures var v := AfterResponse(s, id, code, c, outcome).0;
            if outcome.CodeMismatch? then v.made == s.made && (WrongCodes(v, id) == MFA_MAX_ATTEMPTS ==> Over(v, id))
            else Over(v, id)
  {
    match outcome
    case CodeMismatch => MissEnds(s, id);
    case SessionGone =>
    case Ok(profile) =>
      var answered := DeletePending(s.(next := s.next + 1, cognito := c), id);
      FinishEffect(answered, id, profile, code, s.pending[id].value.rid);
  }

  /** The fifth wrong code ends the challenge. */
  lemma MissEnds(s: State, id: nat)
    requires PendingOk(s, id) && AtChallenge(s, id)
    ensures WrongCodes(CountWrongCode(s, id).0, id) == MFA_MAX_ATTEMPTS ==> Over(CountWrongCode(s, id).0, id)
    ensures CountWrongCode(s, id).0.made == s.made
  {
  }

  /** Exactly when a code completes a challenge. */
  lemma ChallengeCompletesIff(s: State, id: nat, code: string)
    requires Inv(s)
    ensures CompleteChallenge(s, id, code).1.LoggedIn? <==>
              && Live(s.pending, id, s.now) && s.pending[id].value.Challenge?
              && id in s.born && s.now <= s.born[id] + MOCK_SESSION_LIFETIME_SECONDS
              && id in s.passed && s.passed[id] in s.cognito.enrolled && s.passed[id] in s.cognito.users
              && s.accepts(s.cognito.enrolled[s.passed[id]], code, s.now)
              && var profile := s.cognito.users[s.passed[id]].profile;
                 Resolve(s.users, profile.sub, profile.email, s.next + 1).1.active
  {
    assert PendingOk(s, id);
  }

  // ---------- Sessions come from accepted factors ----------

  /** Every session made in a run belongs to its own pending login, whose user passed the password,
      and to the row of the users table linked to that user's identity. */
  lemma OneSessionPerLogin(s: State, events: seq<Event>)
    requires Initial(s)
    ensures var v := Run(s, events);
            && (forall i, j :: 0 <= i < j < |v.made| ==> v.made[i].pendingId != v.made[j].pendingId)
            && (forall i :: 0 <= i < |v.made| ==>
                  && v.made[i].pendingId in v.passed && v.passed[v.made[i].pendingId] in v.cognito.users
                  && v.made[i].user.active
                  && v.made[i].user.sub == Some(v.cognito.users[v.passed[v.made[i].pendingId]].profile.sub))
  {
    InitialInv(s);
    RunInv(s, events);
    var v := Run(s, events);
    forall i | 0 <= i < |v.made|
      ensures && v.made[i].pendingId in v.passed && v.passed[v.made[i].pendingId] in v.cognito.users
              && v.made[i].user.active
              && v.made[i].user.sub == Some(v.cognito.users[v.passed[v.made[i].pendingId]].profile.sub)
    {
      assert MadeOk(v, i);
    }
    forall i, j | 0 <= i < j < |v.made| ensures v.made[i].pendingId != v.made[j].pendingId { assert Apart(v, i, j); }
  }

  /** A session is made only by a request whose code is right for the secret then enrolled for
      the user who passed the password. */
  lemma SessionNeedsFactor(s: State, e: Event)
    requires Inv(s) && Serve(s, e).0.made != s.made
    ensures About(e).Some? && CodeOf(e).Some?
    ensures var v := Serve(s, e).0;
            var id := About(e).value;
            && Live(s.pending, id, s.now) && id in s.passed
            && s.passed[id] in v.cognito.enrolled && s.accepts(v.cognito.enrolled[s.passed[id]], CodeOf(e).value, s.now)
  {
    ServeEffect(s, e);
    assert PendingOk(s, About(e).value);
    if e.EnrolRequest? {
      EnrolledBy(s, e.pendingId, e.code);
    } else {
      ChallengeFactor(s, e.pendingId, e.code);
    }
  }

  lemma ChallengeFactor(s: State, id: nat, code: string)
    requires Inv(s) && CompleteChallenge(s, id, code).1.LoggedIn?
    ensures var v := CompleteChallenge(s, id, code).0;
            id in s.passed && s.passed[id] in v.cognito.enrolled
                && s.accepts(v.cognito.enrolled[s.passed[id]], code, s.now)
  {
    assert PendingOk(s, id);
    var p := s.pending[id].value;
    var (c, outcome) := RespondToTotp(s.cognito, p.username, p.session, code, s.next, s.now, s.accepts);
    FinishEffect(DeletePending(s.(next := s.next + 1, cognito := c), id), id, outcome.value, code, p.rid);
  }

  // ---------- Enrolment ----------

  /** A set-up that goes through enrols, for the user who passed the password, the secret issued
      to that user last, less than three minutes before, and the code was right for it. */
  lemma EnrolledBy(s: State, id: nat, code: string)
    requires Inv(s)
    ensures var (v, reply) := CompleteSetup(s, id, code);
            if reply.LoggedIn? || reply == Failed(UserDisabled) then
              && id in s.passed && s.passed[id] in s.issued
              && var username := s.passed[id];
                 var (secret, at) := s.issued[username];
              && v.cognito.enrolled == s.cognito.enrolled[username := secret]
              && at <= s.now < at + TOTP_SETUP_TTL_SECONDS && s.accepts(secret, code, s.now)
            else v.cognito.enrolled == s.cognito.enrolled
  {
    assert PendingOk(s, id);
    if id in s.passed { assert SecretOk(s, s.passed[id]); }
    var found := Get(s.pending, id, s.now);
    if found.Some? && found.value.Setup? {
      var p := found.value;
      var (verified, outcome) := VerifySecret(s.cognito, p.accessToken, code, s.now, s.accepts);
      if outcome.Ok? {
        FinishEffect(DeletePending(s.(cognito := Enable(verified, p.accessToken).0), id), id, p.profile, code, p.rid);
      }
    }
  }

  /** Nothing else enrols. */
  lemma OnlySetupEnrols(s: State, e: Event)
    ensures Serve(s, e).0.cognito.enrolled != s.cognito.enrolled ==> e.EnrolRequest?
  {
    match e
    case ChallengeRequest(id, code) => ChallengeEnrolsNothing(s, id, code);
    case SetupRequest(id, renew) => BeginEnrolsNothing(s, id, renew);
    case PasswordRequest(username, password, rid) => PasswordEnrolsNothing(s, username, password, rid);
    case _ =>
  }

  lemma BeginEnrolsNothing(s: State, id: nat, renew: bool)
    ensures BeginSetup(s, id, renew).0.cognito.enrolled == s.cognito.enrolled
  {
  }

  lemma PasswordEnrolsNothing(s: State, username: string, password: string, rid: string)
    ensures Login(s, username, password, rid).0.cognito.enrolled == s.cognito.enrolled
  {
  }

  lemma ChallengeEnrolsNothing(s: State, id: nat, code: string)
    ensures CompleteChallenge(s, id, code).0.cognito.enrolled == s.cognito.enrolled
  {
    if AtChallenge(s, id) {
      var p := s.pending[id].value;
      var (c, outcome) := RespondToTotp(s.cognito, p.username, p.session, code, s.next, s.now, s.accepts);
      ResponseEnrolsNothing(s, id, code, c, outcome);
    }
  }

  lemma ResponseEnrolsNothing(s: State, id: nat, code: string, c: Directory, outcome: MfaOutcome<Profile>)
    requires AtChallenge(s, id) && c.enrolled == s.cognito.enrolled
    ensures AfterResponse(s, id, code, c, outcome).0.cognito.enrolled == s.cognito.enrolled
  {
  }

  /** The secret a set-up page shows again is the one a code is checked against exactly when it is
      the last one issued to the user and is not enrolled yet. */
  lemma ShownSecretCheckedIff(s: State, id: nat, username: string, secret: nat, at: int)
    requires Inv(s) && Live(s.pending, id, s.now) && s.pending[id].value.Setup? && id in s.passed
        && s.passed[id] == username
    requires s.pending[id].value.secret == Some((secret, at)) && s.now < at + TOTP_SETUP_TTL_SECONDS
    ensures BeginSetup(s, id, false) == (s, ShowSecret(secret, at + TOTP_SETUP_TTL_SECONDS))
    ensures username in s.issued
    ensures username in s.cognito.pendingSecrets && s.cognito.pendingSecrets[username] == secret
       <==> secret == s.issued[username].0 && !Enrolled(s, username, secret)
  {
    assert PendingOk(s, id) && SecretOk(s, username);
  }

  /** Of two logins of one user that both set up an authenticator, the first goes on showing its
      secret after the second got another, and codes made with what it shows are no longer checked. */
  lemma SecondSetupOutdatesFirst(s: State, a: nat, b: nat)
    requires Inv(s) && a != b && Live(s.pending, a, s.now) && Live(s.pending, b, s.now)
    requires s.pending[a].value.Setup? && s.pending[b].value.Setup?
    requires a in s.passed && b in s.passed && s.passed[a] == s.passed[b]
    ensures var s1 := BeginSetup(s, a, true).0;
            var s2 := BeginSetup(s1, b, true).0;
            var again := BeginSetup(s2, a, false);
            && again.0 == s2 && again.1.ShowSecret?
            && s.passed[a] in s2.cognito.pendingSecrets && s2.cognito.pendingSecrets[s.passed[a]] != again.1.secret
  {
    assert PendingOk(s, a) && PendingOk(s, b);
    var username := s.passed[a];
    var s1 := BeginSetup(s, a, true).0;
    RenewedSecret(s, a, username);
    assert s1.pending[b] == s.pending[b];
    RenewedSecret(s1, b, username);
  }

  /** A renewed set-up shows a secret never given out before, which is then the one checked. */
  lemma RenewedSecret(s: State, id: nat, username: string)
    requires Live(s.pending, id, s.now) && s.pending[id].value.Setup?
    requires s.pending[id].value.accessToken in s.cognito.accessTokens
    requires s.cognito.accessTokens[s.pending[id].value.accessToken] == username
    ensures var (v, reply) := BeginSetup(s, id, true);
            && reply == ShowSecret(s.next, s.now + TOTP_SETUP_TTL_SECONDS)
            && v.now == s.now && v.next == s.next + 1 && v.cognito.accessTokens == s.cognito.accessTokens
            && v.cognito.pendingSecrets == s.cognito.pendingSecrets[username := s.next]
            && v.pending == s.pending[id := Entry(s.pending[id].value.(secret := Some((s.next, s.now))),
                                                  s.now + MFA_PENDING_TTL_SECONDS)]
  {
  }
}
