/** Where the sessions of a run come from: the requests that led to them, and what each was answered. */
module MfaHistory {
  import opened Timed
  import opened Cognito
  import opened Users
  import opened Mfa
  import opened MfaTheorems

  // ---------- The password ----------

  predicate RightPassword(c: Directory, username: string, password: string) {
    username in c.users && password == c.users[username].password
  }

  /** A wrong password, or an unknown name, is refused and changes nothing. The right one opens a pending
      login under a new name for five minutes: a challenge exactly for those who are enrolled, a set-up for
      the others, with the request it came with. */
  lemma LoginMeans(s: State, username: string, password: string, rid: string)
    requires Inv(s)
    ensures var (v, reply) := Login(s, username, password, rid);
            && (reply == Failed(BadCredentials) <==> !RightPassword(s.cognito, username, password))
            && (!RightPassword(s.cognito, username, password) ==> v == s)
            && (reply.ChallengeFor? <==>
                RightPassword(s.cognito, username, password) && username in s.cognito.enrolled)
            && (reply.SetupFor? <==>
                RightPassword(s.cognito, username, password) && username !in s.cognito.enrolled)
    ensures var (v, reply) := Login(s, username, password, rid);
            RightPassword(s.cognito, username, password) ==>
              var id := reply.pendingId;
              && id !in s.pending && id !in s.passed && v.passed == s.passed[id := username]
              && id in v.pending && v.pending == s.pending[id := v.pending[id]]
              && v.pending[id].expiresAt == s.now + 5 * 60 && v.pending[id].value.rid == rid
              && (reply.ChallengeFor? <==> v.pending[id].value.Challenge?)
              && v.users == s.users && v.made == s.made
  {
    assert HistoryOk(s, s.next + 1) && PendingOk(s, s.next + 1);
  }

  /** Event `j` of the run gave the right password of this user, and was answered with this pending login. */
  predicate BeganAt(s: State, events: seq<Event>, j: nat, id: nat, username: string, rid: string) {
    && j < |events| && events[j].PasswordRequest?
    && events[j].username == username && events[j].rid == rid
    && RightPassword(Run(s, events[..j]).cognito, username, events[j].password)
    && Serve(Run(s, events[..j]), events[j]).1 in {ChallengeFor(id), SetupFor(id)}
  }

  /** The pending login began with that name and request, or was there before. */
  ghost predicate Began(s: State, events: seq<Event>, id: nat, username: string) {
    exists j: nat, rid :: BeganAt(s, events, j, id, username, rid) && RidKept(Run(s, events), id, rid)
  }

  predicate RidKept(s: State, id: nat, rid: string) {
    id in s.pending ==> s.pending[id].value.rid == rid
  }

  /** A request leaves pending logins and their histories alone, except that it may begin one. */
  ghost predicate PassedKept(s: State, v: State) {
    && v.cognito.users == s.cognito.users
    && (forall k :: k in s.passed ==> k in v.passed && v.passed[k] == s.passed[k])
    && (forall k :: k in v.pending && k in s.passed ==>
          k in s.pending && v.pending[k].value.rid == s.pending[k].value.rid)
  }

  lemma ServePassed(s: State, e: Event)
    requires Inv(s)
    ensures PassedKept(s, Serve(s, e).0)
    ensures !e.PasswordRequest? ==> Serve(s, e).0.passed == s.passed
  {
    forall k | k in s.pending ensures k in s.passed { assert PendingOk(s, k); }
    match e
    case PasswordRequest(username, password, rid) => LoginMeans(s, username, password, rid);
    case ChallengeRequest(id, code) => ChallengePassed(s, id, code);
    case SetupRequest(id, renew) => SetupPassed(s, id, renew);
    case EnrolRequest(id, code) => EnrolPassed(s, id, code);
    case _ =>
  }

  ghost predicate NothingBegan(s: State, v: State) {
    PassedKept(s, v) && v.passed == s.passed
  }

  lemma ChallengePassed(s: State, id: nat, code: string)
    ensures NothingBegan(s, CompleteChallenge(s, id, code).0)
  {
    if AtChallenge(s, id) {
      var p := s.pending[id].value;
      var (c, outcome) := RespondToTotp(s.cognito, p.username, p.session, code, s.next, s.now, s.accepts);
      ResponsePassed(s, id, code, c, outcome);
    }
  }

  lemma ResponsePassed(s: State, id: nat, code: string, c: Directory, outcome: MfaOutcome<Profile>)
    requires AtChallenge(s, id) && c.users == s.cognito.users
    ensures NothingBegan(s, AfterResponse(s, id, code, c, outcome).0)
  {
    match outcome
    case CodeMismatch => MissPassed(s, id);
    case SessionGone =>
    case Ok(profile) =>
      FinishPassed(DeletePending(s.(next := s.next + 1, cognito := c), id), id, profile, code,
                   s.pending[id].value.rid);
  }

  lemma MissPassed(s: State, id: nat)
    requires AtChallenge(s, id)
    ensures NothingBegan(s, CountWrongCode(s, id).0)
  {
  }

  lemma FinishPassed(s: State, id: nat, profile: Profile, code: string, rid: string)
    ensures var v := FinishLogin(s, id, profile, code, rid).0;
            v.cognito == s.cognito && v.passed == s.passed && v.pending == s.pending
  {
  }

  lemma SetupPassed(s: State, id: nat, renew: bool)
    ensures NothingBegan(s, BeginSetup(s, id, renew).0)
  {
  }

  lemma EnrolPassed(s: State, id: nat, code: string)
    ensures NothingBegan(s, CompleteSetup(s, id, code).0)
  {
    if Live(s.pending, id, s.now) && s.pending[id].value.Setup? {
      var p := s.pending[id].value;
      var (verified, outcome) := VerifySecret(s.cognito, p.accessToken, code, s.now, s.accepts);
      VerificationPassed(s, id, code, verified, outcome);
    }
  }

  lemma VerificationPassed(s: State, id: nat, code: string, verified: Directory, outcome: MfaOutcome<()>)
    requires Live(s.pending, id, s.now) && s.pending[id].value.Setup? && verified.users == s.cognito.users
    ensures NothingBegan(s, AfterVerification(s, id, code, verified, outcome).0)
  {
    if outcome.Ok? {
      var p := s.pending[id].value;
      FinishPassed(DeletePending(s.(cognito := Enable(verified, p.accessToken).0), id), id, p.profile, code, p.rid);
    }
  }

  // ---------- What every session goes back to ----------

  /** A pending login that was not there at first goes back to a request of the run that gave the right
      password of its user. */
  lemma {:induction false} PassedBegan(s: State, events: seq<Event>, id: nat)
    requires Inv(s) && id !in s.passed && id in Run(s, events).passed
    ensures Began(s, events, id, Run(s, events).passed[id])
    decreases events
  {
    if events != [] {
      var v := Serve(s, events[0]).0;
      ServeInv(s, events[0]);
      if id in v.passed {
        FirstBegan(s, events, id);
      } else {
        PassedBegan(v, events[1..], id);
        LaterBegan(s, events, id, Run(s, events).passed[id]);
      }
    }
  }

  lemma FirstBegan(s: State, events: seq<Event>, id: nat)
    requires Inv(s) && events != [] && id !in s.passed && id in Serve(s, events[0]).0.passed
    ensures id in Run(s, events).passed && Began(s, events, id, Run(s, events).passed[id])
  {
    var e, v := events[0], Serve(s, events[0]).0;
    ServeInv(s, e);
    ServePassed(s, e);
    LoginMeans(s, e.username, e.password, e.rid);
    RunPassed(v, events[1..], id);
    assert events[..0] == [];
    assert BeganAt(s, events, 0, id, v.passed[id], e.rid);
  }

  lemma LaterBegan(s: State, events: seq<Event>, id: nat, username: string)
    requires events != [] && Began(Serve(s, events[0]).0, events[1..], id, username)
    ensures Began(s, events, id, username)
  {
    var v, rest := Serve(s, events[0]).0, events[1..];
    var j: nat, rid :| BeganAt(v, rest, j, id, username, rid) && RidKept(Run(v, rest), id, rid);
    assert events[..j + 1][1..] == rest[..j] && events[..j + 1][0] == events[0];
    assert Run(s, events[..j + 1]) == Run(v, rest[..j]);
    assert BeganAt(s, events, j + 1, id, username, rid);
  }

  lemma {:induction false} RunPassed(s: State, events: seq<Event>, id: nat)
    requires Inv(s) && id in s.passed
    ensures var v := Run(s, events);
            && id in v.passed && v.passed[id] == s.passed[id]
            && (id in v.pending ==> id in s.pending && v.pending[id].value.rid == s.pending[id].value.rid)
    decreases events
  {
    if events != [] {
      ServeInv(s, events[0]);
      ServePassed(s, events[0]);
      RunPassed(Serve(s, events[0]).0, events[1..], id);
    }
  }

  /** Every session made in a run goes back to an earlier request of that run that gave the right password
      of the session's user, and was answered with the pending login the session was made for. */
  lemma SessionsBeganWithPassword(s: State, events: seq<Event>, i: nat)
    requires Initial(s) && i < |Run(s, events).made|
    ensures var v := Run(s, events);
            var m := v.made[i];
            && m.pendingId in v.passed
            && Began(s, events, m.pendingId, v.passed[m.pendingId])
            && v.passed[m.pendingId] in v.cognito.users
            && m.user.sub == Some(v.cognito.users[v.passed[m.pendingId]].profile.sub)
  {
    InitialInv(s);
    OneSessionPerLogin(s, events);
    PassedBegan(s, events, Run(s, events).made[i].pendingId);
  }

  ghost predicate ReturnsTo(s: State, events: seq<Event>, id: nat, rid: string) {
    && id in Run(s, events).passed
    && exists j: nat :: BeganAt(s, events, j, id, Run(s, events).passed[id], rid)
  }

  /** Whoever is logged in returns to the very request that the password was given for. */
  lemma LoggedInReturns(s: State, events: seq<Event>, e: Event)
    requires Initial(s) && Serve(Run(s, events), e).1.LoggedIn?
    ensures About(e).Some? && ReturnsTo(s, events, About(e).value, Serve(Run(s, events), e).1.rid)
  {
    InitialInv(s);
    RunInv(s, events);
    LoggedInPending(Run(s, events), e);
    PendingReturns(s, events, About(e).value);
  }

  lemma PendingReturns(s: State, events: seq<Event>, id: nat)
    requires Initial(s) && id in Run(s, events).pending && id in Run(s, events).passed
    ensures ReturnsTo(s, events, id, Run(s, events).pending[id].value.rid)
  {
    InitialInv(s);
    PassedBegan(s, events, id);
    var v := Run(s, events);
    var j: nat, rid :| BeganAt(s, events, j, id, v.passed[id], rid) && RidKept(v, id, rid);
  }

  lemma LoggedInPending(s: State, e: Event)
    requires Inv(s) && Serve(s, e).1.LoggedIn?
    ensures About(e).Some?
    ensures var id := About(e).value;
            && id in s.pending && id in s.passed && Serve(s, e).1.rid == s.pending[id].value.rid
  {
    ServeEffect(s, e);
    assert PendingOk(s, About(e).value);
    RidAnswered(s, e, About(e).value);
  }

  lemma RidAnswered(s: State, e: Event, id: nat)
    requires About(e) == Some(id) && Serve(s, e).1.LoggedIn? && id in s.pending
    ensures Serve(s, e).1.rid == s.pending[id].value.rid
  {
  }

  // ---------- When a set-up completes, and what a code is answered ----------

  predicate AtSetup(s: State, id: nat) {
    Live(s.pending, id, s.now) && s.pending[id].value.Setup?
  }

  /** A secret was shown to this set-up, less than three minutes ago. */
  predicate Shown(s: State, id: nat)
    requires AtSetup(s, id)
  {
    s.pending[id].value.secret.Some? && s.now < s.pending[id].value.secret.value.1 + 3 * 60
  }

  /** The code is right for the secret last issued to the user of this set-up, which is not enrolled yet. */
  predicate RightCode(s: State, id: nat, code: string) {
    && id in s.passed && s.passed[id] in s.issued
    && !Enrolled(s, s.passed[id], s.issued[s.passed[id]].0)
    && s.accepts(s.issued[s.passed[id]].0, code, s.now)
  }

  predicate SecretGone(s: State, id: nat) {
    id !in s.passed || s.passed[id] !in s.issued || Enrolled(s, s.passed[id], s.issued[s.passed[id]].0)
  }

  /** What a code for a set-up is answered, in this order; a session is made exactly for the right code in
      time of a user who is not disabled, and every answer but a wrong code or a secret too old ends it. */
  lemma SetupAnswers(s: State, id: nat, code: string)
    requires Inv(s)
    ensures var (v, reply) := CompleteSetup(s, id, code);
            && (!AtSetup(s, id) ==> reply == Failed(Expired) && v == s)
            && (AtSetup(s, id) && !Shown(s, id) ==> reply == Failed(SetupExpired) && v == s)
            && (AtSetup(s, id) && Shown(s, id) ==>
                  && (reply == Failed(Expired) <==> SecretGone(s, id))
                  && (reply == Failed(WrongCode) <==> !SecretGone(s, id) && !RightCode(s, id, code))
                  && (reply.LoggedIn? || reply == Failed(UserDisabled) <==> RightCode(s, id, code))
                  && (if reply == Failed(WrongCode) then v == s else id !in v.pending))
  {
    assert PendingOk(s, id);
    if id in s.passed { assert SecretOk(s, s.passed[id]); }
    if AtSetup(s, id) && Shown(s, id) {
      var p := s.pending[id].value;
      var (verified, outcome) := VerifySecret(s.cognito, p.accessToken, code, s.now, s.accepts);
      VerificationAnswers(s, id, code, verified, outcome);
    }
  }

  lemma VerificationAnswers(s: State, id: nat, code: string, verified: Directory, outcome: MfaOutcome<()>)
    requires AtSetup(s, id)
    requires outcome.Ok? ==> Enable(verified, s.pending[id].value.accessToken).1
    ensures var (v, reply) := AfterVerification(s, id, code, verified, outcome);
            && (reply == Failed(Expired) <==> outcome.SessionGone?)
            && (reply == Failed(WrongCode) <==> outcome.CodeMismatch?)
            && (reply.LoggedIn? || reply == Failed(UserDisabled) <==> outcome.Ok?)
            && (if outcome.CodeMismatch? then v == s else id !in v.pending)
  {
    if outcome.Ok? {
      var p := s.pending[id].value;
      FinishEffect(DeletePending(s.(cognito := Enable(verified, p.accessToken).0), id), id, p.profile, code, p.rid);
    }
  }

  /** Exactly when a code completes a set-up. */
  lemma SetupCompletesIff(s: State, id: nat, code: string)
    requires Inv(s)
    ensures CompleteSetup(s, id, code).1.LoggedIn? <==>
              && AtSetup(s, id) && Shown(s, id) && RightCode(s, id, code)
              && s.passed[id] in s.cognito.users
              && var profile := s.cognito.users[s.passed[id]].profile;
                 Resolve(s.users, profile.sub, profile.email, s.next).1.active
  {
    SetupAnswers(s, id, code);
    assert PendingOk(s, id);
    if AtSetup(s, id) && Shown(s, id) && RightCode(s, id, code) { assert SecretOk(s, s.passed[id]); }
  }

  /** What a code for a challenge is answered: nothing is checked after three minutes; a wrong code is
      told as wrong four times and the fifth ends the challenge; the right one ends it too, with a session
      unless the user is disabled. */
  lemma ChallengeAnswers(s: State, id: nat, code: string)
    requires Inv(s)
    ensures var (v, reply) := CompleteChallenge(s, id, code);
            && (!AtChallenge(s, id) ==> reply == Failed(Expired) && v == s)
            && (AtChallenge(s, id) ==>
                  && id in s.born && id in s.passed && s.passed[id] in s.cognito.enrolled
                  && var late := s.now > s.born[id] + 3 * 60;
                     var right := s.accepts(s.cognito.enrolled[s.passed[id]], code, s.now);
                  && (reply.LoggedIn? || reply == Failed(UserDisabled) <==> !late && right)
                  && (reply == Failed(WrongCode) <==> !late && !right && WrongCodes(s, id) < 4)
                  && (reply == Failed(Expired) <==> late || (!right && WrongCodes(s, id) == 4))
                  && (id in v.pending <==> reply == Failed(WrongCode))
                  && WrongCodes(v, id) == WrongCodes(s, id) + if !late && !right then 1 else 0)
  {
    assert PendingOk(s, id);
    if AtChallenge(s, id) {
      var p := s.pending[id].value;
      var (c, outcome) := RespondToTotp(s.cognito, p.username, p.session, code, s.next, s.now, s.accepts);
      ResponseAnswers(s, id, code, c, outcome);
    }
  }

  lemma ResponseAnswers(s: State, id: nat, code: string, c: Directory, outcome: MfaOutcome<Profile>)
    requires AtChallenge(s, id) && s.pending[id].value.attempts == WrongCodes(s, id) < 5
    ensures var (v, reply) := AfterResponse(s, id, code, c, outcome);
            && (reply.LoggedIn? || reply == Failed(UserDisabled) <==> outcome.Ok?)
            && (reply == Failed(WrongCode) <==> outcome.CodeMismatch? && WrongCodes(s, id) < 4)
            && (reply == Failed(Expired) <==> outcome.SessionGone? || (outcome.CodeMismatch? && WrongCodes(s, id) == 4))
            && (id in v.pending <==> reply == Failed(WrongCode))
            && WrongCodes(v, id) == WrongCodes(s, id) + if outcome.CodeMismatch? then 1 else 0
  {
    match outcome
    case CodeMismatch => MissAnswers(s, id);
    case SessionGone =>
    case Ok(profile) =>
      var answered := DeletePending(s.(next := s.next + 1, cognito := c), id);
      FinishAnswers(answered, id, profile, code, s.pending[id].value.rid);
  }

  lemma MissAnswers(s: State, id: nat)
    requires AtChallenge(s, id) && s.pending[id].value.attempts == WrongCodes(s, id) < 5
    ensures var (v, reply) := CountWrongCode(s, id);
            && reply == Failed(if WrongCodes(s, id) < 4 then WrongCode else Expired)
            && (id in v.pending <==> WrongCodes(s, id) < 4) && WrongCodes(v, id) == WrongCodes(s, id) + 1
  {
  }

  /** Finishing a login makes a session exactly for a user who is not disabled, and notes the second
      factor of a user for whom none was noted; what was noted stays. */
  lemma FinishAnswers(s: State, id: nat, profile: Profile, code: string, rid: string)
    ensures var (v, reply) := FinishLogin(s, id, profile, code, rid);
            var user := Resolve(s.users, profile.sub, profile.email, s.next).1;
            && reply == (if user.active then LoggedIn(user, rid) else Failed(UserDisabled))
            && v.made == (if user.active then s.made + [Made(id, user, profile, code)] else s.made)
            && v.pending == s.pending && v.wrong == s.wrong && v.cognito == s.cognito
            && v.users == Resolve(s.users, profile.sub, profile.email, s.next).0
            && (user.active ==> user.id in v.methods)
            && (forall u :: u in s.methods ==> u in v.methods && v.methods[u] == s.methods[u])
            && (forall u :: u in v.methods && u !in s.methods ==> user.active && u == user.id && v.methods[u] == s.now)
  {
  }

  /** What a set-up page shows: the secret it showed before, while that is younger than three minutes and
      no other is asked for; otherwise a secret never given out before, which is then the one checked, and
      five more minutes for the set-up. */
  lemma SetupShows(s: State, id: nat, renew: bool)
    requires Inv(s)
    ensures var (v, reply) := BeginSetup(s, id, renew);
            && (reply == Failed(Expired) <==> !AtSetup(s, id))
            && (!AtSetup(s, id) ==> v == s)
            && (AtSetup(s, id) && Shown(s, id) && !renew ==>
                  v == s && reply == ShowSecret(s.pending[id].value.secret.value.0,
                                                s.pending[id].value.secret.value.1 + 3 * 60))
            && (AtSetup(s, id) && (renew || !Shown(s, id)) ==>
                  && reply.ShowSecret? && reply.expiresAt == s.now + 3 * 60
                  && id in s.passed
                  && (forall u :: u in s.issued ==> s.issued[u].0 != reply.secret)
                  && (forall u :: u in s.cognito.enrolled ==> s.cognito.enrolled[u] != reply.secret)
                  && v.cognito.pendingSecrets == s.cognito.pendingSecrets[s.passed[id] := reply.secret]
                  && id in v.pending && v.pending[id].expiresAt == s.now + 5 * 60 && AtSetup(v, id) && Shown(v, id))
  {
    assert PendingOk(s, id);
    forall u | u in s.issued ensures s.issued[u].0 != s.next { assert SecretOk(s, u); }
    forall u | u in s.cognito.enrolled ensures s.cognito.enrolled[u] != s.next { assert SecretOk(s, u); }
  }
}
