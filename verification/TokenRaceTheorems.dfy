/** What holds of codes and refresh tokens in every interleaving, and what does not. */
module TokenRaceTheorems {
  import opened Timed
  import AuthSpec
  import opened TokenRace

  // ---------- Single use ----------

  ghost function Rights(w: World, familyId: nat): set<Right> {
    (set k | k in w.tokens && Holds(w, familyId, OfToken(k)) :: OfToken(k))
    + (set t | t in w.threads && Holds(w, familyId, OfThread(t)) :: OfThread(t))
  }

  /** In every interleaving no refresh token is consumed twice, no code mints twice, and a family
      is continued by at most one token or request at any moment. */
  lemma SingleUse(w: World, steps: seq<Step>, familyId: nat)
    requires Initial(w)
    ensures var v := Run(w, steps);
            Distinct(v.consumed) && DistinctCodes(v.minted) && |Rights(v, familyId)| <= 1
  {
    RunInv(w, steps);
    var v := Run(w, steps);
    AtMostOneRight(v, familyId);
  }

  lemma AtMostOneRight(v: World, familyId: nat)
    requires Linear(v, familyId)
    ensures |Rights(v, familyId)| <= 1
  {
    var rights := Rights(v, familyId);
    if rights != {} {
      var a :| a in rights;
      assert rights == {a};
    }
  }

  /** A token that was consumed is never taken for active again. Whoever presents it later finds
      it missing, and is simply refused, or finds it remembered, and then revokes the family:
      which of the two depends only on whether the first request has written it back. */
  lemma ConsumedTokenPresentedAgain(w: World, t: nat, accept: bool, pick: nat)
    requires Inv(w) && t in w.threads && w.threads[t].TakeToken? && w.threads[t].token in w.consumed
    ensures var token := w.threads[t].token;
            var v := Advance(w, t, accept, pick);
            && (!Live(w.tokens, token, w.now) ==> v.threads[t] == Finished)
            && (Live(w.tokens, token, w.now) ==>
                  v.threads[t].WriteUnchanged?
                  && Advance(v, t, accept, pick).threads[t] == ListKeys(w.tokens[token].value.familyId, None))
            && v.consumed == w.consumed
  {
    assert TokenOk(w, w.threads[t].token);
  }

  // ---------- Dead stays dead ----------

  predicate LiveRight(w: World, familyId: nat, right: Right) {
    Holds(w, familyId, right) && (right.OfToken? ==> Live(w.tokens, right.token, w.now))
  }

  /** No active token and no request that could store one. */
  ghost predicate Extinct(w: World, familyId: nat) {
    familyId < w.next && forall right :: !LiveRight(w, familyId, right)
  }

  predicate ActiveIn(w: World, familyId: nat, k: nat) {
    ActiveNow(w, k) && w.tokens[k].value.familyId == familyId
  }

  /** What the next store call of a request can at most do to tokens and rights. */
  ghost predicate Effect(w: World, v: World, t: nat) {
    && t in w.threads && t in v.threads && v.threads == w.threads[t := v.threads[t]] && v.now == w.now
        && w.next <= v.next
    && var before, after := w.threads[t], v.threads[t];
    && (forall k :: k in v.tokens && v.tokens[k].value.status.Active? ==>
          || (k in w.tokens && v.tokens[k] == w.tokens[k])
          || (k == w.next && (before.StoreFirst? || before.StoreNext?)
              && v.tokens[k].value.familyId == before.familyId))
    && (forall f: nat :: Continues(after, f) ==>
          Continues(before, f) || (before.TakeToken? && ActiveIn(w, f, before.token)) || f >= w.next)
    && (Adding(after).Some? ==> Adding(before) == Adding(after) || Continues(before, Adding(after).value.0))
    && AddsAtMost(w, v, Adding(before))
  }

  /** The sets of the families are as before, or the request's token is added to its family's set. */
  predicate AddsAtMost(w: World, v: World, adding: Option<(nat, nat)>) {
    || v.families == w.families
    || (adding.Some? && v.families == AddMember(w.families, adding.value.0, adding.value.1, w.now,
                                                AuthSpec.REFRESH_TOKEN_TTL_SECONDS))
  }

  lemma AdvanceEffect(w: World, t: nat, accept: bool, pick: nat)
    requires Inv(w) && t in w.threads
    ensures Effect(w, Advance(w, t, accept, pick), t)
  {
    if Exchanging(w.threads[t]) {
      ExchangeEffect(w, t, accept);
    } else if Refreshing(w.threads[t]) {
      RefreshEffect(w, t, accept);
    } else {
      RevokeEffect(w, t, accept, pick);
    }
  }

  lemma ExchangeEffect(w: World, t: nat, accept: bool)
    requires Inv(w) && t in w.threads && Exchanging(w.threads[t])
    ensures Effect(w, AdvanceExchange(w, t, accept), t)
  {
  }

  lemma RefreshEffect(w: World, t: nat, accept: bool)
    requires Inv(w) && t in w.threads && Refreshing(w.threads[t])
    ensures Effect(w, AdvanceRefresh(w, t, accept), t)
  {
    assert PcOk(w, w.threads[t]);
  }

  /** A request that neither continues nor adds anything keeps its hands off the tokens, or writes
      an inactive record. */
  lemma HarmlessEffect(w: World, v: World, t: nat)
    requires t in w.threads && t in v.threads && v.threads == w.threads[t := v.threads[t]] && v.now == w.now
        && w.next <= v.next
    requires Adding(v.threads[t]).None? && forall f: nat :: !Continues(v.threads[t], f)
    requires forall k :: k in v.tokens && v.tokens[k].value.status.Active? ==>
        k in w.tokens && v.tokens[k] == w.tokens[k]
    requires v.families == w.families
    ensures Effect(w, v, t)
  {
  }

  lemma RevokeEffect(w: World, t: nat, accept: bool, pick: nat)
    requires t in w.threads && !Exchanging(w.threads[t]) && !Refreshing(w.threads[t])
    ensures Effect(w, AdvanceRevoke(w, t, accept, pick), t)
  {
    var v := AdvanceRevoke(w, t, accept, pick);
    if w.threads[t].Finished? {
    } else if w.threads[t].WriteKeys? {
      WriteKeysEffect(w, t, accept, pick);
    } else {
      assert v == At(w, t, v.threads[t]) || v == w;
      HarmlessEffect(w, v, t);
    }
  }

  lemma WriteKeysEffect(w: World, t: nat, accept: bool, pick: nat)
    requires t in w.threads && w.threads[t].WriteKeys?
    ensures Effect(w, AdvanceRevoke(w, t, accept, pick), t)
  {
    HarmlessEffect(w, AdvanceRevoke(w, t, accept, pick), t);
  }

  /** The same for any step; requests that arrive hold nothing yet. */
  ghost predicate StepEffect(w: World, v: World, step: Step) {
    if step.Go? && step.thread in w.threads then Effect(w, v, step.thread)
    else
      && v.tokens == w.tokens && v.families == w.families && w.now <= v.now && w.next <= v.next
      && forall t :: t in v.threads ==>
           || (t in w.threads && v.threads[t] == w.threads[t])
           || (Adding(v.threads[t]).None? && forall f: nat :: !Continues(v.threads[t], f))
  }

  lemma StepHasEffect(w: World, step: Step)
    requires Inv(w)
    ensures StepEffect(w, Next(w, step), step)
  {
    if step.Go? && step.thread in w.threads {
      AdvanceEffect(w, step.thread, step.accept, step.pick);
    }
  }

  /** Where a right that exists after a step came from. */
  lemma Origin(w: World, v: World, step: Step, familyId: nat, right: Right)
    requires Inv(w) && StepEffect(w, v, step) && familyId < w.next && LiveRight(v, familyId, right)
    ensures || LiveRight(w, familyId, right)
            || (step.Go? && right == OfToken(w.next) && LiveRight(w, familyId, OfThread(step.thread)))
            || (step.Go? && right == OfThread(step.thread) && step.thread in w.threads
                && w.threads[step.thread].TakeToken?
                && ActiveIn(w, familyId, w.threads[step.thread].token))
  {
  }

  lemma StepExtinct(w: World, v: World, step: Step, familyId: nat)
    requires Inv(w) && StepEffect(w, v, step) && Extinct(w, familyId)
    ensures Extinct(v, familyId)
  {
    forall right | LiveRight(v, familyId, right) ensures exists origin :: LiveRight(w, familyId, origin) {
      Origin(w, v, step, familyId, right);
      if !LiveRight(w, familyId, right) && right == OfThread(step.thread) {
        assert LiveRight(w, familyId, OfToken(w.threads[step.thread].token));
      }
    }
  }

  /** Whatever happens afterwards, a family nobody can continue is never continued. */
  lemma {:induction false} DeadStaysDead(w: World, steps: seq<Step>, familyId: nat)
    requires Inv(w) && Extinct(w, familyId)
    ensures Extinct(Run(w, steps), familyId)
    decreases steps
  {
    if steps != [] {
      StepInv(w, steps[0]);
      StepHasEffect(w, steps[0]);
      StepExtinct(w, Next(w, steps[0]), steps[0], familyId);
      DeadStaysDead(Next(w, steps[0]), steps[1..], familyId);
    }
  }

  // ---------- Revocation of a family among other requests ----------

  /** Nobody is in the middle of issuing a token of the family, except that a stored token may
      still wait to be added to a set that covers it anyway. */
  ghost predicate Quiet(w: World, familyId: nat) {
    familyId < w.next && forall t :: t in w.threads ==> !Issuing(w, w.threads[t], familyId)
  }

  predicate Issuing(w: World, pc: Pc, familyId: nat) {
    Continues(pc, familyId) || AddsUncovered(w, pc, familyId)
  }

  /** The request has stored an active token that the family's set does not cover yet. */
  predicate AddsUncovered(w: World, pc: Pc, familyId: nat) {
    && Adding(pc).Some? && Adding(pc).value.0 == familyId && ActiveIn(w, familyId, Adding(pc).value.1)
    && !Covered(w, familyId, Adding(pc).value.1)
  }

  /** This step takes an active token of the family. */
  predicate Takes(w: World, step: Step, familyId: nat) {
    step.Go? && step.thread in w.threads && w.threads[step.thread].TakeToken?
    && ActiveIn(w, familyId, w.threads[step.thread].token)
  }

  /** No step of the run takes an active token of the family. */
  ghost predicate Undisturbed(w: World, steps: seq<Step>, familyId: nat)
    decreases steps
  {
    steps != [] ==> !Takes(w, steps[0], familyId) && Undisturbed(Next(w, steps[0]), steps[1..], familyId)
  }

  /** What the revoking request has still to deal with. */
  ghost predicate Sweeping(w: World, r: nat, familyId: nat) {
    r in w.threads &&
    match w.threads[r]
    case ListKeys(f, _) => f == familyId
    case ReadKeys(f, todo, found, _) =>
      f == familyId && forall k :: ActiveIn(w, familyId, k) ==> k in todo || k in found
    case WriteKeys(f, todo, found, _) =>
      f == familyId && todo <= found.Keys && forall k :: ActiveIn(w, familyId, k) ==> k in todo
    case WriteUsed(_, _) => forall k :: !ActiveIn(w, familyId, k)
    case Finished => forall k :: !ActiveIn(w, familyId, k)
    case _ => false
  }

  lemma StepQuiet(w: World, v: World, step: Step, familyId: nat)
    requires Inv(w) && StepEffect(w, v, step) && Quiet(w, familyId) && !Takes(w, step, familyId)
    ensures Quiet(v, familyId)
    ensures forall k :: ActiveIn(v, familyId, k) ==> ActiveIn(w, familyId, k)
  {
    forall k | ActiveIn(v, familyId, k) ensures ActiveIn(w, familyId, k) && v.tokens[k] == w.tokens[k] {
      StillActive(w, v, step, familyId, k);
    }
    forall t | t in v.threads ensures !Issuing(v, v.threads[t], familyId) {
      StillQuiet(w, v, step, familyId, t);
    }
  }

  lemma StillActive(w: World, v: World, step: Step, familyId: nat, k: nat)
    requires StepEffect(w, v, step) && Quiet(w, familyId) && ActiveIn(v, familyId, k)
    ensures ActiveIn(w, familyId, k) && v.tokens[k] == w.tokens[k]
  {
    if step.Go? && step.thread in w.threads {
      assert !Issuing(w, w.threads[step.thread], familyId);
    }
  }

  lemma StillQuiet(w: World, v: World, step: Step, familyId: nat, t: nat)
    requires Inv(w) && StepEffect(w, v, step) && Quiet(w, familyId) && !Takes(w, step, familyId) && t in v.threads
    requires forall k :: ActiveIn(v, familyId, k) ==> ActiveIn(w, familyId, k) && v.tokens[k] == w.tokens[k]
    ensures !Issuing(v, v.threads[t], familyId)
  {
    assert t in w.threads ==> !Issuing(w, w.threads[t], familyId);
    if step.Go? && step.thread in w.threads {
      assert !Issuing(w, w.threads[step.thread], familyId);
    }
    var adding := Adding(v.threads[t]);
    if adding.Some? && adding.value.0 == familyId && ActiveIn(v, familyId, adding.value.1) {
      CoveredStays(w, v, step, familyId, adding.value.1);
    }
  }

  lemma CoveredStays(w: World, v: World, step: Step, familyId: nat, k: nat)
    requires Inv(w) && StepEffect(w, v, step) && ActiveIn(w, familyId, k) && Covered(w, familyId, k)
    requires k in v.tokens && v.tokens[k] == w.tokens[k]
    ensures Covered(v, familyId, k)
  {
    assert TokenOk(w, k);
  }

  lemma StepSweeping(w: World, step: Step, r: nat, familyId: nat)
    requires Inv(w) && Quiet(w, familyId) && !Takes(w, step, familyId) && Sweeping(w, r, familyId)
    ensures Sweeping(Next(w, step), r, familyId)
  {
    var v := Next(w, step);
    StepHasEffect(w, step);
    StepQuiet(w, v, step, familyId);
    if step.Go? && step.thread == r {
      SweepOn(w, r, familyId, step.accept, step.pick);
    } else {
      assert v.threads[r] == w.threads[r];
    }
  }

  /** The revoking request's own step. */
  lemma SweepOn(w: World, r: nat, familyId: nat, accept: bool, pick: nat)
    requires Inv(w) && Quiet(w, familyId) && Sweeping(w, r, familyId)
    ensures Sweeping(Advance(w, r, accept, pick), r, familyId)
  {
    forall k: nat | ActiveIn(w, familyId, k) ensures Covered(w, familyId, k) {
      assert TokenOk(w, k);
      if Pending(w, familyId, k) {
        var t :| t in w.threads && Adding(w.threads[t]) == Some((familyId, k));
        assert !Issuing(w, w.threads[t], familyId);
      }
    }
    AdvanceEffect(w, r, accept, pick);
    if w.threads[r].WriteUsed? {
      var v := AdvanceExchange(w, r, accept);
      forall k | ActiveIn(v, familyId, k) ensures ActiveIn(w, familyId, k) {}
    } else {
      SweepRevoke(w, r, familyId, accept, pick);
    }
  }

  lemma SweepRevoke(w: World, r: nat, familyId: nat, accept: bool, pick: nat)
    requires Sweeping(w, r, familyId) && !w.threads[r].WriteUsed?
    requires forall k :: ActiveIn(w, familyId, k) ==> Covered(w, familyId, k)
    requires Effect(w, AdvanceRevoke(w, r, accept, pick), r)
    ensures Sweeping(AdvanceRevoke(w, r, accept, pick), r, familyId)
  {
    var v := AdvanceRevoke(w, r, accept, pick);
    forall k | ActiveIn(v, familyId, k) ensures ActiveIn(w, familyId, k) {}
  }

  /** A revocation that starts when no token of the family is being issued, and during which no
      active token of it is taken, leaves the family dead for good, however many other requests
      run in between. */
  lemma {:induction false} RevocationSettles(w: World, steps: seq<Step>, r: nat, familyId: nat, later: seq<Step>)
    requires Inv(w) && Quiet(w, familyId) && Sweeping(w, r, familyId) && Undisturbed(w, steps, familyId)
    requires r in Run(w, steps).threads && Run(w, steps).threads[r] == Finished
    ensures Extinct(Run(w, steps), familyId) && Extinct(Run(Run(w, steps), later), familyId)
    decreases steps
  {
    if steps == [] {
      forall right ensures !LiveRight(w, familyId, right) {
        if right.OfToken? { assert !ActiveIn(w, familyId, right.token); }
      }
      DeadStaysDead(w, later, familyId);
    } else {
      StepInv(w, steps[0]);
      StepHasEffect(w, steps[0]);
      StepQuiet(w, Next(w, steps[0]), steps[0], familyId);
      StepSweeping(w, steps[0], r, familyId);
      RevocationSettles(Next(w, steps[0]), steps[1..], r, familyId, later);
    }
  }

  // ---------- Runs one after the other ----------

  ghost predicate Leads(w: World, v: World) {
    exists steps :: Run(w, steps) == v
  }

  lemma LeadsNowhere(w: World)
    ensures Leads(w, w)
  {
    assert Run(w, []) == w;
  }

  lemma {:induction false} RunsOn(w: World, a: seq<Step>, b: seq<Step>, familyId: nat)
    ensures Run(w, a + b) == Run(Run(w, a), b)
    ensures Undisturbed(w, a, familyId) && Undisturbed(Run(w, a), b, familyId) ==> Undisturbed(w, a + b, familyId)
    decreases a
  {
    if a == [] {
      assert a + b == b;
    } else {
      assert (a + b)[1..] == a[1..] + b;
      RunsOn(Next(w, a[0]), a[1..], b, familyId);
    }
  }
}
