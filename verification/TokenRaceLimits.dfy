/** What a revocation among other requests can miss, and what presenting one token twice can do. */
module TokenRaceLimits {
  import opened Timed
  import AuthSpec
  import opened TokenRace
  import opened TokenRaceTheorems

  // ---------- A revocation runs to its end ----------

  predicate Ended(w: World, t: nat) {
    t in w.threads && w.threads[t] == Finished
  }

  /** From `w` to `v` the revoking request finishes alone: tokens outside `touched` are as before. */
  ghost predicate SweptTo(w: World, v: World, r: nat, touched: set<nat>) {
    && r in w.threads && v.threads == w.threads[r := Finished]
    && v.now == w.now && v.next == w.next && v.families == w.families && w.tokens.Keys <= v.tokens.Keys
    && forall k :: k in w.tokens && k !in touched ==> v.tokens[k] == w.tokens[k]
  }

  ghost predicate Sweeps(w: World, r: nat, familyId: nat, touched: set<nat>) {
    exists steps :: Undisturbed(w, steps, familyId) && SweptTo(w, Run(w, steps), r, touched)
  }

  /** What the revocation has read and may still read or write. */
  predicate AtKeys(pc: Pc, touched: set<nat>) {
    match pc
    case ReadKeys(_, todo, found, _) => todo + found.Keys <= touched
    case WriteKeys(_, todo, found, _) => todo <= found.Keys <= touched
    case WriteUsed(_, _) => true
    case Finished => true
    case _ => false
  }

  lemma SweepsNow(w: World, r: nat, familyId: nat, touched: set<nat>)
    requires Ended(w, r)
    ensures Sweeps(w, r, familyId, touched)
  {
    assert w.threads[r := Finished] == w.threads;
    assert Undisturbed(w, [], familyId) && SweptTo(w, Run(w, []), r, touched);
  }

  lemma SweepsAfter(w: World, v: World, r: nat, pick: nat, familyId: nat, touched: set<nat>)
    requires r in w.threads && !w.threads[r].TakeToken? && Advance(w, r, true, pick) == v
    requires v.threads.Keys == w.threads.Keys && (forall t :: t in w.threads && t != r ==> v.threads[t] == w.threads[t])
    requires v.now == w.now && v.next == w.next && v.families == w.families && w.tokens.Keys <= v.tokens.Keys
    requires forall k :: k in w.tokens && k !in touched ==> v.tokens[k] == w.tokens[k]
    requires Sweeps(v, r, familyId, touched)
    ensures Sweeps(w, r, familyId, touched)
  {
    var steps :| Undisturbed(v, steps, familyId) && SweptTo(v, Run(v, steps), r, touched);
    var all := [Go(r, true, pick)] + steps;
    assert all[1..] == steps && Next(w, all[0]) == v;
    assert v.threads[r := Finished] == w.threads[r := Finished];
    assert SweptTo(w, Run(w, all), r, touched) && Undisturbed(w, all, familyId);
  }

  lemma WriteUsedSweeps(w: World, r: nat, familyId: nat, touched: set<nat>)
    requires r in w.threads && w.threads[r].WriteUsed?
    ensures Sweeps(w, r, familyId, touched)
  {
    var v := AdvanceExchange(w, r, true);
    SweepsNow(v, r, familyId, touched);
    SweepsAfter(w, v, r, 0, familyId, touched);
  }

  lemma {:induction false} WriteSweeps(w: World, r: nat, familyId: nat, todo: set<nat>, touched: set<nat>)
    requires r in w.threads && w.threads[r].WriteKeys? && w.threads[r].todo == todo && AtKeys(w.threads[r], touched)
    ensures Sweeps(w, r, familyId, touched)
    decreases todo
  {
    if todo == {} {
      var v := AdvanceRevoke(w, r, true, 0);
      if Ended(v, r) { SweepsNow(v, r, familyId, touched); } else { WriteUsedSweeps(v, r, familyId, touched); }
      SweepsAfter(w, v, r, 0, familyId, touched);
    } else {
      var k :| k in todo;
      var v := AdvanceRevoke(w, r, true, k);
      WriteSweeps(v, r, familyId, todo - {k}, touched);
      SweepsAfter(w, v, r, k, familyId, touched);
    }
  }

  lemma {:induction false} ReadSweeps(w: World, r: nat, familyId: nat, todo: set<nat>, touched: set<nat>)
    requires r in w.threads && w.threads[r].ReadKeys? && w.threads[r].todo == todo && AtKeys(w.threads[r], touched)
    ensures Sweeps(w, r, familyId, touched)
    decreases todo
  {
    if todo == {} {
      var v := AdvanceRevoke(w, r, true, 0);
      WriteSweeps(v, r, familyId, w.threads[r].found.Keys, touched);
      SweepsAfter(w, v, r, 0, familyId, touched);
    } else {
      var k :| k in todo;
      var v := AdvanceRevoke(w, r, true, k);
      ReadSweeps(v, r, familyId, todo - {k}, touched);
      SweepsAfter(w, v, r, k, familyId, touched);
    }
  }

  lemma ListSweeps(w: World, r: nat, familyId: nat)
    requires r in w.threads && w.threads[r].ListKeys? && w.threads[r].familyId == familyId
    ensures Sweeps(w, r, familyId, Members(w.families, familyId, w.now))
  {
    var keys := Members(w.families, familyId, w.now);
    var v := AdvanceRevoke(w, r, true, 0);
    ReadSweeps(v, r, familyId, keys, keys);
    SweepsAfter(w, v, r, 0, familyId, keys);
  }

  // ---------- What it misses ----------

  /** In some run in which nobody takes an active token of the family, the revocation finishes
      and leaves one. */
  ghost predicate Misses(w: World, r: nat, familyId: nat) {
    exists steps, k :: Undisturbed(w, steps, familyId) && Ended(Run(w, steps), r)
        && ActiveIn(Run(w, steps), familyId, k)
  }

  lemma MissesNow(w: World, r: nat, familyId: nat, k: nat)
    requires Ended(w, r) && ActiveIn(w, familyId, k)
    ensures Misses(w, r, familyId)
  {
    assert Undisturbed(w, [], familyId) && Ended(Run(w, []), r) && ActiveIn(Run(w, []), familyId, k);
  }

  lemma MissesAfter(w: World, a: seq<Step>, v: World, r: nat, familyId: nat)
    requires Undisturbed(w, a, familyId) && Run(w, a) == v && Misses(v, r, familyId)
    ensures Misses(w, r, familyId)
  {
    var b, k :| Undisturbed(v, b, familyId) && Ended(Run(v, b), r) && ActiveIn(Run(v, b), familyId, k);
    RunsOn(w, a, b, familyId);
    assert Undisturbed(w, a + b, familyId) && Ended(Run(w, a + b), r) && ActiveIn(Run(w, a + b), familyId, k);
  }

  lemma OneStep(w: World, step: Step, familyId: nat)
    requires !Takes(w, step, familyId)
    ensures Undisturbed(w, [step], familyId) && Run(w, [step]) == Next(w, step)
  {
    assert [step][1..] == [];
    assert Undisturbed(Next(w, step), [], familyId) && Run(Next(w, step), []) == Next(w, step);
  }

  /** A request in the middle of issuing stores its token after the revocation is through. */
  lemma StoreMisses(w: World, r: nat, t: nat, familyId: nat)
    requires Ended(w, r) && t != r && t in w.threads && (w.threads[t].StoreFirst? || w.threads[t].StoreNext?)
    requires Continues(w.threads[t], familyId)
    ensures Misses(w, r, familyId)
  {
    var v := Next(w, Go(t, true, 0));
    assert ActiveIn(v, familyId, w.next);
    MissesNow(v, r, familyId, w.next);
    OneStep(w, Go(t, true, 0), familyId);
    MissesAfter(w, [Go(t, true, 0)], v, r, familyId);
  }

  lemma {:induction false} IssuingMisses(w: World, r: nat, t: nat, familyId: nat)
    requires Ended(w, r) && t != r && t in w.threads && Continues(w.threads[t], familyId)
    ensures Misses(w, r, familyId)
    decreases if w.threads[t].WriteRotated? then 2 else if w.threads[t].Check? then 1 else 0
  {
    if w.threads[t].StoreFirst? || w.threads[t].StoreNext? {
      StoreMisses(w, r, t, familyId);
    } else {
      var v := AdvanceRefresh(w, t, true);
      IssuingMisses(v, r, t, familyId);
      OneStep(w, Go(t, true, 0), familyId);
      assert Next(w, Go(t, true, 0)) == v;
      MissesAfter(w, [Go(t, true, 0)], v, r, familyId);
    }
  }

  lemma ContinuingMisses(w: World, r: nat, t: nat, familyId: nat)
    requires r in w.threads && w.threads[r].ListKeys? && w.threads[r].familyId == familyId
    requires t in w.threads && Continues(w.threads[t], familyId)
    ensures Misses(w, r, familyId)
  {
    var keys := Members(w.families, familyId, w.now);
    ListSweeps(w, r, familyId);
    var steps :| Undisturbed(w, steps, familyId) && SweptTo(w, Run(w, steps), r, keys);
    IssuingMisses(Run(w, steps), r, t, familyId);
    MissesAfter(w, steps, Run(w, steps), r, familyId);
  }

  /** A token its family's set does not know now is not seen by the revocation. */
  lemma UnlistedMisses(w: World, r: nat, familyId: nat, k: nat)
    requires r in w.threads && w.threads[r].ListKeys? && w.threads[r].familyId == familyId
    requires ActiveIn(w, familyId, k) && k !in Members(w.families, familyId, w.now)
    ensures Misses(w, r, familyId)
  {
    var keys := Members(w.families, familyId, w.now);
    ListSweeps(w, r, familyId);
    var steps :| Undisturbed(w, steps, familyId) && SweptTo(w, Run(w, steps), r, keys);
    var v := Run(w, steps);
    assert k in w.tokens && v.tokens[k] == w.tokens[k] && v.now == w.now;
    MissesNow(v, r, familyId, k);
    MissesAfter(w, steps, v, r, familyId);
  }

  /** A token that outlives its family's set is missed once that set has expired. */
  lemma UncoveredMisses(w: World, r: nat, familyId: nat, k: nat)
    requires r in w.threads && w.threads[r].ListKeys? && w.threads[r].familyId == familyId
    requires ActiveIn(w, familyId, k) && !Covered(w, familyId, k)
    ensures Misses(w, r, familyId)
  {
    if k !in Members(w.families, familyId, w.now) {
      UnlistedMisses(w, r, familyId, k);
    } else {
      var step := Tick(w.families[familyId].expiresAt - w.now);
      var v := Next(w, step);
      UnlistedMisses(v, r, familyId, k);
      OneStep(w, step, familyId);
      MissesAfter(w, [step], v, r, familyId);
    }
  }

  /** A revocation that begins to list its family can miss a token, although nobody takes one
      meanwhile, exactly when some request is in the middle of issuing one. */
  lemma RevocationMissesIff(w: World, r: nat, familyId: nat)
    requires Inv(w) && familyId < w.next
    requires r in w.threads && w.threads[r].ListKeys? && w.threads[r].familyId == familyId
    ensures Misses(w, r, familyId) <==> !Quiet(w, familyId)
  {
    if Quiet(w, familyId) {
      forall steps, k | Undisturbed(w, steps, familyId) && Ended(Run(w, steps), r)
        ensures !ActiveIn(Run(w, steps), familyId, k)
      {
        RevocationSettles(w, steps, r, familyId, []);
        assert ActiveIn(Run(w, steps), familyId, k) ==> LiveRight(Run(w, steps), familyId, OfToken(k));
      }
    } else {
      var t :| t in w.threads && Issuing(w, w.threads[t], familyId);
      if Continues(w.threads[t], familyId) {
        ContinuingMisses(w, r, t, familyId);
      } else {
        UncoveredMisses(w, r, familyId, Adding(w.threads[t]).value.1);
      }
    }
  }

  // ---------- When tokens may be taken meanwhile ----------

  /** In some run, whatever happens in it, the revocation finishes and the family has an active token. */
  ghost predicate Outlived(w: World, r: nat, familyId: nat) {
    exists steps, k :: Ended(Run(w, steps), r) && ActiveIn(Run(w, steps), familyId, k)
  }

  ghost function UnusedName(used: set<nat>): (name: nat)
    ensures forall u :: u in used ==> u < name
  {
    if used == {} then 0
    else
      var u :| u in used;
      var rest := UnusedName(used - {u});
      assert forall v :: v in used ==> v == u || v in used - {u};
      if u < rest then rest else u + 1
  }

  /** The token is taken before the revocation lists the family. */
  lemma TakenOutlives(w: World, r: nat, familyId: nat, k: nat)
    requires r in w.threads && w.threads[r].ListKeys? && w.threads[r].familyId == familyId && ActiveIn(w, familyId, k)
    ensures Outlived(w, r, familyId)
  {
    var u := UnusedName(w.threads.Keys);
    var begun := Next(w, Start(u, Refresh(k)));
    var taken := AdvanceRefresh(begun, u, true);
    assert Next(begun, Go(u, true, 0)) == taken;
    ContinuingMisses(taken, r, u, familyId);
    var steps, j :| Undisturbed(taken, steps, familyId) && Ended(Run(taken, steps), r)
                    && ActiveIn(Run(taken, steps), familyId, j);
    var all := [Start(u, Refresh(k)), Go(u, true, 0)] + steps;
    assert all[1..] == [Go(u, true, 0)] + steps && all[1..][1..] == steps;
    assert Run(w, all) == Run(begun, all[1..]) == Run(taken, steps);
  }

  /** If tokens may be taken while it runs, a revocation is certain to leave the family without an
      active token exactly when the family was dead before. */
  lemma RevocationOutlivedIff(w: World, r: nat, familyId: nat)
    requires Inv(w) && familyId < w.next
    requires r in w.threads && w.threads[r].ListKeys? && w.threads[r].familyId == familyId
    ensures Outlived(w, r, familyId) <==> !Extinct(w, familyId)
  {
    if Extinct(w, familyId) {
      forall steps, k ensures !ActiveIn(Run(w, steps), familyId, k) {
        DeadStaysDead(w, steps, familyId);
        assert ActiveIn(Run(w, steps), familyId, k) ==> LiveRight(Run(w, steps), familyId, OfToken(k));
      }
    } else {
      var right :| LiveRight(w, familyId, right);
      match right
      case OfToken(k) => TakenOutlives(w, r, familyId, k);
      case OfThread(t) => ContinuingMisses(w, r, t, familyId);
    }
  }

  // ---------- One token presented twice ----------

  /** The token is written back as rotated, one request goes on, the other is about to revoke. */
  ghost predicate Taken(w: World, v: World, t: nat, u: nat, familyId: nat) {
    && Leads(w, v) && Inv(v) && v.next == w.next
    && t in v.threads && v.threads[t] == Check(familyId)
    && u in v.threads && v.threads[u] == ListKeys(familyId, None)
  }

  /** The successor is stored and added, and the other request is still about to revoke. */
  ghost predicate Issued(w: World, v: World, t: nat, u: nat, familyId: nat) {
    && Leads(w, v) && Inv(v) && familyId < v.next
    && Ended(v, t) && ActiveIn(v, familyId, w.next) && Covered(v, familyId, w.next)
    && u in v.threads && v.threads[u] == ListKeys(familyId, None)
  }

  lemma BothTake(w: World, t: nat, u: nat, k: nat, familyId: nat)
    requires Inv(w) && t != u && t in w.threads && u in w.threads && w.threads[t] == w.threads[u] == TakeToken(k)
    requires ActiveIn(w, familyId, k)
    ensures exists v :: Taken(w, v, t, u, familyId)
  {
    var w1 := AdvanceRefresh(w, t, true);
    var w2 := AdvanceRefresh(w1, t, true);
    var w3 := AdvanceRefresh(w2, u, true);
    var w4 := AdvanceRefresh(w3, u, true);
    assert w1.threads[t] == WriteRotated(k, familyId) && w2.threads[t] == Check(familyId);
    assert w3.threads[u] == WriteUnchanged(k, Record(familyId, AuthSpec.Rotated));
    GoesTo(w, t, w1);
    GoesTo(w1, t, w2);
    GoesTo(w2, u, w3);
    GoesTo(w3, u, w4);
    LeadsTwice(w, w1, w2);
    LeadsTwice(w, w2, w3);
    LeadsTwice(w, w3, w4);
    assert Taken(w, w4, t, u, familyId);
  }

  lemma GoesTo(w: World, t: nat, v: World)
    requires Inv(w) && t in w.threads && Refreshing(w.threads[t]) && AdvanceRefresh(w, t, true) == v
    ensures Leads(w, v) && Inv(v)
  {
    StepInv(w, Go(t, true, 0));
    assert [Go(t, true, 0)][1..] == [];
    assert Run(v, []) == v && Run(w, [Go(t, true, 0)]) == v;
  }

  lemma LeadsTwice(w: World, x: World, y: World)
    requires Leads(w, x) && Leads(x, y)
    ensures Leads(w, y)
  {
    var a :| Run(w, a) == x;
    var b :| Run(x, b) == y;
    RunsOn(w, a, b, 0);
  }

  lemma SuccessorIssued(w: World, t: nat, u: nat, familyId: nat)
    requires Inv(w) && t != u && t in w.threads && w.threads[t] == Check(familyId)
    requires u in w.threads && w.threads[u] == ListKeys(familyId, None)
    ensures exists v :: Issued(w, v, t, u, familyId)
  {
    var w1 := At(w, t, StoreNext(familyId));
    assert PcOk(w, w.threads[t]);
    GoesTo(w, t, w1);
    SuccessorStored(w, w1, t, u, familyId);
  }

  lemma SuccessorStored(w: World, v: World, t: nat, u: nat, familyId: nat)
    requires Leads(w, v) && Inv(v) && t != u && t in v.threads && v.threads[t] == StoreNext(familyId)
    requires u in v.threads && v.threads[u] == ListKeys(familyId, None) && familyId < v.next && v.next == w.next
    ensures exists x :: Issued(w, x, t, u, familyId)
  {
    var x := AdvanceRefresh(v, t, true);
    GoesTo(v, t, x);
    LeadsTwice(w, v, x);
    SuccessorAdded(w, x, t, u, familyId);
  }

  lemma SuccessorAdded(w: World, v: World, t: nat, u: nat, familyId: nat)
    requires Leads(w, v) && Inv(v) && t != u && t in v.threads && v.threads[t] == AddNext(familyId, w.next)
    requires u in v.threads && v.threads[u] == ListKeys(familyId, None) && familyId < v.next
    requires ActiveIn(v, familyId, w.next) && v.tokens[w.next].expiresAt <= v.now + AuthSpec.REFRESH_TOKEN_TTL_SECONDS
    ensures exists x :: Issued(w, x, t, u, familyId)
  {
    var x := AdvanceRefresh(v, t, true);
    GoesTo(v, t, x);
    LeadsTwice(w, v, x);
    assert Issued(w, x, t, u, familyId);
  }

  /** Once the successor is added, nobody is issuing in the family: it has only one right. */
  lemma OnlyOneRight(w: World, familyId: nat, k: nat)
    requires Inv(w) && familyId < w.next && ActiveIn(w, familyId, k) && Covered(w, familyId, k)
    ensures Quiet(w, familyId)
  {
    assert Linear(w, familyId) && Holds(w, familyId, OfToken(k));
    forall t | t in w.threads ensures !Issuing(w, w.threads[t], familyId) {
      assert Continues(w.threads[t], familyId) ==> Holds(w, familyId, OfThread(t));
      var adding := Adding(w.threads[t]);
      if adding.Some? && ActiveIn(w, familyId, adding.value.1) {
        assert Holds(w, familyId, OfToken(adding.value.1));
      }
    }
  }

  /** Nothing but the other's revocation follows. */
  lemma ThenRevoked(w: World, y: World, t: nat, u: nat, familyId: nat)
    requires Issued(w, y, t, u, familyId) && t != u
    ensures exists v :: Leads(y, v) && Ended(v, t) && Ended(v, u) && w.next in v.tokens && Extinct(v, familyId)
  {
    OnlyOneRight(y, familyId, w.next);
    ListSweeps(y, u, familyId);
    var keys := Members(y.families, familyId, y.now);
    var last :| Undisturbed(y, last, familyId) && SweptTo(y, Run(y, last), u, keys);
    RevocationSettles(y, last, u, familyId, []);
    var v := Run(y, last);
    assert Leads(y, v) && Ended(v, t) && Ended(v, u) && w.next in v.tokens;
  }

  /** Whenever two requests present the same active token at the same time, the run can end with a
      successor issued to the one and the whole family, that successor included, revoked by the other. */
  lemma SimultaneousPresentationMayKill(w: World, t: nat, u: nat, k: nat, familyId: nat)
    requires Inv(w) && t != u && t in w.threads && u in w.threads && w.threads[t] == w.threads[u] == TakeToken(k)
    requires ActiveIn(w, familyId, k)
    ensures exists v :: Leads(w, v) && Ended(v, t) && Ended(v, u) && w.next in v.tokens && Extinct(v, familyId)
  {
    BothTake(w, t, u, k, familyId);
    var x :| Taken(w, x, t, u, familyId);
    SuccessorIssued(x, t, u, familyId);
    var y :| Issued(x, y, t, u, familyId);
    ThenRevoked(x, y, t, u, familyId);
    var v :| Leads(y, v) && Ended(v, t) && Ended(v, u) && x.next in v.tokens && Extinct(v, familyId);
    LeadsTwice(w, x, y);
    LeadsTwice(w, y, v);
  }
}
