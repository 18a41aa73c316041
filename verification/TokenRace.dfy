/** Codes and refresh tokens under concurrency: any number of requests in flight, every store
    call one atomic step, and the clock ticking in between. Checks whose outcome does not matter
    here (client binding, PKCE, session and membership) may go either way at any time. */
module TokenRace {
  import opened Timed
  import opened AuthSpec

  datatype Record = Record(familyId: nat, status: Status)

  datatype CodeRecord = FreshCode | UsedCode(familyId: nat)

  /** Where a request stands: the store call it makes next. */
  datatype Pc =
    // exchangeAuthorizationCode
    | TakeCode(code: nat)
    | StoreFirst(code: nat, familyId: nat)
    | AddFirst(code: nat, familyId: nat, token: nat)
    | WriteUsed(code: nat, familyId: nat)
    // refreshAccessToken
    | TakeToken(token: nat)
    | WriteRotated(token: nat, familyId: nat)
    | WriteUnchanged(token: nat, record: Record)
    | Check(familyId: nat)
    | StoreNext(familyId: nat)
    | AddNext(familyId: nat, token: nat)
    // revokeRefreshToken
    | LookUp(token: nat)
    // revokeRefreshTokenFamily; afterwards a reused code, if any, is written back
    | ListKeys(familyId: nat, reused: Option<nat>)
    | ReadKeys(familyId: nat, todo: set<nat>, found: map<nat, Record>, reused: Option<nat>)
    | WriteKeys(familyId: nat, todo: set<nat>, found: map<nat, Record>, reused: Option<nat>)
    | Finished

  datatype Request = Exchange(code: nat) | Refresh(token: nat) | Revoke(token: nat) | RevokeAll(familyId: nat)

  /** `consumed` and `minted` record what happened; no step depends on them. */
  datatype World = World(
    now: int,
    next: nat,
    codes: map<nat, Entry<CodeRecord>>,
    tokens: map<nat, Entry<Record>>,
    families: map<nat, Entry<set<nat>>>,
    threads: map<nat, Pc>,
    consumed: seq<nat>,
    minted: seq<(nat, nat)>)

  datatype Step =
    | Tick(seconds: nat)
    | IssueCode
    | Start(thread: nat, request: Request)
    | Go(thread: nat, accept: bool, pick: nat)

  const EMPTY := World(0, 0, map[], map[], map[], map[], [], [])

  function Next(w: World, step: Step): World {
    match step
    case Tick(seconds) => w.(now := w.now + seconds)
    case IssueCode =>
      w.(next := w.next + 1, codes := Put(w.codes, w.next, FreshCode, w.now, AUTHORIZATION_CODE_TTL_SECONDS))
    case Start(t, request) => if t in w.threads then w else At(w, t, Begin(request))
    case Go(t, accept, pick) => if t !in w.threads then w else Advance(w, t, accept, pick)
  }

  function Begin(request: Request): Pc {
    match request
    case Exchange(code) => TakeCode(code)
    case Refresh(token) => TakeToken(token)
    case Revoke(token) => LookUp(token)
    case RevokeAll(familyId) => ListKeys(familyId, None)
  }

  function At(w: World, t: nat, pc: Pc): World {
    w.(threads := w.threads[t := pc])
  }

  function WriteToken(w: World, token: nat, record: Record): World {
    w.(tokens := Put(w.tokens, token, record, w.now, REFRESH_TOKEN_TTL_SECONDS))
  }

  predicate Exchanging(pc: Pc) {
    pc.TakeCode? || pc.StoreFirst? || pc.AddFirst? || pc.WriteUsed?
  }

  predicate Refreshing(pc: Pc) {
    pc.TakeToken? || pc.WriteRotated? || pc.WriteUnchanged? || pc.Check? || pc.StoreNext? || pc.AddNext?
  }

  /** The next store call of a request. `accept` decides checks whose outcome is left open, `pick`
      the order in which a revocation visits the keys. */
  function Advance(w: World, t: nat, accept: bool, pick: nat): World
    requires t in w.threads
  {
    if Exchanging(w.threads[t]) then AdvanceExchange(w, t, accept)
    else if Refreshing(w.threads[t]) then AdvanceRefresh(w, t, accept)
    else AdvanceRevoke(w, t, accept, pick)
  }

  function AdvanceExchange(w: World, t: nat, accept: bool): World
    requires t in w.threads && Exchanging(w.threads[t])
  {
    match w.threads[t]
    case TakeCode(code) =>
      var taken := w.(codes := w.codes - {code});
      (match Get(w.codes, code, w.now)
       case None => At(taken, t, Finished)
       case Some(record) =>
         if record.UsedCode? then At(taken, t, ListKeys(record.familyId, Some(code)))
         else if !accept then At(taken, t, Finished)
         else At(taken.(next := w.next + 1, minted := w.minted + [(code, w.next)]), t, StoreFirst(code, w.next)))
    case StoreFirst(code, familyId) =>
      At(WriteToken(w.(next := w.next + 1), w.next, Record(familyId, Active)), t, AddFirst(code, familyId, w.next))
    case AddFirst(code, familyId, token) =>
      At(w.(families := AddMember(w.families, familyId, token, w.now, REFRESH_TOKEN_TTL_SECONDS)), t,
         WriteUsed(code, familyId))
    case WriteUsed(code, familyId) =>
      At(w.(codes := Put(w.codes, code, UsedCode(familyId), w.now, CONSUMED_CODE_RETENTION_SECONDS)), t, Finished)
  }

  function AdvanceRefresh(w: World, t: nat, accept: bool): World
    requires t in w.threads && Refreshing(w.threads[t])
  {
    match w.threads[t]
    case TakeToken(token) =>
      var taken := w.(tokens := w.tokens - {token});
      (match Get(w.tokens, token, w.now)
       case None => At(taken, t, Finished)
       case Some(record) =>
         if record.status.Active?
         then At(taken.(consumed := w.consumed + [token]), t, WriteRotated(token, record.familyId))
         else At(taken, t, WriteUnchanged(token, record)))
    case WriteRotated(token, familyId) => At(WriteToken(w, token, Record(familyId, Rotated)), t, Check(familyId))
    case WriteUnchanged(token, record) => At(WriteToken(w, token, record), t, ListKeys(record.familyId, None))
    case Check(familyId) => At(w, t, if accept then StoreNext(familyId) else ListKeys(familyId, None))
    case StoreNext(familyId) =>
      At(WriteToken(w.(next := w.next + 1), w.next, Record(familyId, Active)), t, AddNext(familyId, w.next))
    case AddNext(familyId, token) =>
      At(w.(families := AddMember(w.families, familyId, token, w.now, REFRESH_TOKEN_TTL_SECONDS)), t, Finished)
  }

  function AdvanceRevoke(w: World, t: nat, accept: bool, pick: nat): World
    requires t in w.threads
  {
    match w.threads[t]
    case LookUp(token) =>
      (match Get(w.tokens, token, w.now)
       case None => At(w, t, Finished)
       case Some(record) => At(w, t, if accept then ListKeys(record.familyId, None) else Finished))
    case ListKeys(familyId, reused) => At(w, t, ReadKeys(familyId, Members(w.families, familyId, w.now), map[], reused))
    case ReadKeys(familyId, todo, found, reused) =>
      if todo == {} then At(w, t, WriteKeys(familyId, found.Keys, found, reused))
      else if pick !in todo then w
      else
        (match Get(w.tokens, pick, w.now)
         case None => At(w, t, ReadKeys(familyId, todo - {pick}, found, reused))
         case Some(record) => At(w, t, ReadKeys(familyId, todo - {pick}, found[pick := record], reused)))
    case WriteKeys(familyId, todo, found, reused) =>
      if todo == {} then At(w, t, if reused.Some? then WriteUsed(reused.value, familyId) else Finished)
      else if pick !in todo || pick !in found then w
      else At(WriteToken(w, pick, found[pick].(status := Revoked)), t,
              WriteKeys(familyId, todo - {pick}, found, reused))
    case _ => w
  }

  function Run(w: World, steps: seq<Step>): World
    decreases steps
  {
    if steps == [] then w else Run(Next(w, steps[0]), steps[1..])
  }

  // ---------- The right to continue a family ----------

  /** A family is continued by an active token, or by a request that took one (or the code) and
      has not stored the successor yet. */
  datatype Right = OfToken(token: nat) | OfThread(thread: nat)

  predicate Continues(pc: Pc, familyId: nat) {
    match pc
    case StoreFirst(_, f) => f == familyId
    case WriteRotated(_, f) => f == familyId
    case Check(f) => f == familyId
    case StoreNext(f) => f == familyId
    case _ => false
  }

  predicate Holds(w: World, familyId: nat, right: Right) {
    match right
    case OfToken(k) => k in w.tokens && w.tokens[k].value == Record(familyId, Active)
    case OfThread(t) => t in w.threads && Continues(w.threads[t], familyId)
  }

  /** The token a request has stored and not yet added to its family's set. */
  function Adding(pc: Pc): Option<(nat, nat)> {
    match pc
    case AddFirst(_, f, k) => Some((f, k))
    case AddNext(f, k) => Some((f, k))
    case _ => None
  }

  predicate ActiveNow(w: World, k: nat) {
    Live(w.tokens, k, w.now) && w.tokens[k].value.status.Active?
  }

  ghost predicate Pending(w: World, familyId: nat, k: nat) {
    exists t :: t in w.threads && Adding(w.threads[t]) == Some((familyId, k))
  }

  /** The family's set knows the token and outlives it. */
  predicate Covered(w: World, familyId: nat, k: nat)
    requires k in w.tokens
  {
    familyId in w.families && k in w.families[familyId].value && w.families[familyId].expiresAt >= w.tokens[k].expiresAt
  }

  // ---------- The invariant ----------

  predicate PcOk(w: World, pc: Pc) {
    match pc
    case StoreFirst(c, f) => c < w.next && f < w.next
    case AddFirst(c, f, k) => c < w.next && f < w.next && k < w.next
    case WriteUsed(c, f) => c < w.next && f < w.next
    case WriteRotated(k, f) => k < w.next && f < w.next
    case WriteUnchanged(k, record) => k < w.next && record.familyId < w.next && !record.status.Active?
    case Check(f) => f < w.next
    case StoreNext(f) => f < w.next
    case AddNext(f, k) => f < w.next && k < w.next
    case ListKeys(f, reused) => reused.Some? ==> reused.value < w.next && f < w.next
    case ReadKeys(f, _, found, reused) =>
      && (reused.Some? ==> reused.value < w.next && f < w.next)
      && forall k :: k in found ==> k < w.next && found[k].familyId < w.next
    case WriteKeys(f, todo, found, reused) =>
      && (reused.Some? ==> reused.value < w.next && f < w.next) && todo <= found.Keys
      && forall k :: k in found ==> k < w.next && found[k].familyId < w.next
    case _ => true
  }

  ghost predicate TokenOk(w: World, k: nat) {
    k in w.tokens ==>
      && k < w.next && w.tokens[k].value.familyId < w.next
      && w.tokens[k].expiresAt <= w.now + REFRESH_TOKEN_TTL_SECONDS
      && (w.tokens[k].value.status.Active? ==> k !in w.consumed)
      && (ActiveNow(w, k) ==> Pending(w, w.tokens[k].value.familyId, k) || Covered(w, w.tokens[k].value.familyId, k))
  }

  predicate CodeOk(w: World, c: nat) {
    c in w.codes ==>
      && c < w.next
      && (w.codes[c].value.UsedCode? ==> w.codes[c].value.familyId < w.next)
      && (w.codes[c].value.FreshCode? ==> forall i :: 0 <= i < |w.minted| ==> w.minted[i].0 != c)
  }

  ghost predicate Linear(w: World, familyId: nat) {
    forall a, b :: Holds(w, familyId, a) && Holds(w, familyId, b) ==> a == b
  }

  predicate Distinct<T(==)>(s: seq<T>) {
    forall i, j :: 0 <= i < j < |s| ==> s[i] != s[j]
  }

  /** No code appears twice among the mints. */
  predicate DistinctCodes(minted: seq<(nat, nat)>) {
    forall i, j :: 0 <= i < j < |minted| ==> minted[i].0 != minted[j].0
  }

  ghost predicate Inv(w: World) {
    && (forall t :: t in w.threads ==> PcOk(w, w.threads[t]))
    && (forall k :: TokenOk(w, k))
    && (forall c :: CodeOk(w, c))
    && (forall f :: Linear(w, f))
    && (forall i :: 0 <= i < |w.consumed| ==> w.consumed[i] < w.next)
    && (forall i :: 0 <= i < |w.minted| ==> w.minted[i].0 < w.next)
    && Distinct(w.consumed) && DistinctCodes(w.minted)
  }

  ghost predicate Initial(w: World) {
    w.codes == map[] && w.tokens == map[] && w.families == map[] && w.threads == map[] && w.consumed == []
        && w.minted == []
  }

  /** Steps that pass no right on: every right there is afterwards was there before. */
  ghost predicate NoNewRights(w: World, v: World) {
    forall f, right :: Holds(v, f, right) ==> Holds(w, f, right)
  }

  lemma LinearKept(w: World, v: World)
    requires NoNewRights(w, v) && forall f :: Linear(w, f)
    ensures forall f :: Linear(v, f)
  {
    forall f: nat ensures Linear(v, f) { assert Linear(w, f); }
  }

  // ---------- What one store call does to the tokens ----------

  /** Only the request's own position may differ, and it was not adding a token. */
  ghost predicate Moved(w: World, v: World, t: nat) {
    && t in w.threads && t in v.threads && v.threads == w.threads[t := v.threads[t]]
    && v.now == w.now && w.next <= v.next
  }

  lemma PendingKept(w: World, v: World, t: nat)
    requires Moved(w, v, t) && Adding(w.threads[t]).None?
    ensures forall f, k :: Pending(w, f, k) ==> Pending(v, f, k)
  {
    forall f: nat, k: nat | Pending(w, f, k) ensures Pending(v, f, k) {
      var u :| u in w.threads && Adding(w.threads[u]) == Some((f, k));
      assert u in v.threads && v.threads[u] == w.threads[u];
    }
  }

  /** No token changes, or tokens are dropped or written back inactive. */
  lemma TokensFade(w: World, v: World, t: nat)
    requires (forall k :: TokenOk(w, k)) && Moved(w, v, t) && Adding(w.threads[t]).None? && v.families == w.families
    requires forall k :: k in v.tokens ==>
               || (k in w.tokens && v.tokens[k] == w.tokens[k])
               || (k < v.next && v.tokens[k].value.familyId < v.next && !v.tokens[k].value.status.Active?
                   && v.tokens[k].expiresAt <= v.now + REFRESH_TOKEN_TTL_SECONDS)
    requires forall k :: k in v.tokens && v.tokens[k].value.status.Active? && k in v.consumed ==> k in w.consumed
    ensures forall k :: TokenOk(v, k)
  {
    PendingKept(w, v, t);
    forall k ensures TokenOk(v, k) { assert TokenOk(w, k); }
  }

  lemma TokenStored(w: World, v: World, t: nat, familyId: nat)
    requires (forall k :: TokenOk(w, k)) && Moved(w, v, t) && Adding(w.threads[t]).None? && v.families == w.families
    requires v.next == w.next + 1 && familyId < w.next && v.consumed == w.consumed && w.next !in w.consumed
    requires v.tokens == Put(w.tokens, w.next, Record(familyId, Active), w.now, REFRESH_TOKEN_TTL_SECONDS)
    requires Adding(v.threads[t]) == Some((familyId, w.next))
    ensures forall k :: TokenOk(v, k)
  {
    PendingKept(w, v, t);
    assert Pending(v, familyId, w.next);
    forall k ensures TokenOk(v, k) { assert TokenOk(w, k); }
  }

  lemma TokenAdded(w: World, v: World, t: nat, familyId: nat, token: nat)
    requires (forall k :: TokenOk(w, k)) && Moved(w, v, t) && v.tokens == w.tokens && v.consumed == w.consumed
    requires Adding(w.threads[t]) == Some((familyId, token))
    requires v.families == AddMember(w.families, familyId, token, w.now, REFRESH_TOKEN_TTL_SECONDS)
    ensures forall k :: TokenOk(v, k)
  {
    forall k ensures TokenOk(v, k) {
      assert TokenOk(w, k);
      if ActiveNow(v, k) && Pending(w, v.tokens[k].value.familyId, k) {
        var f := v.tokens[k].value.familyId;
        var u :| u in w.threads && Adding(w.threads[u]) == Some((f, k));
        assert u == t || (u in v.threads && v.threads[u] == w.threads[u]);
      }
    }
  }

  // ---------- Every step keeps the invariant ----------

  lemma StepInv(w: World, step: Step)
    requires Inv(w)
    ensures Inv(Next(w, step))
  {
    if step.Go? {
      if step.thread in w.threads { AdvanceInv(w, step.thread, step.accept, step.pick); }
    } else {
      EnvironmentInv(w, step);
    }
  }

  lemma EnvironmentInv(w: World, step: Step)
    requires Inv(w) && !step.Go?
    ensures Inv(Next(w, step))
  {
    match step
    case Tick(seconds) => TickInv(w, seconds);
    case IssueCode => IssueCodeInv(w);
    case Start(t, request) => if t !in w.threads { BeginInv(w, t, request); }
  }

  lemma TickInv(w: World, seconds: nat)
    requires Inv(w)
    ensures Inv(w.(now := w.now + seconds))
  {
    ArrivalInv(w, w.(now := w.now + seconds));
  }

  lemma BeginInv(w: World, t: nat, request: Request)
    requires Inv(w) && t !in w.threads
    ensures Inv(At(w, t, Begin(request)))
  {
    ArrivalInv(w, At(w, t, Begin(request)));
  }

  lemma IssueCodeInv(w: World)
    requires Inv(w)
    ensures Inv(w.(next := w.next + 1, codes := Put(w.codes, w.next, FreshCode, w.now, AUTHORIZATION_CODE_TTL_SECONDS)))
  {
    var v := w.(next := w.next + 1, codes := Put(w.codes, w.next, FreshCode, w.now, AUTHORIZATION_CODE_TTL_SECONDS));
    forall c ensures CodeOk(v, c) { assert CodeOk(w, c); }
    ArrivalInv(w, v);
  }

  /** Tokens and families are as before, and whoever has arrived holds nothing. */
  lemma ArrivalInv(w: World, v: World)
    requires Inv(w) && w.now <= v.now && w.next <= v.next && v.tokens == w.tokens && v.families == w.families
    requires v.consumed == w.consumed && v.minted == w.minted && (v.codes == w.codes || forall c :: CodeOk(v, c))
    requires forall t :: t in w.threads ==> t in v.threads && v.threads[t] == w.threads[t]
    requires forall t :: t in v.threads && t !in w.threads ==>
               PcOk(v, v.threads[t]) && Adding(v.threads[t]).None? && forall f: nat :: !Continues(v.threads[t], f)
    ensures Inv(v)
  {
    ArrivalTokens(w, v);
    forall c ensures CodeOk(v, c) { assert CodeOk(w, c); }
    forall t | t in v.threads ensures PcOk(v, v.threads[t]) { assert t in w.threads ==> PcOk(w, w.threads[t]); }
    LinearKept(w, v);
  }

  lemma ArrivalTokens(w: World, v: World)
    requires (forall k :: TokenOk(w, k)) && w.now <= v.now && w.next <= v.next && v.tokens == w.tokens
    requires v.families == w.families && v.consumed == w.consumed
    requires forall t :: t in w.threads ==> t in v.threads && v.threads[t] == w.threads[t]
    ensures forall k :: TokenOk(v, k)
  {
    forall k ensures TokenOk(v, k) {
      assert TokenOk(w, k);
      if k in w.tokens && Pending(w, w.tokens[k].value.familyId, k) {
        var u :| u in w.threads && Adding(w.threads[u]) == Some((w.tokens[k].value.familyId, k));
        assert u in v.threads && v.threads[u] == w.threads[u];
      }
    }
  }

  lemma AdvanceInv(w: World, t: nat, accept: bool, pick: nat)
    requires Inv(w) && t in w.threads
    ensures Inv(Advance(w, t, accept, pick))
  {
    match w.threads[t]
    case TakeCode(_) => TakeCodeInv(w, t, accept, pick);
    case StoreFirst(_, _) => StoreInv(w, t, accept, pick);
    case AddFirst(_, _, _) => AddInv(w, t, accept, pick);
    case WriteUsed(_, _) => WriteUsedInv(w, t, accept, pick);
    case TakeToken(_) => TakeTokenInv(w, t, accept, pick);
    case WriteRotated(_, _) => WriteTokenInv(w, t, accept, pick);
    case WriteUnchanged(_, _) => WriteTokenInv(w, t, accept, pick);
    case StoreNext(_) => StoreInv(w, t, accept, pick);
    case AddNext(_, _) => AddInv(w, t, accept, pick);
    case WriteKeys(_, _, _, _) => WriteKeysInv(w, t, accept, pick);
    case ReadKeys(_, _, _, _) => ReadKeysInv(w, t, accept, pick);
    case Finished =>
    case _ => DecideInv(w, t, accept, pick);
  }

  lemma TakeCodeInv(w: World, t: nat, accept: bool, pick: nat)
    requires Inv(w) && t in w.threads && w.threads[t].TakeCode?
    ensures Inv(Advance(w, t, accept, pick))
  {
    var v := AdvanceExchange(w, t, accept);
    assert CodeOk(w, w.threads[t].code);
    if v.next == w.next { CodeGoneInv(w, t, v); } else { MintInv(w, t, v, w.threads[t].code); }
  }

  /** The code is taken out and mints nothing. */
  lemma CodeGoneInv(w: World, t: nat, v: World)
    requires Inv(w) && t in w.threads && Adding(w.threads[t]).None? && t in v.threads
    requires v == At(w.(codes := v.codes), t, v.threads[t]) && v.codes.Keys <= w.codes.Keys
    requires forall c :: c in v.codes ==> v.codes[c] == w.codes[c]
    requires PcOk(w, v.threads[t]) && Adding(v.threads[t]).None? && forall f: nat :: !Continues(v.threads[t], f)
    ensures Inv(v)
  {
    TokensFade(w, v, t);
    forall c ensures CodeOk(v, c) { assert CodeOk(w, c); }
    LinearKept(w, v);
  }

  /** The code is taken out and mints a family of its own. */
  lemma MintInv(w: World, t: nat, v: World, code: nat)
    requires Inv(w) && t in w.threads && Adding(w.threads[t]).None? && (forall f: nat :: !Continues(w.threads[t], f))
    requires code in w.codes && w.codes[code].value.FreshCode?
    requires v == At(w.(codes := w.codes - {code}, next := w.next + 1, minted := w.minted + [(code, w.next)]), t,
                     StoreFirst(code, w.next))
    ensures Inv(v)
  {
    assert CodeOk(w, code);
    TokensFade(w, v, t);
    forall c ensures CodeOk(v, c) { assert CodeOk(w, c); }
    forall f: nat ensures Linear(v, f) { MintLinear(w, t, v, code, f); }
  }

  lemma MintLinear(w: World, t: nat, v: World, code: nat, f: nat)
    requires Inv(w) && t in w.threads && (forall f: nat :: !Continues(w.threads[t], f))
    requires v.tokens == w.tokens && v.threads == w.threads[t := StoreFirst(code, w.next)]
    ensures Linear(v, f)
  {
    assert Linear(w, f);
    forall right | Holds(v, f, right) ensures Holds(w, f, right) || (right == OfThread(t) && f == w.next) {}
    if f >= w.next { forall right ensures !Holds(w, f, right) { NoRightAboveNext(w, f, right); } }
  }

  lemma StoreInv(w: World, t: nat, accept: bool, pick: nat)
    requires Inv(w) && t in w.threads && (w.threads[t].StoreFirst? || w.threads[t].StoreNext?)
    ensures Inv(Advance(w, t, accept, pick))
  {
    var v := Advance(w, t, accept, pick);
    var familyId := w.threads[t].familyId;
    assert PcOk(w, w.threads[t]);
    TokenStored(w, v, t, familyId);
    forall c ensures CodeOk(v, c) { assert CodeOk(w, c); }
    forall f: nat ensures Linear(v, f) {
      assert Linear(w, f) && (f == familyId ==> Holds(w, f, OfThread(t)));
      forall right | Holds(v, f, right)
        ensures (right == OfToken(w.next) && f == familyId) || (Holds(w, f, right) && right != OfThread(t)) {}
    }
  }

  lemma AddInv(w: World, t: nat, accept: bool, pick: nat)
    requires Inv(w) && t in w.threads && (w.threads[t].AddFirst? || w.threads[t].AddNext?)
    ensures Inv(Advance(w, t, accept, pick))
  {
    var v := Advance(w, t, accept, pick);
    assert PcOk(w, w.threads[t]);
    TokenAdded(w, v, t, w.threads[t].familyId, w.threads[t].token);
    forall c ensures CodeOk(v, c) { assert CodeOk(w, c); }
    LinearKept(w, v);
  }

  lemma WriteUsedInv(w: World, t: nat, accept: bool, pick: nat)
    requires Inv(w) && t in w.threads && w.threads[t].WriteUsed?
    ensures Inv(Advance(w, t, accept, pick))
  {
    var v := Advance(w, t, accept, pick);
    assert PcOk(w, w.threads[t]);
    TokensFade(w, v, t);
    forall c ensures CodeOk(v, c) { assert CodeOk(w, c); }
    LinearKept(w, v);
  }

  lemma TakeTokenInv(w: World, t: nat, accept: bool, pick: nat)
    requires Inv(w) && t in w.threads && w.threads[t].TakeToken?
    ensures Inv(Advance(w, t, accept, pick))
  {
    var token := w.threads[t].token;
    assert TokenOk(w, token);
    TokenGoneInv(w, t, AdvanceRefresh(w, t, accept), token);
  }

  /** The token is taken out; if it was active, it is now on record as consumed. */
  lemma TokenGoneInv(w: World, t: nat, v: World, token: nat)
    requires Inv(w) && t in w.threads && Adding(w.threads[t]).None? && t in v.threads
    requires v == At(w.(tokens := w.tokens - {token}, consumed := v.consumed), t, v.threads[t])
    requires PcOk(w, v.threads[t])
    requires if v.consumed == w.consumed then forall f: nat :: !Continues(v.threads[t], f)
             else token in w.tokens && w.tokens[token].value.status.Active? && v.consumed == w.consumed + [token]
                  && forall f: nat :: Continues(v.threads[t], f) ==> f == w.tokens[token].value.familyId
    ensures Inv(v)
  {
    assert TokenOk(w, token);
    TokensFade(w, v, t);
    forall c ensures CodeOk(v, c) { assert CodeOk(w, c); }
    forall f: nat ensures Linear(v, f) { TakenLinear(w, t, v, token, f); }
  }

  /** The right of the token taken passes to the request, if it was active. */
  lemma TakenLinear(w: World, t: nat, v: World, token: nat, f: nat)
    requires Linear(w, f) && t in w.threads && t in v.threads && v.threads == w.threads[t := v.threads[t]]
    requires v.tokens == w.tokens - {token}
    requires Continues(v.threads[t], f) ==> Holds(w, f, OfToken(token))
    ensures Linear(v, f)
  {
    forall right | Holds(v, f, right)
      ensures right != OfToken(token) && Holds(w, f, if right == OfThread(t) then OfToken(token) else right) {}
  }

  /** Writing an inactive record, on the way to a position that gives no new right. */
  lemma WriteInactiveInv(w: World, t: nat, token: nat, record: Record, pc: Pc)
    requires Inv(w) && t in w.threads && Adding(w.threads[t]).None? && PcOk(w, pc)
    requires token < w.next && record.familyId < w.next && !record.status.Active?
    requires forall f :: Continues(pc, f) ==> Continues(w.threads[t], f)
    ensures Inv(At(WriteToken(w, token, record), t, pc))
  {
    var v := At(WriteToken(w, token, record), t, pc);
    TokensFade(w, v, t);
    forall c ensures CodeOk(v, c) { assert CodeOk(w, c); }
    LinearKept(w, v);
  }

  /** Nothing but the position changes, to one that gives no new right. */
  lemma MoveInv(w: World, t: nat, pc: Pc)
    requires Inv(w) && t in w.threads && Adding(w.threads[t]).None? && PcOk(w, pc)
    requires forall f :: Continues(pc, f) ==> Continues(w.threads[t], f)
    ensures Inv(At(w, t, pc))
  {
    var v := At(w, t, pc);
    TokensFade(w, v, t);
    forall c ensures CodeOk(v, c) { assert CodeOk(w, c); }
    LinearKept(w, v);
  }

  lemma WriteTokenInv(w: World, t: nat, accept: bool, pick: nat)
    requires Inv(w) && t in w.threads && (w.threads[t].WriteRotated? || w.threads[t].WriteUnchanged?)
    ensures Inv(Advance(w, t, accept, pick))
  {
    assert PcOk(w, w.threads[t]);
    match w.threads[t]
    case WriteRotated(token, f) => WriteInactiveInv(w, t, token, Record(f, Rotated), Check(f));
    case WriteUnchanged(token, record) => WriteInactiveInv(w, t, token, record, ListKeys(record.familyId, None));
  }

  lemma WriteKeysInv(w: World, t: nat, accept: bool, pick: nat)
    requires Inv(w) && t in w.threads && w.threads[t].WriteKeys?
    ensures Inv(Advance(w, t, accept, pick))
  {
    assert PcOk(w, w.threads[t]);
    var WriteKeys(f, todo, found, reused) := w.threads[t];
    if todo == {} {
      MoveInv(w, t, if reused.Some? then WriteUsed(reused.value, f) else Finished);
    } else if pick in todo {
      WriteInactiveInv(w, t, pick, found[pick].(status := Revoked), WriteKeys(f, todo - {pick}, found, reused));
    }
  }

  lemma ReadKeysInv(w: World, t: nat, accept: bool, pick: nat)
    requires Inv(w) && t in w.threads && w.threads[t].ReadKeys?
    ensures Inv(Advance(w, t, accept, pick))
  {
    assert PcOk(w, w.threads[t]) && TokenOk(w, pick);
    var ReadKeys(f, todo, found, reused) := w.threads[t];
    if todo == {} {
      MoveInv(w, t, WriteKeys(f, found.Keys, found, reused));
    } else if pick in todo {
      var read := Get(w.tokens, pick, w.now);
      MoveInv(w, t, ReadKeys(f, todo - {pick}, if read.Some? then found[pick := read.value] else found, reused));
    }
  }

  lemma DecideInv(w: World, t: nat, accept: bool, pick: nat)
    requires Inv(w) && t in w.threads
    requires w.threads[t].Check? || w.threads[t].LookUp? || w.threads[t].ListKeys?
    ensures Inv(Advance(w, t, accept, pick))
  {
    assert PcOk(w, w.threads[t]);
    MoveInv(w, t, Advance(w, t, accept, pick).threads[t]);
  }

  lemma NoRightAboveNext(w: World, f: nat, right: Right)
    requires Inv(w) && f >= w.next
    ensures !Holds(w, f, right)
  {
    match right
    case OfToken(k) => assert TokenOk(w, k);
    case OfThread(t) => assert t in w.threads ==> PcOk(w, w.threads[t]);
  }

  lemma {:induction false} RunInv(w: World, steps: seq<Step>)
    requires Inv(w)
    ensures Inv(Run(w, steps))
    decreases steps
  {
    if steps != [] {
      StepInv(w, steps[0]);
      RunInv(Next(w, steps[0]), steps[1..]);
    }
  }
}
