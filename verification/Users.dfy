/** Which row of the users table a Cognito identity belongs to (login.ts, resolveUser). */
module Users {
  import opened Timed
  import opened Text

  datatype User = User(id: nat, sub: Option<string>, email: string, active: bool)

  /** The position of the first user linked to the identity, or the length. */
  function BySub(users: seq<User>, sub: string): (i: nat)
    ensures i <= |users| && (i < |users| ==> users[i].sub == Some(sub))
  {
    if users == [] || users[0].sub == Some(sub) then 0 else 1 + BySub(users[1..], sub)
  }

  /** The position of the first user with the e-mail address, in any case, or the length. */
  function ByEmail(users: seq<User>, email: string): (i: nat)
    ensures i <= |users| && (i < |users| ==> Lower(users[i].email) == Lower(email))
  {
    if users == [] || Lower(users[0].email) == Lower(email) then 0 else 1 + ByEmail(users[1..], email)
  }

  /** Nobody before the position found has the identity, or the address. */
  lemma FirstFound(users: seq<User>, sub: string, email: string)
    ensures forall j :: 0 <= j < BySub(users, sub) ==> users[j].sub != Some(sub)
    ensures forall j :: 0 <= j < ByEmail(users, email) ==> Lower(users[j].email) != Lower(email)
  {
    if users != [] {
      FirstFound(users[1..], sub, email);
      forall j | 0 < j < |users| ensures users[j] == users[1..][j - 1] {}
    }
  }

  /** By identity first; then an invited row with the e-mail and no identity yet, which is linked;
      a row linked to another identity is left alone and counts as disabled; otherwise a new row. */
  function Resolve(users: seq<User>, sub: string, email: string, newId: nat): (seq<User>, User) {
    var i := BySub(users, sub);
    if i < |users| then (users, users[i])
    else
      var j := ByEmail(users, email);
      if j < |users| then
        if users[j].sub.Some? then (users, users[j].(active := false))
        else (users[j := users[j].(sub := Some(sub))], users[j].(sub := Some(sub)))
      else
        var created := User(newId, Some(sub), email, true);
        (users + [created], created)
  }

  /** No two rows share an identity or an e-mail address. */
  predicate Distinct(users: seq<User>) {
    && (forall i, j :: 0 <= i < j < |users| && users[i].sub.Some? ==> users[i].sub != users[j].sub)
    && (forall i, j :: 0 <= i < j < |users| ==> Lower(users[i].email) != Lower(users[j].email))
  }

  /** A row that was linked is never touched, at most one row changes, and it only gains this
      identity; rows stay distinct. */
  lemma ResolveKeeps(users: seq<User>, sub: string, email: string, newId: nat)
    requires Distinct(users)
    ensures var users' := Resolve(users, sub, email, newId).0;
            && Distinct(users') && |users| <= |users'| <= |users| + 1
            && (forall i :: 0 <= i < |users| ==>
                  users'[i] == users[i]
                  || (users[i].sub.None? && users'[i] == users[i].(sub := Some(sub))
                      && Lower(users[i].email) == Lower(email)))
            && (forall i, j :: 0 <= i < j < |users| ==> users'[i] == users[i] || users'[j] == users[j])
  {
    FirstFound(users, sub, email);
  }

  /** Whoever may log in is linked to this identity, and the next login finds the same row,
      whatever address it then carries. */
  lemma ResolveAgain(users: seq<User>, sub: string, email: string, newId: nat, email': string, newId': nat)
    requires Distinct(users)
    ensures var (users', user) := Resolve(users, sub, email, newId);
            user.active ==>
              user.sub == Some(sub) && user in users' && Resolve(users', sub, email', newId') == (users', user)
  {
    ResolveKeeps(users, sub, email, newId);
    FirstFound(users, sub, email);
    var (users', user) := Resolve(users, sub, email, newId);
    if user.active {
      var i := BySub(users', sub);
      var j :| 0 <= j < |users'| && users'[j] == user;
      FirstFound(users', sub, email);
      assert i == j;
    }
  }

  predicate Linked(users: seq<User>, i: nat, sub: string) {
    i < |users| && users[i].sub == Some(sub)
  }

  predicate HasEmail(users: seq<User>, i: nat, email: string) {
    i < |users| && Lower(users[i].email) == Lower(email)
  }

  /** The row linked to the identity, whatever its address; without one, the row with the address, which
      is linked unless it is linked to another identity, and then nobody is admitted; without either, a new
      active row. Nobody's status changes. */
  lemma ResolveMeans(users: seq<User>, sub: string, email: string, newId: nat)
    requires Distinct(users)
    ensures var (users', user) := Resolve(users, sub, email, newId);
            && (forall i: nat :: Linked(users, i, sub) ==> users' == users && user == users[i])
            && ((forall i: nat :: !Linked(users, i, sub)) ==>
                  && (forall j: nat :: HasEmail(users, j, email) ==>
                        if users[j].sub.Some? then users' == users && !user.active
                        else user == users[j].(sub := Some(sub)) && users' == users[j := user])
                  && ((forall j: nat :: !HasEmail(users, j, email)) ==>
                        user == User(newId, Some(sub), email, true) && users' == users + [user]))
  {
    FirstFound(users, sub, email);
    forall i: nat | Linked(users, i, sub) ensures i == BySub(users, sub) {}
    forall j: nat | HasEmail(users, j, email) ensures j == ByEmail(users, email) {}
    if BySub(users, sub) < |users| {
      assert Linked(users, BySub(users, sub), sub);
    } else if ByEmail(users, email) < |users| {
      assert HasEmail(users, ByEmail(users, email), email);
    }
  }
}
