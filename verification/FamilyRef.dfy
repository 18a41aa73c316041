/** How a refresh-token family is written as a member of its sid's set, and read back
    (refresh-tokens.ts, encodeFamilyRef and decodeFamilyRef). */
module FamilyRef {
  import opened Timed

  datatype Ref = Ref(clientId: string, tenantId: string, familyId: string)

  function Join(parts: seq<string>): string {
    if parts == [] then "" else if |parts| == 1 then parts[0] else parts[0] + ":" + Join(parts[1..])
  }

  /** The parts between colons, at least one. */
  function Split(s: string): (parts: seq<string>)
    ensures parts != [] && forall i :: 0 <= i < |parts| ==> ':' !in parts[i]
  {
    if s == "" then [""]
    else
      var parts := Split(s[1..]);
      if s[0] == ':' then [""] + parts else [[s[0]] + parts[0]] + parts[1..]
  }

  function Encode(ref: Ref): string {
    Join([ref.clientId, ref.tenantId, ref.familyId])
  }

  /** Parts after the third are ignored. */
  function Decode(member: string): Option<Ref> {
    var parts := Split(member);
    if |parts| < 3 then None else Some(Ref(parts[0], parts[1], parts[2]))
  }

  lemma {:induction false} SplitFirst(a: string, rest: string)
    requires ':' !in a
    ensures Split(a + ":" + rest) == [a] + Split(rest)
  {
    var s := a + ":" + rest;
    if a == "" {
      assert s[1..] == rest;
    } else {
      assert s[1..] == a[1..] + ":" + rest;
      SplitFirst(a[1..], rest);
      assert [a[0]] + a[1..] == a;
    }
  }

  lemma {:induction false} SplitWhole(a: string)
    requires ':' !in a
    ensures Split(a) == [a]
  {
    if a != "" {
      SplitWhole(a[1..]);
      assert [a[0]] + a[1..] == a;
    }
  }

  /** A reference is read back as written exactly when none of its parts has a colon. */
  lemma RoundTripIff(ref: Ref)
    ensures Decode(Encode(ref)) == Some(ref) <==> ':' !in ref.clientId && ':' !in ref.tenantId && ':' !in ref.familyId
  {
    var rest := ref.tenantId + ":" + ref.familyId;
    assert Join([ref.tenantId, ref.familyId]) == rest;
    assert Encode(ref) == ref.clientId + ":" + rest;
    if ':' !in ref.clientId && ':' !in ref.tenantId && ':' !in ref.familyId {
      SplitFirst(ref.clientId, rest);
      SplitFirst(ref.tenantId, ref.familyId);
      SplitWhole(ref.familyId);
    }
  }

  /** Different references of colon-free parts are different members. */
  lemma EncodeInjective(ref: Ref, other: Ref)
    requires ':' !in ref.clientId && ':' !in ref.tenantId && ':' !in ref.familyId
    requires ':' !in other.clientId && ':' !in other.tenantId && ':' !in other.familyId
    ensures Encode(ref) == Encode(other) <==> ref == other
  {
    RoundTripIff(ref);
    RoundTripIff(other);
  }
}
