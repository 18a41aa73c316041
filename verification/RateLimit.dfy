/** The fixed-window rate limit of packages/shared/src/rate-limit.ts, over a counter store. */
module RateLimit {
  import opened Timed
  import opened Text
  import opened Arithmetic
  import KvStore

  function Window(now: nat, windowSeconds: nat): nat
    requires windowSeconds > 0
  {
    now / windowSeconds
  }

  function CounterKey(name: string, subject: string, window: nat): string {
    name + ":" + subject + ":" + Decimal(window)
  }

  /** Counting one request, and whether it may pass. */
  function Admit(m: map<string, Entry<nat>>, name: string, subject: string, now: nat, limit: nat, windowSeconds: nat)
    : (map<string, Entry<nat>>, bool)
    requires windowSeconds > 0
  {
    var key := CounterKey(name, subject, Window(now, windowSeconds));
    var m' := Count(m, key, now, windowSeconds);
    (m', m'[key].value <= limit)
  }

  /** `millis` is the time of day in milliseconds; the clock of the store shows its whole seconds. */
  method Limit(store: KvStore.MemoryCounterStore, name: string, subject: string, limit: nat, windowSeconds: nat,
               millis: nat) returns (passes: bool)
    requires store.Valid() && windowSeconds > 0 && store.clock.now == millis / 1000
    modifies store
    ensures store.Valid()
    ensures (store.model, passes) == Admit(old(store.model), name, subject, store.clock.now, limit, windowSeconds)
  {
    var window := millis / (1000 * windowSeconds);
    WholeSeconds(millis, windowSeconds);
    var count := store.Increment(CounterKey(name, subject, window), windowSeconds);
    passes := count <= limit;
  }

  /** Windows of whole seconds hold whole seconds: milliseconds fall in the window their second falls in. */
  lemma WholeSeconds(millis: nat, windowSeconds: nat)
    requires windowSeconds > 0
    ensures 1000 * windowSeconds > 0 && millis / (1000 * windowSeconds) == Window(millis / 1000, windowSeconds)
  {
    var seconds, w := millis / 1000, Window(millis / 1000, windowSeconds);
    var rest := millis - w * (1000 * windowSeconds);
    WindowEnds(seconds, windowSeconds);
    assert 0 <= rest < 1000 * windowSeconds by {
      assert w * (1000 * windowSeconds) == 1000 * (w * windowSeconds);
      assert seconds + 1 <= w * windowSeconds + windowSeconds;
    }
    ModUnique(millis, 1000 * windowSeconds, w, rest);
  }

  /** A subject and a window are told apart by their key, whatever characters the subject has. */
  lemma KeysDiffer(name: string, subject: string, window: nat, subject': string, window': nat)
    ensures CounterKey(name, subject, window) == CounterKey(name, subject', window') <==>
        subject == subject' && window == window'
  {
    DecimalMeans(window);
    DecimalMeans(window');
    var k, k' := CounterKey(name, subject, window), CounterKey(name, subject', window');
    if k == k' {
      LastColon(name + ":" + subject, Decimal(window), name + ":" + subject', Decimal(window'));
      assert subject == (name + ":" + subject)[|name| + 1..] == subject';
    }
  }

  lemma LastColon(a: string, digits: string, a': string, digits': string)
    requires Digits(digits) && Digits(digits') && a + ":" + digits == a' + ":" + digits'
    ensures a == a' && digits == digits'
  {
    var k, k' := a + ":" + digits, a' + ":" + digits';
    assert forall i :: |a| < i < |k| ==> k[i] == digits[i - |a| - 1];
    assert forall i :: |a'| < i < |k'| ==> k'[i] == digits'[i - |a'| - 1];
    assert k[|a|] == ':' && k'[|a'|] == ':';
    assert |a| == |a'|;
    assert a == k[..|a|] == a' && digits == k[|a| + 1..] == digits';
  }

  // ---------- A sequence of requests ----------

  datatype Request = Request(at: nat, subject: string)

  /** The counters after these requests, and which of them passed. */
  function Serve(m: map<string, Entry<nat>>, name: string, requests: seq<Request>, limit: nat, windowSeconds: nat)
    : (r: (map<string, Entry<nat>>, seq<bool>))
    requires windowSeconds > 0
    ensures |r.1| == |requests|
    decreases |requests|
  {
    if requests == [] then (m, [])
    else
      var n := |requests| - 1;
      var (before, passed) := Serve(m, name, requests[..n], limit, windowSeconds);
      var (after, passes) := Admit(before, name, requests[n].subject, requests[n].at, limit, windowSeconds);
      (after, passed + [passes])
  }

  predicate In(r: Request, subject: string, window: nat, windowSeconds: nat)
    requires windowSeconds > 0
  {
    r.subject == subject && Window(r.at, windowSeconds) == window
  }

  /** How many requests of the subject fell in the window. */
  function Seen(requests: seq<Request>, subject: string, window: nat, windowSeconds: nat): nat
    requires windowSeconds > 0
    decreases |requests|
  {
    if requests == [] then 0
    else
      var n := |requests| - 1;
      Seen(requests[..n], subject, window, windowSeconds)
      + (if In(requests[n], subject, window, windowSeconds) then 1 else 0)
  }

  /** A counter holds the requests seen, and outlives its window. */
  predicate Counts(m: map<string, Entry<nat>>, name: string, requests: seq<Request>, subject: string, window: nat,
                   windowSeconds: nat)
    requires windowSeconds > 0
  {
    var key := CounterKey(name, subject, window);
    var seen := Seen(requests, subject, window, windowSeconds);
    if seen == 0 then key !in m
    else key in m && m[key].value == seen && m[key].expiresAt >= (window + 1) * windowSeconds
  }

  lemma {:induction false} CountsAll(name: string, requests: seq<Request>, limit: nat, windowSeconds: nat,
                                     subject: string, window: nat)
    requires windowSeconds > 0
    ensures Counts(Serve(map[], name, requests, limit, windowSeconds).0, name, requests, subject, window, windowSeconds)
    decreases |requests|
  {
    if requests != [] {
      var n := |requests| - 1;
      var r := requests[n];
      var w := Window(r.at, windowSeconds);
      CountsAll(name, requests[..n], limit, windowSeconds, subject, window);
      CountsAll(name, requests[..n], limit, windowSeconds, r.subject, w);
      KeysDiffer(name, r.subject, w, subject, window);
      WindowEnds(r.at, windowSeconds);
    }
  }

  lemma WindowEnds(at: nat, windowSeconds: nat)
    requires windowSeconds > 0
    ensures Window(at, windowSeconds) * windowSeconds <= at < (Window(at, windowSeconds) + 1) * windowSeconds
  {
  }

  /** A request passes exactly when fewer than `limit` requests of its subject came before it in
      its window. */
  lemma PassesIff(name: string, requests: seq<Request>, limit: nat, windowSeconds: nat, i: nat)
    requires windowSeconds > 0 && i < |requests|
    ensures Serve(map[], name, requests, limit, windowSeconds).1[i]
       <==> Seen(requests[..i], requests[i].subject, Window(requests[i].at, windowSeconds), windowSeconds) < limit
    decreases |requests|
  {
    var n := |requests| - 1;
    if i < n {
      PassesIff(name, requests[..n], limit, windowSeconds, i);
      assert requests[..n][..i] == requests[..i];
    } else {
      var r := requests[n];
      CountsAll(name, requests[..n], limit, windowSeconds, r.subject, Window(r.at, windowSeconds));
      WindowEnds(r.at, windowSeconds);
    }
  }

  /** How many requests of the subject passed between two times, the second excluded. */
  function Passed(requests: seq<Request>, passed: seq<bool>, subject: string, from: int, to: int): nat
    requires |passed| == |requests|
    decreases |requests|
  {
    if requests == [] then 0
    else
      var n := |requests| - 1;
      Passed(requests[..n], passed[..n], subject, from, to)
      + (if passed[n] && requests[n].subject == subject && from <= requests[n].at < to then 1 else 0)
  }

  function Least(a: nat, b: nat): nat {
    if a < b then a else b
  }

  /** In a window, the first `limit` requests pass and no others. */
  lemma {:induction false} PassedInWindow(name: string, requests: seq<Request>, limit: nat, windowSeconds: nat,
                                          subject: string, window: nat)
    requires windowSeconds > 0
    ensures Passed(requests, Serve(map[], name, requests, limit, windowSeconds).1, subject, window * windowSeconds,
                   (window + 1) * windowSeconds)
         == Least(Seen(requests, subject, window, windowSeconds), limit)
    decreases |requests|
  {
    if requests != [] {
      var n := |requests| - 1;
      PassedInWindow(name, requests[..n], limit, windowSeconds, subject, window);
      PassesIff(name, requests, limit, windowSeconds, n);
      assert Serve(map[], name, requests, limit, windowSeconds).1[..n]
          == Serve(map[], name, requests[..n], limit, windowSeconds).1;
      WindowIff(requests[n].at, window, windowSeconds);
    }
  }

  lemma WindowIff(at: nat, window: nat, windowSeconds: nat)
    requires windowSeconds > 0
    ensures Window(at, windowSeconds) == window <==> window * windowSeconds <= at < (window + 1) * windowSeconds
  {
    WindowEnds(at, windowSeconds);
    if window * windowSeconds <= at < (window + 1) * windowSeconds {
      ModUnique(at, windowSeconds, window, at - window * windowSeconds);
    }
  }

  lemma {:induction false} PassedSplit(requests: seq<Request>, passed: seq<bool>, subject: string, from: int, to: int,
                                       a: int, mid: int, b: int)
    requires |passed| == |requests| && a <= from && to <= b
    ensures Passed(requests, passed, subject, from, to)
         <= Passed(requests, passed, subject, a, mid) + Passed(requests, passed, subject, mid, b)
    decreases |requests|
  {
    if requests != [] {
      var n := |requests| - 1;
      PassedSplit(requests[..n], passed[..n], subject, from, to, a, mid, b);
    }
  }

  /** However the requests fall, at most twice the limit pass in any interval as long as a window. */
  lemma AtMostTwiceTheLimit(name: string, requests: seq<Request>, limit: nat, windowSeconds: nat, subject: string,
                            from: nat)
    requires windowSeconds > 0
    ensures Passed(requests, Serve(map[], name, requests, limit, windowSeconds).1, subject, from,
                   from + windowSeconds) <= 2 * limit
  {
    var passed := Serve(map[], name, requests, limit, windowSeconds).1;
    var w := Window(from, windowSeconds);
    WindowEnds(from, windowSeconds);
    PassedInWindow(name, requests, limit, windowSeconds, subject, w);
    PassedInWindow(name, requests, limit, windowSeconds, subject, w + 1);
    PassedSplit(requests, passed, subject, from, from + windowSeconds,
                w * windowSeconds, (w + 1) * windowSeconds, (w + 2) * windowSeconds);
  }
}
