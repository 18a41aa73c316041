/** Idle and absolute expiry, shared by SSO sessions and tenant sessions. */
module SessionExpiry {
  datatype Policy = Policy(idleSeconds: int, absoluteSeconds: int)

  const TOUCH_INTERVAL_SECONDS := 60

  function RemainingTtl(policy: Policy, createdAt: int, now: int): int {
    createdAt + policy.absoluteSeconds - now
  }

  predicate IsExpired(policy: Policy, createdAt: int, lastSeenAt: int, now: int) {
    lastSeenAt + policy.idleSeconds <= now || RemainingTtl(policy, createdAt, now) <= 0
  }

  predicate ShouldTouch(lastSeenAt: int, now: int) {
    now - lastSeenAt >= TOUCH_INTERVAL_SECONDS
  }
}
