/**
 * The scale-to-zero decision of a sleepy builder. Instants are nanoseconds; the Go code compares
 * a saturating int64 duration with an int64 product.
 */
module Idle {
  import opened Types

  const SECOND: int := 1_000_000_000
  const INT64_MIN: int := -0x8000_0000_0000_0000
  const INT64_MAX: int := 0x7FFF_FFFF_FFFF_FFFF
  const DEFAULT_IDLE_TIMEOUT: int32 := 300

  /** time.Time.Sub saturates at the ends of int64. */
  function Saturate(d: int): int {
    if d < INT64_MIN then INT64_MIN else if d > INT64_MAX then INT64_MAX else d
  }

  /** Go's int64 multiplication wraps around. */
  function Wrap(x: int): int {
    (x - INT64_MIN) % 0x1_0000_0000_0000_0000 + INT64_MIN
  }

  function Since(now: int, t: int): int {
    Saturate(now - t)
  }

  function Timeout(idle: int32): int {
    Wrap(idle * SECOND)
  }

  function IdleTimeout(b: Builder): int32 {
    b.spec.idleTimeout.GetOr(DEFAULT_IDLE_TIMEOUT)
  }

  predicate RecentlyUsed(now: int, t: int, idle: int32) {
    Since(now, t) < Timeout(idle)
  }

  /** The replica count a sleepy pass asks for when its clock reads `now`. */
  function DesiredReplicas(b: Builder, now: int): int32 {
    match b.lastUsed
    case Unset => 1
    case Unparseable => 0
    case Instant(t) => if RecentlyUsed(now, t, IdleTimeout(b)) then 1 else 0
  }

  lemma TimeoutDoesNotOverflow(idle: int32)
    ensures Timeout(idle) == idle * SECOND
    ensures INT64_MIN < Timeout(idle) < INT64_MAX
  {
  }

  /** Saturation and wrap-around never change the outcome of the comparison. */
  lemma IdleTestIsExact(now: int, t: int, idle: int32)
    ensures RecentlyUsed(now, t, idle) <==> now < t + idle * SECOND
  {
  }

  /** The instant from which a sleepy builder last used at `t` is asleep. */
  function Deadline(b: Builder): int
    requires b.lastUsed.Instant?
  {
    b.lastUsed.t + IdleTimeout(b) * SECOND
  }

  /** The deadline in the fields of the spec: its own timeout in seconds when it sets one, otherwise 300. */
  lemma DeadlineMeaning(b: Builder)
    requires b.lastUsed.Instant?
    ensures b.spec.idleTimeout.Some? ==> Deadline(b) == b.lastUsed.t + b.spec.idleTimeout.value * 1_000_000_000
    ensures b.spec.idleTimeout.None? ==> Deadline(b) == b.lastUsed.t + 300 * 1_000_000_000
  {
  }

  /**
   * What the decision means: awake without an annotation, asleep with an unreadable one, and
   * otherwise awake strictly before last use plus the builder's own timeout, 300 seconds unless it
   * sets one. At equality the builder sleeps.
   */
  lemma DecisionMeaning(b: Builder, now: int)
    ensures DesiredReplicas(b, now) == 0 || DesiredReplicas(b, now) == 1
    ensures b.lastUsed.Unset? ==> DesiredReplicas(b, now) == 1
    ensures b.lastUsed.Unparseable? ==> DesiredReplicas(b, now) == 0
    ensures b.lastUsed.Instant? ==> (DesiredReplicas(b, now) == 1 <==> now < Deadline(b))
    ensures b.lastUsed.Instant? ==>
              var seconds := if b.spec.idleTimeout.Some? then b.spec.idleTimeout.value else 300;
              DesiredReplicas(b, now) == 1 <==> now < b.lastUsed.t + seconds * 1_000_000_000
  {
  }

  /** As the clock advances over a fixed annotation the decision never wakes the builder up. */
  lemma DecisionNeverRises(b: Builder, earlier: int, later: int)
    requires earlier <= later
    ensures DesiredReplicas(b, later) <= DesiredReplicas(b, earlier)
  {
  }
}
