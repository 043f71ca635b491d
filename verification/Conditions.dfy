/** Status conditions and the two status records the reconciler computes. */
module Conditions {
  import opened Prelude
  import opened Types
  import opened Render

  const READY := "Ready"
  const ENDPOINT := "Endpoint"
  const LAST_SCALED := "LastScaled"
  const SCALING_DOWN := "ScalingDown"
  const TRUE := "True"
  const FALSE := "False"

  /** Position of the first condition of a kind, or the length when there is none. */
  function IndexOf(conditions: seq<Condition>, kind: string): (i: nat)
    ensures i <= |conditions|
    ensures i < |conditions| ==> conditions[i].kind == kind
    ensures forall j | 0 <= j < i :: conditions[j].kind != kind
  {
    if conditions == [] then 0
    else if conditions[0].kind == kind then 0
    else 1 + IndexOf(conditions[1..], kind)
  }

  function SetCondition(conditions: seq<Condition>, kind: string, value: bool, reason: string, message: string,
                        now: int): seq<Condition> {
    var c := Condition(kind, if value then TRUE else FALSE, if reason == "" then "Unknown" else reason, message, now);
    var i := IndexOf(conditions, kind);
    if i < |conditions| then conditions[i := c] else conditions + [c]
  }

  function ReadyReason(ready: bool): string {
    if ready then READY else "NotReady"
  }

  /** The fields both status writers set. */
  function Common(b: Builder, phase: string, endpoint: string, ready: int, desired: int, nodePort: int,
                  now: int): Status {
    b.status.(
      phase := phase,
      endpoint := endpoint,
      nodePort := nodePort,
      externalEndpoint := ExternalEndpoint(b),
      tlsSecretName := StatusTlsSecret(b),
      readyReplicas := ready,
      desiredReplicas := desired,
      conditions := SetCondition(b.status.conditions, READY, phase == READY, ReadyReason(phase == READY),
          "Builder ready", now))
  }

  /** updateStatus. */
  function PersistentStatus(b: Builder, phase: string, endpoint: string, ready: int, desired: int, nodePort: int,
                            now: int): Status {
    var s := Common(b, phase, endpoint, ready, desired, nodePort, now);
    var reason := if endpoint != "" then "EndpointSet" else "NotSet";
    s.(conditions := SetCondition(s.conditions, ENDPOINT, endpoint != "", reason, "Endpoint set", now))
  }

  /** updateStatusWithLastScaled; the Endpoint condition is left as it was. */
  function SleepyStatus(b: Builder, phase: string, endpoint: string, ready: int, desired: int, nodePort: int,
                        scaledAt: int, now: int): Status {
    var s := Common(b, phase, endpoint, ready, desired, nodePort, now);
    s.(lastScaledAt := Some(scaledAt),
       conditions := SetCondition(s.conditions, LAST_SCALED, true, "Scaled", "Last scaled", now))
  }

  // -- What setCondition keeps ---------------------------------------------------------------

  predicate KindsUnique(conditions: seq<Condition>) {
    forall i, j | 0 <= i < j < |conditions| :: conditions[i].kind != conditions[j].kind
  }

  predicate ConditionTrue(conditions: seq<Condition>, kind: string) {
    var i := IndexOf(conditions, kind);
    i < |conditions| && conditions[i].status == TRUE
  }

  /** The position is determined by its description. */
  lemma IndexIs(conditions: seq<Condition>, kind: string, i: nat)
    requires i <= |conditions|
    requires i < |conditions| ==> conditions[i].kind == kind
    requires forall j | 0 <= j < i :: conditions[j].kind != kind
    ensures IndexOf(conditions, kind) == i
  {
  }

  /** The named condition takes the value, and kinds stay unique. */
  lemma SetConditionMeaning(conditions: seq<Condition>, kind: string, value: bool, reason: string, message: string,
                            now: int)
    requires KindsUnique(conditions)
    ensures var after := SetCondition(conditions, kind, value, reason, message, now);
            && KindsUnique(after) && (ConditionTrue(after, kind) <==> value)
            && IndexOf(after, kind) < |after|
            && after[IndexOf(after, kind)] ==
               Condition(kind, if value then "True" else "False",
                         if reason == "" then "Unknown" else reason, message, now)
  {
    var after := SetCondition(conditions, kind, value, reason, message, now);
    IndexIs(after, kind, IndexOf(conditions, kind));
  }

  /** Every other condition keeps its content and its position, and none appears or disappears. */
  lemma OtherConditionsKept(conditions: seq<Condition>, kind: string, value: bool, reason: string, message: string,
                            now: int, other: string)
    requires other != kind
    ensures var after := SetCondition(conditions, kind, value, reason, message, now);
            && |conditions| <= |after|
            && (IndexOf(conditions, other) < |conditions| ==>
                  IndexOf(after, other) == IndexOf(conditions, other)
                  && after[IndexOf(after, other)] == conditions[IndexOf(conditions, other)])
            && (IndexOf(conditions, other) == |conditions| ==> IndexOf(after, other) == |after|)
            && (ConditionTrue(after, other) <==> ConditionTrue(conditions, other))
  {
  }

  /** A condition of this kind that was there keeps its position. */
  predicate PositionKept(before: seq<Condition>, after: seq<Condition>, kind: string) {
    IndexOf(before, kind) < |before| ==> IndexOf(before, kind) == IndexOf(after, kind) < |after|
  }

  /** And its whole content: status, reason, message and time; one that was not there does not appear. */
  predicate ContentKept(before: seq<Condition>, after: seq<Condition>, kind: string) {
    && PositionKept(before, after, kind)
    && (IndexOf(before, kind) < |before| ==> after[IndexOf(after, kind)] == before[IndexOf(before, kind)])
    && (IndexOf(before, kind) == |before| ==> IndexOf(after, kind) == |after|)
  }

  /** All conditions keep their position, and those of kinds not in `written` their content. */
  ghost predicate Endure(before: seq<Condition>, after: seq<Condition>, written: set<string>) {
    && |before| <= |after|
    && (forall kind :: PositionKept(before, after, kind))
    && (forall kind | kind !in written :: ContentKept(before, after, kind))
  }

  lemma EndureIsTransitive(a: seq<Condition>, b: seq<Condition>, c: seq<Condition>, written: set<string>)
    requires Endure(a, b, written) && Endure(b, c, written)
    ensures Endure(a, c, written)
  {
    forall kind
      ensures PositionKept(a, c, kind)
    {
      assert PositionKept(a, b, kind) && PositionKept(b, c, kind);
    }
    forall kind | kind !in written
      ensures ContentKept(a, c, kind)
    {
      assert ContentKept(a, b, kind) && ContentKept(b, c, kind);
    }
  }

  lemma EndureWeakens(before: seq<Condition>, after: seq<Condition>, written: set<string>, more: set<string>)
    requires Endure(before, after, written) && written <= more
    ensures Endure(before, after, more)
  {
  }

  /** Setting a condition keeps every position, and the content of every other condition. */
  lemma SetConditionEndures(conditions: seq<Condition>, kind: string, value: bool, reason: string, message: string,
                            now: int)
    ensures Endure(conditions, SetCondition(conditions, kind, value, reason, message, now), {kind})
  {
    hide SetCondition;
    var after := SetCondition(conditions, kind, value, reason, message, now);
    forall other | other != kind
      ensures ContentKept(conditions, after, other)
    {
      OtherConditionsKept(conditions, kind, value, reason, message, now, other);
    }
    SetConditionKeepsPlace(conditions, kind, value, reason, message, now);
    forall other
      ensures PositionKept(conditions, after, other)
    {
      assert other != kind ==> ContentKept(conditions, after, other);
    }
  }

  lemma SetConditionKeepsPlace(conditions: seq<Condition>, kind: string, value: bool, reason: string, message: string,
                               now: int)
    ensures var after := SetCondition(conditions, kind, value, reason, message, now);
            PositionKept(conditions, after, kind) && |conditions| <= |after|
  {
    var after := SetCondition(conditions, kind, value, reason, message, now);
    IndexIs(after, kind, IndexOf(conditions, kind));
  }

  lemma TwoConditionsEndure(conditions: seq<Condition>,
                            k1: string, v1: bool, r1: string, m1: string,
                            k2: string, v2: bool, r2: string, m2: string, now: int)
    ensures Endure(conditions, SetCondition(SetCondition(conditions, k1, v1, r1, m1, now), k2, v2, r2, m2, now),
            {k1, k2})
  {
    hide SetCondition, Endure;
    var first := SetCondition(conditions, k1, v1, r1, m1, now);
    SetConditionEndures(conditions, k1, v1, r1, m1, now);
    SetConditionEndures(first, k2, v2, r2, m2, now);
    EndureWeakens(conditions, first, {k1}, {k1, k2});
    EndureWeakens(first, SetCondition(first, k2, v2, r2, m2, now), {k2}, {k1, k2});
    EndureIsTransitive(conditions, first, SetCondition(first, k2, v2, r2, m2, now), {k1, k2});
  }

  /** The kinds a status writer sets. */
  function PersistentKinds(): set<string> {
    {READY, ENDPOINT}
  }

  function SleepyKinds(): set<string> {
    {READY, LAST_SCALED}
  }

  // -- The invariant of a stored status ------------------------------------------------------

  /** Condition kinds are unique, and Ready is True exactly when the phase says so. */
  predicate StatusOk(s: Status) {
    KindsUnique(s.conditions) && (ConditionTrue(s.conditions, READY) <==> s.phase == READY)
  }

  lemma PersistentStatusIsOk(b: Builder, phase: string, endpoint: string, ready: int, desired: int, nodePort: int,
                             now: int)
    requires StatusOk(b.status)
    ensures var s := PersistentStatus(b, phase, endpoint, ready, desired, nodePort, now);
            StatusOk(s) && (ConditionTrue(s.conditions, ENDPOINT) <==> endpoint != "")
            && (ConditionTrue(s.conditions, LAST_SCALED) <==> ConditionTrue(b.status.conditions, LAST_SCALED))
  {
    var s := Common(b, phase, endpoint, ready, desired, nodePort, now);
    assert READY[0] == 'R' && ENDPOINT[0] == 'E' && LAST_SCALED[0] == 'L';
    SetConditionMeaning(b.status.conditions, READY, phase == READY, ReadyReason(phase == READY), "Builder ready", now);
    OtherConditionsKept(b.status.conditions, READY, phase == READY, ReadyReason(phase == READY), "Builder ready",
        now, LAST_SCALED);
    var reason := if endpoint != "" then "EndpointSet" else "NotSet";
    SetConditionMeaning(s.conditions, ENDPOINT, endpoint != "", reason, "Endpoint set", now);
    OtherConditionsKept(s.conditions, ENDPOINT, endpoint != "", reason, "Endpoint set", now, READY);
    OtherConditionsKept(s.conditions, ENDPOINT, endpoint != "", reason, "Endpoint set", now, LAST_SCALED);
  }

  lemma SleepyStatusIsOk(b: Builder, phase: string, endpoint: string, ready: int, desired: int, nodePort: int,
                         scaledAt: int, now: int)
    requires StatusOk(b.status)
    ensures var s := SleepyStatus(b, phase, endpoint, ready, desired, nodePort, scaledAt, now);
            StatusOk(s) && ConditionTrue(s.conditions, LAST_SCALED)
            && (ConditionTrue(s.conditions, ENDPOINT) <==> ConditionTrue(b.status.conditions, ENDPOINT))
  {
    var s := Common(b, phase, endpoint, ready, desired, nodePort, now);
    assert READY[0] == 'R' && ENDPOINT[0] == 'E' && LAST_SCALED[0] == 'L';
    SetConditionMeaning(b.status.conditions, READY, phase == READY, ReadyReason(phase == READY), "Builder ready", now);
    OtherConditionsKept(b.status.conditions, READY, phase == READY, ReadyReason(phase == READY), "Builder ready",
        now, ENDPOINT);
    SetConditionMeaning(s.conditions, LAST_SCALED, true, "Scaled", "Last scaled", now);
    OtherConditionsKept(s.conditions, LAST_SCALED, true, "Scaled", "Last scaled", now, READY);
    OtherConditionsKept(s.conditions, LAST_SCALED, true, "Scaled", "Last scaled", now, ENDPOINT);
  }

  // -- Timestamps apart, writing a status twice changes nothing -------------------------------

  predicate SameButTime(a: Condition, b: Condition) {
    a.(at := b.at) == b
  }

  predicate SameConditions(a: seq<Condition>, b: seq<Condition>) {
    |a| == |b| && forall i | 0 <= i < |a| :: SameButTime(a[i], b[i])
  }

  /** Equal up to timestamps. */
  predicate SameStatus(a: Status, b: Status) {
    && a.(conditions := [], lastScaledAt := None) == b.(conditions := [], lastScaledAt := None)
    && (a.lastScaledAt.Some? <==> b.lastScaledAt.Some?)
    && SameConditions(a.conditions, b.conditions)
  }

  /** Setting a condition that already has this content only moves its timestamp. */
  lemma SetConditionAgain(conditions: seq<Condition>, kind: string, value: bool, reason: string, message: string,
                          t: int, now: int)
    requires var i := IndexOf(conditions, kind);
             i < |conditions| && SameButTime(conditions[i], SetCondition([], kind, value, reason, message, t)[0])
    ensures SameConditions(SetCondition(conditions, kind, value, reason, message, now), conditions)
    ensures var i := IndexOf(conditions, kind);
            SetCondition(conditions, kind, value, reason, message, now)
                == conditions[i := SetCondition([], kind, value, reason, message, now)[0]]
  {
  }

  /** Setting two different conditions, and then both again, only moves timestamps. */
  lemma TwoConditionsAgain(conditions: seq<Condition>,
                           k1: string, v1: bool, r1: string, m1: string,
                           k2: string, v2: bool, r2: string, m2: string, t: int, now: int)
    requires k1 != k2
    ensures var once := SetCondition(SetCondition(conditions, k1, v1, r1, m1, t), k2, v2, r2, m2, t);
            SameConditions(SetCondition(SetCondition(once, k1, v1, r1, m1, now), k2, v2, r2, m2, now), once)
  {
    var first := SetCondition(conditions, k1, v1, r1, m1, t);
    var once := SetCondition(first, k2, v2, r2, m2, t);
    var i, j := IndexOf(conditions, k1), IndexOf(first, k2);
    IndexIs(first, k1, i);
    OtherConditionsKept(first, k2, v2, r2, m2, t, k1);
    IndexIs(once, k2, j);
    SetConditionAgain(once, k1, v1, r1, m1, t, now);
    var twice := SetCondition(once, k1, v1, r1, m1, now);
    OtherConditionsKept(once, k1, v1, r1, m1, now, k2);
    SetConditionAgain(twice, k2, v2, r2, m2, t, now);
  }
}
