/**
 * Time bounds of scale-to-zero over runs, from the last change of a sleepy builder's annotation,
 * timeout or mode on. What came before, and what the StatefulSet then says, is arbitrary.
 */
module ScaleToZero {
  import opened Prelude
  import opened Types
  import opened Idle
  import opened Render
  import opened Store
  import opened Pass
  import opened Machine
  import opened Versions
  import opened Sleep
  import opened Freshness

  /** `b` decides like the reference builder `ref`. */
  predicate SleepsLike(b: Builder, ref: Builder) {
    b.spec.mode == SLEEPY && b.lastUsed == ref.lastUsed && IdleTimeout(b) == IdleTimeout(ref)
  }

  function Like(ref: Builder): Builder -> bool {
    b => SleepsLike(b, ref)
  }

  lemma LikeIgnoresStatus(ref: Builder)
    ensures IgnoresStatus(Like(ref))
  {
  }

  lemma LikeDecidesAlike(b: Builder, ref: Builder, at: int)
    requires SleepsLike(b, ref)
    ensures DesiredReplicas(b, at) == DesiredReplicas(ref, at)
  {
  }

  predicate AtWorkload(pc: Pc) {
    (pc.Find? || pc.Make? || pc.Replace?) && pc.child.Workload?
  }

  /** A replica count the position is about to store was decided no earlier than `last`. */
  predicate Pending(pc: Pc, last: int) {
    AtWorkload(pc) ==> last <= pc.child.at
  }

  /**
   * The stored StatefulSet carries the decision made at `last`, and every pass under way has read
   * the builder since its change.
   */
  ghost predicate Settled(s: System, ns: string, name: string, ref: Builder, last: int) {
    && last <= s.now.clock
    && StoredReplicas(s.now, ns, name) == Some(DesiredReplicas(ref, last))
    && forall id | On(s, id, ns, name) :: HeldIs(Like(ref), s.workers[id]) && Pending(s.workers[id], last)
  }

  /**
   * The builder has slept like `ref` since history index `from`; `last` is the decision stored
   * since then, if there is one.
   */
  ghost predicate Tracks(s: System, from: nat, ns: string, name: string, ref: Builder, last: Option<int>) {
    && Sane(s) && Exclusive(s, ns, name) && AllDecided(s)
    && HasBeen(Like(ref), s, from, ns, name)
    && (last.Some? ==> Settled(s, ns, name, ref, last.value))
  }

  /** A pass that still works from an older builder may store a count too; that one does not count as a decision. */
  function NextDecision(s: System, l: Label, ns: string, name: string, ref: Builder, last: Option<int>): Option<int> {
    if !WroteWorkload(s, l, ns, name) then last
    else if SleepsLike(s.workers[l.id].job.b, ref) then Some(s.workers[l.id].child.at)
    else None
  }

  /** The instant of the decision behind the stored StatefulSet, followed along a run. */
  function LastDecision(s: System, labels: seq<Label>, ns: string, name: string, ref: Builder,
                        last: Option<int>): Option<int>
    decreases |labels|
  {
    if labels == [] then last
    else LastDecision(Step(s, labels[0]), labels[1..], ns, name, ref, NextDecision(s, labels[0], ns, name, ref, last))
  }

  /**
   * One worker at a time, reading no staler than the change; the environment leaves the scale and
   * the sleeping behaviour alone.
   */
  ghost predicate Steady(from: nat, ns: string, name: string, ref: Builder, s: System, labels: seq<Label>)
    decreases |labels|
  {
    labels != [] ==>
      && SteadyStep(s, labels[0], from, ns, name, ref)
      && Steady(from, ns, name, ref, Step(s, labels[0]), labels[1..])
  }

  ghost predicate SteadyStep(s: System, l: Label, from: nat, ns: string, name: string, ref: Builder) {
    && Queued(s, l, ns, name) && ReadsSince(s, l, from, ns, name)
    && (l.Outside? ==> ScaleRespected(s.now, l.next, ns, name) && StoredIs(Like(ref), l.next, ns, name))
  }

  // -- One step ------------------------------------------------------------------------------

  lemma PendingHears(pc: Pc, r: Response, now: int, key: nat, last: int)
    requires !Ended(pc) && Pending(pc, last) && last <= now
    requires HasJob(pc) ==> pc.job.b.spec.mode == SLEEPY
    ensures Pending(Hear(pc, r, now, key), last)
  {
    hide DesiredReplicas, ChildObject, StatusOf;
    var next := Hear(pc, r, now, key);
    assert AtWorkload(next) ==> pc.Decide? || (pc.Find? && pc.child == next.child);
  }

  /** A pass that has just written its StatefulSet has no further decision pending. */
  lemma WrittenIsNotPending(pc: Pc, r: Response, now: int, key: nat, ns: string, name: string)
    requires WritesWorkload(pc, ns, name)
    ensures !AtWorkload(Hear(pc, r, now, key))
  {
  }

  /** The write of a pass that has read the builder since its change settles the StatefulSet. */
  lemma WriteSettlesScale(s: System, l: Label, from: nat, ns: string, name: string, ref: Builder, last: Option<int>)
    requires Tracks(s, from, ns, name, ref, last) && ReadsSince(s, l, from, ns, name)
    requires WroteWorkload(s, l, ns, name) && SleepsLike(s.workers[l.id].job.b, ref)
    ensures Settled(Step(s, l), ns, name, ref, s.workers[l.id].child.at)
  {
    hide Ask, Serve, Hear, Sane;
    var pc, r, s' := s.workers[l.id], Reply(s, l).1, Step(s, l);
    WorkloadStep(s, l, ns, name);
    HandleKeepsClock(s.now, Seen(s, l.lag), Ask(pc), l.grant, l.fault);
    assert Decided(s.now, pc);
    LikeDecidesAlike(pc.job.b, ref, pc.child.at);
    WrittenIsNotPending(pc, r, s.now.clock, l.grant.key, ns, name);
    HeldStep(Like(ref), s, l, from, ns, name);
    forall id | On(s', id, ns, name)
      ensures HeldIs(Like(ref), s'.workers[id]) && Pending(s'.workers[id], pc.child.at)
    {
      ActorIsOnlyOne(s, l, id, ns, name);
    }
  }

  /** Other steps keep it settled. */
  lemma SettledStays(s: System, l: Label, from: nat, ns: string, name: string, ref: Builder, last: int)
    requires Tracks(s, from, ns, name, ref, Some(last)) && SteadyStep(s, l, from, ns, name, ref)
    requires !WroteWorkload(s, l, ns, name)
    ensures Settled(Step(s, l), ns, name, ref, last)
  {
    hide Ask, Serve, Hear, Sane, HeldIs, Pending, AllDecided;
    var s' := Step(s, l);
    if l.Act? {
      WorkloadStep(s, l, ns, name);
      if Active(s, l.id) {
        HandleKeepsClock(s.now, Seen(s, l.lag), Ask(s.workers[l.id]), l.grant, l.fault);
      }
    }
    forall id | On(s', id, ns, name)
      ensures HeldIs(Like(ref), s'.workers[id]) && Pending(s'.workers[id], last)
    {
      if l.Act? && Active(s, l.id) {
        PassKeepsBuilder(s.workers[l.id], Reply(s, l).1, s.now.clock, l.grant.key);
        assert On(s, id, ns, name);
        if id == l.id {
          HeldStep(Like(ref), s, l, from, ns, name);
          if HasJob(s.workers[id]) {
            HeldIsSleepy(s.workers[id], ref);
          }
          PendingHears(s.workers[id], Reply(s, l).1, s.now.clock, l.grant.key, last);
        }
      } else if l.Spawn? && id == l.id && !Active(s, l.id) {
        StartIsSettled(ns, name, ref, last);
      }
    }
  }

  lemma HeldIsSleepy(pc: Pc, ref: Builder)
    requires HeldIs(Like(ref), pc) && HasJob(pc)
    ensures pc.job.b.spec.mode == SLEEPY
  {
  }

  lemma StartIsSettled(ns: string, name: string, ref: Builder, last: int)
    ensures HeldIs(Like(ref), Start(ns, name)) && Pending(Start(ns, name), last)
  {
  }

  lemma TracksStep(s: System, l: Label, from: nat, ns: string, name: string, ref: Builder, last: Option<int>)
    requires Tracks(s, from, ns, name, ref, last) && SteadyStep(s, l, from, ns, name, ref)
    ensures var d := NextDecision(s, l, ns, name, ref, last);
            Tracks(Step(s, l), from, ns, name, ref, d) && (last.Some? ==> d.Some? && last.value <= d.value)
  {
    hide Step, Settled, Sane, HeldIs;
    SaneStep(s, l);
    ExclusiveStep(s, l, ns, name);
    DecidedStep(s, l);
    LikeIgnoresStatus(ref);
    HasBeenStep(Like(ref), s, l, from, ns, name);
    if WroteWorkload(s, l, ns, name) {
      if last.Some? {
        WriterIsSettled(s, l, ns, name, ref, last.value);
      }
      if SleepsLike(s.workers[l.id].job.b, ref) {
        WriteSettlesScale(s, l, from, ns, name, ref, last);
      }
    } else if last.Some? {
      SettledStays(s, l, from, ns, name, ref, last.value);
    }
  }

  lemma WriterIsSettled(s: System, l: Label, ns: string, name: string, ref: Builder, last: int)
    requires Settled(s, ns, name, ref, last) && WroteWorkload(s, l, ns, name)
    ensures SleepsLike(s.workers[l.id].job.b, ref) && last <= s.workers[l.id].child.at
  {
    hide Step;
    assert On(s, l.id, ns, name);
  }

  // -- Over runs -----------------------------------------------------------------------------

  /** Any moment of any sane run qualifies as the beginning. */
  lemma AnyMomentTracks(s: System, ns: string, name: string, ref: Builder)
    requires Sane(s) && Exclusive(s, ns, name) && AllDecided(s) && StoredIs(Like(ref), s.now, ns, name)
    ensures Tracks(s, |s.past|, ns, name, ref, None)
  {
    assert History(s)[|s.past|] == s.now;
  }

  /** Along a run the StatefulSet carries the last decision stored since the change, and decisions only get later. */
  lemma {:induction false} TracksAlways(s: System, labels: seq<Label>, from: nat, ns: string, name: string,
                                        ref: Builder, last: Option<int>)
    requires Tracks(s, from, ns, name, ref, last) && Steady(from, ns, name, ref, s, labels)
    ensures var d := LastDecision(s, labels, ns, name, ref, last);
            Tracks(Run(s, labels), from, ns, name, ref, d) && (last.Some? ==> d.Some? && last.value <= d.value)
    decreases |labels|
  {
    hide Tracks, SteadyStep, NextDecision, Step;
    if labels != [] {
      TracksStep(s, labels[0], from, ns, name, ref, last);
      TracksAlways(Step(s, labels[0]), labels[1..], from, ns, name, ref,
          NextDecision(s, labels[0], ns, name, ref, last));
    }
  }

  /**
   * Scale-to-zero bounds, from a change of the builder on and whatever was stored before: once a
   * pass has stored a decision since, and as long as that decision is at most `gap` old, the
   * builder is awake before last use plus timeout and asleep from `gap` after that instant on.
   */
  lemma ScaleToZeroBounds(s: System, labels: seq<Label>, from: nat, ns: string, name: string, ref: Builder,
                          last: Option<int>, gap: nat)
    requires Tracks(s, from, ns, name, ref, last) && Steady(from, ns, name, ref, s, labels)
    requires ref.lastUsed.Instant?
    requires var d := LastDecision(s, labels, ns, name, ref, last); d.Some? && Run(s, labels).now.clock <= d.value + gap
    ensures var w := Run(s, labels).now;
            var timeout := if ref.spec.idleTimeout.Some? then ref.spec.idleTimeout.value else 300;
            var deadline := ref.lastUsed.t + timeout * 1_000_000_000;
            && (w.clock < deadline ==> StoredReplicas(w, ns, name) == Some(1))
            && (deadline + gap <= w.clock ==> StoredReplicas(w, ns, name) == Some(0))
  {
    hide Steady, Sane, HasBeen;
    TracksAlways(s, labels, from, ns, name, ref, last);
    DecisionMeaning(ref, LastDecision(s, labels, ns, name, ref, last).value);
  }

  /** Once a decision has put the builder to sleep, it stays asleep for as long as annotation, timeout and mode stay. */
  lemma AsleepStaysAsleep(s: System, labels: seq<Label>, from: nat, ns: string, name: string, ref: Builder, last: int)
    requires Tracks(s, from, ns, name, ref, Some(last)) && Steady(from, ns, name, ref, s, labels)
    requires StoredReplicas(s.now, ns, name) == Some(0)
    ensures StoredReplicas(Run(s, labels).now, ns, name) == Some(0)
  {
    hide Steady, Sane, HasBeen;
    TracksAlways(s, labels, from, ns, name, ref, Some(last));
    var d := LastDecision(s, labels, ns, name, ref, Some(last)).value;
    DecisionMeaning(ref, last);
    DecisionMeaning(ref, d);
    DecisionNeverRises(ref, last, d);
  }

  // -- Passes and decisions ------------------------------------------------------------------

  /** The job of a pass for the builder that is past its StatefulSet. */
  function PastJob(pc: Pc, ns: string, name: string): Option<Job> {
    var job :=
      if PastWorkload(pc) then Some(pc.job)
      else if pc.Finished? && pc.outcome.Reported? then Some(pc.outcome.job)
      else None;
    if job.Some? && (job.value.b.ns, job.value.b.name) == (ns, name) then job else None
  }

  /**
   * A pass for the builder has begun at `start` or later, and a decision no older than it is stored
   * once it is past its StatefulSet.
   */
  predicate Renewed(pc: Pc, ns: string, name: string, ref: Builder, start: int, last: Option<int>) {
    && (BuilderOf(pc) == Some((ns, name)) ==>
          HeldIs(Like(ref), pc) && (HasJob(pc) ==> start <= pc.job.since) && (pc.ReadTemplate? ==> start <= pc.since))
    && (PastJob(pc, ns, name).Some? ==> last.Some? && start <= PastJob(pc, ns, name).value.since <= last.value)
  }

  /** A StatefulSet write that is acknowledged has changed the stored object, if only its revision. */
  lemma DoneMeansWritten(w: World, seen: World, pc: Pc, grant: Grant, fault: Fault, ns: string, name: string)
    requires WritesWorkload(pc, ns, name) && Bounded(w)
    ensures var (next, r) := Handle(w, seen, Ask(pc), grant, fault);
            r.Done? ==> !SameAt(w, next, StatefulSetKey(ns, name))
  {
    hide ChildObject, Overwrite, StatusOf;
  }

  /** How a pass gets past its StatefulSet: by an acknowledged write, or from a later position. */
  lemma PastComesFrom(pc: Pc, r: Response, now: int, key: nat, ns: string, name: string)
    requires !Ended(pc) && PastJob(Hear(pc, r, now, key), ns, name).Some?
    requires HasJob(pc) ==> pc.job.b.spec.mode == SLEEPY
    ensures HasJob(pc) && PastJob(Hear(pc, r, now, key), ns, name) == Some(pc.job)
    ensures PastJob(pc, ns, name) == Some(pc.job) || (WritesWorkload(pc, ns, name) && r.Done?)
  {
    hide ChildObject, StatusOf, DesiredReplicas, RenewedSecret;
    if HasJob(pc) {
      PassKeepsJob(pc, r, now, key);
    }
  }

  lemma RenewedHears(pc: Pc, r: Response, now: int, key: nat, ns: string, name: string, ref: Builder, start: int,
                     last: Option<int>, d: Option<int>)
    requires !Ended(pc) && Renewed(pc, ns, name, ref, start, last) && start <= now
    requires BuilderOf(pc) == Some((ns, name)) ==> HeldIs(Like(ref), Hear(pc, r, now, key))
    requires last.Some? ==> d.Some? && last.value <= d.value
    requires WritesWorkload(pc, ns, name) && r.Done? ==> d == Some(pc.child.at) && pc.job.since <= pc.child.at
    ensures Renewed(Hear(pc, r, now, key), ns, name, ref, start, d)
  {
    hide ChildObject, StatusOf, DesiredReplicas;
    var next := Hear(pc, r, now, key);
    PassKeepsBuilder(pc, r, now, key);
    if HasJob(pc) {
      PassKeepsJob(pc, r, now, key);
    }
    if PastJob(next, ns, name).Some? {
      PastIsOn(pc, r, now, key, ns, name);
      PastComesFrom(pc, r, now, key, ns, name);
    }
  }

  lemma PastIsOn(pc: Pc, r: Response, now: int, key: nat, ns: string, name: string)
    requires !Ended(pc) && PastJob(Hear(pc, r, now, key), ns, name).Some?
    ensures HasJob(pc) && (pc.job.b.ns, pc.job.b.name) == (ns, name)
  {
    hide ChildObject, StatusOf, DesiredReplicas;
    if HasJob(pc) {
      PassKeepsJob(pc, r, now, key);
    }
  }

  lemma RenewedStep(s: System, l: Label, id: nat, from: nat, ns: string, name: string, ref: Builder, start: int,
                    last: Option<int>)
    requires Tracks(s, from, ns, name, ref, last) && SteadyStep(s, l, from, ns, name, ref) && start <= s.now.clock
    requires id in s.workers ==> Renewed(s.workers[id], ns, name, ref, start, last)
    ensures id in Step(s, l).workers ==>
            Renewed(Step(s, l).workers[id], ns, name, ref, start, NextDecision(s, l, ns, name, ref, last))
    ensures start <= Step(s, l).now.clock
  {
    hide Tracks, Hear, Serve, Ask, Sane, HeldIs, Renewed;
    var d := NextDecision(s, l, ns, name, ref, last);
    TracksStep(s, l, from, ns, name, ref, last);
    if l.Act? && Active(s, l.id) {
      HandleKeepsClock(s.now, Seen(s, l.lag), Ask(s.workers[l.id]), l.grant, l.fault);
    }
    if id !in s.workers || (l.Spawn? && id == l.id) {
      if l.Spawn? && id == l.id && !Active(s, l.id) {
        StartIsRenewed(l.ns, l.name, ns, name, ref, start, d);
      } else if id in s.workers {
        RenewedLater(s.workers[id], ns, name, ref, start, last, d);
      }
    } else if l.Act? && l.id == id && Active(s, id) {
      ActorRenewed(s, l, from, ns, name, ref, start, last);
    } else if !l.Crash? || l.id != id {
      RenewedLater(s.workers[id], ns, name, ref, start, last, d);
    }
  }

  lemma StartIsRenewed(ns': string, name': string, ns: string, name: string, ref: Builder, start: int,
                       last: Option<int>)
    ensures Renewed(Start(ns', name'), ns, name, ref, start, last)
  {
  }

  lemma RenewedLater(pc: Pc, ns: string, name: string, ref: Builder, start: int, last: Option<int>, d: Option<int>)
    requires Renewed(pc, ns, name, ref, start, last)
    requires last.Some? ==> d.Some? && last.value <= d.value
    ensures Renewed(pc, ns, name, ref, start, d)
  {
  }

  lemma RenewedHolds(pc: Pc, ns: string, name: string, ref: Builder, start: int, last: Option<int>)
    requires Renewed(pc, ns, name, ref, start, last) && BuilderOf(pc) == Some((ns, name))
    ensures HeldIs(Like(ref), pc)
    ensures WritesWorkload(pc, ns, name) ==> SleepsLike(pc.job.b, ref)
  {
  }

  lemma ActorRenewed(s: System, l: Label, from: nat, ns: string, name: string, ref: Builder, start: int,
                     last: Option<int>)
    requires Tracks(s, from, ns, name, ref, last) && SteadyStep(s, l, from, ns, name, ref) && start <= s.now.clock
    requires l.Act? && Active(s, l.id) && Renewed(s.workers[l.id], ns, name, ref, start, last)
    ensures Renewed(Step(s, l).workers[l.id], ns, name, ref, start, NextDecision(s, l, ns, name, ref, last))
  {
    hide Hear, Serve, Ask, Sane, HeldIs, Renewed, Settled;
    var pc, r, d := s.workers[l.id], Reply(s, l).1, NextDecision(s, l, ns, name, ref, last);
    TracksStep(s, l, from, ns, name, ref, last);
    if BuilderOf(pc) == Some((ns, name)) {
      RenewedHolds(pc, ns, name, ref, start, last);
      HeldStep(Like(ref), s, l, from, ns, name);
    }
    if WritesWorkload(pc, ns, name) && r.Done? {
      SaneIsBounded(s);
      DoneMeansWritten(s.now, Seen(s, l.lag), pc, l.grant, l.fault, ns, name);
      assert Decided(s.now, pc);
    }
    RenewedHears(pc, r, s.now.clock, l.grant.key, ns, name, ref, start, last, d);
  }

  lemma {:induction false} RenewedAlways(s: System, labels: seq<Label>, id: nat, from: nat, ns: string, name: string,
                                         ref: Builder, start: int, last: Option<int>)
    requires Tracks(s, from, ns, name, ref, last) && Steady(from, ns, name, ref, s, labels) && start <= s.now.clock
    requires id in s.workers ==> Renewed(s.workers[id], ns, name, ref, start, last)
    ensures var e := Run(s, labels);
            id in e.workers ==> Renewed(e.workers[id], ns, name, ref, start,
                LastDecision(s, labels, ns, name, ref, last))
    decreases |labels|
  {
    hide Tracks, SteadyStep, NextDecision, Step, Renewed;
    if labels != [] {
      TracksStep(s, labels[0], from, ns, name, ref, last);
      RenewedStep(s, labels[0], id, from, ns, name, ref, start, last);
      RenewedAlways(Step(s, labels[0]), labels[1..], id, from, ns, name, ref, start,
          NextDecision(s, labels[0], ns, name, ref, last));
    }
  }

  /** A sleepy pass that began in `s` and got past its StatefulSet leaves a decision no older than itself. */
  lemma PassRenewsDecision(s: System, labels: seq<Label>, id: nat, from: nat, ns: string, name: string, ref: Builder,
                           last: Option<int>)
    requires Tracks(s, from, ns, name, ref, last) && Steady(from, ns, name, ref, s, labels)
    requires id in s.workers && s.workers[id] == Start(ns, name)
    requires var e := Run(s, labels); id in e.workers && PastJob(e.workers[id], ns, name).Some?
    ensures var d := LastDecision(s, labels, ns, name, ref, last);
            d.Some? && s.now.clock <= PastJob(Run(s, labels).workers[id], ns, name).value.since <= d.value
  {
    hide Tracks, Steady, Step;
    StartIsRenewed(ns, name, ns, name, ref, s.now.clock, last);
    RenewedAlways(s, labels, id, from, ns, name, ref, s.now.clock, last);
  }

  /**
   * The bounds in terms of passes: when a pass that began at most `gap` ago has got past its
   * StatefulSet, the builder is awake before last use plus timeout, and asleep from `gap` after
   * that instant on. A fresh annotation wakes it up, an old one puts it to sleep.
   */
  lemma PassBoundsScale(s: System, labels: seq<Label>, id: nat, from: nat, ns: string, name: string, ref: Builder,
                        last: Option<int>, gap: nat)
    requires Tracks(s, from, ns, name, ref, last) && Steady(from, ns, name, ref, s, labels)
    requires id in s.workers && s.workers[id] == Start(ns, name) && ref.lastUsed.Instant?
    requires var e := Run(s, labels);
             id in e.workers && PastJob(e.workers[id], ns, name).Some? && e.now.clock <= s.now.clock + gap
    ensures var w := Run(s, labels).now;
            var timeout := if ref.spec.idleTimeout.Some? then ref.spec.idleTimeout.value else 300;
            var deadline := ref.lastUsed.t + timeout * 1_000_000_000;
            && (w.clock < deadline ==> StoredReplicas(w, ns, name) == Some(1))
            && (deadline + gap <= w.clock ==> StoredReplicas(w, ns, name) == Some(0))
  {
    hide Tracks, Steady, Step;
    PassRenewsDecision(s, labels, id, from, ns, name, ref, last);
    ScaleToZeroBounds(s, labels, from, ns, name, ref, last, gap);
  }
}
