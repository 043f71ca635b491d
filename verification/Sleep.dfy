/**
 * Scale-to-zero of one builder over whole runs: what the stored StatefulSet says, and what a
 * committed sleepy status vouches for. Stale reads, faults and stopped workers are all allowed;
 * the one assumption about workers is that at most one is on the builder at a time.
 */
module Sleep {
  import opened Prelude
  import opened Types
  import opened Labels
  import opened Idle
  import opened Render
  import opened Store
  import opened Pass
  import opened Machine
  import opened Versions

  // -- One worker per builder ----------------------------------------------------------------

  ghost predicate Exclusive(s: System, ns: string, name: string) {
    forall i, j | On(s, i, ns, name) && On(s, j, ns, name) :: i == j
  }

  /** The work queue starts a pass for the builder only when none is under way. */
  ghost predicate Queued(s: System, l: Label, ns: string, name: string) {
    l.Spawn? && (l.ns, l.name) == (ns, name) ==> forall i :: !On(s, i, ns, name)
  }

  lemma ExclusiveStep(s: System, l: Label, ns: string, name: string)
    requires Exclusive(s, ns, name) && Queued(s, l, ns, name)
    ensures Exclusive(Step(s, l), ns, name)
  {
    forall i | On(Step(s, l), i, ns, name)
      ensures On(s, i, ns, name) || (l.Spawn? && l.id == i && (l.ns, l.name) == (ns, name))
    {
      if l.Act? && Active(s, l.id) {
        PassKeepsBuilder(s.workers[l.id], Reply(s, l).1, s.now.clock, l.grant.key);
      }
    }
  }

  /** While a worker on the builder moves, nobody else is on it. */
  lemma ActorIsOnlyOne(s: System, l: Label, id: nat, ns: string, name: string)
    requires Exclusive(s, ns, name) && l.Act? && Active(s, l.id) && On(s, l.id, ns, name)
    requires On(Step(s, l), id, ns, name)
    ensures id == l.id
  {
    hide Ask, Serve, Hear;
    assert id != l.id ==> On(s, id, ns, name);
  }

  // -- The stored replica count --------------------------------------------------------------

  function StoredReplicas(w: World, ns: string, name: string): Option<int32> {
    var k := StatefulSetKey(ns, name);
    if k in w.objects && w.objects[k].obj.StatefulSetObject? then Some(w.objects[k].obj.statefulSet.replicas) else None
  }

  /** The position is about to write the builder's StatefulSet. */
  predicate WritesWorkload(pc: Pc, ns: string, name: string) {
    (pc.Make? || pc.Replace?) && pc.child.Workload? && pc.job.b.ns == ns && pc.job.b.name == name
  }

  /** The worker's move stored a StatefulSet, whether or not the reply arrived. */
  predicate WroteWorkload(s: System, l: Label, ns: string, name: string) {
    && l.Act? && Active(s, l.id)
    && WritesWorkload(s.workers[l.id], ns, name)
    && !SameAt(s.now, Step(s, l).now, StatefulSetKey(ns, name))
  }

  /** A write under the StatefulSet's key stores the rendered count, if it takes effect. */
  lemma WorkloadWrite(w: World, seen: World, pc: Pc, grant: Grant, fault: Fault, ns: string, name: string)
    requires Target(Ask(pc)) == Some(StatefulSetKey(ns, name))
    ensures WritesWorkload(pc, ns, name)
    ensures var later := Handle(w, seen, Ask(pc), grant, fault).0;
            SameAt(w, later, StatefulSetKey(ns, name)) || StoredReplicas(later, ns, name) == Some(pc.child.replicas)
  {
    hide StatusOf, LabelMap, PodFor;
    assert pc.Make? || pc.Replace?;
    PrefixIsInjective(pc.job.b.name, name);
  }

  lemma WorkloadStep(s: System, l: Label, ns: string, name: string)
    requires l.Act?
    ensures WroteWorkload(s, l, ns, name) ==>
            StoredReplicas(Step(s, l).now, ns, name) == Some(s.workers[l.id].child.replicas)
    ensures !WroteWorkload(s, l, ns, name) ==> SameAt(s.now, Step(s, l).now, StatefulSetKey(ns, name))
  {
    hide Hear, Serve, StatusOf, ChildObject;
    var k := StatefulSetKey(ns, name);
    if Active(s, l.id) && Target(Ask(s.workers[l.id])) == Some(k) {
      WorkloadWrite(s.now, Seen(s, l.lag), s.workers[l.id], l.grant, l.fault, ns, name);
    } else {
      StepTouchesTarget(s, l, k);
    }
  }

  // -- A committed sleepy status -------------------------------------------------------------

  /** The replica count and decision instant a position carries, once there is one. */
  function Decision(pc: Pc): Option<(int, int)> {
    match pc
    case Find(_, Workload(n, at)) => Some((n, at))
    case Make(_, Workload(n, at)) => Some((n, at))
    case Replace(_, Workload(n, at), _) => Some((n, at))
    case ReadPods(_, n, at) => Some((n, at))
    case ReadPort(_, report) => Some((report.desired, report.at))
    case Publish(_, report, _, _) => Some((report.desired, report.at))
    case _ => None
  }

  /** The StatefulSet has been written and the pass is on its way to report. */
  predicate PastWorkload(pc: Pc) {
    pc.ReadPods? || pc.ReadPort? || pc.Publish?
  }

  /** A sleepy pass decides on its own builder at an instant inside the pass. */
  predicate Decided(w: World, pc: Pc) {
    && (pc.ReadTemplate? ==> pc.since <= w.clock)
    && (HasJob(pc) && pc.job.b.spec.mode == SLEEPY ==>
          && pc.job.since <= w.clock
          && (Decision(pc).Some? ==>
                var (n, at) := Decision(pc).value;
                pc.job.since <= at <= w.clock && n == DesiredReplicas(pc.job.b, at)))
  }

  ghost predicate AllDecided(s: System) {
    forall id | id in s.workers :: Decided(s.now, s.workers[id])
  }

  /** And once it is past its StatefulSet, the stored one has the decided count. */
  predicate Faithful(w: World, pc: Pc) {
    && Decided(w, pc)
    && (PastWorkload(pc) && pc.job.b.spec.mode == SLEEPY ==>
          StoredReplicas(w, pc.job.b.ns, pc.job.b.name).Some?
          && StoredReplicas(w, pc.job.b.ns, pc.job.b.name).value == Decision(pc).value.0)
  }

  ghost predicate AllFaithful(s: System, ns: string, name: string) {
    forall id | On(s, id, ns, name) :: Faithful(s.now, s.workers[id])
  }

  /** Nobody else rescales or deletes the builder's StatefulSet. */
  ghost predicate ScaleRespected(w: World, next: World, ns: string, name: string) {
    StoredReplicas(w, ns, name) == StoredReplicas(next, ns, name)
  }

  ghost predicate Undisputed(ns: string, name: string, s: System, labels: seq<Label>)
    decreases |labels|
  {
    labels != [] ==>
      && Queued(s, labels[0], ns, name)
      && (labels[0].Outside? ==> ScaleRespected(s.now, labels[0].next, ns, name))
      && Undisputed(ns, name, Step(s, labels[0]), labels[1..])
  }

  lemma DecidedHears(w: World, pc: Pc, r: Response, key: nat)
    requires !Ended(pc) && Decided(w, pc)
    ensures Decided(w, Hear(pc, r, w.clock, key))
  {
    hide DesiredReplicas, ChildObject, StatusOf;
    if HasJob(pc) {
      PassKeepsJob(pc, r, w.clock, key);
    }
  }

  lemma DecidedStays(w: World, later: World, pc: Pc)
    requires Decided(w, pc) && w.clock <= later.clock
    ensures Decided(later, pc)
  {
  }

  /** Decisions are sound in every run whatsoever. */
  lemma DecidedStep(s: System, l: Label)
    requires AllDecided(s)
    ensures AllDecided(Step(s, l))
  {
    hide Decided, Ask, Serve, Hear;
    var s' := Step(s, l);
    forall id | id in s'.workers
      ensures Decided(s'.now, s'.workers[id])
    {
      if l.Act? && Active(s, l.id) {
        HandleKeepsClock(s.now, Seen(s, l.lag), Ask(s.workers[l.id]), l.grant, l.fault);
        if id == l.id {
          DecidedHears(s.now, s.workers[id], Reply(s, l).1, l.grant.key);
          DecidedStays(s.now, s'.now, s'.workers[id]);
        } else {
          DecidedStays(s.now, s'.now, s.workers[id]);
        }
      } else if l.Spawn? && id == l.id && !Active(s, l.id) {
        StartIsDecided(s'.now, l.ns, l.name);
      } else {
        DecidedStays(s.now, s'.now, s.workers[id]);
      }
    }
  }

  lemma StartIsDecided(w: World, ns: string, name: string)
    ensures Decided(w, Start(ns, name))
  {
  }

  lemma FaithfulHears(w: World, pc: Pc, r: Response, key: nat)
    requires !Ended(pc) && Faithful(w, pc)
    requires (pc.Make? || pc.Replace?) && pc.child.Workload? && r.Done? ==>
               StoredReplicas(w, pc.job.b.ns, pc.job.b.name) == Some(pc.child.replicas)
    ensures Faithful(w, Hear(pc, r, w.clock, key))
  {
    hide DesiredReplicas, ChildObject, StatusOf;
    DecidedHears(w, pc, r, key);
    var next := Hear(pc, r, w.clock, key);
    if PastWorkload(next) {
      PassKeepsJob(pc, r, w.clock, key);
      assert ((pc.Make? || pc.Replace?) && pc.child.Workload? && r.Done?) || PastWorkload(pc);
    }
  }

  lemma DoneMeansStored(w: World, seen: World, pc: Pc, grant: Grant, fault: Fault)
    requires (pc.Make? || pc.Replace?) && pc.child.Workload?
    ensures var (next, r) := Handle(w, seen, Ask(pc), grant, fault);
            r.Done? ==> StoredReplicas(next, pc.job.b.ns, pc.job.b.name) == Some(pc.child.replicas)
  {
  }

  lemma ActorStaysFaithful(s: System, l: Label, ns: string, name: string)
    requires AllFaithful(s, ns, name)
    requires l.Act? && Active(s, l.id) && On(Step(s, l), l.id, ns, name)
    ensures Faithful(Step(s, l).now, Step(s, l).workers[l.id])
  {
    hide Faithful, Ask, Serve, Hear;
    var pc := s.workers[l.id];
    var (next, r) := Reply(s, l);
    PassKeepsBuilder(pc, r, s.now.clock, l.grant.key);
    WorkloadStep(s, l, ns, name);
    HandleKeepsClock(s.now, Seen(s, l.lag), Ask(pc), l.grant, l.fault);
    FaithfulInNext(s.now, next, pc, ns, name);
    if (pc.Make? || pc.Replace?) && pc.child.Workload? {
      DoneMeansStored(s.now, Seen(s, l.lag), pc, l.grant, l.fault);
    }
    FaithfulHears(next, pc, r, l.grant.key);
  }

  lemma FaithfulStep(s: System, l: Label, ns: string, name: string)
    requires AllFaithful(s, ns, name) && Exclusive(s, ns, name)
    requires l.Outside? ==> ScaleRespected(s.now, l.next, ns, name)
    ensures AllFaithful(Step(s, l), ns, name)
  {
    hide Ask, Serve, Hear;
    var s' := Step(s, l);
    forall id | On(s', id, ns, name)
      ensures Faithful(s'.now, s'.workers[id])
    {
      if l.Act? && Active(s, l.id) {
        PassKeepsBuilder(s.workers[l.id], Reply(s, l).1, s.now.clock, l.grant.key);
        if id == l.id {
          ActorStaysFaithful(s, l, ns, name);
        } else {
          assert On(s, id, ns, name) && !On(s, l.id, ns, name);
          WorkloadStep(s, l, ns, name);
          HandleKeepsClock(s.now, Seen(s, l.lag), Ask(s.workers[l.id]), l.grant, l.fault);
        }
      }
    }
  }

  /** A write of the StatefulSet happens before the pass is past it, so nothing known gets lost. */
  lemma FaithfulInNext(w: World, next: World, pc: Pc, ns: string, name: string)
    requires Faithful(w, pc) && next.clock == w.clock
    requires HasJob(pc) ==> pc.job.b.ns == ns && pc.job.b.name == name
    requires WritesWorkload(pc, ns, name) || SameAt(w, next, StatefulSetKey(ns, name))
    ensures Faithful(next, pc)
  {
  }

  /** Over every run in which the StatefulSet is left to the operator, sleepy passes stay faithful. */
  lemma {:induction false} FaithfulAlways(s: System, labels: seq<Label>, ns: string, name: string)
    requires AllFaithful(s, ns, name) && Exclusive(s, ns, name) && Undisputed(ns, name, s, labels)
    ensures AllFaithful(Run(s, labels), ns, name) && Exclusive(Run(s, labels), ns, name)
    decreases |labels|
  {
    if labels != [] {
      FaithfulStep(s, labels[0], ns, name);
      ExclusiveStep(s, labels[0], ns, name);
      FaithfulAlways(Step(s, labels[0]), labels[1..], ns, name);
    }
  }

  /** The only write of a pass to its builder is its status, and it replaces what the pass read. */
  lemma StatusWriteReplacesRead(s: System, l: Label, ns: string, name: string)
    requires Sane(s)
    requires l.Act? && On(s, l.id, ns, name) && s.workers[l.id].Publish?
    requires !SameAt(s.now, Step(s, l).now, BuilderKey(ns, name))
    ensures var pc := s.workers[l.id];
            && Holds(s.now, BuilderKey(ns, name), BuilderObject(pc.job.b))
            && Holds(Step(s, l).now, BuilderKey(ns, name),
               BuilderObject(pc.job.b.(status := StatusOf(pc.job.b, pc.report, pc.port, pc.now))))
  {
    hide Sane, Hear, StatusOf;
    NoLostUpdate(s, l);
  }

  /**
   * No stale sleep is ever committed. Whenever a sleepy status write takes effect, whether or not
   * its reply arrives, the builder was still exactly the one the pass read; the status reports
   * the decision on that annotation and timeout at an instant inside the pass; and the
   * stored StatefulSet has that count.
   */
  lemma CommittedSleepIsCurrent(s: System, l: Label, ns: string, name: string)
    requires Sane(s) && AllFaithful(s, ns, name)
    requires l.Act? && On(s, l.id, ns, name) && s.workers[l.id].Publish? && s.workers[l.id].job.b.spec.mode == SLEEPY
    requires !SameAt(s.now, Step(s, l).now, BuilderKey(ns, name))
    ensures var pc := s.workers[l.id];
            && Holds(s.now, BuilderKey(ns, name), BuilderObject(pc.job.b))
            && Holds(Step(s, l).now, BuilderKey(ns, name),
               BuilderObject(pc.job.b.(status := StatusOf(pc.job.b, pc.report, pc.port, pc.now))))
            && pc.job.since <= pc.report.at <= s.now.clock
            && StatusOf(pc.job.b, pc.report, pc.port, pc.now).desiredReplicas == DesiredReplicas(pc.job.b, pc.report.at)
            && StoredReplicas(Step(s, l).now, ns, name) == Some(DesiredReplicas(pc.job.b, pc.report.at))
  {
    hide Sane, Hear, Serve, Ask;
    StatusWriteReplacesRead(s, l, ns, name);
    WorkloadStep(s, l, ns, name);
  }

  /**
   * Never asleep too early: when a sleepy pass stores zero replicas, the annotation it read is
   * either unreadable or at least the timeout old; a builder without one is never put to sleep.
   */
  lemma NeverSleepsEarly(s: System, l: Label, ns: string, name: string)
    requires AllDecided(s) && WroteWorkload(s, l, ns, name)
    requires s.workers[l.id].job.b.spec.mode == SLEEPY && StoredReplicas(Step(s, l).now, ns, name) == Some(0)
    ensures var b := s.workers[l.id].job.b;
            var timeout := if b.spec.idleTimeout.Some? then b.spec.idleTimeout.value else 300;
            b.lastUsed.Unparseable? || (b.lastUsed.Instant? && b.lastUsed.t + timeout * 1_000_000_000 <= s.now.clock)
  {
    hide Step, Ask, Hear;
    WorkloadStep(s, l, ns, name);
    var pc := s.workers[l.id];
    DecisionMeaning(pc.job.b, pc.child.at);
  }

  /** Once an entry was replaced or deleted, its revision never shows again. */
  lemma ReplacedRevisionIsGone(s: System, k: Key, e: Entry, i: nat, j: nat)
    requires Chronicle(s) && i <= j < |History(s)|
    requires k in History(s)[i].objects && History(s)[i].objects[k] == e
    requires !(k in History(s)[j].objects && History(s)[j].objects[k] == e)
    ensures !(k in s.now.objects && s.now.objects[k].rv == e.rv)
  {
    hide Chronicle;
    if k in s.now.objects && s.now.objects[k].rv == e.rv {
      RevisionMeansUntouched(s, k, i, i);
      RevisionMeansUntouched(s, k, i, j);
      assert false;
    }
  }

  /** An edit of the builder that lands after the pass read it always makes the status write fail. */
  lemma PatchDefeatsStatusWrite(s: System, l: Label, i: nat, j: nat)
    requires Sane(s)
    requires l.Act? && Active(s, l.id) && s.workers[l.id].Publish?
    requires i <= j < |History(s)|
    requires var (k, e) := BuilderEntry(s.workers[l.id].job.b, s.workers[l.id].job.rv);
             k in History(s)[i].objects && History(s)[i].objects[k] == e
             && !(k in History(s)[j].objects && History(s)[j].objects[k] == e)
    ensures Reply(s, l).1.Refused?
    ensures SameAt(s.now, Step(s, l).now, BuilderKey(s.workers[l.id].job.b.ns, s.workers[l.id].job.b.name))
  {
    hide Chronicle, HeldWasStored, Serve, Hear, StatusOf, ChildObject;
    var (k, e) := BuilderEntry(s.workers[l.id].job.b, s.workers[l.id].job.rv);
    ReplacedRevisionIsGone(s, k, e, i, j);
    WrongRevisionIsRefused(s.now, Seen(s, l.lag), Ask(s.workers[l.id]), l.grant, l.fault);
  }
}
