/**
 * The reconciler at rest: of two undisturbed passes in a row over an unchanged builder, the second
 * leaves every child as it was and moves nothing in the status but timestamps.
 */
module Fixpoint {
  import opened Types
  import opened Idle
  import opened Certificates
  import opened Conditions
  import opened Render
  import opened Store
  import opened Pass
  import opened Machine
  import opened Convergence
  import opened Repair
  import CertLifetime

  // -- Two passes in a row -------------------------------------------------------------------

  /** A pass for the builder ended well after writing its StatefulSet. */
  predicate Completed(s: System, id: nat) {
    id in s.workers && s.workers[id].Finished? && (s.workers[id].outcome.Waiting? || s.workers[id].outcome.Reported?)
  }

  function JobDone(s: System, id: nat): Job
    requires Completed(s, id)
  {
    s.workers[id].outcome.job
  }

  /** The replica count the pass stored. */
  function CountDone(s: System, id: nat): int32
    requires Completed(s, id)
  {
    match s.workers[id].outcome
    case Waiting(job) => PersistentReplicas(job.b)
    case Reported(_, r, _, _) => r.desired
  }

  lemma CompletedConverged(w0: World, s: System, id: nat, ns: string, name: string)
    requires Completed(s, id) && EndsConverged(w0, s.now, ns, name, s.workers[id].outcome)
    ensures var job := JobDone(s, id);
            && (job.b.ns, job.b.name) == (ns, name) && WorksFrom(w0, job)
            && Converged(w0, s.now, job, CountDone(s, id))
  {
  }

  /** What the second pass finds of the builder: as the first one read it, apart from the status. */
  lemma BuilderBetween(w0: World, s: System, id: nat, ns: string, name: string)
    requires Completed(s, id) && EndsConverged(w0, s.now, ns, name, s.workers[id].outcome)
    ensures var k, job := BuilderKey(ns, name), JobDone(s, id);
            && k in s.now.objects && s.now.objects[k].obj.BuilderObject?
            && var b := s.now.objects[k].obj.builder;
               b == job.b.(status := b.status)
               && (s.workers[id].outcome.Reported? ==>
                     b.status == StatusOf(job.b, s.workers[id].outcome.report, s.workers[id].outcome.port,
                         s.workers[id].outcome.now))
  {
  }

  lemma {:induction false} CalmRunKeepsTemplates(s: System, labels: seq<Label>, id: nat, ns: string, name: string)
    requires Calm(id, ns, name, s, labels)
    ensures SameTemplates(s.now, Run(s, labels).now, ns)
    decreases |labels|
  {
    if labels != [] {
      CalmStepKeepsTemplates(s, labels[0], id, ns, name);
      CalmRunKeepsTemplates(Step(s, labels[0]), labels[1..], id, ns, name);
      assert forall n :: SameAt(s.now, Step(s, labels[0]).now, Key(Templates, ns, n));
      assert forall n :: SameAt(Step(s, labels[0]).now, Run(s, labels).now, Key(Templates, ns, n));
    }
  }

  lemma TemplateKept(w: World, later: World, b: Builder, after: Builder)
    requires SameTemplates(w, later, b.ns) && after == b.(status := after.status)
    ensures TemplateOf(later, after) == TemplateOf(w, b)
  {
  }

  /** The system the second pass starts in. */
  function Again(s: System, id: nat, ns: string, name: string): System {
    Step(s, Spawn(id, ns, name))
  }

  /** Two passes of one worker in a row, neither of them disturbed, and both end well. */
  ghost predicate TwoPasses(s: System, first: seq<Label>, second: seq<Label>, id: nat, ns: string, name: string) {
    && id in s.workers && s.workers[id] == Start(ns, name)
    && Calm(id, ns, name, s, first)
    && Completed(Run(s, first), id)
    && Calm(id, ns, name, Again(Run(s, first), id, ns, name), second)
    && Completed(Run(Again(Run(s, first), id, ns, name), second), id)
  }

  function AtEnd(s: System, first: seq<Label>, second: seq<Label>, id: nat, ns: string, name: string): System {
    Run(Again(Run(s, first), id, ns, name), second)
  }

  /** Both passes converge, from the same builder and template. */
  lemma BothConverge(s: System, first: seq<Label>, second: seq<Label>, id: nat, ns: string, name: string)
    requires TwoPasses(s, first, second, id, ns, name)
    ensures var m, e := Run(s, first), AtEnd(s, first, second, id, ns, name);
            && Completed(m, id) && Completed(e, id)
            && EndsConverged(s.now, m.now, ns, name, m.workers[id].outcome)
            && EndsConverged(m.now, e.now, ns, name, e.workers[id].outcome)
            && SameRender(JobDone(m, id), JobDone(e, id))
  {
    hide EndsConverged, Calm, Step;
    var m, e := Run(s, first), AtEnd(s, first, second, id, ns, name);
    CompletePassConverges(s, first, id, ns, name);
    SpawnStarts(m, id, ns, name);
    CompletePassConverges(Again(m, id, ns, name), second, id, ns, name);
    CompletedConverged(s.now, m, id, ns, name);
    CompletedConverged(m.now, e, id, ns, name);
    BuilderBetween(s.now, m, id, ns, name);
    CalmRunKeepsTemplates(s, first, id, ns, name);
    TemplateKept(s.now, m.now, JobDone(m, id).b, JobDone(e, id).b);
  }

  lemma SpawnStarts(s: System, id: nat, ns: string, name: string)
    requires Completed(s, id)
    ensures var s' := Again(s, id, ns, name);
            s'.now == s.now && id in s'.workers && s'.workers[id] == Start(ns, name)
  {
  }

  // -- The replica count ---------------------------------------------------------------------

  /** The scaling decision is the same at the beginning and at the end. */
  predicate SameDecision(w: World, later: World, b: Builder) {
    b.spec.mode == SLEEPY ==> DesiredReplicas(b, w.clock) == DesiredReplicas(b, later.clock)
  }

  /** Then it is the same at every instant in between, and both passes store the same count. */
  lemma SameCount(w0: World, s: System, id: nat, w: World, later: World, ref: Builder)
    requires Completed(s, id) && EndsConverged(w0, s.now, ref.ns, ref.name, s.workers[id].outcome)
    requires w.clock <= w0.clock && s.now.clock <= later.clock
    requires JobDone(s, id).b == ref.(status := JobDone(s, id).b.status)
    requires SameDecision(w, later, ref)
    ensures CountDone(s, id) ==
            if ref.spec.mode == SLEEPY then DesiredReplicas(ref, w.clock) else PersistentReplicas(ref)
  {
    assert PERSISTENT[0] == 'p' && SLEEPY[0] == 's';
    if s.workers[id].outcome.Reported? && ref.spec.mode == SLEEPY {
      var at := s.workers[id].outcome.report.at;
      var b := JobDone(s, id).b;
      assert w.clock <= at <= later.clock;
      DecisionNeverRises(ref, w.clock, at);
      DecisionNeverRises(ref, at, later.clock);
      assert DesiredReplicas(b, at) == DesiredReplicas(ref, at);
    }
  }

  // -- At rest -------------------------------------------------------------------------------

  /** The stored server certificate is not due at the end. */
  predicate CertNotDue(w: World, later: World, b: Builder) {
    var k := TlsKey(b.ns, b.name);
    Exposed(b) ==>
      k in w.objects && w.objects[k].obj.SecretObject? && !NeedsRenewal(w.objects[k].obj.secret, HostOf(b), later.clock)
  }

  /**
   * A second pass changes no child: unless the scaling decision turns or the certificate comes
   * due between the two, every child has the same content after the second pass as before it.
   */
  lemma SecondPassKeepsChildren(s: System, first: seq<Label>, second: seq<Label>, id: nat, ns: string, name: string)
    requires TwoPasses(s, first, second, id, ns, name)
    requires var m, e := Run(s, first), AtEnd(s, first, second, id, ns, name);
             SameDecision(s.now, e.now, JobDone(m, id).b) && CertNotDue(m.now, e.now, JobDone(m, id).b)
    ensures var m, e := Run(s, first), AtEnd(s, first, second, id, ns, name);
            CountDone(m, id) == CountDone(e, id)
            && forall k | k in ChildKeys(ns, name) :: SameContent(m.now, e.now, k)
  {
    hide EndsConverged, Calm, Step, Converged, NeedsRenewal, DesiredReplicas;
    var m, e := Run(s, first), AtEnd(s, first, second, id, ns, name);
    BothConverge(s, first, second, id, ns, name);
    CompletedConverged(s.now, m, id, ns, name);
    CompletedConverged(m.now, e, id, ns, name);
    SpawnStarts(m, id, ns, name);
    CertLifetime.ClockMovesForward(s, first);
    CertLifetime.ClockMovesForward(Again(m, id, ns, name), second);
    var b := JobDone(m, id).b;
    SameCount(s.now, m, id, s.now, e.now, b);
    SameCount(m.now, e, id, s.now, e.now, b);
    SecondPassChangesNothing(s.now, m.now, e.now, JobDone(m, id), JobDone(e, id), CountDone(m, id));
  }

  lemma SinceIsNow(w0: World, s: System, id: nat, ns: string, name: string)
    requires Completed(s, id) && EndsConverged(w0, s.now, ns, name, s.workers[id].outcome) && s.now.clock == w0.clock
    ensures JobDone(s, id).since == w0.clock
  {
  }

  lemma SettledCertIsNotDue(w0: World, w: World, later: World, job: Job)
    requires StagesSettled(w0, w, job, 7) && later.clock == job.since
    ensures CertNotDue(w, later, job.b)
  {
  }

  /** When both passes happen at one instant, neither condition can fail. */
  lemma AtOneInstant(s: System, first: seq<Label>, second: seq<Label>, id: nat, ns: string, name: string)
    requires TwoPasses(s, first, second, id, ns, name)
    requires AtEnd(s, first, second, id, ns, name).now.clock == s.now.clock
    ensures var m, e := Run(s, first), AtEnd(s, first, second, id, ns, name);
            && SameDecision(s.now, e.now, JobDone(m, id).b)
            && CertNotDue(m.now, e.now, JobDone(m, id).b)
            && forall k | k in ChildKeys(ns, name) :: SameContent(m.now, e.now, k)
  {
    hide EndsConverged, Calm, Step, StagesSettled, NeedsRenewal, DesiredReplicas;
    var m, e := Run(s, first), AtEnd(s, first, second, id, ns, name);
    BothConverge(s, first, second, id, ns, name);
    CompletedConverged(s.now, m, id, ns, name);
    SpawnStarts(m, id, ns, name);
    CertLifetime.ClockMovesForward(s, first);
    CertLifetime.ClockMovesForward(Again(m, id, ns, name), second);
    SinceIsNow(s.now, m, id, ns, name);
    SettledCertIsNotDue(s.now, m.now, e.now, JobDone(m, id));
    SecondPassKeepsChildren(s, first, second, id, ns, name);
  }

  /**
   * The status after a second pass: when both passes reported, and found the same pods, it differs
   * from the one before in timestamps only; when the second only waits, it is untouched.
   */
  lemma SecondPassKeepsStatus(s: System, first: seq<Label>, second: seq<Label>, id: nat, ns: string, name: string)
    requires TwoPasses(s, first, second, id, ns, name)
    requires var m, e := Run(s, first), AtEnd(s, first, second, id, ns, name);
             && SameDecision(s.now, e.now, JobDone(m, id).b) && CertNotDue(m.now, e.now, JobDone(m, id).b)
             && (e.workers[id].outcome.Reported? ==>
                   m.workers[id].outcome.Reported?
                   && m.workers[id].outcome.report.endpoint == e.workers[id].outcome.report.endpoint
                   && m.workers[id].outcome.report.ready == e.workers[id].outcome.report.ready)
    ensures var m, e, k := Run(s, first), AtEnd(s, first, second, id, ns, name), BuilderKey(ns, name);
            && k in m.now.objects && m.now.objects[k].obj.BuilderObject?
            && k in e.now.objects && e.now.objects[k].obj.BuilderObject?
            && var b, b' := m.now.objects[k].obj.builder, e.now.objects[k].obj.builder;
               b' == b.(status := b'.status)
               && SameStatus(b'.status, b.status)
               && (e.workers[id].outcome.Waiting? ==> b' == b)
  {
    var m, e := Run(s, first), AtEnd(s, first, second, id, ns, name);
    BothConverge(s, first, second, id, ns, name);
    SecondPassKeepsChildren(s, first, second, id, ns, name);
    StatusAtRest(s.now, m, e, id, ns, name);
  }

  lemma StatusAtRest(w0: World, m: System, e: System, id: nat, ns: string, name: string)
    requires Completed(m, id) && Completed(e, id)
    requires EndsConverged(w0, m.now, ns, name, m.workers[id].outcome)
             && EndsConverged(m.now, e.now, ns, name, e.workers[id].outcome)
    requires CountDone(m, id) == CountDone(e, id) && SameContent(m.now, e.now, ClientKey(ns, name))
    requires e.workers[id].outcome.Reported? ==>
               m.workers[id].outcome.Reported?
               && m.workers[id].outcome.report.endpoint == e.workers[id].outcome.report.endpoint
               && m.workers[id].outcome.report.ready == e.workers[id].outcome.report.ready
    ensures var k := BuilderKey(ns, name);
            && k in m.now.objects && m.now.objects[k].obj.BuilderObject?
            && k in e.now.objects && e.now.objects[k].obj.BuilderObject?
            && var b, b' := m.now.objects[k].obj.builder, e.now.objects[k].obj.builder;
               b' == b.(status := b'.status)
               && SameStatus(b'.status, b.status)
               && (e.workers[id].outcome.Waiting? ==> b' == b)
  {
    BuilderBetween(w0, m, id, ns, name);
    BuilderBetween(m.now, e, id, ns, name);
    match e.workers[id].outcome {
      case Waiting(job) =>
      case Reported(job, r2, port, t2) =>
        var first := m.workers[id].outcome;
        assert first.port == port;
        assert job.b == first.job.b.(status := StatusOf(first.job.b, first.report, first.port, first.now));
        SecondReportChangesOnlyTimes(first.job.b, first.report, r2, port, first.now, t2);
    }
  }
}
