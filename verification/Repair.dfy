/**
 * Crash convergence over runs: an undisturbed pass always ends, ends well, and leaves the
 * builder's objects at their render; a second one changes nothing but timestamps.
 */
module Repair {
  import opened Prelude
  import opened Types
  import opened Idle
  import opened Certificates
  import opened Conditions
  import opened Render
  import opened Store
  import opened Pass
  import opened Machine
  import opened Webhook
  import opened CaAgreement
  import opened Convergence

  // -- Every pass ends -----------------------------------------------------------------------

  const MAX_STEPS := 40

  function ChildRank(child: Child): nat {
    match child
    case ConfigMap => 36
    case Headless => 34
    case Client => 32
    case Ingress => 20
    case Cache => 16
    case Workload(_, _) => 12
  }

  /** A bound on the steps a position still has to make. */
  function Rank(pc: Pc): nat {
    match pc
    case Start(_, _) => 40
    case ReadTemplate(_, _, _) => 39
    case Find(_, child) => ChildRank(child)
    case Make(_, child) => ChildRank(child) - 1
    case Replace(_, child, _) => ChildRank(child) - 1
    case DropRoute(_) => 24
    case DropCert(_) => 23
    case FindCa(_) => 28
    case GenerateCaKey(_) => 27
    case MakeCa(_, _) => 26
    case RefindCa(_) => 25
    case FindCert(_, _) => 24
    case SignCert(_, _, _) => 23
    case MakeCert(_, _, _) => 22
    case ReplaceCert(_, _, _, _) => 22
    case Decide(_) => 14
    case ReadPods(_, _, _) => 10
    case ReadPort(_, _) => 9
    case Publish(_, _, _, _) => 8
    case Finished(_) => 0
    case Failed(_) => 0
  }

  lemma ChildRankFalls(pc: Pc, r: Response, now: int, key: nat)
    requires AtChild(pc)
    ensures Rank(Hear(pc, r, now, key)) < Rank(pc)
  {
  }

  lemma OtherRankFalls(pc: Pc, r: Response, now: int, key: nat)
    requires !Ended(pc) && !AtChild(pc)
    ensures Rank(Hear(pc, r, now, key)) < Rank(pc)
  {
    hide RenewedSecret, GenerateCa, DesiredReplicas, NeedsRenewal, EndpointOf;
  }

  /** Whatever a pass hears, it gets closer to its end: no pass loops. */
  lemma RankFalls(pc: Pc, r: Response, now: int, key: nat)
    requires !Ended(pc)
    ensures Rank(Hear(pc, r, now, key)) < Rank(pc) <= MAX_STEPS
  {
    hide Hear;
    if AtChild(pc) {
      ChildRankFalls(pc, r, now, key);
    } else {
      OtherRankFalls(pc, r, now, key);
    }
  }

  // -- Undisturbed passes --------------------------------------------------------------------

  /**
   * The worker's own calls are answered fresh and without fault; everybody else leaves the
   * builder and its children alone, and may do anything to the rest of the store.
   */
  ghost predicate Undisturbed(s: System, l: Label, id: nat, ns: string, name: string) {
    if l.Act? && l.id == id then l.fault.NoFault? && l.lag == 0 && l.grant.nodePort > 0
    else AllSame(s.now, Step(s, l).now, ns, name) && (l.Spawn? || l.Crash? ==> l.id != id)
  }

  ghost predicate Calm(id: nat, ns: string, name: string, s: System, labels: seq<Label>)
    decreases |labels|
  {
    labels != [] ==>
      && Undisturbed(s, labels[0], id, ns, name)
      && Calm(id, ns, name, Step(s, labels[0]), labels[1..])
  }

  /** Passes of other builders, unless a Service name is shared, never disturb. */
  lemma OtherPassesAreCalm(s: System, l: Label, ns: string, name: string)
    requires l.Act? && Active(s, l.id)
    requires HasJob(s.workers[l.id]) ==>
               var b := s.workers[l.id].job.b; (b.ns, b.name) != (ns, name) && (b.ns == ns ==> !Collide(b.name, name))
    ensures AllSame(s.now, Step(s, l).now, ns, name)
  {
    forall k | k in OwnKeys(ns, name)
      ensures SameAt(s.now, Step(s, l).now, k)
    {
      if HasJob(s.workers[l.id]) {
        PassesDoNotInterfere(s, l, ns, name, k);
      } else {
        StepTouchesTarget(s, l, k);
      }
    }
    forall n
      ensures SameAt(s.now, Step(s, l).now, Key(Templates, ns, n))
    {
      PassWritesItsOwn(s.workers[l.id]);
      StepTouchesTarget(s, l, Key(Templates, ns, n));
    }
  }

  lemma CalmStepProgresses(w0: World, s: System, l: Label, id: nat, ns: string, name: string)
    requires id in s.workers && Progress(w0, s.now, ns, name, s.workers[id])
    requires Undisturbed(s, l, id, ns, name)
    ensures id in Step(s, l).workers && Progress(w0, Step(s, l).now, ns, name, Step(s, l).workers[id])
  {
    hide Progress, Hear;
    if l.Act? && l.id == id {
      if Active(s, id) {
        var (next, r) := Reply(s, l);
        OwnStepProgresses(w0, s.now, next, ns, name, s.workers[id], r, l.grant);
      }
    } else {
      if l.Act? && Active(s, l.id) {
        HandleKeepsClock(s.now, Seen(s, l.lag), Ask(s.workers[l.id]), l.grant, l.fault);
      }
      ProgressStays(w0, s.now, Step(s, l).now, ns, name, s.workers[id]);
    }
  }

  lemma {:induction false} CalmRunProgresses(w0: World, s: System, labels: seq<Label>, id: nat, ns: string,
                                             name: string)
    requires id in s.workers && Progress(w0, s.now, ns, name, s.workers[id])
    requires Calm(id, ns, name, s, labels)
    ensures var e := Run(s, labels); id in e.workers && Progress(w0, e.now, ns, name, e.workers[id])
    decreases |labels|
  {
    if labels != [] {
      CalmStepProgresses(w0, s, labels[0], id, ns, name);
      CalmRunProgresses(w0, Step(s, labels[0]), labels[1..], id, ns, name);
    }
  }

  // -- Convergence ---------------------------------------------------------------------------

  /** All children are settled and the StatefulSet is rendered with the mode's replica count. */
  predicate Converged(w0: World, w: World, job: Job, n: int32) {
    StagesSettled(w0, w, job, 7) && WorkloadStored(w, job, n)
  }

  /** What a pass that began in `w0` and ended well with `outcome` in `w` leaves behind. */
  predicate EndsConverged(w0: World, w: World, ns: string, name: string, outcome: Outcome) {
    match outcome
    case Waiting(job) =>
      (job.b.ns, job.b.name) == (ns, name) && WorksFrom(w0, job) && job.since <= w.clock
          && job.b.spec.mode == PERSISTENT
      && Converged(w0, w, job, PersistentReplicas(job.b)) && BuilderCurrent(w, job)
    case Reported(job, r, port, t) =>
      (job.b.ns, job.b.name) == (ns, name) && WorksFrom(w0, job) && job.since <= w.clock && KnownMode(job.b)
      && Converged(w0, w, job, r.desired) && RightCount(w, job, r.desired, r.at)
      && ReportFits(job, r) && port == StoredPort(w, ns, name)
      && Holds(w, BuilderKey(ns, name), BuilderObject(job.b.(status := StatusOf(job.b, r, port, t))))
    case _ => true
  }

  lemma StartMakesProgress(w: World, ns: string, name: string)
    ensures Progress(w, w, ns, name, Start(ns, name))
  {
  }

  lemma ProgressEnds(w0: World, w: World, ns: string, name: string, outcome: Outcome)
    requires Progress(w0, w, ns, name, Finished(outcome))
    ensures EndsConverged(w0, w, ns, name, outcome)
  {
  }

  /**
   * Crash convergence. Whatever the store looked like when the pass began, once it ends well all
   * children are at their render, with addresses, claim and fresh certificate of the start kept,
   * and the status, if one was due, is stored as reported.
   */
  lemma CompletePassConverges(s: System, labels: seq<Label>, id: nat, ns: string, name: string)
    requires id in s.workers && s.workers[id] == Start(ns, name)
    requires Calm(id, ns, name, s, labels)
    ensures var e := Run(s, labels);
            && id in e.workers
            && (e.workers[id].Finished? ==> EndsConverged(s.now, e.now, ns, name, e.workers[id].outcome))
  {
    hide Progress, Calm, EndsConverged, Step;
    StartMakesProgress(s.now, ns, name);
    CalmRunProgresses(s.now, s, labels, id, ns, name);
    var e := Run(s, labels);
    if e.workers[id].Finished? {
      ProgressEnds(s.now, e.now, ns, name, e.workers[id].outcome);
    }
  }

  // -- Undisturbed passes end well -----------------------------------------------------------

  /** A validated, live builder of a known mode whose template, if it names one, exists. */
  predicate Repairable(w: World, ns: string, name: string) {
    var k := BuilderKey(ns, name);
    && k in w.objects && w.objects[k].obj.BuilderObject?
    && var b := w.objects[k].obj.builder;
       && (b.ns, b.name) == (ns, name) && KnownMode(b) && !b.deleting && Validate(b.spec).None?
       && (b.spec.templateRef.Some? ==>
             var t := Key(Templates, ns, b.spec.templateRef.value);
             t in w.objects && w.objects[t].obj.TemplateObject?)
  }

  /** What a position needs so as not to fail: its builder validated, and no CA vanishing under it. */
  predicate OnTrack(w: World, ns: string, pc: Pc) {
    && !pc.Failed?
    && (pc.Finished? ==> pc.outcome.Waiting? || pc.outcome.Reported?)
    && (HasJob(pc) ==> Validate(pc.job.b.spec).None?)
    && (pc.RefindCa? ==> CaKey(ns) in w.objects)
  }

  lemma OwnStepStaysOnTrack(w0: World, w: World, later: World, ns: string, name: string, pc: Pc, r: Response,
                            grant: Grant)
    requires !Ended(pc) && Progress(w0, w, ns, name, pc) && Served(w, later, pc, r, grant)
    requires OnTrack(w, ns, pc) && Repairable(w, ns, name)
    requires ReadableCa(w, ns) && (TlsKey(ns, name) in w.objects ==> w.objects[TlsKey(ns, name)].obj.SecretObject?)
    ensures OnTrack(later, ns, Hear(pc, r, w.clock, grant.key))
  {
    hide Progress, Served, Hear;
    if pc.Find? || pc.Make? || pc.Replace? {
      ChildStaysOnTrack(w0, w, later, ns, name, pc, r, grant);
    } else if pc.Start? || pc.ReadTemplate? {
      StartStaysOnTrack(w0, w, later, ns, name, pc, r, grant);
    } else if pc.FindCa? || pc.GenerateCaKey? || pc.MakeCa? || pc.RefindCa? {
      CaStaysOnTrack(w0, w, later, ns, name, pc, r, grant);
    } else if pc.FindCert? || pc.SignCert? || pc.MakeCert? || pc.ReplaceCert? {
      CertStaysOnTrack(w0, w, later, ns, name, pc, r, grant);
    } else if pc.DropRoute? || pc.DropCert? || pc.Decide? {
      DropStaysOnTrack(w0, w, later, ns, name, pc, r, grant);
    } else if pc.Publish? {
      PublishStaysOnTrack(w0, w, later, ns, name, pc, r, grant);
    } else if pc.ReadPods? {
      PodsStayOnTrack(w0, w, later, ns, name, pc, r, grant);
    } else {
      PortStaysOnTrack(w0, w, later, ns, name, pc, r, grant);
    }
  }

  lemma CaStaysOnTrack(w0: World, w: World, later: World, ns: string, name: string, pc: Pc, r: Response, grant: Grant)
    requires pc.FindCa? || pc.GenerateCaKey? || pc.MakeCa? || pc.RefindCa?
    requires Progress(w0, w, ns, name, pc) && Served(w, later, pc, r, grant)
    requires OnTrack(w, ns, pc) && ReadableCa(w, ns)
    ensures OnTrack(later, ns, Hear(pc, r, w.clock, grant.key))
  {
    hide StatusOf, ChildObject, Overwrite, StagesSettled, StagesUntouched;
  }

  lemma CertStaysOnTrack(w0: World, w: World, later: World, ns: string, name: string, pc: Pc, r: Response, grant: Grant)
    requires pc.FindCert? || pc.SignCert? || pc.MakeCert? || pc.ReplaceCert?
    requires Progress(w0, w, ns, name, pc) && Served(w, later, pc, r, grant) && OnTrack(w, ns, pc)
    requires TlsKey(ns, name) in w.objects ==> w.objects[TlsKey(ns, name)].obj.SecretObject?
    ensures OnTrack(later, ns, Hear(pc, r, w.clock, grant.key))
  {
    hide StagesSettled, StagesUntouched;
    assert pc.MakeCert? || pc.ReplaceCert? ==> r == Done;
  }

  lemma DropStaysOnTrack(w0: World, w: World, later: World, ns: string, name: string, pc: Pc, r: Response, grant: Grant)
    requires pc.DropRoute? || pc.DropCert? || pc.Decide?
    requires Progress(w0, w, ns, name, pc) && Served(w, later, pc, r, grant) && OnTrack(w, ns, pc)
    ensures OnTrack(later, ns, Hear(pc, r, w.clock, grant.key))
  {
    hide Progress, ChildObject, StatusOf, RenewedSecret;
    assert pc.DropCert? ==> !AfterExposure(pc.job).Failed? && HasJob(AfterExposure(pc.job));
  }

  lemma PodsStayOnTrack(w0: World, w: World, later: World, ns: string, name: string, pc: Pc, r: Response, grant: Grant)
    requires pc.ReadPods?
    requires Progress(w0, w, ns, name, pc) && Served(w, later, pc, r, grant) && OnTrack(w, ns, pc)
    ensures OnTrack(later, ns, Hear(pc, r, w.clock, grant.key))
  {
    hide Progress, ChildObject, StatusOf;
    assert r.Listed?;
  }

  lemma PortStaysOnTrack(w0: World, w: World, later: World, ns: string, name: string, pc: Pc, r: Response, grant: Grant)
    requires pc.ReadPort?
    requires Progress(w0, w, ns, name, pc) && Served(w, later, pc, r, grant) && OnTrack(w, ns, pc)
    ensures OnTrack(later, ns, Hear(pc, r, w.clock, grant.key))
  {
    hide Progress, ChildObject, StatusOf;
  }

  lemma PublishStaysOnTrack(w0: World, w: World, later: World, ns: string, name: string, pc: Pc, r: Response,
                            grant: Grant)
    requires pc.Publish?
    requires Progress(w0, w, ns, name, pc) && Served(w, later, pc, r, grant) && OnTrack(w, ns, pc)
    ensures OnTrack(later, ns, Hear(pc, r, w.clock, grant.key))
  {
    hide Progress, StatusOf;
    ProgressKnowsBuilder(w0, w, ns, name, pc);
  }

  lemma StartStaysOnTrack(w0: World, w: World, later: World, ns: string, name: string, pc: Pc, r: Response,
                          grant: Grant)
    requires pc.Start? || pc.ReadTemplate?
    requires Progress(w0, w, ns, name, pc) && Served(w, later, pc, r, grant) && Repairable(w, ns, name)
    ensures OnTrack(later, ns, Hear(pc, r, w.clock, grant.key))
  {
  }

  lemma ChildStaysOnTrack(w0: World, w: World, later: World, ns: string, name: string, pc: Pc, r: Response,
                          grant: Grant)
    requires pc.Find? || pc.Make? || pc.Replace?
    requires Progress(w0, w, ns, name, pc) && Served(w, later, pc, r, grant) && OnTrack(w, ns, pc)
    ensures OnTrack(later, ns, Hear(pc, r, w.clock, grant.key))
  {
    hide Progress, ChildObject, StatusOf, ChildSettled;
    if !pc.Find? {
      WriteSettles(w0, w, later, ns, name, pc, r, grant);
    }
    PassKeepsJob(pc, r, w.clock, grant.key);
    if pc.child.Client? {
      assert ValidateExposure(pc.job.b.spec).None?;
    }
  }

  /** Templates are nobody's child: no pass writes them. */
  lemma CalmStepKeepsTemplates(s: System, l: Label, id: nat, ns: string, name: string)
    requires Undisturbed(s, l, id, ns, name)
    ensures SameTemplates(s.now, Step(s, l).now, ns)
  {
    if l.Act? && l.id == id {
      forall n
        ensures SameAt(s.now, Step(s, l).now, Key(Templates, ns, n))
      {
        if Active(s, id) {
          PassWritesItsOwn(s.workers[id]);
        }
        StepTouchesTarget(s, l, Key(Templates, ns, n));
      }
    }
  }

  lemma PublishKeepsRepairable(w: World, seen: World, pc: Pc, grant: Grant, fault: Fault, ns: string, name: string)
    requires pc.Publish? && (pc.job.b.ns, pc.job.b.name) == (ns, name) && Repairable(w, ns, name)
    ensures Repairable(Handle(w, seen, Ask(pc), grant, fault).0, ns, name)
  {
    hide StatusOf;
  }

  lemma SameKeepsRepairable(w: World, later: World, ns: string, name: string)
    requires Repairable(w, ns, name) && SameAt(w, later, BuilderKey(ns, name)) && SameTemplates(w, later, ns)
    ensures Repairable(later, ns, name)
  {
    var b := w.objects[BuilderKey(ns, name)].obj.builder;
    assert SameAt(w, later, Key(Templates, ns, b.spec.templateRef.GetOr("")));
  }

  /** Neither an undisturbed pass nor anybody else makes the builder irreparable. */
  lemma UndisturbedStaysRepairable(s: System, l: Label, id: nat, ns: string, name: string)
    requires Repairable(s.now, ns, name) && Undisturbed(s, l, id, ns, name)
    ensures Repairable(Step(s, l).now, ns, name)
  {
    hide Repairable, Serve, Hear, ChildObject, StatusOf;
    var k := BuilderKey(ns, name);
    CalmStepKeepsTemplates(s, l, id, ns, name);
    assert k in OwnKeys(ns, name);
    if l.Act? && l.id == id && Active(s, id) && Target(Ask(s.workers[id])) == Some(k) {
      BuilderIsOnlyPublished(s.workers[id], ns, name);
      PublishKeepsRepairable(s.now, Seen(s, l.lag), s.workers[id], l.grant, l.fault, ns, name);
    } else {
      if l.Act? && l.id == id {
        StepTouchesTarget(s, l, k);
      }
      SameKeepsRepairable(s.now, Step(s, l).now, ns, name);
    }
  }

  function OwnSteps(id: nat, labels: seq<Label>): nat
    decreases |labels|
  {
    if labels == [] then 0
    else (if labels[0].Act? && labels[0].id == id then 1 else 0) + OwnSteps(id, labels[1..])
  }

  lemma StepStaysOnTrack(w0: World, s: System, l: Label, id: nat, ns: string, name: string)
    requires id in s.workers && Progress(w0, s.now, ns, name, s.workers[id]) && OnTrack(s.now, ns, s.workers[id])
    requires Agreed(s, ns) && Undisturbed(s, l, id, ns, name) && Repairable(s.now, ns, name)
    requires l.Outside? ==> CaRespected(s.now, l.next, ns)
    ensures id in Step(s, l).workers && OnTrack(Step(s, l).now, ns, Step(s, l).workers[id])
    ensures Rank(Step(s, l).workers[id]) <= Rank(s.workers[id])
    ensures l.Act? && l.id == id && !Ended(s.workers[id]) ==> Rank(Step(s, l).workers[id]) < Rank(s.workers[id])
  {
    hide Progress, Serve, Hear, Rank;
    if l.Act? && l.id == id {
      if Active(s, id) {
        var (next, r) := Reply(s, l);
        if TlsKey(ns, name) in s.now.objects {
          assert IssuedByStored(s.now, ns, s.now.objects[TlsKey(ns, name)].obj);
        }
        OwnStepStaysOnTrack(w0, s.now, next, ns, name, s.workers[id], r, l.grant);
        RankFalls(s.workers[id], r, s.now.clock, l.grant.key);
      }
    } else if l.Act? {
      CaStep(s, l, ns);
    }
  }

  lemma {:induction false} RepairProceeds(w0: World, s: System, labels: seq<Label>, id: nat, ns: string, name: string)
    requires id in s.workers && Progress(w0, s.now, ns, name, s.workers[id]) && OnTrack(s.now, ns, s.workers[id])
    requires Repairable(s.now, ns, name) && Agreed(s, ns)
    requires Calm(id, ns, name, s, labels) && CaLeftAlone(ns, s, labels)
    ensures var e := Run(s, labels);
            && id in e.workers && OnTrack(e.now, ns, e.workers[id])
            && (OwnSteps(id, labels) >= Rank(s.workers[id]) ==> e.workers[id].Finished?)
    decreases |labels|
  {
    hide Progress, Undisturbed, Agreed, Repairable, CaRespected;
    if labels != [] {
      StepStaysOnTrack(w0, s, labels[0], id, ns, name);
      CalmStepProgresses(w0, s, labels[0], id, ns, name);
      UndisturbedStaysRepairable(s, labels[0], id, ns, name);
      StepAgrees(s, labels[0], ns);
      RepairProceeds(w0, Step(s, labels[0]), labels[1..], id, ns, name);
    }
  }

  lemma StartIsOnTrack(w: World, ns: string, name: string)
    ensures OnTrack(w, ns, Start(ns, name)) && Rank(Start(ns, name)) == MAX_STEPS
  {
  }

  /**
   * Repair always completes. Whatever earlier passes left behind, an undisturbed pass over a
   * repairable builder never fails, and within 40 of its own steps it ends with everything
   * converged, however other workers and the environment interleave with it.
   */
  lemma RepairCompletes(s: System, labels: seq<Label>, id: nat, ns: string, name: string)
    requires id in s.workers && s.workers[id] == Start(ns, name)
    requires Repairable(s.now, ns, name) && Agreed(s, ns)
    requires Calm(id, ns, name, s, labels) && CaLeftAlone(ns, s, labels)
    ensures var e := Run(s, labels);
            && id in e.workers && !e.workers[id].Failed?
            && (e.workers[id].Finished? ==>
                  var o := e.workers[id].outcome;
                  (o.Waiting? || o.Reported?) && EndsConverged(s.now, e.now, ns, name, o))
            && (OwnSteps(id, labels) >= MAX_STEPS ==> e.workers[id].Finished?)
  {
    hide Progress, Calm, CaLeftAlone, EndsConverged, Step, Agreed, Repairable, Rank;
    StartMakesProgress(s.now, ns, name);
    StartIsOnTrack(s.now, ns, name);
    RepairProceeds(s.now, s, labels, id, ns, name);
    CompletePassConverges(s, labels, id, ns, name);
  }

  // -- Host agreement ------------------------------------------------------------------------

  /**
   * For an exposed builder one host name is everywhere: in the annotation and the subject name of
   * the stored certificate, in the route, and in the external endpoint of the status. For an
   * unexposed one none of them is left.
   */
  predicate OneHost(w: World, ns: string, name: string) {
    var k := BuilderKey(ns, name);
    && k in w.objects && w.objects[k].obj.BuilderObject?
    && var b := w.objects[k].obj.builder;
       if Exposed(b) then
         var tls, route, host := TlsKey(ns, name), RouteKey(ns, name), HostOf(b);
         && host != ""
         && tls in w.objects && w.objects[tls].obj.SecretObject?
         && Lookup(w.objects[tls].obj.secret.annotations, CERT_HOST) == host
         && Parse(w.objects[tls].obj.secret.data, TLS_CRT, TLS_KEY).Some?
         && Parse(w.objects[tls].obj.secret.data, TLS_CRT, TLS_KEY).value.0.san == host
         && route in w.objects && w.objects[route].obj.RouteObject?
         && w.objects[route].obj.route.rule == SniRule(host)
         && b.status.externalEndpoint == "tcp://" + host + ":443"
         && b.status.tlsSecretName == tls.name
       else
         && TlsKey(ns, name) !in w.objects && RouteKey(ns, name) !in w.objects
         && b.status.externalEndpoint == "" && b.status.tlsSecretName == ""
  }

  /** The host agrees with itself wherever the children and the status hold it. */
  predicate HostSettled(w: World, ns: string, name: string, b: Builder, status: Status) {
    && Holds(w, BuilderKey(ns, name), BuilderObject(b.(status := status)))
    && status.externalEndpoint == ExternalEndpoint(b) && status.tlsSecretName == StatusTlsSecret(b)
    && if Exposed(b) then
         && HostOf(b) != "" && Holds(w, RouteKey(ns, name), RouteObject(RouteFor(b)))
         && TlsKey(ns, name) in w.objects && w.objects[TlsKey(ns, name)].obj.SecretObject?
         && Lookup(w.objects[TlsKey(ns, name)].obj.secret.annotations, CERT_HOST) == HostOf(b)
       else TlsKey(ns, name) !in w.objects && RouteKey(ns, name) !in w.objects
  }

  lemma ProgressSettlesHost(w0: World, w: World, ns: string, name: string, o: Outcome)
    requires o.Reported? && Progress(w0, w, ns, name, Finished(o))
    ensures HostSettled(w, ns, name, o.job.b, StatusOf(o.job.b, o.report, o.port, o.now))
  {
    hide Progress, StatusOf, StatefulSetFor, ServiceSettled, ClaimSettled;
    ProgressEnds(w0, w, ns, name, o);
    StatusNamesHost(o.job.b, o.report, o.port, o.now);
  }

  lemma SettledHostIsOne(w: World, ns: string, name: string, b: Builder, status: Status)
    requires HostSettled(w, ns, name, b, status) && b.name == name
    requires AllIssued(w, ns)
    ensures OneHost(w, ns, name)
  {
    if Exposed(b) {
      assert IssuedByStored(w, ns, w.objects[TlsKey(ns, name)].obj);
    }
  }

  lemma ProgressAgreesOnHost(w0: World, s: System, id: nat, ns: string, name: string)
    requires id in s.workers && s.workers[id].Finished? && s.workers[id].outcome.Reported?
    requires Progress(w0, s.now, ns, name, s.workers[id]) && Agreed(s, ns)
    ensures OneHost(s.now, ns, name)
  {
    hide Progress, OneCa, AllInformed, ReadableCa, AllIssued, HostSettled, OneHost;
    var o := s.workers[id].outcome;
    ReportNamesBuilder(w0, s.now, ns, name, o);
    ProgressSettlesHost(w0, s.now, ns, name, o);
    SettledHostIsOne(s.now, ns, name, o.job.b, StatusOf(o.job.b, o.report, o.port, o.now));
  }

  lemma ReportNamesBuilder(w0: World, w: World, ns: string, name: string, o: Outcome)
    requires o.Reported? && Progress(w0, w, ns, name, Finished(o))
    ensures (o.job.b.ns, o.job.b.name) == (ns, name)
  {
  }

  lemma StatusNamesHost(b: Builder, r: Report, port: int, now: int)
    ensures var status := StatusOf(b, r, port, now);
            status.externalEndpoint == ExternalEndpoint(b) && status.tlsSecretName == StatusTlsSecret(b)
  {
  }

  /**
   * Host agreement: whatever the store looked like, an undisturbed pass that reports leaves one
   * host name everywhere, or none.
   */
  lemma HostsAgree(s: System, labels: seq<Label>, id: nat, ns: string, name: string)
    requires id in s.workers && s.workers[id] == Start(ns, name)
    requires Calm(id, ns, name, s, labels)
    requires Agreed(s, ns) && CaLeftAlone(ns, s, labels)
    requires var e := Run(s, labels); id in e.workers && e.workers[id].Finished? && e.workers[id].outcome.Reported?
    ensures OneHost(Run(s, labels).now, ns, name)
  {
    hide Progress, Calm, Agreed, CaLeftAlone, OneHost, Step;
    StartMakesProgress(s.now, ns, name);
    CalmRunProgresses(s.now, s, labels, id, ns, name);
    SecretsChainToCa(s, labels, ns);
    ProgressAgreesOnHost(s.now, Run(s, labels), id, ns, name);
  }

  /**
   * Both Services are up: the headless one without a cluster IP of its own unless it was found
   * with one in `w0`, the client one with a node port, which the status shows.
   */
  predicate Published(w0: World, w: World, ns: string, name: string) {
    var k, client, headless := BuilderKey(ns, name), ClientKey(ns, name), HeadlessKey(ns, name);
    && k in w.objects && w.objects[k].obj.BuilderObject?
    && client in w.objects && w.objects[client].obj.ServiceObject?
    && headless in w.objects && w.objects[headless].obj.ServiceObject?
    && var port := w.objects[client].obj.service.nodePort;
       && port != 0 && (port > 0 ==> w.objects[k].obj.builder.status.nodePort == port)
       && (headless !in w0.objects ==> w.objects[headless].obj.service.clusterIp == "None")
  }

  lemma ProgressPublishes(w0: World, s: System, id: nat, ns: string, name: string)
    requires id in s.workers && s.workers[id].Finished? && s.workers[id].outcome.Reported?
    requires Progress(w0, s.now, ns, name, s.workers[id])
    ensures Published(w0, s.now, ns, name)
  {
    hide StatefulSetFor, CertSettled, ClaimSettled, RouteSettled, StatusOf;
    var o := s.workers[id].outcome;
    StatusNamesPort(o.job.b, o.report, o.port, o.now);
    assert StagesSettled(w0, s.now, o.job, 7);
    assert ServiceSettled(w0, s.now, ClientKey(ns, name), ClientService(o.job.b));
  }

  lemma StatusNamesPort(b: Builder, r: Report, port: int, now: int)
    ensures StatusOf(b, r, port, now).nodePort == port
  {
  }

  /** Whatever the store looked like, an undisturbed pass that reports leaves both Services published. */
  lemma ServicesArePublished(s: System, labels: seq<Label>, id: nat, ns: string, name: string)
    requires id in s.workers && s.workers[id] == Start(ns, name)
    requires Calm(id, ns, name, s, labels)
    requires var e := Run(s, labels); id in e.workers && e.workers[id].Finished? && e.workers[id].outcome.Reported?
    ensures Published(s.now, Run(s, labels).now, ns, name)
  {
    hide Progress, Calm, Published, Step;
    StartMakesProgress(s.now, ns, name);
    CalmRunProgresses(s.now, s, labels, id, ns, name);
    ProgressPublishes(s.now, Run(s, labels), id, ns, name);
  }

  // -- A second pass -------------------------------------------------------------------------

  /** Two jobs render alike: the builder differs at most in its status. */
  predicate SameRender(a: Job, b: Job) {
    a.b.(status := b.b.status) == b.b && a.spec == b.spec
  }

  /**
   * A second pass changes nothing: when two passes in a row converge on the same builder and
   * template with the same replica count, and the certificate is not yet due, every child has
   * the same content after the second pass as before it.
   */
  lemma SecondPassChangesNothing(w0: World, w1: World, w2: World, first: Job, second: Job, n: int32)
    requires Converged(w0, w1, first, n) && Converged(w1, w2, second, n)
    requires SameRender(first, second)
    requires Exposed(first.b) ==>
               !NeedsRenewal(w1.objects[TlsKey(first.b.ns, first.b.name)].obj.secret, HostOf(first.b), w2.clock)
    ensures forall k | k in ChildKeys(first.b.ns, first.b.name) :: SameContent(w1, w2, k)
  {
  }

  predicate SameReport(a: Report, b: Report) {
    a.(at := b.at, scaledAt := None) == b.(scaledAt := None) && (a.scaledAt.Some? <==> b.scaledAt.Some?)
  }

  /** Recording the same report again over its own status moves timestamps and nothing else. */
  lemma SecondReportChangesOnlyTimes(b: Builder, r1: Report, r2: Report, port: int, t1: int, t2: int)
    requires SameReport(r1, r2)
    ensures var s1 := StatusOf(b, r1, port, t1);
            SameStatus(StatusOf(b.(status := s1), r2, port, t2), s1)
  {
    var s1 := StatusOf(b, r1, port, t1);
    var again := b.(status := s1);
    assert ExternalEndpoint(again) == ExternalEndpoint(b) && StatusTlsSecret(again) == StatusTlsSecret(b);
    var ready, why := r1.phase == READY, ReadyReason(r1.phase == READY);
    if r1.scaledAt.None? {
      var reason := if r1.endpoint != "" then "EndpointSet" else "NotSet";
      TwoConditionsAgain(b.status.conditions, READY, ready, why, "Builder ready", ENDPOINT, r1.endpoint != "",
          reason, "Endpoint set", t1, t2);
    } else {
      TwoConditionsAgain(b.status.conditions, READY, ready, why, "Builder ready", LAST_SCALED, true, "Scaled",
          "Last scaled", t1, t2);
    }
  }
}
