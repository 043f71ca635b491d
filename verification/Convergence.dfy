/**
 * Level-triggered repair: from any store whatsoever, one complete undisturbed pass leaves the
 * builder's children equal to a render of the builder, its resolved spec and the clock, keeping
 * assigned addresses, a fresh certificate and an existing claim.
 */
module Convergence {
  import opened Prelude
  import opened Types
  import opened Idle
  import opened Certificates
  import opened Conditions
  import opened Render
  import opened Store
  import opened Pass
  import opened Machine

  // -- Where a pass stands -------------------------------------------------------------------

  /** The job of a position, of a well-ended pass included. */
  function JobOf(pc: Pc): Option<Job> {
    if HasJob(pc) then Some(pc.job)
    else
      match pc
      case Finished(Waiting(job)) => Some(job)
      case Finished(Reported(job, _, _, _)) => Some(job)
      case _ => None
  }

  function ChildLevel(child: Child): nat {
    match child
    case ConfigMap => 0
    case Headless => 1
    case Client => 2
    case Ingress => 4
    case Cache => 5
    case Workload(_, _) => 6
  }

  /**
   * How many stages are behind: 1 ConfigMap, 2 headless and 3 client Service, 4 certificate, 5
   * route, 6 claim, 7 StatefulSet.
   */
  function Level(pc: Pc): nat {
    match pc
    case Start(_, _) => 0
    case ReadTemplate(_, _, _) => 0
    case Find(_, child) => ChildLevel(child)
    case Make(_, child) => ChildLevel(child)
    case Replace(_, child, _) => ChildLevel(child)
    case Decide(_) => 6
    case ReadPods(_, _, _) => 7
    case ReadPort(_, _) => 7
    case Publish(_, _, _, _) => 7
    case Finished(_) => 7
    case Failed(_) => 0
    case _ => 3
  }

  // -- What each finished stage has achieved ---------------------------------------------------

  /** Rendered up to what the server assigns; an address or port already assigned in `w0` is kept. */
  predicate ServiceSettled(w0: World, w: World, k: Key, rendered: Service) {
    && k in w.objects && w.objects[k].obj.ServiceObject?
    && var s := w.objects[k].obj.service;
       && s.kind == rendered.kind && s.selector == rendered.selector
       && (s.kind == NodePortType <==> s.nodePort != 0)
       && (k in w0.objects && w0.objects[k].obj.ServiceObject? ==>
             var s0 := w0.objects[k].obj.service;
             s.clusterIp == s0.clusterIp && (s.kind == NodePortType && s0.nodePort != 0 ==> s.nodePort == s0.nodePort))
       && (k !in w0.objects && rendered.clusterIp != "" ==> s.clusterIp == rendered.clusterIp)
  }

  predicate SecretServes(s: Secret, host: string, until: int) {
    var parsed := Parse(s.data, TLS_CRT, TLS_KEY);
    Lookup(s.annotations, CERT_HOST) == host && parsed.Some? && until <= parsed.value.0.notAfter
  }

  /** A server Secret for the host, good for 30 days from the start of the pass; one not due for renewal is kept. */
  predicate CertSettled(w0: World, w: World, job: Job) {
    var k, host := TlsKey(job.b.ns, job.b.name), HostOf(job.b);
    && host != ""
    && k in w.objects && w.objects[k].obj.SecretObject?
    && SecretServes(w.objects[k].obj.secret, host, job.since + RENEW_BEFORE)
    && (k in w0.objects && w0.objects[k].obj.SecretObject? && !NeedsRenewal(w0.objects[k].obj.secret, host, w.clock) ==>
          SameContent(w0, w, k))
  }

  predicate ClaimSettled(w0: World, w: World, job: Job) {
    var k := ClaimKey(job.b.ns, job.b.name);
    if job.spec.cache.kind == "pvc" && job.spec.cache.pvc.Some? && k !in w0.objects
    then Holds(w, k, ClaimObject(ClaimFor(job.spec.cache.pvc.value)))
    else SameContent(w0, w, k)
  }

  predicate RouteSettled(w: World, job: Job) {
    var k := RouteKey(job.b.ns, job.b.name);
    if Exposed(job.b) then Holds(w, k, RouteObject(RouteFor(job.b))) else k !in w.objects
  }

  /** The stages below `level` are settled. */
  predicate StagesSettled(w0: World, w: World, job: Job, level: nat) {
    var ns, name := job.b.ns, job.b.name;
    && (level >= 1 ==> Holds(w, ConfigMapKey(ns, name), ChildObject(job, ConfigMap)))
    && (level >= 2 ==> ServiceSettled(w0, w, HeadlessKey(ns, name), HeadlessService(job.b)))
    && (level >= 3 ==> ServiceSettled(w0, w, ClientKey(ns, name), ClientService(job.b)))
    && (level >= 4 ==> if Exposed(job.b) then CertSettled(w0, w, job) else TlsKey(ns, name) !in w.objects)
    && (level >= 5 ==> RouteSettled(w, job))
    && (level >= 6 ==> ClaimSettled(w0, w, job))
  }

  /** What later stages may keep from `w0` is still as it was. */
  predicate StagesUntouched(w0: World, w: World, ns: string, name: string, level: nat) {
    && (level < 2 ==> SameAt(w0, w, HeadlessKey(ns, name)))
    && (level < 3 ==> SameAt(w0, w, ClientKey(ns, name)))
    && (level < 4 ==> SameAt(w0, w, TlsKey(ns, name)))
    && (level < 6 ==> SameAt(w0, w, ClaimKey(ns, name)))
  }

  // -- What a position relies on -------------------------------------------------------------

  /** The replica count of the mode: fixed when persistent, decided inside the pass when sleepy. */
  predicate RightCount(w: World, job: Job, n: int, at: int) {
    if job.b.spec.mode == SLEEPY then n == DesiredReplicas(job.b, at) && job.since <= at <= w.clock
    else n == PersistentReplicas(job.b)
  }

  /** What a report says follows from mode and replica count; only the pod address and count come from outside. */
  predicate ReportFits(job: Job, r: Report) {
    if job.b.spec.mode == SLEEPY then
      && r.scaledAt.Some?
      && (r.desired == 1 ==> r.phase == READY)
      && (r.desired != 1 ==> r.phase == SCALING_DOWN && r.endpoint == "" && r.ready == 0)
    else r.scaledAt.None? && r.phase == READY && r.endpoint != ""
  }

  predicate WorkloadStored(w: World, job: Job, n: int32) {
    Holds(w, StatefulSetKey(job.b.ns, job.b.name), StatefulSetObject(StatefulSetFor(job.b, job.spec, n)))
  }

  predicate WorkloadReady(w: World, job: Job, n: int32, at: int) {
    RightCount(w, job, n, at) && WorkloadStored(w, job, n)
  }

  function StoredPort(w: World, ns: string, name: string): int {
    var k := ClientKey(ns, name);
    PortOf(if k in w.objects then Found(w.objects[k]) else Refused(NotFound))
  }

  predicate BuilderCurrent(w: World, job: Job) {
    var k := BuilderKey(job.b.ns, job.b.name);
    k in w.objects && w.objects[k] == Entry(BuilderObject(job.b), job.rv)
  }

  predicate Stored(w: World, k: Key, e: Entry) {
    k in w.objects && w.objects[k] == e
  }

  predicate ExposureChecked(b: Builder) {
    Exposed(b) && HostOf(b) != ""
  }

  /** The Secret is due for renewal and still the one stored, or there is none. */
  predicate RenewalDue(w: World, job: Job, stale: Option<Entry>) {
    var k := TlsKey(job.b.ns, job.b.name);
    match stale
    case None => k !in w.objects
    case Some(e) => Stored(w, k, e) && e.obj.SecretObject? && NeedsRenewal(e.obj.secret, HostOf(job.b), w.clock)
  }

  predicate ChildFits(w: World, job: Job, child: Child) {
    match child
    case Ingress => ExposureChecked(job.b)
    case Cache => UsesClaim(job.spec)
    case Workload(n, at) => RightCount(w, job, n, at)
    case _ => true
  }

  predicate Relies(w: World, pc: Pc) {
    match pc
    case Find(job, child) => ChildFits(w, job, child)
    case Make(job, child) => ChildFits(w, job, child) && ChildKey(job.b, child) !in w.objects
    case Replace(job, child, e) => ChildFits(w, job, child) && !child.Cache? && Stored(w, ChildKey(job.b, child), e)
    case DropRoute(job) => !Exposed(job.b)
    case DropCert(job) => !Exposed(job.b) && RouteKey(job.b.ns, job.b.name) !in w.objects
    case FindCa(job) => ExposureChecked(job.b)
    case GenerateCaKey(job) => ExposureChecked(job.b)
    case MakeCa(job, _) => ExposureChecked(job.b)
    case RefindCa(job) => ExposureChecked(job.b)
    case FindCert(job, _) => ExposureChecked(job.b)
    case SignCert(job, _, stale) => ExposureChecked(job.b) && RenewalDue(w, job, stale)
    case MakeCert(job, secret, at) =>
      ExposureChecked(job.b) && RenewalDue(w, job, None)
          && SecretServes(secret, HostOf(job.b), job.since + RENEW_BEFORE)
    case ReplaceCert(job, secret, e, at) =>
      ExposureChecked(job.b) && RenewalDue(w, job, Some(e))
          && SecretServes(secret, HostOf(job.b), job.since + RENEW_BEFORE)
    case Decide(job) => job.b.spec.mode == SLEEPY
    case ReadPods(job, n, at) => WorkloadReady(w, job, n, at) && (job.b.spec.mode == SLEEPY ==> n == 1)
    case ReadPort(job, r) => WorkloadReady(w, job, r.desired, r.at) && ReportFits(job, r)
    case Publish(job, r, port, _) =>
      && WorkloadReady(w, job, r.desired, r.at) && ReportFits(job, r)
      && port == StoredPort(w, job.b.ns, job.b.name)
    case Finished(Waiting(job)) =>
      job.b.spec.mode != SLEEPY && BuilderCurrent(w, job) && WorkloadStored(w, job, PersistentReplicas(job.b))
    case Finished(Reported(job, r, port, t)) =>
      && WorkloadReady(w, job, r.desired, r.at) && ReportFits(job, r) && port == StoredPort(w, job.b.ns, job.b.name)
      && Holds(w, BuilderKey(job.b.ns, job.b.name), BuilderObject(job.b.(status := StatusOf(job.b, r, port, t))))
    case _ => true
  }

  function OwnKeys(ns: string, name: string): set<Key> {
    ChildKeys(ns, name) + {BuilderKey(ns, name)}
  }

  ghost predicate SameTemplates(w: World, later: World, ns: string) {
    forall n :: SameAt(w, later, Key(Templates, ns, n))
  }

  /** The builder, its children and the templates of its namespace are untouched. */
  ghost predicate AllSame(w: World, later: World, ns: string, name: string) {
    (forall k | k in OwnKeys(ns, name) :: SameAt(w, later, k)) && SameTemplates(w, later, ns)
  }

  /** The template a builder names, as stored. */
  function TemplateOf(w: World, b: Builder): Option<TemplateSpec> {
    var k := Key(Templates, b.ns, b.spec.templateRef.GetOr(""));
    if b.spec.templateRef.Some? && k in w.objects && w.objects[k].obj.TemplateObject?
    then Some(w.objects[k].obj.template)
    else None
  }

  /** The pass works from the builder and template of `w0`, and began no earlier. */
  predicate WorksFrom(w0: World, job: Job) {
    w0.clock <= job.since
    && Stored(w0, BuilderKey(job.b.ns, job.b.name), Entry(BuilderObject(job.b), job.rv))
    && ResolvedSpec(job.b, TemplateOf(w0, job.b)) == Some(job.spec)
    && (job.b.spec.templateRef.Some? ==> TemplateOf(w0, job.b).Some?)
  }

  /** Nothing a pass reads before it has a job has changed. */
  ghost predicate SourcesSame(w0: World, w: World, ns: string, name: string) {
    w0.clock <= w.clock && SameAt(w0, w, BuilderKey(ns, name)) && SameTemplates(w0, w, ns)
  }

  /** How far a pass that began in `w0` has brought the builder's objects. */
  ghost predicate Progress(w0: World, w: World, ns: string, name: string, pc: Pc) {
    match JobOf(pc)
    case None =>
      || Ended(pc)
      || (BuilderOf(pc) == Some((ns, name)) && StagesUntouched(w0, w, ns, name, 0)
          && SourcesSame(w0, w, ns, name) && TemplateAwaited(w0, w, pc))
    case Some(job) => JobProgress(w0, w, ns, name, pc, job)
  }

  predicate TemplateAwaited(w0: World, w: World, pc: Pc) {
    pc.ReadTemplate? ==>
      && Stored(w, BuilderKey(pc.b.ns, pc.b.name), Entry(BuilderObject(pc.b), pc.rv))
      && w0.clock <= pc.since <= w.clock
      && pc.b.spec.templateRef.Some?
  }

  predicate JobProgress(w0: World, w: World, ns: string, name: string, pc: Pc, job: Job) {
    && (job.b.ns, job.b.name) == (ns, name)
    && job.since <= w.clock
    && KnownMode(job.b)
    && WorksFrom(w0, job)
    && (HasJob(pc) ==> BuilderCurrent(w, job))
    && StagesSettled(w0, w, job, Level(pc))
    && StagesUntouched(w0, w, ns, name, Level(pc))
    && Relies(w, pc)
  }

  lemma ProgressKnowsBuilder(w0: World, w: World, ns: string, name: string, pc: Pc)
    requires Progress(w0, w, ns, name, pc) && HasJob(pc)
    ensures (pc.job.b.ns, pc.job.b.name) == (ns, name) && BuilderCurrent(w, pc.job)
  {
  }

  // -- Other people's steps ------------------------------------------------------------------

  lemma RenewalStaysDue(s: Secret, host: string, t: int, later: int)
    requires NeedsRenewal(s, host, t) && t <= later
    ensures NeedsRenewal(s, host, later)
  {
  }

  lemma StagesStay(w0: World, w: World, later: World, job: Job, level: nat)
    requires StagesSettled(w0, w, job, level) && AllSame(w, later, job.b.ns, job.b.name) && w.clock <= later.clock
    ensures StagesSettled(w0, later, job, level)
  {
    var ns, name := job.b.ns, job.b.name;
    assert forall k | k in ChildKeys(ns, name) :: k in OwnKeys(ns, name);
    assert SameAt(w, later, ConfigMapKey(ns, name)) && SameAt(w, later, HeadlessKey(ns, name))
        && SameAt(w, later, ClientKey(ns, name));
    assert SameAt(w, later, TlsKey(ns, name)) && SameAt(w, later, RouteKey(ns, name))
        && SameAt(w, later, ClaimKey(ns, name));
    if level >= 4 && Exposed(job.b) {
      var k := TlsKey(ns, name);
      if k in w0.objects && w0.objects[k].obj.SecretObject?
          && NeedsRenewal(w0.objects[k].obj.secret, HostOf(job.b), w.clock) {
        RenewalStaysDue(w0.objects[k].obj.secret, HostOf(job.b), w.clock, later.clock);
      }
    }
  }

  lemma UntouchedStays(w0: World, w: World, later: World, ns: string, name: string, level: nat)
    requires StagesUntouched(w0, w, ns, name, level) && AllSame(w, later, ns, name)
    ensures StagesUntouched(w0, later, ns, name, level)
  {
    assert forall k | k in ChildKeys(ns, name) :: k in OwnKeys(ns, name);
    assert SameAt(w, later, HeadlessKey(ns, name)) && SameAt(w, later, ClientKey(ns, name));
    assert SameAt(w, later, TlsKey(ns, name)) && SameAt(w, later, ClaimKey(ns, name));
  }

  lemma ReliesStay(w: World, later: World, pc: Pc)
    requires JobOf(pc).Some? && Relies(w, pc) && w.clock <= later.clock
    requires AllSame(w, later, JobOf(pc).value.b.ns, JobOf(pc).value.b.name)
    ensures Relies(later, pc)
  {
    hide StatusOf, StatefulSetFor, DesiredReplicas;
    var b := JobOf(pc).value.b;
    assert SameAt(w, later, ConfigMapKey(b.ns, b.name)) && SameAt(w, later, HeadlessKey(b.ns, b.name))
        && SameAt(w, later, ClientKey(b.ns, b.name));
    assert SameAt(w, later, TlsKey(b.ns, b.name)) && SameAt(w, later, RouteKey(b.ns, b.name))
        && SameAt(w, later, ClaimKey(b.ns, b.name));
    assert SameAt(w, later, StatefulSetKey(b.ns, b.name)) && SameAt(w, later, BuilderKey(b.ns, b.name));
    if pc.SignCert? && pc.stale.Some? {
      RenewalStaysDue(pc.stale.value.obj.secret, HostOf(b), w.clock, later.clock);
    }
    if pc.ReplaceCert? {
      RenewalStaysDue(pc.seen.obj.secret, HostOf(b), w.clock, later.clock);
    }
  }

  /** A step that leaves the builder's objects alone leaves the progress of its pass alone. */
  lemma ProgressStays(w0: World, w: World, later: World, ns: string, name: string, pc: Pc)
    requires Progress(w0, w, ns, name, pc) && AllSame(w, later, ns, name) && w.clock <= later.clock
    ensures Progress(w0, later, ns, name, pc)
  {
    assert SameAt(w, later, BuilderKey(ns, name));
    match JobOf(pc)
    case None =>
      if !Ended(pc) {
        UntouchedStays(w0, w, later, ns, name, 0);
      }
    case Some(job) =>
      StagesStay(w0, w, later, job, Level(pc));
      UntouchedStays(w0, w, later, ns, name, Level(pc));
      ReliesStay(w, later, pc);
  }

  // -- The pass's own steps ------------------------------------------------------------------

  /** The server answers from the current world, without fault, and hands out real node ports. */
  predicate Served(w: World, later: World, pc: Pc, r: Response, grant: Grant) {
    (later, r) == Serve(w, w, Ask(pc), grant) && grant.nodePort > 0
  }

  /** A request that writes one key leaves the builder's other objects alone. */
  lemma OthersSame(w: World, later: World, pc: Pc, r: Response, grant: Grant, k: Key)
    requires Served(w, later, pc, r, grant) && Target(Ask(pc)) != Some(k)
    ensures SameAt(w, later, k)
  {
    OnlyTargetChanges(w, w, Ask(pc), grant, NoFault, k);
  }

  lemma ServiceNamesDiffer(ns: string, name: string)
    ensures HeadlessKey(ns, name) != ClientKey(ns, name)
  {
    assert |PREFIX + name| < |PREFIX + name + "-client"|;
  }

  /** Entering the pipeline: builder and template are read, nothing is written yet. */
  lemma ResolveProgresses(w0: World, w: World, ns: string, name: string, b: Builder, rv: nat, since: int,
                          template: Option<TemplateSpec>)
    requires (b.ns, b.name) == (ns, name) && w0.clock <= since <= w.clock
    requires Stored(w, BuilderKey(ns, name), Entry(BuilderObject(b), rv))
    requires StagesUntouched(w0, w, ns, name, 0)
    requires Stored(w0, BuilderKey(ns, name), Entry(BuilderObject(b), rv)) && template == TemplateOf(w0, b)
    requires b.spec.templateRef.Some? ==> template.Some?
    ensures Progress(w0, w, ns, name, AfterResolve(b, rv, since, template))
  {
  }

  lemma StartProgresses(w0: World, w: World, later: World, ns: string, name: string, pc: Pc, r: Response, grant: Grant)
    requires pc.Start? || pc.ReadTemplate?
    requires Progress(w0, w, ns, name, pc) && Served(w, later, pc, r, grant)
    ensures Progress(w0, later, ns, name, Hear(pc, r, w.clock, grant.key))
  {
    if pc.Start? {
      if r.Found? && r.entry.obj.BuilderObject? {
        var b := r.entry.obj.builder;
        if b.ns == ns && b.name == name && b.spec.templateRef.None? {
          ResolveProgresses(w0, w, ns, name, b, r.entry.rv, w.clock, None);
        }
      }
    } else if r.Found? && r.entry.obj.TemplateObject? {
      ResolveProgresses(w0, w, ns, name, pc.b, pc.rv, pc.since, Some(r.entry.obj.template));
    }
  }

  /** What a finished stage of the get, then create or update, pattern has achieved. */
  predicate ChildSettled(w0: World, w: World, job: Job, child: Child) {
    match child
    case ConfigMap => Holds(w, ChildKey(job.b, child), ChildObject(job, child))
    case Headless => ServiceSettled(w0, w, ChildKey(job.b, child), HeadlessService(job.b))
    case Client => ServiceSettled(w0, w, ChildKey(job.b, child), ClientService(job.b))
    case Ingress => RouteSettled(w, job)
    case Cache => ClaimSettled(w0, w, job)
    case Workload(n, _) => WorkloadStored(w, job, n)
  }

  /** A create or update of a child settles it. */
  lemma WriteSettles(w0: World, w: World, later: World, ns: string, name: string, pc: Pc, r: Response, grant: Grant)
    requires pc.Make? || pc.Replace?
    requires Progress(w0, w, ns, name, pc) && Served(w, later, pc, r, grant)
    ensures r == Done && ChildSettled(w0, later, pc.job, pc.child)
  {
    hide StatusOf, RenewedSecret, PodFor, RouteFor, StagesSettled, RightCount;
    var child := pc.child;
    match child
    case ConfigMap =>
    case Headless => assert SameAt(w0, w, HeadlessKey(ns, name));
    case Client => assert SameAt(w0, w, ClientKey(ns, name));
    case Ingress =>
    case Cache => assert SameAt(w0, w, ClaimKey(ns, name));
    case Workload(_, _) =>
  }

  /** Nothing of the builder changes but one child. */
  predicate OnlyChildWritten(w: World, later: World, b: Builder, child: Child) {
    later.clock == w.clock && forall k | k in OwnKeys(b.ns, b.name) && k != ChildKey(b, child) :: SameAt(w, later, k)
  }

  lemma WriteTouchesOneChild(w: World, later: World, pc: Pc, r: Response, grant: Grant)
    requires (pc.Make? || pc.Replace?) && Served(w, later, pc, r, grant)
    ensures OnlyChildWritten(w, later, pc.job.b, pc.child)
  {
  }

  /** Writing one child keeps what earlier stages settled and what later ones still rely on. */
  lemma WriteKeepsStages(w0: World, w: World, later: World, ns: string, name: string, job: Job, child: Child)
    requires (job.b.ns, job.b.name) == (ns, name) && OnlyChildWritten(w, later, job.b, child) && BuilderCurrent(w, job)
    requires StagesSettled(w0, w, job, ChildLevel(child)) && StagesUntouched(w0, w, ns, name, ChildLevel(child))
    ensures StagesSettled(w0, later, job, ChildLevel(child))
    ensures StagesUntouched(w0, later, ns, name, ChildLevel(child) + 1)
    ensures BuilderCurrent(later, job)
    ensures child.Workload? ==> StagesUntouched(w0, later, ns, name, 7)
  {
    ServiceNamesDiffer(ns, name);
    var level := ChildLevel(child);
    assert BuilderKey(ns, name) in OwnKeys(ns, name) && BuilderKey(ns, name) != ChildKey(job.b, child);
    if level >= 1 { assert SameAt(w, later, ConfigMapKey(ns, name)); }
    if level != 1 { assert SameAt(w, later, HeadlessKey(ns, name)); }
    if level != 2 { assert SameAt(w, later, ClientKey(ns, name)); }
    assert SameAt(w, later, TlsKey(ns, name));
    if level != 4 { assert SameAt(w, later, RouteKey(ns, name)); }
    if level != 5 { assert SameAt(w, later, ClaimKey(ns, name)); }
  }

  /** The stage of `child` is finished: the next one may begin. */
  ghost predicate StageDone(w0: World, w: World, ns: string, name: string, job: Job, child: Child) {
    && (job.b.ns, job.b.name) == (ns, name) && job.since <= w.clock && KnownMode(job.b)
    && WorksFrom(w0, job) && BuilderCurrent(w, job)
    && StagesSettled(w0, w, job, ChildLevel(child))
    && StagesUntouched(w0, w, ns, name, ChildLevel(child) + 1)
    && ChildSettled(w0, w, job, child) && ChildFits(w, job, child)
  }

  lemma ConfigMapDone(w0: World, w: World, ns: string, name: string, job: Job)
    requires StageDone(w0, w, ns, name, job, ConfigMap)
    ensures Progress(w0, w, ns, name, Find(job, Headless))
  {
  }

  lemma HeadlessDone(w0: World, w: World, ns: string, name: string, job: Job)
    requires StageDone(w0, w, ns, name, job, Headless)
    ensures Progress(w0, w, ns, name, Find(job, Client))
  {
  }

  lemma ClientDone(w0: World, w: World, ns: string, name: string, job: Job)
    requires StageDone(w0, w, ns, name, job, Client)
    ensures Progress(w0, w, ns, name, AfterServices(job))
  {
    assert StagesSettled(w0, w, job, 3);
  }

  lemma IngressDone(w0: World, w: World, ns: string, name: string, job: Job)
    requires StageDone(w0, w, ns, name, job, Ingress)
    ensures Progress(w0, w, ns, name, AfterExposure(job))
  {
    hide ChildObject, StatusOf, CertSettled, RouteSettled, ReportFits;
  }

  lemma CacheDone(w0: World, w: World, ns: string, name: string, job: Job)
    requires StageDone(w0, w, ns, name, job, Cache)
    ensures Progress(w0, w, ns, name, AfterCache(job))
  {
    hide ChildObject, StatusOf, StatefulSetFor;
  }

  lemma WorkloadDone(w0: World, w: World, ns: string, name: string, job: Job, n: int32, at: int)
    requires StageDone(w0, w, ns, name, job, Workload(n, at))
    ensures Progress(w0, w, ns, name, AfterWorkload(job, n, at, w.clock))
  {
    hide ChildObject, StatusOf, StatefulSetFor, ServiceSettled, ClaimSettled, RouteSettled, StagesUntouched, RightCount;
    if job.b.spec.mode == SLEEPY {
      DecisionMeaning(job.b, at);
    }
    assert StagesSettled(w0, w, job, 7);
  }

  /** The next stage begins where the last one ended. */
  lemma NextStageProgresses(w0: World, w: World, ns: string, name: string, job: Job, child: Child)
    requires StageDone(w0, w, ns, name, job, child)
    ensures Progress(w0, w, ns, name, After(job, child, w.clock))
  {
    hide Progress, StageDone, ChildSettled;
    match child
    case ConfigMap => ConfigMapDone(w0, w, ns, name, job);
    case Headless => HeadlessDone(w0, w, ns, name, job);
    case Client => ClientDone(w0, w, ns, name, job);
    case Ingress => IngressDone(w0, w, ns, name, job);
    case Cache => CacheDone(w0, w, ns, name, job);
    case Workload(n, at) => WorkloadDone(w0, w, ns, name, job, n, at);
  }

  lemma WriteEndsStage(w0: World, w: World, later: World, ns: string, name: string, pc: Pc, r: Response, grant: Grant)
    requires pc.Make? || pc.Replace?
    requires Progress(w0, w, ns, name, pc) && Served(w, later, pc, r, grant)
    ensures r == Done && StageDone(w0, later, ns, name, pc.job, pc.child)
  {
    hide StagesSettled, StagesUntouched, ChildSettled, Served;
    WriteSettles(w0, w, later, ns, name, pc, r, grant);
    WriteTouchesOneChild(w, later, pc, r, grant);
    assert JobProgress(w0, w, ns, name, pc, pc.job);
    WriteKeepsStages(w0, w, later, ns, name, pc.job, pc.child);
  }

  lemma FoundClaimEndsStage(w0: World, w: World, ns: string, name: string, job: Job)
    requires Progress(w0, w, ns, name, Find(job, Cache)) && ClaimKey(ns, name) in w.objects
    ensures StageDone(w0, w, ns, name, job, Cache)
  {
  }

  lemma FindProgresses(w0: World, w: World, ns: string, name: string, job: Job, child: Child)
    requires Progress(w0, w, ns, name, Find(job, child))
    ensures var k := ChildKey(job.b, child);
            if k !in w.objects then Progress(w0, w, ns, name, Make(job, child))
            else child.Cache? || Progress(w0, w, ns, name, Replace(job, child, w.objects[k]))
  {
    hide StagesSettled, StagesUntouched;
  }

  lemma ChildProgresses(w0: World, w: World, later: World, ns: string, name: string, pc: Pc, r: Response, grant: Grant)
    requires pc.Find? || pc.Make? || pc.Replace?
    requires Progress(w0, w, ns, name, pc) && Served(w, later, pc, r, grant)
    ensures Progress(w0, later, ns, name, Hear(pc, r, w.clock, grant.key))
  {
    hide Progress, StageDone, ChildObject, After;
    ProgressKnowsBuilder(w0, w, ns, name, pc);
    if !pc.Find? {
      WriteEndsStage(w0, w, later, ns, name, pc, r, grant);
      NextStageProgresses(w0, later, ns, name, pc.job, pc.child);
    } else {
      FindProgresses(w0, w, ns, name, pc.job, pc.child);
      if r.Found? && pc.child.Cache? {
        FoundClaimEndsStage(w0, w, ns, name, pc.job);
        NextStageProgresses(w0, w, ns, name, pc.job, pc.child);
      }
    }
  }

  /** Stages settled so far stay settled when only later objects change. */
  lemma StagesFramed(w0: World, w: World, later: World, job: Job, level: nat)
    requires StagesSettled(w0, w, job, level) && w.clock == later.clock
    requires var ns, name := job.b.ns, job.b.name;
             && SameAt(w, later, ConfigMapKey(ns, name)) && SameAt(w, later, HeadlessKey(ns, name))
                && SameAt(w, later, ClientKey(ns, name))
             && SameAt(w, later, ClaimKey(ns, name))
             && (level >= 4 ==> SameAt(w, later, TlsKey(ns, name)))
             && (level >= 5 ==> SameAt(w, later, RouteKey(ns, name)))
    ensures StagesSettled(w0, later, job, level)
  {
  }

  lemma DropRouteProgresses(w0: World, w: World, later: World, ns: string, name: string, pc: Pc, r: Response,
                            grant: Grant)
    requires pc.DropRoute?
    requires Progress(w0, w, ns, name, pc) && Served(w, later, pc, r, grant)
    ensures Progress(w0, later, ns, name, Hear(pc, r, w.clock, grant.key))
  {
    hide ChildObject, StatusOf, StatefulSetFor, ServiceSettled;
    OthersSame(w, later, pc, r, grant, ConfigMapKey(ns, name));
    OthersSame(w, later, pc, r, grant, HeadlessKey(ns, name));
    OthersSame(w, later, pc, r, grant, ClientKey(ns, name));
    OthersSame(w, later, pc, r, grant, ClaimKey(ns, name));
    OthersSame(w, later, pc, r, grant, TlsKey(ns, name));
    OthersSame(w, later, pc, r, grant, BuilderKey(ns, name));
    StagesFramed(w0, w, later, pc.job, 3);
    assert RouteKey(ns, name) !in later.objects;
  }

  /** With route and Secret gone, an unexposed builder is past its exposure. */
  lemma UnexposedContinues(w0: World, w: World, ns: string, name: string, job: Job)
    requires (job.b.ns, job.b.name) == (ns, name) && job.since <= w.clock && KnownMode(job.b)
             && WorksFrom(w0, job) && BuilderCurrent(w, job)
    requires !Exposed(job.b) && TlsKey(ns, name) !in w.objects && RouteKey(ns, name) !in w.objects
    requires StagesSettled(w0, w, job, 3) && SameAt(w0, w, ClaimKey(ns, name))
    ensures Progress(w0, w, ns, name, AfterExposure(job))
  {
    assert StagesSettled(w0, w, job, 5);
  }

  lemma DropCertProgresses(w0: World, w: World, later: World, ns: string, name: string, pc: Pc, r: Response,
                           grant: Grant)
    requires pc.DropCert?
    requires Progress(w0, w, ns, name, pc) && Served(w, later, pc, r, grant)
    ensures Progress(w0, later, ns, name, Hear(pc, r, w.clock, grant.key))
  {
    OthersSame(w, later, pc, r, grant, ConfigMapKey(ns, name));
    OthersSame(w, later, pc, r, grant, HeadlessKey(ns, name));
    OthersSame(w, later, pc, r, grant, ClientKey(ns, name));
    OthersSame(w, later, pc, r, grant, ClaimKey(ns, name));
    OthersSame(w, later, pc, r, grant, RouteKey(ns, name));
    OthersSame(w, later, pc, r, grant, BuilderKey(ns, name));
    StagesFramed(w0, w, later, pc.job, 3);
    UnexposedContinues(w0, later, ns, name, pc.job);
  }

  /** The CA is nobody's child, so these steps leave the builder's objects alone. */
  lemma MakeCaProgresses(w0: World, w: World, later: World, ns: string, name: string, pc: Pc, r: Response, grant: Grant)
    requires pc.MakeCa?
    requires Progress(w0, w, ns, name, pc) && Served(w, later, pc, r, grant)
    ensures Progress(w0, later, ns, name, Hear(pc, r, w.clock, grant.key))
  {
    forall k | k in OwnKeys(ns, name)
      ensures SameAt(w, later, k)
    {
      ChildrenAreNotTheCa(ns, name, ns);
      OthersSame(w, later, pc, r, grant, k);
    }
    forall n
      ensures SameAt(w, later, Key(Templates, ns, n))
    {
      OthersSame(w, later, pc, r, grant, Key(Templates, ns, n));
    }
    ProgressStays(w0, w, later, ns, name, pc);
    CaContinues(w0, later, ns, name, pc, r, grant.key);
  }

  /** While the CA is being settled a pass relies on nothing but its exposure check. */
  lemma CaPositionsAlike(w0: World, w: World, ns: string, name: string, pc: Pc, next: Pc)
    requires AtCa(pc) && AtCa(next) && next.job == pc.job
    requires Progress(w0, w, ns, name, pc)
    ensures Progress(w0, w, ns, name, next)
  {
    assert JobOf(pc) == JobOf(next) == Some(pc.job);
    assert Level(pc) == 3 == Level(next);
  }

  lemma CaHears(pc: Pc, r: Response, now: int, key: nat)
    requires AtCa(pc) && !pc.FindCert?
    ensures var next := Hear(pc, r, now, key); next.Failed? || (AtCa(next) && next.job == pc.job)
  {
  }

  lemma CaContinues(w0: World, w: World, ns: string, name: string, pc: Pc, r: Response, key: nat)
    requires AtCa(pc) && !pc.FindCert?
    requires Progress(w0, w, ns, name, pc)
    ensures Progress(w0, w, ns, name, Hear(pc, r, w.clock, key))
  {
    CaHears(pc, r, w.clock, key);
    var next := Hear(pc, r, w.clock, key);
    if !next.Failed? {
      CaPositionsAlike(w0, w, ns, name, pc, next);
    }
  }

  lemma ReadCaProgresses(w0: World, w: World, later: World, ns: string, name: string, pc: Pc, r: Response, grant: Grant)
    requires pc.FindCa? || pc.GenerateCaKey? || pc.RefindCa?
    requires Progress(w0, w, ns, name, pc) && Served(w, later, pc, r, grant)
    ensures Progress(w0, later, ns, name, Hear(pc, r, w.clock, grant.key))
  {
    assert later == w;
    CaContinues(w0, w, ns, name, pc, r, grant.key);
  }

  /** What signing produces serves the host for a year. */
  lemma SignedSecretServes(job: Job, ca: Ca, stale: Option<Entry>, key: KeyId, now: int)
    requires job.since <= now
    ensures SecretServes(RenewedSecret(job, ca, stale, key, now), HostOf(job.b), job.since + RENEW_BEFORE)
  {
  }

  /** A certificate that is not due serves the host and counts as settled. */
  lemma KeptCertSettles(w0: World, w: World, job: Job)
    requires StagesUntouched(w0, w, job.b.ns, job.b.name, 3) && job.since <= w.clock && HostOf(job.b) != ""
    requires var k := TlsKey(job.b.ns, job.b.name);
             k in w.objects && w.objects[k].obj.SecretObject?
                 && !NeedsRenewal(w.objects[k].obj.secret, HostOf(job.b), w.clock)
    ensures CertSettled(w0, w, job)
  {
  }

  lemma SignedProgresses(w0: World, w: World, ns: string, name: string, pc: Pc, r: Response, key: nat)
    requires pc.SignCert?
    requires Progress(w0, w, ns, name, pc)
    ensures Progress(w0, w, ns, name, HearSigned(pc.job, pc.ca, pc.stale, r, w.clock, key))
  {
    hide NeedsRenewal, StatefulSetFor;
    SignedSecretServes(pc.job, pc.ca, pc.stale, key, w.clock);
  }

  /** A Secret just read is kept or found due. */
  lemma CertReadProgresses(w0: World, w: World, ns: string, name: string, job: Job, ca: Ca, r: Response)
    requires Progress(w0, w, ns, name, FindCert(job, ca))
    requires r == (if TlsKey(ns, name) in w.objects then Found(w.objects[TlsKey(ns, name)]) else Refused(NotFound))
    ensures Progress(w0, w, ns, name, HearCert(job, ca, r, w.clock))
  {
    if r.Found? && r.entry.obj.SecretObject? && !NeedsRenewal(r.entry.obj.secret, HostOf(job.b), w.clock) {
      KeptCertSettles(w0, w, job);
    }
  }

  lemma ReadCertProgresses(w0: World, w: World, later: World, ns: string, name: string, pc: Pc, r: Response,
                           grant: Grant)
    requires pc.FindCert? || pc.SignCert?
    requires Progress(w0, w, ns, name, pc) && Served(w, later, pc, r, grant)
    ensures Progress(w0, later, ns, name, Hear(pc, r, w.clock, grant.key))
  {
    hide Progress, RenewedSecret, NeedsRenewal;
    ProgressKnowsBuilder(w0, w, ns, name, pc);
    if pc.SignCert? {
      SignedProgresses(w0, w, ns, name, pc, r, grant.key);
    } else {
      CertReadProgresses(w0, w, ns, name, pc.job, pc.ca, r);
    }
  }

  lemma WriteCertProgresses(w0: World, w: World, later: World, ns: string, name: string, pc: Pc, r: Response,
                            grant: Grant)
    requires pc.MakeCert? || pc.ReplaceCert?
    requires Progress(w0, w, ns, name, pc) && Served(w, later, pc, r, grant)
    ensures Progress(w0, later, ns, name, Hear(pc, r, w.clock, grant.key))
  {
    hide StatefulSetFor, HeadlessService, ClientService, ChildObject, StatusOf;
    OthersSame(w, later, pc, r, grant, ConfigMapKey(ns, name));
    OthersSame(w, later, pc, r, grant, HeadlessKey(ns, name));
    OthersSame(w, later, pc, r, grant, ClientKey(ns, name));
    OthersSame(w, later, pc, r, grant, ClaimKey(ns, name));
    OthersSame(w, later, pc, r, grant, BuilderKey(ns, name));
    assert SameAt(w0, w, TlsKey(ns, name));
    assert r == Done && CertSettled(w0, later, pc.job);
    assert StagesSettled(w0, later, pc.job, 4);
  }

  lemma DecideProgresses(w0: World, w: World, later: World, ns: string, name: string, pc: Pc, r: Response, grant: Grant)
    requires pc.Decide?
    requires Progress(w0, w, ns, name, pc) && Served(w, later, pc, r, grant)
    ensures Progress(w0, later, ns, name, Hear(pc, r, w.clock, grant.key))
  {
    assert later == w;
  }

  /** From the listing on all stages are behind, so only what the position relies on is new. */
  lemma ListedProgresses(w0: World, w: World, ns: string, name: string, job: Job, n: int32, at: int, next: Pc)
    requires Progress(w0, w, ns, name, ReadPods(job, n, at))
    requires next.ReadPort? || (next.Finished? && next.outcome.Waiting?)
    requires JobOf(next) == Some(job) && Relies(w, next)
    ensures Progress(w0, w, ns, name, next)
  {
    hide StagesSettled, StagesUntouched, Relies;
    assert Level(next) == 7 == Level(ReadPods(job, n, at));
  }

  lemma ListedRelies(w0: World, w: World, ns: string, name: string, job: Job, n: int32, at: int)
    requires Progress(w0, w, ns, name, ReadPods(job, n, at))
    ensures WorkloadReady(w, job, n, at) && (job.b.spec.mode == SLEEPY ==> n == 1) && BuilderCurrent(w, job)
  {
  }

  /** A list of pods, whatever it holds, leads to a wait or to a fitting report. */
  lemma PodsContinue(w0: World, w: World, ns: string, name: string, job: Job, n: int32, at: int, pods: seq<Pod>)
    requires Progress(w0, w, ns, name, ReadPods(job, n, at))
    ensures Progress(w0, w, ns, name, AfterPods(job, n, at, pods, w.clock))
  {
    hide Progress, StatefulSetFor, StatusOf;
    ListedRelies(w0, w, ns, name, job, n, at);
    ListedProgresses(w0, w, ns, name, job, n, at, AfterPods(job, n, at, pods, w.clock));
  }

  lemma PodsProgress(w0: World, w: World, later: World, ns: string, name: string, pc: Pc, r: Response, grant: Grant)
    requires pc.ReadPods?
    requires Progress(w0, w, ns, name, pc) && Served(w, later, pc, r, grant)
    ensures Progress(w0, later, ns, name, Hear(pc, r, w.clock, grant.key))
  {
    assert later == w && r.Listed?;
    assert Hear(pc, r, w.clock, grant.key) == AfterPods(pc.job, pc.replicas, pc.at, r.pods, w.clock);
    PodsContinue(w0, w, ns, name, pc.job, pc.replicas, pc.at, r.pods);
  }

  lemma PortProgresses(w0: World, w: World, later: World, ns: string, name: string, pc: Pc, r: Response, grant: Grant)
    requires pc.ReadPort?
    requires Progress(w0, w, ns, name, pc) && Served(w, later, pc, r, grant)
    ensures Progress(w0, later, ns, name, Hear(pc, r, w.clock, grant.key))
  {
    hide ChildObject, StatusOf, StatefulSetFor, ServiceSettled, ClaimSettled, RouteSettled;
    var next := Hear(pc, r, w.clock, grant.key);
    assert later == w && PortOf(r) == StoredPort(w, ns, name);
    assert Relies(w, next);
  }

  lemma ReportedStages(w0: World, w: World, later: World, job: Job)
    requires StagesSettled(w0, w, job, 7) && w.clock == later.clock
    requires forall k | k in ChildKeys(job.b.ns, job.b.name) :: SameAt(w, later, k)
    ensures StagesSettled(w0, later, job, 7)
  {
    hide StagesSettled;
    var ns, name := job.b.ns, job.b.name;
    assert SameAt(w, later, ConfigMapKey(ns, name)) && SameAt(w, later, HeadlessKey(ns, name))
        && SameAt(w, later, ClientKey(ns, name));
    assert SameAt(w, later, TlsKey(ns, name)) && SameAt(w, later, RouteKey(ns, name))
        && SameAt(w, later, ClaimKey(ns, name));
    StagesFramed(w0, w, later, job, 7);
  }

  /** What the status write leaves behind. */
  lemma ReportedProgresses(w0: World, w: World, later: World, ns: string, name: string, pc: Pc)
    requires pc.Publish? && Progress(w0, w, ns, name, pc) && w.clock == later.clock
    requires forall k | k in ChildKeys(ns, name) :: SameAt(w, later, k)
    requires Holds(later, BuilderKey(ns, name),
             BuilderObject(pc.job.b.(status := StatusOf(pc.job.b, pc.report, pc.port, pc.now))))
    ensures Progress(w0, later, ns, name, Finished(Reported(pc.job, pc.report, pc.port, pc.now)))
  {
    hide StagesSettled, StatusOf, StatefulSetFor;
    ReportedStages(w0, w, later, pc.job);
    assert SameAt(w, later, StatefulSetKey(ns, name)) && SameAt(w, later, ClientKey(ns, name));
  }

  lemma PublishProgresses(w0: World, w: World, later: World, ns: string, name: string, pc: Pc, r: Response,
                          grant: Grant)
    requires pc.Publish?
    requires Progress(w0, w, ns, name, pc) && Served(w, later, pc, r, grant)
    ensures Progress(w0, later, ns, name, Hear(pc, r, w.clock, grant.key))
  {
    hide Progress, StatusOf;
    ProgressKnowsBuilder(w0, w, ns, name, pc);
    forall k | k in ChildKeys(ns, name)
      ensures SameAt(w, later, k)
    {
      OthersSame(w, later, pc, r, grant, k);
    }
    ReportedProgresses(w0, w, later, ns, name, pc);
  }

  lemma OwnStepProgresses(w0: World, w: World, later: World, ns: string, name: string, pc: Pc, r: Response,
                          grant: Grant)
    requires !Ended(pc) && Progress(w0, w, ns, name, pc) && Served(w, later, pc, r, grant)
    ensures Progress(w0, later, ns, name, Hear(pc, r, w.clock, grant.key))
  {
    hide Progress, Served, Hear, ChildObject, StatefulSetFor, Ask;
    match pc
    case Start(_, _) => StartProgresses(w0, w, later, ns, name, pc, r, grant);
    case ReadTemplate(_, _, _) => StartProgresses(w0, w, later, ns, name, pc, r, grant);
    case Find(_, _) => ChildProgresses(w0, w, later, ns, name, pc, r, grant);
    case Make(_, _) => ChildProgresses(w0, w, later, ns, name, pc, r, grant);
    case Replace(_, _, _) => ChildProgresses(w0, w, later, ns, name, pc, r, grant);
    case DropRoute(_) => DropRouteProgresses(w0, w, later, ns, name, pc, r, grant);
    case DropCert(_) => DropCertProgresses(w0, w, later, ns, name, pc, r, grant);
    case FindCa(_) => ReadCaProgresses(w0, w, later, ns, name, pc, r, grant);
    case GenerateCaKey(_) => ReadCaProgresses(w0, w, later, ns, name, pc, r, grant);
    case MakeCa(_, _) => MakeCaProgresses(w0, w, later, ns, name, pc, r, grant);
    case RefindCa(_) => ReadCaProgresses(w0, w, later, ns, name, pc, r, grant);
    case FindCert(_, _) => ReadCertProgresses(w0, w, later, ns, name, pc, r, grant);
    case SignCert(_, _, _) => ReadCertProgresses(w0, w, later, ns, name, pc, r, grant);
    case MakeCert(_, _, _) => WriteCertProgresses(w0, w, later, ns, name, pc, r, grant);
    case ReplaceCert(_, _, _, _) => WriteCertProgresses(w0, w, later, ns, name, pc, r, grant);
    case Decide(_) => DecideProgresses(w0, w, later, ns, name, pc, r, grant);
    case ReadPods(_, _, _) => PodsProgress(w0, w, later, ns, name, pc, r, grant);
    case ReadPort(_, _) => PortProgresses(w0, w, later, ns, name, pc, r, grant);
    case Publish(_, _, _, _) => PublishProgresses(w0, w, later, ns, name, pc, r, grant);
  }
}
