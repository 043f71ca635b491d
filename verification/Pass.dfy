/**
 * One reconcile pass as a step machine. A position knows the one request the pass makes next;
 * the response, the clock and the random source decide where it goes.
 */
module Pass {
  import opened Prelude
  import opened Types
  import opened Certificates
  import opened Labels
  import opened Idle
  import Merge
  import opened Conditions
  import opened Render
  import opened Store
  import Toml

  datatype Error =
    | Api(api: ApiError)
    | NoSpec
    | UnknownMode
    | UnsupportedController
    | HostRequired
    | UnreadableCa
    | SigningFailed

  /**
   * What the pass works from: the builder as read, its revision, its resolved spec. `since` is the
   * clock at that read.
   */
  datatype Job = Job(b: Builder, rv: nat, spec: TemplateSpec, since: int)

  /** Children written by the get, then create or update, pattern. `at` is the clock at the replica decision. */
  datatype Child = ConfigMap | Headless | Client | Ingress | Cache | Workload(replicas: int32, at: int)

  datatype Report = Report(phase: string, endpoint: string, ready: int, desired: int32, at: int, scaledAt: Option<int>)

  /** How a pass ends well. */
  datatype Outcome = Gone | Deleting | Waiting(job: Job) | Reported(job: Job, report: Report, port: int, now: int)

  datatype Pc =
    | Start(ns: string, name: string)
    | ReadTemplate(b: Builder, rv: nat, since: int)
    | Find(job: Job, child: Child)
    | Make(job: Job, child: Child)
    | Replace(job: Job, child: Child, seen: Entry)
    | DropRoute(job: Job)
    | DropCert(job: Job)
    | FindCa(job: Job)
    | GenerateCaKey(job: Job)
    | MakeCa(job: Job, ca: Ca)
    | RefindCa(job: Job)
    | FindCert(job: Job, ca: Ca)
    | SignCert(job: Job, ca: Ca, stale: Option<Entry>)
    | MakeCert(job: Job, secret: Secret, at: int)
    | ReplaceCert(job: Job, secret: Secret, seen: Entry, at: int)
    | Decide(job: Job)
    | ReadPods(job: Job, replicas: int32, at: int)
    | ReadPort(job: Job, report: Report)
    | Publish(job: Job, report: Report, port: int, now: int)
    | Finished(outcome: Outcome)
    | Failed(error: Error)

  predicate Ended(pc: Pc) {
    pc.Finished? || pc.Failed?
  }

  predicate HasJob(pc: Pc) {
    !pc.Start? && !pc.ReadTemplate? && !Ended(pc)
  }

  predicate AtChild(pc: Pc) {
    pc.Find? || pc.Make? || pc.Replace?
  }

  /** Settling the CA, up to the first look at the server Secret. */
  predicate AtCa(pc: Pc) {
    pc.FindCa? || pc.GenerateCaKey? || pc.MakeCa? || pc.RefindCa? || pc.FindCert?
  }

  // -- Children ------------------------------------------------------------------------------

  function ChildKey(b: Builder, child: Child): Key {
    match child
    case ConfigMap => ConfigMapKey(b.ns, b.name)
    case Headless => HeadlessKey(b.ns, b.name)
    case Client => ClientKey(b.ns, b.name)
    case Ingress => RouteKey(b.ns, b.name)
    case Cache => ClaimKey(b.ns, b.name)
    case Workload(_, _) => StatefulSetKey(b.ns, b.name)
  }

  /**
   * The object a create sends. The pass asks for a route only when exposed and for a claim only
   * when there is a PVC config.
   */
  function ChildObject(job: Job, child: Child): Object {
    var b := job.b;
    match child
    case ConfigMap => ConfigMapObject(map[CONFIG_FILE := Toml.Rendered(job.spec.toml, Exposed(b))])
    case Headless => ServiceObject(HeadlessService(b))
    case Client => ServiceObject(ClientService(b))
    case Ingress => RouteObject(if b.spec.exposure.Some? then RouteFor(b) else Route("", "", "", map[], true))
    case Cache => ClaimObject(ClaimFor(job.spec.cache.pvc.GetOr(PvcConfig("", "", []))))
    case Workload(n, _) => StatefulSetObject(StatefulSetFor(b, job.spec, n))
  }

  /** The object an update sends over `stored`: a Service keeps the cluster IP that was read. */
  function Overwrite(job: Job, child: Child, stored: Object): Object {
    var o := ChildObject(job, child);
    if o.ServiceObject? && stored.ServiceObject?
    then ServiceObject(o.service.(clusterIp := stored.service.clusterIp))
    else o
  }

  // -- Continuations -------------------------------------------------------------------------

  /** resolveSpec. */
  function ResolvedSpec(b: Builder, template: Option<TemplateSpec>): Option<TemplateSpec> {
    if b.spec.inlineTemplate.Some? then Some(Merge.Merged(template, b.spec.inlineTemplate)) else template
  }

  function AfterResolve(b: Builder, rv: nat, since: int, template: Option<TemplateSpec>): Pc {
    var spec := ResolvedSpec(b, template);
    if spec.None? then Failed(NoSpec)
    else if b.deleting then Finished(Deleting)
    else if KnownMode(b) then Find(Job(b, rv, spec.value, since), ConfigMap)
    else Failed(UnknownMode)
  }

  /** reconcileExposure, up to its first call. */
  function AfterServices(job: Job): Pc {
    if !Exposed(job.b) then DropRoute(job)
    else
      var e := job.b.spec.exposure.value;
      if e.ingressController != "" && e.ingressController != TRAEFIK then Failed(UnsupportedController)
      else if e.host == "" then Failed(HostRequired)
      else FindCa(job)
  }

  function AfterExposure(job: Job): Pc {
    if UsesClaim(job.spec) then Find(job, Cache) else AfterCache(job)
  }

  function PersistentReplicas(b: Builder): int32 {
    b.spec.replicas.GetOr(1)
  }

  /** A persistent pass knows its replica count; a sleepy one reads the clock first. */
  function AfterCache(job: Job): Pc {
    if job.b.spec.mode == SLEEPY then Decide(job)
    else Find(job, Workload(PersistentReplicas(job.b), job.since))
  }

  function AfterWorkload(job: Job, replicas: int32, at: int, now: int): Pc {
    if job.b.spec.mode == SLEEPY && replicas != 1
    then ReadPort(job, Report(SCALING_DOWN, "", 0, replicas, at, Some(now)))
    else ReadPods(job, replicas, at)
  }

  function After(job: Job, child: Child, now: int): Pc {
    match child
    case ConfigMap => Find(job, Headless)
    case Headless => Find(job, Client)
    case Client => AfterServices(job)
    case Ingress => AfterExposure(job)
    case Cache => AfterCache(job)
    case Workload(n, at) => AfterWorkload(job, n, at, now)
  }

  // -- Pods ----------------------------------------------------------------------------------

  predicate Ready(p: Pod) {
    p.running && p.ip != ""
  }

  function Address(p: Pod): string {
    "tcp://" + p.ip + ":1234"
  }

  /** The address of the first running pod, or "". */
  function EndpointOf(pods: seq<Pod>): string {
    if pods == [] then "" else if Ready(pods[0]) then Address(pods[0]) else EndpointOf(pods[1..])
  }

  function ReadyCount(pods: seq<Pod>): nat {
    if pods == [] then 0 else (if Ready(pods[0]) then 1 else 0) + ReadyCount(pods[1..])
  }

  function AfterPods(job: Job, replicas: int32, at: int, pods: seq<Pod>, now: int): Pc {
    var endpoint := EndpointOf(pods);
    if job.b.spec.mode == SLEEPY then ReadPort(job, Report(READY, endpoint, ReadyCount(pods), replicas, at, Some(now)))
    else if endpoint == "" then Finished(Waiting(job))
    else ReadPort(job, Report(READY, endpoint, ReadyCount(pods), replicas, at, None))
  }

  /** resolveNodePort: any failure reads as port 0. */
  function PortOf(r: Response): int {
    if r.Found? && r.entry.obj.ServiceObject? && r.entry.obj.service.nodePort > 0
    then r.entry.obj.service.nodePort
    else 0
  }

  /** The status a report turns into, stamped `now`. */
  function StatusOf(b: Builder, r: Report, port: int, now: int): Status {
    match r.scaledAt
    case None => PersistentStatus(b, r.phase, r.endpoint, r.ready, r.desired, port, now)
    case Some(t) => SleepyStatus(b, r.phase, r.endpoint, r.ready, r.desired, port, t, now)
  }

  // -- Certificates --------------------------------------------------------------------------

  function HostOf(b: Builder): string {
    if b.spec.exposure.Some? then b.spec.exposure.value.host else ""
  }

  function AfterCaRead(job: Job, o: Object): Pc {
    var ca := if o.SecretObject? then ReadCa(o.secret) else None;
    if ca.None? then Failed(UnreadableCa) else FindCert(job, ca.value)
  }

  /** The Secret a renewal writes: over an existing one only data and the host annotation change. */
  function RenewedSecret(job: Job, ca: Ca, stale: Option<Entry>, key: KeyId, now: int): Secret {
    var host := HostOf(job.b);
    var data := ServerData(ca, SignServer(ca, host, key, now, now));
    var kept := if stale.Some? && stale.value.obj.SecretObject? then stale.value.obj.secret.annotations else map[];
    Secret(kept[CERT_HOST := host], data)
  }

  function AfterCertRead(job: Job, ca: Ca, e: Entry, now: int): Pc {
    if !e.obj.SecretObject? then Failed(Api(Undecodable))
    else if NeedsRenewal(e.obj.secret, HostOf(job.b), now) then SignCert(job, ca, Some(e))
    else Find(job, Ingress)
  }

  // -- The machine ---------------------------------------------------------------------------

  function Ask(pc: Pc): Request {
    match pc
    case Start(ns, name) => Get(BuilderKey(ns, name))
    case ReadTemplate(b, _, _) => Get(Key(Templates, b.ns, b.spec.templateRef.GetOr("")))
    case Find(job, child) => Get(ChildKey(job.b, child))
    case Make(job, child) => Create(ChildKey(job.b, child), ChildObject(job, child))
    case Replace(job, child, e) => Update(ChildKey(job.b, child), Overwrite(job, child, e.obj), e.rv)
    case DropRoute(job) => Delete(RouteKey(job.b.ns, job.b.name))
    case DropCert(job) => Delete(TlsKey(job.b.ns, job.b.name))
    case FindCa(job) => Get(CaKey(job.b.ns))
    case MakeCa(job, ca) => Create(CaKey(job.b.ns), SecretObject(CaSecret(ca)))
    case RefindCa(job) => Get(CaKey(job.b.ns))
    case FindCert(job, _) => Get(TlsKey(job.b.ns, job.b.name))
    case MakeCert(job, s, _) => Create(TlsKey(job.b.ns, job.b.name), SecretObject(s))
    case ReplaceCert(job, s, e, _) => Update(TlsKey(job.b.ns, job.b.name), SecretObject(s), e.rv)
    case ReadPods(job, _, _) => ListPods(job.b.ns, NAME_KEY, job.b.name)
    case ReadPort(job, _) => Get(ClientKey(job.b.ns, job.b.name))
    case Publish(job, report, port, now) =>
      UpdateStatus(BuilderKey(job.b.ns, job.b.name), StatusOf(job.b, report, port, now), job.rv)
    case _ => Local
  }

  function ErrorOf(r: Response): ApiError {
    if r.Refused? then r.error else Undecodable
  }

  function HearBuilder(ns: string, name: string, r: Response, now: int): Pc {
    if r.Found? && r.entry.obj.BuilderObject? && r.entry.obj.builder.ns == ns && r.entry.obj.builder.name == name then
      var b := r.entry.obj.builder;
      if b.spec.templateRef.Some? then ReadTemplate(b, r.entry.rv, now)
      else AfterResolve(b, r.entry.rv, now, None)
    else if r == Refused(NotFound) then Finished(Gone)
    else Failed(Api(ErrorOf(r)))
  }

  function HearTemplate(b: Builder, rv: nat, since: int, r: Response): Pc {
    if r.Found? && r.entry.obj.TemplateObject? then AfterResolve(b, rv, since, Some(r.entry.obj.template))
    else Failed(Api(ErrorOf(r)))
  }

  function HearFind(job: Job, child: Child, r: Response, now: int): Pc {
    if r.Found? then
      // An existing claim is left alone.
      if child.Cache? then After(job, child, now) else Replace(job, child, r.entry)
    else if r == Refused(NotFound) then Make(job, child)
    else Failed(Api(ErrorOf(r)))
  }

  function HearWritten(job: Job, child: Child, r: Response, now: int): Pc {
    if r.Done? then After(job, child, now) else Failed(Api(ErrorOf(r)))
  }

  function HearDropped(r: Response, next: Pc): Pc {
    if r.Done? || r == Refused(NotFound) then next else Failed(Api(ErrorOf(r)))
  }

  function HearCa(job: Job, r: Response, first: bool): Pc {
    if r.Found? then AfterCaRead(job, r.entry.obj)
    else if first && r == Refused(NotFound) then GenerateCaKey(job)
    else Failed(Api(ErrorOf(r)))
  }

  function HearCert(job: Job, ca: Ca, r: Response, now: int): Pc {
    if r.Found? then AfterCertRead(job, ca, r.entry, now)
    else if r == Refused(NotFound) then SignCert(job, ca, None)
    else Failed(Api(ErrorOf(r)))
  }

  function HearSigned(job: Job, ca: Ca, stale: Option<Entry>, r: Response, now: int, key: nat): Pc {
    if !r.Done? then Failed(SigningFailed)
    else
      var s := RenewedSecret(job, ca, stale, key, now);
      match stale
      case None => MakeCert(job, s, now)
      case Some(e) => ReplaceCert(job, s, e, now)
  }

  function Hear(pc: Pc, r: Response, now: int, key: nat): Pc {
    match pc
    case Start(ns, name) => HearBuilder(ns, name, r, now)
    case ReadTemplate(b, rv, since) => HearTemplate(b, rv, since, r)
    case Find(job, child) => HearFind(job, child, r, now)
    case Make(job, child) => HearWritten(job, child, r, now)
    case Replace(job, child, _) => HearWritten(job, child, r, now)
    case DropRoute(job) => HearDropped(r, DropCert(job))
    case DropCert(job) => HearDropped(r, AfterExposure(job))
    case FindCa(job) => HearCa(job, r, true)
    case GenerateCaKey(job) => if r.Done? then MakeCa(job, GenerateCa(key, now, now)) else Failed(SigningFailed)
    case MakeCa(job, ca) =>
      if r.Done? then FindCert(job, ca)
      else if r == Refused(AlreadyExists) then RefindCa(job)
      else Failed(Api(ErrorOf(r)))
    case RefindCa(job) => HearCa(job, r, false)
    case FindCert(job, ca) => HearCert(job, ca, r, now)
    case SignCert(job, ca, stale) => HearSigned(job, ca, stale, r, now, key)
    case MakeCert(job, _, _) =>
      if r.Done? || r == Refused(AlreadyExists) then Find(job, Ingress) else Failed(Api(ErrorOf(r)))
    case ReplaceCert(job, _, _, _) => if r.Done? then Find(job, Ingress) else Failed(Api(ErrorOf(r)))
    case Decide(job) => Find(job, Workload(DesiredReplicas(job.b, now), now))
    case ReadPods(job, n, at) => if r.Listed? then AfterPods(job, n, at, r.pods, now) else Failed(Api(ErrorOf(r)))
    case ReadPort(job, report) => Publish(job, report, PortOf(r), now)
    case Publish(job, report, port, t) =>
      if r.Done? then Finished(Reported(job, report, port, t)) else Failed(Api(ErrorOf(r)))
    case _ => pc
  }
}
