/**
 * The reconciler in its imperative form. Every API call and every read of the clock or of the
 * random source is one step of the machine, taken after whatever the script lets everybody else
 * do first, so an execution of these methods is a run of the machine.
 */
module Reconciler {
  import opened Prelude
  import opened Types
  import opened Idle
  import opened Certificates
  import opened Labels
  import opened Render
  import opened Store
  import opened Pass
  import opened Machine
  import opened Conditions
  import opened CaAgreement
  import opened Repair
  import Merge
  import Toml
  import BuilderResource

  /** What happens around one call: others' steps before it, and how the call itself fares. */
  datatype Turn = Turn(others: seq<Label>, fault: Fault, lag: nat, grant: Grant)

  const UNDISTURBED := Turn([], NoFault, 0, Grant("10.0.0.1", 30000, 0))

  predicate Own(id: nat, l: Label) {
    !l.Outside? && l.id == id
  }

  /** Steps of other workers and of the environment. */
  function Foreign(id: nat, labels: seq<Label>): seq<Label> {
    if labels == [] then []
    else if Own(id, labels[0]) then Foreign(id, labels[1..])
    else [labels[0]] + Foreign(id, labels[1..])
  }

  lemma {:induction false} ForeignKeepsWorker(s: System, id: nat, labels: seq<Label>)
    requires id in s.workers
    ensures var e := Run(s, Foreign(id, labels)); id in e.workers && e.workers[id] == s.workers[id]
    decreases |labels|
  {
    if labels != [] {
      if Own(id, labels[0]) {
        ForeignKeepsWorker(s, id, labels[1..]);
      } else {
        var f := Foreign(id, labels);
        assert f[0] == labels[0] && f[1..] == Foreign(id, labels[1..]);
        ForeignKeepsWorker(Step(s, labels[0]), id, labels[1..]);
      }
    }
  }

  /** A step of the worker itself, answered fresh and without fault. */
  predicate QuietLabel(id: nat, l: Label) {
    l.Act? && l.id == id && l.fault.NoFault? && l.lag == 0 && l.grant.nodePort > 0
  }

  predicate QuietTurn(t: Turn) {
    t.others == [] && t.fault.NoFault? && t.lag == 0 && t.grant.nodePort > 0
  }

  lemma {:induction false} QuietIsCalm(id: nat, ns: string, name: string, s: System, labels: seq<Label>)
    requires forall i | 0 <= i < |labels| :: QuietLabel(id, labels[i])
    ensures Calm(id, ns, name, s, labels)
    decreases |labels|
  {
    if labels != [] {
      QuietIsCalm(id, ns, name, Step(s, labels[0]), labels[1..]);
    }
  }

  lemma {:induction false} QuietLeavesCaAlone(id: nat, ns: string, s: System, labels: seq<Label>)
    requires forall i | 0 <= i < |labels| :: QuietLabel(id, labels[i])
    ensures CaLeftAlone(ns, s, labels)
    decreases |labels|
  {
    if labels != [] {
      QuietLeavesCaAlone(id, ns, Step(s, labels[0]), labels[1..]);
    }
  }

  /** Where the pass stands after a part of it: failed with `err`, or at `next`. */
  function OrFailed(err: Option<Error>, next: Pc): Pc {
    if err.Some? then Failed(err.value) else next
  }

  class Worker {
    const id: nat
    var system: System
    var script: seq<Turn>
    /** The system the worker was set on, and every step taken since. */
    ghost const initial: System
    ghost var played: seq<Label>
    /** Promises that the script disturbs nothing. */
    ghost const quiet: bool

    ghost predicate Valid()
      reads this
    {
      && id in system.workers
      && system == Run(initial, played)
      && (quiet ==> (forall i | 0 <= i < |script| :: QuietTurn(script[i]))
                    && (forall i | 0 <= i < |played| :: QuietLabel(id, played[i])))
    }

    /** The worker stands at `pc`, having only added to `before`. */
    ghost predicate At(pc: Pc, before: seq<Label>)
      reads this
    {
      Valid() && system.workers[id] == pc && before <= played
    }

    constructor (id: nat, system: System, script: seq<Turn>, ghost quiet: bool)
      requires id in system.workers
      requires quiet ==> forall i | 0 <= i < |script| :: QuietTurn(script[i])
      ensures Valid() && this.id == id && this.system == system && this.script == script && this.quiet == quiet
              && played == []
    {
      this.id, this.system, this.script := id, system, script;
      this.initial, this.played, this.quiet := system, [], quiet;
    }

    /** One call: everybody else moves, then the server answers this worker. */
    method Call(request: Request) returns (r: Response, now: int, key: nat)
      requires Valid() && !Ended(system.workers[id]) && Ask(system.workers[id]) == request
      modifies this
      ensures At(Hear(old(system.workers[id]), r, now, key), old(played))
      ensures now == system.now.clock
      ensures request.Local? ==> r.Done? || r.Refused?
    {
      hide ChildObject, StatusOf, Hear;
      var turn := UNDISTURBED;
      if script != [] {
        turn := script[0];
        script := script[1..];
      }
      var others := Foreign(id, turn.others);
      var l := Act(id, turn.fault, turn.lag, turn.grant);
      ForeignKeepsWorker(system, id, turn.others);
      RunConcat(initial, played, others);
      RunSnoc(initial, played + others, l);
      system := Run(system, others);
      HandleKeepsClock(system.now, Seen(system, l.lag), request, l.grant, l.fault);
      var reply := Reply(system, l);
      r, now, key := reply.1, system.now.clock, turn.grant.key;
      system := Step(system, l);
      played := played + others + [l];
    }

    // -- Children --------------------------------------------------------------------------

    /** ensureBuildkitdConfigMap. */
    method EnsureBuildkitdConfigMap(job: Job) returns (err: Option<Error>)
      requires At(Find(job, ConfigMap), played)
      modifies this
      ensures At(OrFailed(err, Find(job, Headless)), old(played))
    {
      var text := Toml.RenderToml(job.spec.toml, Exposed(job.b));
      var data := map[CONFIG_FILE := text];
      var k := ConfigMapKey(job.b.ns, job.b.name);
      var existing, _, _ := Call(Get(k));
      if !existing.Found? {
        if existing == Refused(NotFound) {
          var r, _, _ := Call(Create(k, ConfigMapObject(data)));
          return if r.Done? then None else Some(Api(ErrorOf(r)));
        }
        return Some(Api(ErrorOf(existing)));
      }
      var r, _, _ := Call(Update(k, ConfigMapObject(data), existing.entry.rv));
      return if r.Done? then None else Some(Api(ErrorOf(r)));
    }

    /** createOrUpdateService: an update carries the revision and the cluster IP that were read. */
    method CreateOrUpdateService(job: Job, child: Child, svc: Service) returns (err: Option<Error>)
      requires child == Headless || child == Client
      requires ChildObject(job, child) == ServiceObject(svc)
      requires At(Find(job, child), played)
      modifies this
      ensures At(OrFailed(err, After(job, child, 0)), old(played))
    {
      var k := ChildKey(job.b, child);
      var existing, _, _ := Call(Get(k));
      if !existing.Found? {
        if existing == Refused(NotFound) {
          var r, _, _ := Call(Create(k, ServiceObject(svc)));
          return if r.Done? then None else Some(Api(ErrorOf(r)));
        }
        return Some(Api(ErrorOf(existing)));
      }
      var desired := svc;
      if existing.entry.obj.ServiceObject? {
        desired := desired.(clusterIp := existing.entry.obj.service.clusterIp);
      }
      var r, _, _ := Call(Update(k, ServiceObject(desired), existing.entry.rv));
      return if r.Done? then None else Some(Api(ErrorOf(r)));
    }

    /** createOrUpdatePVC: an existing claim is never written. */
    method CreateOrUpdatePvc(job: Job, claim: Claim) returns (err: Option<Error>)
      requires ChildObject(job, Cache) == ClaimObject(claim)
      requires At(Find(job, Cache), played)
      modifies this
      ensures At(OrFailed(err, AfterCache(job)), old(played))
    {
      var k := ClaimKey(job.b.ns, job.b.name);
      var existing, _, _ := Call(Get(k));
      if !existing.Found? {
        if existing == Refused(NotFound) {
          var r, _, _ := Call(Create(k, ClaimObject(claim)));
          return if r.Done? then None else Some(Api(ErrorOf(r)));
        }
        return Some(Api(ErrorOf(existing)));
      }
      return None;
    }

    /** createOrUpdateStatefulSet. */
    method CreateOrUpdateStatefulSet(job: Job, st: StatefulSet, ghost at: int) returns (err: Option<Error>, now: int)
      requires st == StatefulSetFor(job.b, job.spec, st.replicas)
      requires At(Find(job, Workload(st.replicas, at)), played)
      modifies this
      ensures At(OrFailed(err, AfterWorkload(job, st.replicas, at, now)), old(played))
      ensures now == system.now.clock
    {
      var k := StatefulSetKey(job.b.ns, job.b.name);
      var existing, _, _ := Call(Get(k));
      if !existing.Found? {
        if existing == Refused(NotFound) {
          var made, t, _ := Call(Create(k, StatefulSetObject(st)));
          return if made.Done? then None else Some(Api(ErrorOf(made))), t;
        }
        return Some(Api(ErrorOf(existing))), system.now.clock;
      }
      var r, t, _ := Call(Update(k, StatefulSetObject(st), existing.entry.rv));
      return if r.Done? then None else Some(Api(ErrorOf(r))), t;
    }

    /** createOrUpdateIngressRoute. */
    method CreateOrUpdateIngressRoute(job: Job, route: Route) returns (err: Option<Error>)
      requires ChildObject(job, Ingress) == RouteObject(route)
      requires At(Find(job, Ingress), played)
      modifies this
      ensures At(OrFailed(err, AfterExposure(job)), old(played))
    {
      var k := RouteKey(job.b.ns, job.b.name);
      var existing, _, _ := Call(Get(k));
      if !existing.Found? {
        if existing == Refused(NotFound) {
          var r, _, _ := Call(Create(k, RouteObject(route)));
          return if r.Done? then None else Some(Api(ErrorOf(r)));
        }
        return Some(Api(ErrorOf(existing)));
      }
      var r, _, _ := Call(Update(k, RouteObject(route), existing.entry.rv));
      return if r.Done? then None else Some(Api(ErrorOf(r)));
    }

    // -- Certificates ----------------------------------------------------------------------

    /**
     * ensureNamespaceCA. In a namespace whose CA nobody else edits, the CA it returns is the one
     * in the store, also when the worker lost the race to create it.
     */
    method EnsureNamespaceCa(job: Job) returns (result: Result<Ca, Error>)
      requires At(FindCa(job), played)
      modifies this
      ensures At(match result case Ok(ca) => FindCert(job, ca) case Err(e) => Failed(e), old(played))
      ensures result.Ok? && CaAgreed(initial, job.b.ns) && CaKept(job.b.ns, initial, played) ==>
                StoredCa(system.now, job.b.ns) == Some(result.value)
    {
      result := FindOrCreateCa(job);
      if result.Ok? && CaAgreed(initial, job.b.ns) && CaKept(job.b.ns, initial, played) {
        WorkersAgreeOnCa(initial, played, job.b.ns);
        assert Informed(system.now, job.b.ns, system.workers[id]);
      }
    }

    method FindOrCreateCa(job: Job) returns (result: Result<Ca, Error>)
      requires At(FindCa(job), played)
      modifies this
      ensures At(match result case Ok(ca) => FindCert(job, ca) case Err(e) => Failed(e), old(played))
    {
      var existing, _, _ := Call(Get(CaKey(job.b.ns)));
      if existing.Found? {
        var parsed := if existing.entry.obj.SecretObject? then ReadCa(existing.entry.obj.secret) else None;
        return if parsed.Some? then Ok(parsed.value) else Err(UnreadableCa);
      }
      if existing != Refused(NotFound) {
        return Err(Api(ErrorOf(existing)));
      }
      result := CreateCa(job);
    }

    /** The part of ensureNamespaceCA that found no CA: make one, and defer to the winner of a race. */
    method CreateCa(job: Job) returns (result: Result<Ca, Error>)
      requires At(GenerateCaKey(job), played)
      modifies this
      ensures At(match result case Ok(ca) => FindCert(job, ca) case Err(e) => Failed(e), old(played))
    {
      hide GenerateCa, CaSecret, ChildObject, StatusOf;
      var made, now, key := Call(Local);
      if !made.Done? {
        return Err(SigningFailed);
      }
      var ca := GenerateCa(key, now, now);
      var r, _, _ := Call(Create(CaKey(job.b.ns), SecretObject(CaSecret(ca))));
      if r.Done? {
        return Ok(ca);
      }
      if r != Refused(AlreadyExists) {
        return Err(Api(ErrorOf(r)));
      }
      result := RereadCa(job);
    }

    /** The part of ensureNamespaceCA that lost the race: read the winner's CA. */
    method RereadCa(job: Job) returns (result: Result<Ca, Error>)
      requires At(RefindCa(job), played)
      modifies this
      ensures At(match result case Ok(ca) => FindCert(job, ca) case Err(e) => Failed(e), old(played))
    {
      var stored, _, _ := Call(Get(CaKey(job.b.ns)));
      if !stored.Found? {
        return Err(Api(ErrorOf(stored)));
      }
      var parsed := if stored.entry.obj.SecretObject? then ReadCa(stored.entry.obj.secret) else None;
      return if parsed.Some? then Ok(parsed.value) else Err(UnreadableCa);
    }

    /** ensureBuilderServerCert, after its host check. */
    method EnsureBuilderServerCert(job: Job) returns (err: Option<Error>)
      requires At(FindCa(job), played)
      modifies this
      ensures At(OrFailed(err, Find(job, Ingress)), old(played))
    {
      var issuer := EnsureNamespaceCa(job);
      if issuer.Err? {
        return Some(issuer.error);
      }
      err := EnsureServerSecret(job, issuer.value);
    }

    /** The part of ensureBuilderServerCert that has a CA: keep the stored Secret or renew it. */
    method EnsureServerSecret(job: Job, ca: Ca) returns (err: Option<Error>)
      requires At(FindCert(job, ca), played)
      modifies this
      ensures At(OrFailed(err, Find(job, Ingress)), old(played))
    {
      var existing, now, _ := Call(Get(TlsKey(job.b.ns, job.b.name)));
      if existing.Found? {
        if !existing.entry.obj.SecretObject? {
          return Some(Api(Undecodable));
        }
        if !NeedsRenewal(existing.entry.obj.secret, HostOf(job.b), now) {
          return None;
        }
        err := StoreServerSecret(job, ca, Some(existing.entry));
      } else if existing == Refused(NotFound) {
        err := StoreServerSecret(job, ca, None);
      } else {
        return Some(Api(ErrorOf(existing)));
      }
    }

    /** Sign a certificate and create or update the Secret; a create that finds one already there is fine. */
    method StoreServerSecret(job: Job, ca: Ca, stale: Option<Entry>) returns (err: Option<Error>)
      requires stale.Some? ==> stale.value.obj.SecretObject?
      requires At(SignCert(job, ca, stale), played)
      modifies this
      ensures At(OrFailed(err, Find(job, Ingress)), old(played))
    {
      var k, host := TlsKey(job.b.ns, job.b.name), HostOf(job.b);
      var signed, signedAt, key := Call(Local);
      if !signed.Done? {
        return Some(SigningFailed);
      }
      var data := ServerData(ca, SignServer(ca, host, key, signedAt, signedAt));
      if stale.None? {
        var made, _, _ := Call(Create(k, SecretObject(Secret(map[CERT_HOST := host], data))));
        return if made.Done? || made == Refused(AlreadyExists) then None else Some(Api(ErrorOf(made)));
      }
      var annotations := stale.value.obj.secret.annotations;
      annotations := annotations[CERT_HOST := host];
      var r, _, _ := Call(Update(k, SecretObject(Secret(annotations, data)), stale.value.rv));
      return if r.Done? then None else Some(Api(ErrorOf(r)));
    }

    /** deleteIngressRouteIfExists. */
    method DeleteIngressRouteIfExists(job: Job) returns (err: Option<Error>)
      requires At(DropRoute(job), played)
      modifies this
      ensures At(OrFailed(err, DropCert(job)), old(played))
    {
      var r, _, _ := Call(Delete(RouteKey(job.b.ns, job.b.name)));
      return if r.Done? || r == Refused(NotFound) then None else Some(Api(ErrorOf(r)));
    }

    /** deleteBuilderServerCert. */
    method DeleteBuilderServerCert(job: Job) returns (err: Option<Error>)
      requires At(DropCert(job), played)
      modifies this
      ensures At(OrFailed(err, AfterExposure(job)), old(played))
    {
      var r, _, _ := Call(Delete(TlsKey(job.b.ns, job.b.name)));
      return if r.Done? || r == Refused(NotFound) then None else Some(Api(ErrorOf(r)));
    }

    /** reconcileExposure. */
    method ReconcileExposure(job: Job) returns (err: Option<Error>)
      requires At(AfterServices(job), played)
      modifies this
      ensures At(OrFailed(err, AfterExposure(job)), old(played))
    {
      if !Exposed(job.b) {
        err := DeleteIngressRouteIfExists(job);
        if err.Some? {
          return;
        }
        err := DeleteBuilderServerCert(job);
        return;
      }
      var e := job.b.spec.exposure.value;
      if e.ingressController != "" && e.ingressController != TRAEFIK {
        return Some(UnsupportedController);
      }
      if e.host == "" {
        return Some(HostRequired);
      }
      err := EnsureBuilderServerCert(job);
      if err.Some? {
        return;
      }
      var route := BuildRoute(job.b);
      err := CreateOrUpdateIngressRoute(job, route);
    }

    // -- Endpoint and status ---------------------------------------------------------------

    /** The counting loop of resolveStatefulSetEndpoint. */
    static method CountReady(pods: seq<Pod>) returns (endpoint: string, ready: nat)
      ensures endpoint == EndpointOf(pods) && ready == ReadyCount(pods)
    {
      endpoint, ready := "", 0;
      var i := 0;
      while i < |pods|
        invariant 0 <= i <= |pods|
        invariant ReadyCount(pods) == ready + ReadyCount(pods[i..])
        invariant EndpointOf(pods) == if endpoint == "" then EndpointOf(pods[i..]) else endpoint
      {
        if Ready(pods[i]) {
          ready := ready + 1;
          if endpoint == "" {
            endpoint := Address(pods[i]);
          }
        }
        i := i + 1;
      }
    }

    /** resolveNodePort. */
    method ResolveNodePort(job: Job, report: Report) returns (port: int, now: int)
      requires At(ReadPort(job, report), played)
      modifies this
      ensures At(Publish(job, report, port, now), old(played))
    {
      var found, t, _ := Call(Get(ClientKey(job.b.ns, job.b.name)));
      port, now := 0, t;
      if found.Found? && found.entry.obj.ServiceObject? && found.entry.obj.service.nodePort > 0 {
        port := found.entry.obj.service.nodePort;
      }
    }

    /** updateStatus and updateStatusWithLastScaled. */
    method UpdateStatus(job: Job, report: Report, port: int, now: int) returns (result: Result<Outcome, Error>)
      requires At(Publish(job, report, port, now), played)
      modifies this
      ensures At(match result case Ok(o) => Finished(o) case Err(e) => Failed(e), old(played))
    {
      hide ChildObject, Overwrite, RenewedSecret, PersistentStatus, SleepyStatus;
      var resource := new BuilderResource.Resource(job.b);
      match report.scaledAt {
        case None =>
          resource.RecordStatus(report.phase, report.endpoint, report.ready, report.desired, port, now);
        case Some(t) =>
          resource.RecordScaledStatus(report.phase, report.endpoint, report.ready, report.desired, port, t, now);
      }
      var r, _, _ := Call(Request.UpdateStatus(BuilderKey(job.b.ns, job.b.name), resource.status, job.rv));
      return if r.Done? then Ok(Reported(job, report, port, now)) else Err(Api(ErrorOf(r)));
    }

    // -- Passes ----------------------------------------------------------------------------

    /** The first stages both modes share: ConfigMap and Services. */
    method EnsureServices(job: Job) returns (err: Option<Error>)
      requires At(Find(job, ConfigMap), played)
      modifies this
      ensures At(OrFailed(err, AfterServices(job)), old(played))
    {
      err := EnsureBuildkitdConfigMap(job);
      if err.Some? {
        return;
      }
      var headless := BuildHeadlessService(job.b);
      err := CreateOrUpdateService(job, Headless, headless);
      if err.Some? {
        return;
      }
      var client := BuildClientService(job.b);
      err := CreateOrUpdateService(job, Client, client);
    }

    /** The claim, when the cache asks for one. */
    method EnsureClaim(job: Job) returns (err: Option<Error>)
      requires At(AfterExposure(job), played)
      modifies this
      ensures At(OrFailed(err, AfterCache(job)), old(played))
    {
      err := None;
      if UsesClaim(job.spec) {
        err := CreateOrUpdatePvc(job, ClaimFor(job.spec.cache.pvc.value));
      }
    }

    /** Everything before the StatefulSet: ConfigMap, Services, exposure, claim. */
    method EnsureCommon(job: Job) returns (err: Option<Error>)
      requires At(Find(job, ConfigMap), played)
      modifies this
      ensures At(OrFailed(err, AfterCache(job)), old(played))
    {
      err := EnsureServices(job);
      if err.Some? {
        return;
      }
      err := ReconcileExposure(job);
      if err.Some? {
        return;
      }
      err := EnsureClaim(job);
    }

    /** Render the StatefulSet with this replica count and write it. */
    method EnsureWorkload(job: Job, replicas: int32, ghost at: int) returns (err: Option<Error>, now: int)
      requires At(Find(job, Workload(replicas, at)), played)
      modifies this
      ensures At(OrFailed(err, AfterWorkload(job, replicas, at, now)), old(played))
    {
      var st := BuildStatefulSet(job.b, job.spec, replicas);
      err, now := CreateOrUpdateStatefulSet(job, st, at);
    }

    /** reconcilePersistent. */
    method ReconcilePersistent(job: Job) returns (result: Result<Outcome, Error>)
      requires job.b.spec.mode != SLEEPY
      requires At(Find(job, ConfigMap), played)
      modifies this
      ensures At(match result case Ok(o) => Finished(o) case Err(e) => Failed(e), old(played))
    {
      hide Ask, Hear, Serve, AfterServices, AfterExposure, StatefulSetFor;
      var err := EnsureCommon(job);
      if err.Some? {
        return Err(err.value);
      }
      var replicas: int32 := 1;
      if job.b.spec.replicas.Some? {
        replicas := job.b.spec.replicas.value;
      }
      var workload, _ := EnsureWorkload(job, replicas, job.since);
      if workload.Some? {
        return Err(workload.value);
      }
      result := ReportPersistent(job, replicas);
    }

    /** The end of reconcilePersistent: resolve the endpoint, then wait or report. */
    method ReportPersistent(job: Job, replicas: int32) returns (result: Result<Outcome, Error>)
      requires job.b.spec.mode != SLEEPY
      requires At(ReadPods(job, replicas, job.since), played)
      modifies this
      ensures At(match result case Ok(o) => Finished(o) case Err(e) => Failed(e), old(played))
    {
      hide ChildObject, StatusOf, Serve;
      var listed, _, _ := Call(ListPods(job.b.ns, NAME_KEY, job.b.name));
      if !listed.Listed? {
        return Err(Api(ErrorOf(listed)));
      }
      var endpoint, ready := CountReady(listed.pods);
      if endpoint == "" {
        return Ok(Waiting(job));
      }
      var report := Report(READY, endpoint, ready, replicas, job.since, None);
      var port, now := ResolveNodePort(job, report);
      result := UpdateStatus(job, report, port, now);
    }

    /** reconcileSleepy. */
    method ReconcileSleepy(job: Job) returns (result: Result<Outcome, Error>)
      requires job.b.spec.mode == SLEEPY
      requires At(Find(job, ConfigMap), played)
      modifies this
      ensures At(match result case Ok(o) => Finished(o) case Err(e) => Failed(e), old(played))
    {
      hide Ask, Hear, Serve;
      var err := EnsureCommon(job);
      if err.Some? {
        return Err(err.value);
      }
      var desired, at := DecideReplicas(job);
      var workload, now := EnsureWorkload(job, desired, at);
      if workload.Some? {
        return Err(workload.value);
      }
      result := ReportSleepy(job, desired, at, now);
    }

    /** The end of reconcileSleepy: resolve the endpoint when awake, and report. */
    method ReportSleepy(job: Job, desired: int32, at: int, scaledAt: int) returns (result: Result<Outcome, Error>)
      requires job.b.spec.mode == SLEEPY
      requires At(AfterWorkload(job, desired, at, scaledAt), played)
      modifies this
      ensures At(match result case Ok(o) => Finished(o) case Err(e) => Failed(e), old(played))
    {
      var phase, now := SCALING_DOWN, scaledAt;
      if desired == 1 {
        phase := READY;
      }
      var endpoint, ready := "", 0;
      if desired == 1 {
        var listed, t, _ := Call(ListPods(job.b.ns, NAME_KEY, job.b.name));
        if !listed.Listed? {
          return Err(Api(ErrorOf(listed)));
        }
        now := t;
        endpoint, ready := CountReady(listed.pods);
      }
      var report := Report(phase, endpoint, ready, desired, at, Some(now));
      var port, stamp := ResolveNodePort(job, report);
      result := UpdateStatus(job, report, port, stamp);
    }

    /** The scaling decision of reconcileSleepy, reading the clock once. */
    method DecideReplicas(job: Job) returns (desired: int32, at: int)
      requires At(Decide(job), played)
      modifies this
      ensures At(Find(job, Workload(desired, at)), old(played))
      ensures desired == DesiredReplicas(job.b, at) && at == system.now.clock
    {
      var idle := DEFAULT_IDLE_TIMEOUT;
      if job.b.spec.idleTimeout.Some? {
        idle := job.b.spec.idleTimeout.value;
      }
      var _, now, _ := Call(Local);
      desired, at := 0, now;
      if job.b.lastUsed.Instant? {
        if RecentlyUsed(now, job.b.lastUsed.t, idle) {
          desired := 1;
        }
      }
      if job.b.lastUsed.Unset? {
        desired := 1;
      }
    }

    /** resolveSpec. */
    method ResolveSpec(b: Builder, ghost rv: nat, ghost since: int) returns (result: Result<TemplateSpec, Error>)
      requires At(if b.spec.templateRef.Some?
                  then ReadTemplate(b, rv, since)
                  else AfterResolve(b, rv, since, None), played)
      modifies this
      ensures At(match result
                 case Ok(spec) =>
                   if b.deleting then Finished(Deleting)
                   else if KnownMode(b) then Find(Job(b, rv, spec, since), ConfigMap)
                   else Failed(UnknownMode)
                 case Err(e) => Failed(e), old(played))
    {
      var lower: Option<TemplateSpec> := None;
      if b.spec.templateRef.Some? {
        var found, _, _ := Call(Get(Key(Templates, b.ns, b.spec.templateRef.value)));
        if !found.Found? || !found.entry.obj.TemplateObject? {
          return Err(Api(ErrorOf(found)));
        }
        lower := Some(found.entry.obj.template);
      }
      if b.spec.inlineTemplate.Some? {
        var merged := Merge.MergeSpec(lower, b.spec.inlineTemplate);
        lower := Some(merged);
      }
      if lower.None? {
        return Err(NoSpec);
      }
      return Ok(lower.value);
    }

    /**
     * Reconcile. For every script of interference the execution is a run of the machine that ends
     * where the result says. When nothing disturbs it, a good end means convergence, and a
     * repairable builder in an agreed namespace always gets one.
     */
    method Reconcile(ns: string, name: string) returns (result: Result<Outcome, Error>)
      requires At(Start(ns, name), played)
      modifies this
      ensures At(match result case Ok(o) => Finished(o) case Err(e) => Failed(e), old(played))
      ensures system == Run(old(system), played[|old(played)|..])
      ensures quiet && result.Ok? ==> EndsConverged(old(system).now, system.now, ns, name, result.value)
      ensures quiet && Repairable(old(system).now, ns, name) && Agreed(old(system), ns) ==>
                result.Ok? && (result.value.Waiting? || result.value.Reported?)
    {
      ghost var before, start := played, system;
      result := ReconcileSteps(ns, name);
      ghost var rest := played[|before|..];
      assert played == before + rest;
      RunConcat(initial, before, rest);
      if quiet {
        QuietIsCalm(id, ns, name, start, rest);
        CompletePassConverges(start, rest, id, ns, name);
        if Repairable(start.now, ns, name) && Agreed(start, ns) {
          QuietLeavesCaAlone(id, ns, start, rest);
          RepairCompletes(start, rest, id, ns, name);
        }
      }
    }

    method ReconcileSteps(ns: string, name: string) returns (result: Result<Outcome, Error>)
      requires At(Start(ns, name), played)
      modifies this
      ensures At(match result case Ok(o) => Finished(o) case Err(e) => Failed(e), old(played))
    {
      hide AfterResolve, ChildObject, StatusOf, RenewedSecret;
      var found, since, _ := Call(Get(BuilderKey(ns, name)));
      if found == Refused(NotFound) {
        return Ok(Gone);
      }
      if !found.Found? || !found.entry.obj.BuilderObject? || found.entry.obj.builder.ns != ns
          || found.entry.obj.builder.name != name {
        return Err(Api(ErrorOf(found)));
      }
      var b, rv := found.entry.obj.builder, found.entry.rv;
      var resolved := ResolveSpec(b, rv, since);
      if resolved.Err? {
        return Err(resolved.error);
      }
      if b.deleting {
        return Ok(Deleting);
      }
      result := ReconcileByMode(Job(b, rv, resolved.value, since));
    }

    /** The switch of Reconcile on the mode. */
    method ReconcileByMode(job: Job) returns (result: Result<Outcome, Error>)
      requires At(if KnownMode(job.b) then Find(job, ConfigMap) else Failed(UnknownMode), played)
      modifies this
      ensures At(match result case Ok(o) => Finished(o) case Err(e) => Failed(e), old(played))
    {
      hide Ask, Hear;
      assert PERSISTENT[0] == 'p' && SLEEPY[0] == 's';
      if job.b.spec.mode == PERSISTENT {
        result := ReconcilePersistent(job);
      } else if job.b.spec.mode == SLEEPY {
        result := ReconcileSleepy(job);
      } else {
        return Err(UnknownMode);
      }
    }
  }
}
