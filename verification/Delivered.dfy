/**
 * What an undisturbed pass leaves in the store, in the names, constants and fields of the builder
 * and its templates. Nothing here goes through the renderers of the model.
 */
module Delivered {
  import opened Prelude
  import opened Types
  import opened Idle
  import opened Certificates
  import opened Labels
  import opened Render
  import opened Store
  import opened Pass
  import opened Machine
  import opened Convergence
  import opened Repair
  import Toml
  import TomlTables

  // -- The resolved spec ---------------------------------------------------------------------

  /** The template the builder names, in the store the pass began in. */
  function Named(w0: World, b: Builder): Option<TemplateSpec> {
    match b.spec.templateRef
    case None => None
    case Some(t) =>
      var k := Key(Templates, b.ns, t);
      if k in w0.objects && w0.objects[k].obj.TemplateObject? then Some(w0.objects[k].obj.template) else None
  }

  /** Field by field: the inline template where it sets the field, else the named one, else nothing. */
  predicate SpecIs(w0: World, b: Builder, spec: TemplateSpec) {
    var inline, named := b.spec.inlineTemplate, Named(w0, b);
    && (inline.Some? || named.Some?)
    && (b.spec.templateRef.Some? ==> named.Some?)
    && spec.image == (if inline.Some? && inline.value.image != "" then inline.value.image
                      else if named.Some? then named.value.image else "")
    && spec.rootless == (if inline.Some? then inline.value.rootless else named.value.rootless)
    && spec.resources ==
       (if inline.Some? && (inline.value.resources.limits != map[] || inline.value.resources.requests != map[])
        then inline.value.resources
        else if named.Some? then named.value.resources else Resources(map[], map[], []))
    && spec.nodeSelector == (if inline.Some? && inline.value.nodeSelector.Some? then inline.value.nodeSelector
                             else if named.Some? then named.value.nodeSelector else None)
    && spec.tolerations == (if inline.Some? && inline.value.tolerations.Some? then inline.value.tolerations
                            else if named.Some? then named.value.tolerations else None)
    && spec.affinity == (if inline.Some? && inline.value.affinity.Some? then inline.value.affinity
                         else if named.Some? then named.value.affinity else None)
    && spec.toml == (if inline.Some? && inline.value.toml != "" then inline.value.toml
                     else if named.Some? then named.value.toml else "")
    && spec.cache == (if inline.Some? && inline.value.cache.kind != "" then inline.value.cache
                      else if named.Some? then named.value.cache else CacheConfig("", None, None))
    && spec.arch == (if inline.Some? && inline.value.arch != "" then inline.value.arch
                     else if named.Some? then named.value.arch else "")
  }

  lemma NonEmptyMap(m: map<string, string>)
    ensures |m| > 0 <==> m != map[]
  {
    if m != map[] {
      var k :| k in m;
      assert |m| == 1 + |m - {k}|;
    }
  }

  lemma ResolvedIs(w0: World, job: Job)
    requires WorksFrom(w0, job)
    ensures SpecIs(w0, job.b, job.spec)
  {
    assert TemplateOf(w0, job.b) == Named(w0, job.b);
    if job.b.spec.inlineTemplate.Some? {
      NonEmptyMap(job.b.spec.inlineTemplate.value.resources.limits);
      NonEmptyMap(job.b.spec.inlineTemplate.value.resources.requests);
    }
  }

  /**
   * How a pass goes on once templates are read: it fails without any template, ends for a builder
   * that is being deleted, fails for a mode it does not know, and otherwise starts on the ConfigMap.
   */
  lemma ResolveMeaning(b: Builder, rv: nat, since: int, template: Option<TemplateSpec>)
    ensures var next := AfterResolve(b, rv, since, template);
            var specless := template.None? && b.spec.inlineTemplate.None?;
            var known := b.spec.mode == "persistent" || b.spec.mode == "sleepy";
            && (next == Failed(NoSpec) <==> specless)
            && (next == Finished(Deleting) <==> !specless && b.deleting)
            && (next == Failed(UnknownMode) <==> !specless && !b.deleting && !known)
            && (!specless && !b.deleting && known ==>
                  next.Find? && next.child == ConfigMap && next.job.b == b && next.job.rv == rv
                      && next.job.since == since)
  {
  }

  // -- The children --------------------------------------------------------------------------

  predicate IsExposed(b: Builder) {
    b.spec.exposure.Some? && b.spec.exposure.value.enabled
  }

  predicate WantsClaim(spec: TemplateSpec) {
    spec.cache.kind == "pvc" && spec.cache.pvc.Some?
  }

  /** The user's text or a default, with a listener before it and a TLS section after it where they are missing. */
  function ConfigText(user: string, exposed: bool): string {
    var listener := "[grpc]\n" + ("  address = [ \"tcp://0.0.0.0:1234\" ]\n" + "\n");
    var text :=
      if user == "" then
        listener
        + ("[worker.containerd]\n" + ("  enabled = false\n" + ("\n" + ("[worker.oci]\n" + "  enabled = true\n"))))
      else if Contains(user, "tcp://") then user
      else listener + user;
    if exposed && !Contains(text, "[grpc.tls]") then
      text + ("\n" + ("[grpc.tls]\n" + ("  cert = \"/etc/buildkit-tls/tls.crt\"\n"
                      + ("  key = \"/etc/buildkit-tls/tls.key\"\n" + "  ca = \"/etc/buildkit-tls/ca.crt\"\n"))))
    else text
  }

  /**
   * The configuration: a tcp listener, the user's text, and TLS whenever exposed; a complete text
   * of the user is left alone.
   */
  predicate ConfigMapIs(w: World, b: Builder, spec: TemplateSpec) {
    var k := Key(ConfigMaps, b.ns, "builder-" + b.name + "-buildkitd");
    && k in w.objects && w.objects[k].obj.ConfigMapObject?
    && var data := w.objects[k].obj.data;
       && data.Keys == {"buildkitd.toml"}
       && var text := data["buildkitd.toml"];
          && text == ConfigText(spec.toml, IsExposed(b))
          && Contains(text, "tcp://") && Contains(text, spec.toml)
          && (IsExposed(b) ==> Contains(text, "[grpc.tls]"))
          && (!IsExposed(b) ==> (Contains(text, "[grpc.tls]") <==> Contains(spec.toml, "[grpc.tls]")))
          && ((spec.toml != "" && Contains(spec.toml, "tcp://") && (IsExposed(b) ==> Contains(spec.toml, "[grpc.tls]")))
              ==> text == spec.toml)
  }

  /** The label of a pod and selector: reserved pair, overlaid with the user's acceptable labels. */
  ghost predicate LabelsAre(labels: map<string, string>, b: Builder) {
    forall k: string ::
      var user := k in b.spec.labels && ValidLabelValue(b.spec.labels[k]);
      && (k in labels <==> user || k == "builder.builder-hub.dev/name" || k == "builder.builder-hub.dev/mode")
      && (user ==> labels[k] == b.spec.labels[k])
      && (!user && k == "builder.builder-hub.dev/name" ==> labels[k] == b.name)
      && (!user && k == "builder.builder-hub.dev/mode" ==> labels[k] == b.spec.mode)
  }

  predicate ArgsAre(args: seq<string>, spec: TemplateSpec) {
    args == (if spec.rootless then ["--oci-worker-no-process-sandbox"] else [])
        + ["--config", "/etc/buildkit/buildkitd.toml"]
  }

  predicate VolumesAre(volumes: seq<Volume>, b: Builder, spec: TemplateSpec) {
    volumes ==
    [Volume("buildkitd-config", FromConfigMap("builder-" + b.name + "-buildkitd"))]
    + (if IsExposed(b) then [Volume("builder-tls", FromSecret("builder-" + b.name + "-tls"))] else [])
    + [Volume("cache", if WantsClaim(spec) then FromClaim("builder-" + b.name + "-cache") else EmptyDir)]
    + (if spec.cache.kind == "s3" && spec.cache.s3.Some? && spec.cache.s3.value.secretRef.Some?
       then [Volume("s3-creds", Projected(spec.cache.s3.value.secretRef.value))] else [])
  }

  predicate MountsAre(mounts: seq<Mount>, b: Builder, spec: TemplateSpec) {
    mounts ==
    [Mount("buildkitd-config", "/etc/buildkit", false)]
    + (if IsExposed(b) then [Mount("builder-tls", "/etc/buildkit-tls", true)] else [])
    + [Mount("cache", if spec.rootless then "/home/user/.local/share/buildkit" else "/var/lib/buildkit", false)]
    + (if spec.cache.kind == "s3" && spec.cache.s3.Some? && spec.cache.s3.value.secretRef.Some?
       then [Mount("s3-creds", "/etc/buildkit/s3-creds", true)] else [])
  }

  ghost predicate NodesAre(selector: map<string, string>, spec: TemplateSpec) {
    var user := if spec.nodeSelector.Some? then spec.nodeSelector.value else map[];
    forall k: string ::
      && (k in selector <==> k in user || (k == "kubernetes.io/arch" && spec.arch != ""))
      && (k in user ==> selector[k] == user[k])
      && (k !in user && k in selector ==> selector[k] == spec.arch)
  }

  /** The StatefulSet with `n` replicas: governed by the headless Service, its pod as the resolved spec says. */
  ghost predicate WorkloadIs(w: World, b: Builder, spec: TemplateSpec, n: int) {
    var k := Key(StatefulSets, b.ns, "builder-" + b.name);
    && k in w.objects && w.objects[k].obj.StatefulSetObject?
    && var st := w.objects[k].obj.statefulSet;
       && st.replicas == n && st.serviceName == "builder-" + b.name
       && st.selector == st.podLabels && LabelsAre(st.podLabels, b)
       && st.pod.image == spec.image && st.pod.rootless == spec.rootless && st.pod.resources == spec.resources
       && st.pod.tolerations == spec.tolerations && st.pod.affinity == spec.affinity
       && ArgsAre(st.pod.args, spec) && NodesAre(st.pod.nodeSelector, spec)
       && VolumesAre(st.pod.volumes, b, spec) && MountsAre(st.pod.mounts, b, spec)
  }

  /** Both Services, selecting those pods: one headless unless found otherwise, one with a node port. */
  ghost predicate ServicesAre(w0: World, w: World, b: Builder) {
    var headless := Key(Services, b.ns, "builder-" + b.name);
    var client := Key(Services, b.ns, "builder-" + b.name + "-client");
    && headless in w.objects && w.objects[headless].obj.ServiceObject?
    && client in w.objects && w.objects[client].obj.ServiceObject?
    && var h, c := w.objects[headless].obj.service, w.objects[client].obj.service;
       && h.kind == ClusterIpType && LabelsAre(h.selector, b) && (headless !in w0.objects ==> h.clusterIp == "None")
       && c.kind == NodePortType && LabelsAre(c.selector, b) && c.nodePort != 0
       && (client in w0.objects && w0.objects[client].obj.ServiceObject? ==>
             c.clusterIp == w0.objects[client].obj.service.clusterIp)
  }

  /** A claim that was there is untouched; one is made exactly when the cache asks for it. */
  predicate ClaimIs(w0: World, w: World, b: Builder, spec: TemplateSpec) {
    var k := Key(Claims, b.ns, "builder-" + b.name + "-cache");
    && (k in w0.objects ==> k in w.objects && w.objects[k].obj == w0.objects[k].obj)
    && (k !in w0.objects ==> (k in w.objects <==> WantsClaim(spec)))
    && (k !in w0.objects && WantsClaim(spec) ==>
          var pvc := spec.cache.pvc.value;
          w.objects[k].obj == ClaimObject(Claim(
            if pvc.accessModes == [] then ["ReadWriteOnce"] else pvc.accessModes,
            if pvc.storageClass == "" then None else Some(pvc.storageClass),
            if pvc.size == "" then "100Gi" else pvc.size)))
  }

  predicate RouteIs(r: Route, b: Builder, e: Exposure) {
    && r.rule == "HostSNI(`" + e.host + "`)" && r.service == "builder-" + b.name && r.passthrough
    && r.entryPoint == (if e.entryPoint == "" then "websecure" else e.entryPoint)
    && r.annotations == map["external-dns.alpha.kubernetes.io/hostname" := e.host] + e.annotations
  }

  /** For the host, and with 30 days left at `start`. */
  predicate CertIs(s: Secret, e: Exposure, start: int) {
    && "builder-hub.dev/cert-host" in s.annotations && s.annotations["builder-hub.dev/cert-host"] == e.host
    && "tls.crt" in s.data && s.data["tls.crt"].CertificatePem? && "tls.key" in s.data && s.data["tls.key"].KeyPem?
    && start + 30 * 86_400 * 1_000_000_000 <= s.data["tls.crt"].cert.notAfter
  }

  /** For an exposed builder the route to its host and a certificate for it; otherwise neither. */
  predicate ExposureIs(w0: World, w: World, b: Builder) {
    var route, tls := Key(Routes, b.ns, "builder-" + b.name), Key(Secrets, b.ns, "builder-" + b.name + "-tls");
    if !IsExposed(b) then route !in w.objects && tls !in w.objects
    else
      var e := b.spec.exposure.value;
      && e.host != ""
      && route in w.objects && w.objects[route].obj.RouteObject? && RouteIs(w.objects[route].obj.route, b, e)
      && tls in w.objects && w.objects[tls].obj.SecretObject? && CertIs(w.objects[tls].obj.secret, e, w0.clock)
  }

  /** The replica count: the builder's own, 1 unless it says otherwise, or the decision at an instant of the pass. */
  ghost predicate CountIs(w0: World, w: World, b: Builder, n: int) {
    && (b.spec.mode == "persistent" ==> n == if b.spec.replicas.Some? then b.spec.replicas.value else 1)
    && (b.spec.mode == "sleepy" ==> exists at | w0.clock <= at <= w.clock :: SleepyCount(b, at, n))
    && (b.spec.mode == "persistent" || b.spec.mode == "sleepy")
  }

  predicate SleepyCount(b: Builder, at: int, n: int) {
    match b.lastUsed
    case Unset => n == 1
    case Unparseable => n == 0
    case Instant(t) =>
      var timeout := if b.spec.idleTimeout.Some? then b.spec.idleTimeout.value else 300;
      n == if at < t + timeout * 1_000_000_000 then 1 else 0
  }

  /** The builder is as it was read, its status apart; that one says what was delivered. */
  predicate StatusIs(w: World, b: Builder, n: int, reported: bool) {
    var k, client := Key(Builders, b.ns, b.name), Key(Services, b.ns, "builder-" + b.name + "-client");
    && k in w.objects && w.objects[k].obj.BuilderObject?
    && var now := w.objects[k].obj.builder;
       && now == b.(status := now.status)
       && (!reported ==> now.status == b.status && b.spec.mode == "persistent")
       && (reported ==>
             var s := now.status;
             && s.desiredReplicas == n
             && s.phase == (if b.spec.mode == "sleepy" && n != 1 then "ScalingDown" else "Ready")
             && (b.spec.mode == "sleepy" && n != 1 ==> s.endpoint == "" && s.readyReplicas == 0)
             && (b.spec.mode == "sleepy" ==> s.lastScaledAt.Some?)
             && (b.spec.mode == "persistent" ==> s.lastScaledAt == b.status.lastScaledAt && s.endpoint != "")
             && (IsExposed(b) ==> s.externalEndpoint == "tcp://" + b.spec.exposure.value.host + ":443"
                                  && s.tlsSecretName == "builder-" + b.name + "-tls")
             && (!IsExposed(b) ==> s.externalEndpoint == "" && s.tlsSecretName == "")
             && client in w.objects && w.objects[client].obj.ServiceObject?
             && var port := w.objects[client].obj.service.nodePort;
                s.nodePort == if port > 0 then port else 0)
  }

  // -- Proofs, one object at a time ------------------------------------------------------------

  lemma ConfigTextDelivered(user: string, exposed: bool)
    ensures Toml.Rendered(user, exposed) == ConfigText(user, exposed)
  {
    hide Contains, Toml.Lines, Toml.LISTENER_LINES, Toml.WORKER_LINES, Toml.TLS_LINES;
    Toml.ListenerBlockIs();
    Toml.DefaultTomlIs();
    Toml.TlsBlockIs();
    TomlTables.DefaultDeclaresOneTable();
    assert Toml.LISTENER == "tcp://" && Toml.TLS_HEADER == "[grpc.tls]";
  }

  lemma ConfigMapDelivered(w: World, job: Job)
    requires Holds(w, ConfigMapKey(job.b.ns, job.b.name), ChildObject(job, ConfigMap))
    ensures ConfigMapIs(w, job.b, job.spec)
  {
    hide Contains, ConfigText, Toml.WithDefault, Toml.WithListener, Toml.WithTls;
    ConfigTextDelivered(job.spec.toml, Exposed(job.b));
    var text := Toml.Rendered(job.spec.toml, Exposed(job.b));
    Toml.RenderedMeaning(job.spec.toml, Exposed(job.b));
    if !Exposed(job.b) {
      Toml.UnexposedAddsNoTls(job.spec.toml);
    }
    if job.spec.toml != "" && Contains(job.spec.toml, "tcp://")
       && (Exposed(job.b) ==> Contains(job.spec.toml, "[grpc.tls]")) {
      Toml.CompleteTextIsKept(job.spec.toml, Exposed(job.b));
    }
    assert w.objects[ConfigMapKey(job.b.ns, job.b.name)].obj == ConfigMapObject(map["buildkitd.toml" := text]);
  }

  lemma LabelsDelivered(b: Builder)
    ensures LabelsAre(LabelMap(b, b.spec.mode), b)
  {
    hide ValidLabelValue;
    forall k: string
      ensures var labels, user := LabelMap(b, b.spec.mode), k in b.spec.labels && ValidLabelValue(b.spec.labels[k]);
              && (k in labels <==> user || k == "builder.builder-hub.dev/name" || k == "builder.builder-hub.dev/mode")
              && (user ==> labels[k] == b.spec.labels[k])
              && (!user && k == "builder.builder-hub.dev/name" ==> labels[k] == b.name)
              && (!user && k == "builder.builder-hub.dev/mode" ==> labels[k] == b.spec.mode)
    {
      LabelMapMeaning(b, b.spec.mode, k);
    }
  }

  lemma PodDelivered(b: Builder, spec: TemplateSpec, n: int32)
    ensures var pod := StatefulSetFor(b, spec, n).pod;
            && pod.image == spec.image && pod.rootless == spec.rootless && pod.resources == spec.resources
            && pod.tolerations == spec.tolerations && pod.affinity == spec.affinity
            && ArgsAre(pod.args, spec) && NodesAre(pod.nodeSelector, spec)
  {
    assert [] + ["--config", "/etc/buildkit/buildkitd.toml"] == ["--config", "/etc/buildkit/buildkitd.toml"];
    forall k: string
      ensures var user := if spec.nodeSelector.Some? then spec.nodeSelector.value else map[];
              && (k in NodeSelector(spec) <==> k in user || (k == "kubernetes.io/arch" && spec.arch != ""))
              && (k in user ==> NodeSelector(spec)[k] == user[k])
              && (k !in user && k in NodeSelector(spec) ==> NodeSelector(spec)[k] == spec.arch)
    {
      NodeSelectorMeaning(spec, k);
    }
  }

  lemma VolumesDelivered(b: Builder, spec: TemplateSpec, n: int32)
    ensures var pod := StatefulSetFor(b, spec, n).pod;
            VolumesAre(pod.volumes, b, spec) && MountsAre(pod.mounts, b, spec)
  {
  }

  lemma WorkloadDelivered(w: World, job: Job, n: int32)
    requires WorkloadStored(w, job, n)
    ensures WorkloadIs(w, job.b, job.spec, n)
  {
    hide LabelsAre, ArgsAre, NodesAre, VolumesAre, MountsAre, LabelMap, PodFor;
    LabelsDelivered(job.b);
    PodDelivered(job.b, job.spec, n);
    VolumesDelivered(job.b, job.spec, n);
  }

  lemma ServicesDelivered(w0: World, w: World, job: Job)
    requires ServiceSettled(w0, w, HeadlessKey(job.b.ns, job.b.name), HeadlessService(job.b))
    requires ServiceSettled(w0, w, ClientKey(job.b.ns, job.b.name), ClientService(job.b))
    ensures ServicesAre(w0, w, job.b)
  {
    hide LabelsAre, LabelMap;
    LabelsDelivered(job.b);
  }

  lemma ClaimDelivered(w0: World, w: World, job: Job)
    requires ClaimSettled(w0, w, job)
    ensures ClaimIs(w0, w, job.b, job.spec)
  {
  }

  lemma ExposureDelivered(w0: World, w: World, job: Job)
    requires w0.clock <= job.since && RouteSettled(w, job)
    requires if Exposed(job.b) then CertSettled(w0, w, job) else TlsKey(job.b.ns, job.b.name) !in w.objects
    ensures ExposureIs(w0, w, job.b)
  {
  }

  lemma CountDelivered(w0: World, w: World, job: Job, n: int32, at: int)
    requires w0.clock <= job.since && KnownMode(job.b) && RightCount(w, job, n, at)
    ensures CountIs(w0, w, job.b, n)
  {
    assert PERSISTENT[0] == 'p' && SLEEPY[0] == 's';
    if job.b.spec.mode == SLEEPY {
      DecisionMeaning(job.b, at);
      assert SleepyCount(job.b, at, n);
    }
  }

  lemma StatusDelivered(w: World, job: Job, r: Report, port: int, t: int)
    requires KnownMode(job.b) && ReportFits(job, r) && port == StoredPort(w, job.b.ns, job.b.name)
    requires (job.b.spec.mode == SLEEPY ==> r.desired == 0 || r.desired == 1)
    requires ServicesAre(w, w, job.b) && (Exposed(job.b) ==> HostOf(job.b) != "")
    requires Holds(w, BuilderKey(job.b.ns, job.b.name), BuilderObject(job.b.(status := StatusOf(job.b, r, port, t))))
    ensures StatusIs(w, job.b, r.desired, true)
  {
    assert PERSISTENT[0] == 'p' && SLEEPY[0] == 's';
  }

  // -- The pass ------------------------------------------------------------------------------

  /** Everything an undisturbed pass that began in `w0` leaves behind for the builder as it was read. */
  ghost predicate Delivers(w0: World, w: World, b: Builder, spec: TemplateSpec, n: int, reported: bool) {
    && SpecIs(w0, b, spec)
    && ConfigMapIs(w, b, spec) && ServicesAre(w0, w, b) && ExposureIs(w0, w, b)
    && ClaimIs(w0, w, b, spec) && WorkloadIs(w, b, spec, n) && CountIs(w0, w, b, n)
    && StatusIs(w, b, n, reported)
  }

  lemma ConvergedDelivers(w0: World, w: World, ns: string, name: string, o: Outcome)
    requires o.Waiting? || o.Reported?
    requires EndsConverged(w0, w, ns, name, o)
    ensures var n := if o.Reported? then o.report.desired else PersistentReplicas(o.job.b);
            Delivers(w0, w, o.job.b, o.job.spec, n, o.Reported?)
  {
    hide SpecIs, ConfigMapIs, ServicesAre, ExposureIs, ClaimIs, WorkloadIs, CountIs, StatusIs;
    hide ServiceSettled, CertSettled, RouteSettled, ClaimSettled, StatefulSetFor, StatusOf, ChildObject;
    var job := o.job;
    var n := if o.Reported? then o.report.desired else PersistentReplicas(job.b);
    ResolvedIs(w0, job);
    ConfigMapDelivered(w, job);
    ServicesDelivered(w0, w, job);
    ClaimDelivered(w0, w, job);
    ExposureDelivered(w0, w, job);
    WorkloadDelivered(w, job, n);
    if o.Reported? {
      CountDelivered(w0, w, job, n, o.report.at);
      ReportedStatus(w0, w, ns, name, o);
    } else {
      WaitingStatus(w0, w, ns, name, o);
    }
  }

  lemma ReportedStatus(w0: World, w: World, ns: string, name: string, o: Outcome)
    requires o.Reported? && EndsConverged(w0, w, ns, name, o)
    ensures StatusIs(w, o.job.b, o.report.desired, true)
  {
    hide StatusIs, ClaimSettled, StatefulSetFor, StatusOf, ChildObject, ServicesAre;
    ServicesDelivered(w0, w, o.job);
    ServicesNow(w0, w, o.job.b);
    if o.job.b.spec.mode == SLEEPY {
      DecisionMeaning(o.job.b, o.report.at);
    }
    StatusDelivered(w, o.job, o.report, o.port, o.now);
  }

  lemma ServicesNow(w0: World, w: World, b: Builder)
    requires ServicesAre(w0, w, b)
    ensures ServicesAre(w, w, b)
  {
    hide LabelsAre;
  }

  lemma WaitingStatus(w0: World, w: World, ns: string, name: string, o: Outcome)
    requires o.Waiting? && EndsConverged(w0, w, ns, name, o)
    ensures StatusIs(w, o.job.b, PersistentReplicas(o.job.b), false)
    ensures CountIs(w0, w, o.job.b, PersistentReplicas(o.job.b))
  {
    hide Converged;
    assert PERSISTENT[0] == 'p' && SLEEPY[0] == 's';
  }

  /**
   * What a pass delivers. From any store whatsoever, an undisturbed pass that ends well after its
   * StatefulSet leaves exactly these objects for the builder it found, with the spec its templates
   * resolve to and the replica count of its mode.
   */
  lemma PassDelivers(s: System, labels: seq<Label>, id: nat, ns: string, name: string)
    requires id in s.workers && s.workers[id] == Start(ns, name)
    requires Calm(id, ns, name, s, labels)
    requires var e := Run(s, labels);
             && id in e.workers && e.workers[id].Finished?
             && (e.workers[id].outcome.Waiting? || e.workers[id].outcome.Reported?)
    ensures var e, k := Run(s, labels), Key(Builders, ns, name);
            && k in s.now.objects && s.now.objects[k].obj.BuilderObject?
            && exists spec: TemplateSpec, n: int ::
                 Delivers(s.now, e.now, s.now.objects[k].obj.builder, spec, n, e.workers[id].outcome.Reported?)
  {
    hide Calm, Step, EndsConverged, Delivers;
    CompletePassConverges(s, labels, id, ns, name);
    var e := Run(s, labels);
    ConvergedDelivers(s.now, e.now, ns, name, e.workers[id].outcome);
    FoundAsRead(s.now, e.now, ns, name, e.workers[id].outcome);
  }

  lemma FoundAsRead(w0: World, w: World, ns: string, name: string, o: Outcome)
    requires o.Waiting? || o.Reported?
    requires EndsConverged(w0, w, ns, name, o)
    ensures Holds(w0, Key(Builders, ns, name), BuilderObject(o.job.b))
  {
    hide Converged;
  }
}
