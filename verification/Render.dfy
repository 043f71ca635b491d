/** The child objects of a builder as pure functions of the builder and its resolved template. */
module Render {
  import opened Prelude
  import opened Types
  import opened Certificates
  import opened Labels
  import Toml

  datatype ServiceType = ClusterIpType | NodePortType

  /** `clusterIp` is "" and `nodePort` 0 until the API server fills them in. */
  datatype Service = Service(kind: ServiceType, clusterIp: string, nodePort: int, selector: map<string, string>)

  datatype Claim = Claim(accessModes: seq<string>, storageClass: Option<string>, size: string)

  datatype VolumeSource =
    | FromConfigMap(configMap: string)
    | FromSecret(secret: string)
    | FromClaim(claim: string)
    | EmptyDir
    | Projected(credentials: string)

  datatype Volume = Volume(name: string, source: VolumeSource)

  datatype Mount = Mount(volume: string, path: string, readOnly: bool)

  datatype PodSpec = PodSpec(
    rootless: bool,
    image: string,
    args: seq<string>,
    nodeSelector: map<string, string>,
    tolerations: Option<seq<string>>,
    affinity: Option<string>,
    resources: Resources,
    volumes: seq<Volume>,
    mounts: seq<Mount>)

  datatype StatefulSet = StatefulSet(
    replicas: int32,
    serviceName: string,
    selector: map<string, string>,
    podLabels: map<string, string>,
    pod: PodSpec)

  datatype Route = Route(entryPoint: string, rule: string, service: string, annotations: map<string, string>,
      passthrough: bool)

  datatype Object =
    | BuilderObject(builder: Builder)
    | TemplateObject(template: TemplateSpec)
    | ConfigMapObject(data: map<string, string>)
    | ServiceObject(service: Service)
    | SecretObject(secret: Secret)
    | ClaimObject(claim: Claim)
    | StatefulSetObject(statefulSet: StatefulSet)
    | RouteObject(route: Route)

  datatype Kind = Builders | Templates | ConfigMaps | Services | Secrets | Claims | StatefulSets | Routes

  datatype Key = Key(kind: Kind, ns: string, name: string)

  // -- Names ---------------------------------------------------------------------------------

  const PREFIX := "builder-"
  const CA_SECRET := "builderhub-builder-ca"
  const EXTERNAL_DNS := "external-dns.alpha.kubernetes.io/hostname"
  const CONFIG_FILE := "buildkitd.toml"

  function BuilderKey(ns: string, name: string): Key { Key(Builders, ns, name) }
  function ConfigMapKey(ns: string, name: string): Key { Key(ConfigMaps, ns, PREFIX + name + "-buildkitd") }
  function HeadlessKey(ns: string, name: string): Key { Key(Services, ns, PREFIX + name) }
  function ClientKey(ns: string, name: string): Key { Key(Services, ns, PREFIX + name + "-client") }
  function CaKey(ns: string): Key { Key(Secrets, ns, CA_SECRET) }
  function TlsKey(ns: string, name: string): Key { Key(Secrets, ns, TlsSecretName(name)) }
  function RouteKey(ns: string, name: string): Key { Key(Routes, ns, PREFIX + name) }
  function ClaimKey(ns: string, name: string): Key { Key(Claims, ns, ClaimName(name)) }
  function StatefulSetKey(ns: string, name: string): Key { Key(StatefulSets, ns, PREFIX + name) }

  function TlsSecretName(name: string): string { PREFIX + name + "-tls" }
  function ClaimName(name: string): string { PREFIX + name + "-cache" }

  /** Every object a pass for the builder may create, replace or delete, the shared CA apart. */
  function ChildKeys(ns: string, name: string): set<Key> {
    {ConfigMapKey(ns, name), HeadlessKey(ns, name), ClientKey(ns, name), TlsKey(ns, name),
     RouteKey(ns, name), ClaimKey(ns, name), StatefulSetKey(ns, name)}
  }

  /** One name is the other plus "-client". */
  predicate Collide(a: string, b: string) {
    a == b + "-client" || b == a + "-client"
  }

  lemma WrappedNamesDiffer(a: string, b: string, suffix: string)
    requires a != b
    ensures PREFIX + a + suffix != PREFIX + b + suffix
  {
    assert (PREFIX + a + suffix)[|PREFIX|..|PREFIX| + |a|] == a;
    assert (PREFIX + b + suffix)[|PREFIX|..|PREFIX| + |b|] == b;
  }

  lemma PrefixIsInjective(x: string, y: string)
    ensures PREFIX + x == PREFIX + y <==> x == y
  {
    assert (PREFIX + x)[|PREFIX|..] == x && (PREFIX + y)[|PREFIX|..] == y;
  }

  /**
   * Two different builders of a namespace share a child object exactly when one of them is named
   * like the other plus "-client"; then a headless Service meets a client Service.
   */
  lemma ChildrenAreDisjoint(ns: string, a: string, b: string)
    requires a != b
    ensures ChildKeys(ns, a) !! ChildKeys(ns, b) <==> !Collide(a, b)
  {
    WrappedNamesDiffer(a, b, "-buildkitd");
    WrappedNamesDiffer(a, b, "-tls");
    WrappedNamesDiffer(a, b, "-cache");
    WrappedNamesDiffer(a, b, "-client");
    PrefixIsInjective(a, b);
    PrefixIsInjective(a, b + "-client");
    PrefixIsInjective(a + "-client", b);
    assert PREFIX + (a + "-client") == PREFIX + a + "-client";
    assert PREFIX + (b + "-client") == PREFIX + b + "-client";
    if a == b + "-client" {
      assert HeadlessKey(ns, a) in ChildKeys(ns, a) && ClientKey(ns, b) in ChildKeys(ns, b);
    }
    if b == a + "-client" {
      assert HeadlessKey(ns, b) in ChildKeys(ns, b) && ClientKey(ns, a) in ChildKeys(ns, a);
    }
  }

  /** Children in different namespaces never meet, and no builder's child is the CA. */
  lemma ChildrenAreNotTheCa(ns: string, name: string, other: string)
    ensures CaKey(other) == Key(Secrets, other, "builderhub-builder-ca") && CaKey(other) !in ChildKeys(ns, name)
  {
    assert TlsSecretName(name)[7] == '-' && CA_SECRET[7] == 'h';
  }

  // -- Services, claim, route ----------------------------------------------------------------

  function HeadlessService(b: Builder): Service {
    Service(ClusterIpType, "None", 0, LabelMap(b, b.spec.mode))
  }

  function ClientService(b: Builder): Service {
    Service(NodePortType, "", 0, LabelMap(b, b.spec.mode))
  }

  /** headlessServiceForBuilder. */
  method BuildHeadlessService(b: Builder) returns (s: Service)
    ensures s == HeadlessService(b)
  {
    var labels := LabelsForBuilder(b, b.spec.mode);
    s := Service(ClusterIpType, "None", 0, labels);
  }

  /** nodePortServiceForBuilder. */
  method BuildClientService(b: Builder) returns (s: Service)
    ensures s == ClientService(b)
  {
    var labels := LabelsForBuilder(b, b.spec.mode);
    s := Service(NodePortType, "", 0, labels);
  }

  const DEFAULT_SIZE := "100Gi"
  const READ_WRITE_ONCE := "ReadWriteOnce"

  function ClaimFor(pvc: PvcConfig): Claim {
    Claim(
      if pvc.accessModes == [] then [READ_WRITE_ONCE] else pvc.accessModes,
      if pvc.storageClass == "" then None else Some(pvc.storageClass),
      if pvc.size == "" then DEFAULT_SIZE else pvc.size)
  }

  /** What the template says about the claim holds; what it leaves open is filled in. */
  lemma ClaimMeaning(pvc: PvcConfig)
    ensures var c := ClaimFor(pvc);
            && c.accessModes != [] && |c.size| > 0
            && c.accessModes == (if pvc.accessModes != [] then pvc.accessModes else ["ReadWriteOnce"])
            && c.size == (if pvc.size != "" then pvc.size else "100Gi")
            && (if pvc.storageClass == "" then c.storageClass.None? else c.storageClass == Some(pvc.storageClass))
  {
  }

  function EntryPoint(e: Exposure): string {
    if e.entryPoint != "" then e.entryPoint else "websecure"
  }

  function SniRule(host: string): string {
    "HostSNI(`" + host + "`)"
  }

  function RouteFor(b: Builder): Route
    requires b.spec.exposure.Some?
  {
    var e := b.spec.exposure.value;
    Route(EntryPoint(e), SniRule(e.host), PREFIX + b.name, map[EXTERNAL_DNS := e.host] + e.annotations, true)
  }

  /** ingressRouteForBuilder; the caller's annotations are merged in any order and win. */
  method BuildRoute(b: Builder) returns (route: Route)
    requires b.spec.exposure.Some?
    ensures route == RouteFor(b)
  {
    var e := b.spec.exposure.value;
    var annotations := map[EXTERNAL_DNS := e.host];
    var todo := e.annotations.Keys;
    while todo != {}
      invariant todo <= e.annotations.Keys
      invariant annotations == map[EXTERNAL_DNS := e.host] + (e.annotations - todo)
      decreases |todo|
    {
      var k :| k in todo;
      annotations := annotations[k := e.annotations[k]];
      todo := todo - {k};
    }
    assert e.annotations - {} == e.annotations;
    route := Route(EntryPoint(e), SniRule(e.host), PREFIX + b.name, annotations, true);
  }

  function ExternalEndpoint(b: Builder): string {
    if !Exposed(b) || b.spec.exposure.value.host == "" then "" else "tcp://" + b.spec.exposure.value.host + ":443"
  }

  function StatusTlsSecret(b: Builder): string {
    if Exposed(b) then TlsSecretName(b.name) else ""
  }

  // -- The pod -------------------------------------------------------------------------------

  const ARCH_KEY := "kubernetes.io/arch"
  const ROOT_CACHE := "/var/lib/buildkit"
  const ROOTLESS_CACHE := "/home/user/.local/share/buildkit"
  const CONFIG_MOUNT := "/etc/buildkit"
  const S3_MOUNT := "/etc/buildkit/s3-creds"

  function CacheMount(spec: TemplateSpec): string {
    if spec.rootless then ROOTLESS_CACHE else ROOT_CACHE
  }

  function Args(spec: TemplateSpec): seq<string> {
    var args := ["--config", "/etc/buildkit/buildkitd.toml"];
    if spec.rootless then ["--oci-worker-no-process-sandbox"] + args else args
  }

  function NodeSelector(spec: TemplateSpec): map<string, string> {
    (if spec.arch != "" then map[ARCH_KEY := spec.arch] else map[]) + spec.nodeSelector.GetOr(map[])
  }

  function CacheSource(spec: TemplateSpec, claim: Option<string>): VolumeSource {
    if spec.cache.kind == CACHE_PVC && claim.Some? then FromClaim(claim.value) else EmptyDir
  }

  predicate HasS3Credentials(spec: TemplateSpec) {
    spec.cache.kind == CACHE_S3 && spec.cache.s3.Some? && spec.cache.s3.value.secretRef.Some?
  }

  function Volumes(spec: TemplateSpec, b: Builder, claim: Option<string>): seq<Volume> {
    [Volume("buildkitd-config", FromConfigMap(PREFIX + b.name + "-buildkitd"))]
    + (if Exposed(b) then [Volume("builder-tls", FromSecret(TlsSecretName(b.name)))] else [])
    + [Volume("cache", CacheSource(spec, claim))]
    + (if HasS3Credentials(spec) then [Volume("s3-creds", Projected(spec.cache.s3.value.secretRef.value))] else [])
  }

  function Mounts(spec: TemplateSpec, b: Builder): seq<Mount> {
    [Mount("buildkitd-config", CONFIG_MOUNT, false)]
    + (if Exposed(b) then [Mount("builder-tls", Toml.TLS_MOUNT, true)] else [])
    + [Mount("cache", CacheMount(spec), false)]
    + (if HasS3Credentials(spec) then [Mount("s3-creds", S3_MOUNT, true)] else [])
  }

  function PodFor(spec: TemplateSpec, b: Builder, claim: Option<string>): PodSpec {
    PodSpec(spec.rootless, spec.image, Args(spec), NodeSelector(spec), spec.tolerations, spec.affinity,
            spec.resources, Volumes(spec, b, claim), Mounts(spec, b))
  }

  /** buildPodSpec, appending volumes and mounts in the source's order. */
  method BuildPodSpec(spec: TemplateSpec, b: Builder, claim: Option<string>) returns (pod: PodSpec)
    ensures pod == PodFor(spec, b, claim)
  {
    var cacheMount := ROOT_CACHE;
    var args := ["--config", "/etc/buildkit/buildkitd.toml"];
    if spec.rootless {
      cacheMount := ROOTLESS_CACHE;
      args := ["--oci-worker-no-process-sandbox"] + args;
    }
    var nodeSelector: map<string, string> := map[];
    if spec.arch != "" {
      nodeSelector := nodeSelector[ARCH_KEY := spec.arch];
    }
    nodeSelector := nodeSelector + spec.nodeSelector.GetOr(map[]);

    var volumes := [Volume("buildkitd-config", FromConfigMap(PREFIX + b.name + "-buildkitd"))];
    var mounts := [Mount("buildkitd-config", CONFIG_MOUNT, false)];
    if Exposed(b) {
      volumes := volumes + [Volume("builder-tls", FromSecret(TlsSecretName(b.name)))];
      mounts := mounts + [Mount("builder-tls", Toml.TLS_MOUNT, true)];
    }
    if spec.cache.kind == CACHE_PVC && claim.Some? {
      volumes := volumes + [Volume("cache", FromClaim(claim.value))];
    } else {
      volumes := volumes + [Volume("cache", EmptyDir)];
    }
    mounts := mounts + [Mount("cache", cacheMount, false)];
    if spec.cache.kind == CACHE_S3 && spec.cache.s3.Some? && spec.cache.s3.value.secretRef.Some? {
      volumes := volumes + [Volume("s3-creds", Projected(spec.cache.s3.value.secretRef.value))];
      mounts := mounts + [Mount("s3-creds", S3_MOUNT, true)];
    }
    pod := PodSpec(spec.rootless, spec.image, args, nodeSelector, spec.tolerations, spec.affinity,
                   spec.resources, volumes, mounts);
  }

  predicate Distinct(names: seq<string>) {
    forall i, j | 0 <= i < j < |names| :: names[i] != names[j]
  }

  function VolumeNames(volumes: seq<Volume>): seq<string> {
    seq(|volumes|, i requires 0 <= i < |volumes| => volumes[i].name)
  }

  function MountVolumes(mounts: seq<Mount>): seq<string> {
    seq(|mounts|, i requires 0 <= i < |mounts| => mounts[i].volume)
  }

  function MountPaths(mounts: seq<Mount>): seq<string> {
    seq(|mounts|, i requires 0 <= i < |mounts| => mounts[i].path)
  }

  lemma VolumeNamesAreDistinct(spec: TemplateSpec, b: Builder, claim: Option<string>)
    ensures Distinct(VolumeNames(Volumes(spec, b, claim)))
    ensures MountVolumes(Mounts(spec, b)) == VolumeNames(Volumes(spec, b, claim))
  {
  }

  lemma MountPathsAreDistinct(spec: TemplateSpec, b: Builder)
    ensures Distinct(MountPaths(Mounts(spec, b)))
  {
  }

  /** Volume names and mount paths are pairwise distinct, and mounts and volumes match one to one. */
  lemma PodIsWellFormed(spec: TemplateSpec, b: Builder, claim: Option<string>)
    ensures var pod := PodFor(spec, b, claim);
            && MountVolumes(pod.mounts) == VolumeNames(pod.volumes)
            && Distinct(VolumeNames(pod.volumes))
            && Distinct(MountPaths(pod.mounts))
  {
    VolumeNamesAreDistinct(spec, b, claim);
    MountPathsAreDistinct(spec, b);
  }

  /**
   * For an exposed builder the TLS Secret is mounted, and a signed one holds all files. The generated
   * configuration carries the operator's TLS section, and so names these files under that mount,
   * exactly when the user's text does not mention a TLS section of its own.
   */
  lemma ConfigurationAgreesWithPod(spec: TemplateSpec, b: Builder, claim: Option<string>, ca: Ca, cert: Certificate)
    requires Exposed(b)
    ensures var pod := PodFor(spec, b, claim);
            exists i | 0 <= i < |pod.mounts| && i < |pod.volumes| ::
              pod.mounts[i].path == Toml.TLS_MOUNT && pod.volumes[i].source == FromSecret(TlsSecretName(b.name))
    ensures forall file | file in {CA_CRT, TLS_CRT, TLS_KEY} :: file in ServerData(ca, cert)
    ensures var text := Toml.Rendered(spec.toml, true);
            var own := spec.toml == "" || !Contains(spec.toml, Toml.TLS_HEADER);
            && Contains(text, Toml.TLS_HEADER)
            && (own <==> text == Toml.WithListener(Toml.WithDefault(spec.toml)) + Toml.TLS_BLOCK)
            && (own ==> forall file | file in {CA_CRT, TLS_CRT, TLS_KEY} :: Contains(text, Toml.MountedFile(file)))
  {
    hide Contains, Toml.Rendered, Toml.WithListener, Toml.WithDefault, Toml.MountedFile;
    var pod := PodFor(spec, b, claim);
    assert |pod.mounts| == |pod.volumes|;
    assert pod.mounts[1].path == Toml.TLS_MOUNT && pod.volumes[1].source == FromSecret(TlsSecretName(b.name));
    Toml.RenderedMeaning(spec.toml, true);
    Toml.TlsIsInjectedExactly(spec.toml);
    if spec.toml == "" || !Contains(spec.toml, Toml.TLS_HEADER) {
      forall file | file in {CA_CRT, TLS_CRT, TLS_KEY}
        ensures Contains(Toml.Rendered(spec.toml, true), Toml.MountedFile(file))
      {
        Toml.ConfigurationNamesFiles(spec.toml, file);
      }
    }
  }

  predicate FlagFollowedBy(args: seq<string>, flag: string, value: string) {
    exists i | 0 <= i < |args| - 1 :: args[i] == flag && args[i + 1] == value
  }

  /**
   * buildkitd is started on the file the operator writes: the path in its arguments is the
   * ConfigMap's file under the mount of the builder's own ConfigMap.
   */
  lemma BuildkitdFindsItsConfig(spec: TemplateSpec, b: Builder, claim: Option<string>)
    ensures var pod := PodFor(spec, b, claim);
            && FlagFollowedBy(pod.args, "--config", CONFIG_MOUNT + "/" + CONFIG_FILE)
            && pod.mounts[0].path == CONFIG_MOUNT && pod.mounts[0].volume == pod.volumes[0].name
            && pod.volumes[0].source == FromConfigMap(ConfigMapKey(b.ns, b.name).name)
  {
    var args := Args(spec);
    assert CONFIG_MOUNT + "/" + CONFIG_FILE == "/etc/buildkit/buildkitd.toml";
    var i := if spec.rootless then 1 else 0;
    assert args[i] == "--config" && args[i + 1] == CONFIG_MOUNT + "/" + CONFIG_FILE;
  }

  /** The rootless flag and the rootless cache directory come together. */
  lemma RootlessMeaning(spec: TemplateSpec, b: Builder, claim: Option<string>)
    ensures var pod := PodFor(spec, b, claim);
            && ("--oci-worker-no-process-sandbox" in pod.args <==> spec.rootless)
            && Mount("cache", if spec.rootless then ROOTLESS_CACHE else ROOT_CACHE, false) in pod.mounts
  {
  }

  /** The architecture is selected unless the template's own selector names one, which then wins. */
  lemma NodeSelectorMeaning(spec: TemplateSpec, k: string)
    ensures var user := spec.nodeSelector.GetOr(map[]);
            && (k in NodeSelector(spec) <==> k in user || (k == ARCH_KEY && spec.arch != ""))
            && (k in user ==> NodeSelector(spec)[k] == user[k])
            && (k !in user && k == ARCH_KEY && spec.arch != "" ==> NodeSelector(spec)[k] == spec.arch)
  {
  }

  // -- The StatefulSet -----------------------------------------------------------------------

  function StatefulSetFor(b: Builder, spec: TemplateSpec, replicas: int32): StatefulSet {
    var claim := if UsesClaim(spec) then Some(ClaimName(b.name)) else None;
    StatefulSet(replicas, PREFIX + b.name, LabelMap(b, b.spec.mode), LabelMap(b, b.spec.mode), PodFor(spec, b, claim))
  }

  /** statefulSetForBuilder. */
  method BuildStatefulSet(b: Builder, spec: TemplateSpec, replicas: int32) returns (s: StatefulSet)
    ensures s == StatefulSetFor(b, spec, replicas)
  {
    var claim: Option<string> := None;
    if UsesClaim(spec) {
      claim := Some(ClaimName(b.name));
    }
    var labels := LabelsForBuilder(b, b.spec.mode);
    var pod := BuildPodSpec(spec, b, claim);
    s := StatefulSet(replicas, PREFIX + b.name, labels, labels, pod);
  }

  /** Some volume of the pod has this source. */
  predicate Mentions(pod: PodSpec, source: VolumeSource) {
    exists i | 0 <= i < |pod.volumes| :: pod.volumes[i].source == source
  }

  /**
   * The references of a rendered StatefulSet: always the ConfigMap and the headless Service, the
   * TLS Secret exactly when exposed, and a claim exactly when the cache asks for one.
   */
  lemma StatefulSetReferences(b: Builder, spec: TemplateSpec, replicas: int32, secret: string, claim: string)
    ensures var s := StatefulSetFor(b, spec, replicas);
            && Mentions(s.pod, FromConfigMap(ConfigMapKey(b.ns, b.name).name))
            && s.serviceName == HeadlessKey(b.ns, b.name).name
            && (Mentions(s.pod, FromSecret(secret)) <==>
                  b.spec.exposure.Some? && b.spec.exposure.value.enabled && secret == "builder-" + b.name + "-tls")
            && (Mentions(s.pod, FromClaim(claim)) <==>
                  spec.cache.kind == "pvc" && spec.cache.pvc.Some? && claim == "builder-" + b.name + "-cache")
  {
    var pod := StatefulSetFor(b, spec, replicas).pod;
    assert pod.volumes[0].source == FromConfigMap(ConfigMapKey(b.ns, b.name).name);
    if Exposed(b) {
      assert pod.volumes[1].source == FromSecret(TlsSecretName(b.name));
      assert pod.volumes[2].name == "cache";
    } else {
      assert pod.volumes[1].name == "cache";
    }
  }

  /**
   * The cache is on the claim or else on an empty directory, and credentials are projected exactly
   * for an S3 cache that names them.
   */
  lemma CacheAndCredentials(b: Builder, spec: TemplateSpec, replicas: int32, credentials: string)
    ensures var pod := StatefulSetFor(b, spec, replicas).pod;
            && (Mentions(pod, EmptyDir) <==> !(spec.cache.kind == "pvc" && spec.cache.pvc.Some?))
            && (Mentions(pod, Projected(credentials)) <==>
                  spec.cache.kind == "s3" && spec.cache.s3.Some?
                      && spec.cache.s3.value.secretRef == Some(credentials))
  {
    var pod := StatefulSetFor(b, spec, replicas).pod;
    var cache := if Exposed(b) then 2 else 1;
    assert pod.volumes[cache].name == "cache";
    if HasS3Credentials(spec) {
      assert pod.volumes[cache + 1].source == Projected(spec.cache.s3.value.secretRef.value);
    }
  }

  /**
   * The route takes TLS traffic for the builder's host on the entry point, `websecure` unless
   * another is named, to the Service that governs the StatefulSet. It announces the host unless
   * the caller overrides the announcement, and keeps every annotation of the caller.
   */
  lemma RouteMeaning(b: Builder, spec: TemplateSpec, replicas: int32)
    requires b.spec.exposure.Some?
    ensures var route, user := RouteFor(b), b.spec.exposure.value.annotations;
            && route.rule == "HostSNI(`" + b.spec.exposure.value.host + "`)"
            && (b.spec.exposure.value.entryPoint == "" ==> route.entryPoint == "websecure")
            && (b.spec.exposure.value.entryPoint != "" ==> route.entryPoint == b.spec.exposure.value.entryPoint)
            && route.service == StatefulSetFor(b, spec, replicas).serviceName && route.passthrough
            && (forall k | k in user :: k in route.annotations && route.annotations[k] == user[k])
            && (forall k | k in route.annotations :: k in user || k == EXTERNAL_DNS)
            && EXTERNAL_DNS in route.annotations
            && (EXTERNAL_DNS !in user ==> route.annotations[EXTERNAL_DNS] == b.spec.exposure.value.host)
  {
  }

  /**
   * The Services of one builder select the pods of another of its namespace exactly when both
   * carry the same name and mode labels and the second has all other labels of the first.
   */
  lemma ServicesReach(a: Builder, b: Builder, spec: TemplateSpec, replicas: int32)
    ensures var reaches := NameLabel(a) == NameLabel(b) && ModeLabel(a, a.spec.mode) == ModeLabel(b, b.spec.mode)
            && OtherLabelsShared(a, b);
            && (Selects(HeadlessService(a).selector, StatefulSetFor(b, spec, replicas).podLabels) <==> reaches)
            && (Selects(ClientService(a).selector, StatefulSetFor(b, spec, replicas).podLabels) <==> reaches)
  {
    SelectorFinds(a, a.spec.mode, b, b.spec.mode);
  }

  /** Both Services and the StatefulSet itself select every pod the StatefulSet makes. */
  lemma SelectorsMatchPods(b: Builder, spec: TemplateSpec, replicas: int32)
    ensures var s := StatefulSetFor(b, spec, replicas);
            && Selects(s.selector, s.podLabels)
            && Selects(HeadlessService(b).selector, s.podLabels)
            && Selects(ClientService(b).selector, s.podLabels)
            && (Selects(map[NAME_KEY := b.name], s.podLabels) <==> LeavesNameAlone(b))
  {
    EndpointQueryFindsOwnPods(b, b.spec.mode);
  }
}
