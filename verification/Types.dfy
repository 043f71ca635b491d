/** The builder and template resources, field by field as the operator reads and writes them. */
module Types {
  import opened Prelude

  /** Go's int32. */
  type int32 = x: int | -0x8000_0000 <= x < 0x8000_0000

  datatype PvcConfig = PvcConfig(storageClass: string, size: string, accessModes: seq<string>)

  datatype S3Config = S3Config(bucket: string, secretRef: Option<string>)

  /** `kind` is "pvc", "none", "s3", or "" when an override leaves the cache alone. */
  datatype CacheConfig = CacheConfig(kind: string, pvc: Option<PvcConfig>, s3: Option<S3Config>)

  datatype Resources = Resources(limits: map<string, string>, requests: map<string, string>, claims: seq<string>)

  datatype TemplateSpec = TemplateSpec(
    image: string,
    rootless: bool,
    resources: Resources,
    nodeSelector: Option<map<string, string>>,
    tolerations: Option<seq<string>>,
    affinity: Option<string>,
    toml: string,
    cache: CacheConfig,
    arch: string)

  datatype Exposure = Exposure(
    enabled: bool,
    host: string,
    ingressController: string,
    entryPoint: string,
    annotations: map<string, string>)

  datatype BuilderSpec = BuilderSpec(
    templateRef: Option<string>,
    inlineTemplate: Option<TemplateSpec>,
    mode: string,
    replicas: Option<int32>,
    idleTimeout: Option<int32>,
    labels: map<string, string>,
    exposure: Option<Exposure>)

  datatype Condition = Condition(kind: string, status: string, reason: string, message: string, at: int)

  datatype Status = Status(
    endpoint: string,
    nodePort: int,
    externalEndpoint: string,
    tlsSecretName: string,
    conditions: seq<Condition>,
    phase: string,
    readyReplicas: int,
    desiredReplicas: int,
    lastScaledAt: Option<int>)

  /**
   * The last-used annotation after RFC 3339 parsing (section 5.6 of RFC 3339): absent or empty,
   * present but not a timestamp, or an instant in nanoseconds.
   */
  datatype LastUsed = Unset | Unparseable | Instant(t: int)

  datatype Builder = Builder(
    ns: string,
    name: string,
    lastUsed: LastUsed,
    deleting: bool,
    spec: BuilderSpec,
    status: Status)

  const PERSISTENT := "persistent"
  const SLEEPY := "sleepy"
  const TRAEFIK := "traefik"
  const CACHE_PVC := "pvc"
  const CACHE_S3 := "s3"

  predicate KnownMode(b: Builder) {
    b.spec.mode == PERSISTENT || b.spec.mode == SLEEPY
  }

  predicate Exposed(b: Builder) {
    b.spec.exposure.Some? && b.spec.exposure.value.enabled
  }

  predicate UsesClaim(spec: TemplateSpec) {
    spec.cache.kind == CACHE_PVC && spec.cache.pvc.Some?
  }
}
