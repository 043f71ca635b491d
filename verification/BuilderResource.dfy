/** The in-memory builder object that the webhook and the status writers update in place. */
module BuilderResource {
  import opened Prelude
  import opened Types
  import opened Webhook
  import opened Conditions
  import opened Render

  class Resource {
    const ns: string
    const name: string
    const lastUsed: LastUsed
    const deleting: bool
    var spec: BuilderSpec
    var status: Status

    constructor (b: Builder)
      ensures Value() == b
    {
      ns, name, lastUsed, deleting, spec, status := b.ns, b.name, b.lastUsed, b.deleting, b.spec, b.status;
    }

    function Value(): Builder
      reads this
    {
      Builder(ns, name, lastUsed, deleting, spec, status)
    }

    /** Default. */
    method Default()
      modifies this`spec
      ensures Value() == Defaulted(old(Value()))
    {
      if spec.replicas.None? {
        spec := spec.(replicas := Some(1));
      }
      if spec.mode == SLEEPY && spec.idleTimeout.None? {
        spec := spec.(idleTimeout := Some(300));
      }
      DefaultExposure();
    }

    /** defaultExposure. */
    method DefaultExposure()
      modifies this`spec
      ensures spec == old(spec).(exposure := match old(spec).exposure
                                             case None => None
                                             case Some(e) => Some(DefaultedExposure(e)))
    {
      if spec.exposure.None? || !spec.exposure.value.enabled {
        return;
      }
      if spec.exposure.value.ingressController == "" {
        spec := spec.(exposure := Some(spec.exposure.value.(ingressController := TRAEFIK)));
      }
      if spec.exposure.value.entryPoint == "" {
        spec := spec.(exposure := Some(spec.exposure.value.(entryPoint := "websecure")));
      }
    }

    /** setCondition: overwrite the first condition of the kind, or append one. */
    method SetStatusCondition(kind: string, value: bool, reason: string, message: string, now: int)
      modifies this`status
      ensures var conditions := SetCondition(old(status).conditions, kind, value, reason, message, now);
              status == old(status).(conditions := conditions)
    {
      var statusText := FALSE;
      if value {
        statusText := TRUE;
      }
      var why := reason;
      if why == "" {
        why := "Unknown";
      }
      var c := Condition(kind, statusText, why, message, now);
      var i := 0;
      while i < |status.conditions|
        invariant 0 <= i <= |status.conditions|
        invariant status == old(status)
        invariant forall j | 0 <= j < i :: status.conditions[j].kind != kind
      {
        if status.conditions[i].kind == kind {
          assert IndexOf(status.conditions, kind) == i;
          status := status.(conditions := status.conditions[i := c]);
          return;
        }
        i := i + 1;
      }
      assert IndexOf(status.conditions, kind) == |status.conditions|;
      status := status.(conditions := status.conditions + [c]);
    }

    /** The in-memory part of updateStatus. */
    method RecordStatus(phase: string, endpoint: string, ready: int, desired: int, nodePort: int, now: int)
      modifies this`status
      ensures status == PersistentStatus(old(Value()), phase, endpoint, ready, desired, nodePort, now)
    {
      status := status.(phase := phase, endpoint := endpoint, nodePort := nodePort,
        externalEndpoint := ExternalEndpoint(Value()), tlsSecretName := StatusTlsSecret(Value()),
        readyReplicas := ready, desiredReplicas := desired);
      SetStatusCondition(READY, phase == READY, ReadyReason(phase == READY), "Builder ready", now);
      var reason := "NotSet";
      if endpoint != "" {
        reason := "EndpointSet";
      }
      SetStatusCondition(ENDPOINT, endpoint != "", reason, "Endpoint set", now);
    }

    /** The in-memory part of updateStatusWithLastScaled. */
    method RecordScaledStatus(phase: string, endpoint: string, ready: int, desired: int, nodePort: int, scaledAt: int,
                              now: int)
      modifies this`status
      ensures status == SleepyStatus(old(Value()), phase, endpoint, ready, desired, nodePort, scaledAt, now)
    {
      status := status.(phase := phase, endpoint := endpoint, nodePort := nodePort,
        externalEndpoint := ExternalEndpoint(Value()), tlsSecretName := StatusTlsSecret(Value()),
        readyReplicas := ready, desiredReplicas := desired, lastScaledAt := Some(scaledAt));
      SetStatusCondition(READY, phase == READY, ReadyReason(phase == READY), "Builder ready", now);
      SetStatusCondition(LAST_SCALED, true, "Scaled", "Last scaled", now);
    }
  }
}
