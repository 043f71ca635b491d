/** Admission defaults and validation of a builder. */
module Webhook {
  import opened Prelude
  import opened Types
  import opened Idle

  datatype Invalid = NoTemplate | EmptyTemplateRef | MissingHost | UnsupportedController

  function DefaultedExposure(e: Exposure): Exposure {
    if !e.enabled then e
    else e.(
      ingressController := if e.ingressController == "" then TRAEFIK else e.ingressController,
      entryPoint := if e.entryPoint == "" then "websecure" else e.entryPoint)
  }

  function DefaultedSpec(s: BuilderSpec): BuilderSpec {
    s.(
      replicas := if s.replicas.None? then Some(1) else s.replicas,
      idleTimeout := if s.mode == SLEEPY && s.idleTimeout.None? then Some(DEFAULT_IDLE_TIMEOUT) else s.idleTimeout,
      exposure := match s.exposure case None => None case Some(e) => Some(DefaultedExposure(e)))
  }

  function Defaulted(b: Builder): Builder {
    b.(spec := DefaultedSpec(b.spec))
  }

  function ValidateExposure(s: BuilderSpec): Option<Invalid> {
    if s.exposure.None? || !s.exposure.value.enabled then None
    else if s.exposure.value.host == "" then Some(MissingHost)
    else if s.exposure.value.ingressController !in {"", TRAEFIK} then Some(UnsupportedController)
    else None
  }

  /** validate: the first complaint, or none. */
  function Validate(s: BuilderSpec): Option<Invalid> {
    if s.templateRef.None? && s.inlineTemplate.None? then Some(NoTemplate)
    else if s.templateRef == Some("") then Some(EmptyTemplateRef)
    else ValidateExposure(s)
  }

  /** What the defaults are, and that nothing else of the spec changes. */
  lemma DefaultsAre(s: BuilderSpec)
    ensures var d := DefaultedSpec(s);
            && d.replicas == Some(if s.replicas.Some? then s.replicas.value else 1)
            && (s.mode == "sleepy" ==> d.idleTimeout == Some(if s.idleTimeout.Some? then s.idleTimeout.value else 300))
            && (s.mode != "sleepy" ==> d.idleTimeout == s.idleTimeout)
            && (s.exposure.None? || !s.exposure.value.enabled ==> d.exposure == s.exposure)
            && (s.exposure.Some? && s.exposure.value.enabled ==>
                  var e := s.exposure.value;
                  d.exposure == Some(Exposure(true, e.host,
                                              if e.ingressController == "" then "traefik" else e.ingressController,
                                              if e.entryPoint == "" then "websecure" else e.entryPoint, e.annotations)))
            && d == s.(replicas := d.replicas, idleTimeout := d.idleTimeout, exposure := d.exposure)
  {
  }

  /** What a builder has to satisfy, and which complaint comes first. */
  lemma ValidMeaning(s: BuilderSpec)
    ensures Validate(s) == None <==>
            && (s.templateRef.Some? || s.inlineTemplate.Some?)
            && s.templateRef != Some("")
            && (s.exposure.Some? && s.exposure.value.enabled ==>
                  s.exposure.value.host != ""
                  && (s.exposure.value.ingressController == "" || s.exposure.value.ingressController == "traefik"))
    ensures Validate(s) == Some(NoTemplate) <==> s.templateRef == None && s.inlineTemplate == None
    ensures Validate(s) == Some(EmptyTemplateRef) <==> s.templateRef == Some("")
    ensures Validate(s) == Some(MissingHost) ==> s.exposure.Some? && s.exposure.value.host == ""
  {
  }

  /** Defaulting twice is defaulting once, and it never changes the verdict of validation. */
  lemma DefaultingIsStable(s: BuilderSpec)
    ensures DefaultedSpec(DefaultedSpec(s)) == DefaultedSpec(s)
    ensures Validate(DefaultedSpec(s)) == Validate(s)
  {
  }
}
