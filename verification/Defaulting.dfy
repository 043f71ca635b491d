/** The admission webhook against the reconciler's own fallbacks and checks. */
module Defaulting {
  import opened Prelude
  import opened Types
  import opened Certificates
  import opened Render
  import opened Store
  import opened Pass
  import opened Machine
  import opened Webhook

  function DefaultedJob(job: Job): Job {
    job.(b := Defaulted(job.b))
  }

  /** The same position, working from the defaulted builder. */
  function DefaultedPc(pc: Pc): Pc {
    match pc
    case Start(_, _) => pc
    case ReadTemplate(b, rv, since) => ReadTemplate(Defaulted(b), rv, since)
    case Find(job, child) => Find(DefaultedJob(job), child)
    case Make(job, child) => Make(DefaultedJob(job), child)
    case Replace(job, child, seen) => Replace(DefaultedJob(job), child, seen)
    case DropRoute(job) => DropRoute(DefaultedJob(job))
    case DropCert(job) => DropCert(DefaultedJob(job))
    case FindCa(job) => FindCa(DefaultedJob(job))
    case GenerateCaKey(job) => GenerateCaKey(DefaultedJob(job))
    case MakeCa(job, ca) => MakeCa(DefaultedJob(job), ca)
    case RefindCa(job) => RefindCa(DefaultedJob(job))
    case FindCert(job, ca) => FindCert(DefaultedJob(job), ca)
    case SignCert(job, ca, stale) => SignCert(DefaultedJob(job), ca, stale)
    case MakeCert(job, secret, at) => MakeCert(DefaultedJob(job), secret, at)
    case ReplaceCert(job, secret, seen, at) => ReplaceCert(DefaultedJob(job), secret, seen, at)
    case Decide(job) => Decide(DefaultedJob(job))
    case ReadPods(job, n, at) => ReadPods(DefaultedJob(job), n, at)
    case ReadPort(job, report) => ReadPort(DefaultedJob(job), report)
    case Publish(job, report, port, now) => Publish(DefaultedJob(job), report, port, now)
    case Finished(Waiting(job)) => Finished(Waiting(DefaultedJob(job)))
    case Finished(Reported(job, report, port, now)) => Finished(Reported(DefaultedJob(job), report, port, now))
    case Finished(_) => pc
    case Failed(_) => pc
  }

  lemma DefaultedRendersAlike(b: Builder, spec: TemplateSpec, rv: nat, since: int, child: Child)
    ensures ChildObject(DefaultedJob(Job(b, rv, spec, since)), child) == ChildObject(Job(b, rv, spec, since), child)
    ensures Exposed(Defaulted(b)) == Exposed(b)
    ensures HostOf(Defaulted(b)) == HostOf(b)
  {
  }

  /** The defaulted position makes the same request. */
  lemma DefaultedAsksAlike(pc: Pc)
    ensures Ask(DefaultedPc(pc)) == Ask(pc)
  {
    if pc.Publish? {
      DefaultedReportsAlike(pc.job.b, pc.report, pc.port, pc.now);
    }
    if pc.Make? || pc.Replace? {
      DefaultedRendersAlike(pc.job.b, pc.job.spec, pc.job.rv, pc.job.since, pc.child);
    }
  }

  lemma DefaultedContinuesAlike(job: Job, child: Child, now: int)
    ensures After(DefaultedJob(job), child, now) == DefaultedPc(After(job, child, now))
    ensures AfterExposure(DefaultedJob(job)) == DefaultedPc(AfterExposure(job))
  {
  }

  lemma DefaultedResolvesAlike(b: Builder, rv: nat, since: int, template: Option<TemplateSpec>)
    ensures AfterResolve(Defaulted(b), rv, since, template) == DefaultedPc(AfterResolve(b, rv, since, template))
  {
  }

  lemma DefaultedReportsAlike(b: Builder, report: Report, port: int, now: int)
    ensures StatusOf(Defaulted(b), report, port, now) == StatusOf(b, report, port, now)
  {
  }

  lemma DefaultedHearsAlikeAtChild(pc: Pc, r: Response, now: int, key: nat)
    requires pc.Find? || pc.Make? || pc.Replace?
    ensures Hear(DefaultedPc(pc), r, now, key) == DefaultedPc(Hear(pc, r, now, key))
  {
    hide After, DefaultedJob, NeedsRenewal, AfterExposure;
    DefaultedContinuesAlike(pc.job, pc.child, now);
  }

  lemma DefaultedHearsAlikeAtCa(pc: Pc, r: Response, now: int, key: nat)
    requires pc.FindCa? || pc.GenerateCaKey? || pc.MakeCa? || pc.RefindCa?
    ensures Hear(DefaultedPc(pc), r, now, key) == DefaultedPc(Hear(pc, r, now, key))
  {
  }

  lemma DefaultedHearsAlikeAtCert(pc: Pc, r: Response, now: int, key: nat)
    requires pc.FindCert? || pc.SignCert? || pc.MakeCert? || pc.ReplaceCert?
    ensures Hear(DefaultedPc(pc), r, now, key) == DefaultedPc(Hear(pc, r, now, key))
  {
    hide GenerateCa, After;
  }

  lemma DefaultedHearsAlikeAtPods(pc: Pc, r: Response, now: int, key: nat)
    requires pc.ReadPods?
    ensures Hear(DefaultedPc(pc), r, now, key) == DefaultedPc(Hear(pc, r, now, key))
  {
  }

  lemma DefaultedHearsAlikeAtReport(pc: Pc, r: Response, now: int, key: nat)
    requires pc.ReadPort? || pc.Publish?
    ensures Hear(DefaultedPc(pc), r, now, key) == DefaultedPc(Hear(pc, r, now, key))
  {
  }

  lemma DefaultedHearsAlikeAtTemplate(pc: Pc, r: Response, now: int, key: nat)
    requires pc.ReadTemplate?
    ensures Hear(DefaultedPc(pc), r, now, key) == DefaultedPc(Hear(pc, r, now, key))
  {
  }

  lemma DefaultedHearsAlikeAtDrop(pc: Pc, r: Response, now: int, key: nat)
    requires pc.DropRoute? || pc.DropCert? || pc.Decide?
    ensures Hear(DefaultedPc(pc), r, now, key) == DefaultedPc(Hear(pc, r, now, key))
  {
  }

  /** The defaulted position goes on alike, whatever it hears. */
  lemma DefaultedHearsAlike(pc: Pc, r: Response, now: int, key: nat)
    requires !pc.Start? && !Ended(pc)
    ensures Hear(DefaultedPc(pc), r, now, key) == DefaultedPc(Hear(pc, r, now, key))
  {
    hide Hear, DefaultedPc;
    match pc
    case Find(_, _) => DefaultedHearsAlikeAtChild(pc, r, now, key);
    case Make(_, _) => DefaultedHearsAlikeAtChild(pc, r, now, key);
    case Replace(_, _, _) => DefaultedHearsAlikeAtChild(pc, r, now, key);
    case FindCa(_) => DefaultedHearsAlikeAtCa(pc, r, now, key);
    case GenerateCaKey(_) => DefaultedHearsAlikeAtCa(pc, r, now, key);
    case MakeCa(_, _) => DefaultedHearsAlikeAtCa(pc, r, now, key);
    case RefindCa(_) => DefaultedHearsAlikeAtCa(pc, r, now, key);
    case FindCert(_, _) => DefaultedHearsAlikeAtCert(pc, r, now, key);
    case SignCert(_, _, _) => DefaultedHearsAlikeAtCert(pc, r, now, key);
    case MakeCert(_, _, _) => DefaultedHearsAlikeAtCert(pc, r, now, key);
    case ReplaceCert(_, _, _, _) => DefaultedHearsAlikeAtCert(pc, r, now, key);
    case ReadPods(_, _, _) => DefaultedHearsAlikeAtPods(pc, r, now, key);
    case ReadPort(_, _) => DefaultedHearsAlikeAtReport(pc, r, now, key);
    case Publish(_, _, _, _) => DefaultedHearsAlikeAtReport(pc, r, now, key);
    case ReadTemplate(_, _, _) => DefaultedHearsAlikeAtTemplate(pc, r, now, key);
    case DropRoute(_) => DefaultedHearsAlikeAtDrop(pc, r, now, key);
    case DropCert(_) => DefaultedHearsAlikeAtDrop(pc, r, now, key);
    case Decide(_) => DefaultedHearsAlikeAtDrop(pc, r, now, key);
  }

  // -- Whole passes --------------------------------------------------------------------------

  /** What the outside world answers a pass, one reply per request. */
  datatype Answer = Answer(r: Response, now: int, key: nat)

  /** The requests a pass makes from a position on, given the answers. */
  function Requests(pc: Pc, answers: seq<Answer>): seq<Request>
    decreases |answers|
  {
    if Ended(pc) || answers == [] then []
    else [Ask(pc)] + Requests(Hear(pc, answers[0].r, answers[0].now, answers[0].key), answers[1..])
  }

  lemma NeverBackToStart(pc: Pc, r: Response, now: int, key: nat)
    requires !Ended(pc)
    ensures !Hear(pc, r, now, key).Start?
  {
  }

  lemma {:induction false} DefaultedRequestsAlike(pc: Pc, answers: seq<Answer>)
    requires !pc.Start?
    ensures Requests(DefaultedPc(pc), answers) == Requests(pc, answers)
    decreases |answers|
  {
    hide Ask, Hear;
    if !Ended(pc) && answers != [] {
      var a := answers[0];
      DefaultedAsksAlike(pc);
      DefaultedHearsAlike(pc, a.r, a.now, a.key);
      NeverBackToStart(pc, a.r, a.now, a.key);
      DefaultedRequestsAlike(Hear(pc, a.r, a.now, a.key), answers[1..]);
    }
  }

  /**
   * Defaulting is transparent: with the same answers, a pass over a builder and a pass over its
   * defaulted form make exactly the same requests, so they write the same children and the
   * same status.
   */
  lemma DefaultingIsTransparent(b: Builder, rv: nat, now: int, key: nat, answers: seq<Answer>)
    ensures var plain := Hear(Start(b.ns, b.name), Found(Entry(BuilderObject(b), rv)), now, key);
            var defaulted := Hear(Start(b.ns, b.name), Found(Entry(BuilderObject(Defaulted(b)), rv)), now, key);
            Requests(defaulted, answers) == Requests(plain, answers)
  {
    var plain := Hear(Start(b.ns, b.name), Found(Entry(BuilderObject(b), rv)), now, key);
    DefaultedResolvesAlike(b, rv, now, None);
    DefaultedRequestsAlike(plain, answers);
  }

  // -- Validation ----------------------------------------------------------------------------

  /**
   * Errors that come from the store, from making a key or certificate, or from a damaged CA, and
   * not from the checks of the reconciler.
   */
  predicate External(e: Error) {
    e.Api? || e.SigningFailed? || e.UnreadableCa?
  }

  /** The builder the position works from, if it has read one, passed validation and has a known mode. */
  predicate Validated(pc: Pc) {
    && (HasJob(pc) ==> Validate(pc.job.b.spec).None? && KnownMode(pc.job.b))
    && (pc.ReadTemplate? ==> Validate(pc.b.spec).None? && KnownMode(pc.b))
    && (pc.Failed? ==> External(pc.error))
  }

  predicate ValidBuilder(o: Object) {
    o.BuilderObject? ==> Validate(o.builder.spec).None? && KnownMode(o.builder)
  }

  lemma ValidatedHears(pc: Pc, r: Response, now: int, key: nat)
    requires !Ended(pc) && Validated(pc)
    requires pc.Start? && r.Found? ==> ValidBuilder(r.entry.obj)
    ensures Validated(Hear(pc, r, now, key))
  {
    hide ChildObject, StatusOf, RenewedSecret, NeedsRenewal, EndpointOf;
    if HasJob(pc) {
      PassKeepsJob(pc, r, now, key);
    }
    if (pc.Find? || pc.Make? || pc.Replace?) && r.Done? {
      assert pc.child.Client? || !After(pc.job, pc.child, now).Failed?;
    }
  }

  /** Where a pass stands after the answers it was given. */
  function EndOf(pc: Pc, answers: seq<Answer>): Pc
    decreases |answers|
  {
    if Ended(pc) || answers == [] then pc
    else EndOf(Hear(pc, answers[0].r, answers[0].now, answers[0].key), answers[1..])
  }

  lemma {:induction false} ValidatedAlways(pc: Pc, answers: seq<Answer>)
    requires Validated(pc)
    requires pc.Start? && answers != [] && answers[0].r.Found? ==> ValidBuilder(answers[0].r.entry.obj)
    ensures Validated(EndOf(pc, answers))
    decreases |answers|
  {
    hide Validated, Hear, ValidBuilder;
    if !Ended(pc) && answers != [] {
      var a := answers[0];
      ValidatedHears(pc, a.r, a.now, a.key);
      NeverBackToStart(pc, a.r, a.now, a.key);
      ValidatedAlways(Hear(pc, a.r, a.now, a.key), answers[1..]);
    }
  }

  /** A whole pass over a validated builder of a known mode fails only for external reasons, whatever it is answered. */
  lemma ValidatedFailsOnlyExternally(ns: string, name: string, answers: seq<Answer>)
    requires answers != [] && answers[0].r.Found? ==> ValidBuilder(answers[0].r.entry.obj)
    ensures EndOf(Start(ns, name), answers).Failed? ==> External(EndOf(Start(ns, name), answers).error)
  {
    hide ValidBuilder, Hear;
    ValidatedAlways(Start(ns, name), answers);
  }

  /**
   * Validation and the reconciler's own checks. They reject the same builders but for one case:
   * a template reference to the empty name is rejected by validation, while the reconciler goes
   * on to read a template of that name.
   */
  lemma ChecksAgreeWithValidation(b: Builder, rv: nat, since: int, spec: TemplateSpec)
    ensures Validate(b.spec).Some? <==>
            || (b.spec.templateRef.None? && AfterResolve(b, rv, since, None) == Failed(NoSpec))
            || AfterServices(Job(b, rv, spec, since)).Failed?
            || b.spec.templateRef == Some("")
    ensures b.spec.templateRef == Some("") ==>
              Hear(Start(b.ns, b.name), Found(Entry(BuilderObject(b), rv)), since, 0) == ReadTemplate(b, rv, since)
              && AfterResolve(b, rv, since, Some(spec)) != Failed(NoSpec)
    ensures AfterServices(Job(b, rv, spec, since)).Failed? <==> ValidateExposure(b.spec).Some?
  {
  }
}
