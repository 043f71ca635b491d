/**
 * What a stored StatefulSet refers to exists, and the cache claim it mounts is never touched.
 * One worker at a time is on the builder; everything else may run alongside.
 */
module Closure {
  import opened Prelude
  import opened Types
  import opened Certificates
  import opened Render
  import opened Store
  import opened Pass
  import opened Machine
  import opened Versions
  import opened Sleep

  // -- The cache claim -----------------------------------------------------------------------

  /** The only request a pass makes against a claim is to create it. */
  lemma ClaimsAreOnlyCreated(pc: Pc, k: Key)
    requires Placed(pc) && k.kind == Claims && Target(Ask(pc)) == Some(k)
    ensures Ask(pc).Create?
  {
  }

  lemma CreateIsRefused(w: World, seen: World, r: Request, grant: Grant, fault: Fault)
    requires r.Create? && r.key in w.objects
    ensures Handle(w, seen, r, grant, fault).0 == w
  {
  }

  /** No worker ever changes or deletes an existing claim, of any builder, in any mode. */
  lemma ClaimStep(s: System, l: Label, k: Key)
    requires Sane(s) && l.Act? && k.kind == Claims && k in s.now.objects
    ensures SameAt(s.now, Step(s, l).now, k)
  {
    if Active(s, l.id) && Target(Ask(s.workers[l.id])) == Some(k) {
      var r := Ask(s.workers[l.id]);
      assert Placed(s.workers[l.id]);
      ClaimsAreOnlyCreated(s.workers[l.id], k);
      CreateIsRefused(s.now, Seen(s, l.lag), r, l.grant, l.fault);
    } else {
      StepTouchesTarget(s, l, k);
    }
  }

  ghost predicate ClaimRespected(k: Key, s: System, labels: seq<Label>)
    decreases |labels|
  {
    labels != [] ==>
      && (labels[0].Outside? && k in s.now.objects ==> SameContent(s.now, labels[0].next, k))
      && ClaimRespected(k, Step(s, labels[0]), labels[1..])
  }

  // -- What has to be there ------------------------------------------------------------------

  predicate PastConfigMap(pc: Pc) {
    HasJob(pc) && !(AtChild(pc) && pc.child.ConfigMap?)
  }

  predicate PastHeadless(pc: Pc) {
    PastConfigMap(pc) && !(AtChild(pc) && pc.child.Headless?)
  }

  predicate PastCert(pc: Pc) {
    pc.Decide? || PastWorkload(pc) || (AtChild(pc) && (pc.child.Ingress? || pc.child.Cache? || pc.child.Workload?))
  }

  predicate PastCache(pc: Pc) {
    pc.Decide? || PastWorkload(pc) || (AtChild(pc) && pc.child.Workload?)
  }

  /** The objects a pass has already provided for are in the store. */
  predicate Provided(w: World, pc: Pc) {
    HasJob(pc) ==>
      var ns, name := pc.job.b.ns, pc.job.b.name;
      && (PastConfigMap(pc) ==> ConfigMapKey(ns, name) in w.objects)
      && (PastHeadless(pc) ==> HeadlessKey(ns, name) in w.objects)
      && (PastCert(pc) && Exposed(pc.job.b) ==> TlsKey(ns, name) in w.objects)
      && (PastCache(pc) && UsesClaim(pc.job.spec) ==> ClaimKey(ns, name) in w.objects)
      && (pc.DropRoute? || pc.DropCert? ==> !Exposed(pc.job.b))
  }

  ghost predicate AllProvided(s: System, ns: string, name: string) {
    forall id | On(s, id, ns, name) :: Provided(s.now, s.workers[id])
  }

  /** A claim, once seen in the store, is still there. */
  ghost predicate ClaimPersists(s: System, ns: string, name: string) {
    forall i | 0 <= i < |History(s)| && ClaimKey(ns, name) in History(s)[i].objects ::
        ClaimKey(ns, name) in s.now.objects
  }

  /** Nobody else deletes these four children of the builder. */
  predicate ReferencesRespected(w: World, next: World, ns: string, name: string) {
    forall k | k in {ConfigMapKey(ns, name), HeadlessKey(ns, name), TlsKey(ns, name), ClaimKey(ns, name)}
               && k in w.objects ::
      k in next.objects
  }

  /** The server Secret is read fresh; every other read may be stale. */
  predicate ReadsCertFresh(s: System, l: Label, ns: string, name: string) {
    l.Act? && On(s, l.id, ns, name) && s.workers[l.id].FindCert? ==> l.lag == 0
  }

  predicate Careful(s: System, l: Label, ns: string, name: string) {
    && ReadsCertFresh(s, l, ns, name)
    && (l.Outside? ==> ReferencesRespected(s.now, l.next, ns, name))
  }

  ghost predicate Orderly(ns: string, name: string, s: System, labels: seq<Label>)
    decreases |labels|
  {
    labels != [] ==>
      && Queued(s, labels[0], ns, name)
      && Careful(s, labels[0], ns, name)
      && Orderly(ns, name, Step(s, labels[0]), labels[1..])
  }

  // -- One step ------------------------------------------------------------------------------

  /** The one child a pass may delete while others refer to it is its own server Secret, when not exposed. */
  lemma OnlyDropsDelete(s: System, l: Label, k: Key)
    requires l.Act? && k in s.now.objects && k !in Step(s, l).now.objects
    ensures Active(s, l.id) && (s.workers[l.id].DropRoute? || s.workers[l.id].DropCert?)
    ensures Ask(s.workers[l.id]) == Delete(k)
  {
    hide ChildObject, StatusOf;
  }

  lemma ReferencesStay(s: System, l: Label, ns: string, name: string, k: Key)
    requires l.Act? && k in s.now.objects
    requires k in {ConfigMapKey(ns, name), HeadlessKey(ns, name), TlsKey(ns, name), ClaimKey(ns, name)}
    requires Active(s, l.id) && On(s, l.id, ns, name) ==> !s.workers[l.id].DropCert?
    ensures k in Step(s, l).now.objects
  {
    if k !in Step(s, l).now.objects {
      OnlyDropsDelete(s, l, k);
      var b := s.workers[l.id].job.b;
      if b.name != name {
        WrappedNamesDiffer(b.name, name, "-tls");
      }
    }
  }

  /** A write that is acknowledged, or refused because the object exists, leaves the object in the store. */
  lemma WrittenIsThere(w: World, seen: World, r: Request, grant: Grant, fault: Fault)
    requires r.Create? || r.Update?
    requires Handle(w, seen, r, grant, fault).1 == Done || Handle(w, seen, r, grant, fault).1 == Refused(AlreadyExists)
    ensures r.key in Handle(w, seen, r, grant, fault).0.objects
  {
  }

  lemma ProvidedHearsAtChild(w: World, pc: Pc, r: Response, now: int, key: nat)
    requires AtChild(pc) && Provided(w, pc)
    requires (pc.Make? || pc.Replace?) && r == Done ==> Ask(pc).key in w.objects
    requires pc.Find? && pc.child.Cache? && r.Found? ==> Ask(pc).key in w.objects
    ensures Provided(w, Hear(pc, r, now, key))
  {
    hide StatusOf, RenewedSecret, ChildObject;
    PassKeepsJob(pc, r, now, key);
    var next := Hear(pc, r, now, key);
    if r == Done || (pc.Find? && pc.child.Cache? && r.Found?) {
      match pc.child
      case ConfigMap =>
      case Headless =>
      case Client =>
      case Ingress =>
      case Cache =>
      case Workload(n, at) =>
    }
  }

  lemma ProvidedHearsAtCert(w: World, pc: Pc, r: Response, now: int, key: nat)
    requires pc.FindCert? || pc.SignCert? || pc.MakeCert? || pc.ReplaceCert?
    requires Provided(w, pc)
    requires pc.FindCert? && r.Found? ==> Ask(pc).key in w.objects
    requires (pc.MakeCert? || pc.ReplaceCert?) && (r == Done || r == Refused(AlreadyExists)) ==>
             Ask(pc).key in w.objects
    ensures Provided(w, Hear(pc, r, now, key))
  {
    hide ChildObject;
  }

  predicate AtCert(pc: Pc) {
    pc.FindCert? || pc.SignCert? || pc.MakeCert? || pc.ReplaceCert?
  }

  lemma ProvidedHearsElsewhere(w: World, pc: Pc, r: Response, now: int, key: nat)
    requires !Ended(pc) && !AtChild(pc) && !AtCert(pc) && Provided(w, pc)
    ensures Provided(w, Hear(pc, r, now, key))
  {
    hide ChildObject, StatusOf, GenerateCa;
    if HasJob(pc) {
      PassKeepsJob(pc, r, now, key);
    }
  }

  /** What a position newly counts as provided, its last request has just provided. */
  lemma ProvidedHears(w: World, pc: Pc, r: Response, now: int, key: nat)
    requires !Ended(pc) && Provided(w, pc)
    requires (Ask(pc).Create? || Ask(pc).Update?) && (r == Done || r == Refused(AlreadyExists)) ==>
             Ask(pc).key in w.objects
    requires r.Found? && (pc.FindCert? || (pc.Find? && pc.child.Cache?)) ==> Ask(pc).key in w.objects
    ensures Provided(w, Hear(pc, r, now, key))
  {
    hide Provided, Hear, ChildObject, StatusOf;
    if AtChild(pc) {
      ProvidedHearsAtChild(w, pc, r, now, key);
    } else if AtCert(pc) {
      ProvidedHearsAtCert(w, pc, r, now, key);
    } else {
      ProvidedHearsElsewhere(w, pc, r, now, key);
    }
  }

  lemma ActorStaysProvided(s: System, l: Label, ns: string, name: string)
    requires AllProvided(s, ns, name) && ClaimPersists(s, ns, name)
    requires l.Act? && Active(s, l.id) && On(s, l.id, ns, name) && ReadsCertFresh(s, l, ns, name)
    ensures Provided(Step(s, l).now, Step(s, l).workers[l.id])
  {
    var pc := s.workers[l.id];
    var (next, r) := Reply(s, l);
    assert Provided(next, pc) by {
      forall k | k in {ConfigMapKey(ns, name), HeadlessKey(ns, name), TlsKey(ns, name), ClaimKey(ns, name)}
          && k in s.now.objects && !pc.DropCert?
        ensures k in next.objects
      {
        ReferencesStay(s, l, ns, name, k);
      }
      if pc.DropCert? && ConfigMapKey(ns, name) in s.now.objects && HeadlessKey(ns, name) in s.now.objects {
        OnlyTargetChanges(s.now, Seen(s, l.lag), Ask(pc), l.grant, l.fault, ConfigMapKey(ns, name));
        OnlyTargetChanges(s.now, Seen(s, l.lag), Ask(pc), l.grant, l.fault, HeadlessKey(ns, name));
      }
    }
    if Ask(pc).Create? || Ask(pc).Update? {
      if r == Done || r == Refused(AlreadyExists) {
        WrittenIsThere(s.now, Seen(s, l.lag), Ask(pc), l.grant, l.fault);
      }
    }
    if r.Found? && pc.Find? && pc.child.Cache? {
      var i := if 0 < l.lag <= |s.past| then |s.past| - l.lag else |s.past|;
      assert History(s)[i] == Seen(s, l.lag);
    }
    ProvidedHears(next, pc, r, s.now.clock, l.grant.key);
  }

  lemma ProvidedStep(s: System, l: Label, ns: string, name: string)
    requires AllProvided(s, ns, name) && ClaimPersists(s, ns, name) && Exclusive(s, ns, name)
    requires Careful(s, l, ns, name)
    ensures AllProvided(Step(s, l), ns, name)
  {
    hide ChildObject, StatusOf, Serve, Hear, Ask;
    var s' := Step(s, l);
    forall id | On(s', id, ns, name)
      ensures Provided(s'.now, s'.workers[id])
    {
      if l.Act? && Active(s, l.id) {
        PassKeepsBuilder(s.workers[l.id], Reply(s, l).1, s.now.clock, l.grant.key);
        if id == l.id {
          ActorStaysProvided(s, l, ns, name);
        } else {
          assert On(s, id, ns, name) && !On(s, l.id, ns, name);
          forall k | k in {ConfigMapKey(ns, name), HeadlessKey(ns, name), TlsKey(ns, name), ClaimKey(ns, name)}
              && k in s.now.objects
            ensures k in s'.now.objects
          {
            ReferencesStay(s, l, ns, name, k);
          }
        }
      }
    }
  }

  lemma ClaimPersistsStep(s: System, l: Label, ns: string, name: string)
    requires Sane(s) && ClaimPersists(s, ns, name)
    requires l.Outside? ==> ReferencesRespected(s.now, l.next, ns, name)
    ensures ClaimPersists(Step(s, l), ns, name)
  {
    var h, h' := History(s), History(Step(s, l));
    assert h' == h || h' == h + [Step(s, l).now];
    if l.Act? && ClaimKey(ns, name) in s.now.objects {
      ClaimStep(s, l, ClaimKey(ns, name));
    }
  }

  lemma {:induction false} ProvidedAlways(s: System, labels: seq<Label>, ns: string, name: string)
    requires Sane(s) && AllProvided(s, ns, name) && ClaimPersists(s, ns, name) && Exclusive(s, ns, name)
             && Orderly(ns, name, s, labels)
    ensures var e := Run(s, labels); AllProvided(e, ns, name) && ClaimPersists(e, ns, name) && Exclusive(e, ns, name)
    decreases |labels|
  {
    if labels != [] {
      ProvidedStep(s, labels[0], ns, name);
      ClaimPersistsStep(s, labels[0], ns, name);
      SaneStep(s, labels[0]);
      ExclusiveStep(s, labels[0], ns, name);
      ProvidedAlways(Step(s, labels[0]), labels[1..], ns, name);
    }
  }

  // -- The theorems --------------------------------------------------------------------------

  /** Everything the operator makes the StatefulSet refer to is in the store. */
  ghost predicate RefsClosed(w: World, ns: string, st: StatefulSet) {
    && Key(Services, ns, st.serviceName) in w.objects
    && (forall n | Mentions(st.pod, FromConfigMap(n)) :: Key(ConfigMaps, ns, n) in w.objects)
    && (forall n | Mentions(st.pod, FromSecret(n)) :: Key(Secrets, ns, n) in w.objects)
    && (forall n | Mentions(st.pod, FromClaim(n)) :: Key(Claims, ns, n) in w.objects)
  }

  lemma ConfigMapReference(b: Builder, spec: TemplateSpec, replicas: int32, n: string)
    requires Mentions(StatefulSetFor(b, spec, replicas).pod, FromConfigMap(n))
    ensures n == ConfigMapKey(b.ns, b.name).name
  {
  }

  lemma ProvidedCloses(w: World, pc: Pc, replicas: int32)
    requires Provided(w, pc) && HasJob(pc) && PastCache(pc)
    ensures RefsClosed(w, pc.job.b.ns, StatefulSetFor(pc.job.b, pc.job.spec, replicas))
  {
    var b, spec := pc.job.b, pc.job.spec;
    var st := StatefulSetFor(b, spec, replicas);
    StatefulSetReferences(b, spec, replicas, "", "");
    forall n | Mentions(st.pod, FromConfigMap(n))
      ensures Key(ConfigMaps, b.ns, n) in w.objects
    {
      ConfigMapReference(b, spec, replicas, n);
    }
    forall n | Mentions(st.pod, FromSecret(n))
      ensures Key(Secrets, b.ns, n) in w.objects
    {
      StatefulSetReferences(b, spec, replicas, n, "");
    }
    forall n | Mentions(st.pod, FromClaim(n))
      ensures Key(Claims, b.ns, n) in w.objects
    {
      StatefulSetReferences(b, spec, replicas, "", n);
    }
  }

  /** The rendered StatefulSet is what a workload write stores. */
  lemma WorkloadWritten(s: System, l: Label, ns: string, name: string)
    requires WroteWorkload(s, l, ns, name)
    ensures var pc := s.workers[l.id];
            Holds(Step(s, l).now, StatefulSetKey(ns, name),
                StatefulSetObject(StatefulSetFor(pc.job.b, pc.job.spec, pc.child.replicas)))
  {
  }

  /**
   * Reference closure, for every run in which nobody else deletes these children: whenever a
   * StatefulSet is written, its ConfigMap, headless Service, server Secret and claim exist, and
   * they still exist when the pass that wrote it ends. The builder's own claim is mounted exactly
   * when the cache is one.
   */
  lemma ReferenceClosure(s: System, labels: seq<Label>, l: Label, ns: string, name: string)
    requires Sane(s) && AllProvided(s, ns, name) && ClaimPersists(s, ns, name) && Exclusive(s, ns, name)
    requires Orderly(ns, name, s, labels + [l])
    ensures var before, after := Run(s, labels), Run(s, labels + [l]);
            WroteWorkload(before, l, ns, name) ==>
              var job := before.workers[l.id].job;
              && StatefulSetKey(ns, name) in after.now.objects
              && after.now.objects[StatefulSetKey(ns, name)].obj.StatefulSetObject?
              && RefsClosed(after.now, ns, after.now.objects[StatefulSetKey(ns, name)].obj.statefulSet)
              && (job.spec.cache.kind == "pvc" && job.spec.cache.pvc.Some? ==>
                    Key(Claims, ns, "builder-" + name + "-cache") in after.now.objects)
              && (job.spec.cache.kind == "pvc" && job.spec.cache.pvc.Some? <==>
                    Mentions(after.now.objects[StatefulSetKey(ns, name)].obj.statefulSet.pod,
                        FromClaim(ClaimName(name))))
    ensures var before, after := Run(s, labels), Run(s, labels + [l]);
            l.Act? && On(before, l.id, ns, name) && PastWorkload(before.workers[l.id]) ==>
              RefsClosed(after.now, ns, StatefulSetFor(before.workers[l.id].job.b, before.workers[l.id].job.spec, 0))
  {
    var before, after := Run(s, labels), Run(s, labels + [l]);
    RunSnoc(s, labels, l);
    OrderlyPrefix(s, labels, l, ns, name);
    ProvidedAlways(s, labels, ns, name);
    if WroteWorkload(before, l, ns, name) {
      var pc := before.workers[l.id];
      var replicas := pc.child.replicas;
      WorkloadWritten(before, l, ns, name);
      StillProvided(before, l, ns, name);
      ProvidedCloses(after.now, pc, replicas);
      StatefulSetReferences(pc.job.b, pc.job.spec, replicas, "", ClaimName(name));
    }
    if l.Act? && On(before, l.id, ns, name) && PastWorkload(before.workers[l.id]) {
      StillProvided(before, l, ns, name);
      ProvidedCloses(after.now, before.workers[l.id], 0);
    }
  }

  lemma {:induction false} OrderlyPrefix(s: System, labels: seq<Label>, l: Label, ns: string, name: string)
    requires Orderly(ns, name, s, labels + [l])
    ensures Orderly(ns, name, s, labels)
    ensures Queued(Run(s, labels), l, ns, name) && Careful(Run(s, labels), l, ns, name)
    decreases |labels|
  {
    if labels == [] {
      assert (labels + [l])[0] == l;
    } else {
      assert (labels + [l])[0] == labels[0] && (labels + [l])[1..] == labels[1..] + [l];
      OrderlyPrefix(Step(s, labels[0]), labels[1..], l, ns, name);
    }
  }

  /** A pass that is at or past its workload deletes nothing. */
  lemma StillProvided(s: System, l: Label, ns: string, name: string)
    requires AllProvided(s, ns, name) && l.Act? && On(s, l.id, ns, name)
    requires PastCache(s.workers[l.id])
    ensures Provided(Step(s, l).now, s.workers[l.id])
  {
    forall k | k in {ConfigMapKey(ns, name), HeadlessKey(ns, name), TlsKey(ns, name), ClaimKey(ns, name)}
        && k in s.now.objects
      ensures k in Step(s, l).now.objects
    {
      ReferencesStay(s, l, ns, name, k);
    }
  }

  /** Across any run, mode switches, exposure toggles and scalings included, an existing claim keeps its content. */
  lemma {:induction false} NoCacheLoss(s: System, labels: seq<Label>, k: Key)
    requires Sane(s) && k.kind == Claims && k in s.now.objects && ClaimRespected(k, s, labels)
    ensures SameContent(s.now, Run(s, labels).now, k)
    decreases |labels|
  {
    if labels != [] {
      if labels[0].Act? {
        ClaimStep(s, labels[0], k);
      }
      SaneStep(s, labels[0]);
      NoCacheLoss(Step(s, labels[0]), labels[1..], k);
    }
  }

  /**
   * Closure holds at writes, not at every instant: turning exposure off deletes the server Secret
   * first, and the references of a closed StatefulSet stay closed exactly when it does not mount it.
   */
  lemma DroppingCertOpensReference(s: System, l: Label, st: StatefulSet)
    requires l.Act? && l.fault.NoFault? && l.id in s.workers && s.workers[l.id].DropCert?
    requires var b := s.workers[l.id].job.b; TlsKey(b.ns, b.name) in s.now.objects && RefsClosed(s.now, b.ns, st)
    ensures var b := s.workers[l.id].job.b;
            RefsClosed(Step(s, l).now, b.ns, st) <==> !Mentions(st.pod, FromSecret(TlsSecretName(b.name)))
  {
  }
}
