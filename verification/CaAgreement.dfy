/**
 * One CA per namespace: however many workers race, fail, stop or read stale data, at most one
 * CA is ever stored, every pass works with that one, and every builder certificate chains to it.
 */
module CaAgreement {
  import opened Prelude
  import opened Certificates
  import opened Render
  import opened Store
  import opened Pass
  import opened Machine
  import opened Versions

  /** A self-signed CA whose certificate and key belong together. */
  predicate SelfSigned(ca: Ca) {
    ca.pem == CertificatePem(ca.cert) && ca.cert.isCa && ca.cert.issuer == ca.cert.subject == ca.key
  }

  /** The CA stored for a namespace, as a pass would read it. */
  function StoredCa(w: World, ns: string): Option<Ca> {
    if CaKey(ns) in w.objects && w.objects[CaKey(ns)].obj.SecretObject?
    then ReadCa(w.objects[CaKey(ns)].obj.secret)
    else None
  }

  /** A server Secret as the operator writes it: issued by `ca`, for the host in its annotation. */
  predicate IssuedBy(ca: Ca, s: Secret) {
    var parsed := Parse(s.data, TLS_CRT, TLS_KEY);
    && CA_CRT in s.data && s.data[CA_CRT] == ca.pem
    && parsed.Some?
    && parsed.value.0.issuer == ca.key
    && parsed.value.0.subject == parsed.value.1
    && CERT_HOST in s.annotations && s.annotations[CERT_HOST] == parsed.value.0.san
  }

  predicate IssuedByStored(w: World, ns: string, o: Object) {
    StoredCa(w, ns).Some? && o.SecretObject? && IssuedBy(StoredCa(w, ns).value, o.secret)
  }

  /** What a worker of the namespace knows about the CA. */
  predicate Informed(w: World, ns: string, pc: Pc) {
    HasJob(pc) && pc.job.b.ns == ns ==>
      match pc
      case MakeCa(_, ca) => SelfSigned(ca)
      case FindCert(_, ca) => StoredCa(w, ns) == Some(ca)
      case SignCert(_, ca, _) => StoredCa(w, ns) == Some(ca)
      case MakeCert(_, secret, _) => IssuedByStored(w, ns, SecretObject(secret))
      case ReplaceCert(_, secret, _, _) => IssuedByStored(w, ns, SecretObject(secret))
      case _ => true
  }

  ghost predicate OneCa(s: System, ns: string) {
    forall i | 0 <= i < |History(s)| && CaKey(ns) in History(s)[i].objects ::
        SameContent(History(s)[i], s.now, CaKey(ns))
  }

  predicate ReadableCa(w: World, ns: string) {
    CaKey(ns) in w.objects ==> StoredCa(w, ns).Some? && SelfSigned(StoredCa(w, ns).value)
  }

  ghost predicate AllIssued(w: World, ns: string) {
    forall name | TlsKey(ns, name) in w.objects :: IssuedByStored(w, ns, w.objects[TlsKey(ns, name)].obj)
  }

  ghost predicate AllInformed(s: System, ns: string) {
    forall id | id in s.workers :: Informed(s.now, ns, s.workers[id])
  }

  /** One readable CA, in the store and in what every worker knows. */
  ghost predicate CaAgreed(s: System, ns: string) {
    OneCa(s, ns) && ReadableCa(s.now, ns) && AllInformed(s, ns)
  }

  /** And every stored server Secret was issued by it. */
  ghost predicate Agreed(s: System, ns: string) {
    CaAgreed(s, ns) && AllIssued(s.now, ns)
  }

  /** A namespace nobody has worked in yet. */
  ghost predicate Untouched(s: System, ns: string) {
    && (forall i | 0 <= i < |History(s)| :: CaKey(ns) !in History(s)[i].objects)
    && (forall name :: TlsKey(ns, name) !in s.now.objects)
    && (forall id | id in s.workers && HasJob(s.workers[id]) :: s.workers[id].job.b.ns != ns)
  }

  lemma UntouchedIsAgreed(s: System, ns: string)
    requires Untouched(s, ns)
    ensures Agreed(s, ns)
  {
    assert History(s)[|s.past|] == s.now;
  }

  // -- The environment -----------------------------------------------------------------------

  /** Nobody else writes or deletes the CA. */
  ghost predicate CaKept(ns: string, s: System, labels: seq<Label>)
    decreases |labels|
  {
    labels != [] ==>
      && (labels[0].Outside? ==> SameContent(s.now, labels[0].next, CaKey(ns)))
      && CaKept(ns, Step(s, labels[0]), labels[1..])
  }

  /** And nobody else writes server Secrets; they may be deleted. */
  ghost predicate CaRespected(w: World, next: World, ns: string) {
    && SameContent(w, next, CaKey(ns))
    && forall name | TlsKey(ns, name) in next.objects :: SameContent(w, next, TlsKey(ns, name))
  }

  ghost predicate CaLeftAlone(ns: string, s: System, labels: seq<Label>)
    decreases |labels|
  {
    labels != [] ==>
      && (labels[0].Outside? ==> CaRespected(s.now, labels[0].next, ns))
      && CaLeftAlone(ns, Step(s, labels[0]), labels[1..])
  }

  lemma {:induction false} LeftAloneIsKept(s: System, labels: seq<Label>, ns: string)
    requires CaLeftAlone(ns, s, labels)
    ensures CaKept(ns, s, labels)
    decreases |labels|
  {
    hide Step;
    if labels != [] {
      LeftAloneIsKept(Step(s, labels[0]), labels[1..], ns);
    }
  }

  // -- One step ------------------------------------------------------------------------------

  lemma CaKeyIsNotTlsKey(ns: string, name: string, other: string)
    ensures CaKey(other) != TlsKey(ns, name)
  {
    ChildrenAreNotTheCa(ns, name, other);
  }

  /** A stored CA stays; a new one is the candidate of the worker that moved. */
  lemma CaStep(s: System, l: Label, ns: string)
    requires l.Act?
    ensures CaKey(ns) in s.now.objects ==> SameContent(s.now, Step(s, l).now, CaKey(ns))
    ensures CaKey(ns) !in s.now.objects && CaKey(ns) in Step(s, l).now.objects ==>
              Active(s, l.id) && s.workers[l.id].MakeCa? && s.workers[l.id].job.b.ns == ns
              && Step(s, l).now.objects[CaKey(ns)].obj == SecretObject(CaSecret(s.workers[l.id].ca))
  {
    if CaKey(ns) in s.now.objects {
      CaSurvives(s, l, ns);
    } else if Active(s, l.id) && Target(Ask(s.workers[l.id])) == Some(CaKey(ns)) {
      PassWritesItsOwn(s.workers[l.id]);
      ChildrenAreNotTheCa(s.workers[l.id].job.b.ns, s.workers[l.id].job.b.name, ns);
    } else {
      StepTouchesTarget(s, l, CaKey(ns));
    }
  }

  /** A server Secret stays, disappears, or becomes the one its worker prepared. */
  lemma TlsStep(s: System, l: Label, ns: string, name: string)
    requires l.Act? && TlsKey(ns, name) in Step(s, l).now.objects
    ensures SameContent(s.now, Step(s, l).now, TlsKey(ns, name))
         || (Active(s, l.id) && (s.workers[l.id].MakeCert? || s.workers[l.id].ReplaceCert?)
             && s.workers[l.id].job.b.ns == ns
             && Step(s, l).now.objects[TlsKey(ns, name)].obj == SecretObject(s.workers[l.id].secret))
  {
    hide ChildObject;
    var k := TlsKey(ns, name);
    if Active(s, l.id) && Target(Ask(s.workers[l.id])) == Some(k) {
      var pc := s.workers[l.id];
      CaKeyIsNotTlsKey(ns, name, ns);
      assert pc.MakeCert? || pc.ReplaceCert? || pc.DropCert? || pc.MakeCa?;
    } else {
      StepTouchesTarget(s, l, k);
    }
  }

  lemma SignedSecretIsIssued(job: Job, ca: Ca, stale: Option<Entry>, key: KeyId, now: int)
    ensures IssuedBy(ca, RenewedSecret(job, ca, stale, key, now))
  {
  }

  /** A renewal keeps every other annotation somebody put on the Secret. */
  lemma RenewalKeepsAnnotations(job: Job, ca: Ca, stale: Entry, key: KeyId, now: int, annotation: string)
    requires stale.obj.SecretObject? && annotation != CERT_HOST
    ensures var before, after := stale.obj.secret.annotations,
            RenewedSecret(job, ca, Some(stale), key, now).annotations;
            (annotation in after <==> annotation in before)
            && (annotation in before ==> after[annotation] == before[annotation])
  {
  }

  lemma GeneratedCaIsReadBack(key: KeyId, t1: int, t2: int)
    ensures var ca := GenerateCa(key, t1, t2); SelfSigned(ca)
  {
  }

  lemma StoredCaIsReadBack(ca: Ca)
    requires SelfSigned(ca)
    ensures ReadCa(CaSecret(ca)) == Some(ca)
  {
  }

  /** What a worker learns from one response: reads and a successful create both yield the stored CA. */
  lemma WorkerLearns(w: World, ns: string, pc: Pc, r: Response, now: int, key: nat)
    requires !Ended(pc) && Informed(w, ns, pc)
    requires Ask(pc) == Get(CaKey(ns)) && r.Found? ==> CaKey(ns) in w.objects && w.objects[CaKey(ns)].obj == r.entry.obj
    requires pc.MakeCa? && pc.job.b.ns == ns && r.Done? ==> StoredCa(w, ns) == Some(pc.ca)
    ensures Informed(w, ns, Hear(pc, r, now, key))
  {
    hide ChildObject, StatusOf;
    var next := Hear(pc, r, now, key);
    if HasJob(next) && next.job.b.ns == ns {
      if next.SignCert? {
        assert pc.FindCert?;
      } else if next.MakeCert? || next.ReplaceCert? {
        assert pc.SignCert?;
        SignedSecretIsIssued(pc.job, pc.ca, pc.stale, key, now);
      } else if next.FindCert? {
        assert pc.FindCa? || pc.RefindCa? || pc.MakeCa?;
      } else if next.MakeCa? {
        assert pc.GenerateCaKey?;
        GeneratedCaIsReadBack(key, now, now);
      }
    }
  }

  lemma InformedStays(w: World, later: World, ns: string, pc: Pc)
    requires Informed(w, ns, pc)
    requires CaKey(ns) in w.objects ==> SameContent(w, later, CaKey(ns))
    ensures Informed(later, ns, pc)
  {
  }

  lemma OneCaAdvances(s: System, next: World, ns: string)
    requires OneCa(s, ns)
    requires CaKey(ns) in s.now.objects ==> SameContent(s.now, next, CaKey(ns))
    ensures OneCa(Advance(s, next), ns)
  {
    var h, h' := History(s), History(Advance(s, next));
    assert h' == h + [next] && h[|h| - 1] == s.now;
    forall i | 0 <= i < |h'| && CaKey(ns) in h'[i].objects
      ensures SameContent(h'[i], next, CaKey(ns))
    {
      if i < |h| {
        assert SameContent(h[i], s.now, CaKey(ns));
      }
    }
  }

  /** What the worker that moved knows afterwards. */
  lemma ActorLearns(s: System, l: Label, ns: string)
    requires CaAgreed(s, ns) && l.Act? && Active(s, l.id)
    ensures Informed(Step(s, l).now, ns, Step(s, l).workers[l.id])
  {
    hide Hear, ChildObject, StatusOf;
    var pc, k := s.workers[l.id], CaKey(ns);
    var (next, r) := Reply(s, l);
    CaStep(s, l, ns);
    InformedStays(s.now, next, ns, pc);
    if Ask(pc) == Get(k) && r.Found? {
      SeenIsRecorded(s, l, k);
    }
    if pc.MakeCa? && pc.job.b.ns == ns && r.Done? {
      assert Informed(s.now, ns, pc);
      StoredCaIsReadBack(pc.ca);
      CreatedCaIsStored(s.now, Seen(s, l.lag), pc, l.grant, l.fault);
    }
    WorkerLearns(next, ns, pc, r, s.now.clock, l.grant.key);
  }

  lemma CreatedCaIsStored(w: World, seen: World, pc: Pc, grant: Grant, fault: Fault)
    requires pc.MakeCa?
    ensures var (next, r) := Handle(w, seen, Ask(pc), grant, fault);
            r.Done? ==> Holds(next, CaKey(pc.job.b.ns), SecretObject(CaSecret(pc.ca)))
  {
    hide ChildObject, StatusOf;
  }

  lemma ActKeepsCa(s: System, l: Label, ns: string)
    requires CaAgreed(s, ns) && l.Act? && Active(s, l.id)
    ensures CaAgreed(Step(s, l), ns)
  {
    hide Ask, Hear, Serve, Informed;
    var s', pc, k := Step(s, l), s.workers[l.id], CaKey(ns);
    var next := Reply(s, l).0;
    CaStep(s, l, ns);
    OneCaAdvances(s, next, ns);
    assert History(s') == History(Advance(s, next));
    if k !in s.now.objects && k in next.objects {
      CandidateIsSelfSigned(s.now, ns, pc);
      StoredCaIsReadBack(pc.ca);
    }
    forall id | id in s'.workers
      ensures Informed(next, ns, s'.workers[id])
    {
      if id == l.id {
        ActorLearns(s, l, ns);
      } else {
        InformedStays(s.now, next, ns, s.workers[id]);
      }
    }
  }

  lemma CandidateIsSelfSigned(w: World, ns: string, pc: Pc)
    requires Informed(w, ns, pc) && pc.MakeCa? && pc.job.b.ns == ns
    ensures SelfSigned(pc.ca)
  {
  }

  lemma StepKeepsCa(s: System, l: Label, ns: string)
    requires CaAgreed(s, ns)
    requires l.Outside? ==> SameContent(s.now, l.next, CaKey(ns))
    ensures CaAgreed(Step(s, l), ns)
    ensures CaKey(ns) in s.now.objects ==> SameContent(s.now, Step(s, l).now, CaKey(ns))
  {
    hide Ask, Hear, Serve, Informed;
    match l
    case Act(id, _, _, _) =>
      CaStep(s, l, ns);
      if Active(s, id) {
        ActKeepsCa(s, l, ns);
      }
    case Outside(next) =>
      if Follows(s.now, next) {
        OneCaAdvances(s, next, ns);
        forall id | id in s.workers
          ensures Informed(next, ns, s.workers[id])
        {
          InformedStays(s.now, next, ns, s.workers[id]);
        }
      }
    case Spawn(id, ns', name) =>
      assert History(Step(s, l)) == History(s);
      StartIsInformed(s.now, ns, ns', name);
    case Crash(_) =>
      assert History(Step(s, l)) == History(s);
  }

  lemma StartIsInformed(w: World, ns: string, ns': string, name: string)
    ensures Informed(w, ns, Start(ns', name))
  {
  }

  lemma PreparedIsIssued(w: World, ns: string, pc: Pc)
    requires Informed(w, ns, pc) && (pc.MakeCert? || pc.ReplaceCert?) && pc.job.b.ns == ns
    ensures IssuedByStored(w, ns, SecretObject(pc.secret))
  {
  }

  /** One step of any worker or of the environment keeps the whole agreement. */
  lemma StepAgrees(s: System, l: Label, ns: string)
    requires Agreed(s, ns)
    requires l.Outside? ==> CaRespected(s.now, l.next, ns)
    ensures Agreed(Step(s, l), ns)
  {
    hide Ask, Hear, Serve, Informed, OneCa;
    StepKeepsCa(s, l, ns);
    var next := Step(s, l).now;
    forall name | TlsKey(ns, name) in next.objects
      ensures IssuedByStored(next, ns, next.objects[TlsKey(ns, name)].obj)
    {
      if l.Act? {
        TlsStep(s, l, ns, name);
        if Active(s, l.id) && !SameContent(s.now, next, TlsKey(ns, name)) {
          PreparedIsIssued(s.now, ns, s.workers[l.id]);
        }
      }
    }
  }

  /**
   * The agreement theorem, over every run in which nobody else edits the CA: a CA once stored is
   * the CA at the end, every CA ever stored is that one, and every worker past ensureNamespaceCA
   * holds it. What others do to server Secrets does not matter.
   */
  lemma {:induction false} WorkersAgreeOnCa(s: System, labels: seq<Label>, ns: string)
    requires CaAgreed(s, ns) && CaKept(ns, s, labels)
    ensures CaAgreed(Run(s, labels), ns)
    ensures CaKey(ns) in s.now.objects ==> SameContent(s.now, Run(s, labels).now, CaKey(ns))
    decreases |labels|
  {
    hide CaAgreed, Step;
    if labels != [] {
      StepKeepsCa(s, labels[0], ns);
      WorkersAgreeOnCa(Step(s, labels[0]), labels[1..], ns);
    }
  }

  /**
   * If nobody else writes server Secrets either, every server Secret along the run carries that
   * CA, is signed by its key, and names the host it is annotated with.
   */
  lemma {:induction false} SecretsChainToCa(s: System, labels: seq<Label>, ns: string)
    requires Agreed(s, ns) && CaLeftAlone(ns, s, labels)
    ensures Agreed(Run(s, labels), ns)
    decreases |labels|
  {
    hide Agreed, Step;
    if labels != [] {
      StepAgrees(s, labels[0], ns);
      SecretsChainToCa(Step(s, labels[0]), labels[1..], ns);
    }
  }

  /**
   * Why outside edits are excluded. Suppose the stored CA was exchanged, so that a server Secret
   * is not issued by it. The next certificate pass leaves the Secret as it is, and disagreement
   * in place, exactly when the old certificate is not due for renewal.
   */
  lemma ExchangedCaIsNoticedOnlyAtRenewal(s: System, l: Label, ns: string)
    requires l.Act? && Active(s, l.id) && l.fault.NoFault? && l.lag == 0
    requires s.workers[l.id].FindCert? && s.workers[l.id].job.b.ns == ns
    requires StoredCa(s.now, ns) == Some(s.workers[l.id].ca)
    requires var k := TlsKey(ns, s.workers[l.id].job.b.name);
             k in s.now.objects && s.now.objects[k].obj.SecretObject?
                 && !IssuedBy(s.workers[l.id].ca, s.now.objects[k].obj.secret)
    ensures !AllIssued(Step(s, l).now, ns)
    ensures var secret := s.now.objects[TlsKey(ns, s.workers[l.id].job.b.name)].obj.secret;
            Step(s, l).workers[l.id] == Find(s.workers[l.id].job, Ingress)
            <==> !NeedsRenewal(secret, HostOf(s.workers[l.id].job.b), s.now.clock)
  {
  }
}
