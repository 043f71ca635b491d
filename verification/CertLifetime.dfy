/**
 * The server certificate of an exposed builder over runs, from the moment the builder is exposed
 * on and over any store: it never lapses as long as certificate passes keep succeeding at most
 * 30 days apart.
 */
module CertLifetime {
  import opened Prelude
  import opened Types
  import opened Certificates
  import opened Render
  import opened Store
  import opened Pass
  import opened Machine
  import opened Versions
  import opened Sleep
  import opened Freshness
  import opened CaAgreement

  /** The stored server certificate. */
  function StoredCert(w: World, ns: string, name: string): Option<Certificate> {
    var k := TlsKey(ns, name);
    if k in w.objects && w.objects[k].obj.SecretObject? then CertIn(w.objects[k].obj.secret) else None
  }

  function CertIn(s: Secret): Option<Certificate> {
    match Parse(s.data, TLS_CRT, TLS_KEY)
    case None => None
    case Some((cert, _)) => Some(cert)
  }

  /** Valid from `at` on for at least 30 days. */
  predicate GoodFor30Days(cert: Option<Certificate>, at: int) {
    cert.Some? && cert.value.notBefore <= at && at + RENEW_BEFORE <= cert.value.notAfter
  }

  /** No certificate, or one whose window has begun. */
  predicate NotFromFuture(w: World, ns: string, name: string) {
    StoredCert(w, ns, name).Some? ==> StoredCert(w, ns, name).value.notBefore <= w.clock
  }

  /**
   * The renewal test does not look at the beginning of the window: a certificate that is kept is
   * kept wherever its window begins, also when it is not valid yet.
   */
  lemma FutureCertificateIsKept(s: Secret, host: string, now: int, begin: int)
    requires CertIn(s).Some? && !NeedsRenewal(s, host, now)
    ensures var cert := CertIn(s).value.(notBefore := begin);
            var shifted := s.(data := s.data[TLS_CRT := CertificatePem(cert)]);
            && CertIn(shifted) == Some(cert) && !NeedsRenewal(shifted, host, now)
            && (ValidAt(cert, now) <==> begin <= now)
  {
    assert TLS_CRT[4] == 'c' && TLS_KEY[4] == 'k';
  }

  // -- What holds of every pass --------------------------------------------------------------

  predicate HasSecret(pc: Pc) {
    pc.MakeCert? || pc.ReplaceCert?
  }

  predicate AtCertStage(pc: Pc) {
    AtCa(pc) || pc.SignCert? || HasSecret(pc)
  }

  /**
   * Only an exposed builder gets a certificate, only an unexposed one loses it, and a Secret about
   * to be stored was good when signed.
   */
  predicate Signed(w: World, pc: Pc) {
    && (pc.ReadTemplate? ==> pc.since <= w.clock)
    && (HasJob(pc) ==> pc.job.since <= w.clock)
    && (HasSecret(pc) ==> pc.job.since <= pc.at <= w.clock && GoodFor30Days(CertIn(pc.secret), pc.at))
    && (AtCertStage(pc) ==> Exposed(pc.job.b))
    && (pc.DropRoute? || pc.DropCert? ==> !Exposed(pc.job.b))
  }

  ghost predicate AllSigned(s: System) {
    forall id | id in s.workers :: Signed(s.now, s.workers[id])
  }

  lemma FreshlySignedIsGood(job: Job, ca: Ca, stale: Option<Entry>, key: KeyId, now: int)
    ensures GoodFor30Days(CertIn(RenewedSecret(job, ca, stale, key, now)), now)
  {
  }

  /** What a renewal stores: the CA, a certificate for the builder's host from now for 365 days, and its key. */
  lemma RenewalMeaning(job: Job, ca: Ca, stale: Option<Entry>, key: KeyId, now: int)
    requires job.b.spec.exposure.Some?
    ensures var s, host := RenewedSecret(job, ca, stale, key, now), job.b.spec.exposure.value.host;
            && s.annotations.Keys >= {"builder-hub.dev/cert-host"} && s.annotations["builder-hub.dev/cert-host"] == host
            && s.data.Keys == {"ca.crt", "tls.crt", "tls.key"}
            && s.data["ca.crt"] == ca.pem && s.data["tls.key"] == KeyPem(key)
            && s.data["tls.crt"].CertificatePem?
            && var cert := s.data["tls.crt"].cert;
               && cert.issuer == ca.key && cert.subject == key && !cert.isCa && cert.san == host
               && cert.notBefore <= now - 300 * 1_000_000_000 < cert.notBefore + 1_000_000_000
               && cert.notAfter <= now + 365 * 86_400 * 1_000_000_000 < cert.notAfter + 1_000_000_000
  {
    ServerCertificateIs(ca, job.b.spec.exposure.value.host, key, now);
    assert TLS_CRT[4] == 'c' && TLS_KEY[4] == 'k' && CA_CRT[0] == 'c';
  }

  /**
   * What is about to be stored once a certificate is signed: as a new Secret with the host as its only
   * annotation, or over the one that was read, whose other annotations stay.
   */
  lemma SigningMeaning(pc: Pc, r: Response, now: int, key: nat, annotation: string)
    requires pc.SignCert? && r.Done? && pc.job.b.spec.exposure.Some?
    requires pc.stale.Some? ==> pc.stale.value.obj.SecretObject?
    ensures var next := Hear(pc, r, now, key);
            && (pc.stale.None? ==>
                  next.MakeCert? && next.job == pc.job
                  && next.secret.annotations == map["builder-hub.dev/cert-host" := pc.job.b.spec.exposure.value.host])
            && (pc.stale.Some? ==>
                  var before := pc.stale.value.obj.secret.annotations;
                  && next.ReplaceCert? && next.job == pc.job && next.seen == pc.stale.value
                  && (annotation != "builder-hub.dev/cert-host" ==>
                        (annotation in next.secret.annotations <==> annotation in before)
                        && (annotation in before ==> next.secret.annotations[annotation] == before[annotation])))
            && (HasSecret(next) ==> next.at == now && next.secret == RenewedSecret(pc.job, pc.ca, pc.stale, key, now))
  {
    hide ServerData, SignServer;
  }

  lemma SigningHears(w: World, pc: Pc, r: Response, key: nat)
    requires pc.SignCert? && Signed(w, pc)
    ensures Signed(w, Hear(pc, r, w.clock, key))
  {
    hide RenewedSecret, CertIn, GoodFor30Days;
    FreshlySignedIsGood(pc.job, pc.ca, pc.stale, key, w.clock);
  }

  /** How a pass gets to its certificate stage and to its deletions. */
  lemma StageComesFrom(pc: Pc, r: Response, now: int, key: nat)
    requires HasJob(pc)
    ensures var next := Hear(pc, r, now, key);
            && (HasSecret(next) ==> pc.SignCert?)
            && (AtCertStage(next) ==> AtCertStage(pc) || Exposed(pc.job.b))
  {
    hide RenewedSecret, GenerateCa, NeedsRenewal, EndpointOf;
  }

  lemma DropComesFrom(pc: Pc, r: Response, now: int, key: nat)
    requires HasJob(pc)
    ensures var next := Hear(pc, r, now, key);
            next.DropRoute? || next.DropCert? ==> pc.DropRoute? || pc.DropCert? || !Exposed(pc.job.b)
  {
    hide RenewedSecret, GenerateCa, NeedsRenewal, EndpointOf;
  }

  lemma ResolvedIsSigned(w: World, pc: Pc, r: Response, key: nat)
    requires (pc.Start? || pc.ReadTemplate?) && Signed(w, pc)
    ensures Signed(w, Hear(pc, r, w.clock, key))
  {
    hide GoodFor30Days;
  }

  lemma SignedHears(w: World, pc: Pc, r: Response, key: nat)
    requires !Ended(pc) && Signed(w, pc)
    ensures Signed(w, Hear(pc, r, w.clock, key))
  {
    hide Hear, GoodFor30Days, CertIn;
    if pc.Start? || pc.ReadTemplate? {
      ResolvedIsSigned(w, pc, r, key);
    } else if pc.SignCert? {
      SigningHears(w, pc, r, key);
    } else {
      PassKeepsJob(pc, r, w.clock, key);
      StageComesFrom(pc, r, w.clock, key);
      DropComesFrom(pc, r, w.clock, key);
    }
  }

  lemma SignedStays(w: World, later: World, pc: Pc)
    requires Signed(w, pc) && w.clock <= later.clock
    ensures Signed(later, pc)
  {
  }

  /** This much is true in every run whatsoever. */
  lemma SignedStep(s: System, l: Label)
    requires AllSigned(s)
    ensures AllSigned(Step(s, l))
  {
    hide Signed, Ask, Serve, Hear;
    var s' := Step(s, l);
    forall id | id in s'.workers
      ensures Signed(s'.now, s'.workers[id])
    {
      if l.Act? && Active(s, l.id) {
        HandleKeepsClock(s.now, Seen(s, l.lag), Ask(s.workers[l.id]), l.grant, l.fault);
        if id == l.id {
          SignedHears(s.now, s.workers[id], Reply(s, l).1, l.grant.key);
          SignedStays(s.now, s'.now, s'.workers[id]);
        } else {
          SignedStays(s.now, s'.now, s.workers[id]);
        }
      } else if l.Spawn? && id == l.id && !Active(s, l.id) {
        StartIsSigned(s'.now, l.ns, l.name);
      } else {
        SignedStays(s.now, s'.now, s.workers[id]);
      }
    }
  }

  lemma StartIsSigned(w: World, ns: string, name: string)
    ensures Signed(w, Start(ns, name))
  {
  }

  // -- Successful certificate passes ----------------------------------------------------------

  /** The pass read the stored certificate and kept it. */
  predicate KeptCert(s: System, l: Label, ns: string, name: string) {
    && l.Act? && On(s, l.id, ns, name) && s.workers[l.id].FindCert?
    && Step(s, l).workers[l.id] == Find(s.workers[l.id].job, Ingress)
  }

  /** The pass stored a renewed certificate, whether or not the reply arrived. */
  predicate WroteCert(s: System, l: Label, ns: string, name: string) {
    && l.Act? && On(s, l.id, ns, name) && HasSecret(s.workers[l.id])
    && !SameAt(s.now, Step(s, l).now, TlsKey(ns, name))
  }

  /**
   * Keeping counts as success when the certificate is already valid; the renewal test itself
   * ignores the beginning of the window.
   */
  function NextCheck(s: System, l: Label, ns: string, name: string, last: Option<int>): Option<int> {
    if WroteCert(s, l, ns, name) then Some(s.workers[l.id].at)
    else if KeptCert(s, l, ns, name) && NotFromFuture(s.now, ns, name) then Some(s.now.clock)
    else last
  }

  /** The instant of the last successful certificate pass, followed along a run. */
  function LastCheck(s: System, labels: seq<Label>, ns: string, name: string, last: Option<int>): Option<int>
    decreases |labels|
  {
    if labels == [] then last
    else LastCheck(Step(s, labels[0]), labels[1..], ns, name, NextCheck(s, labels[0], ns, name, last))
  }

  /**
   * The stored certificate was good for 30 days at `last`, and every pass under way has read the
   * builder since it was exposed.
   */
  ghost predicate Checked(s: System, ns: string, name: string, last: int) {
    && last <= s.now.clock
    && GoodFor30Days(StoredCert(s.now, ns, name), last)
    && forall id | On(s, id, ns, name) ::
         HeldIs(Exposed, s.workers[id]) && (HasSecret(s.workers[id]) ==> last <= s.workers[id].at)
  }

  /**
   * The builder has been exposed since history index `from`; `last` is the last successful
   * certificate pass since then, if there is one.
   */
  ghost predicate Covered(s: System, from: nat, ns: string, name: string, last: Option<int>) {
    && Sane(s) && Exclusive(s, ns, name) && AllSigned(s)
    && HasBeen(Exposed, s, from, ns, name)
    && (last.Some? ==> Checked(s, ns, name, last.value))
  }

  /**
   * One worker at a time, reading the builder no staler than its exposure and the certificate
   * fresh; nobody else touches the Secret or ends the exposure.
   */
  ghost predicate Guarded(s: System, l: Label, from: nat, ns: string, name: string) {
    && Queued(s, l, ns, name) && ReadsSince(s, l, from, ns, name)
    && (l.Act? && On(s, l.id, ns, name) && s.workers[l.id].FindCert? ==> l.lag == 0)
    && (l.Outside? ==> SameContent(s.now, l.next, TlsKey(ns, name)) && StoredIs(Exposed, l.next, ns, name))
  }

  ghost predicate Maintained(from: nat, ns: string, name: string, s: System, labels: seq<Label>)
    decreases |labels|
  {
    labels != [] ==>
      && Guarded(s, labels[0], from, ns, name)
      && Maintained(from, ns, name, Step(s, labels[0]), labels[1..])
  }

  // -- One step ------------------------------------------------------------------------------

  lemma ExposedIgnoresStatus()
    ensures IgnoresStatus(Exposed)
  {
  }

  lemma CertWrite(w: World, seen: World, pc: Pc, grant: Grant, fault: Fault, ns: string, name: string)
    requires Target(Ask(pc)) == Some(TlsKey(ns, name))
    ensures (pc.DropCert? || HasSecret(pc)) && (pc.job.b.ns, pc.job.b.name) == (ns, name)
    ensures var later := Handle(w, seen, Ask(pc), grant, fault).0;
            HasSecret(pc) ==>
              SameAt(w, later, TlsKey(ns, name)) || Holds(later, TlsKey(ns, name), SecretObject(pc.secret))
  {
    hide StatusOf, ChildObject;
    PassWritesItsOwn(pc);
    CaKeyIsNotTlsKey(ns, name, pc.job.b.ns);
    if pc.job.b.name != name {
      WrappedNamesDiffer(pc.job.b.name, name, "-tls");
    }
  }

  /** The stored server Secret stays, or becomes the one a worker of this builder prepared. */
  lemma CertStep(s: System, l: Label, ns: string, name: string)
    requires l.Act? && (On(s, l.id, ns, name) ==> !s.workers[l.id].DropCert?)
    ensures WroteCert(s, l, ns, name) ==>
              Holds(Step(s, l).now, TlsKey(ns, name), SecretObject(s.workers[l.id].secret))
    ensures !WroteCert(s, l, ns, name) ==> SameAt(s.now, Step(s, l).now, TlsKey(ns, name))
  {
    hide Serve, Hear, StatusOf, ChildObject;
    var k := TlsKey(ns, name);
    if Active(s, l.id) && Target(Ask(s.workers[l.id])) == Some(k) {
      CertWrite(s.now, Seen(s, l.lag), s.workers[l.id], l.grant, l.fault, ns, name);
    } else {
      StepTouchesTarget(s, l, k);
    }
  }

  lemma KeptWasStored(w: World, pc: Pc, grant: Grant, fault: Fault, now: int)
    requires pc.FindCert?
    requires Hear(pc, Handle(w, w, Ask(pc), grant, fault).1, now, grant.key) == Find(pc.job, Ingress)
    ensures var cert := StoredCert(w, pc.job.b.ns, pc.job.b.name);
            cert.Some? && now + RENEW_BEFORE <= cert.value.notAfter
  {
    hide StatusOf, ChildObject;
    var k := TlsKey(pc.job.b.ns, pc.job.b.name);
    assert k in w.objects && w.objects[k].obj.SecretObject?;
    KeptMeaning(w.objects[k].obj.secret, HostOf(pc.job.b), now);
  }

  /** A pass that keeps a valid certificate has just seen it good for 30 more days. */
  lemma KeptIsGood(s: System, l: Label, from: nat, ns: string, name: string)
    requires KeptCert(s, l, ns, name) && Guarded(s, l, from, ns, name) && NotFromFuture(s.now, ns, name)
    ensures GoodFor30Days(StoredCert(s.now, ns, name), s.now.clock)
  {
    hide Hear, Ask, Serve;
    KeptWasStored(s.now, s.workers[l.id], l.grant, l.fault, s.now.clock);
  }

  lemma NoSecretAfter(pc: Pc, r: Response, now: int, key: nat)
    requires HasSecret(pc)
    ensures !HasSecret(Hear(pc, r, now, key))
  {
  }

  lemma GoodWhenHeld(w: World, ns: string, name: string, secret: Secret, at: int)
    requires Holds(w, TlsKey(ns, name), SecretObject(secret)) && GoodFor30Days(CertIn(secret), at)
    ensures GoodFor30Days(StoredCert(w, ns, name), at)
  {
  }

  /** A certificate the pass has just written or kept is good for 30 days, whatever was known before. */
  lemma CheckCovers(s: System, l: Label, from: nat, ns: string, name: string, last: Option<int>)
    requires Covered(s, from, ns, name, last) && Guarded(s, l, from, ns, name)
    requires WroteCert(s, l, ns, name) || (KeptCert(s, l, ns, name) && NotFromFuture(s.now, ns, name))
    ensures Checked(Step(s, l), ns, name, NextCheck(s, l, ns, name, last).value)
  {
    hide Ask, Serve, Hear, Sane, GoodFor30Days, NotFromFuture, StoredCert;
    var pc, r, s' := s.workers[l.id], Reply(s, l).1, Step(s, l);
    var d := NextCheck(s, l, ns, name, last).value;
    HandleKeepsClock(s.now, Seen(s, l.lag), Ask(pc), l.grant, l.fault);
    assert Signed(s.now, pc);
    CertStep(s, l, ns, name);
    if WroteCert(s, l, ns, name) {
      GoodWhenHeld(s'.now, ns, name, pc.secret, pc.at);
      NoSecretAfter(pc, r, s.now.clock, l.grant.key);
    } else {
      KeptIsGood(s, l, from, ns, name);
      StoredCertSame(s.now, s'.now, ns, name);
    }
    HeldStep(Exposed, s, l, from, ns, name);
    forall id | On(s', id, ns, name)
      ensures HeldIs(Exposed, s'.workers[id]) && (HasSecret(s'.workers[id]) ==> d <= s'.workers[id].at)
    {
      ActorIsOnlyOne(s, l, id, ns, name);
    }
  }

  lemma StoredCertSame(w: World, later: World, ns: string, name: string)
    requires SameContent(w, later, TlsKey(ns, name))
    ensures StoredCert(w, ns, name) == StoredCert(later, ns, name)
  {
  }

  /**
   * The first certificate: the moment the operator stores one for an exposed builder, over any
   * store, the builder is covered.
   */
  lemma FirstCertificateCovers(s: System, l: Label, from: nat, ns: string, name: string)
    requires Covered(s, from, ns, name, None) && Guarded(s, l, from, ns, name)
    requires WroteCert(s, l, ns, name)
    ensures Covered(Step(s, l), from, ns, name, Some(s.workers[l.id].at))
  {
    hide Step, Checked, Sane;
    CoveredStep(s, l, from, ns, name, None);
  }

  lemma SecretHears(pc: Pc, r: Response, now: int, key: nat, last: int)
    requires !Ended(pc) && last <= now
    ensures HasSecret(Hear(pc, r, now, key)) ==> last <= Hear(pc, r, now, key).at
  {
    hide RenewedSecret, ChildObject, StatusOf;
    assert HasSecret(Hear(pc, r, now, key)) ==> pc.SignCert?;
  }

  lemma StartIsChecked(ns: string, name: string)
    ensures HeldIs(Exposed, Start(ns, name)) && !HasSecret(Start(ns, name))
  {
  }

  lemma ExposedDropsNothing(w: World, pc: Pc)
    requires Signed(w, pc) && HeldIs(Exposed, pc)
    ensures !pc.DropCert?
  {
  }

  /** Steps other than a check keep the builder covered. */
  lemma CheckedStays(s: System, l: Label, from: nat, ns: string, name: string, last: int)
    requires Covered(s, from, ns, name, Some(last)) && Guarded(s, l, from, ns, name)
    requires !WroteCert(s, l, ns, name)
    ensures Checked(Step(s, l), ns, name, last)
  {
    hide Ask, Serve, Hear, Sane, HeldIs, GoodFor30Days, StoredCert, Signed;
    var s' := Step(s, l);
    if l.Act? {
      if On(s, l.id, ns, name) {
        ExposedDropsNothing(s.now, s.workers[l.id]);
      }
      CertStep(s, l, ns, name);
      if Active(s, l.id) {
        HandleKeepsClock(s.now, Seen(s, l.lag), Ask(s.workers[l.id]), l.grant, l.fault);
      }
    }
    StoredCertSame(s.now, s'.now, ns, name);
    forall id | On(s', id, ns, name)
      ensures HeldIs(Exposed, s'.workers[id]) && (HasSecret(s'.workers[id]) ==> last <= s'.workers[id].at)
    {
      if l.Act? && Active(s, l.id) {
        PassKeepsBuilder(s.workers[l.id], Reply(s, l).1, s.now.clock, l.grant.key);
        assert On(s, id, ns, name);
        if id == l.id {
          HeldStep(Exposed, s, l, from, ns, name);
          SecretHears(s.workers[id], Reply(s, l).1, s.now.clock, l.grant.key, last);
        }
      } else if l.Spawn? && id == l.id && !Active(s, l.id) {
        StartIsChecked(ns, name);
      }
    }
  }

  lemma ChecksOnlyGetLater(s: System, l: Label, from: nat, ns: string, name: string, last: Option<int>)
    requires Covered(s, from, ns, name, last)
    ensures var d := NextCheck(s, l, ns, name, last); last.Some? ==> d.Some? && last.value <= d.value
  {
    hide Step, Sane, HeldIs, GoodFor30Days;
  }

  lemma CoveredStep(s: System, l: Label, from: nat, ns: string, name: string, last: Option<int>)
    requires Covered(s, from, ns, name, last) && Guarded(s, l, from, ns, name)
    ensures Covered(Step(s, l), from, ns, name, NextCheck(s, l, ns, name, last))
    ensures var d := NextCheck(s, l, ns, name, last); last.Some? ==> d.Some? && last.value <= d.value
  {
    hide Step, Sane, Checked, WroteCert, KeptCert, NotFromFuture;
    ChecksOnlyGetLater(s, l, from, ns, name, last);
    SaneStep(s, l);
    ExclusiveStep(s, l, ns, name);
    SignedStep(s, l);
    ExposedIgnoresStatus();
    HasBeenStep(Exposed, s, l, from, ns, name);
    if WroteCert(s, l, ns, name) || (KeptCert(s, l, ns, name) && NotFromFuture(s.now, ns, name)) {
      CheckCovers(s, l, from, ns, name, last);
    } else if last.Some? {
      CheckedStays(s, l, from, ns, name, last.value);
    }
  }

  // -- Over runs -----------------------------------------------------------------------------

  /** Any moment of any sane run at which the builder is exposed qualifies as the beginning. */
  lemma AnyMomentIsCovered(s: System, ns: string, name: string)
    requires Sane(s) && Exclusive(s, ns, name) && AllSigned(s) && StoredIs(Exposed, s.now, ns, name)
    ensures Covered(s, |s.past|, ns, name, None)
  {
    assert History(s)[|s.past|] == s.now;
  }

  lemma {:induction false} CoveredAlways(s: System, labels: seq<Label>, from: nat, ns: string, name: string,
                                         last: Option<int>)
    requires Covered(s, from, ns, name, last) && Maintained(from, ns, name, s, labels)
    ensures var d := LastCheck(s, labels, ns, name, last);
            Covered(Run(s, labels), from, ns, name, d) && (last.Some? ==> d.Some? && last.value <= d.value)
    decreases |labels|
  {
    hide Covered, Guarded, NextCheck, Step;
    if labels != [] {
      CoveredStep(s, labels[0], from, ns, name, last);
      CoveredAlways(Step(s, labels[0]), labels[1..], from, ns, name, NextCheck(s, labels[0], ns, name, last));
    }
  }

  /**
   * At any point of a run no more than 30 days after the last successful certificate pass, the
   * stored server certificate is inside its validity window.
   */
  lemma CertificateNeverLapses(s: System, labels: seq<Label>, from: nat, ns: string, name: string, last: Option<int>)
    requires Covered(s, from, ns, name, last) && Maintained(from, ns, name, s, labels)
    requires var d := LastCheck(s, labels, ns, name, last);
             d.Some? && Run(s, labels).now.clock <= d.value + RENEW_BEFORE
    ensures var w := Run(s, labels).now;
            StoredCert(w, ns, name).Some? && ValidAt(StoredCert(w, ns, name).value, w.clock)
  {
    hide Maintained, Sane, HasBeen;
    CoveredAlways(s, labels, from, ns, name, last);
  }

  // -- Passes and checks ---------------------------------------------------------------------

  predicate AtLaterChild(pc: Pc) {
    (pc.Find? || pc.Make? || pc.Replace?) && (pc.child.Ingress? || pc.child.Cache? || pc.child.Workload?)
  }

  /** The job of a pass for the builder that is past its certificate. */
  function CertifiedJob(pc: Pc, ns: string, name: string): Option<Job> {
    var job :=
      if AtLaterChild(pc) || pc.Decide? || PastWorkload(pc) then Some(pc.job)
      else if pc.Finished? && (pc.outcome.Reported? || pc.outcome.Waiting?) then Some(pc.outcome.job)
      else None;
    if job.Some? && (job.value.b.ns, job.value.b.name) == (ns, name) then job else None
  }

  /** The position has found no server Secret, or been about to create it. */
  predicate FoundNone(pc: Pc) {
    (pc.SignCert? && pc.stale.None?) || pc.MakeCert?
  }

  /**
   * A pass for the builder has begun at `start` or later, and a check no older than it has
   * succeeded once it is past its certificate.
   */
  predicate Vetted(w: World, pc: Pc, ns: string, name: string, start: int, last: Option<int>) {
    && (BuilderOf(pc) == Some((ns, name)) ==>
          && HeldIs(Exposed, pc) && (HasJob(pc) ==> start <= pc.job.since) && (pc.ReadTemplate? ==> start <= pc.since)
          && (FoundNone(pc) ==> TlsKey(ns, name) !in w.objects))
    && (CertifiedJob(pc, ns, name).Some? ==>
          last.Some? && start <= CertifiedJob(pc, ns, name).value.since <= last.value)
  }

  lemma CertifiedIsOn(pc: Pc, r: Response, now: int, key: nat, ns: string, name: string)
    requires !Ended(pc) && CertifiedJob(Hear(pc, r, now, key), ns, name).Some?
    ensures HasJob(pc) && (pc.job.b.ns, pc.job.b.name) == (ns, name)
            && CertifiedJob(Hear(pc, r, now, key), ns, name) == Some(pc.job)
  {
    hide ChildObject, StatusOf, RenewedSecret;
    if HasJob(pc) {
      PassKeepsJob(pc, r, now, key);
    }
  }

  /** How the pass of an exposed builder gets past its certificate. */
  lemma CertifiedComesFrom(pc: Pc, r: Response, now: int, key: nat, ns: string, name: string)
    requires HasJob(pc) && CertifiedJob(Hear(pc, r, now, key), ns, name).Some? && Exposed(pc.job.b)
    requires !pc.DropRoute? && !pc.DropCert?
    ensures CertifiedJob(pc, ns, name) == Some(pc.job)
         || (pc.FindCert? && Hear(pc, r, now, key) == Find(pc.job, Ingress))
         || (HasSecret(pc) && (r.Done? || (pc.MakeCert? && r == Refused(AlreadyExists))))
  {
    hide ChildObject, StatusOf, RenewedSecret;
    PassKeepsJob(pc, r, now, key);
    if AtChild(pc) && !AtLaterChild(pc) {
      AfterEarlyChild(pc, r, now, key);
    }
  }

  lemma AfterEarlyChild(pc: Pc, r: Response, now: int, key: nat)
    requires AtChild(pc) && !AtLaterChild(pc) && Exposed(pc.job.b)
    ensures var next := Hear(pc, r, now, key);
            next.Failed? || next.FindCa? || (AtChild(next) && !AtLaterChild(next))
  {
    hide ChildObject, StatusOf;
  }

  lemma FoundNoneComesFrom(pc: Pc, r: Response, now: int, key: nat)
    requires !Ended(pc) && FoundNone(Hear(pc, r, now, key))
    ensures FoundNone(pc) || (pc.FindCert? && r == Refused(NotFound))
  {
    hide ChildObject, StatusOf, RenewedSecret;
  }

  lemma VettedHears(w: World, pc: Pc, r: Response, now: int, key: nat, ns: string, name: string, start: int,
                    last: Option<int>, d: Option<int>, later: World)
    requires !Ended(pc) && Vetted(w, pc, ns, name, start, last) && Signed(w, pc) && start <= now
    requires BuilderOf(pc) == Some((ns, name)) ==> HeldIs(Exposed, Hear(pc, r, now, key))
    requires last.Some? ==> d.Some? && last.value <= d.value
    requires BuilderOf(pc) == Some((ns, name)) && FoundNone(Hear(pc, r, now, key)) ==>
             TlsKey(ns, name) !in later.objects
    requires BuilderOf(pc) == Some((ns, name)) && pc.FindCert? && Hear(pc, r, now, key) == Find(pc.job, Ingress) ==>
               d.Some? && pc.job.since <= d.value
    requires BuilderOf(pc) == Some((ns, name)) && HasSecret(pc)
             && (r.Done? || (pc.MakeCert? && r == Refused(AlreadyExists))) ==>
               d.Some? && pc.job.since <= d.value
    ensures Vetted(later, Hear(pc, r, now, key), ns, name, start, d)
  {
    hide ChildObject, StatusOf, RenewedSecret, GoodFor30Days;
    var next := Hear(pc, r, now, key);
    PassKeepsBuilder(pc, r, now, key);
    if HasJob(pc) {
      PassKeepsJob(pc, r, now, key);
    }
    if CertifiedJob(next, ns, name).Some? {
      CertifiedIsOn(pc, r, now, key, ns, name);
      CertifiedComesFrom(pc, r, now, key, ns, name);
    }
  }

  lemma VettedLater(w: World, later: World, pc: Pc, ns: string, name: string, start: int, last: Option<int>,
                    d: Option<int>)
    requires Vetted(w, pc, ns, name, start, last)
    requires last.Some? ==> d.Some? && last.value <= d.value
    requires BuilderOf(pc) == Some((ns, name)) && TlsKey(ns, name) !in w.objects ==> TlsKey(ns, name) !in later.objects
    ensures Vetted(later, pc, ns, name, start, d)
  {
  }

  lemma StartIsVetted(w: World, ns': string, name': string, ns: string, name: string, start: int, last: Option<int>)
    ensures Vetted(w, Start(ns', name'), ns, name, start, last)
  {
  }

  /** While its own pass is at work and no Secret is there, nobody else creates one. */
  lemma NobodyElseCertifies(s: System, l: Label, id: nat, from: nat, ns: string, name: string)
    requires Exclusive(s, ns, name) && On(s, id, ns, name) && Guarded(s, l, from, ns, name) && !(l.Act? && l.id == id)
    requires TlsKey(ns, name) !in s.now.objects
    ensures TlsKey(ns, name) !in Step(s, l).now.objects
  {
    hide Ask, Serve, Hear;
    if l.Act? {
      CertStep(s, l, ns, name);
    }
  }

  /**
   * An acknowledged write of the Secret has changed it, if only its revision; one refused because
   * it exists found it there.
   */
  lemma DoneMeansCertified(w: World, seen: World, pc: Pc, grant: Grant, fault: Fault)
    requires HasSecret(pc) && Bounded(w)
    ensures var (next, r) := Handle(w, seen, Ask(pc), grant, fault);
            var k := TlsKey(pc.job.b.ns, pc.job.b.name);
            && (r.Done? ==> !SameAt(w, next, k))
            && (pc.MakeCert? && r == Refused(AlreadyExists) ==> k in w.objects)
  {
    hide ChildObject, StatusOf;
  }

  lemma FreshNotFound(w: World, pc: Pc, grant: Grant, fault: Fault)
    requires pc.FindCert? && Handle(w, w, Ask(pc), grant, fault).1 == Refused(NotFound)
    ensures TlsKey(pc.job.b.ns, pc.job.b.name) !in w.objects && Handle(w, w, Ask(pc), grant, fault).0 == w
  {
    hide ChildObject, StatusOf;
  }

  lemma SigningWritesNothing(w: World, seen: World, pc: Pc, grant: Grant, fault: Fault)
    requires pc.SignCert?
    ensures Handle(w, seen, Ask(pc), grant, fault).0 == w
  {
    hide ChildObject, StatusOf;
  }

  lemma StillNone(s: System, l: Label, from: nat, ns: string, name: string, start: int, last: Option<int>)
    requires Guarded(s, l, from, ns, name) && l.Act? && Active(s, l.id) && On(s, l.id, ns, name)
    requires Vetted(s.now, s.workers[l.id], ns, name, start, last) && FoundNone(Step(s, l).workers[l.id])
    ensures TlsKey(ns, name) !in Step(s, l).now.objects
  {
    hide Hear, Serve, Ask, HeldIs;
    var pc, r := s.workers[l.id], Reply(s, l).1;
    FoundNoneComesFrom(pc, r, s.now.clock, l.grant.key);
    if pc.FindCert? {
      FreshNotFound(s.now, pc, l.grant, l.fault);
    } else if pc.SignCert? {
      SigningWritesNothing(s.now, Seen(s, l.lag), pc, l.grant, l.fault);
    } else {
      NoSecretAfter(pc, r, s.now.clock, l.grant.key);
      NotSigningAfter(pc, r, s.now.clock, l.grant.key);
    }
  }

  lemma NotSigningAfter(pc: Pc, r: Response, now: int, key: nat)
    requires HasSecret(pc)
    ensures !Hear(pc, r, now, key).SignCert?
  {
  }

  lemma ActorVetted(s: System, l: Label, from: nat, ns: string, name: string, start: int, last: Option<int>)
    requires Covered(s, from, ns, name, last) && Guarded(s, l, from, ns, name) && start <= s.now.clock
    requires NotFromFuture(s.now, ns, name)
    requires l.Act? && Active(s, l.id) && Vetted(s.now, s.workers[l.id], ns, name, start, last)
    ensures Vetted(Step(s, l).now, Step(s, l).workers[l.id], ns, name, start, NextCheck(s, l, ns, name, last))
  {
    hide Hear, Serve, Ask, Sane, HeldIs, Checked, NotFromFuture, GoodFor30Days;
    var pc, r, d := s.workers[l.id], Reply(s, l).1, NextCheck(s, l, ns, name, last);
    ChecksOnlyGetLater(s, l, from, ns, name, last);
    assert Signed(s.now, pc);
    if BuilderOf(pc) == Some((ns, name)) {
      HeldStep(Exposed, s, l, from, ns, name);
      if FoundNone(Step(s, l).workers[l.id]) {
        StillNone(s, l, from, ns, name, start, last);
      }
      if HasSecret(pc) {
        SaneIsBounded(s);
        DoneMeansCertified(s.now, Seen(s, l.lag), pc, l.grant, l.fault);
      }
    }
    VettedHears(s.now, pc, r, s.now.clock, l.grant.key, ns, name, start, last, d, Step(s, l).now);
  }

  lemma VettedStep(s: System, l: Label, id: nat, from: nat, ns: string, name: string, start: int, last: Option<int>)
    requires Covered(s, from, ns, name, last) && Guarded(s, l, from, ns, name) && start <= s.now.clock
    requires NotFromFuture(s.now, ns, name)
    requires id in s.workers ==> Vetted(s.now, s.workers[id], ns, name, start, last)
    ensures id in Step(s, l).workers ==>
            Vetted(Step(s, l).now, Step(s, l).workers[id], ns, name, start, NextCheck(s, l, ns, name, last))
  {
    hide Hear, Serve, Ask, Sane, Vetted, NextCheck, NotFromFuture, Checked, HasBeen, AllSigned, Guarded;
    var d := NextCheck(s, l, ns, name, last);
    ChecksOnlyGetLater(s, l, from, ns, name, last);
    if l.Spawn? && id == l.id && !Active(s, l.id) {
      StartIsVetted(Step(s, l).now, l.ns, l.name, ns, name, start, d);
    } else if id in Step(s, l).workers {
      if l.Act? && l.id == id && Active(s, id) {
        ActorVetted(s, l, from, ns, name, start, last);
      } else {
        if On(s, id, ns, name) && TlsKey(ns, name) !in s.now.objects && !(l.Act? && l.id == id) {
          NobodyElseCertifies(s, l, id, from, ns, name);
        }
        VettedLater(s.now, Step(s, l).now, s.workers[id], ns, name, start, last, d);
      }
    }
  }

  lemma CertifiedNow(w: World, ns: string, name: string, secret: Secret, at: int)
    requires Holds(w, TlsKey(ns, name), SecretObject(secret)) && GoodFor30Days(CertIn(secret), at) && at <= w.clock
    ensures NotFromFuture(w, ns, name)
  {
  }

  /** Certificates of the operator are never from the future. */
  lemma NotFromFutureStep(s: System, l: Label, from: nat, ns: string, name: string)
    requires AllSigned(s) && Guarded(s, l, from, ns, name) && NotFromFuture(s.now, ns, name)
    ensures NotFromFuture(Step(s, l).now, ns, name) && s.now.clock <= Step(s, l).now.clock
  {
    hide Ask, Serve, Hear, HeldIs;
    var k, s' := TlsKey(ns, name), Step(s, l);
    if l.Act? && Active(s, l.id) {
      var pc := s.workers[l.id];
      HandleKeepsClock(s.now, Seen(s, l.lag), Ask(pc), l.grant, l.fault);
      if On(s, l.id, ns, name) && pc.DropCert? {
        DropLeavesNone(s.now, Seen(s, l.lag), pc, l.grant, l.fault);
      } else {
        CertStep(s, l, ns, name);
        if WroteCert(s, l, ns, name) {
          assert Signed(s.now, pc);
          CertifiedNow(s'.now, ns, name, pc.secret, pc.at);
        }
      }
    }
  }

  lemma DropLeavesNone(w: World, seen: World, pc: Pc, grant: Grant, fault: Fault)
    requires pc.DropCert?
    ensures var k, later := TlsKey(pc.job.b.ns, pc.job.b.name), Handle(w, seen, Ask(pc), grant, fault).0;
            k !in later.objects || SameAt(w, later, k)
  {
    hide ChildObject, StatusOf;
  }

  lemma {:induction false} VettedAlways(s: System, labels: seq<Label>, id: nat, from: nat, ns: string, name: string,
                                        start: int, last: Option<int>)
    requires Covered(s, from, ns, name, last) && Maintained(from, ns, name, s, labels) && start <= s.now.clock
    requires NotFromFuture(s.now, ns, name)
    requires id in s.workers ==> Vetted(s.now, s.workers[id], ns, name, start, last)
    ensures var e := Run(s, labels);
            id in e.workers ==> Vetted(e.now, e.workers[id], ns, name, start, LastCheck(s, labels, ns, name, last))
    decreases |labels|
  {
    hide Guarded, NextCheck, Step, Vetted, NotFromFuture, Sane, HasBeen, Checked, Exclusive;
    if labels != [] {
      CoveredStep(s, labels[0], from, ns, name, last);
      VettedStep(s, labels[0], id, from, ns, name, start, last);
      NotFromFutureStep(s, labels[0], from, ns, name);
      VettedAlways(Step(s, labels[0]), labels[1..], id, from, ns, name, start, NextCheck(s, labels[0], ns, name, last));
    }
  }

  /**
   * The theorem in terms of passes: when a pass over an exposed builder that began at most 30 days
   * ago has got past its certificate, the stored one is inside its window.
   */
  lemma PassKeepsCertificateValid(s: System, labels: seq<Label>, id: nat, from: nat, ns: string, name: string,
                                  last: Option<int>)
    requires Covered(s, from, ns, name, last) && Maintained(from, ns, name, s, labels) && NotFromFuture(s.now, ns, name)
    requires id in s.workers && s.workers[id] == Start(ns, name)
    requires var e := Run(s, labels);
             id in e.workers && CertifiedJob(e.workers[id], ns, name).Some? && e.now.clock <= s.now.clock + RENEW_BEFORE
    ensures var w, d := Run(s, labels).now, LastCheck(s, labels, ns, name, last);
            && d.Some? && s.now.clock <= d.value
            && StoredCert(w, ns, name).Some? && ValidAt(StoredCert(w, ns, name).value, w.clock)
  {
    hide Covered, Maintained, Step, NotFromFuture;
    StartIsVetted(s.now, ns, name, ns, name, s.now.clock, last);
    VettedAlways(s, labels, id, from, ns, name, s.now.clock, last);
    CertificateNeverLapses(s, labels, from, ns, name, last);
  }

  lemma {:induction false} ClockMovesForward(s: System, labels: seq<Label>)
    ensures s.now.clock <= Run(s, labels).now.clock
    decreases |labels|
  {
    if labels != [] {
      var l := labels[0];
      if l.Act? && Active(s, l.id) {
        HandleKeepsClock(s.now, Seen(s, l.lag), Ask(s.workers[l.id]), l.grant, l.fault);
      }
      ClockMovesForward(Step(s, l), labels[1..]);
    }
  }
}
