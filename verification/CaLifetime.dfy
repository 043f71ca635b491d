/**
 * The lifetime of a namespace CA over runs. It is issued once, for ten years, and never renewed:
 * every chain of the namespace is valid exactly until the stored CA expires.
 */
module CaLifetime {
  import opened Prelude
  import opened Certificates
  import opened Render
  import opened Store
  import opened Pass
  import opened Machine
  import opened CaAgreement
  import opened CertLifetime

  /** The operator generated this CA at `t`. */
  predicate IssuedAt(ca: Ca, t: int) {
    ca == GenerateCa(ca.key, t, t)
  }

  ghost predicate IssuedBetween(ca: Ca, lo: int, hi: int) {
    exists t | lo <= t <= hi :: IssuedAt(ca, t)
  }

  predicate Candidate(pc: Pc, ns: string) {
    pc.MakeCa? && pc.job.b.ns == ns
  }

  /** A stored CA, and every candidate on its way to the store, was generated by the operator at `lo` or later. */
  ghost predicate Dated(s: System, ns: string, lo: int) {
    && lo <= s.now.clock
    && (CaKey(ns) in s.now.objects ==>
          StoredCa(s.now, ns).Some? && IssuedBetween(StoredCa(s.now, ns).value, lo, s.now.clock))
    && forall id | id in s.workers && Candidate(s.workers[id], ns) :: IssuedBetween(s.workers[id].ca, lo, s.now.clock)
  }

  lemma IssuedStays(ca: Ca, lo: int, hi: int, later: int)
    requires IssuedBetween(ca, lo, hi) && hi <= later
    ensures IssuedBetween(ca, lo, later)
  {
  }

  lemma CandidateComesFrom(pc: Pc, r: Response, now: int, key: nat, ns: string)
    requires !Ended(pc) && Candidate(Hear(pc, r, now, key), ns)
    ensures IssuedAt(Hear(pc, r, now, key).ca, now)
  {
    hide ChildObject, StatusOf, RenewedSecret;
    assert pc.GenerateCaKey?;
  }

  lemma GeneratedIsReadBack(ca: Ca, lo: int, hi: int)
    requires IssuedBetween(ca, lo, hi)
    ensures ReadCa(CaSecret(ca)) == Some(ca)
  {
    assert CA_CRT[3] == 'c' && CA_KEY[3] == 'k';
  }

  lemma StoredStaysDated(w: World, later: World, ns: string, lo: int)
    requires CaKey(ns) in w.objects && StoredCa(w, ns).Some? && IssuedBetween(StoredCa(w, ns).value, lo, w.clock)
    requires SameContent(w, later, CaKey(ns)) && w.clock <= later.clock
    ensures StoredCa(later, ns) == StoredCa(w, ns) && IssuedBetween(StoredCa(later, ns).value, lo, later.clock)
  {
    IssuedStays(StoredCa(w, ns).value, lo, w.clock, later.clock);
  }

  /** Whatever a worker does, a new CA in the store is a dated candidate. */
  lemma ActStaysDated(s: System, l: Label, ns: string, lo: int)
    requires Dated(s, ns, lo) && l.Act? && Active(s, l.id)
    ensures Dated(Step(s, l), ns, lo)
  {
    hide Ask, Hear, Serve, IssuedBetween, StoredCa;
    var s', pc, r := Step(s, l), s.workers[l.id], Reply(s, l).1;
    HandleKeepsClock(s.now, Seen(s, l.lag), Ask(pc), l.grant, l.fault);
    CaStep(s, l, ns);
    if CaKey(ns) in s.now.objects {
      StoredStaysDated(s.now, s'.now, ns, lo);
    } else if CaKey(ns) in s'.now.objects {
      GeneratedIsReadBack(pc.ca, lo, s.now.clock);
      StoredIsReadBack(s'.now, ns, pc.ca);
    }
    if Candidate(s'.workers[l.id], ns) {
      CandidateComesFrom(pc, r, s.now.clock, l.grant.key, ns);
      IssuedNow(s'.workers[l.id].ca, lo, s.now.clock);
    }
  }

  lemma StoredIsReadBack(w: World, ns: string, ca: Ca)
    requires Holds(w, CaKey(ns), SecretObject(CaSecret(ca))) && ReadCa(CaSecret(ca)) == Some(ca)
    ensures StoredCa(w, ns) == Some(ca)
  {
  }

  lemma IssuedNow(ca: Ca, lo: int, now: int)
    requires IssuedAt(ca, now) && lo <= now
    ensures IssuedBetween(ca, lo, now)
  {
  }

  lemma StepStaysDated(s: System, l: Label, ns: string, lo: int)
    requires Dated(s, ns, lo)
    requires l.Outside? ==> SameContent(s.now, l.next, CaKey(ns))
    ensures Dated(Step(s, l), ns, lo)
  {
    hide Ask, Hear, Serve, IssuedBetween, StoredCa;
    if l.Act? && Active(s, l.id) {
      ActStaysDated(s, l, ns, lo);
    } else if l.Outside? && Follows(s.now, l.next) {
      if CaKey(ns) in s.now.objects {
        StoredStaysDated(s.now, l.next, ns, lo);
      }
      forall id | id in s.workers && Candidate(s.workers[id], ns)
        ensures IssuedBetween(s.workers[id].ca, lo, l.next.clock)
      {
        IssuedStays(s.workers[id].ca, lo, s.now.clock, l.next.clock);
      }
    }
  }

  lemma {:induction false} DatedAlways(s: System, labels: seq<Label>, ns: string, lo: int)
    requires Dated(s, ns, lo) && CaKept(ns, s, labels)
    ensures Dated(Run(s, labels), ns, lo)
    decreases |labels|
  {
    hide Dated, Step;
    if labels != [] {
      StepStaysDated(s, labels[0], ns, lo);
      DatedAlways(Step(s, labels[0]), labels[1..], ns, lo);
    }
  }

  /** From any moment without a CA and without a candidate for one, whatever is stored later is dated from there. */
  lemma WithoutCaIsDated(s: System, ns: string)
    requires CaKey(ns) !in s.now.objects
    requires forall id | id in s.workers :: !Candidate(s.workers[id], ns)
    ensures Dated(s, ns, s.now.clock)
  {
  }

  // -- Chains --------------------------------------------------------------------------------

  /**
   * The stored CA was issued at `issued`, and the stored server certificate chains to it exactly
   * until ten years later.
   */
  predicate ChainsUntilExpiry(w: World, ns: string, name: string, issued: int) {
    && StoredCa(w, ns).Some? && IssuedAt(StoredCa(w, ns).value, issued)
    && StoredCert(w, ns, name).Some? && ValidAt(StoredCert(w, ns, name).value, w.clock)
    && (ChainValidAt(StoredCa(w, ns).value.cert, StoredCert(w, ns, name).value, w.clock)
        <==> w.clock <= Truncated(issued + CA_VALIDITY))
  }

  lemma IssuedCaLasts(w: World, ns: string, name: string, lo: int)
    requires StoredCa(w, ns).Some? && IssuedBetween(StoredCa(w, ns).value, lo, w.clock)
    requires StoredCert(w, ns, name).Some? && ValidAt(StoredCert(w, ns, name).value, w.clock)
    requires StoredCert(w, ns, name).value.issuer == StoredCa(w, ns).value.key
    ensures exists issued | lo <= issued <= w.clock :: ChainsUntilExpiry(w, ns, name, issued)
  {
    var issued :| lo <= issued <= w.clock && IssuedAt(StoredCa(w, ns).value, issued);
    assert ChainsUntilExpiry(w, ns, name, issued);
  }

  lemma IssuedCertNamesCa(w: World, ns: string, name: string)
    requires AllIssued(w, ns) && StoredCert(w, ns, name).Some?
    ensures StoredCa(w, ns).Some? && StoredCert(w, ns, name).value.issuer == StoredCa(w, ns).value.key
  {
    assert IssuedByStored(w, ns, w.objects[TlsKey(ns, name)].obj);
  }

  /**
   * The chain theorem. Within 30 days of the last successful certificate pass the stored server
   * certificate is valid, and it chains to the stored CA exactly until 3650 days after the CA was
   * issued, in whole seconds. After that instant certificates are still renewed and still valid,
   * and no chain of the namespace is: the CA stays.
   */
  lemma ChainHoldsForTenYears(s: System, labels: seq<Label>, from: nat, ns: string, name: string, last: Option<int>,
                              lo: int)
    requires Covered(s, from, ns, name, last) && Maintained(from, ns, name, s, labels)
    requires Agreed(s, ns) && CaLeftAlone(ns, s, labels) && Dated(s, ns, lo)
    requires var d := LastCheck(s, labels, ns, name, last);
             d.Some? && Run(s, labels).now.clock <= d.value + RENEW_BEFORE
    ensures var w := Run(s, labels).now;
            && (exists issued | lo <= issued <= w.clock :: ChainsUntilExpiry(w, ns, name, issued))
            && (StoredCa(s.now, ns).Some? ==> StoredCa(w, ns) == StoredCa(s.now, ns))
  {
    hide Maintained, Covered, CaLeftAlone, Step, CaAgreed, AllIssued, IssuedBetween;
    CertificateNeverLapses(s, labels, from, ns, name, last);
    SecretsChainToCa(s, labels, ns);
    LeftAloneIsKept(s, labels, ns);
    WorkersAgreeOnCa(s, labels, ns);
    DatedAlways(s, labels, ns, lo);
    var w := Run(s, labels).now;
    IssuedCertNamesCa(w, ns, name);
    IssuedCaLasts(w, ns, name, lo);
  }
}
