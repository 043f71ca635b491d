/** What resource versions buy: an update replaces exactly the object its worker read. */
module Versions {
  import opened Prelude
  import opened Types
  import opened Render
  import opened Store
  import opened Pass
  import opened Machine

  // -- Histories -----------------------------------------------------------------------------

  /** Every recorded world can follow every earlier one. */
  ghost predicate Chronicle(s: System) {
    forall i, j | 0 <= i <= j < |History(s)| :: Follows(History(s)[i], History(s)[j])
  }

  lemma ChronicleAdvances(s: System, next: World)
    requires Chronicle(s) && Follows(s.now, next) && Bounded(next)
    ensures Chronicle(Advance(s, next))
  {
    var h, h' := History(s), History(Advance(s, next));
    assert h' == h + [next];
    forall i, j | 0 <= i <= j < |h'|
      ensures Follows(h'[i], h'[j])
    {
      if i < |h| && j == |h| {
        assert Follows(h[i], h[|h| - 1]);
        FollowsIsTransitive(h[i], s.now, next);
      }
    }
  }

  lemma ChronicleStep(s: System, l: Label)
    requires Chronicle(s)
    ensures Chronicle(Step(s, l))
  {
    var h := History(s);
    assert Follows(h[|h| - 1], h[|h| - 1]);
    match l
    case Act(id, fault, lag, grant) =>
      if Active(s, id) {
        HandleFollows(s.now, Seen(s, lag), Ask(s.workers[id]), grant, fault);
        ChronicleAdvances(s, Reply(s, l).0);
      }
    case Outside(next) =>
      if Follows(s.now, next) {
        ChronicleAdvances(s, next);
      }
    case _ =>
  }

  /** The entry `e` was stored under `k` at some moment. */
  ghost predicate Recorded(s: System, k: Key, e: Entry) {
    exists i | 0 <= i < |History(s)| :: k in History(s)[i].objects && History(s)[i].objects[k] == e
  }

  /** One revision of a key names one object for all time. */
  lemma RevisionNamesEntry(s: System, k: Key, e: Entry)
    requires Chronicle(s) && Recorded(s, k, e)
    requires k in s.now.objects && s.now.objects[k].rv == e.rv
    ensures s.now.objects[k] == e
  {
    var h := History(s);
    var i :| 0 <= i < |h| && k in h[i].objects && h[i].objects[k] == e;
    assert Follows(h[i], h[i]) && Follows(h[i], h[|h| - 1]);
  }

  /** While a key carries a revision it was read at, it never held anything else in between. */
  lemma RevisionMeansUntouched(s: System, k: Key, i: nat, j: nat)
    requires Chronicle(s) && i <= j < |History(s)|
    requires k in History(s)[i].objects && k in s.now.objects
    requires s.now.objects[k].rv == History(s)[i].objects[k].rv
    ensures k in History(s)[j].objects && History(s)[j].objects[k] == s.now.objects[k]
  {
    var h := History(s);
    assert Follows(h[i], h[i]) && Follows(h[i], h[j]) && Follows(h[j], h[|h| - 1]);
  }

  // -- What workers hold ---------------------------------------------------------------------

  function BuilderEntry(b: Builder, rv: nat): (Key, Entry) {
    (BuilderKey(b.ns, b.name), Entry(BuilderObject(b), rv))
  }

  function HeldBuilder(pc: Pc): set<(Key, Entry)> {
    if HasJob(pc) then {BuilderEntry(pc.job.b, pc.job.rv)}
    else if pc.ReadTemplate? then {BuilderEntry(pc.b, pc.rv)}
    else {}
  }

  function HeldChild(pc: Pc): set<(Key, Entry)> {
    match pc
    case Replace(job, child, e) => {(ChildKey(job.b, child), e)}
    case SignCert(job, _, Some(e)) => {(TlsKey(job.b.ns, job.b.name), e)}
    case ReplaceCert(job, _, e, _) => {(TlsKey(job.b.ns, job.b.name), e)}
    case _ => {}
  }

  /** The entries a worker has read and may still write over. */
  function Held(pc: Pc): set<(Key, Entry)> {
    HeldBuilder(pc) + HeldChild(pc)
  }

  ghost predicate HeldWasStored(s: System) {
    forall id, h | id in s.workers && h in Held(s.workers[id]) :: Recorded(s, h.0, h.1)
  }

  ghost predicate Sane(s: System) {
    Chronicle(s) && HeldWasStored(s) && forall id | id in s.workers :: Placed(s.workers[id])
  }

  lemma HeldBuilderComesFromRead(pc: Pc, r: Response, now: int, key: nat, h: (Key, Entry))
    requires !Ended(pc) && h in HeldBuilder(Hear(pc, r, now, key))
    ensures h in HeldBuilder(pc) || (Ask(pc) == Get(h.0) && r == Found(h.1))
  {
    if HasJob(pc) {
      PassKeepsJob(pc, r, now, key);
    }
  }

  lemma HeldChildComesFromRead(pc: Pc, r: Response, now: int, key: nat, h: (Key, Entry))
    requires !Ended(pc) && h in HeldChild(Hear(pc, r, now, key))
    ensures h in HeldChild(pc) || (Ask(pc) == Get(h.0) && r == Found(h.1))
  {
    var next := Hear(pc, r, now, key);
    assert next.Replace? ==> pc.Find?;
    assert next.SignCert? ==> pc.FindCert?;
    assert next.ReplaceCert? ==> pc.SignCert?;
  }

  /** What a step adds to a worker's holdings is what it has just been told. */
  lemma HeldComesFromReads(pc: Pc, r: Response, now: int, key: nat, h: (Key, Entry))
    requires !Ended(pc) && h in Held(Hear(pc, r, now, key))
    ensures h in Held(pc) || (Ask(pc) == Get(h.0) && r == Found(h.1))
  {
    if h in HeldBuilder(Hear(pc, r, now, key)) {
      HeldBuilderComesFromRead(pc, r, now, key, h);
    } else {
      HeldChildComesFromRead(pc, r, now, key, h);
    }
  }

  lemma RecordedStays(s: System, l: Label, k: Key, e: Entry)
    requires Recorded(s, k, e)
    ensures Recorded(Step(s, l), k, e)
  {
    var h := History(s);
    var i :| 0 <= i < |h| && k in h[i].objects && h[i].objects[k] == e;
    assert History(Step(s, l))[i] == h[i];
  }

  lemma SeenIsRecorded(s: System, l: Label, k: Key)
    requires l.Act? && k in Seen(s, l.lag).objects
    ensures Recorded(s, k, Seen(s, l.lag).objects[k])
  {
    var h := History(s);
    var i := if 0 < l.lag <= |s.past| then |s.past| - l.lag else |s.past|;
    assert h[i] == Seen(s, l.lag);
  }

  lemma SaneStep(s: System, l: Label)
    requires Sane(s)
    ensures Sane(Step(s, l))
  {
    ChronicleStep(s, l);
    var s' := Step(s, l);
    if l.Act? && Active(s, l.id) {
      PlacedStays(s.workers[l.id], Reply(s, l).1, s.now.clock, l.grant.key);
    }
    forall id, h | id in s'.workers && h in Held(s'.workers[id])
      ensures Recorded(s', h.0, h.1)
    {
      if id in s.workers && h in Held(s.workers[id]) {
        RecordedStays(s, l, h.0, h.1);
      } else {
        assert l.Act? && l.id == id && Active(s, id);
        var r := Reply(s, l).1;
        HeldComesFromReads(s.workers[id], r, s.now.clock, l.grant.key, h);
        SeenIsRecorded(s, l, h.0);
        RecordedStays(s, l, h.0, h.1);
      }
    }
  }

  /** Whatever happens, histories stay ordered and workers hold only entries that were stored. */
  lemma {:induction false} SaneAlways(s: System, labels: seq<Label>)
    requires Sane(s)
    ensures Sane(Run(s, labels))
    decreases |labels|
  {
    if labels != [] {
      SaneStep(s, labels[0]);
      SaneAlways(Step(s, labels[0]), labels[1..]);
    }
  }

  // -- No lost update ------------------------------------------------------------------------

  /** The request carries a revision. */
  predicate Conditional(r: Request) {
    r.Update? || r.UpdateStatus?
  }

  /** The entry a worker at `pc` intends to replace. */
  function Intended(pc: Pc): (Key, Entry)
    requires Conditional(Ask(pc))
  {
    match pc
    case Replace(job, child, e) => (ChildKey(job.b, child), e)
    case ReplaceCert(job, _, e, _) => (TlsKey(job.b.ns, job.b.name), e)
    case Publish(job, _, _, _) => (BuilderKey(job.b.ns, job.b.name), Entry(BuilderObject(job.b), job.rv))
  }

  lemma IntendedIsHeld(pc: Pc)
    requires Conditional(Ask(pc))
    ensures Intended(pc) in Held(pc)
    ensures Ask(pc).key == Intended(pc).0 && Ask(pc).rv == Intended(pc).1.rv
  {
  }

  lemma SaneIsBounded(s: System)
    requires Sane(s)
    ensures Bounded(s.now)
  {
    assert History(s)[|s.past|] == s.now;
    assert Follows(History(s)[|s.past|], History(s)[|s.past|]);
  }

  /** The server refuses a conditional write whose revision is not the stored one. */
  lemma WrongRevisionIsRefused(w: World, seen: World, r: Request, grant: Grant, fault: Fault)
    requires Conditional(r)
    requires !(r.key in w.objects && w.objects[r.key].rv == r.rv)
    ensures Handle(w, seen, r, grant, fault).0 == w && Handle(w, seen, r, grant, fault).1.Refused?
  {
  }

  /**
   * Under any interleaving, stale reads and faults: a conditional write either changes nothing,
   * or the object it replaced is exactly the one its worker had read.
   */
  lemma NoLostUpdate(s: System, l: Label)
    requires Sane(s)
    requires l.Act? && Active(s, l.id) && Conditional(Ask(s.workers[l.id]))
    ensures var (k, e) := Intended(s.workers[l.id]);
            SameAt(s.now, Step(s, l).now, k) || (k in s.now.objects && s.now.objects[k] == e)
    ensures var (k, e) := Intended(s.workers[l.id]);
            Reply(s, l).1 == Done ==> k in s.now.objects && s.now.objects[k] == e
  {
    var pc := s.workers[l.id];
    var (k, e) := Intended(pc);
    IntendedIsHeld(pc);
    assert Recorded(s, (k, e).0, (k, e).1);
    if k in s.now.objects && s.now.objects[k].rv == e.rv {
      RevisionNamesEntry(s, k, e);
    } else {
      WrongRevisionIsRefused(s.now, Seen(s, l.lag), Ask(pc), l.grant, l.fault);
    }
  }

  // -- Cluster IPs ---------------------------------------------------------------------------

  predicate IsServiceAt(w: World, k: Key) {
    k.kind == Services && k in w.objects && w.objects[k].obj.ServiceObject?
  }

  predicate KeepsClusterIp(w: World, later: World, k: Key) {
    IsServiceAt(w, k) ==>
      IsServiceAt(later, k) && later.objects[k].obj.service.clusterIp == w.objects[k].obj.service.clusterIp
  }

  /** The environment itself does not recreate or readdress this Service. */
  ghost predicate ServiceLeftAlone(k: Key, s: System, labels: seq<Label>)
    decreases |labels|
  {
    labels != [] ==>
      (labels[0].Outside? ==> KeepsClusterIp(s.now, labels[0].next, k))
      && ServiceLeftAlone(k, Step(s, labels[0]), labels[1..])
  }

  /** A write of a Service keeps the address, provided it replaces what was read. */
  lemma ServiceWriteKeepsClusterIp(w: World, seen: World, pc: Pc, grant: Grant, fault: Fault, k: Key)
    requires IsServiceAt(w, k) && Target(Ask(pc)) == Some(k)
    requires pc.Replace? ==> pc.seen == w.objects[k]
    ensures KeepsClusterIp(w, Handle(w, seen, Ask(pc), grant, fault).0, k)
  {
  }

  lemma ClusterIpStep(s: System, l: Label, k: Key)
    requires Sane(s)
    requires l.Outside? ==> KeepsClusterIp(s.now, l.next, k)
    ensures KeepsClusterIp(s.now, Step(s, l).now, k)
  {
    hide Sane, Serve, Hear, ChildObject, StatusOf;
    if l.Act? && Active(s, l.id) && IsServiceAt(s.now, k) {
      var pc := s.workers[l.id];
      if Target(Ask(pc)) == Some(k) && !SameAt(s.now, Step(s, l).now, k) {
        if pc.Replace? {
          NoLostUpdate(s, l);
        }
        ServiceWriteKeepsClusterIp(s.now, Seen(s, l.lag), pc, l.grant, l.fault, k);
      } else if Target(Ask(pc)) != Some(k) {
        StepTouchesTarget(s, l, k);
      }
    }
  }

  /** Once assigned, a Service's cluster IP survives every pass of every worker. */
  lemma {:induction false} ClusterIpNeverChanges(s: System, labels: seq<Label>, k: Key)
    requires Sane(s) && ServiceLeftAlone(k, s, labels)
    ensures KeepsClusterIp(s.now, Run(s, labels).now, k)
    decreases |labels|
  {
    if labels != [] {
      ClusterIpStep(s, labels[0], k);
      SaneStep(s, labels[0]);
      ClusterIpNeverChanges(Step(s, labels[0]), labels[1..], k);
    }
  }
}
