/** The stored status of a builder over whole runs, under any mix of passes, faults and stale reads. */
module StatusRuns {
  import opened Prelude
  import opened Types
  import opened Labels
  import opened Conditions
  import opened Render
  import opened Store
  import opened Pass
  import opened Machine
  import opened Versions
  import opened Sleep

  /** The status a publishing position is about to write. */
  function Prepared(pc: Pc): Status
    requires pc.Publish?
  {
    StatusOf(pc.job.b, pc.report, pc.port, pc.now)
  }

  predicate HasBuilder(w: World, ns: string, name: string) {
    BuilderKey(ns, name) in w.objects && w.objects[BuilderKey(ns, name)].obj.BuilderObject?
  }

  function StatusAt(w: World, ns: string, name: string): Status
    requires HasBuilder(w, ns, name)
  {
    w.objects[BuilderKey(ns, name)].obj.builder.status
  }

  /** A pass changes a builder only by publishing the status it prepared. */
  lemma StatusStep(s: System, l: Label, ns: string, name: string)
    requires l.Act? && HasBuilder(Step(s, l).now, ns, name)
    ensures HasBuilder(s.now, ns, name)
    ensures StatusAt(Step(s, l).now, ns, name) == StatusAt(s.now, ns, name)
         || (On(s, l.id, ns, name) && s.workers[l.id].Publish?
             && StatusAt(Step(s, l).now, ns, name) == Prepared(s.workers[l.id]))
    ensures Step(s, l).now.objects[BuilderKey(ns, name)].obj.builder.spec
            == s.now.objects[BuilderKey(ns, name)].obj.builder.spec
  {
    hide ChildObject, StatusOf;
    var k := BuilderKey(ns, name);
    if Active(s, l.id) && Target(Ask(s.workers[l.id])) == Some(k) {
      PassWritesItsOwn(s.workers[l.id]);
    } else {
      StepTouchesTarget(s, l, k);
    }
  }

  /** The status a builder had in a world that a worker read it from. */
  lemma JobWasStored(s: System, id: nat, ns: string, name: string) returns (i: nat)
    requires Sane(s) && On(s, id, ns, name) && (HasJob(s.workers[id]) || s.workers[id].ReadTemplate?)
    ensures i < |History(s)| && HasBuilder(History(s)[i], ns, name)
    ensures History(s)[i].objects[BuilderKey(ns, name)].obj.builder
         == if HasJob(s.workers[id]) then s.workers[id].job.b else s.workers[id].b
  {
    var pc := s.workers[id];
    var h := if HasJob(pc) then BuilderEntry(pc.job.b, pc.job.rv) else BuilderEntry(pc.b, pc.rv);
    assert h in Held(pc);
    assert Recorded(s, h.0, h.1);
    i :| 0 <= i < |History(s)| && h.0 in History(s)[i].objects && History(s)[i].objects[h.0] == h.1;
  }

  // -- Conditions and phase ------------------------------------------------------------------

  ghost predicate StatusesOk(s: System, ns: string, name: string) {
    && (forall i | 0 <= i < |History(s)| && HasBuilder(History(s)[i], ns, name) ::
       StatusOk(StatusAt(History(s)[i], ns, name)))
    && (forall id | On(s, id, ns, name) && s.workers[id].Publish? :: StatusOk(Prepared(s.workers[id])))
  }

  /** Only the operator writes statuses: the environment keeps them or starts from an empty one. */
  predicate StatusRespected(w: World, next: World, ns: string, name: string) {
    HasBuilder(next, ns, name) ==>
      var now := StatusAt(next, ns, name);
      (HasBuilder(w, ns, name) && now == StatusAt(w, ns, name)) || (now.conditions == [] && now.phase == "")
  }

  ghost predicate StatusLeftAlone(ns: string, name: string, s: System, labels: seq<Label>)
    decreases |labels|
  {
    labels != [] ==>
      && (labels[0].Outside? ==> StatusRespected(s.now, labels[0].next, ns, name))
      && StatusLeftAlone(ns, name, Step(s, labels[0]), labels[1..])
  }

  lemma PreparedStatusIsOk(job: Job, report: Report, port: int, now: int)
    requires StatusOk(job.b.status)
    ensures StatusOk(StatusOf(job.b, report, port, now))
  {
    match report.scaledAt
    case None => PersistentStatusIsOk(job.b, report.phase, report.endpoint, report.ready, report.desired, port, now);
    case Some(t) => SleepyStatusIsOk(job.b, report.phase, report.endpoint, report.ready, report.desired, port, t, now);
  }

  /** A status says what its report says. */
  lemma StatusFields(b: Builder, report: Report, port: int, now: int)
    ensures var status := StatusOf(b, report, port, now);
            && status.endpoint == report.endpoint && status.readyReplicas == report.ready
               && status.phase == report.phase
            && status.desiredReplicas == report.desired && status.nodePort == port
            && status.lastScaledAt == (if report.scaledAt.Some? then report.scaledAt else b.status.lastScaledAt)
            && status.externalEndpoint == (if Exposed(b) && HostOf(b) != "" then "tcp://" + HostOf(b) + ":443" else "")
            && status.tlsSecretName == (if Exposed(b) then TlsKey(b.ns, b.name).name else "")
  {
  }

  function WrittenKinds(report: Report): set<string> {
    if report.scaledAt.None? then PersistentKinds() else SleepyKinds()
  }

  /**
   * A status write keeps every condition in its place, and the whole content of every condition it
   * does not set: the persistent one of LastScaled, the sleepy one of Endpoint, both of all others.
   */
  lemma OtherConditionsEndure(b: Builder, report: Report, port: int, now: int)
    ensures Endure(b.status.conditions, StatusOf(b, report, port, now).conditions, WrittenKinds(report))
  {
    hide SetCondition, Endure;
    var ready, why := report.phase == READY, ReadyReason(report.phase == READY);
    var reason := if report.endpoint != "" then "EndpointSet" else "NotSet";
    TwoConditionsEndure(b.status.conditions, READY, ready, why, "Builder ready", ENDPOINT, report.endpoint != "",
        reason, "Endpoint set", now);
    TwoConditionsEndure(b.status.conditions, READY, ready, why, "Builder ready", LAST_SCALED, true, "Scaled",
        "Last scaled", now);
  }

  /** The conditions a status write sets, word for word. */
  lemma ConditionTextsMeaning(b: Builder, report: Report, port: int, now: int)
    requires KindsUnique(b.status.conditions)
    ensures var after, ready := StatusOf(b, report, port, now).conditions, report.phase == "Ready";
            && Condition("Ready", if ready then "True" else "False", if ready then "Ready" else "NotReady",
                         "Builder ready", now) in after
            && (report.scaledAt.Some? ==> Condition("LastScaled", "True", "Scaled", "Last scaled", now) in after)
            && (report.scaledAt.None? ==>
                  var named := report.endpoint != "";
                  Condition("Endpoint", if named then "True" else "False", if named then "EndpointSet" else "NotSet",
                            "Endpoint set", now) in after)
  {
    var ready, why := report.phase == READY, ReadyReason(report.phase == READY);
    var first := SetCondition(b.status.conditions, READY, ready, why, "Builder ready", now);
    var reason := if report.endpoint != "" then "EndpointSet" else "NotSet";
    assert READY[0] == 'R' && ENDPOINT[0] == 'E' && LAST_SCALED[0] == 'L';
    SetConditionMeaning(b.status.conditions, READY, ready, why, "Builder ready", now);
    SetConditionMeaning(first, ENDPOINT, report.endpoint != "", reason, "Endpoint set", now);
    SetConditionMeaning(first, LAST_SCALED, true, "Scaled", "Last scaled", now);
    OtherConditionsKept(first, ENDPOINT, report.endpoint != "", reason, "Endpoint set", now, READY);
    OtherConditionsKept(first, LAST_SCALED, true, "Scaled", "Last scaled", now, READY);
  }

  /** What the conditions then say. */
  lemma StatusConditions(b: Builder, report: Report, port: int, now: int)
    requires StatusOk(b.status)
    ensures var before, after := b.status.conditions, StatusOf(b, report, port, now).conditions;
            && (ConditionTrue(after, READY) <==> report.phase == READY)
            && (ConditionTrue(after, ENDPOINT)
               <==> if report.scaledAt.None? then report.endpoint != "" else ConditionTrue(before, ENDPOINT))
            && (ConditionTrue(after, LAST_SCALED) <==> report.scaledAt.Some? || ConditionTrue(before, LAST_SCALED))
  {
    match report.scaledAt
    case None => PersistentStatusIsOk(b, report.phase, report.endpoint, report.ready, report.desired, port, now);
    case Some(t) => SleepyStatusIsOk(b, report.phase, report.endpoint, report.ready, report.desired, port, t, now);
  }

  /** A sleepy pass stamps its report with the clock it reads then; a persistent one does not. */
  lemma ReportMeaning(pc: Pc, r: Response, now: int, key: nat)
    requires HasJob(pc) && Hear(pc, r, now, key).ReadPort?
    ensures var next := Hear(pc, r, now, key);
            && next.report.scaledAt == (if pc.job.b.spec.mode == "sleepy" then Some(now) else None)
            && (pc.ReadPods? ==> next.report.desired == pc.replicas && next.report.at == pc.at)
            && (!pc.ReadPods? ==>
                  AtChild(pc) && pc.child.Workload? && next.report.desired == pc.child.replicas != 1
                  && next.report.phase == "ScalingDown" && next.report.endpoint == "" && next.report.ready == 0)
  {
    hide ChildObject, StatusOf, RenewedSecret, EndpointOf;
  }

  lemma PublishedReport(pc: Pc, r: Response, now: int, key: nat)
    requires !Ended(pc) && Hear(pc, r, now, key).Publish?
    ensures pc.ReadPort? && Hear(pc, r, now, key) == Publish(pc.job, pc.report, PortOf(r), now)
  {
  }

  lemma PublisherIsOk(s: System, l: Label, id: nat, ns: string, name: string)
    requires Sane(s) && StatusesOk(s, ns, name)
    requires On(Step(s, l), id, ns, name) && Step(s, l).workers[id].Publish?
    ensures StatusOk(Prepared(Step(s, l).workers[id]))
  {
    if l.Act? && Active(s, l.id) && id == l.id {
      var pc := s.workers[id];
      PublishedReport(pc, Reply(s, l).1, s.now.clock, l.grant.key);
      PassKeepsBuilder(pc, Reply(s, l).1, s.now.clock, l.grant.key);
      var i := JobWasStored(s, id, ns, name);
      assert StatusOk(StatusAt(History(s)[i], ns, name));
      PreparedStatusIsOk(pc.job, pc.report, PortOf(Reply(s, l).1), s.now.clock);
    }
  }

  lemma StatusesOkStep(s: System, l: Label, ns: string, name: string)
    requires Sane(s) && StatusesOk(s, ns, name)
    requires l.Outside? ==> StatusRespected(s.now, l.next, ns, name)
    ensures StatusesOk(Step(s, l), ns, name)
  {
    hide ChildObject, Hear;
    var s' := Step(s, l);
    var h, h' := History(s), History(s');
    assert h[|h| - 1] == s.now;
    assert h' == h || h' == h + [s'.now];
    if HasBuilder(s'.now, ns, name) {
      if l.Act? {
        StatusStep(s, l, ns, name);
      }
      assert HasBuilder(h[|h| - 1], ns, name) ==> StatusOk(StatusAt(h[|h| - 1], ns, name));
    }
    forall id | On(s', id, ns, name) && s'.workers[id].Publish?
      ensures StatusOk(Prepared(s'.workers[id]))
    {
      PublisherIsOk(s, l, id, ns, name);
    }
  }

  /**
   * From an empty status on, condition kinds stay unique and Ready is True exactly in phase
   * Ready, in every world of every run.
   */
  lemma {:induction false} StatusInvariant(s: System, labels: seq<Label>, ns: string, name: string)
    requires Sane(s) && StatusesOk(s, ns, name) && StatusLeftAlone(ns, name, s, labels)
    ensures StatusesOk(Run(s, labels), ns, name)
    decreases |labels|
  {
    if labels != [] {
      StatusesOkStep(s, labels[0], ns, name);
      SaneStep(s, labels[0]);
      StatusInvariant(Step(s, labels[0]), labels[1..], ns, name);
    }
  }

  // -- Conditions nobody sets ----------------------------------------------------------------

  /** All conditions of the builder keep their places, and all but the operator's three their content. */
  ghost predicate ConditionsEndure(w: World, later: World, ns: string, name: string) {
    HasBuilder(w, ns, name) ==>
      && HasBuilder(later, ns, name)
      && Endure(StatusAt(w, ns, name).conditions, StatusAt(later, ns, name).conditions, {READY, ENDPOINT, LAST_SCALED})
  }

  /** The environment keeps the builder, and keeps to the same rule with its own conditions. */
  ghost predicate ConditionsRespected(ns: string, name: string, s: System, labels: seq<Label>)
    decreases |labels|
  {
    labels != [] ==>
      && (labels[0].Outside? ==> ConditionsEndure(s.now, labels[0].next, ns, name))
      && ConditionsRespected(ns, name, Step(s, labels[0]), labels[1..])
  }

  lemma SameConditionsEndure(conditions: seq<Condition>, written: set<string>)
    ensures Endure(conditions, conditions, written)
  {
  }

  /** What a status write that takes effect replaces is the status it was computed from. */
  lemma PublishedConditionsEndure(s: System, l: Label, ns: string, name: string)
    requires Sane(s) && l.Act? && On(s, l.id, ns, name) && s.workers[l.id].Publish?
    requires !SameAt(s.now, Step(s, l).now, BuilderKey(ns, name))
    ensures ConditionsEndure(s.now, Step(s, l).now, ns, name)
  {
    hide Sane, Step, StatusOf, Endure;
    var pc := s.workers[l.id];
    StatusWriteReplacesRead(s, l, ns, name);
    OtherConditionsEndure(pc.job.b, pc.report, pc.port, pc.now);
    var after := StatusOf(pc.job.b, pc.report, pc.port, pc.now).conditions;
    EndureWeakens(pc.job.b.status.conditions, after, WrittenKinds(pc.report), {READY, ENDPOINT, LAST_SCALED});
  }

  lemma ConditionsStep(s: System, l: Label, ns: string, name: string)
    requires Sane(s)
    requires l.Outside? ==> ConditionsEndure(s.now, l.next, ns, name)
    ensures ConditionsEndure(s.now, Step(s, l).now, ns, name)
  {
    hide Sane, Ask, Serve, Hear, Endure;
    if HasBuilder(s.now, ns, name) {
      SameConditionsEndure(StatusAt(s.now, ns, name).conditions, {READY, ENDPOINT, LAST_SCALED});
    }
    var k := BuilderKey(ns, name);
    if l.Act? && !SameAt(s.now, Step(s, l).now, k) {
      if Active(s, l.id) && Target(Ask(s.workers[l.id])) == Some(k) {
        BuilderIsOnlyPublished(s.workers[l.id], ns, name);
        PublishedConditionsEndure(s, l, ns, name);
      } else {
        StepTouchesTarget(s, l, k);
      }
    }
  }

  /**
   * Over every run, with any number of workers, stale reads and faults: a condition of another
   * kind than the operator's three is never moved, changed or dropped, and the three keep their
   * places. A status computed from an earlier read never overwrites what was written in between.
   */
  lemma {:induction false} OtherConditionsNeverLost(s: System, labels: seq<Label>, ns: string, name: string)
    requires Sane(s) && ConditionsRespected(ns, name, s, labels)
    ensures ConditionsEndure(s.now, Run(s, labels).now, ns, name)
    decreases |labels|
  {
    hide Sane, Step, Endure;
    if labels == [] {
      if HasBuilder(s.now, ns, name) {
        SameConditionsEndure(StatusAt(s.now, ns, name).conditions, {READY, ENDPOINT, LAST_SCALED});
      }
    } else {
      var s', e := Step(s, labels[0]), Run(s, labels);
      ConditionsStep(s, labels[0], ns, name);
      SaneStep(s, labels[0]);
      OtherConditionsNeverLost(s', labels[1..], ns, name);
      if HasBuilder(s.now, ns, name) {
        EndureIsTransitive(StatusAt(s.now, ns, name).conditions, StatusAt(s'.now, ns, name).conditions,
                           StatusAt(e.now, ns, name).conditions, {READY, ENDPOINT, LAST_SCALED});
      }
    }
  }

  // -- Ready endpoints of persistent builders -------------------------------------------------

  /** The listed pods that are running and have an address, by their place in the list. */
  function Running(pods: seq<Pod>): set<nat> {
    set i: nat | i < |pods| && pods[i].running && pods[i].ip != ""
  }

  /**
   * A non-empty endpoint is port 1234 of the first listed pod that is running and has an address;
   * it is empty exactly when there is none. The count is the number of such pods.
   */
  lemma {:induction false} EndpointMeaning(pods: seq<Pod>)
    ensures EndpointOf(pods) == "" <==> forall i | 0 <= i < |pods| :: !(pods[i].running && pods[i].ip != "")
    ensures EndpointOf(pods) != "" ==>
              exists i | 0 <= i < |pods| ::
                pods[i].running && pods[i].ip != "" && EndpointOf(pods) == "tcp://" + pods[i].ip + ":1234"
                && forall j | 0 <= j < i :: !(pods[j].running && pods[j].ip != "")
    ensures ReadyCount(pods) == |Running(pods)|
  {
    if pods == [] {
      assert Running(pods) == {};
    } else {
      var rest := pods[1..];
      EndpointMeaning(rest);
      RunningShifts(pods);
      assert forall i | 0 <= i < |rest| :: rest[i] == pods[i + 1];
      assert forall i | 1 <= i < |pods| :: pods[i] == rest[i - 1];
      if !(pods[0].running && pods[0].ip != "") && EndpointOf(pods) != "" {
        var i :| 0 <= i < |rest| && rest[i].running && rest[i].ip != ""
                 && EndpointOf(rest) == "tcp://" + rest[i].ip + ":1234"
                 && forall j | 0 <= j < i :: !(rest[j].running && rest[j].ip != "");
        assert pods[i + 1] == rest[i];
        assert forall j | 1 <= j < i + 1 :: pods[j] == rest[j - 1];
      }
    }
  }

  function Shifted(places: set<nat>): set<nat> {
    set i | i in places :: i + 1
  }

  lemma {:induction false} ShiftKeepsSize(places: set<nat>)
    ensures |Shifted(places)| == |places|
    decreases |places|
  {
    if places == {} {
      assert Shifted(places) == {};
    } else {
      var i :| i in places;
      ShiftKeepsSize(places - {i});
      forall x: nat
        ensures x in Shifted(places) <==> x in Shifted(places - {i}) + {i + 1}
      {
        if x in Shifted(places) {
          var k :| k in places && x == k + 1;
          assert k == i || k in places - {i};
        }
      }
      assert Shifted(places) == Shifted(places - {i}) + {i + 1};
    }
  }

  lemma RunningShifts(pods: seq<Pod>)
    requires pods != []
    ensures |Running(pods)| == |Running(pods[1..])| + if pods[0].running && pods[0].ip != "" then 1 else 0
  {
    var rest := Running(pods[1..]);
    ShiftKeepsSize(rest);
    var first: set<nat> := if pods[0].running && pods[0].ip != "" then {0} else {};
    forall i: nat
      ensures i in Running(pods) <==> i in first + Shifted(rest)
    {
      if 0 < i < |pods| {
        assert pods[i] == pods[1..][i - 1];
        assert i in Shifted(rest) <==> i - 1 in rest;
      }
    }
    assert Running(pods) == first + Shifted(rest);
  }

  /**
   * A sleepy builder that is awake reports Ready whatever its pods do: its endpoint is then empty
   * exactly when no listed pod is running. A persistent builder waits instead of reporting.
   */
  lemma SleepyReadyMayLackEndpoint(job: Job, at: int, pods: seq<Pod>, now: int)
    ensures var next := AfterPods(job, 1, at, pods, now);
            if job.b.spec.mode == SLEEPY then
              next.ReadPort? && next.report.phase == READY
              && next.report.ready == |Running(pods)| && next.report.endpoint == EndpointOf(pods)
              && next.report.desired == 1 && next.report.scaledAt == Some(now)
              && (next.report.endpoint == "" <==> forall i | 0 <= i < |pods| :: !(pods[i].running && pods[i].ip != ""))
            else
              next == Finished(Waiting(job)) <==> forall i | 0 <= i < |pods| :: !(pods[i].running && pods[i].ip != "")
  {
    EndpointMeaning(pods);
  }

  /**
   * An endpoint may be another builder's: a pod of a builder named `other` whose user labels put
   * `name` under the name key is listed, and reported, as a pod of `name`.
   */
  lemma EndpointMayBeAnothers(ns: string, name: string, other: Builder, spec: TemplateSpec, n: int32, ip: string)
    requires other.ns == ns && other.name != name && other.spec.labels == map[NAME_KEY := name]
    requires ValidLabelValue(name) && ip != ""
    ensures var pod := Pod(ns, StatefulSetFor(other, spec, n).podLabels, true, ip);
            && EndpointOf(PodsMatching([pod], ns, NAME_KEY, name)) == "tcp://" + ip + ":1234"
            && PodsMatching([pod], ns, NAME_KEY, other.name) == []
  {
    var pod := Pod(ns, StatefulSetFor(other, spec, n).podLabels, true, ip);
    NameQueryFinds(other, other.spec.mode, name);
    NameQueryFinds(other, other.spec.mode, other.name);
    assert PodsMatching([pod][1..], ns, NAME_KEY, name) == []
        && PodsMatching([pod][1..], ns, NAME_KEY, other.name) == [];
  }

  /** A pod of the namespace that carries the name as label, and is running with an address. */
  predicate RunsFor(p: Pod, ns: string, name: string) {
    p.ns == ns && NAME_KEY in p.labels && p.labels[NAME_KEY] == name && p.running && p.ip != ""
  }

  /** All of them, by their place. */
  function RunningPods(pods: seq<Pod>, ns: string, name: string): set<nat> {
    set i: nat | i < |pods| && RunsFor(pods[i], ns, name)
  }

  /** The endpoint is port 1234 of the first of these pods, and there are `ready` of them. */
  predicate SeenRunning(pods: seq<Pod>, ns: string, name: string, endpoint: string, ready: int) {
    && ready == |RunningPods(pods, ns, name)|
    && exists i | i in RunningPods(pods, ns, name) ::
         endpoint == "tcp://" + pods[i].ip + ":1234" && forall j | 0 <= j < i :: j !in RunningPods(pods, ns, name)
  }

  /** Listing and counting go hand in hand, pod by pod. */
  lemma {:induction false} ListingCountsRunning(pods: seq<Pod>, ns: string, name: string)
    ensures var listed := PodsMatching(pods, ns, NAME_KEY, name);
            && ReadyCount(listed) == |RunningPods(pods, ns, name)|
            && (EndpointOf(listed) == "" <==> RunningPods(pods, ns, name) == {})
  {
    if pods == [] {
      assert RunningPods(pods, ns, name) == {};
    } else {
      ListingCountsRunning(pods[1..], ns, name);
      RunningPodsShift(pods, ns, name);
      FirstOfListing(pods, ns, name);
      assert RunningPods(pods, ns, name) == {} <==> |RunningPods(pods, ns, name)| == 0;
      assert RunningPods(pods[1..], ns, name) == {} <==> |RunningPods(pods[1..], ns, name)| == 0;
    }
  }

  /** What the first pod adds to the listing's endpoint and count. */
  lemma FirstOfListing(pods: seq<Pod>, ns: string, name: string)
    requires pods != []
    ensures var listed, rest := PodsMatching(pods, ns, NAME_KEY, name), PodsMatching(pods[1..], ns, NAME_KEY, name);
            && (0 in RunningPods(pods, ns, name) <==> RunsFor(pods[0], ns, name))
            && (RunsFor(pods[0], ns, name) ==>
                  EndpointOf(listed) == "tcp://" + pods[0].ip + ":1234" && ReadyCount(listed) == ReadyCount(rest) + 1)
            && (!RunsFor(pods[0], ns, name) ==>
                  EndpointOf(listed) == EndpointOf(rest) && ReadyCount(listed) == ReadyCount(rest))
  {
    var listed, rest := PodsMatching(pods, ns, NAME_KEY, name), PodsMatching(pods[1..], ns, NAME_KEY, name);
    MatchMeaning(pods[0].labels, name);
    assert listed == rest || (listed[0] == pods[0] && listed[1..] == rest);
  }

  lemma {:induction false} ListingSeesRunning(pods: seq<Pod>, ns: string, name: string)
    ensures var listed := PodsMatching(pods, ns, NAME_KEY, name);
            && ReadyCount(listed) == |RunningPods(pods, ns, name)|
            && (EndpointOf(listed) != "" ==> SeenRunning(pods, ns, name, EndpointOf(listed), ReadyCount(listed)))
            && (EndpointOf(listed) == "" <==> RunningPods(pods, ns, name) == {})
  {
    hide RunsFor, PodsMatching, EndpointOf, ReadyCount;
    ListingCountsRunning(pods, ns, name);
    if pods != [] {
      ListingSeesRunning(pods[1..], ns, name);
      RunningPodsShift(pods, ns, name);
      FirstOfListing(pods, ns, name);
      var listed, tail := PodsMatching(pods, ns, NAME_KEY, name), RunningPods(pods[1..], ns, name);
      if EndpointOf(listed) != "" && !RunsFor(pods[0], ns, name) {
        var i :| i in tail && EndpointOf(listed) == "tcp://" + pods[1..][i].ip + ":1234"
                 && forall j | 0 <= j < i :: j !in tail;
        assert i + 1 in Shifted(tail) && pods[i + 1] == pods[1..][i];
        assert forall j | 0 < j < i + 1 :: j in RunningPods(pods, ns, name) ==> j - 1 in tail;
      }
    } else {
      NothingListed(ns, name);
    }
  }

  lemma NothingListed(ns: string, name: string)
    ensures EndpointOf(PodsMatching([], ns, NAME_KEY, name)) == ""
  {
  }

  lemma MatchMeaning(labels: map<string, string>, name: string)
    ensures Selects(map[NAME_KEY := name], labels) <==> NAME_KEY in labels && labels[NAME_KEY] == name
  {
    assert NAME_KEY in map[NAME_KEY := name];
  }

  lemma RunningPodsShift(pods: seq<Pod>, ns: string, name: string)
    requires pods != []
    ensures var rest, all := RunningPods(pods[1..], ns, name), RunningPods(pods, ns, name);
            && all == (if 0 in all then {0} else {}) + Shifted(rest)
            && |all| == |rest| + if 0 in all then 1 else 0
  {
    hide RunsFor;
    var rest, all := RunningPods(pods[1..], ns, name), RunningPods(pods, ns, name);
    ShiftKeepsSize(rest);
    var first: set<nat> := if 0 in all then {0} else {};
    forall i: nat
      ensures i in all <==> i in first + Shifted(rest)
    {
      if 0 < i < |pods| {
        assert pods[i] == pods[1..][i - 1];
        assert i in Shifted(rest) <==> i - 1 in rest;
      }
    }
    assert all == first + Shifted(rest);
  }

  /** In some world of the history these pods were there, and back this endpoint and count. */
  ghost predicate Observed(s: System, ns: string, name: string, endpoint: string, ready: int) {
    && endpoint != ""
    && exists i | 0 <= i < |History(s)| :: SeenRunning(History(s)[i].pods, ns, name, endpoint, ready)
  }

  ghost predicate Backed(s: System, ns: string, name: string, status: Status) {
    status.phase == READY ==> Observed(s, ns, name, status.endpoint, status.readyReplicas)
  }

  predicate PersistentAt(w: World, ns: string, name: string) {
    HasBuilder(w, ns, name) ==> w.objects[BuilderKey(ns, name)].obj.builder.spec.mode == PERSISTENT
  }

  ghost predicate ReadyIsBacked(s: System, ns: string, name: string) {
    && (forall i | 0 <= i < |History(s)| :: PersistentAt(History(s)[i], ns, name))
    && (HasBuilder(s.now, ns, name) ==> Backed(s, ns, name, StatusAt(s.now, ns, name)))
    && (forall id | On(s, id, ns, name) && s.workers[id].ReadPort? ::
          Observed(s, ns, name, s.workers[id].report.endpoint, s.workers[id].report.ready)
          && s.workers[id].report.scaledAt.None?)
    && (forall id | On(s, id, ns, name) && s.workers[id].Publish? :: Backed(s, ns, name, Prepared(s.workers[id])))
  }

  ghost predicate AlwaysPersistent(ns: string, name: string, s: System, labels: seq<Label>)
    decreases |labels|
  {
    labels != [] ==>
      && (labels[0].Outside? ==>
            StatusRespected(s.now, labels[0].next, ns, name) && PersistentAt(labels[0].next, ns, name))
      && AlwaysPersistent(ns, name, Step(s, labels[0]), labels[1..])
  }

  lemma ObservedStays(s: System, l: Label, ns: string, name: string, endpoint: string, ready: int)
    requires Observed(s, ns, name, endpoint, ready)
    ensures Observed(Step(s, l), ns, name, endpoint, ready)
  {
    var h := History(s);
    var i :| 0 <= i < |h| && SeenRunning(h[i].pods, ns, name, endpoint, ready);
    assert History(Step(s, l))[i] == h[i];
  }

  lemma ReportComesFromPods(pc: Pc, r: Response, now: int, key: nat)
    requires !Ended(pc) && Hear(pc, r, now, key).ReadPort?
    requires Hear(pc, r, now, key).job.b.spec.mode == PERSISTENT
    ensures pc.ReadPods? && r.Listed?
    ensures var report := Hear(pc, r, now, key).report;
            report.scaledAt.None? && report.endpoint == EndpointOf(r.pods) != "" && report.ready == ReadyCount(r.pods)
  {
  }

  lemma ListingIsObserved(s: System, l: Label, ns: string, name: string, pods: seq<Pod>)
    requires l.Act? && l.id in s.workers && Ask(s.workers[l.id]) == ListPods(ns, NAME_KEY, name)
    requires Reply(s, l).1 == Listed(pods) && EndpointOf(pods) != ""
    ensures Observed(s, ns, name, EndpointOf(pods), ReadyCount(pods))
  {
    var h := History(s);
    var j := if 0 < l.lag <= |s.past| then |s.past| - l.lag else |s.past|;
    assert h[j] == Seen(s, l.lag);
    assert PodsMatching(h[j].pods, ns, NAME_KEY, name) == pods;
    ListingSeesRunning(h[j].pods, ns, name);
  }

  lemma ReporterHasJob(pc: Pc, r: Response, now: int, key: nat)
    requires !Ended(pc) && Hear(pc, r, now, key).ReadPort?
    ensures HasJob(pc) && Hear(pc, r, now, key).job == pc.job
  {
  }

  /** A persistent pass that goes on to report has just observed a running pod. */
  lemma ReporterHasObserved(s: System, l: Label, ns: string, name: string)
    requires Sane(s) && ReadyIsBacked(s, ns, name)
    requires l.Act? && On(s, l.id, ns, name) && Active(s, l.id) && Step(s, l).workers[l.id].ReadPort?
    ensures var report := Step(s, l).workers[l.id].report;
            Observed(s, ns, name, report.endpoint, report.ready) && report.scaledAt.None?
  {
    hide Hear, Serve, Observed, ChildObject, StatusOf;
    var pc, r := s.workers[l.id], Reply(s, l).1;
    ReporterHasJob(pc, r, s.now.clock, l.grant.key);
    var i := JobWasStored(s, l.id, ns, name);
    assert PersistentAt(History(s)[i], ns, name);
    ReportComesFromPods(pc, r, s.now.clock, l.grant.key);
    ListingIsObserved(s, l, ns, name, r.pods);
  }

  lemma BackedHistoryStep(s: System, l: Label, ns: string, name: string)
    requires ReadyIsBacked(s, ns, name)
    requires l.Outside? ==> PersistentAt(l.next, ns, name)
    ensures forall i | 0 <= i < |History(Step(s, l))| :: PersistentAt(History(Step(s, l))[i], ns, name)
  {
    var h, h' := History(s), History(Step(s, l));
    assert h[|h| - 1] == s.now && PersistentAt(h[|h| - 1], ns, name);
    if l.Act? && HasBuilder(Step(s, l).now, ns, name) {
      StatusStep(s, l, ns, name);
    }
    assert h' == h || h' == h + [Step(s, l).now];
  }

  lemma BackedStatusStep(s: System, l: Label, ns: string, name: string)
    requires ReadyIsBacked(s, ns, name) && HasBuilder(Step(s, l).now, ns, name)
    requires l.Outside? ==> StatusRespected(s.now, l.next, ns, name)
    ensures Backed(Step(s, l), ns, name, StatusAt(Step(s, l).now, ns, name))
  {
    var status := StatusAt(Step(s, l).now, ns, name);
    if l.Act? {
      StatusStep(s, l, ns, name);
    }
    if status.phase == READY {
      ObservedStays(s, l, ns, name, status.endpoint, status.readyReplicas);
    }
  }

  lemma BackedReporterStep(s: System, l: Label, id: nat, ns: string, name: string)
    requires Sane(s) && ReadyIsBacked(s, ns, name)
    requires On(Step(s, l), id, ns, name) && Step(s, l).workers[id].ReadPort?
    ensures var report := Step(s, l).workers[id].report;
            Observed(Step(s, l), ns, name, report.endpoint, report.ready) && report.scaledAt.None?
  {
    var report := Step(s, l).workers[id].report;
    if l.Act? && Active(s, l.id) && id == l.id {
      PassKeepsBuilder(s.workers[id], Reply(s, l).1, s.now.clock, l.grant.key);
      ReporterHasObserved(s, l, ns, name);
    }
    ObservedStays(s, l, ns, name, report.endpoint, report.ready);
  }

  lemma BackedPublisherStep(s: System, l: Label, id: nat, ns: string, name: string)
    requires Sane(s) && ReadyIsBacked(s, ns, name)
    requires On(Step(s, l), id, ns, name) && Step(s, l).workers[id].Publish?
    ensures Backed(Step(s, l), ns, name, Prepared(Step(s, l).workers[id]))
  {
    var status := Prepared(Step(s, l).workers[id]);
    if l.Act? && Active(s, l.id) && id == l.id {
      PassKeepsBuilder(s.workers[id], Reply(s, l).1, s.now.clock, l.grant.key);
      PublishedReport(s.workers[id], Reply(s, l).1, s.now.clock, l.grant.key);
      StatusFields(s.workers[id].job.b, s.workers[id].report, PortOf(Reply(s, l).1), s.now.clock);
      assert Observed(s, ns, name, status.endpoint, status.readyReplicas);
    }
    if status.phase == READY {
      ObservedStays(s, l, ns, name, status.endpoint, status.readyReplicas);
    }
  }

  lemma ReadyIsBackedStep(s: System, l: Label, ns: string, name: string)
    requires Sane(s) && ReadyIsBacked(s, ns, name)
    requires l.Outside? ==> StatusRespected(s.now, l.next, ns, name) && PersistentAt(l.next, ns, name)
    ensures ReadyIsBacked(Step(s, l), ns, name)
  {
    var s' := Step(s, l);
    BackedHistoryStep(s, l, ns, name);
    if HasBuilder(s'.now, ns, name) {
      BackedStatusStep(s, l, ns, name);
    }
    forall id | On(s', id, ns, name) && s'.workers[id].ReadPort?
      ensures Observed(s', ns, name, s'.workers[id].report.endpoint, s'.workers[id].report.ready)
      ensures s'.workers[id].report.scaledAt.None?
    {
      BackedReporterStep(s, l, id, ns, name);
    }
    forall id | On(s', id, ns, name) && s'.workers[id].Publish?
      ensures Backed(s', ns, name, Prepared(s'.workers[id]))
    {
      BackedPublisherStep(s, l, id, ns, name);
    }
  }

  /**
   * As long as a builder is persistent, a stored Ready status names the address of a pod that
   * was running when the pass listed pods, and counts the running pods of that list.
   */
  lemma {:induction false} ReadyEndpointsAreReal(s: System, labels: seq<Label>, ns: string, name: string)
    requires Sane(s) && ReadyIsBacked(s, ns, name) && AlwaysPersistent(ns, name, s, labels)
    ensures ReadyIsBacked(Run(s, labels), ns, name)
    decreases |labels|
  {
    if labels != [] {
      ReadyIsBackedStep(s, labels[0], ns, name);
      SaneStep(s, labels[0]);
      ReadyEndpointsAreReal(Step(s, labels[0]), labels[1..], ns, name);
    }
  }
}
