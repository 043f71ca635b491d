/**
 * Any number of workers, each running a pass over the shared store, interleaved with an
 * environment that may do anything the API server allows. Reads may be answered from any
 * earlier world, calls may fail, and a worker may stop at any point.
 */
module Machine {
  import opened Prelude
  import opened Types
  import opened Labels
  import opened Render
  import opened Store
  import opened Pass

  /** `past` lists the earlier worlds, oldest first. */
  datatype System = System(now: World, past: seq<World>, workers: map<nat, Pc>)

  datatype Label =
    | Act(id: nat, fault: Fault, lag: nat, grant: Grant)
    | Spawn(id: nat, ns: string, name: string)
    | Crash(id: nat)
    | Outside(next: World)

  function Seen(s: System, lag: nat): World {
    if 0 < lag <= |s.past| then s.past[|s.past| - lag] else s.now
  }

  predicate Active(s: System, id: nat) {
    id in s.workers && !Ended(s.workers[id])
  }

  function Advance(s: System, next: World): System {
    s.(now := next, past := s.past + [s.now])
  }

  function Reply(s: System, l: Label): (World, Response)
    requires l.Act? && l.id in s.workers
  {
    Handle(s.now, Seen(s, l.lag), Ask(s.workers[l.id]), l.grant, l.fault)
  }

  /** A label that does not apply leaves the system as it is. */
  function Step(s: System, l: Label): System {
    match l
    case Act(id, _, _, grant) =>
      if !Active(s, id) then s
      else
        var (next, r) := Reply(s, l);
        Advance(s, next).(workers := s.workers[id := Hear(s.workers[id], r, s.now.clock, grant.key)])
    case Spawn(id, ns, name) =>
      if Active(s, id) then s else s.(workers := s.workers[id := Start(ns, name)])
    case Crash(id) =>
      s.(workers := s.workers - {id})
    case Outside(next) =>
      if Follows(s.now, next) then Advance(s, next) else s
  }

  function Run(s: System, labels: seq<Label>): System
    decreases |labels|
  {
    if labels == [] then s else Run(Step(s, labels[0]), labels[1..])
  }

  lemma {:induction false} RunConcat(s: System, first: seq<Label>, second: seq<Label>)
    ensures Run(s, first + second) == Run(Run(s, first), second)
    decreases |first|
  {
    if first == [] {
      assert first + second == second;
    } else {
      assert (first + second)[1..] == first[1..] + second;
      RunConcat(Step(s, first[0]), first[1..], second);
    }
  }

  lemma RunSnoc(s: System, labels: seq<Label>, l: Label)
    ensures Run(s, labels + [l]) == Step(Run(s, labels), l)
  {
    RunConcat(s, labels, [l]);
    assert Run(Run(s, labels), [l]) == Run(Step(Run(s, labels), l), []);
  }

  function History(s: System): seq<World> {
    s.past + [s.now]
  }

  /** The builder a worker is on. */
  function BuilderOf(pc: Pc): Option<(string, string)> {
    match pc
    case Start(ns, name) => Some((ns, name))
    case ReadTemplate(b, _, _) => Some((b.ns, b.name))
    case Finished(_) => None
    case Failed(_) => None
    case _ => Some((pc.job.b.ns, pc.job.b.name))
  }

  predicate On(s: System, id: nat, ns: string, name: string) {
    id in s.workers && BuilderOf(s.workers[id]) == Some((ns, name))
  }

  /** A pass stays on the builder it was started for until it ends. */
  lemma PassKeepsBuilder(pc: Pc, r: Response, now: int, key: nat)
    requires !Ended(pc)
    ensures Ended(Hear(pc, r, now, key)) || BuilderOf(Hear(pc, r, now, key)) == BuilderOf(pc)
  {
    hide RenewedSecret;
  }

  /** Once resolved, the job of a pass never changes. */
  lemma PassKeepsJob(pc: Pc, r: Response, now: int, key: nat)
    requires HasJob(pc)
    ensures var next := Hear(pc, r, now, key);
            (HasJob(next) && next.job == pc.job)
            || next.Failed? || (next.Finished? && (next.outcome.Waiting? || next.outcome.Reported?)
                && next.outcome.job == pc.job)
  {
  }

  /** The refusals a pass takes for an answer. */
  predicate Tolerates(pc: Pc, e: ApiError) {
    || (e == NotFound && (pc.Start? || pc.Find? || pc.DropRoute? || pc.DropCert? || pc.FindCa? || pc.FindCert?))
    || (e == AlreadyExists && (pc.MakeCa? || pc.MakeCert?))
    || pc.ReadPort?
  }

  /** Any other refused call ends the pass with the error it was refused with; a vanished builder ends it well. */
  lemma RefusalsEndPass(pc: Pc, e: ApiError, now: int, key: nat)
    requires !Ended(pc) && !Ask(pc).Local?
    ensures Hear(pc, Refused(e), now, key) == Failed(Api(e)) <==> !Tolerates(pc, e)
    ensures Hear(pc, Refused(e), now, key) == Finished(Gone) <==> pc.Start? && e == NotFound
  {
    hide ChildObject, StatusOf, RenewedSecret;
  }

  /** An existing claim is skipped, so no pass ever gets to replace one. */
  predicate Placed(pc: Pc) {
    !(pc.Replace? && pc.child.Cache?)
  }

  lemma PlacedStays(pc: Pc, r: Response, now: int, key: nat)
    requires Placed(pc)
    ensures Placed(Hear(pc, r, now, key))
  {
  }

  /** Everything a pass writes or deletes: its builder's status, its children, and the CA of its namespace. */
  lemma PassWritesItsOwn(pc: Pc)
    ensures var t := Target(Ask(pc));
            t.Some? ==>
              HasJob(pc)
              && (t.value == BuilderKey(pc.job.b.ns, pc.job.b.name)
                  || t.value in ChildKeys(pc.job.b.ns, pc.job.b.name)
                  || (t.value == CaKey(pc.job.b.ns) && pc.MakeCa?))
  {
  }

  /**
   * What a pass gets as a single object: its builder, a template and the CA of its namespace, or
   * one of its own children. Pods are listed by the builder's name, which finds the pods of
   * every builder that carries that name as its label, not only its own.
   */
  lemma PassReadsItsOwn(pc: Pc)
    requires !Ended(pc)
    ensures var (ns, name) := BuilderOf(pc).value;
            match Ask(pc)
            case Get(k) =>
              k == BuilderKey(ns, name) || k in ChildKeys(ns, name)
              || (pc.ReadTemplate? && k == Key(Templates, ns, pc.b.spec.templateRef.GetOr("")))
              || ((pc.FindCa? || pc.RefindCa?) && k == CaKey(ns))
            case ListPods(n, labelKey, value) =>
              (n, labelKey, value) == (ns, NAME_KEY, name)
              && forall o: Builder ::
                   Selects(map[labelKey := value], LabelMap(o, o.spec.mode)) <==> NameLabel(o) == name
            case _ => true
  {
    hide LabelMap, Selects, NameLabel;
    NameQueryFindsAll(BuilderOf(pc).value.1);
  }

  lemma NameQueryFindsAll(name: string)
    ensures forall o: Builder :: Selects(map[NAME_KEY := name], LabelMap(o, o.spec.mode)) <==> NameLabel(o) == name
  {
    forall o: Builder
      ensures Selects(map[NAME_KEY := name], LabelMap(o, o.spec.mode)) <==> NameLabel(o) == name
    {
      NameQueryFinds(o, o.spec.mode, name);
    }
  }

  /** No other key changes when a worker moves. */
  lemma StepTouchesTarget(s: System, l: Label, k: Key)
    requires l.Act?
    requires Active(s, l.id) ==> Target(Ask(s.workers[l.id])) != Some(k)
    ensures SameAt(s.now, Step(s, l).now, k)
  {
    hide ChildObject;
  }

  /** The one write of a pass to a builder is the status it publishes. */
  lemma BuilderIsOnlyPublished(pc: Pc, ns: string, name: string)
    requires Target(Ask(pc)) == Some(BuilderKey(ns, name))
    ensures pc.Publish? && (pc.job.b.ns, pc.job.b.name) == (ns, name)
  {
    hide ChildObject, StatusOf;
  }

  /**
   * A pass never touches another builder of its namespace: neither its status nor any of its
   * children, unless one is named like the other plus "-client".
   */
  lemma PassesDoNotInterfere(s: System, l: Label, ns: string, name: string, k: Key)
    requires l.Act? && Active(s, l.id) && HasJob(s.workers[l.id])
    requires var b := s.workers[l.id].job.b; (b.ns, b.name) != (ns, name) && (b.ns == ns ==> !Collide(b.name, name))
    requires k == BuilderKey(ns, name) || k in ChildKeys(ns, name)
    ensures SameAt(s.now, Step(s, l).now, k)
  {
    var b := s.workers[l.id].job.b;
    PassWritesItsOwn(s.workers[l.id]);
    ChildrenAreNotTheCa(ns, name, b.ns);
    if b.ns == ns {
      ChildrenAreDisjoint(ns, b.name, name);
    }
    StepTouchesTarget(s, l, k);
  }

  /** No pass ever deletes or replaces a namespace CA. */
  lemma CaSurvives(s: System, l: Label, ns: string)
    requires l.Act? && CaKey(ns) in s.now.objects
    ensures SameAt(s.now, Step(s, l).now, CaKey(ns))
  {
    if Active(s, l.id) && Target(Ask(s.workers[l.id])) == Some(CaKey(ns)) {
      PassWritesItsOwn(s.workers[l.id]);
      ChildrenAreNotTheCa(s.workers[l.id].job.b.ns, s.workers[l.id].job.b.name, ns);
    } else {
      StepTouchesTarget(s, l, CaKey(ns));
    }
  }
}
