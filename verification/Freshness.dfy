/**
 * What a pass knows of its builder when it was read since some moment: a property the stored
 * builder has had from that moment on is a property of the builder the pass works from.
 */
module Freshness {
  import opened Prelude
  import opened Types
  import opened Render
  import opened Store
  import opened Pass
  import opened Machine

  /** Status writes, the only writes of a pass to its builder, do not affect the property. */
  ghost predicate IgnoresStatus(p: Builder -> bool) {
    forall b: Builder, status: Status :: p(b.(status := status)) == p(b)
  }

  predicate StoredIs(p: Builder -> bool, w: World, ns: string, name: string) {
    var k := BuilderKey(ns, name);
    k in w.objects && w.objects[k].obj.BuilderObject? ==> p(w.objects[k].obj.builder)
  }

  /** The builder the position works from, if it has read one. */
  predicate HeldIs(p: Builder -> bool, pc: Pc) {
    (HasJob(pc) ==> p(pc.job.b)) && (pc.ReadTemplate? ==> p(pc.b))
  }

  /** From the world with index `from` of the history on, the stored builder has the property. */
  ghost predicate HasBeen(p: Builder -> bool, s: System, from: nat, ns: string, name: string) {
    from <= |s.past| && forall i | from <= i < |History(s)| :: StoredIs(p, History(s)[i], ns, name)
  }

  /** A pass that begins reads the builder no staler than that. */
  predicate ReadsSince(s: System, l: Label, from: nat, ns: string, name: string) {
    l.Act? && On(s, l.id, ns, name) && s.workers[l.id].Start? && 0 < l.lag <= |s.past| ==> from <= |s.past| - l.lag
  }

  lemma StoredStep(p: Builder -> bool, s: System, l: Label, ns: string, name: string)
    requires IgnoresStatus(p) && l.Act? && StoredIs(p, s.now, ns, name)
    ensures StoredIs(p, Step(s, l).now, ns, name)
  {
    hide ChildObject, StatusOf, Hear;
    var k := BuilderKey(ns, name);
    if Active(s, l.id) && Target(Ask(s.workers[l.id])) == Some(k) {
      BuilderWrite(p, s.now, Seen(s, l.lag), s.workers[l.id], l.grant, l.fault, ns, name);
    } else {
      StepTouchesTarget(s, l, k);
    }
  }

  lemma BuilderWrite(p: Builder -> bool, w: World, seen: World, pc: Pc, grant: Grant, fault: Fault, ns: string,
                     name: string)
    requires IgnoresStatus(p) && Target(Ask(pc)) == Some(BuilderKey(ns, name)) && StoredIs(p, w, ns, name)
    ensures StoredIs(p, Handle(w, seen, Ask(pc), grant, fault).0, ns, name)
  {
    hide ChildObject, StatusOf;
    assert pc.Publish?;
  }

  lemma HasBeenStep(p: Builder -> bool, s: System, l: Label, from: nat, ns: string, name: string)
    requires IgnoresStatus(p) && HasBeen(p, s, from, ns, name)
    requires l.Outside? ==> StoredIs(p, l.next, ns, name)
    ensures HasBeen(p, Step(s, l), from, ns, name)
  {
    hide Ask, Serve, Hear, StoredIs;
    var h, h' := History(s), History(Step(s, l));
    assert h[|h| - 1] == s.now;
    if l.Act? {
      StoredStep(p, s, l, ns, name);
    }
    assert h' == h || h' == h + [Step(s, l).now];
  }

  lemma BuilderRead(p: Builder -> bool, seen: World, ns: string, name: string, r: Response, now: int, key: nat)
    requires StoredIs(p, seen, ns, name)
    requires r.Found? ==> BuilderKey(ns, name) in seen.objects && seen.objects[BuilderKey(ns, name)] == r.entry
    ensures HeldIs(p, Hear(Start(ns, name), r, now, key))
  {
  }

  lemma HeldStays(p: Builder -> bool, pc: Pc, r: Response, now: int, key: nat)
    requires !Ended(pc) && !pc.Start? && HeldIs(p, pc)
    ensures HeldIs(p, Hear(pc, r, now, key))
  {
    if HasJob(pc) {
      PassKeepsJob(pc, r, now, key);
    }
  }

  lemma FoundWasSeen(w: World, seen: World, k: Key, grant: Grant, fault: Fault)
    ensures var r := Handle(w, seen, Get(k), grant, fault).1;
            r.Found? ==> k in seen.objects && seen.objects[k] == r.entry
  {
  }

  /** A pass that held a builder with the property still does after its next step. */
  lemma HeldStep(p: Builder -> bool, s: System, l: Label, from: nat, ns: string, name: string)
    requires HasBeen(p, s, from, ns, name) && ReadsSince(s, l, from, ns, name)
    requires l.Act? && Active(s, l.id) && On(s, l.id, ns, name) && HeldIs(p, s.workers[l.id])
    ensures HeldIs(p, Step(s, l).workers[l.id])
  {
    hide HeldIs, Hear, Serve, ChildObject, StatusOf;
    var pc, r := s.workers[l.id], Reply(s, l).1;
    if pc.Start? {
      var seen := Seen(s, l.lag);
      var i := if 0 < l.lag <= |s.past| then |s.past| - l.lag else |s.past|;
      assert History(s)[i] == seen;
      FoundWasSeen(s.now, seen, BuilderKey(ns, name), l.grant, l.fault);
      BuilderRead(p, seen, ns, name, r, s.now.clock, l.grant.key);
    } else {
      HeldStays(p, pc, r, s.now.clock, l.grant.key);
    }
  }
}
