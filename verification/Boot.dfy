/** A freshly started operator satisfies what the run theorems assume of their first system. */
module Boot {
  import opened Prelude
  import opened Types
  import opened Render
  import opened Store
  import opened Machine
  import opened Versions
  import opened Sleep
  import opened StatusRuns
  import ScaleToZero
  import Closure
  import CaAgreement
  import CertLifetime
  import CaLifetime

  /** No pass is under way and nothing has been read yet. */
  function Started(w: World): System {
    System(w, [], map[])
  }

  /** Over any store, the invariants about what workers hold are satisfied. */
  lemma StartedIsSane(w: World, ns: string, name: string)
    requires Bounded(w)
    ensures var s := Started(w);
            && Sane(s) && Exclusive(s, ns, name) && AllFaithful(s, ns, name) && AllDecided(s)
               && CertLifetime.AllSigned(s)
            && Closure.AllProvided(s, ns, name) && Closure.ClaimPersists(s, ns, name)
  {
    hide CertLifetime.Signed, Decided, Closure.Provided;
  }

  /** A namespace whose CA is readable and has issued all server Secrets is agreed; so is one with neither. */
  lemma StartedIsAgreed(w: World, ns: string)
    requires CaAgreement.ReadableCa(w, ns) && CaAgreement.AllIssued(w, ns)
    ensures CaAgreement.Agreed(Started(w), ns)
  {
    hide CaAgreement.Informed, CaAgreement.ReadableCa, CaAgreement.IssuedByStored;
  }

  /** A namespace without a CA qualifies for the chain theorem from its start on. */
  lemma StartedIsDated(w: World, ns: string)
    requires CaKey(ns) !in w.objects
    ensures CaLifetime.Dated(Started(w), ns, w.clock)
  {
    CaLifetime.WithoutCaIsDated(Started(w), ns);
  }

  /**
   * Any store qualifies for the scale-to-zero bounds, whatever its StatefulSet says, with the
   * stored builder as reference.
   */
  lemma StartedTracks(w: World, ns: string, name: string, ref: Builder)
    requires Bounded(w) && Stored(w, ns, name, ref) && ref.spec.mode == SLEEPY
    ensures ScaleToZero.Tracks(Started(w), 0, ns, name, ref, None)
  {
    StartedIsSane(w, ns, name);
    ScaleToZero.AnyMomentTracks(Started(w), ns, name, ref);
  }

  predicate Stored(w: World, ns: string, name: string, b: Builder) {
    BuilderKey(ns, name) in w.objects && w.objects[BuilderKey(ns, name)].obj == BuilderObject(b)
  }

  /** Any store with the builder exposed qualifies for the certificate theorems, with or without a certificate. */
  lemma StartedIsCovered(w: World, ns: string, name: string, b: Builder)
    requires Bounded(w) && Stored(w, ns, name, b) && Exposed(b)
    ensures CertLifetime.Covered(Started(w), 0, ns, name, None)
  {
    StartedIsSane(w, ns, name);
    CertLifetime.AnyMomentIsCovered(Started(w), ns, name);
  }

  /** A builder with an empty status satisfies the status invariants. */
  lemma StartedStatusIsOk(w: World, ns: string, name: string)
    requires HasBuilder(w, ns, name) ==> StatusAt(w, ns, name).conditions == [] && StatusAt(w, ns, name).phase == ""
    ensures StatusesOk(Started(w), ns, name)
    ensures PersistentAt(w, ns, name) ==> ReadyIsBacked(Started(w), ns, name)
  {
  }
}
