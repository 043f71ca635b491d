/**
 * The API server's object store: every object carries the revision of its last write, and each
 * call is one atomic step that may also get lost.
 */
module Store {
  import opened Prelude
  import opened Types
  import opened Labels
  import opened Render

  datatype Pod = Pod(ns: string, labels: map<string, string>, running: bool, ip: string)

  datatype Entry = Entry(obj: Object, rv: nat)

  /** Revisions are handed out in increasing order; `clock` is the wall clock in nanoseconds. */
  datatype World = World(objects: map<Key, Entry>, nextRv: nat, clock: int, pods: seq<Pod>)

  datatype ApiError = NotFound | AlreadyExists | Conflict | Undecodable | Unavailable

  /** `Local` stands for a step of the pass that calls no API: it reads the clock or makes a key. */
  datatype Request =
    | Get(key: Key)
    | Create(key: Key, obj: Object)
    | Update(key: Key, obj: Object, rv: nat)
    | UpdateStatus(key: Key, status: Status, rv: nat)
    | Delete(key: Key)
    | ListPods(ns: string, labelKey: string, value: string)
    | Local

  datatype Response = Found(entry: Entry) | Done | Listed(pods: seq<Pod>) | Refused(error: ApiError)

  /** A call may fail before it reaches the server, or take effect and lose its reply. */
  datatype Fault = NoFault | NotDelivered | ReplyLost

  /** What the server and the random source choose: an address, a node port, a key. */
  datatype Grant = Grant(ip: string, nodePort: int, key: nat)

  function Put(w: World, k: Key, o: Object): World {
    w.(objects := w.objects[k := Entry(o, w.nextRv)], nextRv := w.nextRv + 1)
  }

  function Without(w: World, k: Key): World {
    w.(objects := w.objects - {k})
  }

  /** The server fills in what a Service leaves open: addresses on create, node ports always. */
  function Admit(o: Object, stored: Option<Object>, grant: Grant): Object {
    match o
    case ServiceObject(s) =>
      var ip := if s.clusterIp == "" && stored.None? then grant.ip else s.clusterIp;
      var port :=
        if s.kind != NodePortType || s.nodePort != 0 then s.nodePort
        else if stored.Some? && stored.value.ServiceObject? && stored.value.service.nodePort != 0
        then stored.value.service.nodePort
        else grant.nodePort;
      ServiceObject(s.(clusterIp := ip, nodePort := port))
    case _ => o
  }

  function PodsMatching(pods: seq<Pod>, ns: string, labelKey: string, value: string): seq<Pod> {
    if pods == [] then []
    else
      var rest := PodsMatching(pods[1..], ns, labelKey, value);
      if pods[0].ns == ns && Selects(map[labelKey := value], pods[0].labels) then [pods[0]] + rest else rest
  }

  /** A listing returns exactly the pods of the namespace that carry the label with that value. */
  lemma {:induction false} ListingMeaning(pods: seq<Pod>, ns: string, labelKey: string, value: string, p: Pod)
    ensures p in PodsMatching(pods, ns, labelKey, value) <==>
            p in pods && p.ns == ns && labelKey in p.labels && p.labels[labelKey] == value
  {
    if pods != [] {
      ListingMeaning(pods[1..], ns, labelKey, value, p);
      assert p in pods <==> p == pods[0] || p in pods[1..];
      assert labelKey in map[labelKey := value];
    }
  }

  /** One call. Reads are answered from `seen`, which may be an older world than `w`. */
  function Serve(w: World, seen: World, r: Request, grant: Grant): (World, Response) {
    match r
    case Get(k) =>
      (w, if k in seen.objects then Found(seen.objects[k]) else Refused(NotFound))
    case Create(k, o) =>
      if k in w.objects then (w, Refused(AlreadyExists))
      else (Put(w, k, Admit(o, None, grant)), Done)
    case Update(k, o, rv) =>
      if k !in w.objects then (w, Refused(NotFound))
      else if w.objects[k].rv != rv then (w, Refused(Conflict))
      else (Put(w, k, Admit(o, Some(w.objects[k].obj), grant)), Done)
    case UpdateStatus(k, s, rv) =>
      if k !in w.objects || !w.objects[k].obj.BuilderObject? then (w, Refused(NotFound))
      else if w.objects[k].rv != rv then (w, Refused(Conflict))
      else (Put(w, k, BuilderObject(w.objects[k].obj.builder.(status := s))), Done)
    case Delete(k) =>
      if k !in w.objects then (w, Refused(NotFound)) else (Without(w, k), Done)
    case ListPods(ns, labelKey, value) =>
      (w, Listed(PodsMatching(seen.pods, ns, labelKey, value)))
    case Local =>
      (w, Done)
  }

  function Handle(w: World, seen: World, r: Request, grant: Grant, fault: Fault): (World, Response) {
    match fault
    case NoFault => Serve(w, seen, r, grant)
    case NotDelivered => (w, Refused(Unavailable))
    case ReplyLost => (Serve(w, seen, r, grant).0, Refused(Unavailable))
  }

  // -- What the server guarantees between two worlds -----------------------------------------

  /** `later` can follow `w`: time and revisions move forward, and every entry is old or newly revised. */
  predicate Follows(w: World, later: World) {
    && w.clock <= later.clock
    && w.nextRv <= later.nextRv
    && (forall k | k in later.objects ::
          later.objects[k].rv < later.nextRv
          && ((k in w.objects && w.objects[k] == later.objects[k]) || w.nextRv <= later.objects[k].rv))
  }

  predicate Bounded(w: World) {
    forall k | k in w.objects :: w.objects[k].rv < w.nextRv
  }

  lemma HandleFollows(w: World, seen: World, r: Request, grant: Grant, fault: Fault)
    requires Bounded(w)
    ensures Follows(w, Handle(w, seen, r, grant, fault).0)
    ensures Bounded(Handle(w, seen, r, grant, fault).0)
    ensures Handle(w, seen, r, grant, fault).0.clock == w.clock
  {
  }

  /** Calls take no time; time passes between them. */
  lemma HandleKeepsClock(w: World, seen: World, r: Request, grant: Grant, fault: Fault)
    ensures Handle(w, seen, r, grant, fault).0.clock == w.clock
  {
  }

  lemma FollowsIsTransitive(a: World, b: World, c: World)
    requires Follows(a, b) && Follows(b, c)
    ensures Follows(a, c)
  {
  }

  /** The key a request may write or delete. */
  function Target(r: Request): Option<Key> {
    match r
    case Create(k, _) => Some(k)
    case Update(k, _, _) => Some(k)
    case UpdateStatus(k, _, _) => Some(k)
    case Delete(k) => Some(k)
    case _ => None
  }

  predicate SameAt(w: World, later: World, k: Key) {
    (k in w.objects <==> k in later.objects) && (k in w.objects ==> w.objects[k] == later.objects[k])
  }

  lemma OnlyTargetChanges(w: World, seen: World, r: Request, grant: Grant, fault: Fault, k: Key)
    requires Target(r) != Some(k)
    ensures SameAt(w, Handle(w, seen, r, grant, fault).0, k)
    ensures Handle(w, seen, r, grant, fault).0.pods == w.pods
  {
  }

  /** Same content, whatever the revision. */
  predicate SameContent(w: World, later: World, k: Key) {
    (k in w.objects <==> k in later.objects) && (k in w.objects ==> w.objects[k].obj == later.objects[k].obj)
  }

  predicate Holds(w: World, k: Key, o: Object) {
    k in w.objects && w.objects[k].obj == o
  }
}
