/** The API server: a versioned object store, the requests it answers, and the world around it in
    which other clients write between any two requests of the operator and requests may fail. */
module Api {
  import opened Wrappers
  import opened Objects

  datatype Error =
    | NotFound | Conflict | Invalid | NoMatch | AlreadyExists | BadRequest
    | Transient             // a timeout, a dropped connection, a throttled request
    | Unhealthy | NotManaged | Drifted   // made by the operator itself

  /** Which statement of the operator asks for a deletion. */
  datatype Site = DriftSite | RecreateSite | OrphanSite | UnwantedSite | TeardownSite

  datatype Request =
    | Get(key: Key)
    | Create(key: Key, obj: Object)
    | Update(key: Key, obj: Object)
    | Delete(key: Key, site: Site)
    | List(kind: Kind, space: Name)       // managed objects of a kind; NoNamespace for cluster-scoped ones
    | GetInstance
    | PutInstance(inst: Instance)
    | PutStatus(inst: Instance)
    | Probe                               // the etcd health endpoint

  datatype Reply =
    | Done
    | Got(obj: Object)
    | Listed(keys: set<Key>)
    | GotInstance(inst: Instance)
    | Fail(error: Error)

  /** `clock` is the last resource version or identity handed out; `velero` whether the Schedule CRD is
      there; `others` are the identities of everything else that lives and may own objects. */
  datatype State = State(objs: map<Key, Object>, inst: Option<Instance>, velero: bool, clock: nat, others: set<nat>)

  predicate Holds(s: State, k: Key, x: Object) {
    k in s.objs && s.objs[k] == x
  }

  // ---- Requests ----

  predicate Namespaced(kind: Kind) {
    kind in {ServiceAccount, Deployment, DaemonSet, StatefulSet, Service, ConfigMap, Schedule}
  }

  const SNAPSHOT_CLASSES_KEY := Key(CustomResourceDefinition, NoNamespace, SnapshotClassesCrd)

  predicate Registered(s: State, kind: Kind) {
    match kind
    case VolumeSnapshotClass => SNAPSHOT_CLASSES_KEY in s.objs
    case Schedule => s.velero
    case _ => true
  }

  predicate SpaceExists(s: State, k: Key) {
    Namespaced(k.kind) ==> Key(Namespace, NoNamespace, k.space) in s.objs
  }

  /** Each kind has its own immutable fields. */
  predicate Typed(kind: Kind, fixed: Fixed) {
    match kind
    case Deployment => fixed.Selector?
    case DaemonSet => fixed.Selector?
    case ClusterRoleBinding => fixed.RoleRef?
    case CsiDriver => fixed.Attach?
    case StorageClass => fixed.Parameters?
    case Service => fixed.Ip?
    case StatefulSet => fixed.Set?
    case _ => fixed.Unfixed?
  }

  /** What the server fills into a claim template. */
  function DefaultClaim(c: Claim): Claim {
    c.(typed := true, pending := true,
       spec := c.spec.(mode := if c.spec.mode.None? then Some(Filesystem) else c.spec.mode))
  }

  function DefaultClaims(claims: seq<Claim>): (r: seq<Claim>)
    ensures |r| == |claims| && forall i | 0 <= i < |r| :: r[i] == DefaultClaim(claims[i])
  {
    seq(|claims|, i requires 0 <= i < |claims| => DefaultClaim(claims[i]))
  }

  function Defaulted(fixed: Fixed): Fixed {
    match fixed
    case Set(spec) => Set(spec.(claims := DefaultClaims(spec.claims)))
    case _ => fixed
  }

  /** What a creation stores: defaults filled in, a cluster address handed out, an empty status. */
  function Admitted(s: State, o: Object): Object {
    o.(rv := s.clock + 1, ready := 0,
       fixed := if o.fixed == Ip(Unassigned) then Ip(Address(s.clock)) else Defaulted(o.fixed))
  }

  /** What an update stores: an unassigned address keeps the old one, the status is not the client's. */
  function Merged(s: State, cur: Object, o: Object): Object {
    o.(rv := s.clock + 1, ready := cur.ready,
       fixed := if o.fixed == Ip(Unassigned) then cur.fixed else Defaulted(o.fixed))
  }

  function Store(s: State, k: Key, o: Object): State {
    s.(objs := s.objs[k := o], clock := s.clock + 1)
  }

  function ServeCreate(s: State, k: Key, o: Object): (State, Reply) {
    if !Registered(s, k.kind) then (s, Fail(NoMatch))
    else if o.rv != 0 || !Typed(k.kind, o.fixed) then (s, Fail(BadRequest))
    else if !SpaceExists(s, k) then (s, Fail(NotFound))
    else if k in s.objs then (s, Fail(AlreadyExists))
    else (Store(s, k, Admitted(s, o)), Done)
  }

  function ServeUpdate(s: State, k: Key, o: Object): (State, Reply) {
    if !Registered(s, k.kind) then (s, Fail(NoMatch))
    else if !Typed(k.kind, o.fixed) then (s, Fail(BadRequest))
    else if k !in s.objs then (s, Fail(NotFound))
    else if o.rv != s.objs[k].rv then (s, Fail(Conflict))
    else if Merged(s, s.objs[k], o).fixed != s.objs[k].fixed then (s, Fail(Invalid))
    else (Store(s, k, Merged(s, s.objs[k], o)), Done)
  }

  /** What goes with an object: the contents of a namespace, the instances of a definition. */
  predicate GoesWith(k: Key, gone: Key) {
    || k == gone
    || (gone.kind == Namespace && Namespaced(k.kind) && k.space == gone.name)
    || (gone == SNAPSHOT_CLASSES_KEY && k.kind == VolumeSnapshotClass)
  }

  function Without(s: State, gone: Key): State {
    s.(objs := map k | k in s.objs && !GoesWith(k, gone) :: s.objs[k])
  }

  function ServeDelete(s: State, k: Key): (State, Reply) {
    if !Registered(s, k.kind) then (s, Fail(NoMatch))
    else if k !in s.objs then (s, Fail(NotFound))
    else (Without(s, k), Done)
  }

  function Matching(s: State, kind: Kind, space: Name): set<Key> {
    set k | k in s.objs && k.kind == kind && k.space == space && Managed(s.objs[k].labels)
  }

  /** The instance stored anew, or gone. */
  function Renewed(s: State, i: Option<Instance>): State {
    s.(inst := i, clock := s.clock + 1)
  }

  /** The finalizers of an instance being deleted may only shrink; when none is left it is gone. */
  function ServePut(s: State, i: Instance): (State, Reply) {
    if s.inst.None? then (s, Fail(NotFound))
    else
      var cur := s.inst.value;
      if i.rv != cur.rv then (s, Fail(Conflict))
      else if cur.deleting && !(i.finalizers <= cur.finalizers) then (s, Fail(Invalid))
      else
        var next := cur.(spec := i.spec, finalizers := i.finalizers, rv := s.clock + 1);
        (Renewed(s, if next.deleting && next.finalizers == {} then None else Some(next)), GotInstance(next))
  }

  /** The status is a subresource: writing it touches nothing else. */
  function ServeStatus(s: State, i: Instance): (State, Reply) {
    if s.inst.None? then (s, Fail(NotFound))
    else if i.rv != s.inst.value.rv then (s, Fail(Conflict))
    else
      var next := s.inst.value.(status := i.status, rv := s.clock + 1);
      (Renewed(s, Some(next)), GotInstance(next))
  }

  function Serve(s: State, req: Request, healthy: bool): (State, Reply) {
    match req
    case Get(k) =>
      (s, if !Registered(s, k.kind) then Fail(NoMatch) else if k in s.objs then Got(s.objs[k]) else Fail(NotFound))
    case Create(k, o) => ServeCreate(s, k, o)
    case Update(k, o) => ServeUpdate(s, k, o)
    case Delete(k, _) => ServeDelete(s, k)
    case List(kind, space) => (s, Listed(Matching(s, kind, space)))
    case GetInstance => (s, if s.inst.None? then Fail(NotFound) else GotInstance(s.inst.value))
    case PutInstance(i) => ServePut(s, i)
    case PutStatus(i) => ServeStatus(s, i)
    case Probe => (s, if healthy then Done else Fail(Unhealthy))
  }

  // ---- What everybody else does ----

  datatype Action =
    | Put(key: Key, obj: Object)          // another client creates or updates an object
    | Drop(key: Key)
    | SetReady(key: Key, ready: nat)      // a workload controller writes a status
    | CreateInstance(spec: Spec)          // the user
    | EditInstance(spec: Spec)
    | DeleteInstance
    | Hold(finalizer: Finalizer)          // another controller adds or removes a finalizer
    | Release(finalizer: Finalizer)
    | InstallVelero(there: bool)
    | Arise                               // something else that may own objects comes to be, or ends
    | Perish(uid: nat)
    | Collect                             // garbage collection of objects whose owners are gone

  predicate Alive(s: State, uid: nat) {
    (s.inst.Some? && s.inst.value.uid == uid) || uid in s.others
  }

  predicate Orphaned(s: State, o: Object) {
    o.owners != [] && forall r | r in o.owners :: !Alive(s, r.uid)
  }

  predicate Collected(s: State, k: Key) {
    exists gone | gone in s.objs :: Orphaned(s, s.objs[gone]) && GoesWith(k, gone)
  }

  const NO_STATUS := Status(Pending, [], [])

  function Act(s: State, a: Action): State {
    match a
    case Put(k, o) =>
      if k in s.objs then ServeUpdate(s, k, o.(rv := s.objs[k].rv)).0 else ServeCreate(s, k, o.(rv := 0)).0
    case Drop(k) => ServeDelete(s, k).0
    case SetReady(k, n) =>
      if k in s.objs then Store(s, k, s.objs[k].(rv := s.clock + 1, ready := n)) else s
    case CreateInstance(spec) =>
      if s.inst.Some? then s
      else Renewed(s, Some(Instance(s.clock + 1, s.clock + 1, spec, {}, false, NO_STATUS)))
    case EditInstance(spec) =>
      if s.inst.None? then s else ServePut(s, s.inst.value.(spec := spec)).0
    case DeleteInstance =>
      if s.inst.None? then s
      else if s.inst.value.finalizers == {} then s.(inst := None)
      else Renewed(s, Some(s.inst.value.(deleting := true, rv := s.clock + 1)))
    case Hold(f) =>
      if s.inst.None? then s else ServePut(s, s.inst.value.(finalizers := s.inst.value.finalizers + {f})).0
    case Release(f) =>
      if s.inst.None? then s else ServePut(s, s.inst.value.(finalizers := s.inst.value.finalizers - {f})).0
    case InstallVelero(there) =>
      if there then s.(velero := true)
      else s.(velero := false, objs := map k | k in s.objs && k.kind != Schedule :: s.objs[k])
    case Arise => s.(others := s.others + {s.clock + 1}, clock := s.clock + 1)
    case Perish(uid) => s.(others := s.others - {uid})
    case Collect => s.(objs := map k | k in s.objs && !Collected(s, k) :: s.objs[k])
  }

  // ---- The world: state, what is still to happen, what has happened ----

  /** `Refused`: the request never arrives. `Lost`: it is carried out but the answer is not seen.
      `Crash`: the operator is gone, and neither this nor any later request of the reconcile arrives. */
  datatype Fault = NoFault | Refused | Lost | Crash

  /** What happens around one request of the operator. */
  datatype Turn = Turn(writes: seq<Action>, fault: Fault, healthy: bool)

  const CALM := Turn([], NoFault, true)

  datatype Actor = Other(action: Action) | Operator(req: Request, reply: Reply)

  datatype Event = Event(actor: Actor, pre: State, post: State)

  /** A script names the turns of the next requests; once it is used up every turn is calm. A claim
      about all scripts is a claim about all interleavings with other writers and all faults. */
  datatype World = World(start: State, s: State, script: seq<Turn>, trace: seq<Event>)

  function Note(w: World, actor: Actor, post: State): World {
    w.(s := post, trace := w.trace + [Event(actor, w.s, post)])
  }

  function Acts(w: World, writes: seq<Action>): World
    decreases |writes|
  {
    if writes == [] then w else Acts(Note(w, Other(writes[0]), Act(w.s, writes[0])), writes[1..])
  }

  function Next(w: World): Turn {
    if w.script == [] then CALM else w.script[0]
  }

  /** The turns after the first. After a crash nothing more happens until the next reconcile. */
  function Rest(script: seq<Turn>): seq<Turn> {
    if script == [] then [] else if script[0].fault == Crash then [Turn([], Crash, false)] else script[1..]
  }

  /** The world at the moment the next request arrives. */
  function Arrive(w: World): World {
    var u := Acts(w, Next(w).writes);
    u.(script := Rest(w.script))
  }

  function Answer(s: State, req: Request, turn: Turn): (State, Reply) {
    if turn.fault == Refused || turn.fault == Crash then (s, Fail(Transient))
    else
      var (t, r) := Serve(s, req, turn.healthy);
      (t, if turn.fault == Lost then Fail(Transient) else r)
  }

  function Call(w: World, req: Request): (World, Reply) {
    var u := Arrive(w);
    var (t, r) := Answer(u.s, req, Next(w));
    (Note(u, Operator(req, r), t), r)
  }

  class ApiServer {
    var objs: map<Key, Object>
    var inst: Option<Instance>
    var velero: bool
    var clock: nat
    var others: set<nat>
    var script: seq<Turn>
    ghost var start: State
    ghost var trace: seq<Event>

    function Now(): State
      reads this
    {
      State(objs, inst, velero, clock, others)
    }

    ghost function Current(): World
      reads this
    {
      World(start, Now(), script, trace)
    }

    constructor (s: State, script: seq<Turn>)
      ensures Current() == World(s, s, script, [])
    {
      objs, inst, velero, clock, others := s.objs, s.inst, s.velero, s.clock, s.others;
      this.script := script;
      start, trace := s, [];
    }

    method Become(s: State, ghost actor: Actor)
      modifies this
      ensures Current() == Note(old(Current()), actor, s)
    {
      trace := trace + [Event(actor, Now(), s)];
      objs, inst, velero, clock, others := s.objs, s.inst, s.velero, s.clock, s.others;
    }

    /** One request: the other writers go first, then the server answers, unless the request or
        its answer is lost. */
    method Do(req: Request) returns (reply: Reply)
      modifies this
      ensures (Current(), reply) == Call(old(Current()), req)
    {
      var turn := if script == [] then CALM else script[0];
      ghost var before := Current();
      for i := 0 to |turn.writes|
        invariant script == before.script
        invariant Acts(before, turn.writes) == Acts(Current(), turn.writes[i..])
      {
        Become(Act(Now(), turn.writes[i]), Other(turn.writes[i]));
      }
      script := Rest(script);
      var (s, r) := Answer(Now(), req, turn);
      reply := r;
      Become(s, Operator(req, r));
    }
  }
}
