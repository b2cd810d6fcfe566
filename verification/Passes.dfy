/** What a whole reconcile does: every request that changes anything deploys a wanted component,
    sweeps an unexpected listed object, publishes the status, or belongs to a teardown. */
module Passes {
  import opened Wrappers
  import opened Objects
  import opened Api
  import opened Components
  import opened Strategies
  import opened Traces
  import opened Reconcile
  import opened Effects

  // ---- Composition ----

  ghost predicate Reached(w: World, v: World, g: Guarantee) {
    Via(w, v, g) && Good(v) && w.trace <= v.trace
  }

  lemma ReachedSelf(w: World, g: Guarantee)
    requires Good(w)
    ensures Reached(w, w, g)
  {
    hide Good;
    ViaSelf(w, g);
  }

  lemma ReachedTransitive(u: World, v: World, w: World, g: Guarantee)
    requires Reached(u, v, g) && Reached(v, w, g)
    ensures Reached(u, w, g)
  {
    hide Good;
    ViaTransitive(u, v, w, g);
  }

  lemma ReachedWeaken(w: World, v: World, g: Guarantee, g': Guarantee)
    requires Reached(w, v, g)
    requires forall h: History | g(h) :: g'(h)
    ensures Reached(w, v, g')
  {
    hide Good, Via;
    ViaWeaken(w, v, g, g');
  }

  lemma ReachedByCall(w: World, req: Request, g: Guarantee)
    requires Good(w) && g(Call(w, req).0.trace)
    ensures Reached(w, Call(w, req).0, g)
  {
    hide Good, Call;
    CallVia(w, req, g);
  }

  lemma ReachedLater(w: World, v: World, g: Guarantee)
    requires Reached(w, v, g)
    ensures Later(w.s, v.s) && Sane(w.s) && Sane(v.s) && w.trace <= v.trace && w.start == v.start
  {
    hide Sane, Later;
  }

  /** A request adds to the trace, itself last. */
  lemma CallGrows(w: World, req: Request)
    requires Good(w)
    ensures var t := Call(w, req).0.trace; |w.trace| < |t| && w.trace <= Front(t) && w.trace <= t
  {
    hide Good, Call;
    CallEvent(w, req);
  }

  // ---- Deployment ----

  ghost predicate InPlan(c: Component, plan: seq<Step>) {
    exists i :: 0 <= i < |plan| && ComponentOf(plan[i]) == c
  }

  /** Some enabled engine deploys the component. */
  ghost predicate Wanted(c: Component, spec: Spec) {
    exists e: Engine :: Enabled(e, spec) && InPlan(c, Plan(e))
  }

  /** What a reconcile is about: the tasks of the enabled engines, the names accounted for, the backup
      schedule and whether it is wanted, and what a teardown deletes. */
  datatype Agenda = Agenda(
    uid: nat,
    deleting: bool,
    tasks: iset<Task>,
    expected: set<Name>,
    schedule: Key,
    scheduleWanted: bool,
    teardown: seq<Key>)

  ghost function AgendaOf(inst: Instance): Agenda {
    Agenda(inst.uid, inst.deleting,
           iset c | Wanted(c, inst.spec) :: TaskOf(c, inst),
           Expected(inst.spec), KeyOf(EtcdSchedule, inst.spec), ScheduleWanted(inst.spec), TeardownKeys(inst.spec))
  }

  /** The agenda does not depend on the finalizers, the status or the version. */
  lemma SameAgenda(i: Instance, j: Instance)
    requires i.uid == j.uid && i.spec == j.spec && i.deleting == j.deleting
    ensures AgendaOf(i) == AgendaOf(j)
  {
    hide KeyOf, Build, Wanted, Expected, ScheduleWanted, TeardownKeys, WayOf;
    assert forall c :: TaskOf(c, i) == TaskOf(c, j);
  }

  ghost predicate Deploys(h: History, a: Agenda) {
    exists t :: t in a.tasks && Justified(h, t)
  }

  ghost function Deploying(a: Agenda): Guarantee {
    (h: History) => Deploys(h, a)
  }

  lemma {:induction false} PlanReaches(e: Engine, i: nat, w: World, inst: Instance)
    requires Good(w) && Enabled(e, inst.spec)
    ensures Reached(w, RunFrom(Plan(e), i, w, inst).0, Deploying(AgendaOf(inst)))
    decreases |Plan(e)| - i
  {
    hide Via, Good, RunStep, Plan, Enabled, Justified, TaskOf, KeyOf, Expected, ScheduleWanted, TeardownKeys;
    var g := Deploying(AgendaOf(inst));
    if i >= |Plan(e)| {
      ReachedSelf(w, g);
    } else {
      var c := ComponentOf(Plan(e)[i]);
      var (v, err) := RunStep(Plan(e)[i], w, inst);
      PlansFit(e);
      StepVia(Plan(e)[i], w, inst);
      assert InPlan(c, Plan(e)) && Wanted(c, inst.spec) && TaskOf(c, inst) in AgendaOf(inst).tasks;
      ReachedWeaken(w, v, Doing(TaskOf(c, inst)), g);
      if err.None? {
        PlanReaches(e, i + 1, v, inst);
        ReachedTransitive(w, v, RunFrom(Plan(e), i + 1, v, inst).0, g);
      }
    }
  }

  lemma {:induction false} DeployReaches(i: nat, w: World, inst: Instance)
    requires Good(w)
    ensures Reached(w, DeployFrom(i, w, inst).0, Deploying(AgendaOf(inst)))
    decreases |Engines()| - i
  {
    hide Via, Good, RunFrom, Plan, Enabled, Deploying, AgendaOf, Engines;
    if i >= |Engines()| {
      ReachedSelf(w, Deploying(AgendaOf(inst)));
    } else if !Enabled(Engines()[i], inst.spec) {
      DeployReaches(i + 1, w, inst);
    } else {
      PlanReaches(Engines()[i], 0, w, inst);
      var v := DeployEngine(Engines()[i], w, inst).0;
      DeployReaches(i + 1, v, inst);
      ReachedTransitive(w, v, DeployFrom(i + 1, v, inst).0, Deploying(AgendaOf(inst)));
    }
  }

  // ---- Orphans ----

  /** The kinds and namespaces an orphan sweep looks at. */
  predicate Scanned(k: Key) {
    match k.kind
    case Deployment => k.space == OpenebsSpace || k.space == MayastorName
    case DaemonSet => k.space == OpenebsSpace || k.space == MayastorName
    case ServiceAccount => k.space == OpenebsSpace || k.space == MayastorName
    case StatefulSet => k.space == MayastorName
    case ClusterRole => k.space == NoNamespace
    case ClusterRoleBinding => k.space == NoNamespace
    case CsiDriver => k.space == NoNamespace
    case StorageClass => k.space == NoNamespace
    case _ => false
  }

  predicate ScanOf(scan: ScanStep, k: Key) {
    k.kind == scan.kind && k.space == scan.space
  }

  lemma ScansAreScanned(scan: ScanStep, k: Key)
    requires scan in Scans() && ScanOf(scan, k)
    ensures Scanned(k)
  {
  }

  /** Earlier in the history a list answer named the object, so it carried the label then. */
  ghost predicate ListedIn(h: History, k: Key) {
    exists e :: e in h && ListsKey(e, k)
  }

  ghost predicate ListsKey(e: Event, k: Key) {
    match e.actor
    case Operator(List(_, _), Listed(keys)) => k in keys
    case _ => false
  }

  /** The last request changed nothing, deleted a scanned object that was listed under a name the
      spec does not account for, or removed the backup schedule the spec does not ask for. */
  ghost predicate Sweeps(h: History, a: Agenda) {
    var e := Last(h);
    match e.actor
    case Operator(List(_, _), _) => e.pre == e.post
    case Operator(Delete(k, site), _) =>
      || e.pre == e.post
      || (&& k in e.pre.objs && e.post == Without(e.pre, k)
          && match site
             case OrphanSite => Scanned(k) && k.name !in a.expected && ListedIn(Front(h), k)
             case UnwantedSite => k == a.schedule && !a.scheduleWanted
             case _ => false)
    case _ => false
  }

  ghost function Sweeping(a: Agenda): Guarantee {
    (h: History) => Sweeps(h, a)
  }

  lemma ListedLater(g: History, h: History, k: Key)
    requires g <= h && ListedIn(g, k)
    ensures ListedIn(h, k)
  {
    var e :| e in g && ListsKey(e, k);
    assert e in h;
  }

  lemma OrphanVia(w: World, k: Key, a: Agenda)
    requires Good(w)
    requires Scanned(k) && k.name !in a.expected && ListedIn(w.trace, k)
    ensures Reached(w, Call(w, Delete(k, OrphanSite)).0, Sweeping(a))
  {
    hide Good, Call, Scanned, ListedIn, Without;
    var v := Call(w, Delete(k, OrphanSite)).0;
    DeleteEvent(w, k, OrphanSite);
    CallGrows(w, Delete(k, OrphanSite));
    ListedLater(w.trace, Front(v.trace), k);
    ReachedByCall(w, Delete(k, OrphanSite), Sweeping(a));
  }

  lemma {:induction false} SweepReaches(w: World, items: seq<Key>, a: Agenda)
    requires Good(w)
    requires forall k | k in items :: Scanned(k) && ListedIn(w.trace, k)
    ensures Reached(w, Sweep(w, items, a.expected).0, Sweeping(a))
    decreases |items|
  {
    hide Via, Good, Call, Scanned, ListedIn, Sweeping;
    if items == [] {
      ReachedSelf(w, Sweeping(a));
    } else if items[0].name in a.expected {
      SweepReaches(w, items[1..], a);
    } else {
      var (v, r) := Call(w, Delete(items[0], OrphanSite));
      OrphanVia(w, items[0], a);
      if !r.Fail? {
        forall k | k in items[1..]
          ensures ListedIn(v.trace, k)
        {
          ListedLater(w.trace, v.trace, k);
        }
        SweepReaches(v, items[1..], a);
        ReachedTransitive(w, v, Sweep(v, items[1..], a.expected).0, Sweeping(a));
      }
    }
  }

  /** What a list request of the sweep answers. */
  lemma ListVia(w: World, scan: ScanStep, a: Agenda)
    requires Good(w)
    ensures var (v, r) := Call(w, List(scan.kind, scan.space));
            && Reached(w, v, Sweeping(a)) && (r.Listed? || r == Fail(Transient))
            && forall keys | r == Listed(keys) ::
                 keys == Matching(v.s, scan.kind, scan.space) && forall k | k in keys :: ListedIn(v.trace, k)
  {
    hide Good, Call;
    var (v, r) := Call(w, List(scan.kind, scan.space));
    CallEvent(w, List(scan.kind, scan.space));
    ReachedByCall(w, List(scan.kind, scan.space), Sweeping(a));
    if r.Listed? {
      forall k | k in r.keys
        ensures ListedIn(v.trace, k)
      {
        assert Last(v.trace) in v.trace && ListsKey(Last(v.trace), k);
      }
    }
  }

  lemma ScanReaches(w: World, scan: ScanStep, a: Agenda, order: Ordering)
    requires Good(w) && scan in Scans()
    ensures Reached(w, Scan(w, scan, a.expected, order).0, Sweeping(a))
  {
    hide Via, Good, Call, Scanned, ListedIn, Sweeping, Sweep, Scans;
    var (v, r) := Call(w, List(scan.kind, scan.space));
    ListVia(w, scan, a);
    if r.Listed? {
      var items := order(r.keys);
      assert Enumerates(items, r.keys);
      forall k | k in items
        ensures Scanned(k) && ListedIn(v.trace, k)
      {
        ScansAreScanned(scan, k);
      }
      SweepReaches(v, items, a);
      ReachedTransitive(w, v, Sweep(v, items, a.expected).0, Sweeping(a));
    }
  }

  lemma {:induction false} ScansReach(i: nat, w: World, a: Agenda, order: Ordering)
    requires Good(w)
    ensures Reached(w, ScanFrom(i, w, a.expected, order).0, Sweeping(a))
    decreases |Scans()| - i
  {
    hide Via, Good, Sweeping, Scan, Scans;
    if i >= |Scans()| {
      ReachedSelf(w, Sweeping(a));
    } else {
      ScanReaches(w, Scans()[i], a, order);
      var (v, e) := Scan(w, Scans()[i], a.expected, order);
      if e.None? {
        ScansReach(i + 1, v, a, order);
        ReachedTransitive(w, v, ScanFrom(i + 1, v, a.expected, order).0, Sweeping(a));
      }
    }
  }

  lemma UnwantedVia(w: World, a: Agenda)
    requires Good(w) && !a.scheduleWanted
    ensures Reached(w, DeleteTolerant(w, a.schedule, UnwantedSite).0, Sweeping(a))
  {
    hide Good, Call, Without;
    DeleteEvent(w, a.schedule, UnwantedSite);
    ReachedByCall(w, Delete(a.schedule, UnwantedSite), Sweeping(a));
  }

  lemma OrphansReach(w: World, inst: Instance, order: Ordering)
    requires Good(w)
    ensures Reached(w, CleanupOrphans(w, inst, order).0, Sweeping(AgendaOf(inst)))
  {
    hide Via, Good, Expected, KeyOf, ScheduleWanted, TeardownKeys, Wanted, TaskOf, Sweeping, ScanFrom, DeleteTolerant;
    var a := AgendaOf(inst);
    ScansReach(0, w, a, order);
    var (v, e) := ScanAll(w, a.expected, order);
    if e.None? && !a.scheduleWanted {
      UnwantedVia(v, a);
      ReachedTransitive(w, v, DeleteTolerant(v, a.schedule, UnwantedSite).0, Sweeping(a));
    }
  }

  lemma DeletedIsGone(w: World, k: Key, site: Site)
    requires Good(w)
    ensures var (v, r) := Call(w, Delete(k, site));
            && (r == Done || r == Fail(NotFound) || r == Fail(NoMatch) ==> k !in v.s.objs)
            && (r == Done || r.Fail?)
  {
    hide Call, Later, Genuine;
    CallEvent(w, Delete(k, site));
    var v := Call(w, Delete(k, site)).0;
    assert Linked(v.start, v.trace, |v.trace| - 1);
    var before := Last(v.trace).pre;
    if k in before.objs {
      assert SaneObject(before, k, before.objs[k]);
    }
    assert GoesWith(k, k);
  }

  // ---- The instance ----

  /** The last request changed nothing, wrote a status, or wrote back the instance as it is stored with
      the operator's finalizer added, or removed from one being deleted. */
  ghost predicate Marks(h: History, deleting: bool) {
    var e := Last(h);
    match e.actor
    case Operator(GetInstance, _) => e.pre == e.post
    case Operator(PutStatus(j), _) =>
      || e.pre == e.post
      || (e.pre.inst.Some?
          && e.post == Renewed(e.pre, Some(e.pre.inst.value.(status := j.status, rv := e.pre.clock + 1))))
    case Operator(PutInstance(j), _) =>
      || e.pre == e.post
      || (e.pre.inst.Some?
          && var i := e.pre.inst.value;
             && (j.finalizers == i.finalizers + {OperatorFinalizer}
                 || (deleting && i.deleting && j.finalizers == i.finalizers - {OperatorFinalizer}))
             && e.post == Renewed(e.pre, if i.deleting && j.finalizers == {} then None
                                         else Some(i.(finalizers := j.finalizers, rv := e.pre.clock + 1))))
    case _ => false
  }

  ghost function Marking(deleting: bool): Guarantee {
    (h: History) => Marks(h, deleting)
  }

  lemma SameVersionSameInstance(a: State, b: State, i: Instance, j: Instance)
    requires Sane(a) && Later(a, b) && a.inst == Some(i) && b.inst == Some(j) && i.rv == j.rv
    ensures i == j
  {
  }

  /** `i` is, up to its finalizers, the instance `was` read in an earlier state. */
  lemma PutVia(w: World, read: State, i: Instance, was: Instance)
    requires Good(w)
    requires Sane(read) && Later(read, w.s) && read.inst == Some(was)
    requires i == was.(finalizers := was.finalizers + {OperatorFinalizer})
             || (was.deleting && i == was.(finalizers := was.finalizers - {OperatorFinalizer}))
    ensures var (v, r) := Call(w, PutInstance(i));
            && Reached(w, v, Marking(was.deleting))
            && (r.GotInstance? || r.Fail?)
            && (r.GotInstance? ==> exists j :: r == GotInstance(j) && j == was.(finalizers := i.finalizers, rv := j.rv)
                                               && (!was.deleting || i.finalizers != {} ==> v.s.inst == Some(j)))
  {
    hide Call, Via;
    CallEvent(w, PutInstance(i));
    var e := Last(Call(w, PutInstance(i)).0.trace);
    LaterTransitive(read, w.s, e.pre);
    if e.pre.inst.Some? && e.pre.inst.value.rv == i.rv {
      SameVersionSameInstance(read, e.pre, was, e.pre.inst.value);
    }
    ReachedByCall(w, PutInstance(i), Marking(was.deleting));
  }

  lemma GetInstanceVia(w: World, deleting: bool)
    requires Good(w)
    ensures var (v, r) := Call(w, GetInstance);
            && Reached(w, v, Marking(deleting))
            && (forall i :: r == GotInstance(i) ==> v.s.inst == Some(i))
            && (r == Fail(NotFound) ==> v.s.inst == None)
            && (r.GotInstance? || r == Fail(NotFound) || r == Fail(Transient))
  {
    hide Call, Via, Good;
    CallEvent(w, GetInstance);
    ReachedByCall(w, GetInstance, Marking(deleting));
  }

  lemma PublishReaches(w: World, engines: seq<EngineStatus>, deleting: bool)
    requires Good(w)
    ensures Reached(w, PublishStatus(w, engines).0, Marking(deleting))
  {
    hide Call, Via, Good;
    var (v, r) := Call(w, GetInstance);
    GetInstanceVia(w, deleting);
    if r.GotInstance? {
      var phase := PhaseFor(engines);
      var put := PutStatus(r.inst.(status := Status(phase, engines, ConditionsFor(phase))));
      CallEvent(v, put);
      ReachedByCall(v, put, Marking(deleting));
      ReachedTransitive(w, v, Call(v, put).0, Marking(deleting));
    }
  }

  // ---- Teardown ----

  ghost predicate Deletes(h: History, a: Agenda) {
    var e := Last(h);
    match e.actor
    case Operator(Delete(k, TeardownSite), _) =>
      a.deleting && k in a.teardown && (e.pre == e.post || (k in e.pre.objs && e.post == Without(e.pre, k)))
    case _ => false
  }

  ghost function Deleting(a: Agenda): Guarantee {
    (h: History) => Deletes(h, a)
  }

  lemma {:induction false} DeleteAllReaches(w: World, keys: seq<Key>, a: Agenda)
    requires Good(w)
    requires a.deleting && forall k | k in keys :: k in a.teardown
    ensures Reached(w, DeleteAll(w, keys).0, Deleting(a))
    decreases |keys|
  {
    hide Call, Via, Good, Without;
    if keys == [] {
      ReachedSelf(w, Deleting(a));
    } else {
      var (v, e) := DeleteTolerant(w, keys[0], TeardownSite);
      DeleteEvent(w, keys[0], TeardownSite);
      ReachedByCall(w, Delete(keys[0], TeardownSite), Deleting(a));
      if e.None? {
        DeleteAllReaches(v, keys[1..], a);
        ReachedTransitive(w, v, DeleteAll(v, keys[1..]).0, Deleting(a));
      }
    }
  }

  // ---- The whole reconcile ----

  /** An instance being deleted is only torn down. */
  ghost predicate PassRequest(h: History, a: Agenda) {
    || (!a.deleting && (Deploys(h, a) || Sweeps(h, a)))
    || Deletes(h, a)
    || Marks(h, a.deleting)
  }

  ghost function PassBy(a: Agenda): Guarantee {
    (h: History) => PassRequest(h, a)
  }

  lemma NormalReaches(w: World, inst: Instance, order: Ordering)
    requires Good(w) && !inst.deleting
    ensures Reached(w, ReconcileNormal(w, inst, order).0, PassBy(AgendaOf(inst)))
  {
    hide Via, Good, DeployFrom, CleanupOrphans, PublishStatus, Deploys, Sweeps, Deletes, Marks, AgendaOf;
    var a := AgendaOf(inst);
    var g := PassBy(a);
    AgendaIs(inst);
    var (v, engines) := Deploy(w, inst);
    DeployReaches(0, w, inst);
    ReachedWeaken(w, v, Deploying(a), g);
    var u := CleanupOrphans(v, inst, order).0;
    OrphansReach(v, inst, order);
    ReachedWeaken(v, u, Sweeping(a), g);
    ReachedTransitive(w, v, u, g);
    PublishReaches(u, engines, a.deleting);
    ReachedWeaken(u, PublishStatus(u, engines).0, Marking(a.deleting), g);
    ReachedTransitive(w, u, PublishStatus(u, engines).0, g);
  }

  lemma TeardownReaches(w: World, inst: Instance)
    requires Good(w) && w.s.inst == Some(inst) && inst.deleting
    ensures Reached(w, ReconcileDelete(w, inst).0, PassBy(AgendaOf(inst)))
  {
    hide Via, Good, DeleteAll, TeardownKeys, Deploys, Sweeps, Deletes, Marks, Call, KeyOf, Expected, ScheduleWanted,
         Wanted, TaskOf;
    var a := AgendaOf(inst);
    var g := PassBy(a);
    var (v, e) := DeleteAll(w, a.teardown);
    DeleteAllReaches(w, a.teardown, a);
    ReachedLater(w, v, Deleting(a));
    ReachedWeaken(w, v, Deleting(a), g);
    if e.None? {
      var i := inst.(finalizers := inst.finalizers - {OperatorFinalizer});
      PutVia(v, w.s, i, inst);
      ReachedWeaken(v, Call(v, PutInstance(i)).0, Marking(a.deleting), g);
      ReachedTransitive(w, v, Call(v, PutInstance(i)).0, g);
    }
  }

  lemma AdoptReaches(w: World, inst: Instance, order: Ordering)
    requires Good(w) && w.s.inst == Some(inst) && !inst.deleting
    ensures Reached(w, Adopt(w, inst, order).0, PassBy(AgendaOf(inst)))
    ensures w.trace <= Call(w, PutInstance(inst.(finalizers := inst.finalizers + {OperatorFinalizer}))).0.trace
                    <= Adopt(w, inst, order).0.trace
  {
    hide Via, Good, Call, ReconcileNormal, Deploys, Sweeps, Deletes, Marks, AgendaOf;
    var g := PassBy(AgendaOf(inst));
    var i := inst.(finalizers := inst.finalizers + {OperatorFinalizer});
    var (u, p) := Call(w, PutInstance(i));
    ReachedSelf(w, g);
    ReachedLater(w, w, g);
    PutVia(w, w.s, i, inst);
    assert AgendaOf(inst).deleting == inst.deleting by { AgendaIs(inst); }
    ReachedWeaken(w, u, Marking(inst.deleting), g);
    if p.GotInstance? {
      NormalReaches(u, p.inst, order);
      SameAgenda(p.inst, inst);
      ReachedTransitive(w, u, ReconcileNormal(u, p.inst, order).0, g);
    }
  }

  lemma AgendaIs(inst: Instance)
    ensures AgendaOf(inst).uid == inst.uid && AgendaOf(inst).deleting == inst.deleting
  {
    hide KeyOf, TaskOf, Wanted, Expected, ScheduleWanted, TeardownKeys;
  }

  /** The instance a reconcile starts from. */
  ghost predicate WorksOn(w: World, inst: Instance) {
    Call(w, GetInstance).1 == GotInstance(inst)
  }

  /** A reconcile of an instance only makes the requests listed above, on its behalf; a reconcile
      that reads none makes no other request. */
  lemma ReconcileReaches(w: World, inst: Instance, order: Ordering)
    requires Good(w)
    requires WorksOn(w, inst) || Call(w, GetInstance).1.Fail?
    ensures Reached(w, ReconcileOnce(w, order).0, PassBy(AgendaOf(inst)))
    ensures Reached(Call(w, GetInstance).0, ReconcileOnce(w, order).0, PassBy(AgendaOf(inst)))
  {
    hide Via, Good, Call, ReconcileNormal, ReconcileDelete, Deploys, Sweeps, Deletes, Marks, AgendaOf;
    var a := AgendaOf(inst);
    var g := PassBy(a);
    var (v, r) := Call(w, GetInstance);
    GetInstanceVia(w, a.deleting);
    ReachedWeaken(w, v, Marking(a.deleting), g);
    ReachedLater(w, v, g);
    ReachedSelf(v, g);
    if r.GotInstance? {
      if inst.deleting {
        TeardownReaches(v, inst);
      } else if OperatorFinalizer in inst.finalizers {
        NormalReaches(v, inst, order);
      } else {
        AdoptReaches(v, inst, order);
      }
      ReachedTransitive(w, v, ReconcileOnce(w, order).0, g);
    }
  }

  // ---- From the start ----

  const NOBODY := Instance(0, 0, Spec(None, None, None, None, None, 0), {}, false, NO_STATUS)

  /** The instance a reconcile of `w` reads first, if it reads one. */
  ghost function Subject(w: World): Instance {
    var r := Call(w, GetInstance).1;
    if r.GotInstance? then r.inst else NOBODY
  }

  ghost function Fresh(s: State, p: Pass): World {
    World(s, s, p.script, [])
  }

  lemma FreshGood(s: State, p: Pass)
    requires Sane(s)
    ensures Good(Fresh(s, p))
  {
  }
}
