/** One reconcile as a function of the world: deploy the enabled engines, sweep orphans, publish the
    status; or, for an instance being deleted, tear everything down and drop the finalizer. */
module Reconcile {
  import opened Wrappers
  import opened Objects
  import opened Api
  import opened Components
  import opened Strategies
  import opened Traces

  // ---- Deployment ----

  function DeployEngine(e: Engine, w: World, inst: Instance): (World, EngineStatus) {
    var (v, err) := RunFrom(Plan(e), 0, w, inst);
    (v, EngineStatus(e, if err.Some? then Failed else Running))
  }

  /** The engines from the i-th on. A failed engine does not keep the next from being attempted. */
  function DeployFrom(i: nat, w: World, inst: Instance): (World, seq<EngineStatus>)
    decreases |Engines()| - i
  {
    if i >= |Engines()| then (w, [])
    else if !Enabled(Engines()[i], inst.spec) then DeployFrom(i + 1, w, inst)
    else
      var (v, status) := DeployEngine(Engines()[i], w, inst);
      var (u, rest) := DeployFrom(i + 1, v, inst);
      (u, [status] + rest)
  }

  /** Every engine in turn. */
  function Deploy(w: World, inst: Instance): (World, seq<EngineStatus>) {
    DeployFrom(0, w, inst)
  }

  // ---- Orphans ----

  ghost predicate Enumerates(items: seq<Key>, keys: set<Key>) {
    && (forall k :: k in items <==> k in keys)
    && forall i, j | 0 <= i < j < |items| :: items[i] != items[j]
  }

  ghost function SomeEnumeration(keys: set<Key>): (items: seq<Key>)
    ensures Enumerates(items, keys)
  {
    if keys == {} then []
    else
      var k :| k in keys;
      [k] + SomeEnumeration(keys - {k})
  }

  /** The order in which the API server lists objects. */
  type Ordering = f: set<Key> -> seq<Key> | forall keys :: Enumerates(f(keys), keys)
    ghost witness (keys => SomeEnumeration(keys))

  datatype ScanStep = ScanStep(kind: Kind, space: Name)

  function Scans(): seq<ScanStep> {
    [
      ScanStep(Deployment, OpenebsSpace),
      ScanStep(DaemonSet, OpenebsSpace),
      ScanStep(ServiceAccount, OpenebsSpace),
      ScanStep(Deployment, MayastorName),
      ScanStep(DaemonSet, MayastorName),
      ScanStep(StatefulSet, MayastorName),
      ScanStep(ServiceAccount, MayastorName),
      ScanStep(ClusterRole, NoNamespace),
      ScanStep(ClusterRoleBinding, NoNamespace),
      ScanStep(CsiDriver, NoNamespace),
      ScanStep(StorageClass, NoNamespace)]
  }

  /** Delete the listed items whose names are not expected, up to the first failure. */
  function Sweep(w: World, items: seq<Key>, expected: set<Name>): (World, Option<Error>)
    decreases |items|
  {
    if items == [] then (w, None)
    else if items[0].name in expected then Sweep(w, items[1..], expected)
    else
      var (v, r) := Call(w, Delete(items[0], OrphanSite));
      if r.Fail? then (v, Some(r.error)) else Sweep(v, items[1..], expected)
  }

  function Scan(w: World, scan: ScanStep, expected: set<Name>, order: Ordering): (World, Option<Error>) {
    var (v, r) := Call(w, List(scan.kind, scan.space));
    if r.Listed? then Sweep(v, order(r.keys), expected) else (v, ErrorOf(r))
  }

  function ScanFrom(i: nat, w: World, expected: set<Name>, order: Ordering): (World, Option<Error>)
    decreases |Scans()| - i
  {
    if i >= |Scans()| then (w, None)
    else
      var (v, e) := Scan(w, Scans()[i], expected, order);
      if e.Some? then (v, e) else ScanFrom(i + 1, v, expected, order)
  }

  function ScanAll(w: World, expected: set<Name>, order: Ordering): (World, Option<Error>) {
    ScanFrom(0, w, expected, order)
  }

  function CleanupOrphans(w: World, inst: Instance, order: Ordering): (World, Option<Error>) {
    var (v, e) := ScanAll(w, Expected(inst.spec), order);
    if e.Some? then (v, e)
    else if ScheduleWanted(inst.spec) then (v, None)
    else DeleteTolerant(v, KeyOf(EtcdSchedule, inst.spec), UnwantedSite)
  }

  // ---- Status ----

  /** Pending when nothing is enabled, Degraded when some engine failed, Running when all run. */
  function PhaseFor(engines: seq<EngineStatus>): Phase {
    if engines == [] then Pending
    else if exists e :: e in engines && e.phase == Failed then Degraded
    else if forall e | e in engines :: e.phase == Running then Running
    else Installing
  }

  function ConditionsFor(phase: Phase): seq<Condition> {
    [Condition(Available, phase == Running || phase == Degraded, phase),
     Condition(Progressing, phase == Installing || phase == Pending, phase),
     Condition(IsDegraded, phase == Degraded, phase),
     Condition(IsFailed, phase == Failed, phase)]
  }

  ghost predicate SomeFailed(engines: seq<EngineStatus>) {
    exists e :: e in engines && e.phase == Phase.Failed
  }

  /** The store holds this status. */
  ghost predicate Published(s: State, status: Status) {
    s.inst.Some? && s.inst.value.status == status
  }

  // ---- Reconcile ----

  /** Seconds until the next reconcile, 0 for none; and the error handed to the work queue. */
  datatype Verdict = Verdict(requeue: nat, err: Option<Error>)

  const REQUEUE_AFTER: nat := 30
  const REQUEUE_AFTER_ERROR: nat := 10

  function PublishStatus(w: World, engines: seq<EngineStatus>): (World, Verdict) {
    var phase := PhaseFor(engines);
    var (v, r) := Call(w, GetInstance);
    if !r.GotInstance? then (v, Verdict(0, ErrorOf(r)))
    else
      var (u, p) := Call(v, PutStatus(r.inst.(status := Status(phase, engines, ConditionsFor(phase)))));
      if p.Fail? then (u, Verdict(0, Some(p.error)))
      else (u, Verdict(if phase == Failed then REQUEUE_AFTER_ERROR else REQUEUE_AFTER, None))
  }

  /** An orphan sweep that fails is only logged. */
  function ReconcileNormal(w: World, inst: Instance, order: Ordering): (World, Verdict) {
    var (v, engines) := Deploy(w, inst);
    PublishStatus(CleanupOrphans(v, inst, order).0, engines)
  }

  function DeleteAll(w: World, keys: seq<Key>): (World, Option<Error>)
    decreases |keys|
  {
    if keys == [] then (w, None)
    else
      var (v, e) := DeleteTolerant(w, keys[0], TeardownSite);
      if e.Some? then (v, e) else DeleteAll(v, keys[1..])
  }

  function ReconcileDelete(w: World, inst: Instance): (World, Verdict) {
    var (v, e) := DeleteAll(w, TeardownKeys(inst.spec));
    if e.Some? then (v, Verdict(REQUEUE_AFTER_ERROR, e))
    else
      var (u, r) := Call(v, PutInstance(inst.(finalizers := inst.finalizers - {OperatorFinalizer})));
      (u, Verdict(0, ErrorOf(r)))
  }

  /** Take the finalizer, then go on with the instance as the server answered it. */
  function Adopt(w: World, inst: Instance, order: Ordering): (World, Verdict) {
    var (u, p) := Call(w, PutInstance(inst.(finalizers := inst.finalizers + {OperatorFinalizer})));
    if p.GotInstance? then ReconcileNormal(u, p.inst, order) else (u, Verdict(0, ErrorOf(p)))
  }

  function ReconcileOnce(w: World, order: Ordering): (World, Verdict) {
    var (v, r) := Call(w, GetInstance);
    if !r.GotInstance? then (v, Verdict(0, if r == Fail(NotFound) then None else ErrorOf(r)))
    else if r.inst.deleting then ReconcileDelete(v, r.inst)
    else if OperatorFinalizer in r.inst.finalizers then ReconcileNormal(v, r.inst, order)
    else Adopt(v, r.inst, order)
  }

  // ---- Runs: one reconcile after another ----

  /** A reconcile with its own script, which may end in a crash. */
  datatype Pass = Pass(script: seq<Turn>)

  function PassWorld(s: State, p: Pass, order: Ordering): World {
    ReconcileOnce(World(s, s, p.script, []), order).0
  }

  /** The state a reconcile leaves to the next. */
  function AfterPass(s: State, p: Pass, order: Ordering): State {
    PassWorld(s, p, order).s
  }

  /** The scripts of a run, one reconcile after another without end: a claim about the first `n` of them
      for every `n` is a claim about every finite run. */
  type Series = nat -> Pass

  /** The state after the first `n` reconciles. */
  function After(s: State, passes: Series, order: Ordering, n: nat): State {
    if n == 0 then s else AfterPass(After(s, passes, order, n - 1), passes(n - 1), order)
  }

  /** The world the n-th reconcile leaves. */
  function RunWorld(s: State, passes: Series, order: Ordering, n: nat): World {
    PassWorld(After(s, passes, order, n), passes(n), order)
  }
}
