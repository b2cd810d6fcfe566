/** The gate before the etcd set: it is left alone while etcd is unwell. */
module Gate {
  import opened Wrappers
  import opened Objects
  import opened Api
  import opened Components
  import opened Strategies
  import opened Traces
  import opened Reconcile
  import opened Effects
  import opened Passes
  import opened Plans
  import opened PassTraces
  import opened Retries

  // ---- What opens the gate, and what it guards ----

  predicate ReadsSet(e: Event) {
    match e.actor
    case Operator(Get(k), _) => k == ETCD_KEY
    case _ => false
  }

  /** The set was found absent or without ready replicas, or etcd answered the probe. */
  predicate Clears(e: Event) {
    match e.actor
    case Operator(Get(k), Fail(NotFound)) => k == ETCD_KEY
    case Operator(Get(k), Got(x)) => k == ETCD_KEY && x.ready == 0
    case Operator(Probe, Done) => true
    case _ => false
  }

  predicate Probes(e: Event) {
    match e.actor
    case Operator(Probe, _) => true
    case _ => false
  }

  /** The operator creates, updates or, for drift, deletes the set, and it goes through. */
  predicate Touches(e: Event) {
    match e.actor
    case Operator(Create(k, _), _) => k == ETCD_KEY && e.pre != e.post
    case Operator(Update(k, _), _) => k == ETCD_KEY && e.pre != e.post
    case Operator(Delete(k, site), _) => k == ETCD_KEY && site == DriftSite && e.pre != e.post
    case _ => false
  }

  ghost predicate Cleared(h: History) {
    exists j: nat :: j < |h| && Clears(h[j])
  }

  /** Before the last event the gate was cleared, and the set read again after that. */
  ghost predicate ClearedFirst(h: History) {
    exists j: nat, m: nat :: j < m < |h| - 1 && Clears(Nth(h, j)) && ReadsSet(Nth(h, m))
  }

  ghost function Gating(): Guarantee {
    (h: History) => Touches(Last(h)) ==> ClearedFirst(h)
  }

  lemma ClearedLater(g: History, h: History)
    requires g <= h && Cleared(g)
    ensures Cleared(h)
  {
    var j: nat :| j < |g| && Clears(g[j]);
    assert h[j] == g[j];
  }

  // ---- The health check ----

  /** A request that reads or probes. */
  lemma LookGated(w: World, req: Request)
    requires Good(w) && (req == Get(ETCD_KEY) || req == Probe)
    ensures var (v, r) := Call(w, req);
            && Reached(w, v, Gating()) && v.trace != [] && Last(v.trace).actor == Operator(req, r)
            && OthersOnly(w, Front(v.trace)) && w.trace <= Front(v.trace) && (r.Fail? || r == Done || req.Get?)
  {
    hide Call, Good;
    CallEvent(w, req);
    OthersFirst(w, req);
    ReachedByCall(w, req, Gating());
  }

  ghost predicate Looked(w: World, v: World) {
    exists n: nat :: |w.trace| <= n < |v.trace| && Probes(v.trace[n])
  }

  /** The answer to the first request of the check. */
  function Found(w: World): Reply {
    Call(w, Get(ETCD_KEY)).1
  }

  predicate FindsReady(r: Reply) {
    match r
    case Got(x) => x.ready > 0
    case _ => false
  }

  predicate FindsUnready(r: Reply) {
    match r
    case Got(x) => x.ready == 0
    case Fail(e) => e == NotFound
    case _ => false
  }

  /** A check probes exactly when it reads the set with ready replicas; it passes at once when it reads it
      absent or without any, and else only with an answered probe; a failure is that of its last request. */
  lemma HealthIsAsked(w: World)
    requires Good(w)
    ensures var (v, e) := HealthCheck(w);
            && Reached(w, v, Gating())
            && (Looked(w, v) <==> FindsReady(Found(w)))
            && (FindsUnready(Found(w)) ==> e.None?)
            && (e.None? ==> Cleared(v.trace))
            && (e.Some? ==> exists req :: Last(v.trace).actor == Operator(req, Fail(e.value)))
  {
    hide Call, Good, Via, Gating;
    var (u, r) := Call(w, Get(ETCD_KEY));
    var (v, e) := HealthCheck(w);
    LookGated(w, Get(ETCD_KEY));
    assert u.trace[|u.trace| - 1] == Last(u.trace);
    assert r.Got? || r.Fail? by { IdleCall(w, Get(ETCD_KEY)); }
    if FindsReady(r) {
      LookGated(u, Probe);
      ReachedTransitive(w, u, v, Gating());
      assert v.trace[|v.trace| - 1] == Last(v.trace) && Probes(Last(v.trace));
      assert e.None? ==> Clears(Last(v.trace));
    } else {
      assert forall n | |w.trace| <= n < |u.trace| - 1 :: u.trace[n] == Front(u.trace)[n];
    }
  }

  // ---- The set ----

  lemma {:induction false} ApplyGated(w: World, o: Object, t: Task)
    requires Good(w) && Cleared(w.trace) && Proper(t) && t.way == AsSet && t.desired == OwnedBy(o, t.uid)
    ensures Reached(w, ApplyObject(StatefulApply, w, ETCD_KEY, o, t.uid).w, Gating())
  {
    hide Good, Via, Retry, Call, Doing, Gating, Mutated, Ends;
    var v := ApplyObject(StatefulApply, w, ETCD_KEY, o, t.uid).w;
    var u := Call(w, Get(ETCD_KEY)).0;
    ApplyVia(w, o, t);
    ConflictsAreCounted(StatefulApply, w, ETCD_KEY, OwnedBy(o, t.uid), t.uid, MAX_TRIES);
    LookGated(w, Get(ETCD_KEY));
    forall n | |w.trace| < n <= |v.trace|
      ensures Gating()(v.trace[..n])
    {
      FirstReads(w, u, v, n);
    }
    Relook(w, v, Doing(t), Gating());
  }

  /** Whatever is touched is touched after the first read. */
  lemma FirstReads(w: World, u: World, v: World, n: nat)
    requires Cleared(w.trace) && w.trace <= Front(u.trace) && u.trace <= v.trace && u.trace != []
    requires ReadsSet(Last(u.trace)) && OthersOnly(w, Front(u.trace)) && |w.trace| < n <= |v.trace|
    ensures Gating()(v.trace[..n])
  {
    var (h, m) := (v.trace[..n], |u.trace| - 1);
    var j: nat :| j < |w.trace| && Clears(w.trace[j]);
    assert Last(h) == v.trace[n - 1];
    assert v.trace[m] == Last(u.trace) && forall i | |w.trace| <= i < m :: v.trace[i] == Front(u.trace)[i];
    if n - 1 > m {
      assert Nth(h, j) == Front(u.trace)[j] == w.trace[j] && ReadsSet(Nth(h, m));
    }
  }

  // ---- Plans ----

  lemma MayastorSteps(i: nat)
    ensures StepAt(Mayastor, i).Stateful? ==> i == 9
    ensures StepAt(Mayastor, 8) == Healthy && 8 < |Plan(Mayastor)|
  {
    hide EtcdPlan, ControlPlan, NodePlan;
    EtcdAlone();
    ServicesStateless();
  }

  lemma EtcdAlone()
    ensures |EtcdPlan()| == 11 && EtcdPlan()[8] == Healthy
    ensures forall i | 0 <= i < 11 :: EtcdPlan()[i].Stateful? ==> i == 9
  {
  }

  lemma ServicesStateless()
    ensures forall i | 0 <= i < |ControlPlan()| :: !ControlPlan()[i].Stateful?
    ensures forall i | 0 <= i < |NodePlan()| :: !NodePlan()[i].Stateful?
  {
  }

  /** No step but the one for the set touches it. */
  lemma OtherStep(step: Step, w: World, inst: Instance)
    requires Good(w) && Fits(step) && !step.Stateful?
    ensures Reached(w, RunStep(step, w, inst).0, Gating())
  {
    hide Good, Via, RunStep, KeyOf, Desired, Touches, IsClass, Ends, Justified, HealthCheck;
    if step.Healthy? {
      HealthIsAsked(w);
      HealthStep(w, inst);
    } else {
      var t := TaskOf(ComponentOf(step), inst);
      StepVia(step, w, inst);
      KindTells(ComponentOf(step), inst.spec);
      assert t.key.kind != StatefulSet by { NotTheSet(step); }
      forall h: History | Doing(t)(h)
        ensures Gating()(h)
      {
        ElsewhereTouched(h, t);
      }
      ReachedWeaken(w, RunStep(step, w, inst).0, Doing(t), Gating());
    }
  }

  lemma NotTheSet(step: Step)
    requires Fits(step) && !step.Stateful? && !step.Healthy?
    ensures ComponentOf(step) != EtcdSts
  {
  }

  lemma HealthStep(w: World, inst: Instance)
    ensures RunStep(Healthy, w, inst) == HealthCheck(w)
  {
    hide HealthCheck, KeyOf, Build, ApplyObject, ApplyClass, ApplyDynamic, ReconcileSchedule,
         Strategies.EnsureNamespace;
  }

  lemma ElsewhereTouched(h: History, t: Task)
    requires Justified(h, t) && t.key != ETCD_KEY
    ensures !Touches(Last(h))
  {
    hide JustGone, JustRead, Made, Replaced, Removed;
  }

  lemma SetStep(w: World, inst: Instance)
    requires Good(w) && Cleared(w.trace)
    ensures Reached(w, RunStep(Stateful(EtcdSts), w, inst).0, Gating())
  {
    hide Good, Via, Build, ApplyObject, KeyOf, Gating, Proper, IsClass, ScheduleConfigured, ApplyClass, ApplyDynamic,
         Strategies.EnsureNamespace, HealthCheck, ReconcileSchedule, Cleared;
    TaskProper(EtcdSts, inst);
    EtcdKinds(inst.spec);
    ApplyGated(w, Build(EtcdSts, inst.spec), TaskOf(EtcdSts, inst));
  }

  lemma {:induction false} PlanGated(e: Engine, i: nat, w: World, inst: Instance)
    requires Good(w) && Enabled(e, inst.spec) && (e == Mayastor && i > 8 ==> Cleared(w.trace))
    ensures Reached(w, RunFrom(Plan(e), i, w, inst).0, Gating())
    decreases |Plan(e)| - i
  {
    hide Good, Via, Plan, Enabled, RunStep, Gating, Cleared, Fits, TaskAt, AgendaOf, EngineOf, ComponentOf,
         HealthCheck, StepAt;
    if i >= |Plan(e)| {
      ReachedSelf(w, Gating());
    } else {
      var step := StepAt(e, i);
      StepAtIs(e, i);
      StepTask(e, i, inst);
      MayastorSteps(i);
      StatefulIs(step);
      var (v, err) := RunStep(step, w, inst);
      if step.Stateful? {
        assert e == Mayastor by { SetOfMayastor(step); }
        SetStep(w, inst);
      } else {
        OtherStep(step, w, inst);
      }
      if err.None? {
        if e == Mayastor && i == 8 {
          HealthIsAsked(w);
          HealthStep(w, inst);
        } else if e == Mayastor && i > 8 {
          ClearedLater(w.trace, v.trace);
        }
        PlanGated(e, i + 1, v, inst);
        ReachedTransitive(w, v, RunFrom(Plan(e), i + 1, v, inst).0, Gating());
      }
    }
  }

  lemma SetOfMayastor(step: Step)
    requires Fits(step) && step.Stateful?
    ensures EngineOf(ComponentOf(step)) == Mayastor && ComponentOf(step) != OpenebsNs
  {
  }

  // ---- The whole reconcile ----

  lemma {:induction false} DeployGated(i: nat, w: World, inst: Instance)
    requires Good(w)
    ensures Reached(w, DeployFrom(i, w, inst).0, Gating())
    decreases |Engines()| - i
  {
    hide Via, Good, RunFrom, Plan, Enabled, Gating, Engines;
    if i >= |Engines()| {
      ReachedSelf(w, Gating());
    } else if !Enabled(Engines()[i], inst.spec) {
      DeployGated(i + 1, w, inst);
    } else {
      PlanGated(Engines()[i], 0, w, inst);
      var v := DeployEngine(Engines()[i], w, inst).0;
      DeployGated(i + 1, v, inst);
      ReachedTransitive(w, v, DeployFrom(i + 1, v, inst).0, Gating());
    }
  }

  /** Neither a sweep, nor a teardown, nor a write of the instance touches the set in these ways. */
  lemma ElseTouchesNothing(h: History, a: Agenda)
    requires Sweeps(h, a) || Deletes(h, a) || Marks(h, a.deleting)
    ensures !Touches(Last(h))
  {
    hide Without, Scanned, ListedIn;
  }

  lemma NormalGated(w: World, inst: Instance, order: Ordering)
    requires Good(w)
    ensures Reached(w, ReconcileNormal(w, inst, order).0, Gating())
  {
    hide Good, Via, DeployFrom, CleanupOrphans, PublishStatus, Sweeps, Deletes, Marks, AgendaOf, Touches;
    var a := AgendaOf(inst);
    var v := Deploy(w, inst).0;
    var engines := Deploy(w, inst).1;
    DeployGated(0, w, inst);
    var u := CleanupOrphans(v, inst, order).0;
    OrphansReach(v, inst, order);
    PublishReaches(u, engines, a.deleting);
    forall h: History | Sweeps(h, a) || Marks(h, a.deleting)
      ensures Gating()(h)
    {
      ElseTouchesNothing(h, a);
    }
    ReachedWeaken(v, u, Sweeping(a), Gating());
    ReachedWeaken(u, PublishStatus(u, engines).0, Marking(a.deleting), Gating());
    ReachedTransitive(w, v, u, Gating());
    ReachedTransitive(w, u, PublishStatus(u, engines).0, Gating());
  }

  lemma ReconcileGated(w: World, order: Ordering)
    requires Good(w)
    ensures Reached(w, ReconcileOnce(w, order).0, Gating())
  {
    hide Via, Good, Call, ReconcileNormal, ReconcileDelete, AgendaOf, Sweeps, Deploys, Deletes, Marks, Touches;
    var (v, r) := Call(w, GetInstance);
    var inst := Subject(w);
    var (a, end) := (AgendaOf(inst), ReconcileOnce(w, order).0);
    AgendaIs(inst);
    forall h: History | Marks(h, a.deleting) || (PassRequest(h, a) && a.deleting)
      ensures Gating()(h)
    {
      ElseTouchesNothing(h, a);
    }
    GetInstanceVia(w, a.deleting);
    ReachedWeaken(w, v, Marking(a.deleting), Gating());
    ReconcileReaches(w, inst, order);
    if r.GotInstance? {
      if inst.deleting {
        ReachedWeaken(v, end, PassBy(a), Gating());
      } else if OperatorFinalizer in inst.finalizers {
        NormalGated(v, inst, order);
      } else {
        var held := inst.(finalizers := inst.finalizers + {OperatorFinalizer});
        var (u, p) := Call(v, PutInstance(held));
        ReachedSelf(v, Gating());
        ReachedLater(v, v, Gating());
        PutVia(v, v.s, held, inst);
        ReachedWeaken(v, u, Marking(inst.deleting), Gating());
        if p.GotInstance? {
          NormalGated(u, p.inst, order);
          ReachedTransitive(v, u, end, Gating());
        }
      }
      ReachedTransitive(w, v, end, Gating());
    }
  }

  /** Over every interleaving and all faults: the operator creates, updates or deletes for drift the etcd
      set only after it has found it absent or without ready replicas, or had etcd answer its probe, and
      read the set again since. */
  lemma SickEtcdIsLeftAlone(s: State, p: Pass, order: Ordering, n: nat)
    requires Sane(s) && Touches(Nth(PassWorld(s, p, order).trace, n))
    ensures ClearedFirst(Upto(PassWorld(s, p, order).trace, n))
  {
    hide Good, ReconcileOnce, ClearedFirst, Touches, Sane, Later;
    var v := PassWorld(s, p, order);
    FreshGood(s, p);
    ReconcileGated(Fresh(s, p), order);
    TouchesIsRequest(Nth(v.trace, n));
    assert Last(v.trace[..n + 1]) == v.trace[n];
    assert EventOk(v.trace[..n + 1], Gating());
  }

  lemma TouchesIsRequest(e: Event)
    requires Touches(e)
    ensures e.actor.Operator? && e != NOTHING
  {
  }

  lemma ProbeRequest(h: History, a: Agenda)
    requires PassRequest(h, a) && Probes(Last(h))
    ensures FoundReady(h)
  {
    hide FoundReady, JustGone, JustRead, Made, Replaced, Removed, ListedIn, Scanned, Proper;
  }

  /** Etcd is probed only right after the set was read with ready replicas. */
  lemma ProbesFollowReadiness(s: State, p: Pass, order: Ordering, n: nat)
    requires Sane(s) && Probes(Nth(PassWorld(s, p, order).trace, n))
    ensures FoundReady(Upto(PassWorld(s, p, order).trace, n))
  {
    hide PassWorld, PassRequest, PassAgenda, Sound, Linked, FoundReady;
    PassReaches(s, p, order);
    ProbeRequest(Upto(PassWorld(s, p, order).trace, n), PassAgenda(s, p));
  }

  /** A check that fails is the end of the plan: nothing of Mayastor is brought about after it. */
  lemma {:induction false} SickEtcdStops(w: World, inst: Instance)
    requires HealthCheck(w).1.Some?
    ensures RunFrom(Plan(Mayastor), 8, w, inst) == HealthCheck(w)
  {
    hide Plan, RunStep, HealthCheck;
    MayastorSteps(8);
    HealthStep(w, inst);
    StepAtIs(Mayastor, 8);
  }
}
