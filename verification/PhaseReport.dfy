/** What a reconcile reports: every enabled engine is attempted, whatever became of the others, and
    the published phase sums up how they fared. */
module PhaseReport {
  import opened Wrappers
  import opened Objects
  import opened Api
  import opened Components
  import opened Strategies
  import opened Traces
  import opened Reconcile
  import opened Effects
  import opened Passes
  import opened Plans

  /** The order in which engines report does not matter. */
  lemma PhaseIgnoresOrder(a: seq<EngineStatus>, b: seq<EngineStatus>)
    requires multiset(a) == multiset(b)
    ensures PhaseFor(a) == PhaseFor(b)
  {
    assert |multiset(a)| == |multiset(b)|;
    forall e: EngineStatus
      ensures e in a <==> e in b
    {
      assert e in multiset(a) <==> e in multiset(b);
    }
  }

  /** The engines a spec enables, from the i-th on. */
  function EnabledFrom(i: nat, spec: Spec): seq<Engine>
    decreases |Engines()| - i
  {
    if i >= |Engines()| then []
    else (if Enabled(Engines()[i], spec) then [Engines()[i]] else []) + EnabledFrom(i + 1, spec)
  }

  // ---- What a report on an engine is worth ----

  /** Between `w` and `v` an operation on behalf of the task ended with its delivery. */
  ghost predicate DeliveredIn(w: World, v: World, t: Task) {
    exists n: nat :: |w.trace| < n <= |v.trace| && Ends(v.trace[..n], None, t)
  }

  /** The steps from the i-th to before the m-th delivered. */
  ghost predicate AllDelivered(e: Engine, i: nat, m: nat, w: World, v: World, inst: Instance) {
    forall j: nat | i <= j < m && j < |Plan(e)| && !StepAt(e, j).Healthy? :: DeliveredIn(w, v, TaskAt(e, j, inst))
  }

  lemma DeliveredStill(w: World, u: World, v: World, x: World, t: Task)
    requires w.trace <= u.trace && v.trace <= x.trace && DeliveredIn(u, v, t)
    ensures DeliveredIn(w, x, t)
  {
    hide Ends;
    var n: nat :| |u.trace| < n <= |v.trace| && Ends(v.trace[..n], None, t);
    assert x.trace[..n] == v.trace[..n];
  }

  /** One step more before, or more happening after. */
  lemma StepJoins(e: Engine, i: nat, m: nat, w: World, v: World, x: World, inst: Instance)
    requires w.trace <= v.trace <= x.trace && AllDelivered(e, i + 1, m, v, x, inst)
    requires StepAt(e, i).Healthy? || DeliveredIn(w, v, TaskAt(e, i, inst))
    ensures AllDelivered(e, i, m, w, x, inst)
  {
    hide DeliveredIn, TaskAt, StepAt, Plan;
    forall j: nat | i <= j < m && j < |Plan(e)| && !StepAt(e, j).Healthy?
      ensures DeliveredIn(w, x, TaskAt(e, j, inst))
    {
      if j == i {
        DeliveredStill(w, w, v, x, TaskAt(e, j, inst));
      } else {
        DeliveredStill(w, v, x, x, TaskAt(e, j, inst));
      }
    }
  }

  lemma StepDelivers(w: World, v: World, t: Task)
    requires w.trace <= v.trace && |w.trace| < |v.trace| && Ends(v.trace, None, t)
    ensures DeliveredIn(w, v, t)
  {
    hide Ends;
    assert v.trace[..|v.trace|] == v.trace;
  }

  /** The m-th step is where a plan stopped: all before it delivered, and what it ended with is how the
      plan ended, with nothing after it. */
  ghost predicate StopsAt(e: Engine, i: nat, m: nat, w: World, v: World, err: Option<Error>, inst: Instance) {
    && AllDelivered(e, i, m, w, v, inst)
    && if err.None? then m >= |Plan(e)|
       else i <= m < |Plan(e)| && |w.trace| < |v.trace| && Ends(v.trace, err, TaskAt(e, m, inst))
  }

  lemma {:induction false} PlanIsTrue(e: Engine, i: nat, w: World, inst: Instance)
    requires Good(w) && Enabled(e, inst.spec)
    ensures var (v, err) := RunFrom(Plan(e), i, w, inst);
            && Good(v) && w.trace <= v.trace && exists m: nat :: StopsAt(e, i, m, w, v, err, inst)
    decreases |Plan(e)| - i
  {
    hide Good, Plan, Enabled, RunStep, Ends, StepAt, TaskAt, Via, Fits, AllDelivered, DeliveredIn, Doing, AgendaOf;
    if i >= |Plan(e)| {
      EmptyStretch(e, i, w, w, inst);
      assert StopsAt(e, i, i, w, w, None, inst);
    } else {
      StepAtIs(e, i);
      StepTask(e, i, inst);
      StepVia(StepAt(e, i), w, inst);
      var t := TaskAt(e, i, inst);
      assert t == TaskOf(ComponentOf(StepAt(e, i)), inst) by { TaskAtIs(e, i, inst); }
      var (v, err) := RunStep(StepAt(e, i), w, inst);
      if err.Some? {
        EmptyStretch(e, i, w, v, inst);
        assert StopsAt(e, i, i, w, v, err, inst);
      } else {
        PlanIsTrue(e, i + 1, v, inst);
        var (x, end) := RunFrom(Plan(e), i + 1, v, inst);
        var m: nat :| StopsAt(e, i + 1, m, v, x, end, inst);
        if !StepAt(e, i).Healthy? {
          StepDelivers(w, v, t);
        }
        StepJoins(e, i, m, w, v, x, inst);
        assert StopsAt(e, i, m, w, x, end, inst);
      }
    }
  }

  lemma TaskAtIs(e: Engine, i: nat, inst: Instance)
    ensures TaskAt(e, i, inst) == TaskOf(ComponentOf(StepAt(e, i)), inst)
  {
    hide StepAt, TaskOf, ComponentOf;
  }

  lemma EmptyStretch(e: Engine, i: nat, w: World, v: World, inst: Instance)
    ensures AllDelivered(e, i, i, w, v, inst)
  {
    hide DeliveredIn, TaskAt, StepAt, Plan;
  }

  /** An engine is reported Running exactly when its plan came to its end, and then every object of it was
      delivered: stored as desired by a request the server granted. If it is reported Failed, everything
      before some step was, and the failure of that step is the last thing that happened. */
  lemma ReportsAreTrue(e: Engine, w: World, inst: Instance)
    requires Good(w) && Enabled(e, inst.spec)
    ensures var (v, status) := DeployEngine(e, w, inst);
            && Good(v) && w.trace <= v.trace && Reports(status, e, w, v, inst)
            && (status.phase == Phase.Failed ==>
                  exists m: nat, x: Error :: m < |Plan(e)| && StopsAt(e, 0, m, w, v, Some(x), inst))
  {
    hide Good, Plan, Enabled, RunFrom, Ends, StepAt, TaskAt, AllDelivered;
    PlanIsTrue(e, 0, w, inst);
    var (v, err) := RunFrom(Plan(e), 0, w, inst);
    var m: nat :| StopsAt(e, 0, m, w, v, err, inst);
    if err.Some? {
      assert StopsAt(e, 0, m, w, v, Some(err.value), inst);
      assert v.trace[..|v.trace|] == v.trace;
    } else {
      AllOfThem(e, m, w, v, inst);
    }
  }

  lemma AllOfThem(e: Engine, m: nat, w: World, v: World, inst: Instance)
    requires AllDelivered(e, 0, m, w, v, inst) && m >= |Plan(e)|
    ensures AllDelivered(e, 0, |Plan(e)|, w, v, inst)
  {
    hide DeliveredIn, TaskAt, StepAt, Plan;
  }

  /** Between `w` and `v` some step of the engine ended in an error, all steps before it having delivered. */
  ghost predicate StoppedIn(e: Engine, w: World, v: World, inst: Instance) {
    exists m: nat, n: nat, x: Error ::
      && m < |Plan(e)| && |w.trace| < n <= |v.trace|
      && AllDelivered(e, 0, m, w, v, inst) && Ends(v.trace[..n], Some(x), TaskAt(e, m, inst))
  }

  /** The report on an engine, true to what happened between `w` and `v`. */
  ghost predicate Reports(status: EngineStatus, e: Engine, w: World, v: World, inst: Instance) {
    && status.engine == e
    && if status.phase == Phase.Running then AllDelivered(e, 0, |Plan(e)|, w, v, inst)
       else status.phase == Phase.Failed && StoppedIn(e, w, v, inst)
  }

  ghost predicate AllReported(statuses: seq<EngineStatus>, engines: seq<Engine>, w: World, v: World, inst: Instance) {
    |statuses| == |engines| && forall j | 0 <= j < |statuses| :: Reports(statuses[j], engines[j], w, v, inst)
  }

  lemma DeliveredLater(e: Engine, m: nat, w: World, u: World, v: World, x: World, inst: Instance)
    requires w.trace <= u.trace && v.trace <= x.trace && AllDelivered(e, 0, m, u, v, inst)
    ensures AllDelivered(e, 0, m, w, x, inst)
  {
    hide DeliveredIn, TaskAt, StepAt, Plan;
    forall j: nat | j < m && j < |Plan(e)| && !StepAt(e, j).Healthy?
      ensures DeliveredIn(w, x, TaskAt(e, j, inst))
    {
      DeliveredStill(w, u, v, x, TaskAt(e, j, inst));
    }
  }

  /** A true report stays one over a longer stretch. */
  lemma ReportedLater(status: EngineStatus, e: Engine, w: World, u: World, v: World, x: World, inst: Instance)
    requires w.trace <= u.trace && v.trace <= x.trace && Reports(status, e, u, v, inst)
    ensures Reports(status, e, w, x, inst)
  {
    hide AllDelivered, TaskAt, Plan, Ends;
    if status.phase == Phase.Running {
      DeliveredLater(e, |Plan(e)|, w, u, v, x, inst);
    } else {
      var m: nat, n: nat, err: Error :| && m < |Plan(e)| && |u.trace| < n <= |v.trace|
        && AllDelivered(e, 0, m, u, v, inst) && Ends(v.trace[..n], Some(err), TaskAt(e, m, inst));
      DeliveredLater(e, m, w, u, v, x, inst);
      assert x.trace[..n] == v.trace[..n];
    }
  }

  /** Exactly the enabled engines are reported, once each, in order, and each report is true, even when
      engines before it failed. */
  lemma {:induction false} EveryEngineAttempted(i: nat, w: World, inst: Instance)
    requires Good(w)
    ensures w.trace <= DeployFrom(i, w, inst).0.trace
    ensures AllReported(DeployFrom(i, w, inst).1, EnabledFrom(i, inst.spec), w, DeployFrom(i, w, inst).0, inst)
    decreases |Engines()| - i
  {
    hide Good, Enabled, Engines, RunFrom, Plan, Reports;
    if i < |Engines()| {
      if !Enabled(Engines()[i], inst.spec) {
        EveryEngineAttempted(i + 1, w, inst);
      } else {
        var e := Engines()[i];
        var (u, status) := DeployEngine(e, w, inst);
        var (v, rest) := DeployFrom(i + 1, u, inst);
        ReportsAreTrue(e, w, inst);
        EveryEngineAttempted(i + 1, u, inst);
        ReportedLater(status, e, w, w, u, v, inst);
        forall j | 0 <= j < |rest|
          ensures Reports(rest[j], EnabledFrom(i + 1, inst.spec)[j], w, v, inst)
        {
          ReportedLater(rest[j], EnabledFrom(i + 1, inst.spec)[j], w, u, v, v, inst);
        }
      }
    }
  }

  // ---- The phase ----

  predicate NoneFrom(i: nat, spec: Spec) {
    forall j | i <= j < |Engines()| :: !Enabled(Engines()[j], spec)
  }

  lemma {:induction false} NothingEnabled(i: nat, spec: Spec)
    ensures EnabledFrom(i, spec) == [] <==> NoneFrom(i, spec)
    decreases |Engines()| - i
  {
    hide Engines, Enabled;
    if i < |Engines()| {
      NothingEnabled(i + 1, spec);
    }
  }

  ghost predicate AllRun(engines: seq<EngineStatus>) {
    forall e | e in engines :: e.phase == Phase.Running
  }

  /** Pending exactly when nothing is enabled, Degraded exactly when some engine failed, Running
      exactly when there is one and all succeeded; never Failed, never Installing. */
  lemma {:induction false} PhaseOfDeployment(w: World, inst: Instance)
    requires Good(w)
    ensures var engines := Deploy(w, inst).1;
            var phase := PhaseFor(engines);
            && (phase == Phase.Pending <==> forall e: Engine :: !Enabled(e, inst.spec))
            && (phase == Phase.Degraded <==> SomeFailed(engines))
            && (phase == Phase.Running <==> engines != [] && AllRun(engines))
            && phase in {Phase.Pending, Phase.Degraded, Phase.Running}
  {
    hide Good, DeployFrom, Enabled, AllDelivered, StoppedIn, EnabledFrom;
    EveryEngineAttempted(0, w, inst);
    NothingEnabled(0, inst.spec);
    EnginesAreAll(inst.spec);
    var engines := Deploy(w, inst).1;
    assert engines != [] ==> engines[0] in engines;
    forall e | e in engines
      ensures e.phase in {Phase.Running, Phase.Failed}
    {
      var j :| 0 <= j < |engines| && engines[j] == e;
      assert Reports(engines[j], EnabledFrom(0, inst.spec)[j], w, Deploy(w, inst).0, inst);
    }
  }

  lemma EnginesAreAll(spec: Spec)
    ensures (forall e: Engine :: !Enabled(e, spec)) <==> NoneFrom(0, spec)
  {
    hide Enabled;
    forall e: Engine | NoneFrom(0, spec)
      ensures !Enabled(e, spec)
    {
      var j := match e case Lvm => 0 case Zfs => 1 case Hostpath => 2 case Rawfile => 3 case Mayastor => 4;
      assert Engines()[j] == e;
    }
  }

  /** A normal reconcile that reports no error ends by storing exactly this phase with what every
      engine did, and comes back after the long interval: the short one is never used. */
  lemma {:induction false} StatusPublished(w: World, inst: Instance, order: Ordering)
    requires Good(w)
    ensures var (v, verdict) := ReconcileNormal(w, inst, order);
            var (engines, phase) := (Deploy(w, inst).1, PhaseFor(Deploy(w, inst).1));
            && verdict.requeue == (if verdict.err.None? then REQUEUE_AFTER else 0)
            && (verdict.err.None? ==> Published(v.s, Status(phase, engines, ConditionsFor(phase))))
  {
    hide Good, DeployFrom, CleanupOrphans, Call, Deploying, Sweeping, PhaseFor, ConditionsFor, Via, AgendaOf;
    var (v, engines) := Deploy(w, inst);
    DeployReaches(0, w, inst);
    var u := CleanupOrphans(v, inst, order).0;
    OrphansReach(v, inst, order);
    PhaseOfDeployment(w, inst);
    StatusStored(u, engines);
  }

  lemma StatusStored(w: World, engines: seq<EngineStatus>)
    requires Good(w) && PhaseFor(engines) != Phase.Failed
    ensures var (v, verdict) := PublishStatus(w, engines);
            && verdict.requeue == (if verdict.err.None? then REQUEUE_AFTER else 0)
            && (verdict.err.None? ==>
                  Published(v.s, Status(PhaseFor(engines), engines, ConditionsFor(PhaseFor(engines)))))
  {
    hide Good, Call, PhaseFor, ConditionsFor;
    var (v, r) := Call(w, GetInstance);
    CallEvent(w, GetInstance);
    if r.GotInstance? {
      var phase := PhaseFor(engines);
      CallEvent(v, PutStatus(r.inst.(status := Status(phase, engines, ConditionsFor(phase)))));
    }
  }

  /** The condition of that type holds. */
  predicate Shows(conditions: seq<Condition>, typ: ConditionType) {
    exists c :: c in conditions && c.typ == typ && c.holds
  }

  /** Each type of condition occurs once, with the phase as its reason; and which hold depends on the phase. */
  lemma ConditionsByPhase(phase: Phase)
    ensures var cs := ConditionsFor(phase);
            && |cs| == 4 && (forall i, j | 0 <= i < j < 4 :: cs[i].typ != cs[j].typ)
            && forall c | c in cs :: c.reason == phase
    ensures Shows(ConditionsFor(phase), Available) <==> phase == Phase.Running || phase == Phase.Degraded
    ensures Shows(ConditionsFor(phase), Progressing) <==> phase == Phase.Pending || phase == Phase.Installing
    ensures Shows(ConditionsFor(phase), IsDegraded) <==> phase == Phase.Degraded
    ensures Shows(ConditionsFor(phase), IsFailed) <==> phase == Phase.Failed
  {
    var cs := ConditionsFor(phase);
    assert cs[0] in cs && cs[1] in cs && cs[2] in cs && cs[3] in cs;
  }

  /** The conditions the store shows. */
  ghost predicate StoreShows(s: State, typ: ConditionType) {
    match s.inst
    case Some(i) => Shows(i.status.conditions, typ)
    case None => false
  }

  /** After a normal reconcile without error the stored conditions tell how the engines fared: available
      when any is enabled, even if some failed; degraded when some failed; progressing only when none is
      enabled; never failed. */
  lemma ConditionsTell(w: World, inst: Instance, order: Ordering)
    requires Good(w) && ReconcileNormal(w, inst, order).1.err.None?
    ensures var (s, engines) := (ReconcileNormal(w, inst, order).0.s, Deploy(w, inst).1);
            && (StoreShows(s, Available) <==> engines != []) && (StoreShows(s, Progressing) <==> engines == [])
            && (StoreShows(s, IsDegraded) <==> SomeFailed(engines)) && !StoreShows(s, IsFailed)
  {
    hide Good, Deploy, ReconcileNormal, PhaseFor, ConditionsFor, Shows, Enabled;
    var engines := Deploy(w, inst).1;
    StatusPublished(w, inst, order);
    PhaseOfDeployment(w, inst);
    ConditionsByPhase(PhaseFor(engines));
    PhaseOfNone(engines);
  }

  lemma PhaseOfNone(engines: seq<EngineStatus>)
    ensures PhaseFor(engines) == Phase.Pending <==> engines == []
  {
  }

  /** How a normal reconcile ends: with the answer to its status write, or to the read before that. */
  ghost predicate Concluded(e: Event, status: Status, verdict: Verdict) {
    match e.actor
    case Operator(PutStatus(i), reply) => i.status == status && verdict.err == ErrorOf(reply)
    case Operator(GetInstance, Fail(x)) => verdict.err == Some(x)
    case _ => false
  }

  /** Whatever became of the engines and of the sweep, the status is written, or at least attempted. */
  lemma StatusIsAttempted(w: World, inst: Instance, order: Ordering)
    requires Good(w)
    ensures var (v, verdict) := ReconcileNormal(w, inst, order);
            var (engines, phase) := (Deploy(w, inst).1, PhaseFor(Deploy(w, inst).1));
            Concluded(Last(v.trace), Status(phase, engines, ConditionsFor(phase)), verdict)
  {
    hide Good, DeployFrom, CleanupOrphans, Call, Deploying, Sweeping, PhaseFor, ConditionsFor, Via, AgendaOf;
    var (v, engines) := Deploy(w, inst);
    DeployReaches(0, w, inst);
    var u := CleanupOrphans(v, inst, order).0;
    OrphansReach(v, inst, order);
    var (x, r) := Call(u, GetInstance);
    GetInstanceVia(u, false);
    CallEvent(u, GetInstance);
    if r.GotInstance? {
      var phase := PhaseFor(engines);
      CallEvent(x, PutStatus(r.inst.(status := Status(phase, engines, ConditionsFor(phase)))));
    }
  }
}
