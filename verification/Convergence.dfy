/** Convergence: left alone, the operator brings any store it can work with into the desired form in at
    most two reconciles, and from then on changes nothing but versions. */
module Convergence {
  import opened Wrappers
  import opened Objects
  import opened Api
  import opened Components
  import opened Strategies
  import opened Drift
  import opened Traces
  import opened Reconcile
  import opened Effects
  import opened Passes
  import opened Plans
  import opened Agreement
  import opened Calm

  // ---- What a store must be like ----

  /** No two storage classes of enabled engines are called the same. */
  ghost predicate DistinctClasses(spec: Spec) {
    forall c, d | Wanted(c, spec) && Wanted(d, spec) && IsClass(c) && IsClass(d) && KeyOf(c, spec) == KeyOf(d, spec) ::
      c == d
  }

  function SpaceKey(name: Name): Key {
    Key(Namespace, NoNamespace, name)
  }

  /** The operator brings about the namespace itself. */
  ghost predicate MakesSpace(a: Agenda, name: Name) {
    exists t :: t in a.tasks && t.key == SpaceKey(name)
  }

  /** If the task is to bring about the backup schedule, and Velero is there, then the namespace of the
      schedule is there too, or the operator makes it. */
  ghost predicate Homed(s: State, t: Task, a: Agenda) {
    t.way == AsSchedule(true) && s.velero ==> SpaceKey(t.key.space) in s.objs || MakesSpace(a, t.key.space)
  }

  ghost predicate Workable(s: State, a: Agenda) {
    forall t | t in a.tasks :: Fine(s, t) && Homed(s, t, a)
  }

  ghost predicate Ready(s: State, inst: Instance) {
    Workable(s, AgendaOf(inst)) && DistinctClasses(inst.spec)
  }

  ghost predicate AllConform(s: State, a: Agenda) {
    forall t | t in a.tasks :: ConformsAt(s, t)
  }

  ghost predicate Drifts(s: State, a: Agenda) {
    exists t :: t in a.tasks && FindsDrift(s, t)
  }

  /** Nothing left for a sweep to take. */
  ghost predicate Tidied(s: State, a: Agenda) {
    (forall k :: !Stray(s, k, a.expected)) && (!a.scheduleWanted ==> a.schedule !in s.objs)
  }

  /** What can be asked of the server, each object once, and the namespaces are the operator's two. */
  ghost predicate Orderly(a: Agenda) {
    && (forall t | t in a.tasks :: Askable(t) && SoundTask(t, a))
    && (forall t, u | t in a.tasks && u in a.tasks && t.key == u.key :: t == u)
    && (forall name :: MakesSpace(a, name) ==> name == OpenebsSpace || name == MayastorName)
  }

  lemma RootKeys(spec: Spec)
    ensures KeyOf(OpenebsNs, spec) == SpaceKey(OpenebsSpace) && KeyOf(MayastorNs, spec) == SpaceKey(MayastorName)
    ensures KeyOf(SnapshotClassesDef, spec) == SNAPSHOT_CLASSES_KEY
    ensures EngineOf(MayastorVsc) == Mayastor && EngineOf(EtcdSchedule) == Mayastor && EngineOf(OpenebsNs) != Mayastor
  {
  }

  lemma AgendaOrderly(inst: Instance)
    requires DistinctClasses(inst.spec)
    ensures Orderly(AgendaOf(inst))
  {
    hide KeyOf, Desired, WayOf, Wanted, Expected, ScheduleWanted, TeardownKeys, Askable, SoundTask, IsClass, EngineOf,
         ComponentAt;
    var a := AgendaOf(inst);
    RootKeys(inst.spec);
    forall t | t in a.tasks
      ensures Askable(t) && SoundTask(t, a)
      ensures forall u | u in a.tasks && t.key == u.key :: t == u
      ensures t.key.kind == Namespace ==> t.key == SpaceKey(OpenebsSpace) || t.key == SpaceKey(MayastorName)
    {
      var c :| Wanted(c, inst.spec) && t == TaskOf(c, inst);
      TaskAskable(c, inst);
      TaskSound(c, inst);
      KindTells(c, inst.spec);
      forall u | u in a.tasks && t.key == u.key
        ensures t == u
      {
        var d :| Wanted(d, inst.spec) && u == TaskOf(d, inst);
        if !(IsClass(c) && IsClass(d)) {
          KeysDiffer(c, inst.spec, d, inst.spec);
        }
      }
    }
  }

  // ---- Progress ----

  /** What conforms keeps conforming, what is fine stays fine, and no set becomes a drifted one. */
  ghost predicate Keeps(s: State, u: State, t: Task) {
    && (ConformsAt(s, t) ==> ConformsAt(u, t))
    && (Fine(s, t) ==> Fine(u, t))
    && (FindsDrift(u, t) ==> FindsDrift(s, t))
  }

  /** Other objects live in namespaces and off definitions. */
  predicate Lasting(k: Key) {
    k.kind == Namespace || k.kind == CustomResourceDefinition
  }

  ghost predicate Advance(s: State, u: State, a: Agenda) {
    && SameAround(s, u) && (forall t | t in a.tasks :: Keeps(s, u, t))
    && (forall k | k in s.objs && Lasting(k) :: k in u.objs)
  }

  /** A reconcile may move from `s` to `u`; where everything conforms nothing but versions changes. */
  ghost predicate Progress(s: State, u: State, a: Agenda) {
    Advance(s, u, a) && (AllConform(s, a) ==> SameButVersions(s, u))
  }

  lemma SameTransitive(s: State, t: State, u: State)
    requires SameButVersions(s, t) && SameButVersions(t, u)
    ensures SameButVersions(s, u)
  {
    forall k | k in s.objs
      ensures u.objs[k].(rv := 0) == s.objs[k].(rv := 0)
    {
      assert t.objs[k].(rv := 0) == s.objs[k].(rv := 0);
    }
  }

  lemma AdvanceCarries(s: State, u: State, a: Agenda)
    requires Advance(s, u, a)
    ensures Workable(s, a) ==> Workable(u, a)
    ensures AllConform(s, a) ==> AllConform(u, a)
    ensures Drifts(u, a) ==> Drifts(s, a)
  {
    hide ConformsAt, Fine, FindsDrift;
    assert forall t | t in a.tasks :: Keeps(s, u, t);
  }

  lemma ProgressTransitive(s: State, t: State, u: State, a: Agenda)
    requires Progress(s, t, a) && Progress(t, u, a)
    ensures Progress(s, u, a)
  {
    hide ConformsAt, Fine, FindsDrift, SameButVersions;
    forall x | x in a.tasks
      ensures Keeps(s, u, x)
    {
      assert Keeps(s, t, x) && Keeps(t, u, x);
    }
    AdvanceCarries(s, t, a);
    if AllConform(s, a) {
      SameTransitive(s, t, u);
    }
  }

  lemma ProgressSelf(s: State, a: Agenda)
    ensures Progress(s, s, a)
  {
    hide ConformsAt, Fine, FindsDrift;
  }

  /** Settling a task is progress for it. */
  lemma SettledKeeps(s: State, u: State, t: Task)
    requires Settled(s, u, t) && (t.way == AsSet ==> t.key == ETCD_KEY)
    ensures Keeps(s, u, t)
  {
    hide DriftFields, Owned, Defaulted;
    if t.key in s.objs && t.way.AsSchedule? && ConformsAt(s, t) {
      assert u.objs[t.key].(rv := 0) == s.objs[t.key].(rv := 0);
    }
  }

  /** Whether a task conforms, is fine or finds drift depends on what is under its key only. */
  lemma SameKeeps(s: State, u: State, t: Task)
    requires u.velero == s.velero && SameAt(s, u, t.key) && (t.way == AsSet ==> t.key == ETCD_KEY)
    ensures Keeps(s, u, t)
  {
    hide Conforms, Mendable, DriftFields;
  }

  lemma SettledProgress(s: State, u: State, t: Task, a: Agenda)
    requires Settled(s, u, t) && t in a.tasks && Orderly(a)
    ensures Progress(s, u, a)
  {
    hide Keeps, SameButVersions, Conforms, Askable;
    forall x | x in a.tasks
      ensures Keeps(s, u, x)
    {
      if x == t { SettledKeeps(s, u, t); } else { SameKeeps(s, u, x); }
    }
    forall k | k in s.objs && Lasting(k)
      ensures k in u.objs
    {
      assert k != t.key ==> SameAt(s, u, k);
    }
  }

  /** Deleting a drifted set is progress too: only the set itself did not conform. */
  lemma DeletionProgress(s: State, t: Task, a: Agenda)
    requires FindsDrift(s, t) && t in a.tasks && Orderly(a)
    ensures Progress(s, Without(s, ETCD_KEY), a) && !Drifts(Without(s, ETCD_KEY), a)
  {
    hide Without, DriftFields, Askable, SameButVersions, Keeps;
    var u := Without(s, ETCD_KEY);
    GoneAlone(s, ETCD_KEY);
    forall x | x in a.tasks
      ensures Keeps(s, u, x)
    {
      if x == t { DeletionKeeps(s, u, t); } else { SameKeeps(s, u, x); }
    }
    forall k | k in s.objs && Lasting(k)
      ensures k in u.objs
    {
      assert SameAt(s, u, k);
    }
    DeletionKeeps(s, u, t);
  }

  lemma DeletionKeeps(s: State, u: State, t: Task)
    requires FindsDrift(s, t) && t.key == ETCD_KEY && ETCD_KEY !in u.objs
    ensures Keeps(s, u, t) && !ConformsAt(s, t)
  {
    hide DriftFields;
  }

  lemma ConformingDoesNotDrift(s: State, a: Agenda)
    requires AllConform(s, a) && Orderly(a)
    ensures !Drifts(s, a)
  {
    hide DriftFields;
  }

  // ---- Where things go ----

  lemma PlansStart(e: Engine)
    ensures |Plan(e)| > 2 && StepAt(e, 0) == Space(HomeOf(e))
    ensures e == Mayastor ==> StepAt(e, 1) == Definition(SnapshotClassesDef)
  {
  }

  /** The namespaces come first, and for Mayastor then the definition of snapshot classes. */
  ghost predicate Begun(s: State, e: Engine, i: nat, a: Agenda) {
    && (i > 0 ==> SpaceKey(SpaceOf(e)) in s.objs)
    && (i > 1 && e == Mayastor ==> SNAPSHOT_CLASSES_KEY in s.objs)
    && (e == Mayastor && MakesSpace(a, OpenebsSpace) ==> SpaceKey(OpenebsSpace) in s.objs)
  }

  /** Where the object of a step goes. */
  lemma StepHome(e: Engine, i: nat, inst: Instance)
    requires i < |Plan(e)| && Enabled(e, inst.spec)
    ensures var t := TaskAt(e, i, inst);
            && (i == 0 ==> t.key == SpaceKey(SpaceOf(e)))
            && (i == 1 && e == Mayastor ==> t.key == SNAPSHOT_CLASSES_KEY)
            && (Namespaced(t.key.kind) && t.key.kind != Schedule ==> i > 0 && t.key.space == SpaceOf(e))
            && (t.key.kind == VolumeSnapshotClass ==> e == Mayastor && i > 1)
            && (t.way.AsSchedule? || t.key.kind == Schedule ==> e == Mayastor && i > 1)
  {
    hide Plan, Enabled, KeyOf, Desired, EngineOf, AgendaOf, IsClass, StepAt, Fits;
    var c := ComponentOf(StepAt(e, i));
    StepTask(e, i, inst);
    PlansStart(e);
    RootKeys(inst.spec);
    KindTells(c, inst.spec);
    if c != EtcdSchedule && Namespaced(KeyOf(c, inst.spec).kind) {
      AllPlaced(c, inst.spec);
    }
  }

  lemma StepLocated(s: State, e: Engine, i: nat, inst: Instance)
    requires i < |Plan(e)| && Enabled(e, inst.spec) && Begun(s, e, i, AgendaOf(inst))
    requires Workable(s, AgendaOf(inst)) && Orderly(AgendaOf(inst))
    ensures Located(s, TaskAt(e, i, inst)) && Fine(s, TaskAt(e, i, inst))
  {
    hide Plan, Enabled, Fine, AgendaOf, TaskAt, StepAt, Askable, MakesSpace;
    StepTask(e, i, inst);
    StepHome(e, i, inst);
  }

  // ---- Plans ----

  ghost predicate CalmWorld(w: World) {
    w.script == [] && Good(w)
  }

  lemma CalmLater(w: World, v: World, g: Guarantee)
    requires CalmWorld(w) && Via(w, v, g)
    ensures CalmWorld(v)
  {
    hide Good;
  }

  lemma CallGood(w: World, req: Request)
    requires CalmWorld(w)
    ensures CalmWorld(Call(w, req).0)
  {
    hide Good, Call;
    CallEvent(w, req);
    CalmCall(w, req);
  }

  /** One step: it settles its task, or it finds the etcd set drifted and deletes it. */
  lemma StepProgress(e: Engine, i: nat, w: World, inst: Instance)
    requires CalmWorld(w) && Enabled(e, inst.spec) && i < |Plan(e)|
    requires Workable(w.s, AgendaOf(inst)) && Orderly(AgendaOf(inst)) && Begun(w.s, e, i, AgendaOf(inst))
    ensures var (a, t) := (AgendaOf(inst), TaskAt(e, i, inst));
            var (v, err) := RunStep(StepAt(e, i), w, inst);
            && CalmWorld(v) && Progress(w.s, v.s, a)
            && if err.None? then StepAt(e, i).Healthy? || ConformsAt(v.s, t)
               else i > 0 && Drifts(w.s, a) && !Drifts(v.s, a)
  {
    hide Plan, Enabled, Good, RunStep, Fits, Located, Fine, Progress, ConformsAt, AgendaOf, Doing, StepAt, Drifting,
         Orderly, Workable, Begun, TaskOf, Ends, Creates;
    var step := StepAt(e, i);
    var t := TaskAt(e, i, inst);
    var v := RunStep(step, w, inst).0;
    StepTask(e, i, inst);
    StepLocated(w.s, e, i, inst);
    SelfSane(w);
    StepVia(step, w, inst);
    CalmLater(w, v, Doing(t));
    if step.Stateful? && Drifting(w.s, EtcdSet(inst.spec)) {
      PlansStart(e);
      StatefulIs(step);
      DriftStep(w, inst);
    } else {
      StepSettles(step, w, inst);
      if step.Healthy? {
        ProgressSelf(w.s, AgendaOf(inst));
      } else {
        SettledProgress(w.s, v.s, t, AgendaOf(inst));
      }
    }
  }

  /** The step that finds the etcd set drifted. */
  lemma DriftStep(w: World, inst: Instance)
    requires CalmWorld(w) && TaskOf(EtcdSts, inst) in AgendaOf(inst).tasks && Orderly(AgendaOf(inst))
    requires Fine(w.s, TaskOf(EtcdSts, inst)) && Drifting(w.s, EtcdSet(inst.spec))
    ensures var a := AgendaOf(inst);
            var (v, err) := RunStep(Stateful(EtcdSts), w, inst);
            err.Some? && Progress(w.s, v.s, a) && Drifts(w.s, a) && !Drifts(v.s, a)
  {
    hide Good, Progress, AgendaOf, Without, Build, ApplyObject, Askable, KeyOf, DriftFields, EtcdSet, Owned, Proper,
         ApplyClass, ApplyDynamic, HealthCheck, ReconcileSchedule, Strategies.EnsureNamespace, IsClass, Orderly;
    var t := TaskOf(EtcdSts, inst);
    SelfSane(w);
    SetFields(inst);
    TaskProper(EtcdSts, inst);
    DriftedIsDeleted(w, Build(EtcdSts, inst.spec), t);
    DeletionProgress(w.s, t, AgendaOf(inst));
  }

  /** Every component of the rest of a plan conforms. */
  ghost predicate RestConforms(s: State, e: Engine, i: nat, inst: Instance) {
    forall j: nat | i <= j < |Plan(e)| && !StepAt(e, j).Healthy? :: ConformsAt(s, TaskAt(e, j, inst))
  }

  lemma BegunNext(s: State, u: State, e: Engine, i: nat, inst: Instance)
    requires i < |Plan(e)| && Enabled(e, inst.spec) && Begun(s, e, i, AgendaOf(inst))
    requires Advance(s, u, AgendaOf(inst)) && (StepAt(e, i).Healthy? || ConformsAt(u, TaskAt(e, i, inst)))
    ensures Begun(u, e, i + 1, AgendaOf(inst))
  {
    hide Plan, Enabled, AgendaOf, Keeps, Conforms, StepAt, MakesSpace, TaskAt, SpaceOf;
    StepHome(e, i, inst);
    PlansStart(e);
  }

  /** The rest of a plan: it completes and everything in it conforms, unless it finds the etcd set
      drifted, and then the set is gone. */
  lemma {:induction false} PlanSettles(e: Engine, i: nat, w: World, inst: Instance)
    requires CalmWorld(w) && Enabled(e, inst.spec) && Workable(w.s, AgendaOf(inst)) && Orderly(AgendaOf(inst))
    requires Begun(w.s, e, i, AgendaOf(inst))
    ensures var a := AgendaOf(inst);
            var (v, err) := RunFrom(Plan(e), i, w, inst);
            && CalmWorld(v) && Progress(w.s, v.s, a) && Workable(v.s, a)
            && (|Plan(e)| > 0 ==> SpaceKey(SpaceOf(e)) in v.s.objs)
            && if err.None? then RestConforms(v.s, e, i, inst) else Drifts(w.s, a) && !Drifts(v.s, a)
    decreases |Plan(e)| - i
  {
    hide Plan, Enabled, Good, RunStep, Workable, Orderly, Drifts, MakesSpace, Keeps, AllConform, ConformsAt, TaskAt,
         AgendaOf, SameButVersions;
    var a := AgendaOf(inst);
    if i >= |Plan(e)| {
      ProgressSelf(w.s, a);
    } else {
      var (v, err) := RunStep(StepAt(e, i), w, inst);
      StepProgress(e, i, w, inst);
      AdvanceCarries(w.s, v.s, a);
      if err.None? {
        BegunNext(w.s, v.s, e, i, inst);
        PlanSettles(e, i + 1, v, inst);
        var u := RunFrom(Plan(e), i + 1, v, inst).0;
        ProgressTransitive(w.s, v.s, u.s, a);
        if !StepAt(e, i).Healthy? {
          StepTask(e, i, inst);
          assert Keeps(v.s, u.s, TaskAt(e, i, inst));
          StaysInForm(v.s, u.s, TaskAt(e, i, inst));
        }
      }
    }
  }

  lemma StaysInForm(s: State, u: State, t: Task)
    requires Keeps(s, u, t) && ConformsAt(s, t)
    ensures ConformsAt(u, t)
  {
    hide ConformsAt, Fine, FindsDrift;
  }

  // ---- Engines ----

  /** When the turn of an engine comes. */
  function Place(e: Engine): nat {
    match e
    case Lvm => 0
    case Zfs => 1
    case Hostpath => 2
    case Rawfile => 3
    case Mayastor => 4
  }

  lemma Places(e: Engine)
    ensures Place(e) < |Engines()| && Engines()[Place(e)] == e && |Plan(e)| > 0
    ensures forall i: nat | i < |Engines()| :: Place(Engines()[i]) == i
  {
    PlansStart(e);
  }

  /** Everything the engines from the i-th on deploy conforms. */
  ghost predicate EnginesConform(s: State, i: nat, inst: Instance) {
    forall e: Engine | i <= Place(e) && Enabled(e, inst.spec) :: RestConforms(s, e, 0, inst)
  }

  /** The report when every enabled engine runs. */
  function AllRunning(i: nat, spec: Spec): seq<EngineStatus>
    decreases |Engines()| - i
  {
    if i >= |Engines()| then []
    else
      (if Enabled(Engines()[i], spec) then [EngineStatus(Engines()[i], Phase.Running)] else [])
      + AllRunning(i + 1, spec)
  }

  /** The engines before the i-th have seen to their namespace. */
  ghost predicate Opened(s: State, i: nat, spec: Spec) {
    forall e: Engine | Place(e) < i && Enabled(e, spec) :: SpaceKey(SpaceOf(e)) in s.objs
  }

  lemma SpaceIsOpened(s: State, c: Component, inst: Instance)
    requires Opened(s, Place(Mayastor), inst.spec)
    requires Wanted(c, inst.spec) && KeyOf(c, inst.spec) == SpaceKey(OpenebsSpace)
    ensures SpaceKey(OpenebsSpace) in s.objs
  {
    hide KeyOf, Plan, Enabled, EngineOf, ComponentOf;
    var e: Engine :| Enabled(e, inst.spec) && InPlan(c, Plan(e));
    PlanIsFor(e);
    RootKeys(inst.spec);
    KindTells(c, inst.spec);
    assert e != Mayastor && SpaceOf(e) == OpenebsSpace;
  }

  /** Who wants the openebs namespace has made it before the turn of Mayastor. */
  lemma OpenedBegun(s: State, e: Engine, inst: Instance)
    requires Opened(s, Place(e), inst.spec)
    ensures Begun(s, e, 0, AgendaOf(inst))
  {
    hide KeyOf, Wanted, Opened, Desired, WayOf, Expected, ScheduleWanted, TeardownKeys;
    if e == Mayastor && MakesSpace(AgendaOf(inst), OpenebsSpace) {
      var t :| t in AgendaOf(inst).tasks && t.key == SpaceKey(OpenebsSpace);
      var c :| Wanted(c, inst.spec) && t == TaskOf(c, inst);
      SpaceIsOpened(s, c, inst);
    }
  }

  lemma StillConform(s: State, u: State, e: Engine, inst: Instance)
    requires Advance(s, u, AgendaOf(inst)) && Enabled(e, inst.spec) && RestConforms(s, e, 0, inst)
    ensures RestConforms(u, e, 0, inst)
  {
    hide Plan, Enabled, ConformsAt, Keeps, AgendaOf, TaskAt, StepAt;
    forall j: nat | j < |Plan(e)| && !StepAt(e, j).Healthy?
      ensures ConformsAt(u, TaskAt(e, j, inst))
    {
      StepTask(e, j, inst);
      assert Keeps(s, u, TaskAt(e, j, inst));
      StaysInForm(s, u, TaskAt(e, j, inst));
    }
  }

  /** One engine more. */
  lemma EngineJoins(s: State, i: nat, e: Engine, inst: Instance)
    requires i < |Engines()| && Engines()[i] == e && EnginesConform(s, i + 1, inst)
    requires Enabled(e, inst.spec) ==> RestConforms(s, e, 0, inst)
    ensures EnginesConform(s, i, inst)
  {
    hide Plan, Enabled, RestConforms, Engines;
    forall f: Engine
      ensures Place(f) < |Engines()| && Engines()[Place(f)] == f
    {
      Places(f);
    }
  }

  lemma OpenedNext(s: State, u: State, i: nat, e: Engine, inst: Instance)
    requires i < |Engines()| && Engines()[i] == e && Opened(s, i, inst.spec) && Advance(s, u, AgendaOf(inst))
    requires Enabled(e, inst.spec) ==> SpaceKey(SpaceOf(e)) in u.objs
    ensures Opened(u, i + 1, inst.spec)
  {
    hide Enabled, Keeps, AgendaOf, Engines;
    forall f: Engine | Place(f) < i + 1 && Enabled(f, inst.spec)
      ensures SpaceKey(SpaceOf(f)) in u.objs
    {
      Places(f);
    }
  }

  /** One engine and then the others; `ran` and `others` say whether they ran. */
  lemma EnginesInTurn(s: State, t: State, u: State, i: nat, e: Engine, inst: Instance, ran: bool, others: bool)
    requires i < |Engines()| && Engines()[i] == e && Enabled(e, inst.spec)
    requires Progress(s, t, AgendaOf(inst)) && Progress(t, u, AgendaOf(inst))
    requires (ran && RestConforms(t, e, 0, inst)) || (Drifts(s, AgendaOf(inst)) && !Drifts(t, AgendaOf(inst)))
    requires (others && EnginesConform(u, i + 1, inst)) || (Drifts(t, AgendaOf(inst)) && !Drifts(u, AgendaOf(inst)))
    ensures Progress(s, u, AgendaOf(inst))
    ensures (ran && others && EnginesConform(u, i, inst)) || (Drifts(s, AgendaOf(inst)) && !Drifts(u, AgendaOf(inst)))
  {
    hide Plan, Enabled, Drifts, RestConforms, Engines, AgendaOf, Keeps, AllConform, SameButVersions, EnginesConform;
    var a := AgendaOf(inst);
    ProgressTransitive(s, t, u, a);
    AdvanceCarries(s, t, a);
    AdvanceCarries(t, u, a);
    if RestConforms(t, e, 0, inst) && EnginesConform(u, i + 1, inst) {
      StillConform(t, u, e, inst);
      EngineJoins(u, i, e, inst);
    }
  }

  /** How the deployment of the engines from the i-th on begins. */
  lemma DeployUnfolds(i: nat, w: World, inst: Instance)
    ensures i >= |Engines()| ==> DeployFrom(i, w, inst) == (w, []) && AllRunning(i, inst.spec) == []
    ensures i < |Engines()| && !Enabled(Engines()[i], inst.spec) ==>
              DeployFrom(i, w, inst) == DeployFrom(i + 1, w, inst)
              && AllRunning(i, inst.spec) == AllRunning(i + 1, inst.spec)
    ensures i < |Engines()| && Enabled(Engines()[i], inst.spec) ==>
              var (v, err) := RunFrom(Plan(Engines()[i]), 0, w, inst);
              && DeployFrom(i, w, inst).0 == DeployFrom(i + 1, v, inst).0
              && (err.None? && DeployFrom(i + 1, v, inst).1 == AllRunning(i + 1, inst.spec) ==>
                    DeployFrom(i, w, inst).1 == AllRunning(i, inst.spec))
  {
    hide Plan, Enabled, Engines, RunFrom;
  }

  /** The engines from the i-th on all run and all they deploy conforms, or the etcd set was found drifted
      and is gone. */
  lemma {:induction false} DeploySettles(i: nat, w: World, inst: Instance)
    requires CalmWorld(w) && Workable(w.s, AgendaOf(inst)) && Orderly(AgendaOf(inst)) && Opened(w.s, i, inst.spec)
    ensures var a := AgendaOf(inst);
            var (v, statuses) := DeployFrom(i, w, inst);
            && CalmWorld(v) && Progress(w.s, v.s, a) && Workable(v.s, a)
            && ((statuses == AllRunning(i, inst.spec) && EnginesConform(v.s, i, inst))
                || (Drifts(w.s, a) && !Drifts(v.s, a)))
    decreases |Engines()| - i
  {
    hide Plan, Enabled, Good, Workable, Orderly, Drifts, RestConforms, Engines, RunFrom, Begun, AgendaOf, Keeps,
         AllConform, SameButVersions, EnginesConform, Opened, DeployFrom, AllRunning, Progress;
    var a := AgendaOf(inst);
    DeployUnfolds(i, w, inst);
    if i >= |Engines()| {
      ProgressSelf(w.s, a);
      NoEngineLeft(w.s, i, inst);
    } else {
      var e := Engines()[i];
      Places(e);
      if !Enabled(e, inst.spec) {
        assert Advance(w.s, w.s, a) by { AdvanceSelf(w.s, a); }
        OpenedNext(w.s, w.s, i, e, inst);
        DeploySettles(i + 1, w, inst);
        var u := DeployFrom(i + 1, w, inst).0;
        if EnginesConform(u.s, i + 1, inst) {
          EngineJoins(u.s, i, e, inst);
        }
      } else {
        var (v, err) := RunFrom(Plan(e), 0, w, inst);
        OpenedBegun(w.s, e, inst);
        PlanSettles(e, 0, w, inst);
        assert Advance(w.s, v.s, a) by { ProgressIs(w.s, v.s, a); }
        OpenedNext(w.s, v.s, i, e, inst);
        DeploySettles(i + 1, v, inst);
        var (u, rest) := DeployFrom(i + 1, v, inst);
        EnginesInTurn(w.s, v.s, u.s, i, e, inst, err.None?, rest == AllRunning(i + 1, inst.spec));
      }
    }
  }

  lemma AdvanceSelf(s: State, a: Agenda)
    ensures Advance(s, s, a)
  {
    hide ConformsAt, Fine, FindsDrift;
  }

  lemma ProgressIs(s: State, u: State, a: Agenda)
    requires Progress(s, u, a)
    ensures Advance(s, u, a)
  {
    hide Advance, AllConform, SameButVersions;
  }

  lemma NoEngineLeft(s: State, i: nat, inst: Instance)
    requires i >= |Engines()|
    ensures EnginesConform(s, i, inst)
  {
    hide RestConforms, Enabled;
  }

  lemma WantedConforms(s: State, c: Component, inst: Instance)
    requires EnginesConform(s, 0, inst) && Wanted(c, inst.spec)
    ensures ConformsAt(s, TaskOf(c, inst))
  {
    hide Plan, Enabled, ConformsAt, TaskOf, EngineOf, KeyOf, StepAt;
    var e: Engine :| Enabled(e, inst.spec) && InPlan(c, Plan(e));
    var i: nat :| i < |Plan(e)| && ComponentOf(Plan(e)[i]) == c;
    PlanIsFor(e);
    EtcdTurn();
    StepAtIs(e, i);
    assert RestConforms(s, e, 0, inst);
    if StepAt(e, i).Healthy? {
      assert ConformsAt(s, TaskAt(Mayastor, 9, inst));
    } else {
      assert ConformsAt(s, TaskAt(e, i, inst));
    }
  }

  lemma EnginesCoverAll(s: State, inst: Instance)
    requires EnginesConform(s, 0, inst)
    ensures AllConform(s, AgendaOf(inst))
  {
    hide Wanted, ConformsAt, TaskOf, Expected, ScheduleWanted, TeardownKeys, KeyOf, EnginesConform;
    forall t | t in AgendaOf(inst).tasks
      ensures ConformsAt(s, t)
    {
      var c :| Wanted(c, inst.spec) && t == TaskOf(c, inst);
      WantedConforms(s, c, inst);
    }
  }

  // ---- The orphan sweep ----

  /** From `s` to `u` a sweep took away nothing but what a sweep takes, and nothing at all where there
      was nothing to take. */
  ghost predicate Swept(s: State, u: State, a: Agenda) {
    && SameAround(s, u)
    && (forall k | k in u.objs :: k in s.objs && u.objs[k] == s.objs[k])
    && (forall k | k in s.objs && k !in u.objs :: Stray(s, k, a.expected) || (k == a.schedule && !a.scheduleWanted))
  }

  lemma SweptTransitive(s: State, t: State, u: State, a: Agenda)
    requires Swept(s, t, a) && Swept(t, u, a)
    ensures Swept(s, u, a)
  {
    hide Scanned, Managed;
  }

  /** A deletion by a sweep takes the object and nothing else. */
  lemma CalmDelete(w: World, k: Key, site: Site, a: Agenda)
    requires CalmWorld(w) && (Stray(w.s, k, a.expected) || (k == a.schedule && !a.scheduleWanted && k.kind == Schedule))
    ensures var (v, e) := DeleteTolerant(w, k, site);
            && e.None? && CalmWorld(v) && Swept(w.s, v.s, a) && (forall j | j != k :: SameAt(w.s, v.s, j))
            && (k in w.s.objs ==> Call(w, Delete(k, site)).1 == Done)
  {
    hide Call, Good, Managed, Without;
    CalmCall(w, Delete(k, site));
    CallGood(w, Delete(k, site));
    SelfSane(w);
    GoneAlone(w.s, k);
    if k in w.s.objs {
      SanelyPlaced(w.s, k);
    }
    var u := DeleteTolerant(w, k, site).0.s;
    forall j
      ensures j in u.objs ==> j in w.s.objs && u.objs[j] == w.s.objs[j]
      ensures j in w.s.objs && j !in u.objs ==> j == k
    {
      assert j != k ==> SameAt(w.s, u, j);
    }
  }

  /** In a calm world every listed item is still there when its turn comes. */
  lemma {:induction false} CalmSweep(w: World, items: seq<Key>, a: Agenda)
    requires CalmWorld(w)
    requires forall k | k in items && k.name !in a.expected :: Stray(w.s, k, a.expected)
    requires forall i, j | 0 <= i < j < |items| :: items[i] != items[j]
    ensures var (v, e) := Sweep(w, items, a.expected);
            e.None? && CalmWorld(v) && Swept(w.s, v.s, a)
    decreases |items|
  {
    hide Call, Good, Managed, Scanned;
    if items != [] {
      if items[0].name in a.expected {
        CalmSweep(w, items[1..], a);
      } else {
        CalmDelete(w, items[0], OrphanSite, a);
        var v := Call(w, Delete(items[0], OrphanSite)).0;
        forall k | k in items[1..] && k.name !in a.expected
          ensures Stray(v.s, k, a.expected)
        {
          assert SameAt(w.s, v.s, k) && Stray(w.s, k, a.expected);
        }
        CalmSweep(v, items[1..], a);
        SweptTransitive(w.s, v.s, Sweep(v, items[1..], a.expected).0.s, a);
      }
    }
  }

  lemma {:induction false} CalmScans(i: nat, w: World, a: Agenda, order: Ordering)
    requires CalmWorld(w)
    ensures var (v, e) := ScanFrom(i, w, a.expected, order);
            e.None? && CalmWorld(v) && Swept(w.s, v.s, a)
    decreases |Scans()| - i
  {
    hide Call, Good, Scans, Sweep, Managed, Scanned;
    if i < |Scans()| {
      var scan := Scans()[i];
      var (v, r) := Call(w, List(scan.kind, scan.space));
      CalmCall(w, List(scan.kind, scan.space));
      CallGood(w, List(scan.kind, scan.space));
      var items := order(r.keys);
      assert Enumerates(items, r.keys);
      forall k | k in items && k.name !in a.expected
        ensures Stray(v.s, k, a.expected)
      {
        ScansAreScanned(scan, k);
      }
      CalmSweep(v, items, a);
      var u := Sweep(v, items, a.expected).0;
      CalmScans(i + 1, u, a, order);
      SweptTransitive(w.s, u.s, ScanFrom(i + 1, u, a.expected, order).0.s, a);
    }
  }

  /** In a calm world a sweep completes, and leaves nothing to take. */
  lemma CalmCleanup(w: World, inst: Instance, order: Ordering)
    requires CalmWorld(w)
    ensures var (v, e) := CleanupOrphans(w, inst, order);
            e.None? && CalmWorld(v) && Swept(w.s, v.s, AgendaOf(inst)) && Tidied(v.s, AgendaOf(inst))
  {
    hide Good, Expected, ScanFrom, KeyOf, ScheduleWanted, DeleteTolerant, NoStray, Sweeping, Heeded, Via, TeardownKeys,
         TaskOf, Wanted, Stray;
    var a := AgendaOf(inst);
    CalmScans(0, w, a, order);
    var v := ScanAll(w, a.expected, order).0;
    var u := CleanupOrphans(w, inst, order).0;
    if !a.scheduleWanted {
      assert a.schedule.kind == Schedule by { ScheduleKind(inst.spec); }
      CalmDelete(v, a.schedule, UnwantedSite, a);
      SweptTransitive(w.s, v.s, u.s, a);
    }
    OrphansReach(w, inst, order);
    forall k
      ensures Heeded(w, u, NoStray(k, a.expected)) && !Stray(u.s, k, a.expected)
    {
      CalmHeeds(w, u, Sweeping(a), NoStray(k, a.expected));
      CompletedSweepIsComplete(w, inst, order, k);
    }
    assert Heeded(w, u, NoStray(a.schedule, a.expected));
    CompletedSweepIsComplete(w, inst, order, a.schedule);
  }

  /** What a sweep takes is no task's, and nothing that others live in or off. */
  lemma SweptAdvances(s: State, u: State, a: Agenda)
    requires Swept(s, u, a) && Agrees(a) && Orderly(a) && a.schedule.kind == Schedule
    ensures Advance(s, u, a)
    ensures Tidied(s, a) ==> u.objs == s.objs
  {
    hide Keeps, Managed, Askable, ConformsAt, FindsDrift;
    forall t | t in a.tasks
      ensures Keeps(s, u, t)
    {
      if Applicable(t) || t.key !in s.objs || t.key in u.objs { SameKeeps(s, u, t); } else { GoneKeeps(s, u, t); }
    }
  }

  lemma GoneKeeps(s: State, u: State, t: Task)
    requires t.way == AsSchedule(false) && t.key !in u.objs
    ensures Keeps(s, u, t)
  {
    hide Mendable, InForm;
  }

  // ---- One reconcile ----

  /** Only the objects matter, and whether Velero is there. */
  lemma SameStore(s: State, u: State, a: Agenda)
    requires s.objs == u.objs && s.velero == u.velero
    ensures Workable(s, a) == Workable(u, a) && AllConform(s, a) == AllConform(u, a)
    ensures Drifts(s, a) == Drifts(u, a) && Tidied(s, a) == Tidied(u, a)
  {
    hide Conforms, Mendable, DriftFields, Managed, Scanned;
    assert forall t :: Fine(s, t) == Fine(u, t) && Homed(s, t, a) == Homed(u, t, a);
    assert forall t :: ConformsAt(s, t) == ConformsAt(u, t) && FindsDrift(s, t) == FindsDrift(u, t);
    assert forall k :: Stray(s, k, a.expected) == Stray(u, k, a.expected);
  }

  function ReportFor(engines: seq<EngineStatus>): Status {
    Status(PhaseFor(engines), engines, ConditionsFor(PhaseFor(engines)))
  }

  lemma CalmPublish(w: World, inst: Instance, engines: seq<EngineStatus>)
    requires CalmWorld(w) && w.s.inst == Some(inst)
    ensures var v := PublishStatus(w, engines).0;
            && Sane(v.s)
            && v.s == Renewed(w.s, Some(inst.(status := ReportFor(engines), rv := w.s.clock + 1)))
  {
    hide Call, Good, PhaseFor, ConditionsFor;
    var v := Call(w, GetInstance).0;
    var i := inst.(status := ReportFor(engines));
    CalmCall(w, GetInstance);
    CallGood(w, GetInstance);
    CalmCall(v, PutStatus(i));
    CallGood(v, PutStatus(i));
    SelfSane(Call(v, PutStatus(i)).0);
  }

  /** Deployed and swept: what is left of a normal reconcile is to publish the status. */
  lemma CalmNormal(w: World, inst: Instance, order: Ordering)
    requires CalmWorld(w) && w.s.inst == Some(inst) && Ready(w.s, inst)
    ensures var a := AgendaOf(inst);
            var (v, engines) := Deploy(w, inst);
            var u := CleanupOrphans(v, inst, order).0;
            && CalmWorld(u) && SameAround(w.s, u.s)
            && Workable(u.s, a) && !Drifts(u.s, a) && Tidied(u.s, a)
            && (Drifts(w.s, a) || (AllConform(u.s, a) && engines == AllRunning(0, inst.spec)))
            && (AllConform(w.s, a) && Tidied(w.s, a) ==> SameButVersions(w.s, u.s))
  {
    hide Good, DeployFrom, CleanupOrphans, Workable, AllConform, Tidied, Drifts, EnginesConform, AllRunning,
         SameButVersions, Orderly, Swept, AgendaOf, Enabled, DistinctClasses, Agrees, Keeps;
    var a := AgendaOf(inst);
    AgendaOrderly(inst);
    AgendaAgrees(inst);
    AgendaSound(inst);
    var v := Deploy(w, inst).0;
    DeploySettles(0, w, inst);
    var u := CleanupOrphans(v, inst, order).0;
    CalmCleanup(v, inst, order);
    assert a.schedule.kind == Schedule by { hide SoundTask; }
    SweptAdvances(v.s, u.s, a);
    AdvanceCarries(v.s, u.s, a);
    if EnginesConform(v.s, 0, inst) {
      EnginesCoverAll(v.s, inst);
      ConformingDoesNotDrift(v.s, a);
    }
    if AllConform(w.s, a) && Tidied(w.s, a) {
      TidiedSame(w.s, v.s, a);
      SameObjects(w.s, v.s, u.s);
    }
  }

  lemma SameObjects(s: State, t: State, u: State)
    requires SameButVersions(s, t) && u.objs == t.objs && SameAround(t, u)
    ensures SameButVersions(s, u)
  {
  }

  lemma TidiedSame(s: State, u: State, a: Agenda)
    requires SameButVersions(s, u) && Tidied(s, a)
    ensures Tidied(u, a)
  {
    hide Scanned, Managed;
    forall k
      ensures !Stray(u, k, a.expected)
    {
      assert !Stray(s, k, a.expected);
      if k in u.objs {
        assert u.objs[k].(rv := 0) == s.objs[k].(rv := 0);
      }
    }
  }

  const CALM_PASS := Pass([])

  /** What a normal reconcile starts from, once the finalizer is taken if need be. */
  ghost predicate Adopted(s: State, inst: Instance, w: World, i: Instance) {
    && CalmWorld(w) && w.s.inst == Some(i)
    && w.s == s.(inst := w.s.inst, clock := w.s.clock)
    && i == inst.(finalizers := inst.finalizers + {OperatorFinalizer}, rv := i.rv)
    && (OperatorFinalizer in inst.finalizers ==> w.s == s && i == inst)
  }

  /** A calm reconcile of a live instance takes the finalizer if need be, and then is a normal one. */
  lemma CalmReconcile(s: State, inst: Instance, order: Ordering) returns (w: World, i: Instance)
    requires Sane(s) && s.inst == Some(inst) && !inst.deleting
    ensures Adopted(s, inst, w, i) && AfterPass(s, CALM_PASS, order) == ReconcileNormal(w, i, order).0.s
    ensures AgendaOf(i) == AgendaOf(inst)
  {
    hide Good, Call, ReconcileNormal, Sane, AgendaOf;
    var start := Fresh(s, CALM_PASS);
    FreshGood(s, CALM_PASS);
    w, i := Call(start, GetInstance).0, inst;
    CalmCall(start, GetInstance);
    CallGood(start, GetInstance);
    var held := inst.(finalizers := inst.finalizers + {OperatorFinalizer});
    if OperatorFinalizer in inst.finalizers {
      assert held == inst;
    } else {
      var (v, p) := Call(w, PutInstance(held));
      CalmCall(w, PutInstance(held));
      CallGood(w, PutInstance(held));
      w, i := v, held.(rv := w.s.clock + 1);
    }
    SameAgenda(i, inst);
  }

  // ---- Two reconciles suffice ----

  /** The instance is as the user wants it, with the finalizer and a status. */
  ghost predicate Serves(s: State, inst: Instance) {
    match s.inst
    case Some(i) =>
      i == inst.(status := i.status, rv := i.rv, finalizers := inst.finalizers + {OperatorFinalizer})
    case None => false
  }

  /** The store the first reconcile leaves: nothing is in the way, drifted or left over. */
  ghost predicate Steadied(s: State, inst: Instance) {
    var a := AgendaOf(inst);
    Sane(s) && Serves(s, inst) && Ready(s, inst) && !Drifts(s, a) && Tidied(s, a)
  }

  /** Every object of every enabled engine is in its desired form, nothing is left to sweep, and the
      status says that all engines run. */
  ghost predicate AtRest(s: State, inst: Instance) {
    && Steadied(s, inst) && AllConform(s, AgendaOf(inst))
    && Published(s, ReportFor(AllRunning(0, inst.spec)))
  }

  lemma OneReconcile(s: State, inst: Instance, order: Ordering)
    requires Sane(s) && s.inst == Some(inst) && !inst.deleting && Ready(s, inst)
    ensures var u := AfterPass(s, CALM_PASS, order);
            && Steadied(u, inst) && (Drifts(s, AgendaOf(inst)) || AtRest(u, inst))
            && (AtRest(s, inst) ==> SameButVersions(s, u))
  {
    hide Good, Sane, AgendaOf, Workable, AllConform, Drifts, Tidied, PhaseFor, ConditionsFor, AllRunning, DeployFrom,
         CleanupOrphans, PublishStatus, AfterPass, DistinctClasses, SameButVersions;
    var a := AgendaOf(inst);
    var w, i := CalmReconcile(s, inst, order);
    SameStore(s, w.s, a);
    CalmNormal(w, i, order);
    var (v, engines) := Deploy(w, i);
    var u := CleanupOrphans(v, i, order).0;
    CalmPublish(u, i, engines);
    var x := PublishStatus(u, engines).0.s;
    SameStore(u.s, x, a);
    if AtRest(s, inst) {
      ConformingDoesNotDrift(s, a) by { AgendaOrderly(inst); }
      assert inst.finalizers == inst.finalizers + {OperatorFinalizer};
      OnlyVersions(s, u.s, x);
    }
  }

  lemma OnlyVersions(s: State, t: State, u: State)
    requires SameButVersions(s, t) && u.objs == t.objs && u.velero == t.velero && u.others == t.others
    requires s.inst.Some? && u.inst.Some? && u.inst.value.(rv := 0) == s.inst.value.(rv := 0)
    ensures SameButVersions(s, u)
  {
  }

  /** Whoever serves the instance pursues its agenda. */
  lemma NextReconcile(s: State, inst: Instance, order: Ordering)
    requires Steadied(s, inst) && !inst.deleting
    ensures AtRest(AfterPass(s, CALM_PASS, order), inst)
    ensures AtRest(s, inst) ==> SameButVersions(s, AfterPass(s, CALM_PASS, order))
  {
    hide AgendaOf, Workable, AllConform, Drifts, Tidied, ReportFor, AllRunning, AfterPass, DistinctClasses, Sane,
         SameButVersions;
    var now := s.inst.value;
    SameAgenda(now, inst);
    OneReconcile(s, now, order);
    assert now.finalizers + {OperatorFinalizer} == now.finalizers;
  }

  /** Nothing but calm reconciles. */
  function CalmSeries(): Series {
    (n: nat) => CALM_PASS
  }

  /** From any store the operator can work with, whatever else is in it: after two undisturbed
      reconciles every object of every enabled engine is in its desired form, changed storage classes
      and drifted etcd sets included, and nothing unaccounted for is left. */
  lemma {:induction false} Converges(s: State, inst: Instance, order: Ordering, n: nat)
    requires Sane(s) && s.inst == Some(inst) && !inst.deleting && Ready(s, inst) && n >= 2
    ensures AtRest(After(s, CalmSeries(), order, n), inst)
    decreases n
  {
    hide Steadied, AfterPass, Sane, Ready, AgendaOf, AllRunning, ReportFor, AllConform, Drifts;
    if n == 2 {
      OneReconcile(s, inst, order);
      assert After(s, CalmSeries(), order, 0) == s;
      assert After(s, CalmSeries(), order, 1) == AfterPass(s, CALM_PASS, order);
    } else {
      Converges(s, inst, order, n - 1);
    }
    NextReconcile(After(s, CalmSeries(), order, n - 1), inst, order);
  }

  /** And from the second reconcile on, a reconcile changes nothing but versions. */
  lemma {:induction false} ConvergedStays(s: State, inst: Instance, order: Ordering, n: nat)
    requires Sane(s) && s.inst == Some(inst) && !inst.deleting && Ready(s, inst) && n >= 2
    ensures SameButVersions(After(s, CalmSeries(), order, 2), After(s, CalmSeries(), order, n))
    decreases n
  {
    hide Steadied, AfterPass, Sane, Ready, AgendaOf, AllRunning, ReportFor, AllConform, SameButVersions;
    if n > 2 {
      ConvergedStays(s, inst, order, n - 1);
      Converges(s, inst, order, n - 1);
      NextReconcile(After(s, CalmSeries(), order, n - 1), inst, order);
      SameTransitive(After(s, CalmSeries(), order, 2), After(s, CalmSeries(), order, n - 1),
                     After(s, CalmSeries(), order, n));
    } else {
      SameSelf(After(s, CalmSeries(), order, 2));
    }
  }

  lemma SameSelf(s: State)
    ensures SameButVersions(s, s)
  {
  }

  // ---- The conditions are needed ----

  /** The component a body was built for. */
  function BuilderOf(b: Body): Option<Component> {
    match b
    case Constant(c) => Some(c)
    case Rendered(c, _) => Some(c)
    case Foreign(_) => None
  }

  /** Two storage classes of one name never both conform: there is nothing to converge to. */
  lemma SharedClassNeverConforms(s: State, c: Component, d: Component, inst: Instance)
    requires IsClass(c) && IsClass(d) && c != d && KeyOf(c, inst.spec) == KeyOf(d, inst.spec)
    ensures !(ConformsAt(s, TaskOf(c, inst)) && ConformsAt(s, TaskOf(d, inst)))
  {
    hide KeyOf, Desired, Keepable, ScheduleConfigured, BuilderOf, IsNamespace;
    ClassTask(c, inst);
    ClassTask(d, inst);
  }

  lemma ClassTask(c: Component, inst: Instance)
    requires IsClass(c)
    ensures TaskOf(c, inst).way == AsClass && BuilderOf(TaskOf(c, inst).desired.body) == Some(c)
  {
    hide KeyOf, LabelsOf, FixedOf, ReadsSpec, ScheduleConfigured;
  }

  /** A stored object whose immutable fields a plain apply cannot change is left as it is by every
      such apply, and never conforms. */
  lemma MismatchStays(w: World, o: Object, t: Task)
    requires CalmWorld(w) && Askable(t) && t.way == AsPlain && t.desired == OwnedBy(o, t.uid) && !Fine(w.s, t)
    ensures var a := ApplyObject(PlainApply, w, t.key, o, t.uid); a.err == Some(Invalid) && a.w.s == w.s
    ensures !ConformsAt(w.s, t)
  {
    hide Good, ApplyObject, Keepable, Placed;
    SelfSane(w);
    SanelyPlaced(w.s, t.key);
    PlainRefused(w, o, t);
  }

  /** Mayastor is to back up its etcd, Velero is there, the namespace for its schedule is missing, and
      the operator does not make it. */
  ghost predicate Unplaceable(s: State, inst: Instance) {
    && Enabled(Mayastor, inst.spec) && ScheduleConfigured(inst.spec) && s.velero
    && SpaceKey(VeleroSpaceOf(inst.spec)) !in s.objs && !MakesSpace(AgendaOf(inst), VeleroSpaceOf(inst.spec))
  }

  lemma ScheduleSpace(inst: Instance)
    ensures TaskOf(EtcdSchedule, inst).key.space == VeleroSpaceOf(inst.spec)
  {
    hide Desired, VeleroSpaceOf;
  }

  lemma UnhomedIsSchedule(s: State, c: Component, inst: Instance)
    requires Wanted(c, inst.spec) && !Homed(s, TaskOf(c, inst), AgendaOf(inst))
    ensures Unplaceable(s, inst)
  {
    hide KeyOf, Desired, Wanted, AgendaOf, VeleroSpaceOf, ScheduleConfigured, Enabled, EngineOf, MakesSpace, IsClass;
    assert c == EtcdSchedule;
    ScheduleSpace(inst);
    EtcdTurn();
    WantedByItsEngine(c, inst.spec);
  }

  /** This is the one way a schedule cannot be placed. */
  lemma UnplaceableIff(s: State, inst: Instance)
    ensures Unplaceable(s, inst) <==> exists t :: t in AgendaOf(inst).tasks && !Homed(s, t, AgendaOf(inst))
  {
    hide KeyOf, Desired, Wanted, Expected, ScheduleWanted, TeardownKeys, VeleroSpaceOf, ScheduleConfigured, Enabled,
         EngineOf, MakesSpace, TaskOf;
    var a := AgendaOf(inst);
    if Unplaceable(s, inst) {
      ScheduleSpace(inst);
      ScheduleTask(inst);
      EtcdTurn();
      EnabledWantsAll(EtcdSchedule, inst.spec);
      assert TaskOf(EtcdSchedule, inst) in a.tasks && !Homed(s, TaskOf(EtcdSchedule, inst), a);
    }
    if t :| t in a.tasks && !Homed(s, t, a) {
      var c :| Wanted(c, inst.spec) && t == TaskOf(c, inst);
      UnhomedIsSchedule(s, c, inst);
    }
  }

  /** Then no undisturbed attempt to bring about the schedule gets anywhere. */
  lemma UnplaceableFails(w: World, inst: Instance)
    requires CalmWorld(w) && Unplaceable(w.s, inst)
    ensures var (v, e) := ReconcileSchedule(w, inst); e == Some(NotFound) && v.s == w.s
  {
    hide Good, KeyOf, Build, ApplyDynamic, DeleteTolerant, Askable, TaskOf, AgendaOf, VeleroSpaceOf;
    SelfSane(w);
    ScheduleTask(inst);
    ScheduleSpace(inst);
    ScheduleKind(inst.spec);
    TaskAskable(EtcdSchedule, inst);
    BackupRefused(w, Build(EtcdSchedule, inst.spec), TaskOf(EtcdSchedule, inst));
  }

  /** No deployment makes it placeable. */
  lemma StaysUnplaceable(w: World, v: World, inst: Instance)
    requires CalmWorld(w) && w.s.inst == Some(inst) && Unplaceable(w.s, inst)
    requires Reached(w, v, Deploying(AgendaOf(inst)))
    ensures CalmWorld(v) && v.s.inst == Some(inst) && Unplaceable(v.s, inst)
  {
    hide Good, Sane, Later, Via, AgendaOf, VeleroSpaceOf, Heeded, Justified, Enabled;
    var a := AgendaOf(inst);
    var k := SpaceKey(VeleroSpaceOf(inst.spec));
    var inv := (s: State) => s.velero && k !in s.objs && s.inst == Some(inst);
    var rely := (s: State, t: State) => inv(s) ==> inv(t);
    CalmLater(w, v, Deploying(a));
    CalmHeeds(w, v, Deploying(a), rely);
    forall h: History | Deploys(h, a) && inv(Last(h).pre)
      ensures inv(Last(h).post)
    {
      var t :| t in a.tasks && Justified(h, t);
      TaskSparesSpace(h, t, k);
    }
    Throughout(w, v, rely, Deploying(a), inv);
  }

  lemma TaskSparesSpace(h: History, t: Task, k: Key)
    requires Justified(h, t) && k !in Last(h).pre.objs && t.key != k
    ensures k !in Last(h).post.objs && SameAround(Last(h).pre, Last(h).post)
  {
    hide JustRead, Replacement, MayReplace, Admitted, Merged, DriftFields;
  }

  lemma {:induction false} PlanFails(i: nat, w: World, inst: Instance)
    requires CalmWorld(w) && w.s.inst == Some(inst) && Unplaceable(w.s, inst) && i <= 10
    ensures RunFrom(Plan(Mayastor), i, w, inst).1.Some?
    decreases 10 - i
  {
    hide Good, Plan, RunStep, Unplaceable, AgendaOf, Justified, ReconcileSchedule, TaskOf, Via;
    EtcdTurn();
    assert Enabled(Mayastor, inst.spec) by { UnplaceableEnables(w.s, inst); }
    StepAtIs(Mayastor, i);
    var (v, e) := RunStep(StepAt(Mayastor, i), w, inst);
    if i == 10 {
      UnplaceableFails(w, inst);
      BackupStep(w, inst);
    } else if e.None? {
      var t := TaskAt(Mayastor, i, inst);
      StepTask(Mayastor, i, inst);
      StepVia(StepAt(Mayastor, i), w, inst);
      ReachedWeaken(w, v, Doing(t), Deploying(AgendaOf(inst)));
      StaysUnplaceable(w, v, inst);
      PlanFails(i + 1, v, inst);
    }
  }

  lemma UnplaceableEnables(s: State, inst: Instance)
    ensures Unplaceable(s, inst) ==> Enabled(Mayastor, inst.spec)
  {
    hide Enabled, AgendaOf;
  }

  lemma BackupStep(w: World, inst: Instance)
    ensures RunStep(Backup, w, inst) == ReconcileSchedule(w, inst)
  {
    hide ReconcileSchedule;
  }

  lemma {:induction false} DeployFails(i: nat, w: World, inst: Instance)
    requires CalmWorld(w) && w.s.inst == Some(inst) && Unplaceable(w.s, inst) && i <= Place(Mayastor)
    ensures SomeFailed(DeployFrom(i, w, inst).1)
    decreases Place(Mayastor) - i
  {
    hide Good, Plan, RunFrom, Unplaceable, AgendaOf, Deploying, Via, Engines, Enabled;
    Places(Mayastor);
    assert Enabled(Mayastor, inst.spec) by { UnplaceableEnables(w.s, inst); }
    var e := Engines()[i];
    if i == Place(Mayastor) {
      PlanFails(0, w, inst);
      assert DeployFrom(i, w, inst).1[0] == EngineStatus(e, Phase.Failed);
    } else if Enabled(e, inst.spec) {
      var v := DeployEngine(e, w, inst).0;
      PlanReaches(e, 0, w, inst);
      StaysUnplaceable(w, v, inst);
      DeployFails(i + 1, v, inst);
    } else {
      DeployFails(i + 1, w, inst);
    }
  }

  /** The schedule still cannot be placed, and the status says that some engine failed. */
  ghost predicate Stuck(s: State, inst: Instance) {
    && Sane(s) && Serves(s, inst) && Unplaceable(s, inst)
    && match s.inst
       case Some(i) => i.status.phase == Degraded
       case None => false
  }

  lemma OneReconcileFails(s: State, inst: Instance, order: Ordering)
    requires Sane(s) && s.inst == Some(inst) && !inst.deleting && Unplaceable(s, inst)
    ensures Stuck(AfterPass(s, CALM_PASS, order), inst)
  {
    hide Good, Sane, AgendaOf, PhaseFor, ConditionsFor, DeployFrom, CleanupOrphans, PublishStatus, AfterPass, Tidied,
         Deploying, Enabled, ScheduleConfigured, MakesSpace, VeleroSpaceOf, Via;
    var w, i := CalmReconcile(s, inst, order);
    var (v, engines) := Deploy(w, i);
    DeployReaches(0, w, i);
    StaysUnplaceable(w, v, i);
    DeployFails(0, w, i);
    assert PhaseFor(engines) == Degraded by { FailedDegrades(engines); }
    var u := CleanupOrphans(v, i, order).0;
    CalmCleanup(v, i, order);
    CalmPublish(u, i, engines);
  }

  lemma FailedDegrades(engines: seq<EngineStatus>)
    requires SomeFailed(engines)
    ensures PhaseFor(engines) == Degraded
  {
  }

  /** And so, left alone, the operator tries for ever: every reconcile leaves the status Degraded. */
  lemma {:induction false} UnplaceableNeverRuns(s: State, inst: Instance, order: Ordering, n: nat)
    requires Sane(s) && s.inst == Some(inst) && !inst.deleting && Unplaceable(s, inst) && n > 0
    ensures Stuck(After(s, CalmSeries(), order, n), inst)
  {
    hide AfterPass, Sane, AgendaOf, Enabled, ScheduleConfigured, MakesSpace, VeleroSpaceOf;
    if n == 1 {
      assert After(s, CalmSeries(), order, 0) == s;
      OneReconcileFails(s, inst, order);
    } else {
      UnplaceableNeverRuns(s, inst, order, n - 1);
      var before := After(s, CalmSeries(), order, n - 1);
      var now := before.inst.value;
      SameAgenda(now, inst);
      OneReconcileFails(before, now, order);
      assert now.finalizers + {OperatorFinalizer} == now.finalizers;
    }
  }

  /** An empty cluster is always workable, names permitting. */
  lemma EmptyClusterIsReady(inst: Instance, clock: nat)
    requires DistinctClasses(inst.spec) && 0 < inst.rv <= clock && inst.uid <= clock
    ensures var s := State(map[], Some(inst), false, clock, {}); Sane(s) && Ready(s, inst)
  {
    hide DistinctClasses, AgendaOf;
  }
}
