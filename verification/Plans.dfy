/** Static facts about the deployment plans: which engine deploys what, that the expected names cover
    all of it, and which key belongs to which component. */
module Plans {
  import opened Wrappers
  import opened Objects
  import opened Api
  import opened Components
  import opened Strategies
  import opened Effects
  import opened Passes

  // ---- Which engine deploys a component ----

  /** The engine a component belongs to; the openebs namespace is everyone's. */
  function EngineOf(c: Component): Engine {
    match c
    case OpenebsNs => Lvm
    case LvmNodesDef => Lvm
    case LvmVolumesDef => Lvm
    case LvmSnapshotsDef => Lvm
    case LvmSa => Lvm
    case LvmCr => Lvm
    case LvmCrb => Lvm
    case LvmControllerDep => Lvm
    case LvmNodeDs => Lvm
    case LvmCsi => Lvm
    case LvmSc => Lvm
    case HostpathSa => Hostpath
    case HostpathCr => Hostpath
    case HostpathCrb => Hostpath
    case HostpathDep => Hostpath
    case HostpathSc => Hostpath
    case ZfsNodesDef => Zfs
    case ZfsVolumesDef => Zfs
    case ZfsSnapshotsDef => Zfs
    case ZfsSa => Zfs
    case ZfsCr => Zfs
    case ZfsCrb => Zfs
    case ZfsControllerDep => Zfs
    case ZfsBinCm => Zfs
    case ZfsNodeDs => Zfs
    case ZfsCsi => Zfs
    case ZfsSc => Zfs
    case RawfileSa => Rawfile
    case RawfileCr => Rawfile
    case RawfileCrb => Rawfile
    case RawfileDep => Rawfile
    case RawfileSc => Rawfile
    case _ => Mayastor
  }

  ghost predicate OnlyFor(plan: seq<Step>, e: Engine) {
    forall i | 0 <= i < |plan| ::
      EngineOf(ComponentOf(plan[i])) == e || (e != Mayastor && ComponentOf(plan[i]) == OpenebsNs)
  }

  lemma LvmPlanIsLvm()
    ensures OnlyFor(LvmPlan(), Lvm)
  {
  }

  lemma ZfsPlanIsZfs()
    ensures OnlyFor(ZfsPlan(), Zfs)
  {
  }

  lemma SmallPlans()
    ensures OnlyFor(HostpathPlan(), Hostpath) && OnlyFor(RawfilePlan(), Rawfile)
  {
  }

  lemma EtcdPlanIsMayastor()
    ensures OnlyFor(EtcdPlan(), Mayastor)
  {
  }

  lemma ControlPlanIsMayastor()
    ensures OnlyFor(ControlPlan(), Mayastor)
  {
  }

  lemma NodePlanIsMayastor()
    ensures OnlyFor(NodePlan(), Mayastor)
  {
  }

  lemma PlanIsFor(e: Engine)
    ensures OnlyFor(Plan(e), e)
  {
    hide LvmPlan, ZfsPlan, HostpathPlan, RawfilePlan, EtcdPlan, ControlPlan, NodePlan, EngineOf, ComponentOf;
    LvmPlanIsLvm();
    ZfsPlanIsZfs();
    SmallPlans();
    EtcdPlanIsMayastor();
    ControlPlanIsMayastor();
    NodePlanIsMayastor();
  }

  /** A wanted component's own engine is enabled. */
  lemma WantedByItsEngine(c: Component, spec: Spec)
    requires Wanted(c, spec) && c != OpenebsNs
    ensures Enabled(EngineOf(c), spec)
  {
    hide Plan, EngineOf, Enabled;
    var e :| Enabled(e, spec) && InPlan(c, Plan(e));
    PlanIsFor(e);
  }

  // ---- Every component has its turn ----

  /** When a component's turn comes in the plan of its engine. */
  function TurnOf(c: Component): nat {
    match c
    case OpenebsNs => 0
    case LvmNodesDef => 1
    case LvmVolumesDef => 2
    case LvmSnapshotsDef => 3
    case LvmSa => 4
    case LvmCr => 5
    case LvmCrb => 6
    case LvmControllerDep => 7
    case LvmNodeDs => 8
    case LvmCsi => 9
    case LvmSc => 10
    case HostpathSa => 1
    case HostpathCr => 2
    case HostpathCrb => 3
    case HostpathDep => 4
    case HostpathSc => 5
    case ZfsNodesDef => 1
    case ZfsVolumesDef => 2
    case ZfsSnapshotsDef => 3
    case ZfsSa => 4
    case ZfsCr => 5
    case ZfsCrb => 6
    case ZfsControllerDep => 7
    case ZfsBinCm => 8
    case ZfsNodeDs => 9
    case ZfsCsi => 10
    case ZfsSc => 11
    case RawfileSa => 1
    case RawfileCr => 2
    case RawfileCrb => 3
    case RawfileDep => 4
    case RawfileSc => 5
    case MayastorNs => 0
    case SnapshotClassesDef => 1
    case SnapshotsDef => 2
    case SnapshotContentsDef => 3
    case MayastorSa => 4
    case MayastorCr => 5
    case MayastorCrb => 6
    case EtcdSvc => 7
    case EtcdSts => 9
    case EtcdSchedule => 10
    case AgentCoreDep => 11
    case AgentCoreSvc => 12
    case ApiRestSvc => 13
    case ApiRestDep => 14
    case CsiControllerDep => 15
    case IoEngineDs => 16
    case MetricsSvc => 17
    case CsiNodeDs => 18
    case HaNodeDs => 19
    case DiskpoolDep => 20
    case MayastorCsi => 21
    case MayastorSc => 22
    case MayastorVsc => 23
  }

  lemma LvmComplete(c: Component)
    requires EngineOf(c) == Lvm
    ensures TurnOf(c) < |LvmPlan()| && ComponentOf(LvmPlan()[TurnOf(c)]) == c
  {
  }

  lemma ZfsComplete(c: Component)
    requires EngineOf(c) == Zfs
    ensures TurnOf(c) < |ZfsPlan()| && ComponentOf(ZfsPlan()[TurnOf(c)]) == c
  {
  }

  lemma HostpathComplete(c: Component)
    requires EngineOf(c) == Hostpath
    ensures TurnOf(c) < |HostpathPlan()| && ComponentOf(HostpathPlan()[TurnOf(c)]) == c
  {
  }

  lemma RawfileComplete(c: Component)
    requires EngineOf(c) == Rawfile
    ensures TurnOf(c) < |RawfilePlan()| && ComponentOf(RawfilePlan()[TurnOf(c)]) == c
  {
  }

  lemma MayastorComplete(c: Component)
    requires EngineOf(c) == Mayastor
    ensures TurnOf(c) < |Plan(Mayastor)| && ComponentOf(Plan(Mayastor)[TurnOf(c)]) == c
  {
  }

  lemma PlannedAtTurn(c: Component)
    ensures TurnOf(c) < |Plan(EngineOf(c))| && ComponentOf(Plan(EngineOf(c))[TurnOf(c)]) == c
  {
    hide LvmPlan, ZfsPlan, HostpathPlan, RawfilePlan, EtcdPlan, ControlPlan, NodePlan, EngineOf, ComponentOf, TurnOf;
    match EngineOf(c)
    case Lvm => LvmComplete(c);
    case Zfs => ZfsComplete(c);
    case Hostpath => HostpathComplete(c);
    case Rawfile => RawfileComplete(c);
    case Mayastor => MayastorComplete(c);
  }

  /** An engine that is enabled deploys every one of its components. */
  lemma EnabledWantsAll(c: Component, spec: Spec)
    requires Enabled(EngineOf(c), spec)
    ensures Wanted(c, spec)
  {
    hide Plan, EngineOf, ComponentOf, TurnOf, Enabled;
    PlannedAtTurn(c);
    assert InPlan(c, Plan(EngineOf(c)));
  }

  // ---- Which component a key belongs to ----

  function AtSpace(name: Name): Component {
    if name == OpenebsSpace then OpenebsNs else MayastorNs
  }

  function AtAccount(name: Name): Component {
    match name
    case LvmController => LvmSa
    case LocalPvProvisioner => HostpathSa
    case ZfsController => ZfsSa
    case RawfileProvisioner => RawfileSa
    case _ => MayastorSa
  }

  function AtRole(name: Name): Component {
    match name
    case LvmRole => LvmCr
    case LocalPvProvisioner => HostpathCr
    case ZfsRole => ZfsCr
    case RawfileProvisioner => RawfileCr
    case _ => MayastorCr
  }

  function AtBinding(name: Name): Component {
    match name
    case LvmBinding => LvmCrb
    case LocalPvProvisioner => HostpathCrb
    case ZfsBinding => ZfsCrb
    case RawfileProvisioner => RawfileCrb
    case _ => MayastorCrb
  }

  function AtDeployment(name: Name): Component {
    match name
    case LvmController => LvmControllerDep
    case LocalPvProvisioner => HostpathDep
    case ZfsController => ZfsControllerDep
    case RawfileProvisioner => RawfileDep
    case AgentCore => AgentCoreDep
    case ApiRest => ApiRestDep
    case CsiController => CsiControllerDep
    case _ => DiskpoolDep
  }

  function AtDaemonSet(name: Name): Component {
    match name
    case LvmNode => LvmNodeDs
    case ZfsNode => ZfsNodeDs
    case IoEngine => IoEngineDs
    case CsiNode => CsiNodeDs
    case _ => HaNodeDs
  }

  function AtService(name: Name): Component {
    match name
    case EtcdName => EtcdSvc
    case AgentCore => AgentCoreSvc
    case ApiRest => ApiRestSvc
    case _ => MetricsSvc
  }

  function AtDriver(name: Name): Component {
    match name
    case LvmDriver => LvmCsi
    case ZfsDriver => ZfsCsi
    case _ => MayastorCsi
  }

  function AtDefinition(name: Name): Component {
    match name
    case LvmNodesCrd => LvmNodesDef
    case LvmVolumesCrd => LvmVolumesDef
    case LvmSnapshotsCrd => LvmSnapshotsDef
    case ZfsNodesCrd => ZfsNodesDef
    case ZfsVolumesCrd => ZfsVolumesDef
    case ZfsSnapshotsCrd => ZfsSnapshotsDef
    case SnapshotClassesCrd => SnapshotClassesDef
    case SnapshotsCrd => SnapshotsDef
    case _ => SnapshotContentsDef
  }

  /** The component under a key, for kinds whose names tell. */
  function ComponentAt(k: Key): Component {
    match k.kind
    case Namespace => AtSpace(k.name)
    case ServiceAccount => AtAccount(k.name)
    case ClusterRole => AtRole(k.name)
    case ClusterRoleBinding => AtBinding(k.name)
    case Deployment => AtDeployment(k.name)
    case DaemonSet => AtDaemonSet(k.name)
    case StatefulSet => EtcdSts
    case Service => AtService(k.name)
    case ConfigMap => ZfsBinCm
    case CsiDriver => AtDriver(k.name)
    case CustomResourceDefinition => AtDefinition(k.name)
    case VolumeSnapshotClass => MayastorVsc
    case Schedule => EtcdSchedule
    case StorageClass => RawfileSc
  }

  lemma ClassKeys(c: Component, spec: Spec)
    ensures IsClass(c) <==> KeyOf(c, spec).kind == StorageClass
  {
    hide LvmClassOf, ZfsClassOf, HostpathClassOf, MayastorClassOf, SnapshotClassOf, VeleroSpaceOf;
  }

  lemma LvmKeys(c: Component, spec: Spec)
    requires !IsClass(c) && EngineOf(c) == Lvm
    ensures ComponentAt(KeyOf(c, spec)) == c
  {
    hide LvmClassOf, ZfsClassOf, HostpathClassOf, MayastorClassOf, SnapshotClassOf, VeleroSpaceOf;
  }

  lemma ZfsFirstKeys(c: Component, spec: Spec)
    requires EngineOf(c) == Zfs && TurnOf(c) < 6
    ensures ComponentAt(KeyOf(c, spec)) == c
  {
    hide LvmClassOf, ZfsClassOf, HostpathClassOf, MayastorClassOf, SnapshotClassOf, VeleroSpaceOf;
  }

  lemma ZfsLastKeys(c: Component, spec: Spec)
    requires !IsClass(c) && EngineOf(c) == Zfs && TurnOf(c) >= 6
    ensures ComponentAt(KeyOf(c, spec)) == c
  {
    hide LvmClassOf, ZfsClassOf, HostpathClassOf, MayastorClassOf, SnapshotClassOf, VeleroSpaceOf;
  }

  lemma SmallEngineKeys(c: Component, spec: Spec)
    requires !IsClass(c) && EngineOf(c) in {Hostpath, Rawfile}
    ensures ComponentAt(KeyOf(c, spec)) == c
  {
    hide LvmClassOf, ZfsClassOf, HostpathClassOf, MayastorClassOf, SnapshotClassOf, VeleroSpaceOf;
  }

  predicate MayastorBase(c: Component) {
    match c
    case MayastorNs => true
    case SnapshotClassesDef => true
    case SnapshotsDef => true
    case SnapshotContentsDef => true
    case MayastorSa => true
    case MayastorCr => true
    case MayastorCrb => true
    case _ => false
  }

  predicate MayastorPods(c: Component) {
    match c
    case AgentCoreDep => true
    case ApiRestDep => true
    case CsiControllerDep => true
    case IoEngineDs => true
    case CsiNodeDs => true
    case HaNodeDs => true
    case DiskpoolDep => true
    case _ => false
  }

  predicate MayastorOther(c: Component) {
    match c
    case EtcdSvc => true
    case EtcdSts => true
    case EtcdSchedule => true
    case AgentCoreSvc => true
    case ApiRestSvc => true
    case MetricsSvc => true
    case MayastorCsi => true
    case MayastorVsc => true
    case _ => false
  }

  lemma MayastorBaseKeys(c: Component, spec: Spec)
    requires MayastorBase(c)
    ensures ComponentAt(KeyOf(c, spec)) == c
  {
    hide LvmClassOf, ZfsClassOf, HostpathClassOf, MayastorClassOf, SnapshotClassOf, VeleroSpaceOf;
  }

  lemma MayastorPodKeys(c: Component, spec: Spec)
    requires MayastorPods(c)
    ensures ComponentAt(KeyOf(c, spec)) == c
  {
    hide LvmClassOf, ZfsClassOf, HostpathClassOf, MayastorClassOf, SnapshotClassOf, VeleroSpaceOf, AtSpace, AtAccount,
         AtRole, AtBinding, AtService, AtDriver, AtDefinition;
  }

  lemma MayastorOtherKeys(c: Component, spec: Spec)
    requires MayastorOther(c)
    ensures ComponentAt(KeyOf(c, spec)) == c
  {
    hide LvmClassOf, ZfsClassOf, HostpathClassOf, MayastorClassOf, SnapshotClassOf, VeleroSpaceOf, AtSpace, AtAccount,
         AtRole, AtBinding, AtDeployment, AtDaemonSet, AtDefinition;
  }

  lemma MayastorComponents(c: Component)
    ensures EngineOf(c) == Mayastor ==> MayastorBase(c) || MayastorPods(c) || MayastorOther(c) || IsClass(c)
  {
  }

  lemma ComponentAtKey(c: Component, spec: Spec)
    ensures IsClass(c) <==> KeyOf(c, spec).kind == StorageClass
    ensures !IsClass(c) ==> ComponentAt(KeyOf(c, spec)) == c
  {
    hide KeyOf, ComponentAt, IsClass, EngineOf, MayastorBase, MayastorPods, MayastorOther, TurnOf;
    ClassKeys(c, spec);
    if !IsClass(c) {
      match EngineOf(c)
      case Mayastor =>
        MayastorComponents(c);
        if MayastorBase(c) { MayastorBaseKeys(c, spec); }
        if MayastorPods(c) { MayastorPodKeys(c, spec); }
        if MayastorOther(c) { MayastorOtherKeys(c, spec); }
      case Lvm => LvmKeys(c, spec);
      case Zfs =>
        if TurnOf(c) < 6 { ZfsFirstKeys(c, spec); } else { ZfsLastKeys(c, spec); }
      case _ => SmallEngineKeys(c, spec);
    }
  }

  /** Apart from the storage classes, no two components share a key, even across specs. */
  lemma KeysDiffer(c: Component, s: Spec, d: Component, t: Spec)
    requires KeyOf(c, s) == KeyOf(d, t) && !(IsClass(c) && IsClass(d))
    ensures c == d
  {
    hide KeyOf, ComponentAt, IsClass;
    ComponentAtKey(c, s);
    ComponentAtKey(d, t);
  }

  const ETCD_SERVICE := Key(Service, MayastorName, EtcdName)

  lemma EtcdKinds(spec: Spec)
    ensures KeyOf(EtcdSts, spec) == ETCD_KEY
    ensures KeyOf(EtcdSvc, spec) == ETCD_SERVICE
  {
  }

  lemma EtcdFields(spec: Spec)
    ensures FixedOf(EtcdSvc, spec) == Ip(NoAddress) && FixedOf(EtcdSchedule, spec) == Unfixed
    ensures FixedOf(EtcdSts, spec) == Set(EtcdSet(spec))
  {
    hide EtcdSet, LabelsOf, LvmParameters, ZfsParameters, HostpathParameters, RawfileParameters;
  }

  lemma ScheduleKind(spec: Spec)
    ensures KeyOf(EtcdSchedule, spec).kind == Schedule && KeyOf(EtcdSchedule, spec).name == EtcdName
  {
  }

  lemma RareKinds(spec: Spec)
    ensures KeyOf(OpenebsNs, spec).kind == Namespace && KeyOf(MayastorNs, spec).kind == Namespace
    ensures KeyOf(MayastorVsc, spec).kind == VolumeSnapshotClass
  {
  }

  /** The kinds only certain components are of. */
  lemma KindTells(c: Component, spec: Spec)
    ensures KeyOf(c, spec).kind == Namespace <==> IsNamespace(c)
    ensures KeyOf(c, spec).kind == StatefulSet <==> c == EtcdSts
    ensures KeyOf(c, spec).kind == Schedule <==> c == EtcdSchedule
    ensures KeyOf(c, spec).kind == VolumeSnapshotClass <==> c == MayastorVsc
    ensures KeyOf(c, spec) == ETCD_SERVICE <==> c == EtcdSvc
    ensures KeyOf(EtcdSts, spec) == ETCD_KEY
  {
    hide KeyOf, IsClass;
    ComponentAtKey(c, spec);
    EtcdKinds(spec);
    ScheduleKind(spec);
    RareKinds(spec);
  }

  // ---- What holds of every agenda ----

  /** The way a task is done tells its kind, and everything but a namespace gets the controller reference
      of the instance. */
  ghost predicate SoundTask(t: Task, a: Agenda) {
    && Proper(t) && t.uid == a.uid
    && (t.key.kind == Namespace <==> t.way == AsNamespace)
    && (t.key.kind == StatefulSet <==> t.way == AsSet)
    && (t.key.kind == StorageClass <==> t.way == AsClass)
    && (t.key.kind == Schedule <==> t.way.AsSchedule?)
    && (t.key == ETCD_SERVICE <==> t.way == AsService)
    && (t.way.AsSchedule? ==> t.key == a.schedule)
    && (t.way != AsNamespace ==> t.desired.owners == [OwnerRef(a.uid, true)])
  }

  ghost predicate Sound(a: Agenda) {
    && a.schedule.kind == Schedule && a.schedule.name == EtcdName
    && forall t | t in a.tasks :: SoundTask(t, a)
  }

  lemma TaskSound(c: Component, inst: Instance)
    ensures SoundTask(TaskOf(c, inst), AgendaOf(inst))
  {
    hide KeyOf, Build, Wanted, Expected, ScheduleWanted, TeardownKeys, Proper, IsClass, ScheduleConfigured;
    TaskProper(c, inst);
    KindTells(c, inst.spec);
    ComponentAtKey(c, inst.spec);
  }

  lemma AgendaSound(inst: Instance)
    ensures Sound(AgendaOf(inst)) && AgendaOf(inst).uid == inst.uid && AgendaOf(inst).deleting == inst.deleting
  {
    hide KeyOf, TaskOf, Wanted, Expected, ScheduleWanted, TeardownKeys, SoundTask;
    ScheduleKind(inst.spec);
    forall t | t in AgendaOf(inst).tasks
      ensures SoundTask(t, AgendaOf(inst))
    {
      var c :| Wanted(c, inst.spec) && t == TaskOf(c, inst);
      TaskSound(c, inst);
    }
  }

  // ---- The steps of a plan ----

  function StepAt(e: Engine, i: nat): Step {
    if i < |Plan(e)| then Plan(e)[i] else Healthy
  }

  ghost function TaskAt(e: Engine, i: nat, inst: Instance): Task {
    TaskOf(ComponentOf(StepAt(e, i)), inst)
  }

  /** A step is about a task of the agenda, of a component of its engine. */
  lemma StepTask(e: Engine, i: nat, inst: Instance)
    requires i < |Plan(e)| && Enabled(e, inst.spec)
    ensures TaskAt(e, i, inst) in AgendaOf(inst).tasks && Fits(StepAt(e, i))
    ensures var c := ComponentOf(StepAt(e, i)); EngineOf(c) == e || (c == OpenebsNs && e != Mayastor)
  {
    hide Plan, Enabled, KeyOf, TaskOf, EngineOf, Expected, ScheduleWanted, TeardownKeys;
    PlansFit(e);
    PlanIsFor(e);
    assert InPlan(ComponentOf(StepAt(e, i)), Plan(e)) && Wanted(ComponentOf(StepAt(e, i)), inst.spec);
  }

  lemma StatefulIs(step: Step)
    ensures Fits(step) && step.Stateful? ==> step == Stateful(EtcdSts)
  {
  }

  lemma EtcdStateful()
    ensures |EtcdPlan()| == 11 && EtcdPlan()[9] == Stateful(EtcdSts) && EtcdPlan()[10] == Backup
  {
  }

  lemma EtcdTurn()
    ensures 10 < |Plan(Mayastor)|
    ensures StepAt(Mayastor, 9) == Stateful(EtcdSts) && StepAt(Mayastor, 10) == Backup
    ensures EngineOf(EtcdSts) == Mayastor && EngineOf(EtcdSchedule) == Mayastor
  {
    hide EtcdPlan, ControlPlan, NodePlan;
    EtcdStateful();
  }

  lemma HasItsTurn(c: Component)
    ensures TurnOf(c) < |Plan(EngineOf(c))| && ComponentOf(StepAt(EngineOf(c), TurnOf(c))) == c
  {
    hide Plan, EngineOf, ComponentOf, TurnOf;
    PlannedAtTurn(c);
  }

  lemma StepAtIs(e: Engine, i: nat)
    requires i < |Plan(e)|
    ensures StepAt(e, i) == Plan(e)[i]
  {
  }

  // ---- Workloads ----

  predicate Workload(c: Component) {
    match c
    case LvmControllerDep => true
    case LvmNodeDs => true
    case HostpathDep => true
    case ZfsControllerDep => true
    case ZfsNodeDs => true
    case RawfileDep => true
    case AgentCoreDep => true
    case ApiRestDep => true
    case CsiControllerDep => true
    case IoEngineDs => true
    case CsiNodeDs => true
    case HaNodeDs => true
    case DiskpoolDep => true
    case _ => false
  }

  // ---- Where components live ----

  /** The namespace an engine lives in. */
  function HomeOf(e: Engine): Component {
    if e == Mayastor then MayastorNs else OpenebsNs
  }

  function SpaceOf(e: Engine): Name {
    if e == Mayastor then MayastorName else OpenebsSpace
  }

  /** The object is of its kind, and everything namespaced but the backup schedule lives in the namespace of
      its engine. */
  predicate WellPlaced(c: Component, spec: Spec) {
    var k := KeyOf(c, spec);
    Typed(k.kind, FixedOf(c, spec)) && (Namespaced(k.kind) && c != EtcdSchedule ==> k.space == SpaceOf(EngineOf(c)))
  }

  lemma LvmPlaced(c: Component, spec: Spec)
    requires EngineOf(c) == Lvm
    ensures WellPlaced(c, spec)
  {
    hide LabelsOf, LvmParameters;
  }

  lemma ZfsPlaced(c: Component, spec: Spec)
    requires EngineOf(c) == Zfs
    ensures WellPlaced(c, spec)
  {
    hide LabelsOf, ZfsParameters;
  }

  lemma SmallPlaced(c: Component, spec: Spec)
    requires EngineOf(c) in {Hostpath, Rawfile}
    ensures WellPlaced(c, spec)
  {
    hide LabelsOf, HostpathParameters, RawfileParameters;
  }

  lemma MayastorPlaced(c: Component, spec: Spec)
    requires EngineOf(c) == Mayastor
    ensures WellPlaced(c, spec)
  {
    hide LabelsOf, EtcdSet;
  }

  lemma AllPlaced(c: Component, spec: Spec)
    ensures WellPlaced(c, spec)
  {
    hide WellPlaced, EngineOf;
    match EngineOf(c)
    case Lvm => LvmPlaced(c, spec);
    case Zfs => ZfsPlaced(c, spec);
    case Mayastor => MayastorPlaced(c, spec);
    case _ => SmallPlaced(c, spec);
  }
}
