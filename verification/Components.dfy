/** The objects the operator wants: what each builder produces from a spec, which of them each engine
    applies in which order, which names a spec accounts for, and what a teardown deletes. */
module Components {
  import opened Wrappers
  import opened Objects

  // ---- Names and keys ----

  function Global(kind: Kind, name: Name): Key {
    Key(kind, NoNamespace, name)
  }

  function LvmClassOf(spec: Spec): Name {
    if spec.lvm.Some? && spec.lvm.value.className.Some? then spec.lvm.value.className.value else LvmClass
  }

  function ZfsClassOf(spec: Spec): Name {
    if spec.zfs.Some? && spec.zfs.value.className.Some? then spec.zfs.value.className.value else ZfsClass
  }

  function HostpathClassOf(spec: Spec): Name {
    if spec.hostpath.Some? && spec.hostpath.value.className.Some? then spec.hostpath.value.className.value
    else HostpathClass
  }

  function MayastorClassOf(spec: Spec): Name {
    if spec.mayastor.Some? && spec.mayastor.value.className.Some? then spec.mayastor.value.className.value
    else MayastorName
  }

  function SnapshotClassOf(spec: Spec): Name {
    if spec.mayastor.Some? && spec.mayastor.value.snapshotClassName.Some?
    then spec.mayastor.value.snapshotClassName.value else SnapshotClassName
  }

  function VeleroSpaceOf(spec: Spec): Name {
    if spec.mayastor.Some? && spec.mayastor.value.veleroSpace.Some? then spec.mayastor.value.veleroSpace.value
    else VeleroSpace
  }

  function KeyOf(c: Component, spec: Spec): Key {
    match c
    case OpenebsNs => Global(Namespace, OpenebsSpace)
    case LvmNodesDef => Global(CustomResourceDefinition, LvmNodesCrd)
    case LvmVolumesDef => Global(CustomResourceDefinition, LvmVolumesCrd)
    case LvmSnapshotsDef => Global(CustomResourceDefinition, LvmSnapshotsCrd)
    case LvmSa => Key(ServiceAccount, OpenebsSpace, LvmController)
    case LvmCr => Global(ClusterRole, LvmRole)
    case LvmCrb => Global(ClusterRoleBinding, LvmBinding)
    case LvmControllerDep => Key(Deployment, OpenebsSpace, LvmController)
    case LvmNodeDs => Key(DaemonSet, OpenebsSpace, LvmNode)
    case LvmCsi => Global(CsiDriver, LvmDriver)
    case LvmSc => Global(StorageClass, LvmClassOf(spec))
    case HostpathSa => Key(ServiceAccount, OpenebsSpace, LocalPvProvisioner)
    case HostpathCr => Global(ClusterRole, LocalPvProvisioner)
    case HostpathCrb => Global(ClusterRoleBinding, LocalPvProvisioner)
    case HostpathDep => Key(Deployment, OpenebsSpace, LocalPvProvisioner)
    case HostpathSc => Global(StorageClass, HostpathClassOf(spec))
    case ZfsNodesDef => Global(CustomResourceDefinition, ZfsNodesCrd)
    case ZfsVolumesDef => Global(CustomResourceDefinition, ZfsVolumesCrd)
    case ZfsSnapshotsDef => Global(CustomResourceDefinition, ZfsSnapshotsCrd)
    case ZfsSa => Key(ServiceAccount, OpenebsSpace, ZfsController)
    case ZfsCr => Global(ClusterRole, ZfsRole)
    case ZfsCrb => Global(ClusterRoleBinding, ZfsBinding)
    case ZfsControllerDep => Key(Deployment, OpenebsSpace, ZfsController)
    case ZfsBinCm => Key(ConfigMap, OpenebsSpace, ZfsBin)
    case ZfsNodeDs => Key(DaemonSet, OpenebsSpace, ZfsNode)
    case ZfsCsi => Global(CsiDriver, ZfsDriver)
    case ZfsSc => Global(StorageClass, ZfsClassOf(spec))
    case RawfileSa => Key(ServiceAccount, OpenebsSpace, RawfileProvisioner)
    case RawfileCr => Global(ClusterRole, RawfileProvisioner)
    case RawfileCrb => Global(ClusterRoleBinding, RawfileProvisioner)
    case RawfileDep => Key(Deployment, OpenebsSpace, RawfileProvisioner)
    case RawfileSc => Global(StorageClass, RawfileClass)
    case MayastorNs => Global(Namespace, MayastorName)
    case SnapshotClassesDef => Global(CustomResourceDefinition, SnapshotClassesCrd)
    case SnapshotsDef => Global(CustomResourceDefinition, SnapshotsCrd)
    case SnapshotContentsDef => Global(CustomResourceDefinition, SnapshotContentsCrd)
    case MayastorSa => Key(ServiceAccount, MayastorName, MayastorAccount)
    case MayastorCr => Global(ClusterRole, MayastorRole)
    case MayastorCrb => Global(ClusterRoleBinding, MayastorBinding)
    case EtcdSvc => Key(Service, MayastorName, EtcdName)
    case EtcdSts => Key(StatefulSet, MayastorName, EtcdName)
    case EtcdSchedule => Key(Schedule, VeleroSpaceOf(spec), EtcdName)
    case AgentCoreDep => Key(Deployment, MayastorName, AgentCore)
    case AgentCoreSvc => Key(Service, MayastorName, AgentCore)
    case ApiRestSvc => Key(Service, MayastorName, ApiRest)
    case ApiRestDep => Key(Deployment, MayastorName, ApiRest)
    case CsiControllerDep => Key(Deployment, MayastorName, CsiController)
    case IoEngineDs => Key(DaemonSet, MayastorName, IoEngine)
    case MetricsSvc => Key(Service, MayastorName, MetricsExporter)
    case CsiNodeDs => Key(DaemonSet, MayastorName, CsiNode)
    case HaNodeDs => Key(DaemonSet, MayastorName, HaNode)
    case DiskpoolDep => Key(Deployment, MayastorName, Diskpool)
    case MayastorCsi => Global(CsiDriver, MayastorDriver)
    case MayastorSc => Global(StorageClass, MayastorClassOf(spec))
    case MayastorVsc => Global(VolumeSnapshotClass, SnapshotClassOf(spec))
  }

  // ---- Builders ----

  function LabelsFor(component: string): Labels {
    map["app.kubernetes.io/name" := "openebs", "app.kubernetes.io/component" := component, MANAGED_BY := OPERATOR_NAME]
  }

  /** The component label of each object; the two local CSI cluster roles and the CRDs carry none. */
  function LabelsOf(c: Component): Labels {
    match c
    case OpenebsNs => PodSecurity()
    case MayastorNs => PodSecurity()
    case LvmSa => LabelsFor("lvm-rbac")
    case LvmCr => map[]
    case LvmCrb => LabelsFor("lvm-rbac")
    case LvmControllerDep => LabelsFor("lvm-controller")
    case LvmNodeDs => LabelsFor("lvm-node")
    case LvmCsi => LabelsFor("lvm-csidriver")
    case LvmSc => LabelsFor("lvm-sc")
    case HostpathSa => LabelsFor("hostpath-rbac")
    case HostpathCr => LabelsFor("hostpath-rbac")
    case HostpathCrb => LabelsFor("hostpath-rbac")
    case HostpathDep => LabelsFor("hostpath-provisioner")
    case HostpathSc => LabelsFor("hostpath-sc")
    case ZfsSa => LabelsFor("zfs-rbac")
    case ZfsCr => map[]
    case ZfsCrb => LabelsFor("zfs-rbac")
    case ZfsControllerDep => LabelsFor("zfs-controller")
    case ZfsBinCm => LabelsFor("zfs-bin")
    case ZfsNodeDs => LabelsFor("zfs-node")
    case ZfsCsi => LabelsFor("zfs-csidriver")
    case ZfsSc => LabelsFor("zfs-sc")
    case RawfileSa => LabelsFor("rawfile-rbac")
    case RawfileCr => LabelsFor("rawfile-rbac")
    case RawfileCrb => LabelsFor("rawfile-rbac")
    case RawfileDep => LabelsFor("rawfile-provisioner")
    case RawfileSc => LabelsFor("rawfile-sc")
    case MayastorSa => LabelsFor("mayastor-rbac")
    case MayastorCr => LabelsFor("mayastor-rbac")
    case MayastorCrb => LabelsFor("mayastor-rbac")
    case EtcdSvc => LabelsFor("mayastor-etcd")
    case EtcdSts => LabelsFor("mayastor-etcd")
    case EtcdSchedule => LabelsFor("mayastor-etcd-velero")
    case AgentCoreDep => LabelsFor("mayastor-agent-core")
    case AgentCoreSvc => LabelsFor("mayastor-agent-core")
    case ApiRestSvc => LabelsFor("mayastor-api-rest")
    case ApiRestDep => LabelsFor("mayastor-api-rest")
    case CsiControllerDep => LabelsFor("mayastor-csi-controller")
    case IoEngineDs => LabelsFor("mayastor-io-engine")
    case MetricsSvc => LabelsFor("mayastor-io-engine")
    case CsiNodeDs => LabelsFor("mayastor-csi-node")
    case HaNodeDs => LabelsFor("mayastor-ha-node")
    case DiskpoolDep => LabelsFor("mayastor-operator-diskpool")
    case MayastorCsi => LabelsFor("mayastor-csidriver")
    case MayastorSc => LabelsFor("mayastor-sc")
    case MayastorVsc => map["app.kubernetes.io/name" := "mayastor-snapshot", MANAGED_BY := OPERATOR_NAME]
    case _ => map[]
  }

  function PodSecurity(): Labels {
    map[ "pod-security.kubernetes.io/enforce" := "privileged",
      "pod-security.kubernetes.io/warn" := "privileged",
      "pod-security.kubernetes.io/audit" := "privileged"]
  }

  function OrDefault(text: string, default: string): string {
    if text == "" then default else text
  }

  function EtcdSize(spec: Spec): Quantity {
    if spec.mayastor.Some? && spec.mayastor.value.etcdSize.Some? then spec.mayastor.value.etcdSize.value
    else Quantity(10, Gi)
  }

  function EtcdClass(spec: Spec): Option<string> {
    if spec.mayastor.Some? && spec.mayastor.value.etcdClass != "" then Some(spec.mayastor.value.etcdClass) else None
  }

  function EtcdSet(spec: Spec): SetSpec {
    SetSpec(EtcdName, Parallel, LabelsFor("mayastor-etcd"),
            [Claim("data", map["app" := "etcd"], false, false,
                   ClaimSpec(EtcdSize(spec), EtcdClass(spec), Some(Filesystem)))])
  }

  function LvmParameters(spec: Spec): map<string, string> {
    map["storage" := "lvm",
        "volgroup" := OrDefault(if spec.lvm.Some? then spec.lvm.value.volumeGroup else "", "lvmvg")]
  }

  function ZfsParameters(spec: Spec): map<string, string> {
    map["poolname" := OrDefault(if spec.zfs.Some? then spec.zfs.value.poolName else "", "zfspool"),
        "fstype" := "zfs"]
  }

  function HostpathParameters(spec: Spec): map<string, string> {
    map["storage" := "hostpath",
        "BasePath" := OrDefault(if spec.hostpath.Some? then spec.hostpath.value.basePath else "", "/var/openebs/local")]
  }

  function RawfileParameters(spec: Spec): map<string, string> {
    map["basePath" := OrDefault(if spec.rawfile.Some? then spec.rawfile.value.basePath else "", "/var/openebs/rawfile")]
  }

  function FixedOf(c: Component, spec: Spec): Fixed {
    match c
    case LvmCrb => RoleRef(LvmRole)
    case HostpathCrb => RoleRef(LocalPvProvisioner)
    case ZfsCrb => RoleRef(ZfsRole)
    case RawfileCrb => RoleRef(RawfileProvisioner)
    case MayastorCrb => RoleRef(MayastorRole)
    case LvmCsi => Attach(true)
    case ZfsCsi => Attach(true)
    case MayastorCsi => Attach(true)
    case LvmSc => Parameters(LvmDriver, LvmParameters(spec))
    case HostpathSc => Parameters(HostpathDriver, HostpathParameters(spec))
    case ZfsSc => Parameters(ZfsDriver, ZfsParameters(spec))
    case RawfileSc => Parameters(RawfileDriver, RawfileParameters(spec))
    case MayastorSc => Parameters(MayastorDriver, map["repl" := "1", "protocol" := "nvmf"])
    case EtcdSvc => Ip(NoAddress)
    case AgentCoreSvc => Ip(Unassigned)
    case ApiRestSvc => Ip(Unassigned)
    case MetricsSvc => Ip(Unassigned)
    case EtcdSts => Set(EtcdSet(spec))
    case LvmControllerDep => Selector(LabelsOf(c))
    case LvmNodeDs => Selector(LabelsOf(c))
    case HostpathDep => Selector(LabelsOf(c))
    case ZfsControllerDep => Selector(LabelsOf(c))
    case ZfsNodeDs => Selector(LabelsOf(c))
    case RawfileDep => Selector(LabelsOf(c))
    case AgentCoreDep => Selector(LabelsOf(c))
    case ApiRestDep => Selector(LabelsOf(c))
    case CsiControllerDep => Selector(LabelsOf(c))
    case IoEngineDs => Selector(LabelsOf(c))
    case CsiNodeDs => Selector(LabelsOf(c))
    case HaNodeDs => Selector(LabelsOf(c))
    case DiskpoolDep => Selector(LabelsOf(c))
    case _ => Unfixed
  }

  /** Whether a builder reads the instance for more than a name. */
  predicate ReadsSpec(c: Component) {
    c in {LvmControllerDep, LvmNodeDs, LvmSc, HostpathDep, HostpathSc, ZfsControllerDep, ZfsNodeDs, ZfsSc,
          RawfileDep, RawfileSc, EtcdSts, EtcdSchedule, AgentCoreDep, ApiRestDep, CsiControllerDep, IoEngineDs,
          CsiNodeDs, HaNodeDs, DiskpoolDep, MayastorSc}
  }

  function Build(c: Component, spec: Spec): Object {
    Object(0, LabelsOf(c), [], FixedOf(c, spec), if ReadsSpec(c) then Rendered(c, spec) else Constant(c), 0)
  }

  // ---- What a workload refers to ----

  /** The objects a pod template names: its service account, and for the ZFS node its scripts. Every
      pod also needs the namespace it lives in. */
  function Needs(c: Component): set<Component> {
    match c
    case LvmControllerDep => {OpenebsNs, LvmSa}
    case LvmNodeDs => {OpenebsNs, LvmSa}
    case HostpathDep => {OpenebsNs, HostpathSa}
    case ZfsControllerDep => {OpenebsNs, ZfsSa}
    case ZfsNodeDs => {OpenebsNs, ZfsSa, ZfsBinCm}
    case RawfileDep => {OpenebsNs, RawfileSa}
    case AgentCoreDep => {MayastorNs, MayastorSa}
    case ApiRestDep => {MayastorNs, MayastorSa}
    case CsiControllerDep => {MayastorNs, MayastorSa}
    case IoEngineDs => {MayastorNs, MayastorSa}
    case CsiNodeDs => {MayastorNs, MayastorSa}
    case HaNodeDs => {MayastorNs, MayastorSa}
    case DiskpoolDep => {MayastorNs, MayastorSa}
    case _ => {}
  }

  // ---- Which engines, and what each applies ----

  predicate Enabled(e: Engine, spec: Spec) {
    match e
    case Lvm => spec.lvm.Some? && spec.lvm.value.enabled
    case Zfs => spec.zfs.Some? && spec.zfs.value.enabled
    case Hostpath => spec.hostpath.Some? && spec.hostpath.value.enabled
    case Rawfile => spec.rawfile.Some? && spec.rawfile.value.enabled
    case Mayastor => spec.mayastor.Some? && spec.mayastor.value.enabled
  }

  /** How one component is brought about. */
  datatype Step =
    | Space(c: Component)          // ensureNamespace
    | Plain(c: Component)          // apply
    | Definition(c: Component)     // applyUnstructured
    | Headless(c: Component)       // applyService
    | Healthy                      // etcdHealthCheck
    | Stateful(c: Component)       // applyStatefulSet
    | Backup                       // reconcileEtcdVeleroSchedule
    | Class(c: Component)          // applyStorageClass

  function LvmPlan(): seq<Step> {
    [ Space(OpenebsNs),
      Definition(LvmNodesDef), Definition(LvmVolumesDef), Definition(LvmSnapshotsDef),
      Plain(LvmSa), Plain(LvmCr), Plain(LvmCrb),
      Plain(LvmControllerDep), Plain(LvmNodeDs), Plain(LvmCsi), Class(LvmSc)]
  }

  function HostpathPlan(): seq<Step> {
    [ Space(OpenebsNs),
      Plain(HostpathSa), Plain(HostpathCr), Plain(HostpathCrb),
      Plain(HostpathDep), Class(HostpathSc)]
  }

  function ZfsPlan(): seq<Step> {
    [ Space(OpenebsNs),
      Definition(ZfsNodesDef), Definition(ZfsVolumesDef), Definition(ZfsSnapshotsDef),
      Plain(ZfsSa), Plain(ZfsCr), Plain(ZfsCrb),
      Plain(ZfsControllerDep), Plain(ZfsBinCm), Plain(ZfsNodeDs), Plain(ZfsCsi), Class(ZfsSc)]
  }

  function RawfilePlan(): seq<Step> {
    [ Space(OpenebsNs),
      Plain(RawfileSa), Plain(RawfileCr), Plain(RawfileCrb),
      Plain(RawfileDep), Class(RawfileSc)]
  }

  function EtcdPlan(): seq<Step> {
    [ Space(MayastorNs),
      Definition(SnapshotClassesDef), Definition(SnapshotsDef), Definition(SnapshotContentsDef),
      Plain(MayastorSa), Plain(MayastorCr), Plain(MayastorCrb),
      Headless(EtcdSvc), Healthy, Stateful(EtcdSts), Backup]
  }

  /** What Mayastor brings up once its etcd is there: the control plane, then the nodes. */
  function ControlPlan(): seq<Step> {
    [ Plain(AgentCoreDep), Plain(AgentCoreSvc), Plain(ApiRestSvc), Plain(ApiRestDep), Plain(CsiControllerDep),
      Plain(IoEngineDs)]
  }

  function NodePlan(): seq<Step> {
    [ Plain(MetricsSvc), Plain(CsiNodeDs), Plain(HaNodeDs), Plain(DiskpoolDep),
      Plain(MayastorCsi), Class(MayastorSc), Definition(MayastorVsc)]
  }

  function ServicePlan(): seq<Step> {
    ControlPlan() + NodePlan()
  }

  function Plan(e: Engine): seq<Step> {
    match e
    case Lvm => LvmPlan()
    case Zfs => ZfsPlan()
    case Hostpath => HostpathPlan()
    case Rawfile => RawfilePlan()
    case Mayastor => EtcdPlan() + ServicePlan()
  }

  /** The order in which a reconcile deploys the engines. */
  function Engines(): seq<Engine> {
    [Lvm, Zfs, Hostpath, Rawfile, Mayastor]
  }

  // ---- Which names a spec accounts for ----

  function Chosen(choice: Option<Name>): set<Name> {
    if choice.Some? then {choice.value} else {}
  }

  function MayastorNames(): set<Name> {
    { EtcdName, AgentCore, ApiRest, CsiController, IoEngine, CsiNode, HaNode, Diskpool, MayastorAccount,
      MayastorRole, MayastorBinding, MayastorDriver, MayastorName, SnapshotClassName,
      SnapshotClassesCrd, SnapshotsCrd, SnapshotContentsCrd}
  }

  function ExpectedOf(e: Engine, spec: Spec): set<Name> {
    if !Enabled(e, spec) then {}
    else match e
         case Lvm =>
           {LvmController, LvmNode, LvmDriver, LvmClass, LvmRole, LvmBinding} + Chosen(spec.lvm.value.className)
         case Hostpath => {LocalPvProvisioner, HostpathClass} + Chosen(spec.hostpath.value.className)
         case Zfs =>
           {ZfsController, ZfsNode, ZfsDriver, ZfsClass, ZfsRole, ZfsBinding} + Chosen(spec.zfs.value.className)
         case Rawfile => {RawfileProvisioner, RawfileClass, RawfileRole, RawfileBinding}
         case Mayastor =>
           MayastorNames() + Chosen(spec.mayastor.value.className) + Chosen(spec.mayastor.value.snapshotClassName)
  }

  function Expected(spec: Spec): set<Name> {
    ExpectedOf(Lvm, spec) + ExpectedOf(Hostpath, spec) + ExpectedOf(Zfs, spec) + ExpectedOf(Rawfile, spec)
    + ExpectedOf(Mayastor, spec)
  }

  /** The map of expected names, filled in engine by engine. */
  method ExpectedResources(spec: Spec) returns (resources: set<Name>)
    ensures resources == Expected(spec)
  {
    hide MayastorNames;
    resources := {};
    if spec.lvm.Some? && spec.lvm.value.enabled {
      resources := resources + {LvmController, LvmNode, LvmDriver, LvmClass, LvmRole, LvmBinding};
      resources := AddChosen(resources, spec.lvm.value.className);
    }
    assert resources == ExpectedOf(Lvm, spec);
    if spec.hostpath.Some? && spec.hostpath.value.enabled {
      resources := resources + {LocalPvProvisioner, HostpathClass};
      resources := AddChosen(resources, spec.hostpath.value.className);
    }
    assert resources == ExpectedOf(Lvm, spec) + ExpectedOf(Hostpath, spec);
    ghost var local := resources;
    if spec.zfs.Some? && spec.zfs.value.enabled {
      resources := resources + {ZfsController, ZfsNode, ZfsDriver, ZfsClass, ZfsRole, ZfsBinding};
      resources := AddChosen(resources, spec.zfs.value.className);
    }
    assert resources == local + ExpectedOf(Zfs, spec);
    local := resources;
    if spec.rawfile.Some? && spec.rawfile.value.enabled {
      resources := resources + {RawfileProvisioner, RawfileClass, RawfileRole, RawfileBinding};
    }
    assert resources == local + ExpectedOf(Rawfile, spec);
    local := resources;
    if spec.mayastor.Some? && spec.mayastor.value.enabled {
      resources := resources + MayastorNames();
      resources := AddChosen(resources, spec.mayastor.value.className);
      resources := AddChosen(resources, spec.mayastor.value.snapshotClassName);
    }
    assert resources == local + ExpectedOf(Mayastor, spec);
  }

  method AddChosen(names: set<Name>, choice: Option<Name>) returns (r: set<Name>)
    ensures r == names + Chosen(choice)
  {
    r := names;
    if choice.Some? {
      r := r + {choice.value};
    }
  }

  /** A deployment of Mayastor applies the backup schedule when this holds and removes it when not. */
  predicate ScheduleConfigured(spec: Spec) {
    spec.mayastor.Some? && spec.mayastor.value.veleroSchedule != ""
  }

  predicate ScheduleWanted(spec: Spec) {
    spec.mayastor.Some? && spec.mayastor.value.enabled && spec.mayastor.value.veleroSchedule != ""
  }

  // ---- What a teardown deletes ----

  function FixedTeardown(): seq<Key> {
    [ Key(Deployment, OpenebsSpace, LvmController),
      Key(DaemonSet, OpenebsSpace, LvmNode),
      Key(Deployment, OpenebsSpace, LocalPvProvisioner),
      Key(Deployment, OpenebsSpace, ZfsController),
      Key(DaemonSet, OpenebsSpace, ZfsNode),
      Key(ConfigMap, OpenebsSpace, ZfsBin),
      Key(Deployment, OpenebsSpace, RawfileProvisioner),
      Key(CsiDriver, NoNamespace, LvmDriver),
      Key(CsiDriver, NoNamespace, ZfsDriver),
      Key(StorageClass, NoNamespace, LvmClass),
      Key(StorageClass, NoNamespace, HostpathClass),
      Key(StorageClass, NoNamespace, ZfsClass),
      Key(StorageClass, NoNamespace, RawfileClass),
      Key(StatefulSet, MayastorName, EtcdName),
      Key(Deployment, MayastorName, AgentCore),
      Key(Service, MayastorName, AgentCore),
      Key(Deployment, MayastorName, ApiRest),
      Key(Deployment, MayastorName, CsiController),
      Key(DaemonSet, MayastorName, IoEngine),
      Key(Service, MayastorName, MetricsExporter),
      Key(DaemonSet, MayastorName, CsiNode),
      Key(DaemonSet, MayastorName, HaNode),
      Key(Deployment, MayastorName, Diskpool),
      Key(CsiDriver, NoNamespace, MayastorDriver),
      Key(StorageClass, NoNamespace, MayastorName),
      Key(CustomResourceDefinition, NoNamespace, LvmNodesCrd),
      Key(CustomResourceDefinition, NoNamespace, LvmVolumesCrd),
      Key(CustomResourceDefinition, NoNamespace, LvmSnapshotsCrd),
      Key(CustomResourceDefinition, NoNamespace, ZfsNodesCrd),
      Key(CustomResourceDefinition, NoNamespace, ZfsVolumesCrd),
      Key(CustomResourceDefinition, NoNamespace, ZfsSnapshotsCrd),
      Key(CustomResourceDefinition, NoNamespace, SnapshotClassesCrd),
      Key(CustomResourceDefinition, NoNamespace, SnapshotsCrd),
      Key(CustomResourceDefinition, NoNamespace, SnapshotContentsCrd),
      Key(VolumeSnapshotClass, NoNamespace, SnapshotClassName)]
  }

  function TeardownKeys(spec: Spec): seq<Key> {
    FixedTeardown() + [KeyOf(EtcdSchedule, spec)]
  }
}
