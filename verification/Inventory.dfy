/** What a store at rest holds, said in the fields of its objects. */
module Inventory {
  import opened Wrappers
  import opened Objects
  import opened Api
  import opened Components
  import opened Strategies
  import opened Drift
  import opened Traces
  import opened Effects
  import opened Passes
  import opened Plans
  import opened Agreement
  import opened Calm
  import opened Convergence

  /** The stored object is the operator's for the instance, and as the component is built. */
  ghost predicate Delivered(s: State, k: Key, c: Component, inst: Instance) {
    exists x :: Holds(s, k, x) && x.owners == [OwnerRef(inst.uid, true)] && x.labels == LabelsOf(c)
                && x.body == (if ReadsSpec(c) then Rendered(c, inst.spec) else Constant(c))
                && Keepable(TaskOf(c, inst), x)
  }

  lemma TaskIs(c: Component, inst: Instance)
    requires !IsNamespace(c) && c != EtcdSchedule
    ensures var t := TaskOf(c, inst);
            && t.key == KeyOf(c, inst.spec) && t.way != AsNamespace && !t.way.AsSchedule?
            && t.desired.owners == [OwnerRef(inst.uid, true)] && t.desired.labels == LabelsOf(c)
            && t.desired.body == if ReadsSpec(c) then Rendered(c, inst.spec) else Constant(c)
  {
    hide KeyOf, LabelsOf, FixedOf, ReadsSpec, IsClass, ScheduleConfigured;
  }

  lemma TaskAtRest(s: State, inst: Instance, c: Component)
    requires AtRest(s, inst) && Enabled(EngineOf(c), inst.spec)
    ensures ConformsAt(s, TaskOf(c, inst))
  {
    hide KeyOf, Enabled, EngineOf, Wanted, Expected, ScheduleWanted, TeardownKeys, Tidied, Drifts, AllRunning,
         ReportFor, Ready, Sane, Serves, TaskOf, ConformsAt;
    EnabledWantsAll(c, inst.spec);
    assert TaskOf(c, inst) in AgendaOf(inst).tasks;
  }

  /** Every component of an enabled engine is there. */
  lemma AllAreThere(s: State, inst: Instance, c: Component)
    requires AtRest(s, inst) && Enabled(EngineOf(c), inst.spec) && !IsNamespace(c) && c != EtcdSchedule
    ensures Delivered(s, KeyOf(c, inst.spec), c, inst)
  {
    hide AtRest, KeyOf, LabelsOf, ReadsSpec, Keepable, Enabled, EngineOf, TaskOf;
    TaskAtRest(s, inst, c);
    TaskIs(c, inst);
    assert Holds(s, KeyOf(c, inst.spec), s.objs[KeyOf(c, inst.spec)]);
  }

  lemma PodsReadSpec(c: Component)
    requires Workload(c) || c == EtcdSts
    ensures ReadsSpec(c) && !IsNamespace(c) && c != EtcdSchedule
  {
  }

  /** The pods are those of the spec as it stands now. */
  lemma PodsFollowTheSpec(s: State, inst: Instance, c: Component)
    requires AtRest(s, inst) && Enabled(EngineOf(c), inst.spec) && (Workload(c) || c == EtcdSts)
    ensures exists x :: Holds(s, KeyOf(c, inst.spec), x) && x.body == Rendered(c, inst.spec)
  {
    hide AtRest, KeyOf, LabelsOf, ReadsSpec, Keepable, Enabled, EngineOf, TaskOf, Workload, IsNamespace;
    PodsReadSpec(c);
    AllAreThere(s, inst, c);
  }

  // ---- Selectors ----

  const COMPONENT_LABEL := "app.kubernetes.io/component"

  /** The labels that a selector asks for are all there. */
  predicate Selects(selector: Labels, labels: Labels) {
    forall l | l in selector :: l in labels && labels[l] == selector[l]
  }

  lemma WorkloadSelector(c: Component, spec: Spec)
    requires Workload(c)
    ensures FixedOf(c, spec) == Selector(LabelsOf(c)) && !IsClass(c) && c != EtcdSvc && c != EtcdSts
  {
    hide LabelsOf;
  }

  /** A workload at rest selects by the labels it carries itself. */
  lemma SelectsItsOwn(s: State, inst: Instance, c: Component)
    requires AtRest(s, inst) && Enabled(EngineOf(c), inst.spec) && Workload(c)
    ensures exists x :: Holds(s, KeyOf(c, inst.spec), x) && x.fixed == Selector(x.labels)
  {
    hide AtRest, KeyOf, LabelsOf, FixedOf, ReadsSpec, Enabled, EngineOf, Workload, ScheduleConfigured, IsClass,
         IsNamespace, DriftFields;
    PodsReadSpec(c);
    WorkloadSelector(c, inst.spec);
    AllAreThere(s, inst, c);
  }

  /** Enough of a component label to tell it from the others. */
  function Tag(text: string): (nat, char, char) {
    (|text|, if |text| > 0 then text[0] else ' ', if |text| > 9 then text[9] else ' ')
  }

  function TagOf(c: Component): (nat, char, char) {
    match c
    case LvmControllerDep => (14, 'l', 'o')
    case LvmNodeDs => (8, 'l', ' ')
    case HostpathDep => (20, 'h', 'p')
    case ZfsControllerDep => (14, 'z', 'o')
    case ZfsNodeDs => (8, 'z', ' ')
    case RawfileDep => (19, 'r', 'r')
    case AgentCoreDep => (19, 'm', 'a')
    case ApiRestDep => (17, 'm', 'a')
    case CsiControllerDep => (23, 'm', 'c')
    case IoEngineDs => (18, 'm', 'i')
    case CsiNodeDs => (17, 'm', 'c')
    case HaNodeDs => (16, 'm', 'h')
    case DiskpoolDep => (26, 'm', 'o')
    case _ => (0, ' ', ' ')
  }

  lemma LabelsForTag(component: string)
    ensures COMPONENT_LABEL in LabelsFor(component) && LabelsFor(component)[COMPONENT_LABEL] == component
  {
    assert |"app.kubernetes.io/name"| != |COMPONENT_LABEL| && COMPONENT_LABEL[18] != MANAGED_BY[18];
  }

  /** The component label of a workload. */
  function TextOf(c: Component): string {
    match c
    case LvmControllerDep => "lvm-controller"
    case LvmNodeDs => "lvm-node"
    case HostpathDep => "hostpath-provisioner"
    case ZfsControllerDep => "zfs-controller"
    case ZfsNodeDs => "zfs-node"
    case RawfileDep => "rawfile-provisioner"
    case AgentCoreDep => "mayastor-agent-core"
    case ApiRestDep => "mayastor-api-rest"
    case CsiControllerDep => "mayastor-csi-controller"
    case IoEngineDs => "mayastor-io-engine"
    case CsiNodeDs => "mayastor-csi-node"
    case HaNodeDs => "mayastor-ha-node"
    case DiskpoolDep => "mayastor-operator-diskpool"
    case _ => ""
  }

  lemma LocalText(c: Component)
    requires Workload(c) && EngineOf(c) != Mayastor
    ensures LabelsOf(c) == LabelsFor(TextOf(c))
  {
    hide LabelsFor;
  }

  lemma MayastorText(c: Component)
    requires Workload(c) && EngineOf(c) == Mayastor
    ensures LabelsOf(c) == LabelsFor(TextOf(c))
  {
    hide LabelsFor;
  }

  lemma LabelsAreForText(c: Component)
    requires Workload(c)
    ensures LabelsOf(c) == LabelsFor(TextOf(c))
  {
    hide LabelsFor, LabelsOf, TextOf, EngineOf, Workload;
    if EngineOf(c) == Mayastor { MayastorText(c); } else { LocalText(c); }
  }

  lemma TextHasTag(c: Component)
    ensures Tag(TextOf(c)) == TagOf(c)
  {
  }

  lemma TagsApart(c: Component, d: Component)
    requires Workload(c) && Workload(d) && TagOf(c) == TagOf(d)
    ensures c == d
  {
  }

  /** No workload selects the pods of another. */
  lemma SelectorsApart(c: Component, d: Component)
    requires Workload(c) && Workload(d) && c != d
    ensures !Selects(LabelsOf(c), LabelsOf(d))
  {
    hide LabelsFor, LabelsOf, Workload, TagOf, TextOf;
    LabelsAreForText(c);
    LabelsAreForText(d);
    LabelsForTag(TextOf(c));
    LabelsForTag(TextOf(d));
    TextHasTag(c);
    TextHasTag(d);
    if TextOf(c) == TextOf(d) { TagsApart(c, d); }
  }

  // ---- Storage classes ----

  ghost predicate StoredClass(s: State, name: Name, driver: Name, values: map<string, string>) {
    exists x :: Holds(s, Key(StorageClass, NoNamespace, name), x) && x.fixed == Parameters(driver, values)
  }

  /** The chosen name, if there is one. */
  function Called(choice: Option<Name>, default: Name): Name {
    match choice
    case Some(name) => name
    case None => default
  }

  function Given(text: string, default: string): string {
    if text != "" then text else default
  }

  lemma ClassIsStored(s: State, inst: Instance, c: Component, name: Name, driver: Name, values: map<string, string>)
    requires AtRest(s, inst) && Enabled(EngineOf(c), inst.spec) && IsClass(c)
    requires KeyOf(c, inst.spec) == Key(StorageClass, NoNamespace, name)
    requires FixedOf(c, inst.spec) == Parameters(driver, values)
    ensures StoredClass(s, name, driver, values)
  {
    hide AtRest, KeyOf, LabelsOf, FixedOf, ReadsSpec, Enabled, EngineOf, ScheduleConfigured, DriftFields;
    AllAreThere(s, inst, c);
  }

  /** The storage class of an enabled engine is stored under the name the user chose, else under the
      default one, with the driver of the engine and what the user configured. */
  lemma LvmClassIsStored(s: State, inst: Instance, config: LvmConfig)
    requires AtRest(s, inst) && inst.spec.lvm == Some(config) && config.enabled
    ensures StoredClass(s, Called(config.className, LvmClass), LvmDriver,
                        map["storage" := "lvm", "volgroup" := Given(config.volumeGroup, "lvmvg")])
  {
    hide AtRest, StoredClass;
    ClassIsStored(s, inst, LvmSc, Called(config.className, LvmClass), LvmDriver,
                  map["storage" := "lvm", "volgroup" := Given(config.volumeGroup, "lvmvg")]);
  }

  lemma ZfsClassIsStored(s: State, inst: Instance, config: ZfsConfig)
    requires AtRest(s, inst) && inst.spec.zfs == Some(config) && config.enabled
    ensures StoredClass(s, Called(config.className, ZfsClass), ZfsDriver,
                        map["poolname" := Given(config.poolName, "zfspool"), "fstype" := "zfs"])
  {
    hide AtRest, StoredClass;
    ClassIsStored(s, inst, ZfsSc, Called(config.className, ZfsClass), ZfsDriver,
                  map["poolname" := Given(config.poolName, "zfspool"), "fstype" := "zfs"]);
  }

  lemma HostpathClassIsStored(s: State, inst: Instance, config: HostpathConfig)
    requires AtRest(s, inst) && inst.spec.hostpath == Some(config) && config.enabled
    ensures StoredClass(s, Called(config.className, HostpathClass), HostpathDriver,
                        map["storage" := "hostpath", "BasePath" := Given(config.basePath, "/var/openebs/local")])
  {
    hide AtRest, StoredClass;
    ClassIsStored(s, inst, HostpathSc, Called(config.className, HostpathClass), HostpathDriver,
                  map["storage" := "hostpath", "BasePath" := Given(config.basePath, "/var/openebs/local")]);
  }

  lemma RawfileClassIsStored(s: State, inst: Instance, config: RawfileConfig)
    requires AtRest(s, inst) && inst.spec.rawfile == Some(config) && config.enabled
    ensures StoredClass(s, RawfileClass, RawfileDriver,
                        map["basePath" := Given(config.basePath, "/var/openebs/rawfile")])
  {
    hide AtRest, StoredClass;
    ClassIsStored(s, inst, RawfileSc, RawfileClass, RawfileDriver,
                  map["basePath" := Given(config.basePath, "/var/openebs/rawfile")]);
  }

  lemma MayastorClassIsStored(s: State, inst: Instance, config: MayastorConfig)
    requires AtRest(s, inst) && inst.spec.mayastor == Some(config) && config.enabled
    ensures StoredClass(s, Called(config.className, MayastorName), MayastorDriver,
                        map["repl" := "1", "protocol" := "nvmf"])
  {
    hide AtRest, StoredClass, LabelsOf;
    ClassIsStored(s, inst, MayastorSc, Called(config.className, MayastorName), MayastorDriver,
                  map["repl" := "1", "protocol" := "nvmf"]);
  }

  lemma SnapshotClassKey(spec: Spec, config: MayastorConfig)
    requires spec.mayastor == Some(config)
    ensures KeyOf(MayastorVsc, spec)
         == Key(VolumeSnapshotClass, NoNamespace, Called(config.snapshotClassName, SnapshotClassName))
    ensures EngineOf(MayastorVsc) == Mayastor && !IsNamespace(MayastorVsc)
  {
  }

  lemma SnapshotClassIsStored(s: State, inst: Instance, config: MayastorConfig)
    requires AtRest(s, inst) && inst.spec.mayastor == Some(config) && config.enabled
    ensures Key(VolumeSnapshotClass, NoNamespace, Called(config.snapshotClassName, SnapshotClassName)) in s.objs
  {
    hide AtRest, KeyOf, EngineOf, Delivered, Called;
    SnapshotClassKey(inst.spec, config);
    AllAreThere(s, inst, MayastorVsc);
    DeliveredIsThere(s, KeyOf(MayastorVsc, inst.spec), MayastorVsc, inst);
  }

  lemma DeliveredIsThere(s: State, k: Key, c: Component, inst: Instance)
    requires Delivered(s, k, c, inst)
    ensures k in s.objs
  {
    hide LabelsOf, ReadsSpec, Keepable, TaskOf;
  }

  // ---- Drivers and services ----

  lemma DriverFields(c: Component, spec: Spec)
    requires c in {LvmCsi, ZfsCsi, MayastorCsi}
    ensures FixedOf(c, spec) == Attach(true) && !IsClass(c)
  {
    hide LabelsOf;
  }

  /** The CSI drivers at rest are those that need their volumes attached. */
  lemma DriversAttach(s: State, inst: Instance, c: Component)
    requires AtRest(s, inst) && Enabled(EngineOf(c), inst.spec) && c in {LvmCsi, ZfsCsi, MayastorCsi}
    ensures exists x :: Holds(s, KeyOf(c, inst.spec), x) && x.fixed == Attach(true)
  {
    hide AtRest, KeyOf, LabelsOf, FixedOf, ReadsSpec, Enabled, EngineOf, ScheduleConfigured, IsClass, DriftFields;
    DriverFields(c, inst.spec);
    AllAreThere(s, inst, c);
  }

  /** Of the services only that of etcd is headless: the others get an address when they are made. */
  lemma ServicesGetAddresses(s: State, inst: Instance, c: Component)
    requires c in {EtcdSvc, AgentCoreSvc, ApiRestSvc, MetricsSvc}
    ensures Admitted(s, TaskOf(c, inst).desired).fixed == Ip(if c == EtcdSvc then NoAddress else Address(s.clock))
  {
    hide KeyOf, LabelsOf, ReadsSpec, IsClass, ScheduleConfigured;
  }

  // ---- The etcd set and its schedule ----

  /** The template is for a volume of that size and class. */
  predicate AsksFor(claim: Claim, size: Option<Quantity>, className: string) {
    && claim.name == "data" && claim.spec.mode == Some(Filesystem)
    && claim.spec.storage.Bytes() == (match size
                                      case Some(q) => q.Bytes()
                                      case None => Quantity(10, Gi).Bytes())
    && claim.spec.className == (if className == "" then None else Some(className))
  }

  /** The set is one with one template, for a volume of that size and class. */
  predicate IsSetFor(fixed: Fixed, size: Option<Quantity>, className: string) {
    match fixed
    case Set(spec) =>
      && |spec.claims| == 1 && AsksFor(spec.claims[0], size, className)
      && spec.serviceName == EtcdName && spec.management == Parallel
    case _ => false
  }

  lemma DesiredTemplate(spec: Spec, config: MayastorConfig, x: SetSpec)
    requires spec.mayastor == Some(config) && !SetsDiffer(x, EtcdSet(spec))
    ensures IsSetFor(Set(x), config.etcdSize, config.etcdClass)
  {
    assert !ClaimDiffers(x.claims[0], EtcdSet(spec).claims[0]);
  }

  /** The etcd set has one template, for the size and class the user chose, else for the default ones. */
  lemma SetIsAsAsked(s: State, inst: Instance, config: MayastorConfig)
    requires AtRest(s, inst) && inst.spec.mayastor == Some(config) && config.enabled
    ensures exists x :: Holds(s, Key(StatefulSet, MayastorName, EtcdName), x)
                        && IsSetFor(x.fixed, config.etcdSize, config.etcdClass)
  {
    hide AtRest, KeyOf, LabelsOf, FixedOf, ReadsSpec, DriftFields, EtcdSet, IsSetFor, SetsDiffer, EngineOf, TaskOf;
    EtcdKinds(inst.spec);
    EtcdTurn();
    SetFields(inst);
    AllAreThere(s, inst, EtcdSts);
    var x :| Holds(s, ETCD_KEY, x) && Keepable(TaskOf(EtcdSts, inst), x);
    assert TaskOf(EtcdSts, inst).way == AsSet by { SetWay(inst); }
    SanelyPlaced(s, ETCD_KEY) by { RestIsSane(s, inst); }
    DriftFieldsAre(SetOf(x), EtcdSet(inst.spec));
    DesiredTemplate(inst.spec, config, SetOf(x));
  }

  lemma SetWay(inst: Instance)
    ensures TaskOf(EtcdSts, inst).way == AsSet
  {
    hide KeyOf, Desired;
  }

  lemma RestIsSane(s: State, inst: Instance)
    requires AtRest(s, inst)
    ensures Sane(s)
  {
    hide Sane, Ready, Serves, Drifts, Tidied, AllConform, AgendaOf, AllRunning, ReportFor;
  }

  lemma ScheduleKey(spec: Spec, config: MayastorConfig)
    requires spec.mayastor == Some(config)
    ensures KeyOf(EtcdSchedule, spec) == Key(Schedule, Called(config.veleroSpace, VeleroSpace), EtcdName)
  {
  }

  /** The backup schedule is stored where and when the user wants it, Velero permitting, and only then. */
  lemma ScheduleIsAsAsked(s: State, inst: Instance, config: MayastorConfig)
    requires AtRest(s, inst) && inst.spec.mayastor == Some(config)
    ensures var k := Key(Schedule, Called(config.veleroSpace, VeleroSpace), EtcdName);
            if config.enabled && config.veleroSchedule != "" then s.velero ==> k in s.objs
            else k !in s.objs
  {
    hide Sane, Ready, Drifts, AllRunning, ReportFor, Serves, Wanted, EngineOf, Keepable, TaskOf, Stray, Expected,
         TeardownKeys, KeyOf, Called;
    EtcdTurn();
    ScheduleTask(inst);
    ScheduleKey(inst.spec, config);
    if config.enabled {
      EnabledWantsAll(EtcdSchedule, inst.spec);
      assert TaskOf(EtcdSchedule, inst) in AgendaOf(inst).tasks;
      assert ConformsAt(s, TaskOf(EtcdSchedule, inst));
    }
  }

  // ---- Namespaces ----

  predicate Privileged(labels: Labels) {
    && "pod-security.kubernetes.io/enforce" in labels && labels["pod-security.kubernetes.io/enforce"] == "privileged"
    && "pod-security.kubernetes.io/warn" in labels && labels["pod-security.kubernetes.io/warn"] == "privileged"
    && "pod-security.kubernetes.io/audit" in labels && labels["pod-security.kubernetes.io/audit"] == "privileged"
  }

  lemma PrivilegedMeans(labels: Labels)
    ensures labels + PodSecurity() == labels <==> Privileged(labels)
  {
    var more := labels + PodSecurity();
    assert more["pod-security.kubernetes.io/enforce"] == "privileged";
    assert more["pod-security.kubernetes.io/warn"] == "privileged";
    assert more["pod-security.kubernetes.io/audit"] == "privileged";
    if Privileged(labels) {
      assert forall l | l in more :: l in labels && more[l] == labels[l];
    }
  }

  /** The namespace of every enabled engine lets privileged pods in. */
  lemma SpacesAreOpen(s: State, inst: Instance, e: Engine)
    requires AtRest(s, inst) && Enabled(e, inst.spec)
    ensures exists x :: Holds(s, Key(Namespace, NoNamespace, if e == Mayastor then MayastorName else OpenebsSpace), x)
                        && Privileged(x.labels)
  {
    hide KeyOf, Plan, Enabled, EngineOf, Wanted, Expected, ScheduleWanted, TeardownKeys, Tidied, Drifts, AllRunning,
         ReportFor, Ready, Sane, Serves, IsClass, ScheduleConfigured, PodSecurity, Privileged, Desired;
    PlansStart(e);
    StepTask(e, 0, inst);
    RootKeys(inst.spec);
    var t := TaskAt(e, 0, inst);
    assert ConformsAt(s, t);
    var x := s.objs[t.key];
    PrivilegedMeans(x.labels);
  }

  /** And where they are so already, nothing is written. */
  lemma PrivilegedIsLeft(w: World, k: Key, o: Object, x: Object)
    requires Call(w, Get(k)).1 == Got(x) && Privileged(x.labels)
    ensures EnsureNamespace(w, k, o) == (Call(w, Get(k)).0, None)
  {
    hide Call, PodSecurity, Privileged;
    PrivilegedMeans(x.labels);
  }

  // ---- Roles ----

  /** The binding names the cluster role that its own plan brings about before it. */
  ghost predicate BoundTo(c: Component, d: Component, spec: Spec) {
    && KeyOf(d, spec).kind == ClusterRole && FixedOf(c, spec) == RoleRef(KeyOf(d, spec).name)
    && exists i: nat, j: nat :: j < i < |Plan(EngineOf(c))|
                                && ComponentOf(StepAt(EngineOf(c), i)) == c && ComponentOf(StepAt(EngineOf(c), j)) == d
  }

  function RoleOf(c: Component): Component {
    match EngineOf(c)
    case Lvm => LvmCr
    case Zfs => ZfsCr
    case Hostpath => HostpathCr
    case Rawfile => RawfileCr
    case Mayastor => MayastorCr
  }

  lemma BindingsAre(c: Component, spec: Spec)
    ensures KeyOf(c, spec).kind == ClusterRoleBinding ==> c in {LvmCrb, ZfsCrb, HostpathCrb, RawfileCrb, MayastorCrb}
  {
    hide KeyOf, IsClass;
    ComponentAtKey(c, spec);
  }

  lemma RolesAreNamed(c: Component, spec: Spec)
    requires c in {LvmCrb, ZfsCrb, HostpathCrb, RawfileCrb, MayastorCrb}
    ensures KeyOf(RoleOf(c), spec).kind == ClusterRole && FixedOf(c, spec) == RoleRef(KeyOf(RoleOf(c), spec).name)
    ensures TurnOf(RoleOf(c)) < TurnOf(c) && EngineOf(RoleOf(c)) == EngineOf(c)
  {
    hide LabelsOf, EtcdSet, LvmParameters, ZfsParameters, HostpathParameters, RawfileParameters;
  }

  lemma BindingsAreBound(c: Component, spec: Spec)
    requires KeyOf(c, spec).kind == ClusterRoleBinding
    ensures exists d :: BoundTo(c, d, spec)
  {
    hide KeyOf, FixedOf, Plan, EngineOf, TurnOf, ComponentOf, RoleOf;
    BindingsAre(c, spec);
    RolesAreNamed(c, spec);
    HasItsTurn(c);
    HasItsTurn(RoleOf(c));
    assert BoundTo(c, RoleOf(c), spec);
  }
}
