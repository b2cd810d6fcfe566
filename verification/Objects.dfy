/** The objects the operator handles: names, kinds, immutable fields, the OpenEBS resource itself. */
module Objects {
  import opened Wrappers

  datatype Kind =
    | Namespace
    | ServiceAccount
    | ClusterRole
    | ClusterRoleBinding
    | Deployment
    | DaemonSet
    | StatefulSet
    | Service
    | ConfigMap
    | CsiDriver
    | StorageClass
    | CustomResourceDefinition
    | VolumeSnapshotClass
    | Schedule

  /** A name is a string. Each string constant of the operator has its own constructor, so that two
      names are equal exactly when their texts are; `Custom` stands for every other text. A class
      name chosen by the user may be any of them. */
  datatype Name =
    | NoNamespace           // "", the namespace of a cluster-scoped object
    | OpenebsSpace          // "openebs"
    | MayastorName          // "mayastor", a namespace and a storage class
    | VeleroSpace           // "velero"
    | LvmController         // "openebs-lvm-controller"
    | LvmRole               // "openebs-lvm-role"
    | LvmBinding            // "openebs-lvm-binding"
    | LvmNode               // "openebs-lvm-node"
    | LvmDriver             // "local.csi.openebs.io"
    | LvmClass              // "openebs-lvm"
    | LvmNodesCrd           // "lvmnodes.local.openebs.io"
    | LvmVolumesCrd         // "lvmvolumes.local.openebs.io"
    | LvmSnapshotsCrd       // "lvmsnapshots.local.openebs.io"
    | LocalPvProvisioner    // "openebs-localpv-provisioner"
    | HostpathClass         // "openebs-hostpath"
    | HostpathDriver        // "openebs.io/local"
    | ZfsController         // "openebs-zfs-controller"
    | ZfsRole               // "openebs-zfs-role"
    | ZfsBinding            // "openebs-zfs-binding"
    | ZfsNode               // "openebs-zfs-node"
    | ZfsBin                // "openebs-zfspv-bin"
    | ZfsDriver             // "zfs.csi.openebs.io"
    | ZfsClass              // "openebs-zfs"
    | ZfsNodesCrd           // "zfsnodes.zfs.openebs.io"
    | ZfsVolumesCrd         // "zfsvolumes.zfs.openebs.io"
    | ZfsSnapshotsCrd       // "zfssnapshots.zfs.openebs.io"
    | RawfileProvisioner    // "openebs-rawfile-provisioner"
    | RawfileRole           // "openebs-rawfile-role", expected but never deployed
    | RawfileBinding        // "openebs-rawfile-binding", expected but never deployed
    | RawfileClass          // "openebs-rawfile"
    | RawfileDriver         // "rawfile.csi.openebs.io"
    | MayastorAccount       // "mayastor-service-account"
    | MayastorRole          // "mayastor-role"
    | MayastorBinding       // "mayastor-binding"
    | EtcdName              // "mayastor-etcd"
    | AgentCore             // "mayastor-agent-core"
    | ApiRest               // "mayastor-api-rest"
    | CsiController         // "mayastor-csi-controller"
    | IoEngine              // "mayastor-io-engine"
    | MetricsExporter       // "mayastor-metrics-exporter-io-engine"
    | CsiNode               // "mayastor-csi-node"
    | HaNode                // "mayastor-agent-ha-node"
    | Diskpool              // "mayastor-operator-diskpool"
    | MayastorDriver        // "io.openebs.csi-mayastor"
    | SnapshotClassName     // "mayastor-snapshot"
    | SnapshotClassesCrd    // "volumesnapshotclasses.snapshot.storage.k8s.io"
    | SnapshotsCrd          // "volumesnapshots.snapshot.storage.k8s.io"
    | SnapshotContentsCrd   // "volumesnapshotcontents.snapshot.storage.k8s.io"
    | Custom(text: string)

  datatype Key = Key(kind: Kind, space: Name, name: Name)

  type Labels = map<string, string>

  const MANAGED_BY := "app.kubernetes.io/managed-by"
  const OPERATOR_NAME := "openebs-operator"

  predicate Managed(labels: Labels) {
    MANAGED_BY in labels && labels[MANAGED_BY] == OPERATOR_NAME
  }

  datatype OwnerRef = OwnerRef(uid: nat, controller: bool)

  /** Whether the first controller reference names the given owner. */
  predicate ControlledBy(owners: seq<OwnerRef>, uid: nat) {
    if owners == [] then false
    else if owners[0].controller then owners[0].uid == uid
    else ControlledBy(owners[1..], uid)
  }

  // ---- Quantities ----

  datatype Unit = One | Ki | Mi | Gi | Ti | K | M | G | T

  function Scale(u: Unit): nat {
    match u
    case One => 1
    case Ki => 1024
    case Mi => 1024 * 1024
    case Gi => 1024 * 1024 * 1024
    case Ti => 1024 * 1024 * 1024 * 1024
    case K => 1000
    case M => 1000 * 1000
    case G => 1000 * 1000 * 1000
    case T => 1000 * 1000 * 1000 * 1000
  }

  /** A storage size as written; two ways of writing one size are semantically equal. */
  datatype Quantity = Quantity(mantissa: nat, suffix: Unit) {
    function Bytes(): nat {
      mantissa * Scale(suffix)
    }
  }

  // ---- Immutable fields ----

  datatype VolumeMode = Filesystem | Block

  datatype ClaimSpec = ClaimSpec(storage: Quantity, className: Option<string>, mode: Option<VolumeMode>)

  predicate SameClaimSpec(a: ClaimSpec, b: ClaimSpec) {
    a.storage.Bytes() == b.storage.Bytes() && a.className == b.className && a.mode == b.mode
  }

  /** A volume claim template. `typed` and `pending` are the type header and the status the API
      server adds; `labels` is the rest of the metadata. */
  datatype Claim = Claim(name: string, labels: Labels, typed: bool, pending: bool, spec: ClaimSpec)

  datatype PodManagement = OrderedReady | Parallel

  datatype SetSpec = SetSpec(serviceName: Name, management: PodManagement, selector: Labels, claims: seq<Claim>)

  datatype ClusterIp = Unassigned | NoAddress | Address(ip: nat)

  /** The part of an object an update may not change. */
  datatype Fixed =
    | Unfixed
    | Selector(labels: Labels)                        // Deployment, DaemonSet
    | RoleRef(role: Name)                             // ClusterRoleBinding
    | Attach(required: bool)                          // CSIDriver
    | Parameters(driver: Name, values: map<string, string>)   // StorageClass
    | Ip(clusterIp: ClusterIp)                        // Service
    | Set(spec: SetSpec)                              // StatefulSet

  // ---- The OpenEBS resource ----

  datatype LvmConfig = LvmConfig(enabled: bool, className: Option<Name>, isDefault: bool, volumeGroup: string)
  datatype HostpathConfig = HostpathConfig(enabled: bool, className: Option<Name>, isDefault: bool, basePath: string)
  datatype ZfsConfig = ZfsConfig(enabled: bool, className: Option<Name>, isDefault: bool, poolName: string)
  datatype RawfileConfig = RawfileConfig(enabled: bool, isDefault: bool, basePath: string)
  datatype MayastorConfig = MayastorConfig(
    enabled: bool,
    className: Option<Name>,
    isDefault: bool,
    snapshotClassName: Option<Name>,
    etcdReplicas: int,
    etcdSize: Option<Quantity>,
    etcdClass: string,
    veleroBackup: bool,
    veleroSchedule: string,
    veleroSpace: Option<Name>)

  /** `None` stands for an absent block, and for an empty class name, size or namespace. `rest` is
      everything only pod templates depend on: images, pull secrets, node selectors, resources. */
  datatype Spec = Spec(
    lvm: Option<LvmConfig>,
    zfs: Option<ZfsConfig>,
    hostpath: Option<HostpathConfig>,
    rawfile: Option<RawfileConfig>,
    mayastor: Option<MayastorConfig>,
    rest: nat)

  datatype Engine = Lvm | Zfs | Hostpath | Rawfile | Mayastor

  datatype Phase = Pending | Installing | Running | Degraded | Failed

  datatype EngineStatus = EngineStatus(engine: Engine, phase: Phase)

  datatype ConditionType = Available | Progressing | IsDegraded | IsFailed

  datatype Condition = Condition(typ: ConditionType, holds: bool, reason: Phase)

  datatype Status = Status(phase: Phase, engines: seq<EngineStatus>, conditions: seq<Condition>)

  datatype Finalizer = OperatorFinalizer | OtherFinalizer(id: nat)

  datatype Instance = Instance(
    uid: nat,
    rv: nat,
    spec: Spec,
    finalizers: set<Finalizer>,
    deleting: bool,
    status: Status)

  // ---- Stored objects ----

  /** One constructor per object the operator builds. */
  datatype Component =
    | OpenebsNs
    | LvmNodesDef | LvmVolumesDef | LvmSnapshotsDef
    | LvmSa | LvmCr | LvmCrb | LvmControllerDep | LvmNodeDs | LvmCsi | LvmSc
    | HostpathSa | HostpathCr | HostpathCrb | HostpathDep | HostpathSc
    | ZfsNodesDef | ZfsVolumesDef | ZfsSnapshotsDef
    | ZfsSa | ZfsCr | ZfsCrb | ZfsControllerDep | ZfsBinCm | ZfsNodeDs | ZfsCsi | ZfsSc
    | RawfileSa | RawfileCr | RawfileCrb | RawfileDep | RawfileSc
    | MayastorNs
    | SnapshotClassesDef | SnapshotsDef | SnapshotContentsDef
    | MayastorSa | MayastorCr | MayastorCrb | EtcdSvc | EtcdSts | EtcdSchedule
    | AgentCoreDep | AgentCoreSvc | ApiRestSvc | ApiRestDep | CsiControllerDep | IoEngineDs | MetricsSvc
    | CsiNodeDs | HaNodeDs | DiskpoolDep | MayastorCsi | MayastorSc | MayastorVsc

  /** The mutable content of an object: what a builder writes, with or without looking at the spec,
      or something the operator did not write. */
  datatype Body = Constant(builder: Component) | Rendered(component: Component, spec: Spec) | Foreign(id: nat)

  /** `rv` is the resource version, 0 when unset; `ready` the ready replicas in the status. */
  datatype Object = Object(rv: nat, labels: Labels, owners: seq<OwnerRef>, fixed: Fixed, body: Body, ready: nat)
}
