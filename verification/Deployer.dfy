/** The deployer and the reconciler as objects that write to the API server and change their own
    arguments, each method tied to the function of the world it carries out. */
module Deployer {
  import opened Wrappers
  import opened Objects
  import opened Api
  import opened Components
  import opened Strategies
  import opened Reconcile

  /** A desired object in the hands of the operator, changed in place while it is applied. */
  class Manifest {
    const key: Key
    var obj: Object

    constructor (c: Component, spec: Spec)
      ensures key == KeyOf(c, spec) && obj == Build(c, spec)
    {
      key, obj := KeyOf(c, spec), Build(c, spec);
    }
  }

  /** How a step of a plan ended; `:-` stops the plan at the first error. */
  datatype Progress = Continue | Stop(error: Error) {
    predicate IsFailure() { Stop? }
    function PropagateFailure(): Progress
      requires Stop?
    {
      this
    }
    function Err(): Option<Error> {
      if Stop? then Some(error) else None
    }
  }

  function ProgressOf(err: Option<Error>): Progress {
    if err.Some? then Stop(err.value) else Continue
  }

  // ---- Drift ----

  method NormalizeClaims(claims: seq<Claim>) returns (out: seq<Claim>)
    ensures |out| == |claims|
    ensures forall i | 0 <= i < |claims| :: out[i] == NormalClaim(claims[i])
  {
    out := claims;
    for i := 0 to |out|
      invariant |out| == |claims|
      invariant forall j | 0 <= j < i :: out[j] == NormalClaim(claims[j])
      invariant forall j | i <= j < |out| :: out[j] == claims[j]
    {
      out := out[i := out[i].(typed := false, pending := false, labels := map[])];
    }
  }

  method VolumeClaimTemplatesEqual(existing: seq<Claim>, desired: seq<Claim>) returns (same: bool)
    ensures same == ClaimsEqual(existing, desired)
  {
    var a := NormalizeClaims(existing);
    var b := NormalizeClaims(desired);
    if |a| != |b| {
      return false;
    }
    for i := 0 to |a|
      invariant forall j | 0 <= j < i :: SemanticallyEqual(NormalClaim(existing[j]), NormalClaim(desired[j]))
    {
      if !SemanticallyEqual(a[i], b[i]) {
        return false;
      }
    }
    return true;
  }

  method StsImmutableDriftFields(existing: SetSpec, desired: SetSpec) returns (fields: seq<Field>)
    ensures fields == DriftFields(existing, desired)
  {
    fields := [];
    if existing.serviceName != desired.serviceName {
      fields := fields + [ServiceNameField];
    }
    if existing.management != desired.management {
      fields := fields + [ManagementField];
    }
    if existing.selector != desired.selector {
      fields := fields + [SelectorField];
    }
    var same := VolumeClaimTemplatesEqual(existing.claims, desired.claims);
    if !same {
      fields := fields + [ClaimsField];
    }
  }

  class Deployer {
    const api: ApiServer
    const inst: Instance
    const order: Ordering

    constructor (api: ApiServer, inst: Instance, order: Ordering)
      ensures this.api == api && this.inst == inst && this.order == order
    {
      this.api, this.inst, this.order := api, inst, order;
    }

    // ---- Apply strategies ----

    method Create(m: Manifest) returns (err: Option<Error>)
      modifies api
      ensures Outcome(api.Current(), m.obj, err) == TryCreate(old(api.Current()), m.key, m.obj)
    {
      var r := api.Do(Request.Create(m.key, m.obj));
      err := ErrorOf(r);
    }

    method Update(m: Manifest) returns (err: Option<Error>)
      modifies api
      ensures Outcome(api.Current(), m.obj, err) == TryUpdate(old(api.Current()), m.key, m.obj)
    {
      var r := api.Do(Request.Update(m.key, m.obj));
      err := ErrorOf(r);
    }

    /** The body that `apply` retries. */
    method AttemptApply(m: Manifest) returns (err: Option<Error>)
      modifies api, m
      ensures Outcome(api.Current(), m.obj, err)
           == Attempt(PlainApply, old(api.Current()), m.key, old(m.obj), inst.uid)
    {
      var r := api.Do(Get(m.key));
      if r.Fail? {
        if r.error != NotFound {
          return Some(r.error);
        }
        err := Create(m);
        return;
      }
      if r.Got? {
        m.obj := m.obj.(rv := r.obj.rv);
        err := Update(m);
        return;
      }
      err := None;
    }

    /** The body that `applyStatefulSet` retries: it takes the stored claim templates over into its
        argument, and a drifted set is deleted rather than updated. */
    method AttemptStatefulSet(m: Manifest) returns (err: Option<Error>)
      modifies api, m
      ensures Outcome(api.Current(), m.obj, err)
           == Attempt(StatefulApply, old(api.Current()), m.key, old(m.obj), inst.uid)
    {
      var r := api.Do(Get(m.key));
      if r.Fail? {
        if r.error != NotFound {
          return Some(r.error);
        }
        err := Create(m);
        return;
      }
      if r.Got? {
        var existing := r.obj;
        var drifted := StsImmutableDriftFields(SetOf(existing), SetOf(m.obj));
        if |drifted| > 0 {
          if !Owned(existing, inst.uid) {
            return Some(NotManaged);
          }
          r := api.Do(Delete(m.key, DriftSite));
          if r.Fail? {
            return Some(r.error);
          }
          return Some(Drifted);
        }
        m.obj := m.obj.(rv := existing.rv, fixed := Set(SetOf(m.obj).(claims := SetOf(existing).claims)));
        err := Update(m);
        return;
      }
      err := None;
    }

    /** The body that `applyService` retries: another cluster address means delete and create again. */
    method AttemptService(m: Manifest) returns (err: Option<Error>)
      modifies api, m
      ensures Outcome(api.Current(), m.obj, err)
           == Attempt(HeadlessApply, old(api.Current()), m.key, old(m.obj), inst.uid)
    {
      var r := api.Do(Get(m.key));
      if r.Fail? {
        if r.error != NotFound {
          return Some(r.error);
        }
        err := Create(m);
        return;
      }
      if r.Got? {
        var existing := r.obj;
        if IpOf(existing) != IpOf(m.obj) {
          if !Owned(existing, inst.uid) {
            return Some(NotManaged);
          }
          r := api.Do(Delete(m.key, RecreateSite));
          if r.Fail? {
            return Some(r.error);
          }
          m.obj := m.obj.(rv := 0);
          err := Create(m);
          return;
        }
        m.obj := m.obj.(rv := existing.rv);
        err := Update(m);
        return;
      }
      err := None;
    }

    method RetryOnConflict(how: Strategy, m: Manifest) returns (err: Option<Error>)
      modifies api, m
      ensures Outcome(api.Current(), m.obj, err)
           == Retry(how, old(api.Current()), m.key, old(m.obj), inst.uid, MAX_TRIES)
    {
      var tries := MAX_TRIES;
      while true
        invariant 0 < tries <= MAX_TRIES
        invariant Retry(how, old(api.Current()), m.key, old(m.obj), inst.uid, MAX_TRIES)
               == Retry(how, api.Current(), m.key, m.obj, inst.uid, tries)
        decreases tries
      {
        match how {
          case PlainApply => err := AttemptApply(m);
          case StatefulApply => err := AttemptStatefulSet(m);
          case HeadlessApply => err := AttemptService(m);
        }
        if err != Some(Conflict) || tries == 1 {
          return;
        }
        tries := tries - 1;
      }
    }

    /** apply, applyStatefulSet and applyService: own the object, then retry its body. */
    method Apply(how: Strategy, m: Manifest) returns (err: Option<Error>)
      modifies api, m
      ensures Outcome(api.Current(), m.obj, err)
           == ApplyObject(how, old(api.Current()), m.key, old(m.obj), inst.uid)
    {
      m.obj := m.obj.(owners := [OwnerRef(inst.uid, true)]);
      err := RetryOnConflict(how, m);
    }

    method ApplyStorageClass(m: Manifest) returns (err: Option<Error>)
      modifies api, m
      ensures (api.Current(), err) == ApplyClass(old(api.Current()), m.key, old(m.obj), inst.uid)
    {
      err := Apply(PlainApply, m);
      if err != Some(Invalid) {
        return;
      }
      var r := api.Do(Get(m.key));
      if r.Fail? {
        return Some(r.error);
      }
      r := api.Do(Delete(m.key, RecreateSite));
      if r.Fail? {
        return Some(r.error);
      }
      m.obj := m.obj.(rv := 0);
      err := Create(m);
    }

    method ApplyUnstructured(m: Manifest) returns (err: Option<Error>)
      modifies api, m
      ensures (api.Current(), err) == ApplyDynamic(old(api.Current()), m.key, old(m.obj), inst.uid)
    {
      m.obj := m.obj.(owners := [OwnerRef(inst.uid, true)]);
      var r := api.Do(Get(m.key));
      if r.Got? {
        m.obj := m.obj.(rv := r.obj.rv);
        err := Update(m);
        return;
      }
      if r != Fail(NotFound) {
        return ErrorOf(r);
      }
      err := Create(m);
    }

    method EnsureNamespace(m: Manifest) returns (err: Option<Error>)
      modifies api, m
      ensures (api.Current(), err) == Strategies.EnsureNamespace(old(api.Current()), m.key, old(m.obj))
    {
      var r := api.Do(Get(m.key));
      if r.Got? {
        m.obj := r.obj.(labels := r.obj.labels + PodSecurity());
        if m.obj == r.obj {
          return None;
        }
        err := Update(m);
        return;
      }
      if r != Fail(NotFound) {
        return ErrorOf(r);
      }
      err := Create(m);
    }

    method EtcdHealthCheck() returns (err: Option<Error>)
      modifies api
      ensures (api.Current(), err) == HealthCheck(old(api.Current()))
    {
      var r := api.Do(Get(ETCD_KEY));
      if r.Fail? {
        return if r.error == NotFound then None else Some(r.error);
      }
      if r.Got? && r.obj.ready == 0 {
        return None;
      }
      r := api.Do(Probe);
      err := ErrorOf(r);
    }

    method DeleteIgnoringAbsence(k: Key, site: Site) returns (err: Option<Error>)
      modifies api
      ensures (api.Current(), err) == DeleteTolerant(old(api.Current()), k, site)
    {
      var r := api.Do(Delete(k, site));
      if r.Fail? && r.error != NotFound && r.error != NoMatch {
        return Some(r.error);
      }
      return None;
    }

    method ReconcileEtcdVeleroSchedule() returns (err: Option<Error>)
      modifies api
      ensures (api.Current(), err) == ReconcileSchedule(old(api.Current()), inst)
    {
      var schedule := new Manifest(EtcdSchedule, inst.spec);
      var configured := inst.spec.mayastor.Some? && inst.spec.mayastor.value.veleroSchedule != "";
      if !configured {
        err := DeleteIgnoringAbsence(schedule.key, UnwantedSite);
        return;
      }
      err := ApplyUnstructured(schedule);
      if err == Some(NoMatch) {
        err := None;
      }
    }

    // ---- Engines ----

    /** Carrying out steps i to j of a plan leads to the same end as what is left from j on, unless
        an error ends the plan here. */
    ghost predicate Carried(plan: seq<Step>, i: nat, j: nat, w: World, p: Progress)
      requires i <= |plan| && j <= |plan|
      reads api
    {
      RunFrom(plan, i, w, inst)
      == if p.Stop? || j == |plan| then (api.Current(), p.Err()) else RunFrom(plan, j, api.Current(), inst)
    }

    method Bring(step: Step, ghost plan: seq<Step>, ghost i: nat) returns (p: Progress)
      requires i < |plan| && plan[i] == step
      modifies api
      ensures Carried(plan, i, i + 1, old(api.Current()), p)
    {
      var err: Option<Error>;
      match step {
        case Space(c) =>
          var m := new Manifest(c, inst.spec);
          err := EnsureNamespace(m);
        case Plain(c) =>
          var m := new Manifest(c, inst.spec);
          err := Apply(PlainApply, m);
        case Definition(c) =>
          var m := new Manifest(c, inst.spec);
          err := ApplyUnstructured(m);
        case Headless(c) =>
          var m := new Manifest(c, inst.spec);
          err := Apply(HeadlessApply, m);
        case Healthy => err := EtcdHealthCheck();
        case Stateful(c) =>
          var m := new Manifest(c, inst.spec);
          err := Apply(StatefulApply, m);
        case Backup => err := ReconcileEtcdVeleroSchedule();
        case Class(c) =>
          var m := new Manifest(c, inst.spec);
          err := ApplyStorageClass(m);
      }
      p := ProgressOf(err);
    }

    /** The three CRDs of an engine, up to the first that fails. */
    method ApplyCrds(defs: seq<Component>, ghost plan: seq<Step>, ghost i: nat) returns (p: Progress)
      requires 0 < |defs| && i + |defs| <= |plan|
      requires forall j | 0 <= j < |defs| :: plan[i + j] == Definition(defs[j])
      modifies api
      ensures Carried(plan, i, i + |defs|, old(api.Current()), p)
    {
      hide RunFrom, RunStep;
      :- Bring(Definition(defs[0]), plan, i);
      for j := 1 to |defs|
        invariant Carried(plan, i, i + j, old(api.Current()), Continue)
      {
        :- Bring(Definition(defs[j]), plan, i + j);
      }
      return Continue;
    }

    method ApplyRbac(sa: Component, role: Component, binding: Component, ghost plan: seq<Step>, ghost i: nat)
      returns (p: Progress)
      requires i + 3 <= |plan|
      requires plan[i] == Plain(sa) && plan[i + 1] == Plain(role) && plan[i + 2] == Plain(binding)
      modifies api
      ensures Carried(plan, i, i + 3, old(api.Current()), p)
    {
      hide RunFrom, RunStep;
      :- Bring(Plain(sa), plan, i);
      :- Bring(Plain(role), plan, i + 1);
      p := Bring(Plain(binding), plan, i + 2);
    }

    method LvmSteps() returns (p: Progress)
      modifies api
      ensures Carried(LvmPlan(), 0, |LvmPlan()|, old(api.Current()), p)
    {
      hide RunFrom, RunStep;
      :- Bring(Space(OpenebsNs), LvmPlan(), 0);
      :- ApplyCrds([LvmNodesDef, LvmVolumesDef, LvmSnapshotsDef], LvmPlan(), 1);
      :- ApplyRbac(LvmSa, LvmCr, LvmCrb, LvmPlan(), 4);
      p := LvmPods();
    }

    method LvmPods() returns (p: Progress)
      modifies api
      ensures Carried(LvmPlan(), 7, |LvmPlan()|, old(api.Current()), p)
    {
      hide RunFrom, RunStep;
      :- Bring(Plain(LvmControllerDep), LvmPlan(), 7);
      :- Bring(Plain(LvmNodeDs), LvmPlan(), 8);
      :- Bring(Plain(LvmCsi), LvmPlan(), 9);
      p := Bring(Class(LvmSc), LvmPlan(), 10);
    }

    method HostpathSteps() returns (p: Progress)
      modifies api
      ensures Carried(HostpathPlan(), 0, |HostpathPlan()|, old(api.Current()), p)
    {
      hide RunFrom, RunStep;
      :- Bring(Space(OpenebsNs), HostpathPlan(), 0);
      :- ApplyRbac(HostpathSa, HostpathCr, HostpathCrb, HostpathPlan(), 1);
      :- Bring(Plain(HostpathDep), HostpathPlan(), 4);
      p := Bring(Class(HostpathSc), HostpathPlan(), 5);
    }

    method ZfsSteps() returns (p: Progress)
      modifies api
      ensures Carried(ZfsPlan(), 0, |ZfsPlan()|, old(api.Current()), p)
    {
      hide RunFrom, RunStep;
      :- Bring(Space(OpenebsNs), ZfsPlan(), 0);
      :- ApplyCrds([ZfsNodesDef, ZfsVolumesDef, ZfsSnapshotsDef], ZfsPlan(), 1);
      :- ApplyRbac(ZfsSa, ZfsCr, ZfsCrb, ZfsPlan(), 4);
      p := ZfsPods();
    }

    method ZfsPods() returns (p: Progress)
      modifies api
      ensures Carried(ZfsPlan(), 7, |ZfsPlan()|, old(api.Current()), p)
    {
      hide RunFrom, RunStep;
      :- Bring(Plain(ZfsControllerDep), ZfsPlan(), 7);
      :- Bring(Plain(ZfsBinCm), ZfsPlan(), 8);
      :- Bring(Plain(ZfsNodeDs), ZfsPlan(), 9);
      :- Bring(Plain(ZfsCsi), ZfsPlan(), 10);
      p := Bring(Class(ZfsSc), ZfsPlan(), 11);
    }

    method RawfileSteps() returns (p: Progress)
      modifies api
      ensures Carried(RawfilePlan(), 0, |RawfilePlan()|, old(api.Current()), p)
    {
      hide RunFrom, RunStep;
      :- Bring(Space(OpenebsNs), RawfilePlan(), 0);
      :- ApplyRbac(RawfileSa, RawfileCr, RawfileCrb, RawfilePlan(), 1);
      :- Bring(Plain(RawfileDep), RawfilePlan(), 4);
      p := Bring(Class(RawfileSc), RawfilePlan(), 5);
    }

    /** Mayastor up to and including its etcd. */
    method EtcdSteps() returns (p: Progress)
      modifies api
      ensures Carried(EtcdPlan(), 0, |EtcdPlan()|, old(api.Current()), p)
    {
      hide RunFrom, RunStep;
      :- Bring(Space(MayastorNs), EtcdPlan(), 0);
      :- ApplyCrds([SnapshotClassesDef, SnapshotsDef, SnapshotContentsDef], EtcdPlan(), 1);
      :- ApplyRbac(MayastorSa, MayastorCr, MayastorCrb, EtcdPlan(), 4);
      p := EtcdPods();
    }

    method EtcdPods() returns (p: Progress)
      modifies api
      ensures Carried(EtcdPlan(), 7, |EtcdPlan()|, old(api.Current()), p)
    {
      hide RunFrom, RunStep;
      :- Bring(Headless(EtcdSvc), EtcdPlan(), 7);
      :- Bring(Healthy, EtcdPlan(), 8);
      :- Bring(Stateful(EtcdSts), EtcdPlan(), 9);
      p := Bring(Backup, EtcdPlan(), 10);
    }

    method ControlSteps() returns (p: Progress)
      modifies api
      ensures Carried(ControlPlan(), 0, |ControlPlan()|, old(api.Current()), p)
    {
      hide RunFrom, RunStep;
      :- Bring(Plain(AgentCoreDep), ControlPlan(), 0);
      :- Bring(Plain(AgentCoreSvc), ControlPlan(), 1);
      :- Bring(Plain(ApiRestSvc), ControlPlan(), 2);
      :- Bring(Plain(ApiRestDep), ControlPlan(), 3);
      :- Bring(Plain(CsiControllerDep), ControlPlan(), 4);
      p := Bring(Plain(IoEngineDs), ControlPlan(), 5);
    }

    method NodeSteps() returns (p: Progress)
      modifies api
      ensures Carried(NodePlan(), 0, |NodePlan()|, old(api.Current()), p)
    {
      hide RunFrom, RunStep;
      :- Bring(Plain(MetricsSvc), NodePlan(), 0);
      :- Bring(Plain(CsiNodeDs), NodePlan(), 1);
      :- Bring(Plain(HaNodeDs), NodePlan(), 2);
      :- Bring(Plain(DiskpoolDep), NodePlan(), 3);
      :- Bring(Plain(MayastorCsi), NodePlan(), 4);
      :- Bring(Class(MayastorSc), NodePlan(), 5);
      p := Bring(Definition(MayastorVsc), NodePlan(), 6);
    }

    /** Everything of Mayastor that needs etcd. */
    method ServiceSteps() returns (p: Progress)
      modifies api
      ensures Carried(ServicePlan(), 0, |ServicePlan()|, old(api.Current()), p)
    {
      hide RunFrom, RunStep;
      RunAppend(ControlPlan(), NodePlan(), 0, api.Current(), inst);
      :- ControlSteps();
      p := NodeSteps();
    }

    function StatusOf(e: Engine, p: Progress): EngineStatus {
      EngineStatus(e, if p.Stop? then Failed else Running)
    }

    method DeployLvm() returns (status: EngineStatus)
      modifies api
      ensures (api.Current(), status) == DeployEngine(Lvm, old(api.Current()), inst)
    {
      var p := LvmSteps();
      return StatusOf(Lvm, p);
    }

    method DeployHostpath() returns (status: EngineStatus)
      modifies api
      ensures (api.Current(), status) == DeployEngine(Hostpath, old(api.Current()), inst)
    {
      var p := HostpathSteps();
      return StatusOf(Hostpath, p);
    }

    method DeployZfs() returns (status: EngineStatus)
      modifies api
      ensures (api.Current(), status) == DeployEngine(Zfs, old(api.Current()), inst)
    {
      var p := ZfsSteps();
      return StatusOf(Zfs, p);
    }

    method DeployRawfile() returns (status: EngineStatus)
      modifies api
      ensures (api.Current(), status) == DeployEngine(Rawfile, old(api.Current()), inst)
    {
      var p := RawfileSteps();
      return StatusOf(Rawfile, p);
    }

    method DeployMayastor() returns (status: EngineStatus)
      modifies api
      ensures (api.Current(), status) == DeployEngine(Mayastor, old(api.Current()), inst)
    {
      hide RunFrom, RunStep;
      RunAppend(EtcdPlan(), ServicePlan(), 0, api.Current(), inst);
      var p := EtcdSteps();
      if p.Continue? {
        p := ServiceSteps();
      }
      return StatusOf(Mayastor, p);
    }

    // ---- Deletion ----

    /** List the managed objects of one kind and delete the unexpected ones, in list order. */
    method DeleteOrphans(scan: ScanStep, expected: set<Name>, ghost i: nat) returns (p: Progress)
      requires i < |Scans()| && Scans()[i] == scan
      modifies api
      ensures Swept(expected, i, i + 1, old(api.Current()), p)
    {
      var r := api.Do(List(scan.kind, scan.space));
      if !r.Listed? {
        return ProgressOf(ErrorOf(r));
      }
      var items := order(r.keys);
      ghost var listed := api.Current();
      for j := 0 to |items|
        invariant Sweep(listed, items, expected) == Sweep(api.Current(), items[j..], expected)
      {
        if items[j].name !in expected {
          r := api.Do(Delete(items[j], OrphanSite));
          if r.Fail? {
            return Stop(r.error);
          }
        }
      }
      return Continue;
    }

    ghost predicate Swept(expected: set<Name>, i: nat, j: nat, w: World, p: Progress)
      requires i <= |Scans()| && j <= |Scans()|
      reads api
    {
      ScanFrom(i, w, expected, order)
      == if p.Stop? || j == |Scans()| then (api.Current(), p.Err()) else ScanFrom(j, api.Current(), expected, order)
    }

    method SweepAll(expected: set<Name>) returns (p: Progress)
      modifies api
      ensures Swept(expected, 0, |Scans()|, old(api.Current()), p)
    {
      hide ScanFrom, Scan;
      :- DeleteOrphans(ScanStep(Deployment, OpenebsSpace), expected, 0);
      :- DeleteOrphans(ScanStep(DaemonSet, OpenebsSpace), expected, 1);
      :- DeleteOrphans(ScanStep(ServiceAccount, OpenebsSpace), expected, 2);
      :- DeleteOrphans(ScanStep(Deployment, MayastorName), expected, 3);
      :- DeleteOrphans(ScanStep(DaemonSet, MayastorName), expected, 4);
      :- DeleteOrphans(ScanStep(StatefulSet, MayastorName), expected, 5);
      :- DeleteOrphans(ScanStep(ServiceAccount, MayastorName), expected, 6);
      :- DeleteOrphans(ScanStep(ClusterRole, NoNamespace), expected, 7);
      :- DeleteOrphans(ScanStep(ClusterRoleBinding, NoNamespace), expected, 8);
      :- DeleteOrphans(ScanStep(CsiDriver, NoNamespace), expected, 9);
      p := DeleteOrphans(ScanStep(StorageClass, NoNamespace), expected, 10);
    }

    method CleanupOrphans() returns (err: Option<Error>)
      modifies api
      ensures (api.Current(), err) == Reconcile.CleanupOrphans(old(api.Current()), inst, order)
    {
      var expected := ExpectedResources(inst.spec);
      var p := SweepAll(expected);
      if p.Stop? {
        return Some(p.error);
      }
      var scheduleWanted := inst.spec.mayastor.Some? && inst.spec.mayastor.value.enabled
                            && inst.spec.mayastor.value.veleroSchedule != "";
      if !scheduleWanted {
        err := DeleteIgnoringAbsence(KeyOf(EtcdSchedule, inst.spec), UnwantedSite);
      } else {
        err := None;
      }
    }

    method Cleanup() returns (err: Option<Error>)
      modifies api
      ensures (api.Current(), err) == DeleteAll(old(api.Current()), TeardownKeys(inst.spec))
    {
      var keys := TeardownKeys(inst.spec);
      for i := 0 to |keys|
        invariant DeleteAll(old(api.Current()), keys) == DeleteAll(api.Current(), keys[i..])
      {
        err := DeleteIgnoringAbsence(keys[i], TeardownSite);
        if err.Some? {
          return;
        }
      }
      err := None;
    }
  }

  // ---- The reconciler ----

  method DerivePhase(engines: seq<EngineStatus>) returns (phase: Phase)
    ensures phase == PhaseFor(engines)
  {
    var allRunning, anyFailed := true, false;
    for i := 0 to |engines|
      invariant anyFailed <==> exists e :: e in engines[..i] && e.phase == Failed
      invariant allRunning <==> forall e | e in engines[..i] :: e.phase == Running
    {
      assert engines[..i + 1] == engines[..i] + [engines[i]];
      match engines[i].phase {
        case Failed => anyFailed, allRunning := true, false;
        case Degraded => allRunning := false;
        case Installing => allRunning := false;
        case Pending => allRunning := false;
        case Running =>
      }
    }
    assert engines[..|engines|] == engines;
    if |engines| == 0 {
      return Pending;
    }
    if anyFailed {
      return Degraded;
    }
    if allRunning {
      return Running;
    }
    return Installing;
  }

  method BuildConditions(phase: Phase) returns (conditions: seq<Condition>)
    ensures conditions == ConditionsFor(phase)
  {
    var available, progressing, degraded, failed := false, false, false, false;
    match phase {
      case Running => available := true;
      case Installing => progressing := true;
      case Pending => progressing := true;
      case Degraded => degraded, available := true, true;
      case Failed => failed := true;
    }
    return [Condition(Available, available, phase), Condition(Progressing, progressing, phase),
            Condition(IsDegraded, degraded, phase), Condition(IsFailed, failed, phase)];
  }

  lemma {:induction false} DeployStep(i: nat, w: World, inst: Instance, engines: seq<EngineStatus>)
    requires i < |Engines()|
    ensures var (v, rest) := DeployFrom(i, w, inst);
            if !Enabled(Engines()[i], inst.spec) then DeployFrom(i + 1, w, inst) == (v, rest)
            else
              var (u, status) := DeployEngine(Engines()[i], w, inst);
              DeployFrom(i + 1, u, inst).0 == v
              && engines + [status] + DeployFrom(i + 1, u, inst).1 == engines + rest
    ensures DeployFrom(|Engines()|, w, inst) == (w, [])
  {
    hide DeployEngine;
  }

  class Reconciler {
    const api: ApiServer
    const order: Ordering

    constructor (api: ApiServer, order: Ordering)
      ensures this.api == api && this.order == order
    {
      this.api, this.order := api, order;
    }

    method DeployEngines(inst: Instance) returns (engines: seq<EngineStatus>)
      modifies api
      ensures (api.Current(), engines) == DeployFrom(0, old(api.Current()), inst)
    {
      hide DeployEngine, DeployFrom;
      var d := new Deployer(api, inst, order);
      engines := [];
      ghost var w := api.Current();
      assert [] + DeployFrom(0, w, inst).1 == DeployFrom(0, w, inst).1;
      DeployStep(0, api.Current(), inst, engines);
      if inst.spec.lvm.Some? && inst.spec.lvm.value.enabled {
        var status := d.DeployLvm();
        engines := engines + [status];
      }
      assert DeployedUpTo(w, 1, inst, engines);
      DeployStep(1, api.Current(), inst, engines);
      if inst.spec.zfs.Some? && inst.spec.zfs.value.enabled {
        var status := d.DeployZfs();
        engines := engines + [status];
      }
      assert DeployedUpTo(w, 2, inst, engines);
      DeployStep(2, api.Current(), inst, engines);
      if inst.spec.hostpath.Some? && inst.spec.hostpath.value.enabled {
        var status := d.DeployHostpath();
        engines := engines + [status];
      }
      assert DeployedUpTo(w, 3, inst, engines);
      DeployStep(3, api.Current(), inst, engines);
      if inst.spec.rawfile.Some? && inst.spec.rawfile.value.enabled {
        var status := d.DeployRawfile();
        engines := engines + [status];
      }
      assert DeployedUpTo(w, 4, inst, engines);
      DeployStep(4, api.Current(), inst, engines);
      if inst.spec.mayastor.Some? && inst.spec.mayastor.value.enabled {
        var status := d.DeployMayastor();
        engines := engines + [status];
      }
      assert DeployedUpTo(w, 5, inst, engines);
      DeployStep(0, api.Current(), inst, engines);
      assert engines + [] == engines;
    }

    /** With the engines before the i-th done, deploying from the start is deploying the rest. */
    ghost predicate DeployedUpTo(w: World, i: nat, inst: Instance, engines: seq<EngineStatus>)
      requires i <= |Engines()|
      reads api
    {
      var (v, rest) := DeployFrom(i, api.Current(), inst);
      DeployFrom(0, w, inst) == (v, engines + rest)
    }

    method ReconcileNormal(inst: Instance) returns (verdict: Verdict)
      modifies api
      ensures (api.Current(), verdict) == Reconcile.ReconcileNormal(old(api.Current()), inst, order)
    {
      var engines := DeployEngines(inst);
      var phase := DerivePhase(engines);
      var d := new Deployer(api, inst, order);
      var logged := d.CleanupOrphans();
      var conditions := BuildConditions(phase);
      var r := api.Do(GetInstance);
      if !r.GotInstance? {
        return Verdict(0, ErrorOf(r));
      }
      var latest := r.inst.(status := Status(phase, engines, conditions));
      r := api.Do(PutStatus(latest));
      if r.Fail? {
        return Verdict(0, Some(r.error));
      }
      return Verdict(if phase == Failed then REQUEUE_AFTER_ERROR else REQUEUE_AFTER, None);
    }

    method ReconcileDelete(inst: Instance) returns (verdict: Verdict)
      modifies api
      ensures (api.Current(), verdict) == Reconcile.ReconcileDelete(old(api.Current()), inst)
    {
      var d := new Deployer(api, inst, order);
      var err := d.Cleanup();
      if err.Some? {
        return Verdict(REQUEUE_AFTER_ERROR, err);
      }
      var r := api.Do(PutInstance(inst.(finalizers := inst.finalizers - {OperatorFinalizer})));
      return Verdict(0, ErrorOf(r));
    }

    method ReconcileRequest() returns (verdict: Verdict)
      modifies api
      ensures (api.Current(), verdict) == ReconcileOnce(old(api.Current()), order)
    {
      var r := api.Do(GetInstance);
      if !r.GotInstance? {
        return Verdict(0, if r == Fail(NotFound) then None else ErrorOf(r));
      }
      var inst := r.inst;
      if inst.deleting {
        verdict := ReconcileDelete(inst);
        return;
      }
      if OperatorFinalizer !in inst.finalizers {
        r := api.Do(PutInstance(inst.(finalizers := inst.finalizers + {OperatorFinalizer})));
        if !r.GotInstance? {
          return Verdict(0, ErrorOf(r));
        }
        inst := r.inst;
      }
      verdict := ReconcileNormal(inst);
    }
  }
}
