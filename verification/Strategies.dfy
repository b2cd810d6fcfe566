/** How one desired object is brought about: four apply strategies over a store that may change
    between any two requests. Each is a function of the world; the Deployer class carries them out. */
module Strategies {
  import opened Wrappers
  import opened Objects
  import opened Api
  import opened Components

  // ---- Drift of immutable StatefulSet fields ----

  datatype Field = ServiceNameField | ManagementField | SelectorField | ClaimsField

  const NO_SET := SetSpec(NoNamespace, OrderedReady, map[], [])

  function SetOf(o: Object): SetSpec {
    if o.fixed.Set? then o.fixed.spec else NO_SET
  }

  function IpOf(o: Object): ClusterIp {
    if o.fixed.Ip? then o.fixed.clusterIp else Unassigned
  }

  /** A template without its type header, status, and metadata other than the name. */
  function NormalClaim(c: Claim): Claim {
    c.(typed := false, pending := false, labels := map[])
  }

  predicate SemanticallyEqual(a: Claim, b: Claim) {
    a.(spec := b.spec) == b && SameClaimSpec(a.spec, b.spec)
  }

  predicate ClaimsEqual(existing: seq<Claim>, desired: seq<Claim>) {
    && |existing| == |desired|
    && forall i | 0 <= i < |existing| :: SemanticallyEqual(NormalClaim(existing[i]), NormalClaim(desired[i]))
  }

  function DriftFields(existing: SetSpec, desired: SetSpec): seq<Field> {
    (if existing.serviceName != desired.serviceName then [ServiceNameField] else [])
    + (if existing.management != desired.management then [ManagementField] else [])
    + (if existing.selector != desired.selector then [SelectorField] else [])
    + (if !ClaimsEqual(existing.claims, desired.claims) then [ClaimsField] else [])
  }

  /** Controlled by this instance, or carrying the operator's label. */
  predicate Owned(o: Object, uid: nat) {
    ControlledBy(o.owners, uid) || Managed(o.labels)
  }

  // ---- One attempt, and the retry around it ----

  datatype Strategy = PlainApply | StatefulApply | HeadlessApply

  /** What an attempt leaves: the world, the caller's object as mutated, the error if any. */
  datatype Outcome = Outcome(w: World, obj: Object, err: Option<Error>)

  function ErrorOf(r: Reply): Option<Error> {
    if r.Fail? then Some(r.error) else None
  }

  function TryCreate(w: World, k: Key, o: Object): Outcome {
    var (v, r) := Call(w, Create(k, o));
    Outcome(v, o, ErrorOf(r))
  }

  function TryUpdate(w: World, k: Key, o: Object): Outcome {
    var (v, r) := Call(w, Update(k, o));
    Outcome(v, o, ErrorOf(r))
  }

  /** The object was there: `x` is what the attempt read. */
  function Resolve(how: Strategy, w: World, k: Key, o: Object, x: Object, uid: nat): Outcome {
    match how
    case PlainApply => TryUpdate(w, k, o.(rv := x.rv))
    case StatefulApply =>
      if DriftFields(SetOf(x), SetOf(o)) != [] then
        if !Owned(x, uid) then Outcome(w, o, Some(NotManaged))
        else
          var (v, r) := Call(w, Delete(k, DriftSite));
          Outcome(v, o, if r.Fail? then Some(r.error) else Some(Drifted))
      else TryUpdate(w, k, WithClaims(o, x))
    case HeadlessApply =>
      if IpOf(x) != IpOf(o) then
        if !Owned(x, uid) then Outcome(w, o, Some(NotManaged))
        else
          var (v, r) := Call(w, Delete(k, RecreateSite));
          if r.Fail? then Outcome(v, o, Some(r.error)) else TryCreate(v, k, o.(rv := 0))
      else TryUpdate(w, k, o.(rv := x.rv))
  }

  /** The caller's StatefulSet takes over the version and the claim templates just read. */
  function WithClaims(o: Object, x: Object): Object {
    o.(rv := x.rv, fixed := Set(SetOf(o).(claims := SetOf(x).claims)))
  }

  function Attempt(how: Strategy, w: World, k: Key, o: Object, uid: nat): Outcome {
    var (v, r) := Call(w, Get(k));
    if r.Got? then Resolve(how, v, k, o, r.obj, uid)
    else if r == Fail(NotFound) then TryCreate(v, k, o)
    else Outcome(v, o, ErrorOf(r))
  }

  const MAX_TRIES: nat := 5

  /** Attempts, each with the object as the last one left it, until one does not conflict. */
  function Retry(how: Strategy, w: World, k: Key, o: Object, uid: nat, tries: nat): Outcome
    decreases tries
  {
    var out := Attempt(how, w, k, o, uid);
    if out.err == Some(Conflict) && tries > 1 then Retry(how, out.w, k, out.obj, uid, tries - 1) else out
  }

  function OwnedBy(o: Object, uid: nat): Object {
    o.(owners := [OwnerRef(uid, true)])
  }

  function ApplyObject(how: Strategy, w: World, k: Key, o: Object, uid: nat): Outcome {
    Retry(how, w, k, OwnedBy(o, uid), uid, MAX_TRIES)
  }

  /** Read, delete, create. */
  function Remake(w: World, k: Key, o: Object): (World, Option<Error>) {
    var (v, r) := Call(w, Get(k));
    if r.Fail? then (v, Some(r.error))
    else
      var (u, d) := Call(v, Delete(k, RecreateSite));
      if d.Fail? then (u, Some(d.error))
      else
        var c := TryCreate(u, k, o);
        (c.w, c.err)
  }

  /** A storage class whose immutable fields changed is deleted and created again. */
  function ApplyClass(w: World, k: Key, o: Object, uid: nat): (World, Option<Error>) {
    var a := ApplyObject(PlainApply, w, k, o, uid);
    if a.err != Some(Invalid) then (a.w, a.err) else Remake(a.w, k, a.obj.(rv := 0))
  }

  /** Create or update, once. */
  function ApplyDynamic(w: World, k: Key, o: Object, uid: nat): (World, Option<Error>) {
    var d := OwnedBy(o, uid);
    var (v, r) := Call(w, Get(k));
    var out := if r.Got? then TryUpdate(v, k, d.(rv := r.obj.rv))
               else if r == Fail(NotFound) then TryCreate(v, k, d)
               else Outcome(v, d, ErrorOf(r));
    (out.w, out.err)
  }

  function EnsureNamespace(w: World, k: Key, o: Object): (World, Option<Error>) {
    var (v, r) := Call(w, Get(k));
    if r.Got? then
      var x := r.obj.(labels := r.obj.labels + PodSecurity());
      if x == r.obj then (v, None)
      else
        var out := TryUpdate(v, k, x);
        (out.w, out.err)
    else if r == Fail(NotFound) then
      var out := TryCreate(v, k, o);
      (out.w, out.err)
    else (v, ErrorOf(r))
  }

  const ETCD_KEY := Key(StatefulSet, MayastorName, EtcdName)

  function HealthCheck(w: World): (World, Option<Error>) {
    var (v, r) := Call(w, Get(ETCD_KEY));
    if r == Fail(NotFound) then (v, None)
    else if r.Fail? then (v, Some(r.error))
    else if r.Got? && r.obj.ready == 0 then (v, None)
    else
      var (u, p) := Call(v, Probe);
      (u, ErrorOf(p))
  }

  /** A deletion that does not mind the object, or its whole kind, being absent. */
  function DeleteTolerant(w: World, k: Key, site: Site): (World, Option<Error>) {
    var (v, r) := Call(w, Delete(k, site));
    (v, if r.Fail? && r.error != NotFound && r.error != NoMatch then Some(r.error) else None)
  }

  function ReconcileSchedule(w: World, inst: Instance): (World, Option<Error>) {
    var k := KeyOf(EtcdSchedule, inst.spec);
    if ScheduleConfigured(inst.spec) then
      var (v, e) := ApplyDynamic(w, k, Build(EtcdSchedule, inst.spec), inst.uid);
      (v, if e == Some(NoMatch) then None else e)
    else DeleteTolerant(w, k, UnwantedSite)
  }

  // ---- Steps and plans ----

  function RunStep(step: Step, w: World, inst: Instance): (World, Option<Error>) {
    match step
    case Space(c) => EnsureNamespace(w, KeyOf(c, inst.spec), Build(c, inst.spec))
    case Plain(c) =>
      var a := ApplyObject(PlainApply, w, KeyOf(c, inst.spec), Build(c, inst.spec), inst.uid);
      (a.w, a.err)
    case Definition(c) => ApplyDynamic(w, KeyOf(c, inst.spec), Build(c, inst.spec), inst.uid)
    case Headless(c) =>
      var a := ApplyObject(HeadlessApply, w, KeyOf(c, inst.spec), Build(c, inst.spec), inst.uid);
      (a.w, a.err)
    case Healthy => HealthCheck(w)
    case Stateful(c) =>
      var a := ApplyObject(StatefulApply, w, KeyOf(c, inst.spec), Build(c, inst.spec), inst.uid);
      (a.w, a.err)
    case Backup => ReconcileSchedule(w, inst)
    case Class(c) => ApplyClass(w, KeyOf(c, inst.spec), Build(c, inst.spec), inst.uid)
  }

  /** The steps from the i-th on, up to the first that fails. */
  function RunFrom(plan: seq<Step>, i: nat, w: World, inst: Instance): (World, Option<Error>)
    decreases |plan| - i
  {
    if i >= |plan| then (w, None)
    else
      var (v, e) := RunStep(plan[i], w, inst);
      if e.Some? then (v, e) else RunFrom(plan, i + 1, v, inst)
  }

  lemma {:induction false} RunAppend(p: seq<Step>, q: seq<Step>, i: nat, w: World, inst: Instance)
    requires i <= |p|
    ensures RunFrom(p + q, i, w, inst)
         == var (v, e) := RunFrom(p, i, w, inst); if e.Some? then (v, e) else RunFrom(q, 0, v, inst)
    decreases |p| - i
  {
    hide RunStep;
    if i < |p| {
      RunAppend(p, q, i + 1, RunStep(p[i], w, inst).0, inst);
    } else {
      RunSuffix(p, q, 0, w, inst);
    }
  }

  lemma {:induction false} RunSuffix(p: seq<Step>, q: seq<Step>, i: nat, w: World, inst: Instance)
    requires i <= |q|
    ensures RunFrom(p + q, |p| + i, w, inst) == RunFrom(q, i, w, inst)
    decreases |q| - i
  {
    hide RunStep;
    if i < |q| {
      RunSuffix(p, q, i + 1, RunStep(q[i], w, inst).0, inst);
    }
  }
}
