/** One step of a deployment in a calm world, where nobody else writes and no request fails: what it
    takes for the step to bring its object into the desired form. */
module Calm {
  import opened Wrappers
  import opened Objects
  import opened Api
  import opened Components
  import opened Strategies
  import opened Drift
  import opened Traces
  import opened Effects
  import opened Passes
  import opened Plans

  // ---- The desired form ----

  /** An update from `stored` to `wanted` immutable fields goes through. */
  predicate Acceptable(stored: Fixed, wanted: Fixed) {
    wanted == Ip(Unassigned) || Defaulted(wanted) == stored
  }

  /** The update a task makes of a stored object leaves the immutable fields as they are. */
  ghost predicate Keepable(t: Task, x: Object) {
    match t.way
    case AsNamespace => true
    case AsSet => DriftFields(SetOf(x), SetOf(t.desired)) == []
    case _ => Acceptable(x.fixed, t.desired.fixed)
  }

  /** The object is the desired one, up to its version, its status, and what the server filled in. */
  ghost predicate Conforms(t: Task, x: Object) {
    if t.way == AsNamespace then x.labels + PodSecurity() == x.labels
    else
      && x.labels == t.desired.labels && x.owners == t.desired.owners && x.body == t.desired.body
      && Keepable(t, x)
  }

  ghost predicate InForm(s: State, t: Task) {
    t.key in s.objs && Conforms(t, s.objs[t.key])
  }

  ghost predicate ConformsAt(s: State, t: Task) {
    match t.way
    case AsSchedule(configured) => if configured then s.velero ==> InForm(s, t) else t.key !in s.objs
    case _ => InForm(s, t)
  }

  /** What is stored can be updated, or is the operator's to delete, or is a storage class. */
  ghost predicate Mendable(t: Task, x: Object) {
    Keepable(t, x) || t.way == AsClass || ((t.way == AsSet || t.way == AsService) && Owned(x, t.uid))
  }

  /** Nothing stands in the way under the key. */
  ghost predicate Fine(s: State, t: Task) {
    t.key in s.objs ==> Mendable(t, s.objs[t.key])
  }

  /** The kind is known and the namespace is there. */
  ghost predicate Placed(s: State, k: Key) {
    Registered(s, k.kind) && SpaceExists(s, k)
  }

  /** Where the schedule goes, if it goes anywhere. */
  ghost predicate BackupPlaced(s: State, t: Task) {
    t.way == AsSchedule(true) && s.velero ==> SpaceExists(s, t.key)
  }

  ghost predicate Located(s: State, t: Task) {
    if t.way.AsSchedule? then BackupPlaced(s, t) else Placed(s, t.key)
  }

  /** The task is that of the etcd set, and another set is stored. */
  ghost predicate FindsDrift(s: State, t: Task) {
    t.way == AsSet && Drifting(s, SetOf(t.desired))
  }

  ghost predicate SameButVersions(s: State, u: State) {
    && s.objs.Keys == u.objs.Keys
    && (forall k | k in s.objs :: u.objs[k].(rv := 0) == s.objs[k].(rv := 0))
    && s.velero == u.velero && s.others == u.others
    && (s.inst.Some? <==> u.inst.Some?)
    && (s.inst.Some? ==> u.inst.value.(rv := 0) == s.inst.value.(rv := 0))
  }

  predicate SameAt(s: State, u: State, k: Key) {
    (k in u.objs <==> k in s.objs) && (k in s.objs ==> u.objs[k] == s.objs[k])
  }

  predicate SameAround(s: State, u: State) {
    u.inst == s.inst && u.velero == s.velero && u.others == s.others
  }

  /** From `s` to `u` the object of the task was brought into its desired form, and nothing else changed;
      if it was in that form, nothing changed but its version. */
  ghost predicate Settled(s: State, u: State, t: Task) {
    && SameAround(s, u) && (forall k | k != t.key :: SameAt(s, u, k))
    && ConformsAt(u, t)
    && (ConformsAt(s, t) ==> SameButVersions(s, u))
  }

  // ---- Tasks ----

  /** What the server stores for a task is what the task desires. */
  ghost predicate Askable(t: Task) {
    && Proper(t) && Typed(t.key.kind, t.desired.fixed)
    && match t.way
       case AsNamespace => t.key.kind == Namespace && t.desired.labels == PodSecurity()
       case AsSet =>
         var d := SetOf(t.desired);
         DriftFields(d.(claims := DefaultClaims(d.claims)), d) == []
       case AsService => t.key.kind == Service && t.desired.fixed == Ip(NoAddress)
       case AsClass => t.key.kind == StorageClass
       case AsSchedule(_) => t.key.kind == Schedule && t.desired.fixed == Unfixed
       case AsPlain => true
  }

  lemma SpaceLabels()
    ensures LabelsOf(OpenebsNs) == PodSecurity() && LabelsOf(MayastorNs) == PodSecurity()
  {
    hide PodSecurity;
  }

  lemma TaskAskable(c: Component, inst: Instance)
    ensures Askable(TaskOf(c, inst))
  {
    hide KeyOf, FixedOf, LabelsOf, Typed, EngineOf, EtcdSet, DriftFields, DefaultClaims, PodSecurity, IsClass,
         ScheduleConfigured, Proper, ReadsSpec;
    AllPlaced(c, inst.spec);
    TaskProper(c, inst);
    KindTells(c, inst.spec);
    ComponentAtKey(c, inst.spec);
    EtcdFields(inst.spec);
    SpaceLabels();
    DriftIffStorageDiffers(inst.spec, inst.spec);
  }

  // ---- Requests ----

  lemma CalmCall(w: World, req: Request)
    requires w.script == []
    ensures var (v, r) := Call(w, req); (v.s, r) == Serve(w.s, req, true) && v.script == []
  {
    hide Serve;
  }

  lemma ReadCalmly(w: World, k: Key)
    requires w.script == [] && Placed(w.s, k)
    ensures var (v, r) := Call(w, Get(k));
            v.s == w.s && v.script == [] && r == if k in w.s.objs then Got(w.s.objs[k]) else Fail(NotFound)
  {
    hide Call;
    CalmCall(w, Get(k));
  }

  lemma SanelyPlaced(s: State, k: Key)
    requires Sane(s) && k in s.objs
    ensures Placed(s, k) && Typed(k.kind, s.objs[k].fixed)
  {
    assert SaneObject(s, k, s.objs[k]);
  }

  /** Storing a conforming object settles the task. */
  lemma StoreSettles(s: State, x: Object, t: Task)
    requires Conforms(t, x) && Applicable(t) && (t.way.AsSchedule? ==> s.velero)
    requires forall y | Holds(s, t.key, y) && Conforms(t, y) :: x.(rv := 0) == y.(rv := 0)
    ensures Settled(s, Store(s, t.key, x), t)
  {
    hide Conforms;
  }

  lemma CreateSettles(w: World, t: Task)
    requires w.script == [] && Askable(t) && Applicable(t) && Placed(w.s, t.key) && t.key !in w.s.objs
    ensures var (v, r) := Call(w, Create(t.key, t.desired));
            r == Done && v.script == [] && Settled(w.s, v.s, t)
  {
    hide Call, Settled, DriftFields, Typed, SpaceExists;
    CalmCall(w, Create(t.key, t.desired));
    assert PodSecurity() + PodSecurity() == PodSecurity();
    StoreSettles(w.s, Admitted(w.s, t.desired), t);
  }

  /** An acceptable update keeps the stored immutable fields; what it stores conforms, and is what was
      there if that conformed. */
  lemma UpdateConforms(s: State, x: Object, t: Task)
    requires Sane(s) && Askable(t) && Holds(s, t.key, x) && Keepable(t, x)
    ensures var y := Merged(s, x, Replacement(t, x));
            y.fixed == x.fixed && Conforms(t, y) && (Conforms(t, x) ==> y.(rv := 0) == x.(rv := 0))
    ensures Replacement(t, x).rv == x.rv && Typed(t.key.kind, Replacement(t, x).fixed)
  {
    hide DriftFields, PodSecurity, Sane;
    SanelyPlaced(s, t.key);
    var twice := x.labels + PodSecurity();
    assert twice + PodSecurity() == twice;
    if t.way == AsSet {
      KeepsFixed(s, t.desired, x);
    }
  }

  lemma UpdateSettles(w: World, x: Object, t: Task)
    requires w.script == [] && Sane(w.s) && Askable(t) && Applicable(t) && Holds(w.s, t.key, x) && Keepable(t, x)
    ensures var (v, r) := Call(w, Update(t.key, Replacement(t, x)));
            r == Done && v.script == [] && Settled(w.s, v.s, t)
  {
    hide Call, Settled, Conforms, Keepable, Merged, Replacement, Typed, Sane, SpaceExists;
    CalmCall(w, Update(t.key, Replacement(t, x)));
    SanelyPlaced(w.s, t.key);
    UpdateConforms(w.s, x, t);
    StoreSettles(w.s, Merged(w.s, x, Replacement(t, x)), t);
  }

  /** Deleting an object others do not hang on takes away nothing else. */
  lemma GoneAlone(s: State, k: Key)
    requires k.kind !in {Namespace, CustomResourceDefinition}
    ensures var u := Without(s, k);
            && SameAround(s, u) && k !in u.objs && (forall j | j != k :: SameAt(s, u, j))
            && (Placed(s, k) && k.kind != VolumeSnapshotClass ==> Placed(u, k))
  {
    assert GoesWith(k, k);
  }

  /** Deleting an object that does not conform, then creating it, is like never having had it. */
  lemma RecreateSettles(w: World, site: Site, t: Task)
    requires w.script == [] && Sane(w.s) && Askable(t) && t.key in w.s.objs && !ConformsAt(w.s, t)
    requires t.way == AsClass || t.way == AsService
    ensures var (v, r) := Call(w, Delete(t.key, site));
            var a := TryCreate(v, t.key, t.desired);
            r == Done && a.err.None? && Settled(w.s, a.w.s, t)
  {
    hide Call, Conforms, Typed, Sane, Without, DriftFields, SameButVersions, Placed;
    var v := Call(w, Delete(t.key, site)).0;
    CalmCall(w, Delete(t.key, site));
    SanelyPlaced(w.s, t.key);
    GoneAlone(w.s, t.key);
    CreateSettles(v, t);
    var u := TryCreate(v, t.key, t.desired).w.s;
    assert forall k | k != t.key :: SameAt(w.s, v.s, k) && SameAt(v.s, u, k) ==> SameAt(w.s, u, k);
  }

  // ---- Strategies ----

  lemma AttemptSettles(w: World, t: Task)
    requires w.script == [] && Sane(w.s) && Askable(t) && Applicable(t) && t.way != AsNamespace && Placed(w.s, t.key)
    requires forall x | Holds(w.s, t.key, x) :: Keepable(t, x) || (t.way == AsService && Owned(x, t.uid))
    ensures var a := Attempt(StrategyOf(t.way), w, t.key, t.desired, t.uid);
            a.err.None? && Settled(w.s, a.w.s, t)
  {
    hide Call, Settled, DriftFields, Typed, Sane, Owned, Placed, DefaultClaims;
    var v := Call(w, Get(t.key)).0;
    ReadCalmly(w, t.key);
    if t.key !in w.s.objs {
      CreateSettles(v, t);
    } else {
      SanelyPlaced(w.s, t.key);
      var x := w.s.objs[t.key];
      if Keepable(t, x) {
        UpdateSettles(v, x, t);
      } else {
        ServiceIsIp(t.key.kind, x.fixed);
        RecreateSettles(v, RecreateSite, t);
      }
    }
  }

  lemma ServiceIsIp(kind: Kind, fixed: Fixed)
    ensures kind == Service && Typed(kind, fixed) ==> fixed.Ip?
  {
  }

  /** An apply whose first attempt does not conflict is that attempt; and so is a dynamic apply. */
  lemma FirstTry(how: Strategy, w: World, k: Key, o: Object, uid: nat)
    requires Attempt(how, w, k, OwnedBy(o, uid), uid).err != Some(Conflict)
    ensures ApplyObject(how, w, k, o, uid) == Attempt(how, w, k, OwnedBy(o, uid), uid)
    ensures var a := Attempt(PlainApply, w, k, OwnedBy(o, uid), uid); ApplyDynamic(w, k, o, uid) == (a.w, a.err)
  {
    hide Call;
  }

  /** A plain update that would change immutable fields is refused, and changes nothing. */
  lemma PlainRefused(w: World, o: Object, t: Task)
    requires w.script == [] && Proper(t) && t.way != AsNamespace && StrategyOf(t.way) == PlainApply
    requires t.desired == OwnedBy(o, t.uid) && Typed(t.key.kind, t.desired.fixed)
    requires Placed(w.s, t.key) && t.key in w.s.objs && !Keepable(t, w.s.objs[t.key])
    ensures var a := ApplyObject(PlainApply, w, t.key, o, t.uid);
            a.err == Some(Invalid) && a.w.s == w.s && a.w.script == [] && a.obj.(rv := 0) == t.desired
    ensures !InForm(w.s, t)
  {
    hide Call, Typed, SpaceExists, ApplyObject, ApplyDynamic, Defaulted;
    var v := Call(w, Get(t.key)).0;
    ReadCalmly(w, t.key);
    CalmCall(v, Update(t.key, t.desired.(rv := w.s.objs[t.key].rv)));
    FirstTry(PlainApply, w, t.key, o, t.uid);
  }

  /** Whatever is stored, an undisturbed apply of a storage class settles it: by an update, or by
      deleting the class and creating it again. */
  lemma ClassSettles(w: World, o: Object, t: Task)
    requires w.script == [] && Sane(w.s) && Askable(t) && t.way == AsClass && t.desired == OwnedBy(o, t.uid)
    ensures var (v, e) := ApplyClass(w, t.key, o, t.uid);
            e.None? && Settled(w.s, v.s, t)
  {
    hide Call, Settled, Keepable, ApplyObject, ApplyDynamic, Attempt, Conforms, Sane, TryCreate, Typed;
    if t.key in w.s.objs && !Keepable(t, w.s.objs[t.key]) {
      PlainRefused(w, o, t);
      var a := ApplyObject(PlainApply, w, t.key, o, t.uid);
      ReadCalmly(a.w, t.key);
      RecreateSettles(Call(a.w, Get(t.key)).0, RecreateSite, t);
    } else {
      AttemptSettles(w, t);
      FirstTry(PlainApply, w, t.key, o, t.uid);
    }
  }

  /** A drifted set that is the operator's is deleted, and the deployment stops there. */
  lemma DriftedIsDeleted(w: World, o: Object, t: Task)
    requires w.script == [] && Sane(w.s) && Proper(t) && t.desired == OwnedBy(o, t.uid)
    requires FindsDrift(w.s, t) && forall x | Holds(w.s, t.key, x) :: Owned(x, t.uid)
    ensures var a := ApplyObject(StatefulApply, w, t.key, o, t.uid);
            a.err == Some(Drifted) && a.w.s == Without(w.s, ETCD_KEY) && a.w.script == []
  {
    hide Call, Owned, SpaceExists, DriftFields, Without, WithClaims, ApplyObject, ApplyDynamic, Sane;
    var v := Call(w, Get(ETCD_KEY)).0;
    SanelyPlaced(w.s, ETCD_KEY);
    ReadCalmly(w, ETCD_KEY);
    CalmCall(v, Delete(ETCD_KEY, DriftSite));
    FirstTry(StatefulApply, w, ETCD_KEY, o, t.uid);
  }

  /** In a calm world a request is one event. */
  lemma CalmTrace(w: World, req: Request)
    requires w.script == []
    ensures var (v, r) := Call(w, req); v.trace == w.trace + [Event(Operator(req, r), w.s, v.s)]
  {
    hide Serve;
  }

  /** From `w` to `v` the operator deleted the object. */
  ghost predicate Deleted(w: World, v: World, k: Key, site: Site) {
    exists n: nat :: |w.trace| <= n && DeletesAt(Nth(v.trace, n), k, site)
  }

  lemma CalmDeletion(w: World, k: Key, site: Site, v: World)
    requires w.script == [] && Registered(w.s, k.kind) && k in w.s.objs && Call(w, Delete(k, site)).0.trace <= v.trace
    ensures Deleted(w, v, k, site)
  {
    hide Call;
    CalmCall(w, Delete(k, site));
    CalmTrace(w, Delete(k, site));
    assert GoesWith(k, k);
    assert DeletesAt(Nth(v.trace, |w.trace|), k, site);
  }

  lemma DifferingIsMismatched(s: State, t: Task, x: Object)
    requires Sane(s) && Askable(t) && Holds(s, t.key, x) && Differs(t, x)
    ensures Mismatched(t, x) && !Keepable(t, x) && Placed(s, t.key)
  {
    hide Sane, DriftFields, SetsDiffer, Typed, Placed, DefaultClaims;
    DriftFieldsAre(SetOf(x), SetOf(t.desired));
    SanelyPlaced(s, t.key);
    ServiceIsIp(t.key.kind, x.fixed);
  }

  lemma OwnSetIsDeleted(w: World, t: Task, x: Object)
    requires w.script == [] && Placed(w.s, t.key) && t.way == AsSet && Holds(w.s, t.key, x) && Mismatched(t, x)
    requires Owned(x, t.uid)
    ensures var a := Resolve(StatefulApply, w, t.key, t.desired, x, t.uid);
            a.err == Some(Error.Drifted) && a.w.s == Without(w.s, t.key) && Deleted(w, a.w, t.key, DriftSite)
  {
    hide Call, Owned, DriftFields, Without, Deleted, SpaceExists;
    CalmCall(w, Delete(t.key, DriftSite));
    CalmDeletion(w, t.key, DriftSite, Call(w, Delete(t.key, DriftSite)).0);
  }

  lemma OwnServiceIsReplaced(w: World, t: Task, x: Object)
    requires w.script == [] && Sane(w.s) && Askable(t) && t.way == AsService && Holds(w.s, t.key, x) && Differs(t, x)
    requires Owned(x, t.uid)
    ensures var a := Resolve(HeadlessApply, w, t.key, t.desired, x, t.uid);
            a.err.None? && Settled(w.s, a.w.s, t) && Deleted(w, a.w, t.key, RecreateSite)
  {
    hide Call, Owned, Deleted, Settled, Sane, Typed, Placed, Conforms;
    var v := Call(w, Delete(t.key, RecreateSite)).0;
    DifferingIsMismatched(w.s, t, x);
    assert !ConformsAt(w.s, t) by { Unkept(t, x); }
    RecreateSettles(w, RecreateSite, t);
    CalmCall(w, Delete(t.key, RecreateSite));
    CalmTrace(v, Create(t.key, t.desired));
    CalmDeletion(w, t.key, RecreateSite, TryCreate(v, t.key, t.desired).w);
  }

  lemma Unkept(t: Task, x: Object)
    requires t.way != AsNamespace && !Keepable(t, x)
    ensures !Conforms(t, x)
  {
    hide Keepable;
  }

  /** An undisturbed apply of a set or service over a stored one that differs: if the operator's instance
      controls that one, or it carries the label, it is deleted, and a service is made again; if not, the
      apply fails and leaves it as it is. */
  lemma MismatchIsSettled(w: World, o: Object, t: Task, x: Object)
    requires w.script == [] && Sane(w.s) && Askable(t) && (t.way == AsSet || t.way == AsService)
    requires t.desired == OwnedBy(o, t.uid) && Holds(w.s, t.key, x) && Differs(t, x)
    ensures var a := ApplyObject(StrategyOf(t.way), w, t.key, o, t.uid);
            if Controls(x.owners, t.uid) || Labelled(x) then
              if t.way == AsSet then
                a.err == Some(Error.Drifted) && a.w.s == Without(w.s, t.key) && Deleted(w, a.w, t.key, DriftSite)
              else
                a.err.None? && Settled(w.s, a.w.s, t) && Deleted(w, a.w, t.key, RecreateSite)
            else a.err == Some(NotManaged) && a.w.s == w.s
  {
    hide Call, Owned, Sane, DriftFields, Settled, ApplyObject, ApplyDynamic, Typed, Placed, Labelled, Controls,
         Differs, Without, Askable;
    var v := Call(w, Get(t.key)).0;
    OwnedMeans(x, t.uid);
    DifferingIsMismatched(w.s, t, x);
    ReadCalmly(w, t.key);
    CalmTrace(w, Get(t.key));
    if Owned(x, t.uid) {
      if t.way == AsSet { OwnSetIsDeleted(v, t, x); } else { OwnServiceIsReplaced(v, t, x); }
    }
    FirstTry(StrategyOf(t.way), w, t.key, o, t.uid);
  }

  // ---- Namespaces, the schedule, the health check ----

  lemma SettledAlready(s: State, t: Task)
    requires ConformsAt(s, t)
    ensures Settled(s, s, t)
  {
    hide ConformsAt;
  }

  lemma SpaceSettles(w: World, t: Task)
    requires w.script == [] && Sane(w.s) && Askable(t) && t.way == AsNamespace
    ensures var (v, e) := EnsureNamespace(w, t.key, t.desired);
            e.None? && Settled(w.s, v.s, t)
  {
    hide Call, Settled, PodSecurity, Sane, Typed;
    var v := Call(w, Get(t.key)).0;
    ReadCalmly(w, t.key);
    if t.key !in w.s.objs {
      CreateSettles(v, t);
    } else if Replacement(t, w.s.objs[t.key]) == w.s.objs[t.key] {
      SettledAlready(w.s, t);
    } else {
      UpdateSettles(v, w.s.objs[t.key], t);
    }
  }

  /** A schedule that is not wanted is removed. */
  lemma UnwantedSettles(w: World, t: Task)
    requires w.script == [] && Sane(w.s) && t.key.kind == Schedule && t.way == AsSchedule(false)
    ensures var (v, e) := DeleteTolerant(w, t.key, UnwantedSite);
            e.None? && Settled(w.s, v.s, t)
  {
    hide Call, Without, Sane, SpaceExists, SameButVersions, InForm;
    CalmCall(w, Delete(t.key, UnwantedSite));
    GoneAlone(w.s, t.key);
    if t.key in w.s.objs {
      SanelyPlaced(w.s, t.key);
    } else {
      SettledAlready(w.s, t);
    }
  }

  /** Without Velero a dynamic apply of the schedule changes nothing; with Velero but without the
      namespace it fails, and changes nothing. */
  lemma BackupRefused(w: World, o: Object, t: Task)
    requires w.script == [] && Sane(w.s) && Askable(t) && t.way == AsSchedule(true) && t.desired == OwnedBy(o, t.uid)
    requires !w.s.velero || !SpaceExists(w.s, t.key)
    ensures var (v, e) := ApplyDynamic(w, t.key, o, t.uid);
            v.s == w.s && v.script == [] && e == Some(if w.s.velero then NotFound else NoMatch)
  {
    hide Call, Sane, SpaceExists;
    if t.key in w.s.objs {
      SanelyPlaced(w.s, t.key);
    }
    CalmCall(w, Get(t.key));
    CalmCall(Call(w, Get(t.key)).0, Create(t.key, t.desired));
  }

  lemma BackupSettles(w: World, inst: Instance)
    requires w.script == [] && Sane(w.s) && BackupPlaced(w.s, TaskOf(EtcdSchedule, inst))
    requires Fine(w.s, TaskOf(EtcdSchedule, inst))
    ensures var (v, e) := ReconcileSchedule(w, inst);
            e.None? && Settled(w.s, v.s, TaskOf(EtcdSchedule, inst))
  {
    hide Call, KeyOf, Settled, Build, ScheduleConfigured, SpaceExists, Sane, ApplyDynamic, DeleteTolerant, Keepable,
         ApplyObject, Attempt, Askable, Owned, TaskOf;
    var t := TaskOf(EtcdSchedule, inst);
    TaskAskable(EtcdSchedule, inst);
    ScheduleTask(inst);
    assert t.key.kind == Schedule by { ScheduleKind(inst.spec); }
    if !ScheduleConfigured(inst.spec) {
      UnwantedSettles(w, t);
    } else if w.s.velero {
      AttemptSettles(w, t);
      FirstTry(PlainApply, w, t.key, Build(EtcdSchedule, inst.spec), inst.uid);
    } else {
      BackupRefused(w, Build(EtcdSchedule, inst.spec), t);
      SettledAlready(w.s, t);
    }
  }

  lemma HealthPasses(w: World)
    requires w.script == [] && Placed(w.s, ETCD_KEY)
    ensures var (v, e) := HealthCheck(w); e.None? && v.s == w.s
  {
    hide Call;
    ReadCalmly(w, ETCD_KEY);
    CalmCall(Call(w, Get(ETCD_KEY)).0, Probe);
  }

  // ---- Every step ----

  /** In a calm world, where its object can be placed and nothing stands in the way, a step settles
      its task. */
  lemma StepSettles(step: Step, w: World, inst: Instance)
    requires w.script == [] && Sane(w.s) && Fits(step)
    requires Located(w.s, TaskOf(ComponentOf(step), inst)) && Fine(w.s, TaskOf(ComponentOf(step), inst))
    requires step.Stateful? ==> !Drifting(w.s, EtcdSet(inst.spec))
    ensures var (v, e) := RunStep(step, w, inst);
            e.None? && if step.Healthy? then v.s == w.s else Settled(w.s, v.s, TaskOf(ComponentOf(step), inst))
  {
    hide Settled, Build, Sane, Placed, ApplyObject, ApplyClass, ApplyDynamic, HealthCheck, ReconcileSchedule, KeyOf,
         Strategies.EnsureNamespace, FixedOf, Owned, DriftFields, EtcdSet, Acceptable, Attempt, Askable;
    var t := TaskOf(ComponentOf(step), inst);
    var o := Build(ComponentOf(step), inst.spec);
    TaskAskable(ComponentOf(step), inst);
    match step
    case Space(c) => SpaceSettles(w, t);
    case Healthy =>
      EtcdKinds(inst.spec);
      HealthPasses(w);
    case Backup => BackupSettles(w, inst);
    case Class(c) => ClassSettles(w, o, t);
    case _ =>
      if step.Stateful? {
        SetFields(inst);
      }
      AttemptSettles(w, t);
      FirstTry(StrategyOf(t.way), w, t.key, o, inst.uid);
  }

  lemma SetFields(inst: Instance)
    ensures SetOf(TaskOf(EtcdSts, inst).desired) == EtcdSet(inst.spec) && TaskOf(EtcdSts, inst).key == ETCD_KEY
  {
    hide KeyOf, EtcdSet, LabelsOf;
    EtcdKinds(inst.spec);
  }
}
