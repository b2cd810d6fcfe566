/** What becomes of the objects of an engine that is switched off. */
module Retirement {
  import opened Wrappers
  import opened Objects
  import opened Api
  import opened Components
  import opened Strategies
  import opened Traces
  import opened Reconcile
  import opened Effects
  import opened Passes
  import opened Plans
  import opened Agreement
  import opened Calm
  import opened Convergence
  import opened Inventory

  // ---- Which objects the sweep can see ----

  /** What the builders give no managed-by label. */
  predicate Unlabelled(c: Component) {
    match c
    case OpenebsNs => true
    case MayastorNs => true
    case LvmCr => true
    case ZfsCr => true
    case LvmNodesDef => true
    case LvmVolumesDef => true
    case LvmSnapshotsDef => true
    case ZfsNodesDef => true
    case ZfsVolumesDef => true
    case ZfsSnapshotsDef => true
    case SnapshotClassesDef => true
    case SnapshotsDef => true
    case SnapshotContentsDef => true
    case _ => false
  }

  lemma KnownLabels()
    ensures forall component :: Managed(LabelsFor(component))
    ensures !Managed(map[]) && !Managed(PodSecurity())
    ensures Managed(map["app.kubernetes.io/name" := "mayastor-snapshot", MANAGED_BY := OPERATOR_NAME])
  {
    assert "pod-security.kubernetes.io/enforce"[0] != MANAGED_BY[0];
    assert "pod-security.kubernetes.io/warn"[0] != MANAGED_BY[0];
    assert "pod-security.kubernetes.io/audit"[0] != MANAGED_BY[0];
  }

  lemma LvmLabels(c: Component)
    requires EngineOf(c) == Lvm
    ensures Managed(LabelsOf(c)) <==> !Unlabelled(c)
  {
    hide LabelsFor, PodSecurity, Managed;
    KnownLabels();
  }

  lemma ZfsLabels(c: Component)
    requires EngineOf(c) == Zfs
    ensures Managed(LabelsOf(c)) <==> !Unlabelled(c)
  {
    hide LabelsFor, PodSecurity, Managed;
    KnownLabels();
  }

  lemma SmallLabels(c: Component)
    requires EngineOf(c) in {Hostpath, Rawfile}
    ensures Managed(LabelsOf(c)) <==> !Unlabelled(c)
  {
    hide LabelsFor, PodSecurity, Managed;
    KnownLabels();
  }

  lemma MayastorLabels(c: Component)
    requires EngineOf(c) == Mayastor
    ensures Managed(LabelsOf(c)) <==> !Unlabelled(c)
  {
    hide LabelsFor, PodSecurity, Managed;
    KnownLabels();
  }

  lemma LabelledComponents(c: Component)
    ensures Managed(LabelsOf(c)) <==> !Unlabelled(c)
  {
    hide LabelsOf, Managed, Unlabelled, EngineOf;
    match EngineOf(c)
    case Lvm => LvmLabels(c);
    case Zfs => ZfsLabels(c);
    case Mayastor => MayastorLabels(c);
    case _ => SmallLabels(c);
  }

  lemma UnlabelledKinds(c: Component, spec: Spec)
    requires Unlabelled(c)
    ensures Scanned(KeyOf(c, spec)) ==> c == LvmCr || c == ZfsCr
  {
  }

  // ---- What a deployment leaves alone ----

  /** A deployment for one key leaves every other as it is. */
  lemma TaskSparesOthers(h: History, t: Task, a: Agenda, k: Key)
    requires Justified(h, t) && SoundTask(t, a) && t.key != k
    ensures SameAt(Last(h).pre, Last(h).post, k) && SameAround(Last(h).pre, Last(h).post)
  {
    hide JustRead, JustGone, Replacement, Admitted, Merged, DriftFields, Proper, Owned, BeforeRequest, UpdateRefused;
  }

  /** What is stored under the key, if anything is. */
  ghost function StoredAt(s: State, k: Key): Option<Object> {
    if k in s.objs then Some(s.objs[k]) else None
  }

  /** A calm deployment leaves alone what the sweep after it may take. */
  lemma SweepableIsSpared(w: World, v: World, inst: Instance, k: Key)
    requires CalmWorld(w) && Reached(w, v, Deploying(AgendaOf(inst)))
    requires Scanned(k) && k.name !in Expected(inst.spec)
    ensures StoredAt(v.s, k) == StoredAt(w.s, k) && v.s.inst == w.s.inst && CalmWorld(v)
  {
    hide Good, Sane, Later, Via, Heeded, Justified, Scanned, Expected, KeyOf, TaskOf, Wanted, TeardownKeys, SoundTask;
    var a := AgendaOf(inst);
    var inv := (s: State) => StoredAt(s, k) == StoredAt(w.s, k) && s.inst == w.s.inst;
    var rely := (s: State, u: State) => inv(s) ==> inv(u);
    AgendaAgrees(inst);
    AgendaSound(inst);
    CalmLater(w, v, Deploying(a));
    CalmHeeds(w, v, Deploying(a), rely);
    forall h: History | Deploying(a)(h) && inv(Last(h).pre)
      ensures inv(Last(h).post)
    {
      var t :| t in a.tasks && Justified(h, t);
      assert t.key != k by { NotTheTask(t, a, k); }
      TaskSparesOthers(h, t, a, k);
    }
    Throughout(w, v, rely, Deploying(a), inv);
  }

  lemma NotTheTask(t: Task, a: Agenda, k: Key)
    requires t in a.tasks && Agrees(a) && Sound(a) && Scanned(k) && k.name !in a.expected
    ensures t.key != k
  {
    hide Proper;
  }

  // ---- After an edit ----

  /** A calm reconcile takes away exactly those objects under unaccounted names in scanned places that
      carry the label. */
  lemma UnexpectedIsTaken(s: State, inst: Instance, order: Ordering, k: Key)
    requires Sane(s) && s.inst == Some(inst) && !inst.deleting
    requires Scanned(k) && k.name !in Expected(inst.spec)
    ensures var u := AfterPass(s, CALM_PASS, order);
            StoredAt(u, k) == if k in s.objs && Managed(s.objs[k].labels) then None else StoredAt(s, k)
  {
    hide Good, Sane, Scanned, Expected, Managed, AfterPass, DeployFrom, CleanupOrphans, PublishStatus, KeyOf, TaskOf,
         Wanted, TeardownKeys, ScheduleWanted, Via, PhaseFor, ConditionsFor, Swept, Tidied, Deploying;
    var w, i := CalmReconcile(s, inst, order);
    var (v, engines) := Deploy(w, i);
    DeployReaches(0, w, i);
    SweepableIsSpared(w, v, i, k);
    var u := CleanupOrphans(v, i, order).0;
    CalmCleanup(v, i, order);
    assert AgendaOf(i).schedule.kind == Schedule by { ScheduleKind(i.spec); }
    SweptIsTaken(v.s, u.s, AgendaOf(i), k);
    CalmPublish(u, i, engines);
  }

  lemma SweptIsTaken(s: State, u: State, a: Agenda, k: Key)
    requires Swept(s, u, a) && Tidied(u, a) && a.schedule.kind == Schedule
    requires Scanned(k) && k.name !in a.expected
    ensures StoredAt(u, k) == if k in s.objs && Managed(s.objs[k].labels) then None else StoredAt(s, k)
    ensures u.inst == s.inst
  {
    hide Managed;
    assert !Stray(u, k, a.expected);
  }

  /** A component of a scanned place is stored with the label, unless it is one of the two. */
  lemma StoredLabel(s: State, inst: Instance, c: Component)
    requires AtRest(s, inst) && Enabled(EngineOf(c), inst.spec) && Scanned(KeyOf(c, inst.spec))
    ensures match StoredAt(s, KeyOf(c, inst.spec))
            case Some(x) => Managed(x.labels) <==> c != LvmCr && c != ZfsCr
            case None => false
  {
    hide AtRest, Scanned, KeyOf, Enabled, EngineOf, LabelsOf, ReadsSpec, Keepable, TaskOf, Managed, Unlabelled,
         IsNamespace;
    LabelledComponents(c);
    if Unlabelled(c) { UnlabelledKinds(c, inst.spec); }
    TwoUnlabelled();
    ScannedIsNeither(c, inst.spec);
    AllAreThere(s, inst, c);
  }

  lemma TwoUnlabelled()
    ensures Unlabelled(LvmCr) && Unlabelled(ZfsCr)
  {
  }

  lemma ScannedIsNeither(c: Component, spec: Spec)
    requires Scanned(KeyOf(c, spec))
    ensures !IsNamespace(c) && c != EtcdSchedule
  {
    hide KeyOf;
    KindTells(c, spec);
  }

  /** An edit changes nothing but the spec. */
  lemma EditKeepsObjects(s: State, inst: Instance, spec: Spec)
    requires Serves(s, inst) && !inst.deleting && Sane(s)
    ensures var t := Act(s, EditInstance(spec));
            && Sane(t) && t.objs == s.objs
            && match t.inst
               case Some(i) => i.spec == spec && !i.deleting
               case None => false
  {
    hide Sane, Later;
    ActSane(s, EditInstance(spec));
  }

  /** From a store at rest, after an edit of the spec and one calm reconcile: of all that was deployed in
      scanned places under names the new spec does not account for, the cluster roles of LVM and ZFS, which
      carry no label, are left, and nothing else. */
  lemma RetiredIsGone(s: State, inst: Instance, spec: Spec, order: Ordering, c: Component)
    requires AtRest(s, inst) && !inst.deleting && Enabled(EngineOf(c), inst.spec)
    requires Scanned(KeyOf(c, inst.spec)) && KeyOf(c, inst.spec).name !in Expected(spec)
    ensures KeyOf(c, inst.spec) in AfterPass(Act(s, EditInstance(spec)), CALM_PASS, order).objs
       <==> c == LvmCr || c == ZfsCr
  {
    hide Scanned, KeyOf, Expected, AfterPass, Enabled, EngineOf, Sane, Ready, AgendaOf, Managed, Drifts, Tidied,
         AllConform, AllRunning, ReportFor, Act;
    var t := Act(s, EditInstance(spec));
    StoredLabel(s, inst, c);
    EditKeepsObjects(s, inst, spec);
    UnexpectedIsTaken(t, t.inst.value, order, KeyOf(c, inst.spec));
  }

  // ---- Switched off ----

  /** From a store at rest, after an edit that switches an engine off and one calm reconcile: of what the
      engine had in scanned places, its classes aside, the cluster roles of LVM and ZFS are left, and nothing
      else; unless the user called a class like it. */
  lemma SwitchedOffIsGone(s: State, inst: Instance, spec: Spec, order: Ordering, c: Component)
    requires AtRest(s, inst) && !inst.deleting && Enabled(EngineOf(c), inst.spec) && !Enabled(EngineOf(c), spec)
    requires !IsClass(c) && Scanned(KeyOf(c, inst.spec)) && KeyOf(c, inst.spec).name !in ChosenNames(spec)
    ensures KeyOf(c, inst.spec) in AfterPass(Act(s, EditInstance(spec)), CALM_PASS, order).objs
       <==> c == LvmCr || c == ZfsCr
  {
    hide Scanned, KeyOf, Expected, AfterPass, Enabled, EngineOf, AtRest, IsClass, ChosenNames,
         FixedNames, Act;
    ExpectedNames(KeyOf(c, inst.spec).name, spec);
    NamedByItsEngine(c, inst.spec, Lvm);
    NamedByItsEngine(c, inst.spec, Zfs);
    NamedByItsEngine(c, inst.spec, Hostpath);
    NamedByItsEngine(c, inst.spec, Rawfile);
    NamedByItsEngine(c, inst.spec, Mayastor);
    RetiredIsGone(s, inst, spec, order, c);
  }
}
