/** Deployment and orphan sweep agree on names: what a reconcile deploys it never sweeps, and a sweep
    that completes leaves nothing managed that the spec does not account for. */
module Agreement {
  import opened Wrappers
  import opened Objects
  import opened Api
  import opened Components
  import opened Strategies
  import opened Traces
  import opened Reconcile
  import opened Effects
  import opened Passes
  import opened Plans

  // ---- Everything deployed is expected ----

  lemma LvmNamesExpected(c: Component, spec: Spec)
    requires EngineOf(c) == Lvm && Enabled(Lvm, spec) && Scanned(KeyOf(c, spec))
    ensures KeyOf(c, spec).name in ExpectedOf(Lvm, spec)
  {
  }

  lemma ZfsNamesExpected(c: Component, spec: Spec)
    requires EngineOf(c) == Zfs && Enabled(Zfs, spec) && Scanned(KeyOf(c, spec))
    ensures KeyOf(c, spec).name in ExpectedOf(Zfs, spec)
  {
  }

  lemma HostpathNamesExpected(c: Component, spec: Spec)
    requires EngineOf(c) == Hostpath && Enabled(Hostpath, spec) && Scanned(KeyOf(c, spec))
    ensures KeyOf(c, spec).name in ExpectedOf(Hostpath, spec)
  {
  }

  lemma RawfileNamesExpected(c: Component, spec: Spec)
    requires EngineOf(c) == Rawfile && Enabled(Rawfile, spec) && Scanned(KeyOf(c, spec))
    ensures KeyOf(c, spec).name in ExpectedOf(Rawfile, spec)
  {
  }

  lemma MayastorNamesExpected(c: Component, spec: Spec)
    requires EngineOf(c) == Mayastor && Enabled(Mayastor, spec) && Scanned(KeyOf(c, spec))
    ensures KeyOf(c, spec).name in ExpectedOf(Mayastor, spec)
  {
  }

  /** For every spec: a deployed object of a scanned kind has an expected name. */
  lemma DeployedIsExpected(c: Component, spec: Spec)
    requires Wanted(c, spec) && Scanned(KeyOf(c, spec))
    ensures KeyOf(c, spec).name in Expected(spec)
  {
    hide Wanted, KeyOf, Scanned, ExpectedOf, EngineOf, Enabled;
    NamespacesUnscanned(spec);
    WantedByItsEngine(c, spec);
    match EngineOf(c)
    case Lvm => LvmNamesExpected(c, spec);
    case Zfs => ZfsNamesExpected(c, spec);
    case Hostpath => HostpathNamesExpected(c, spec);
    case Rawfile => RawfileNamesExpected(c, spec);
    case Mayastor => MayastorNamesExpected(c, spec);
  }

  lemma NamespacesUnscanned(spec: Spec)
    ensures !Scanned(KeyOf(OpenebsNs, spec)) && !Scanned(KeyOf(EtcdSchedule, spec))
  {
  }

  // ---- Which names are expected ----

  /** The class names the user chose for enabled engines. */
  function ChosenNames(spec: Spec): set<Name> {
    (if Enabled(Lvm, spec) then Chosen(spec.lvm.value.className) else {})
    + (if Enabled(Zfs, spec) then Chosen(spec.zfs.value.className) else {})
    + (if Enabled(Hostpath, spec) then Chosen(spec.hostpath.value.className) else {})
    + (if Enabled(Mayastor, spec)
       then Chosen(spec.mayastor.value.className) + Chosen(spec.mayastor.value.snapshotClassName) else {})
  }

  function FixedNames(e: Engine): set<Name> {
    match e
    case Lvm => {LvmController, LvmNode, LvmDriver, LvmClass, LvmRole, LvmBinding}
    case Hostpath => {LocalPvProvisioner, HostpathClass}
    case Zfs => {ZfsController, ZfsNode, ZfsDriver, ZfsClass, ZfsRole, ZfsBinding}
    case Rawfile => {RawfileProvisioner, RawfileClass, RawfileRole, RawfileBinding}
    case Mayastor => MayastorNames()
  }

  lemma ExpectedNames(n: Name, spec: Spec)
    ensures n in Expected(spec) <==>
              || n in ChosenNames(spec)
              || (Enabled(Lvm, spec) && n in FixedNames(Lvm))
              || (Enabled(Hostpath, spec) && n in FixedNames(Hostpath))
              || (Enabled(Zfs, spec) && n in FixedNames(Zfs))
              || (Enabled(Rawfile, spec) && n in FixedNames(Rawfile))
              || (Enabled(Mayastor, spec) && n in FixedNames(Mayastor))
  {
    hide MayastorNames;
  }

  /** A spec with nothing but that engine, all its names default. */
  function Only(e: Engine): Spec {
    match e
    case Lvm => Spec(Some(LvmConfig(true, None, false, "")), None, None, None, None, 0)
    case Zfs => Spec(None, Some(ZfsConfig(true, None, false, "")), None, None, None, 0)
    case Hostpath => Spec(None, None, Some(HostpathConfig(true, None, false, "")), None, None, 0)
    case Rawfile => Spec(None, None, None, Some(RawfileConfig(true, false, "")), None, 0)
    case Mayastor =>
      Spec(None, None, None, None, Some(MayastorConfig(true, None, false, None, 3, None, "", false, "", None)), 0)
  }

  lemma OnlyExpects(e: Engine)
    ensures Enabled(e, Only(e)) && Expected(Only(e)) == FixedNames(e)
  {
    hide MayastorNames;
  }

  /** The engine a fixed name belongs to. */
  function EngineNamed(n: Name): Engine {
    match n
    case LvmController => Lvm
    case LvmRole => Lvm
    case LvmBinding => Lvm
    case LvmNode => Lvm
    case LvmDriver => Lvm
    case LvmClass => Lvm
    case LocalPvProvisioner => Hostpath
    case HostpathClass => Hostpath
    case ZfsController => Zfs
    case ZfsRole => Zfs
    case ZfsBinding => Zfs
    case ZfsNode => Zfs
    case ZfsDriver => Zfs
    case ZfsClass => Zfs
    case RawfileProvisioner => Rawfile
    case RawfileRole => Rawfile
    case RawfileBinding => Rawfile
    case RawfileClass => Rawfile
    case _ => Mayastor
  }

  lemma MayastorNamesTell(n: Name)
    ensures n in MayastorNames() ==> EngineNamed(n) == Mayastor
  {
  }

  lemma FixedNamesTell(n: Name, e: Engine)
    ensures n in FixedNames(e) ==> EngineNamed(n) == e
  {
    hide MayastorNames;
    MayastorNamesTell(n);
  }

  /** The name of a component in a scanned place, but for the classes, is one of its engine's and of no
      other's. */
  lemma NamedByItsEngine(c: Component, spec: Spec, e: Engine)
    requires !IsClass(c) && Scanned(KeyOf(c, spec))
    ensures KeyOf(c, spec).name in FixedNames(e) <==> e == EngineOf(c)
  {
    hide KeyOf, FixedNames, EngineOf, Enabled, Scanned, Expected, IsClass, EngineNamed;
    var own := EngineOf(c);
    KeysStay(c, spec, Only(own));
    OnlyExpects(own);
    EnabledWantsAll(c, Only(own));
    DeployedIsExpected(c, Only(own));
    FixedNamesTell(KeyOf(c, spec).name, own);
    FixedNamesTell(KeyOf(c, spec).name, e);
  }

  /** No key in a scanned place but a class's depends on the spec. */
  lemma KeysStay(c: Component, s: Spec, t: Spec)
    requires !IsClass(c) && Scanned(KeyOf(c, s))
    ensures KeyOf(c, t) == KeyOf(c, s)
  {
    hide VeleroSpaceOf, SnapshotClassOf, LvmClassOf, ZfsClassOf, HostpathClassOf, MayastorClassOf;
  }

  // ---- Nothing deployed is swept ----

  /** What a sweep takes away: an unexpected scanned object, or a schedule the spec does not want. */
  ghost predicate SweptKey(k: Key, a: Agenda) {
    || (Scanned(k) && k.name !in a.expected)
    || (k == a.schedule && !a.scheduleWanted)
  }

  /** No task of the agenda that may be brought about is for a key that a sweep takes, and a schedule is
      removed only if it is not wanted. */
  ghost predicate Agrees(a: Agenda) {
    forall t | t in a.tasks :: if Applicable(t) then !SweptKey(t.key, a) else !a.scheduleWanted
  }

  lemma WantedIsNotSwept(c: Component, inst: Instance)
    requires Wanted(c, inst.spec)
    ensures if Applicable(TaskOf(c, inst)) then !SweptKey(KeyOf(c, inst.spec), AgendaOf(inst))
            else !ScheduleWanted(inst.spec)
  {
    hide KeyOf, Desired, Wanted, Expected, TeardownKeys, Scanned, IsClass, EngineOf;
    if Scanned(KeyOf(c, inst.spec)) {
      DeployedIsExpected(c, inst.spec);
    }
    NamespacesUnscanned(inst.spec);
    KindTells(c, inst.spec);
    ScheduleKind(inst.spec);
    if c == EtcdSchedule {
      WantedByItsEngine(c, inst.spec);
      assert EngineOf(EtcdSchedule) == Mayastor by { ScheduleOfMayastor(); }
    }
  }

  lemma ScheduleOfMayastor()
    ensures EngineOf(EtcdSchedule) == Mayastor
  {
  }

  lemma AgendaAgrees(inst: Instance)
    ensures Agrees(AgendaOf(inst))
  {
    hide KeyOf, Desired, WayOf, Wanted, Expected, TeardownKeys, ScheduleWanted, SweptKey;
    forall t | t in AgendaOf(inst).tasks
      ensures if Applicable(t) then !SweptKey(t.key, AgendaOf(inst)) else !ScheduleWanted(inst.spec)
    {
      var c :| Wanted(c, inst.spec) && t == TaskOf(c, inst);
      WantedIsNotSwept(c, inst);
    }
  }

  // ---- A completed sweep is complete ----

  /** A managed object of a scanned kind and namespace whose name is not accounted for. */
  ghost predicate Stray(s: State, k: Key, expected: set<Name>) {
    k in s.objs && Scanned(k) && Managed(s.objs[k].labels) && k.name !in expected
  }

  /** Others make no stray under the key. */
  ghost function NoStray(k: Key, expected: set<Name>): Rely {
    (s: State, t: State) => Stray(t, k, expected) ==> Stray(s, k, expected)
  }

  /** What is no stray does not become one while the operator sweeps. */
  lemma {:induction false} StaysNoStray(w: World, v: World, a: Agenda, k: Key)
    requires Reached(w, v, Sweeping(a)) && Heeded(w, v, NoStray(k, a.expected)) && !Stray(w.s, k, a.expected)
    ensures !Stray(v.s, k, a.expected) && Along(w, v, (s: State) => !Stray(s, k, a.expected))
  {
    hide Good, Sane, Later, Heeded, Scanned, Managed, ListedIn;
    Throughout(w, v, NoStray(k, a.expected), Sweeping(a), (s: State) => !Stray(s, k, a.expected));
  }

  /** The items swept are gone. */
  lemma {:induction false} SweepClears(w: World, items: seq<Key>, a: Agenda, k: Key)
    requires Good(w) && Heeded(w, Sweep(w, items, a.expected).0, NoStray(k, a.expected))
    requires forall j | j in items :: Scanned(j) && ListedIn(w.trace, j)
    ensures Sweep(w, items, a.expected).1.None? && k in items ==> !Stray(Sweep(w, items, a.expected).0.s, k, a.expected)
    decreases |items|
  {
    hide Via, Good, Call, Scanned, ListedIn, Sweeping, NoStray, Heeded;
    if items != [] {
      if items[0].name in a.expected {
        SweepClears(w, items[1..], a, k);
      } else {
        var (v, r) := Call(w, Delete(items[0], OrphanSite));
        var end := Sweep(w, items, a.expected).0;
        OrphanVia(w, items[0], a);
        if !r.Fail? {
          forall j | j in items[1..]
            ensures ListedIn(v.trace, j)
          {
            ListedLater(w.trace, v.trace, j);
          }
          SweepReaches(v, items[1..], a);
          HeededParts(w, v, end, NoStray(k, a.expected));
          SweepClears(v, items[1..], a, k);
          DeletedIsGone(w, items[0], OrphanSite);
          if k == items[0] {
            StaysNoStray(v, end, a, k);
          }
        }
      }
    }
  }

  lemma ScanClears(w: World, scan: ScanStep, a: Agenda, order: Ordering, k: Key)
    requires Good(w) && scan in Scans() && Heeded(w, Scan(w, scan, a.expected, order).0, NoStray(k, a.expected))
    requires ScanOf(scan, k) && Scan(w, scan, a.expected, order).1.None?
    ensures !Stray(Scan(w, scan, a.expected, order).0.s, k, a.expected)
  {
    hide Via, Good, Call, Scanned, ListedIn, Sweeping, NoStray, Sweep, Scans, Managed, Heeded;
    var (v, r) := Call(w, List(scan.kind, scan.space));
    ListVia(w, scan, a);
    var items := order(r.keys);
    assert Enumerates(items, r.keys);
    forall j | j in items
      ensures Scanned(j) && ListedIn(v.trace, j)
    {
      ScansAreScanned(scan, j);
    }
    var u := Sweep(v, items, a.expected).0;
    SweepReaches(v, items, a);
    HeededParts(w, v, u, NoStray(k, a.expected));
    SweepClears(v, items, a, k);
    if !Stray(v.s, k, a.expected) {
      StaysNoStray(v, u, a, k);
    }
  }

  lemma {:induction false} ScansClear(i: nat, w: World, a: Agenda, order: Ordering, k: Key, scan: ScanStep)
    requires Good(w) && Heeded(w, ScanFrom(i, w, a.expected, order).0, NoStray(k, a.expected))
    requires ScanFrom(i, w, a.expected, order).1.None? && ScanOf(scan, k)
    requires scan in Scans() && (!Stray(w.s, k, a.expected) || exists j :: i <= j < |Scans()| && Scans()[j] == scan)
    ensures !Stray(ScanFrom(i, w, a.expected, order).0.s, k, a.expected)
    decreases |Scans()| - i
  {
    hide Via, Good, NoStray, Scan, Scans, Stray, ScanOf, Heeded, Sweeping;
    if i < |Scans()| {
      var v := Scan(w, Scans()[i], a.expected, order).0;
      ScanReaches(w, Scans()[i], a, order);
      ScansReach(i + 1, v, a, order);
      HeededParts(w, v, ScanFrom(i, w, a.expected, order).0, NoStray(k, a.expected));
      if Scans()[i] == scan {
        ScanClears(w, scan, a, order, k);
      } else if !Stray(w.s, k, a.expected) {
        StaysNoStray(w, v, a, k);
      }
      ScansClear(i + 1, v, a, order, k, scan);
    }
  }

  /** Where an object of a scanned kind is listed. */
  function ScanFor(k: Key): ScanStep {
    ScanStep(k.kind, k.space)
  }

  lemma ScannedByOne(k: Key)
    requires Scanned(k)
    ensures exists j :: 0 <= j < |Scans()| && Scans()[j] == ScanFor(k)
  {
    var j := match k.kind
             case Deployment => if k.space == OpenebsSpace then 0 else 3
             case DaemonSet => if k.space == OpenebsSpace then 1 else 4
             case ServiceAccount => if k.space == OpenebsSpace then 2 else 6
             case StatefulSet => 5
             case ClusterRole => 7
             case ClusterRoleBinding => 8
             case CsiDriver => 9
             case _ => 10;
    assert Scans()[j] == ScanFor(k);
  }

  /** A sweep that completes leaves no managed object of a scanned kind that the spec does not account
      for, unless somebody else made it meanwhile, and no schedule that is not wanted. */
  lemma CompletedSweepIsComplete(w: World, inst: Instance, order: Ordering, k: Key)
    requires Good(w) && CleanupOrphans(w, inst, order).1.None?
    requires Heeded(w, CleanupOrphans(w, inst, order).0, NoStray(k, Expected(inst.spec)))
    ensures !Stray(CleanupOrphans(w, inst, order).0.s, k, Expected(inst.spec))
    ensures !ScheduleWanted(inst.spec) ==> KeyOf(EtcdSchedule, inst.spec) !in CleanupOrphans(w, inst, order).0.s.objs
  {
    hide Via, Good, Expected, NoStray, Scanned, ScanOf, Scans, ScanFrom, KeyOf, ScheduleWanted, Sweeping, TeardownKeys,
         TaskOf, Wanted, Managed, Call, Heeded, ScanFor;
    var a := AgendaOf(inst);
    var v := ScanAll(w, a.expected, order).0;
    var u := CleanupOrphans(w, inst, order).0;
    ScansReach(0, w, a, order);
    if a.scheduleWanted {
      ReachedSelf(v, Sweeping(a));
    } else {
      UnwantedVia(v, a);
      DeletedIsGone(v, a.schedule, UnwantedSite);
    }
    ReachedLater(v, u, Sweeping(a));
    HeededParts(w, v, u, NoStray(k, a.expected));
    if Scanned(k) {
      ScannedByOne(k);
      assert ScanOf(ScanFor(k), k) by { ScanForIs(k); }
      ScansClear(0, w, a, order, k, ScanFor(k));
      StaysNoStray(v, u, a, k);
    }
  }

  lemma ScanForIs(k: Key)
    ensures ScanOf(ScanFor(k), k)
  {
  }

  /** The last request failed this way. */
  ghost predicate FailedLast(w: World, e: Error) {
    exists req :: Last(w.trace).actor == Operator(req, Fail(e))
  }

  lemma OneFailure(w: World, req: Request)
    requires Good(w)
    ensures Good(Call(w, req).0) && (Call(w, req).1.Fail? ==> FailedLast(Call(w, req).0, Call(w, req).1.error))
  {
    hide Call, Good;
    CallEvent(w, req);
  }

  lemma {:induction false} SweepFails(w: World, items: seq<Key>, expected: set<Name>)
    requires Good(w)
    ensures var (v, e) := Sweep(w, items, expected); Good(v) && (e.Some? ==> FailedLast(v, e.value))
    decreases |items|
  {
    hide Call, Good, FailedLast;
    if items != [] {
      if items[0].name in expected {
        SweepFails(w, items[1..], expected);
      } else {
        OneFailure(w, Delete(items[0], OrphanSite));
        SweepFails(Call(w, Delete(items[0], OrphanSite)).0, items[1..], expected);
      }
    }
  }

  lemma {:induction false} ScansFail(i: nat, w: World, expected: set<Name>, order: Ordering)
    requires Good(w)
    ensures var (v, e) := ScanFrom(i, w, expected, order); Good(v) && (e.Some? ==> FailedLast(v, e.value))
    decreases |Scans()| - i
  {
    hide Call, Good, FailedLast, Scans, Sweep;
    if i < |Scans()| {
      var scan := Scans()[i];
      var (v, r) := Call(w, List(scan.kind, scan.space));
      OneFailure(w, List(scan.kind, scan.space));
      if r.Listed? {
        SweepFails(v, order(r.keys), expected);
      }
      ScansFail(i + 1, Scan(w, scan, expected, order).0, expected, order);
    }
  }

  /** A sweep stops at its first failure: when it fails, that is the last thing it asked. */
  lemma SweepStopsAtFailure(w: World, inst: Instance, order: Ordering)
    requires Good(w)
    ensures var (v, e) := CleanupOrphans(w, inst, order); e.Some? ==> FailedLast(v, e.value)
  {
    hide Call, Good, FailedLast, ScanFrom, Expected, KeyOf, ScheduleWanted;
    ScansFail(0, w, Expected(inst.spec), order);
    OneFailure(ScanAll(w, Expected(inst.spec), order).0, Delete(KeyOf(EtcdSchedule, inst.spec), UnwantedSite));
  }
}
