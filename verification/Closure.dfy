/** Referential closure: at every moment of every run, whatever an operator workload refers to is
    there; and the one way a spec can break that. */
module Closure {
  import opened Wrappers
  import opened Objects
  import opened Api
  import opened Components
  import opened Strategies
  import opened Traces
  import opened Reconcile
  import opened Effects
  import opened Passes
  import opened Plans
  import opened PassTraces
  import opened Agreement
  import opened Runs

  // ---- Workloads and what they need ----

  predicate Needed(d: Component) {
    match d
    case OpenebsNs => true
    case MayastorNs => true
    case LvmSa => true
    case HostpathSa => true
    case ZfsSa => true
    case RawfileSa => true
    case MayastorSa => true
    case ZfsBinCm => true
    case _ => false
  }

  /** The key of a component whose name the user does not choose. */
  function FixedKey(c: Component): Key {
    KeyOf(c, NOBODY.spec)
  }

  lemma KeysAreFixed(c: Component, spec: Spec)
    requires Workload(c) || Needed(c)
    ensures KeyOf(c, spec) == FixedKey(c) && !IsClass(c)
  {
  }

  lemma WorkloadPlaced(c: Component)
    requires Workload(c)
    ensures FixedKey(c).kind in {Deployment, DaemonSet} && FixedKey(c).space == SpaceOf(EngineOf(c))
  {
  }

  // ---- Class names that clash ----

  /** The service account a workload names. */
  function AccountOf(c: Component): Component {
    match EngineOf(c)
    case Lvm => LvmSa
    case Zfs => ZfsSa
    case Hostpath => HostpathSa
    case Rawfile => RawfileSa
    case Mayastor => MayastorSa
  }

  /** Pods need namespaces, config maps and the service account of their engine. */
  lemma NeedsPlaced(c: Component, d: Component)
    requires d in Needs(c)
    ensures Workload(c) && Needed(d) && FixedKey(d).kind in {Namespace, ServiceAccount, ConfigMap}
    ensures FixedKey(d).kind == ServiceAccount ==> d == AccountOf(c) && FixedKey(d).space == SpaceOf(EngineOf(c))
  {
  }

  /** What exactly a workload needs: the namespace and the account of its engine, and the ZFS node its
      scripts. */
  lemma WorkloadNeeds(c: Component, d: Component)
    requires Workload(c)
    ensures d in Needs(c) <==> d == HomeOf(EngineOf(c)) || d == AccountOf(c) || (c == ZfsNodeDs && d == ZfsBinCm)
  {
  }

  /** A class is called like a workload of an engine that is switched off, and none like the service
      account of that workload. */
  predicate ClashesWith(c: Component, spec: Spec) {
    && Workload(c) && !Enabled(EngineOf(c), spec)
    && FixedKey(c).name in ChosenNames(spec) && FixedKey(AccountOf(c)).name !in ChosenNames(spec)
  }

  ghost predicate Clash(spec: Spec) {
    exists c :: ClashesWith(c, spec)
  }

  /** The names of a workload and of its service account are among the fixed names of its engine only. */
  lemma WorkloadNames(c: Component, e: Engine)
    requires Workload(c)
    ensures FixedKey(c).name in FixedNames(e) <==> e == EngineOf(c)
    ensures FixedKey(AccountOf(c)).name in FixedNames(e) <==> e == EngineOf(c)
  {
    hide KeyOf, FixedNames, EngineOf, Workload, AccountOf, Scanned;
    WorkloadsAreScanned(c);
    NamedByItsEngine(c, NOBODY.spec, e);
    NamedByItsEngine(AccountOf(c), NOBODY.spec, e);
  }

  lemma WorkloadsAreScanned(c: Component)
    requires Workload(c)
    ensures Scanned(FixedKey(c)) && !IsClass(c)
    ensures Scanned(FixedKey(AccountOf(c))) && !IsClass(AccountOf(c)) && EngineOf(AccountOf(c)) == EngineOf(c)
  {
    hide EngineOf, FixedKey, AccountOf;
    WorkloadPlaced(c);
    WorkloadIsNoClass(c);
    AccountsPlaced(c);
  }

  lemma WorkloadIsNoClass(c: Component)
    requires Workload(c)
    ensures !IsClass(c)
  {
  }

  lemma AccountsPlaced(c: Component)
    ensures FixedKey(AccountOf(c)).kind == ServiceAccount
    ensures FixedKey(AccountOf(c)).space in {OpenebsSpace, MayastorName}
    ensures !IsClass(AccountOf(c)) && EngineOf(AccountOf(c)) == EngineOf(c)
  {
    hide EngineOf;
    AccountEngine(EngineOf(c));
  }

  lemma AccountEngine(e: Engine)
    ensures EngineOf(match e case Lvm => LvmSa case Zfs => ZfsSa case Hostpath => HostpathSa case Rawfile => RawfileSa
                     case Mayastor => MayastorSa) == e
  {
  }

  lemma NamesExpected(c: Component, spec: Spec)
    requires Workload(c)
    ensures FixedKey(c).name in Expected(spec) <==> Enabled(EngineOf(c), spec) || FixedKey(c).name in ChosenNames(spec)
    ensures var name := FixedKey(AccountOf(c)).name;
            name in Expected(spec) <==> Enabled(EngineOf(c), spec) || name in ChosenNames(spec)
  {
    hide ChosenNames, FixedNames, Expected, FixedKey, Workload, Enabled, AccountOf, EngineOf;
    ExpectedNames(FixedKey(c).name, spec);
    ExpectedNames(FixedKey(AccountOf(c)).name, spec);
    WorkloadNames(c, Lvm);
    WorkloadNames(c, Hostpath);
    WorkloadNames(c, Zfs);
    WorkloadNames(c, Rawfile);
    WorkloadNames(c, Mayastor);
  }

  /** Exactly when no names clash, a workload whose name is expected has a service account whose name
      is expected. */
  lemma ClashIff(spec: Spec)
    ensures Clash(spec) <==> exists c :: Workload(c) && FixedKey(c).name in Expected(spec)
                                        && FixedKey(AccountOf(c)).name !in Expected(spec)
  {
    hide Expected, ChosenNames, FixedKey, Enabled, Workload, AccountOf, EngineOf;
    forall c | Workload(c)
      ensures ClashesWith(c, spec)
         <==> FixedKey(c).name in Expected(spec) && FixedKey(AccountOf(c)).name !in Expected(spec)
    {
      NamesExpected(c, spec);
    }
  }

  // ---- The network of workloads and what they need ----

  /** Which keys are workloads, and which key needs which. */
  datatype Net = Net(workloads: iset<Key>, needs: iset<(Key, Key)>)

  ghost predicate IsNeeded(net: Net, d: Key) {
    exists k :: (k, d) in net.needs
  }

  ghost predicate Refers(c: Component, d: Key) {
    exists e :: e in Needs(c) && d == FixedKey(e)
  }

  ghost predicate RefersTo(k: Key, d: Key) {
    exists c :: k == FixedKey(c) && Refers(c, d)
  }

  ghost function Network(): Net {
    Net(iset c | Workload(c) :: FixedKey(c), iset p: (Key, Key) | RefersTo(p.0, p.1))
  }

  predicate ManagedAt(s: State, k: Key) {
    k in s.objs && Managed(s.objs[k].labels)
  }

  /** Every workload of the operator's in the store has what it needs: its namespace, its service account
      and its config map. */
  ghost predicate Closed(s: State, net: Net) {
    forall k, d | (k, d) in net.needs && ManagedAt(s, k) :: d in s.objs
  }

  /** Workloads are deployments and daemon sets in the two namespaces; they need namespaces, config maps
      and the service accounts of their own namespace. */
  ghost predicate SoundNet(net: Net) {
    && (forall k | k in net.workloads :: k.kind in {Deployment, DaemonSet} && k.space in {OpenebsSpace, MayastorName})
    && (forall k, d | (k, d) in net.needs ::
          && k in net.workloads && d.kind in {Namespace, ServiceAccount, ConfigMap}
          && (d.kind == ServiceAccount ==> d.space == k.space))
  }

  lemma NeedOf(k: Key, d: Key) returns (c: Component, e: Component)
    requires (k, d) in Network().needs
    ensures e in Needs(c) && k == FixedKey(c) && d == FixedKey(e)
  {
    hide Needs, FixedKey, Workload;
    c :| k == FixedKey(c) && Refers(c, d);
    e :| e in Needs(c) && d == FixedKey(e);
  }

  lemma NetworkSound()
    ensures SoundNet(Network())
  {
    hide KeyOf, FixedKey, Needs, Workload, RefersTo;
    forall c | Workload(c)
      ensures FixedKey(c).kind in {Deployment, DaemonSet} && FixedKey(c).space in {OpenebsSpace, MayastorName}
    {
      WorkloadPlaced(c);
    }
    forall k, d | (k, d) in Network().needs
      ensures k in Network().workloads && d.kind in {Namespace, ServiceAccount, ConfigMap}
      ensures d.kind == ServiceAccount ==> d.space == k.space
    {
      var c, e := NeedOf(k, d);
      NeedsPlaced(c, e);
      WorkloadPlaced(c);
    }
  }

  /** Whatever name of a workload is accounted for, so is the name of its service account. */
  ghost predicate Serves(expected: set<Name>, net: Net) {
    forall k, d | (k, d) in net.needs && d.kind == ServiceAccount && k.name in expected :: d.name in expected
  }

  lemma NetworkServes(spec: Spec)
    requires !Clash(spec)
    ensures Serves(Expected(spec), Network())
  {
    hide KeyOf, FixedKey, Needs, Workload, Expected, AccountOf, Clash;
    ClashIff(spec);
    forall k, d | (k, d) in Network().needs && d.kind == ServiceAccount && k.name in Expected(spec)
      ensures d.name in Expected(spec)
    {
      var c, e := NeedOf(k, d);
      NeedsPlaced(c, e);
    }
  }

  // ---- What others may do ----

  /** Others take away nothing a workload needs, and make no operator workload or label what stands in
      the place of one. */
  ghost predicate Considerately(s: State, t: State, net: Net) {
    && (forall d | IsNeeded(net, d) && d in s.objs :: d in t.objs)
    && (forall k | k in net.workloads && ManagedAt(t, k) :: ManagedAt(s, k))
  }

  ghost function Considerate(net: Net): Rely {
    (s: State, t: State) => Considerately(s, t, net)
  }

  /** A request that keeps the store closed. */
  ghost function KeepsClosed(net: Net): Guarantee {
    (h: History) => Closed(Last(h).pre, net) ==> Closed(Last(h).post, net)
  }

  /** Keeping everything needed and managing no new workload keeps a store closed. */
  lemma StaysClosed(s: State, t: State, net: Net)
    requires Closed(s, net) && SoundNet(net) && Considerately(s, t, net)
    ensures Closed(t, net)
  {
    hide Managed;
    forall k, d | (k, d) in net.needs && ManagedAt(t, k)
      ensures d in t.objs
    {
      assert ManagedAt(s, k) && IsNeeded(net, d);
    }
  }

  // ---- Deployment ----

  /** Nothing a deployment does to its object takes away what workloads need, nor does it manage another
      workload. */
  lemma TaskIsConsiderate(h: History, t: Task, a: Agenda, k: Key)
    requires Justified(h, t) && SoundTask(t, a)
    ensures k.kind in {Namespace, ServiceAccount, ConfigMap} && k in Last(h).pre.objs ==> k in Last(h).post.objs
    ensures k != t.key && ManagedAt(Last(h).post, k) ==> ManagedAt(Last(h).pre, k)
  {
    hide DriftFields, JustRead, Proper, Replacement, Admitted, Merged, SetOf, IpOf, Owned, Managed;
  }

  lemma TaskKeepsClosed(h: History, t: Task, a: Agenda, net: Net)
    requires Justified(h, t) && SoundTask(t, a) && SoundNet(net)
    requires forall d | (t.key, d) in net.needs :: d in Last(h).pre.objs
    ensures KeepsClosed(net)(h)
  {
    hide Justified, SoundTask, Managed;
    if Closed(Last(h).pre, net) {
      forall k, d | (k, d) in net.needs && ManagedAt(Last(h).post, k)
        ensures d in Last(h).post.objs
      {
        TaskIsConsiderate(h, t, a, k);
        TaskIsConsiderate(h, t, a, d);
      }
    }
  }

  /** What is present stays present while others are considerate and the operator deploys. */
  lemma StaysPresent(w: World, v: World, t: Task, a: Agenda, net: Net, d: Key)
    requires Brought(w, v, t) && SoundTask(t, a) && Heeded(w, v, Considerate(net))
    requires SoundNet(net) && IsNeeded(net, d) && d in w.s.objs
    ensures d in v.s.objs && Along(w, v, (s: State) => d in s.objs)
  {
    hide Heeded, Good, Sane, Later, Justified, SoundTask, ManagedAt;
    forall h: History | Doing(t)(h) && d in Last(h).pre.objs
      ensures d in Last(h).post.objs
    {
      TaskIsConsiderate(h, t, a, d);
    }
    Throughout(w, v, Considerate(net), Doing(t), (s: State) => d in s.objs);
  }

  lemma BroughtKeepsClosed(w: World, v: World, t: Task, a: Agenda, net: Net)
    requires Brought(w, v, t) && SoundTask(t, a) && Heeded(w, v, Considerate(net)) && SoundNet(net)
    requires forall d | (t.key, d) in net.needs :: d in w.s.objs
    ensures Reached(w, v, KeepsClosed(net))
  {
    hide Heeded, Good, Justified, SoundTask, KeepsClosed, SoundNet;
    forall d | (t.key, d) in net.needs
      ensures Along(w, v, (s: State) => d in s.objs)
    {
      assert IsNeeded(net, d);
      StaysPresent(w, v, t, a, net, d);
    }
    forall n | |w.trace| < n <= |v.trace| && Doing(t)(v.trace[..n]) && Last(v.trace[..n]).actor.Operator?
      ensures KeepsClosed(net)(v.trace[..n])
    {
      assert Last(v.trace[..n]) == v.trace[n - 1];
      TaskKeepsClosed(v.trace[..n], t, a, net);
    }
    Relook(w, v, Doing(t), KeepsClosed(net));
  }

  /** Each plan brings about what a component needs before the component. */
  ghost predicate Ordered(plan: seq<Step>, before: set<Component>) {
    forall i, d | 0 <= i < |plan| && d in Needs(ComponentOf(plan[i])) :: d in before || BroughtBefore(plan, i, d)
  }

  ghost predicate BroughtBefore(plan: seq<Step>, i: nat, d: Component)
    requires i <= |plan|
  {
    exists j :: 0 <= j < i && Brings(plan[j], d)
  }

  predicate Brings(step: Step, d: Component) {
    Creates(step) && ComponentOf(step) == d
  }

  lemma LvmOrdered()
    ensures Ordered(LvmPlan(), {})
  {
    var plan := LvmPlan();
    assert Brings(plan[0], OpenebsNs) && Brings(plan[4], LvmSa);
    forall i, d | 0 <= i < |plan| && d in Needs(ComponentOf(plan[i]))
      ensures BroughtBefore(plan, i, d)
    {
      assert plan[i] == Plain(LvmControllerDep) || plan[i] == Plain(LvmNodeDs);
    }
  }

  lemma HostpathOrdered()
    ensures Ordered(HostpathPlan(), {})
  {
    var plan := HostpathPlan();
    assert Brings(plan[0], OpenebsNs) && Brings(plan[1], HostpathSa);
    forall i, d | 0 <= i < |plan| && d in Needs(ComponentOf(plan[i]))
      ensures BroughtBefore(plan, i, d)
    {
      assert plan[i] == Plain(HostpathDep);
    }
  }

  lemma ZfsNeeds()
    ensures |ZfsPlan()| == 12
    ensures forall i, d | 0 <= i < 12 && d in Needs(ComponentOf(ZfsPlan()[i])) ::
              || (d == ZfsBinCm && i == 9)
              || ((d == OpenebsNs || d == ZfsSa) && (i == 7 || i == 9))
  {
  }

  lemma ZfsBrings()
    ensures |ZfsPlan()| == 12
    ensures Brings(ZfsPlan()[0], OpenebsNs) && Brings(ZfsPlan()[4], ZfsSa) && Brings(ZfsPlan()[8], ZfsBinCm)
  {
  }

  lemma ZfsOrdered()
    ensures Ordered(ZfsPlan(), {})
  {
    hide ZfsPlan, Needs, ComponentOf, Brings;
    ZfsNeeds();
    ZfsBrings();
  }

  lemma RawfileOrdered()
    ensures Ordered(RawfilePlan(), {})
  {
    var plan := RawfilePlan();
    assert Brings(plan[0], OpenebsNs) && Brings(plan[1], RawfileSa);
    forall i, d | 0 <= i < |plan| && d in Needs(ComponentOf(plan[i]))
      ensures BroughtBefore(plan, i, d)
    {
      assert plan[i] == Plain(RawfileDep);
    }
  }

  lemma EtcdOrdered()
    ensures Ordered(EtcdPlan(), {})
  {
    assert forall i | 0 <= i < |EtcdPlan()| :: Needs(ComponentOf(EtcdPlan()[i])) == {};
  }

  lemma EtcdBrings()
    ensures forall d | d in {MayastorNs, MayastorSa} :: BroughtBefore(EtcdPlan(), |EtcdPlan()|, d)
  {
    assert Brings(EtcdPlan()[0], MayastorNs) && Brings(EtcdPlan()[4], MayastorSa);
  }

  lemma ControlOrdered()
    ensures Ordered(ControlPlan(), {MayastorNs, MayastorSa})
  {
  }

  lemma NodeOrdered()
    ensures Ordered(NodePlan(), {MayastorNs, MayastorSa})
  {
  }

  lemma OrderedAfter(p: seq<Step>, q: seq<Step>, before: set<Component>, more: set<Component>)
    requires Ordered(p, before) && Ordered(q, more)
    requires forall d | d in more :: d in before || BroughtBefore(p, |p|, d)
    ensures Ordered(p + q, before)
  {
    hide Needs, ComponentOf, Brings;
    forall i, d | 0 <= i < |p + q| && d in Needs(ComponentOf((p + q)[i]))
      ensures d in before || BroughtBefore(p + q, i, d)
    {
      if i < |p| {
        if d !in before {
          var j :| 0 <= j < i && Brings(p[j], d);
          assert (p + q)[j] == p[j];
        }
      } else if d in more {
        if d !in before {
          var j :| 0 <= j < |p| && Brings(p[j], d);
          assert (p + q)[j] == p[j];
        }
      } else {
        var j :| 0 <= j < i - |p| && Brings(q[j], d);
        assert (p + q)[|p| + j] == q[j];
      }
    }
  }

  lemma PlansOrdered(e: Engine)
    ensures Ordered(Plan(e), {})
  {
    hide LvmPlan, ZfsPlan, HostpathPlan, RawfilePlan, EtcdPlan, ControlPlan, NodePlan, Needs, ComponentOf, Brings;
    match e
    case Lvm => LvmOrdered();
    case Zfs => ZfsOrdered();
    case Hostpath => HostpathOrdered();
    case Rawfile => RawfileOrdered();
    case Mayastor =>
      EtcdOrdered();
      EtcdBrings();
      ControlOrdered();
      NodeOrdered();
      var base := {MayastorNs, MayastorSa};
      OrderedAfter(ControlPlan(), NodePlan(), base, base);
      OrderedAfter(EtcdPlan(), ServicePlan(), {}, base);
  }

  // ---- A whole plan ----

  /** The key a step brings something about under, if it does. */
  function BroughtKey(step: Step, spec: Spec): Key {
    KeyOf(ComponentOf(step), spec)
  }

  /** All that earlier steps brought about and workloads need is there. */
  ghost predicate Laid(s: State, plan: seq<Step>, i: nat, spec: Spec, net: Net) {
    forall j | 0 <= j < |plan| && j < i && Creates(plan[j]) && IsNeeded(net, BroughtKey(plan[j], spec)) ::
      BroughtKey(plan[j], spec) in s.objs
  }

  /** What a step needs, an earlier one brings about. */
  ghost predicate InOrder(plan: seq<Step>, spec: Spec, net: Net) {
    forall i, d | 0 <= i < |plan| && (BroughtKey(plan[i], spec), d) in net.needs ::
      exists j :: 0 <= j < i && Creates(plan[j]) && BroughtKey(plan[j], spec) == d
  }

  lemma NetworkInOrder(e: Engine, spec: Spec)
    ensures InOrder(Plan(e), spec, Network())
  {
    hide KeyOf, Needs, Plan, ComponentOf, Creates, Network, Workload, Needed, IsClass;
    PlansOrdered(e);
    var plan := Plan(e);
    forall i, k | 0 <= i < |plan| && (BroughtKey(plan[i], spec), k) in Network().needs
      ensures exists j :: 0 <= j < i && Creates(plan[j]) && BroughtKey(plan[j], spec) == k
    {
      var c, d := NeedOf(BroughtKey(plan[i], spec), k);
      NeedsPlaced(c, d);
      KeysAreFixed(c, spec);
      KeysAreFixed(d, spec);
      KeysDiffer(ComponentOf(plan[i]), spec, c, NOBODY.spec);
      assert BroughtBefore(plan, i, d);
      var j :| 0 <= j < i && Brings(plan[j], d);
      assert BroughtKey(plan[j], spec) == k;
    }
  }

  lemma StepKeepsClosed(plan: seq<Step>, i: nat, w: World, inst: Instance, net: Net)
    requires Good(w) && i < |plan| && Fits(plan[i]) && InOrder(plan, inst.spec, net) && SoundNet(net)
    requires Laid(w.s, plan, i, inst.spec, net) && Heeded(w, RunStep(plan[i], w, inst).0, Considerate(net))
    ensures Reached(w, RunStep(plan[i], w, inst).0, KeepsClosed(net))
    ensures RunStep(plan[i], w, inst).1.None? ==> Laid(RunStep(plan[i], w, inst).0.s, plan, i + 1, inst.spec, net)
  {
    hide Heeded, Good, Via, Fits, ComponentOf, RunStep, KeepsClosed, Creates, Doing, KeyOf, Desired, WayOf, SoundNet,
         SoundTask, Considerate, AgendaOf;
    var (v, e) := RunStep(plan[i], w, inst);
    var t := TaskOf(ComponentOf(plan[i]), inst);
    StepVia(plan[i], w, inst);
    TaskSound(ComponentOf(plan[i]), inst);
    forall d | (t.key, d) in net.needs
      ensures d in w.s.objs
    {
      assert (BroughtKey(plan[i], inst.spec), d) in net.needs;
      var j :| 0 <= j < i && Creates(plan[j]) && BroughtKey(plan[j], inst.spec) == d;
      assert IsNeeded(net, d);
    }
    BroughtKeepsClosed(w, v, t, AgendaOf(inst), net);
    if e.None? {
      forall j | 0 <= j < i + 1 && Creates(plan[j]) && IsNeeded(net, BroughtKey(plan[j], inst.spec))
        ensures BroughtKey(plan[j], inst.spec) in v.s.objs
      {
        if j < i {
          StaysPresent(w, v, t, AgendaOf(inst), net, BroughtKey(plan[j], inst.spec));
        }
      }
    }
  }

  lemma {:induction false} PlanKeepsClosed(e: Engine, i: nat, w: World, inst: Instance, net: Net)
    requires Good(w) && Laid(w.s, Plan(e), i, inst.spec, net) && InOrder(Plan(e), inst.spec, net) && SoundNet(net)
    requires Enabled(e, inst.spec) && Heeded(w, RunFrom(Plan(e), i, w, inst).0, Considerate(net))
    ensures Reached(w, RunFrom(Plan(e), i, w, inst).0, KeepsClosed(net))
    decreases |Plan(e)| - i
  {
    hide Heeded, Enabled, Deploying, AgendaOf, Good, Via, Fits, RunStep, Plan, KeepsClosed, Laid, InOrder, SoundNet,
         Considerate, TaskOf, Doing;
    if i >= |Plan(e)| {
      ReachedSelf(w, KeepsClosed(net));
    } else {
      var (v, err) := RunStep(Plan(e)[i], w, inst);
      PlansFit(e);
      StepVia(Plan(e)[i], w, inst);
      if err.None? {
        PlanReaches(e, i + 1, v, inst);
        HeededParts(w, v, RunFrom(Plan(e), i, w, inst).0, Considerate(net));
      }
      StepKeepsClosed(Plan(e), i, w, inst, net);
      if err.None? {
        PlanKeepsClosed(e, i + 1, v, inst, net);
        ReachedTransitive(w, v, RunFrom(Plan(e), i + 1, v, inst).0, KeepsClosed(net));
      }
    }
  }

  lemma {:induction false} DeploymentKeepsClosed(i: nat, w: World, inst: Instance)
    requires Good(w) && Heeded(w, DeployFrom(i, w, inst).0, Considerate(Network()))
    ensures Reached(w, DeployFrom(i, w, inst).0, KeepsClosed(Network()))
    decreases |Engines()| - i
  {
    hide Heeded, Deploying, AgendaOf, Good, Via, RunFrom, Plan, Enabled, KeepsClosed, Engines, Network, InOrder,
         SoundNet, Considerate;
    if i >= |Engines()| {
      ReachedSelf(w, KeepsClosed(Network()));
    } else if !Enabled(Engines()[i], inst.spec) {
      DeploymentKeepsClosed(i + 1, w, inst);
    } else {
      var e := Engines()[i];
      var v := DeployEngine(e, w, inst).0;
      PlanReaches(e, 0, w, inst);
      DeployReaches(i + 1, v, inst);
      HeededParts(w, v, DeployFrom(i, w, inst).0, Considerate(Network()));
      NetworkSound();
      NetworkInOrder(e, inst.spec);
      PlanKeepsClosed(e, 0, w, inst, Network());
      DeploymentKeepsClosed(i + 1, v, inst);
      ReachedTransitive(w, v, DeployFrom(i + 1, v, inst).0, KeepsClosed(Network()));
    }
  }

  // ---- The orphan sweep ----

  /** The workloads that run in a namespace are not stray. */
  ghost predicate NoStrayPods(s: State, space: Name, expected: set<Name>, net: Net) {
    forall k | k in net.workloads && k.space == space :: !Stray(s, k, expected)
  }

  /** A service account may go once the workloads of its namespace have been swept: by then none that
      is left names it. */
  lemma SweptAccount(s: State, k: Key, a: Agenda, net: Net)
    requires Closed(s, net) && SoundNet(net) && Serves(a.expected, net) && Scanned(k) && k.name !in a.expected
    requires k.kind == ServiceAccount ==> NoStrayPods(s, k.space, a.expected, net)
    ensures Closed(Without(s, k), net)
  {
    hide Managed;
    forall j, d | (j, d) in net.needs && ManagedAt(Without(s, k), j)
      ensures d in Without(s, k).objs
    {
      assert ManagedAt(s, j) && d in s.objs;
      assert d == k ==> Stray(s, j, a.expected);
    }
  }

  lemma ConsiderateMakesNoStray(w: World, v: World, k: Key, expected: set<Name>, net: Net)
    requires Heeded(w, v, Considerate(net)) && k in net.workloads
    ensures Heeded(w, v, NoStray(k, expected))
  {
    hide Scanned, IsNeeded, Managed;
  }

  /** Once the workloads of a namespace are swept, none of them is stray for the rest of the sweep. */
  lemma PodsStaySwept(w: World, v: World, k: Key, a: Agenda, net: Net)
    requires Reached(w, v, Sweeping(a)) && Heeded(w, v, Considerate(net))
    requires k in net.workloads && !Stray(w.s, k, a.expected)
    ensures !Stray(v.s, k, a.expected) && Along(w, v, (s: State) => !Stray(s, k, a.expected))
  {
    hide Heeded, Good, Stray, Via, Sweeping, NoStray;
    ConsiderateMakesNoStray(w, v, k, a.expected, net);
    StaysNoStray(w, v, a, k);
  }

  lemma OrphanKeepsClosed(w: World, k: Key, a: Agenda, net: Net)
    requires Good(w) && Heeded(w, Call(w, Delete(k, OrphanSite)).0, Considerate(net))
    requires SoundNet(net) && Serves(a.expected, net)
    requires Scanned(k) && k.name !in a.expected && ListedIn(w.trace, k)
    requires k.kind == ServiceAccount ==> NoStrayPods(w.s, k.space, a.expected, net)
    ensures Reached(w, Call(w, Delete(k, OrphanSite)).0, KeepsClosed(net))
  {
    hide Heeded, Good, Call, Scanned, ListedIn, Without, Closed, Via, Sweeping, Stray, SoundNet, Serves, Considerate;
    var v := Call(w, Delete(k, OrphanSite)).0;
    var s := Last(v.trace).pre;
    DeleteEvent(w, k, OrphanSite);
    OrphanVia(w, k, a);
    CallGrows(w, Delete(k, OrphanSite));
    if k.kind == ServiceAccount {
      forall j | j in net.workloads && j.space == k.space
        ensures !Stray(s, j, a.expected)
      {
        PodsStaySwept(w, v, j, a, net);
      }
    }
    if Closed(s, net) {
      SweptAccount(s, k, a, net);
    }
    ReachedByCall(w, Delete(k, OrphanSite), KeepsClosed(net));
  }

  lemma {:induction false} SweepKeepsClosed(w: World, items: seq<Key>, scan: ScanStep, a: Agenda, net: Net)
    requires Good(w) && Heeded(w, Sweep(w, items, a.expected).0, Considerate(net))
    requires SoundNet(net) && Serves(a.expected, net)
    requires forall k | k in items :: Scanned(k) && ListedIn(w.trace, k) && ScanOf(scan, k)
    requires scan.kind == ServiceAccount ==> NoStrayPods(w.s, scan.space, a.expected, net)
    ensures Reached(w, Sweep(w, items, a.expected).0, KeepsClosed(net))
    decreases |items|
  {
    hide Heeded, Via, Good, Call, Scanned, ListedIn, Sweeping, KeepsClosed, Stray, Considerate, SoundNet, Serves;
    if items == [] {
      ReachedSelf(w, KeepsClosed(net));
    } else if items[0].name in a.expected {
      SweepKeepsClosed(w, items[1..], scan, a, net);
    } else {
      var (v, r) := Call(w, Delete(items[0], OrphanSite));
      OrphanVia(w, items[0], a);
      if !r.Fail? {
        forall k | k in items[1..]
          ensures ListedIn(v.trace, k)
        {
          ListedLater(w.trace, v.trace, k);
        }
        SweepReaches(v, items[1..], a);
        HeededParts(w, v, Sweep(v, items[1..], a.expected).0, Considerate(net));
        if scan.kind == ServiceAccount {
          forall k | k in net.workloads && k.space == scan.space
            ensures !Stray(v.s, k, a.expected)
          {
            PodsStaySwept(w, v, k, a, net);
          }
        }
        SweepKeepsClosed(v, items[1..], scan, a, net);
        OrphanKeepsClosed(w, items[0], a, net);
        ReachedTransitive(w, v, Sweep(v, items[1..], a.expected).0, KeepsClosed(net));
      } else {
        OrphanKeepsClosed(w, items[0], a, net);
      }
    }
  }

  lemma ScanKeepsClosed(w: World, scan: ScanStep, a: Agenda, order: Ordering, net: Net)
    requires Good(w) && scan in Scans() && Heeded(w, Scan(w, scan, a.expected, order).0, Considerate(net))
    requires SoundNet(net) && Serves(a.expected, net)
    requires scan.kind == ServiceAccount ==> NoStrayPods(w.s, scan.space, a.expected, net)
    ensures Reached(w, Scan(w, scan, a.expected, order).0, KeepsClosed(net))
  {
    hide Heeded, Via, Good, Call, Scanned, ListedIn, Sweeping, Stray, Considerate, Sweep, Scans, SoundNet, Serves,
         Closed;
    var (v, r) := Call(w, List(scan.kind, scan.space));
    ListVia(w, scan, a);
    CallEvent(w, List(scan.kind, scan.space));
    ReachedByCall(w, List(scan.kind, scan.space), KeepsClosed(net));
    if r.Listed? {
      var items := order(r.keys);
      assert Enumerates(items, r.keys);
      forall k | k in items
        ensures Scanned(k) && ListedIn(v.trace, k) && ScanOf(scan, k)
      {
        ScansAreScanned(scan, k);
      }
      SweepReaches(v, items, a);
      HeededParts(w, v, Sweep(v, items, a.expected).0, Considerate(net));
      if scan.kind == ServiceAccount {
        forall k | k in net.workloads && k.space == scan.space
          ensures !Stray(v.s, k, a.expected)
        {
          PodsStaySwept(w, v, k, a, net);
        }
      }
      SweepKeepsClosed(v, items, scan, a, net);
      ReachedTransitive(w, v, Sweep(v, items, a.expected).0, KeepsClosed(net));
    }
  }

  /** The workloads of the first `i` scans are not stray. */
  ghost predicate PodsSwept(i: nat, s: State, expected: set<Name>, net: Net) {
    forall j, k | 0 <= j < |Scans()| && j < i && k in net.workloads && ScanOf(Scans()[j], k) :: !Stray(s, k, expected)
  }

  /** The pods of a namespace are swept before its service accounts. */
  lemma PodsFirst(i: nat, s: State, expected: set<Name>, net: Net)
    requires i < |Scans()| && PodsSwept(i, s, expected, net) && SoundNet(net)
    ensures Scans()[i].kind == ServiceAccount ==> NoStrayPods(s, Scans()[i].space, expected, net)
  {
    hide Stray;
    forall k | Scans()[i].kind == ServiceAccount && k in net.workloads && k.space == Scans()[i].space
      ensures !Stray(s, k, expected)
    {
      var first := i - if Scans()[i].space == OpenebsSpace then 2 else 3;
      var j := if k.kind == Deployment then first else first + 1;
      assert ScanOf(Scans()[j], k);
    }
  }

  lemma {:induction false} ScansKeepClosed(i: nat, w: World, a: Agenda, order: Ordering, net: Net)
    requires Good(w) && Heeded(w, ScanFrom(i, w, a.expected, order).0, Considerate(net))
    requires SoundNet(net) && Serves(a.expected, net) && PodsSwept(i, w.s, a.expected, net)
    ensures Reached(w, ScanFrom(i, w, a.expected, order).0, KeepsClosed(net))
    decreases |Scans()| - i
  {
    hide Heeded, Sweeping, Via, Good, KeepsClosed, Stray, Considerate, Scan, Scans, NoStrayPods, ScanOf, SoundNet,
         Serves, NoStray;
    if i >= |Scans()| {
      ReachedSelf(w, KeepsClosed(net));
    } else {
      var (v, e) := Scan(w, Scans()[i], a.expected, order);
      PodsFirst(i, w.s, a.expected, net);
      ScanReaches(w, Scans()[i], a, order);
      if e.None? {
        ScansReach(i + 1, v, a, order);
        HeededParts(w, v, ScanFrom(i, w, a.expected, order).0, Considerate(net));
      }
      ScanKeepsClosed(w, Scans()[i], a, order, net);
      if e.None? {
        forall j, k | 0 <= j < i + 1 && k in net.workloads && ScanOf(Scans()[j], k)
          ensures !Stray(v.s, k, a.expected)
        {
          if j < i {
            PodsStaySwept(w, v, k, a, net);
          } else {
            ConsiderateMakesNoStray(w, v, k, a.expected, net);
            ScanClears(w, Scans()[i], a, order, k);
          }
        }
        ScansKeepClosed(i + 1, v, a, order, net);
        ReachedTransitive(w, v, ScanFrom(i + 1, v, a.expected, order).0, KeepsClosed(net));
      }
    }
  }

  /** Taking away what no labelled workload needs keeps a store closed. */
  lemma DropKeepsClosed(w: World, k: Key, site: Site, net: Net)
    requires Good(w) && SoundNet(net) && k.kind != Namespace
    requires var s := Last(Call(w, Delete(k, site)).0.trace).pre;
             forall j | (j, k) in net.needs :: !ManagedAt(s, j)
    ensures Reached(w, Call(w, Delete(k, site)).0, KeepsClosed(net))
  {
    hide Good, Call, Managed;
    DeleteEvent(w, k, site);
    ReachedByCall(w, Delete(k, site), KeepsClosed(net));
  }

  lemma CleanupKeepsClosed(w: World, inst: Instance, order: Ordering)
    requires Good(w) && Heeded(w, CleanupOrphans(w, inst, order).0, Considerate(Network())) && !Clash(inst.spec)
    ensures Reached(w, CleanupOrphans(w, inst, order).0, KeepsClosed(Network()))
  {
    hide Heeded, Sweeping, Via, Good, Expected, KeepsClosed, Stray, Clash, Considerate, ScanFrom, KeyOf,
         ScheduleWanted, Call, TaskOf, Wanted, TeardownKeys, SoundNet, Serves, Network, SoundTask;
    var (a, net) := (AgendaOf(inst), Network());
    var (v, e) := ScanAll(w, a.expected, order);
    ScansReach(0, w, a, order);
    NetworkSound();
    NetworkServes(inst.spec);
    AgendaSound(inst);
    if e.None? && !a.scheduleWanted {
      CallGrows(v, Delete(a.schedule, UnwantedSite));
      HeededParts(w, v, CleanupOrphans(w, inst, order).0, Considerate(net));
    }
    assert PodsSwept(0, w.s, a.expected, net);
    ScansKeepClosed(0, w, a, order, net);
    if e.None? && !a.scheduleWanted {
      assert forall j :: (j, a.schedule) !in net.needs by { SchedulesUnneeded(net, a.schedule); }
      DropKeepsClosed(v, a.schedule, UnwantedSite, net);
      ReachedTransitive(w, v, Call(v, Delete(a.schedule, UnwantedSite)).0, KeepsClosed(net));
    }
  }

  lemma SchedulesUnneeded(net: Net, k: Key)
    requires SoundNet(net) && k.kind == Schedule
    ensures forall j :: (j, k) !in net.needs
  {
  }

  // ---- Status, teardown, the whole reconcile ----

  lemma MarksKeepClosed(w: World, v: World, deleting: bool, net: Net)
    requires Reached(w, v, Marking(deleting))
    ensures Reached(w, v, KeepsClosed(net))
  {
    hide Good, Via, Managed;
    ReachedWeaken(w, v, Marking(deleting), KeepsClosed(net));
  }

  lemma NormalKeepsClosed(w: World, inst: Instance, order: Ordering)
    requires Good(w) && Heeded(w, ReconcileNormal(w, inst, order).0, Considerate(Network())) && !Clash(inst.spec)
    ensures Reached(w, ReconcileNormal(w, inst, order).0, KeepsClosed(Network()))
  {
    hide Heeded, Deploying, Sweeping, AgendaOf, Via, Good, DeployFrom, CleanupOrphans, PublishStatus, KeepsClosed,
         Considerate, Clash, Marking, Network;
    var (v, engines) := Deploy(w, inst);
    var u := CleanupOrphans(v, inst, order).0;
    var x := PublishStatus(u, engines).0;
    DeployReaches(0, w, inst);
    OrphansReach(v, inst, order);
    PublishReaches(u, engines, false);
    HeededParts(w, v, x, Considerate(Network()));
    HeededParts(v, u, x, Considerate(Network()));
    DeploymentKeepsClosed(0, w, inst);
    CleanupKeepsClosed(v, inst, order);
    MarksKeepClosed(u, x, false, Network());
    ReachedTransitive(w, v, u, KeepsClosed(Network()));
    ReachedTransitive(w, u, x, KeepsClosed(Network()));
  }

  /** Whatever a teardown deletes that is needed, it deletes after all that needs it. */
  ghost predicate TornInOrder(keys: seq<Key>, net: Net) {
    forall i, k | 0 <= i < |keys| && (k, keys[i]) in net.needs :: exists j :: 0 <= j < i && keys[j] == k
  }

  /** The only thing needed on the list is the ZFS config map, and the daemon set that mounts it comes
      just before it. */
  lemma TornNeed(i: nat, k: Key)
    requires i < |FixedTeardown()| && (k, FixedTeardown()[i]) in Network().needs
    ensures i == 5 && FixedTeardown()[4] == k
  {
    hide KeyOf, Needs, Workload, FixedTeardown, Network;
    var c, d := NeedOf(k, FixedTeardown()[i]);
    NeedsPlaced(c, d);
    TornKinds(i);
    OnlyZfsMounts(c, d);
    ConfigMapAfterPods();
  }

  lemma TeardownInOrder(spec: Spec)
    ensures TornInOrder(TeardownKeys(spec), Network())
    ensures forall k | k in TeardownKeys(spec) :: k.kind != Namespace
  {
    hide KeyOf, Network, FixedTeardown, SoundNet;
    var keys := TeardownKeys(spec);
    ScheduleKind(spec);
    NetworkSound();
    SchedulesUnneeded(Network(), KeyOf(EtcdSchedule, spec));
    forall i, k | 0 <= i < |keys| && (k, keys[i]) in Network().needs
      ensures exists j :: 0 <= j < i && keys[j] == k
    {
      TornNeed(i, k);
      assert keys[4] == k;
    }
    forall i | 0 <= i < |FixedTeardown()|
      ensures FixedTeardown()[i].kind != Namespace
    {
      TornKinds(i);
    }
  }

  lemma TornKinds(i: nat)
    requires i < |FixedTeardown()|
    ensures FixedTeardown()[i].kind !in {Namespace, ServiceAccount} && (FixedTeardown()[i].kind == ConfigMap ==> i == 5)
  {
  }

  lemma ConfigMapAfterPods()
    ensures |FixedTeardown()| > 5 && FixedTeardown()[4] == FixedKey(ZfsNodeDs)
  {
  }

  lemma OnlyZfsMounts(c: Component, d: Component)
    requires d in Needs(c) && FixedKey(d).kind == ConfigMap
    ensures c == ZfsNodeDs && d == ZfsBinCm
  {
    hide KeyOf, IsClass, Needs;
    ComponentAtKey(d, NOBODY.spec);
    assert ZfsBinCm in Needs(c) ==> c == ZfsNodeDs by { MountsScripts(c); }
  }

  lemma MountsScripts(c: Component)
    ensures ZfsBinCm in Needs(c) ==> c == ZfsNodeDs
  {
  }

  /** What is not managed stays so while others are considerate and the operator only deletes. */
  lemma UnmanagedLater(w: World, v: World, a: Agenda, net: Net, k: Key)
    requires Reached(w, v, Deleting(a)) && Heeded(w, v, Considerate(net)) && k in net.workloads && !ManagedAt(w.s, k)
    ensures !ManagedAt(v.s, k) && Along(w, v, (s: State) => !ManagedAt(s, k))
  {
    hide Heeded, Good, Sane, Later, Managed, IsNeeded;
    Throughout(w, v, Considerate(net), Deleting(a), (s: State) => !ManagedAt(s, k));
  }

  /** The workloads among the keys are not there. */
  ghost predicate PodsGone(s: State, keys: seq<Key>, net: Net) {
    forall k | k in keys && k in net.workloads :: !ManagedAt(s, k)
  }

  /** `gone` was deleted before `keys`. */
  lemma {:induction false} TeardownKeepsClosed(w: World, gone: seq<Key>, keys: seq<Key>, a: Agenda, net: Net)
    requires Good(w) && Heeded(w, DeleteAll(w, keys).0, Considerate(net)) && SoundNet(net)
    requires a.deleting && a.teardown == gone + keys && TornInOrder(a.teardown, net)
    requires PodsGone(w.s, gone, net) && forall k | k in keys :: k.kind != Namespace
    ensures Reached(w, DeleteAll(w, keys).0, KeepsClosed(net))
    decreases |keys|
  {
    hide Heeded, Good, Call, Without, Deleting, Via, KeepsClosed, Considerate, ManagedAt, SoundNet;
    if keys == [] {
      ReachedSelf(w, KeepsClosed(net));
    } else {
      var k := keys[0];
      var (v, e) := DeleteTolerant(w, k, TeardownSite);
      DeleteAllReaches(w, [k], a);
      OneDeleted(w, k);
      CallGrows(w, Delete(k, TeardownSite));
      if e.None? {
        DeleteAllReaches(v, keys[1..], a);
        HeededParts(w, v, DeleteAll(w, keys).0, Considerate(net));
      }
      forall j | j in gone && j in net.workloads
        ensures !ManagedAt(v.s, j) && !ManagedAt(Last(v.trace).pre, j)
      {
        UnmanagedLater(w, v, a, net, j);
      }
      forall j | (j, k) in net.needs
        ensures !ManagedAt(Last(v.trace).pre, j)
      {
        assert a.teardown[|gone|] == k;
        var i :| 0 <= i < |gone| && a.teardown[i] == j;
        assert j in gone && j in net.workloads by { NeedingIsWorkload(net, j, k); }
      }
      DropKeepsClosed(w, k, TeardownSite, net);
      if e.None? {
        DeletedIsGone(w, k, TeardownSite);
        assert PodsGone(v.s, gone + [k], net) by { GoneUnmanaged(v.s, k); }
        assert a.teardown == (gone + [k]) + keys[1..];
        TeardownKeepsClosed(v, gone + [k], keys[1..], a, net);
        ReachedTransitive(w, v, DeleteAll(v, keys[1..]).0, KeepsClosed(net));
      }
    }
  }

  lemma {:induction false} OneDeleted(w: World, k: Key)
    ensures DeleteAll(w, [k]).0 == DeleteTolerant(w, k, TeardownSite).0 == Call(w, Delete(k, TeardownSite)).0
  {
    hide Call;
  }

  lemma NeedingIsWorkload(net: Net, k: Key, d: Key)
    requires SoundNet(net) && (k, d) in net.needs
    ensures k in net.workloads
  {
  }

  lemma GoneUnmanaged(s: State, k: Key)
    ensures k !in s.objs ==> !ManagedAt(s, k)
  {
  }

  lemma DeletionKeepsClosed(w: World, inst: Instance)
    requires Good(w) && Heeded(w, ReconcileDelete(w, inst).0, Considerate(Network()))
    requires w.s.inst == Some(inst) && inst.deleting
    ensures Reached(w, ReconcileDelete(w, inst).0, KeepsClosed(Network()))
  {
    hide Heeded, Via, Good, DeleteAll, TeardownKeys, Call, Considerate, KeepsClosed, Deleting, Marking, Network,
         SoundNet, KeyOf, Expected, ScheduleWanted, TaskOf, Wanted, TornInOrder;
    var (a, net) := (AgendaOf(inst), Network());
    var (v, e) := DeleteAll(w, a.teardown);
    var put := PutInstance(inst.(finalizers := inst.finalizers - {OperatorFinalizer}));
    DeleteAllReaches(w, a.teardown, a);
    ReachedLater(w, v, Deleting(a));
    NetworkSound();
    TeardownInOrder(inst.spec);
    if e.None? {
      CallGrows(v, put);
      HeededParts(w, v, ReconcileDelete(w, inst).0, Considerate(net));
    }
    assert a.teardown == [] + a.teardown;
    TeardownKeepsClosed(w, [], a.teardown, a, net);
    if e.None? {
      PutVia(v, w.s, inst.(finalizers := inst.finalizers - {OperatorFinalizer}), inst);
      MarksKeepClosed(v, Call(v, put).0, inst.deleting, net);
      ReachedTransitive(w, v, Call(v, put).0, KeepsClosed(net));
    }
  }

  lemma AdoptionKeepsClosed(w: World, inst: Instance, order: Ordering)
    requires Good(w) && Heeded(w, Adopt(w, inst, order).0, Considerate(Network()))
    requires w.s.inst == Some(inst) && !inst.deleting && !Clash(inst.spec)
    ensures Reached(w, Adopt(w, inst, order).0, KeepsClosed(Network()))
  {
    hide Heeded, PassBy, AgendaOf, Via, Good, Call, ReconcileNormal, Considerate, KeepsClosed, Clash, Marking, Network;
    var i := inst.(finalizers := inst.finalizers + {OperatorFinalizer});
    var (u, p) := Call(w, PutInstance(i));
    ReachedSelf(w, KeepsClosed(Network()));
    ReachedLater(w, w, KeepsClosed(Network()));
    PutVia(w, w.s, i, inst);
    MarksKeepClosed(w, u, inst.deleting, Network());
    if p.GotInstance? {
      AdoptReaches(w, inst, order);
      HeededParts(w, u, ReconcileNormal(u, p.inst, order).0, Considerate(Network()));
      NormalKeepsClosed(u, p.inst, order);
      ReachedTransitive(w, u, ReconcileNormal(u, p.inst, order).0, KeepsClosed(Network()));
    }
  }

  lemma ReconcileKeepsClosed(w: World, order: Ordering)
    requires Good(w) && Heeded(w, ReconcileOnce(w, order).0, Considerate(Network())) && !Clash(Subject(w).spec)
    ensures Reached(w, ReconcileOnce(w, order).0, KeepsClosed(Network()))
  {
    hide Heeded, PassBy, AgendaOf, Via, Good, Call, ReconcileNormal, ReconcileDelete, Adopt, Considerate, KeepsClosed,
         Clash, Marking, Network;
    var (v, r) := Call(w, GetInstance);
    var inst := Subject(w);
    GetInstanceVia(w, false);
    MarksKeepClosed(w, v, false, Network());
    ReconcileReaches(w, inst, order);
    HeededParts(w, v, ReconcileOnce(w, order).0, Considerate(Network()));
    if r.GotInstance? {
      if inst.deleting {
        DeletionKeepsClosed(v, inst);
      } else if OperatorFinalizer in inst.finalizers {
        NormalKeepsClosed(v, inst, order);
      } else {
        AdoptionKeepsClosed(v, inst, order);
      }
      ReachedTransitive(w, v, ReconcileOnce(w, order).0, KeepsClosed(Network()));
    }
  }

  // ---- Every moment of every run ----

  /** An instance, if stored, has a spec without clashing names. */
  ghost predicate Tidy(s: State) {
    s.inst.Some? ==> !Clash(s.inst.value.spec)
  }

  ghost function IsTidy(): Invariant {
    (s: State) => Tidy(s)
  }

  /** Others are considerate, and write no spec with clashing names. */
  ghost function ConsiderateAndTidy(): Rely {
    (s: State, t: State) => Considerately(s, t, Network()) && (Tidy(s) ==> Tidy(t))
  }

  lemma TidyStays()
    ensures KeptByRequests(IsTidy()) && StableUnderOthers(IsTidy(), ConsiderateAndTidy())
  {
    hide PassRequest, Sane, Later, Sound, Clash, Considerately;
    forall h: History, a: Agenda | PassRequest(h, a) && Tidy(Last(h).pre)
      ensures Tidy(Last(h).post)
    {
      RequestKeepsIntent(h, a);
    }
  }

  lemma NobodyTidy()
    ensures !Clash(NOBODY.spec)
  {
    hide FixedKey, AccountOf, EngineOf, Workload;
  }

  lemma ClosedWithinPass(s: State, p: Pass, order: Ordering)
    requires Sane(s) && Tidy(s) && Closed(s, Network()) && PassHeeds(s, p, order, ConsiderateAndTidy())
    ensures forall n: nat :: Closed(StateAt(PassWorld(s, p, order), n), Network())
    ensures Tidy(AfterPass(s, p, order)) && Closed(AfterPass(s, p, order), Network())
  {
    hide ReconcileOnce, Sane, Later, Closed, Clash, Network, PassBy, PassAgenda, PassTrace, Sound, Subject,
         Considerately, KeptByRequests, StableUnderOthers, SoundNet;
    var w := Fresh(s, p);
    TidyStays();
    PassKeeps(s, p, order, ConsiderateAndTidy(), IsTidy());
    assert IsTidy()(AfterPass(s, p, order));
    SubjectMoment(s, p, order);
    NobodyTidy();
    if Subject(w) != NOBODY {
      var n: nat :| StateAt(PassWorld(s, p, order), n).inst == Some(Subject(w));
      assert IsTidy()(StateAt(PassWorld(s, p, order), n));
    }
    PassReaches(s, p, order);
    PassMoments(s, p, order);
    ReconcileKeepsClosed(w, order);
    NetworkSound();
    forall t, u | Closed(t, Network()) && Considerate(Network())(t, u)
      ensures Closed(u, Network())
    {
      StaysClosed(t, u, Network());
    }
    Throughout(w, PassWorld(s, p, order), Considerate(Network()), KeepsClosed(Network()),
               (t: State) => Closed(t, Network()));
  }

  lemma {:induction false} ClosedBetweenPasses(s: State, passes: Series, order: Ordering, n: nat)
    requires Sane(s) && Tidy(s) && Closed(s, Network()) && RunHeeds(s, passes, order, ConsiderateAndTidy())
    ensures Tidy(After(s, passes, order, n)) && Closed(After(s, passes, order, n), Network())
  {
    hide PassHeeds, PassWorld, AfterPass, Sane, Closed, Tidy, Network;
    if n > 0 {
      ClosedBetweenPasses(s, passes, order, n - 1);
      SaneRun(s, passes, order, n - 1);
      assert HeedsAt(s, passes, order, ConsiderateAndTidy(), n - 1);
      ClosedWithinPass(After(s, passes, order, n - 1), passes(n - 1), order);
    }
  }

  /** At every moment of every reconcile of every run, aborts and crashes included, each operator
      workload has its namespace, its service account and its config map. */
  lemma {:induction false} AlwaysClosed(s: State, passes: Series, order: Ordering, n: nat, i: nat)
    requires Sane(s) && Tidy(s) && Closed(s, Network()) && RunHeeds(s, passes, order, ConsiderateAndTidy())
    ensures Closed(StateAt(RunWorld(s, passes, order, n), i), Network())
  {
    hide PassHeeds, PassWorld, Sane, Closed, Tidy, After, StateAt, Network;
    ClosedBetweenPasses(s, passes, order, n);
    SaneRun(s, passes, order, n);
    assert HeedsAt(s, passes, order, ConsiderateAndTidy(), n);
    ClosedWithinPass(After(s, passes, order, n), passes(n), order);
  }

  // ---- Why clashing names are excluded ----

  /** Others leave the object in its place, with the label it has, and make none there. */
  ghost predicate StillAt(s: State, t: State, k: Key) {
    (k in s.objs <==> k in t.objs) && (ManagedAt(s, k) <==> ManagedAt(t, k))
  }

  ghost function Still(j: Key, k: Key): Rely {
    (s: State, t: State) => StillAt(s, t, j) && StillAt(s, t, k)
  }

  /** What a sweep leaves, it leaves labelled, and it leaves what is accounted for. */
  lemma SweepSparesExpected(w: World, v: World, a: Agenda, j: Key, k: Key, at: Key)
    requires Reached(w, v, Sweeping(a)) && Heeded(w, v, Still(j, k)) && ManagedAt(w.s, at) && (at == j || at == k)
    requires Scanned(at) && a.schedule.kind == Schedule
    ensures at in v.s.objs ==> ManagedAt(v.s, at)
    ensures at.name in a.expected ==> ManagedAt(v.s, at)
  {
    hide Heeded, Good, Sane, Later, Managed, ListedIn;
    Throughout(w, v, Still(j, k), Sweeping(a),
               (s: State) => if at.name in a.expected then ManagedAt(s, at) else at in s.objs ==> ManagedAt(s, at));
  }

  lemma AccountPlaced(c: Component)
    requires Workload(c)
    ensures AccountOf(c) in Needs(c) && Scanned(FixedKey(AccountOf(c))) && Scanned(FixedKey(c))
  {
  }

  /** Whenever names clash, a sweep that completes takes the service account from under the workload
      that is spared for its name, others leaving these two alone. */
  lemma ClashBreaksClosure(w: World, c: Component, inst: Instance, order: Ordering)
    requires Good(w) && ClashesWith(c, inst.spec) && CleanupOrphans(w, inst, order).1.None?
    requires Heeded(w, CleanupOrphans(w, inst, order).0, Still(FixedKey(c), FixedKey(AccountOf(c))))
    requires ManagedAt(w.s, FixedKey(c)) && ManagedAt(w.s, FixedKey(AccountOf(c)))
    ensures var v := CleanupOrphans(w, inst, order).0;
            && ManagedAt(v.s, FixedKey(c)) && FixedKey(AccountOf(c)) !in v.s.objs
            && !Closed(v.s, Network())
  {
    hide Heeded, Good, Via, Expected, Managed, FixedKey, AccountOf, CleanupOrphans, Scanned, Workload, Needs, StillAt,
         ScheduleWanted, KeyOf, Sweeping, TaskOf, Wanted, TeardownKeys, SoundTask;
    var v := CleanupOrphans(w, inst, order).0;
    var (j, k) := (FixedKey(c), FixedKey(AccountOf(c)));
    OrphansReach(w, inst, order);
    NamesExpected(c, inst.spec);
    AccountPlaced(c);
    AgendaSound(inst);
    StillMakesNoStray(w, v, j, k, Expected(inst.spec));
    CompletedSweepIsComplete(w, inst, order, k);
    SweepSparesExpected(w, v, AgendaOf(inst), j, k, j);
    SweepSparesExpected(w, v, AgendaOf(inst), j, k, k);
    assert Refers(c, k) && RefersTo(j, k) && (j, k) in Network().needs;
  }

  lemma StillMakesNoStray(w: World, v: World, j: Key, k: Key, expected: set<Name>)
    requires Heeded(w, v, Still(j, k))
    ensures Heeded(w, v, NoStray(k, expected))
  {
    hide Scanned, Managed;
  }

  /** A hostpath class called like the LVM node daemon set is such a name. */
  lemma ClashExample(rest: nat)
    ensures var hostpath := HostpathConfig(true, Some(LvmNode), false, "");
            ClashesWith(LvmNodeDs, Spec(None, None, Some(hostpath), None, None, rest))
  {
  }
}
