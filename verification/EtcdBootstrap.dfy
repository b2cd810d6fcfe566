/** The etcd start-up script as a protocol: pods run it concurrently over volumes that outlive them,
    while the operator creates, scales and (on drift) deletes the StatefulSet. */
module EtcdBootstrap {

  /** The data directory of one ordinal: empty, or holding a member of some cluster. */
  datatype Volume = Empty | Data(cluster: nat)

  /** How far a pod has got in the script. */
  datatype Phase =
    | Absent
    | Starting                    // the container runs, the script has not looked at its directory
    | SawEmpty                    // the directory was empty
    | SawData                     // the directory was not empty
    | Listed(cluster: nat)        // the join loop found this pod in a member list
    | ExecNew                     // exec etcd --initial-cluster-state=new
    | ExecJoin(cluster: nat)      // exec etcd --initial-cluster=<members> --initial-cluster-state=existing
    | ExecRestart                 // exec etcd --initial-cluster-state=existing on its own data
    | Serving(cluster: nat)       // etcd has written its directory and answers clients

  /** `replicas` is the replica count of the StatefulSet, or -1 when there is none; `unused` is the next
      cluster identity nobody has used. */
  datatype State = State(replicas: int, volumes: map<nat, Volume>, pods: map<nat, Phase>, unused: nat)

  datatype Step =
    | CreateSet(replicas: nat)    // the operator
    | DeleteSet
    | Scale(replicas: nat)
    | StartPod(pod: nat)          // the StatefulSet controller and the kubelet
    | StopPod(pod: nat)
    | LookAtDir(pod: nat)         // the script
    | FindMember(pod: nat, via: nat)
    | Exec(pod: nat)
    | Serve(pod: nat)             // the etcd process
    | LoseVolume(pod: nat)        // somebody deletes a claim by hand

  const NO_SET: int := -1

  function VolumeOf(s: State, i: nat): Volume {
    if i in s.volumes then s.volumes[i] else Empty
  }

  function PhaseOf(s: State, i: nat): Phase {
    if i in s.pods then s.pods[i] else Absent
  }

  function Enter(s: State, i: nat, p: Phase): State {
    s.(pods := s.pods[i := p])
  }

  /** A step that is not possible in the state leaves it alone. */
  function Do(s: State, step: Step): State {
    match step
    case CreateSet(n) => if s.replicas == NO_SET then s.(replicas := n) else s
    case DeleteSet => s.(replicas := NO_SET)
    case Scale(n) => if s.replicas == NO_SET then s else s.(replicas := n)
    case StartPod(i) =>
      // Pods start in parallel: nothing orders i after its predecessors.
      if i < s.replicas && PhaseOf(s, i) == Absent then Enter(s, i, Starting) else s
    case StopPod(i) => Enter(s, i, Absent)
    case LookAtDir(i) =>
      if PhaseOf(s, i) != Starting then s
      else Enter(s, i, if VolumeOf(s, i) == Empty then SawEmpty else SawData)
    case FindMember(i, j) =>
      // The client address is the headless service: any serving pod may answer.
      if i != 0 && PhaseOf(s, i) == SawEmpty && PhaseOf(s, j).Serving?
      then Enter(s, i, Listed(PhaseOf(s, j).cluster)) else s
    case Exec(i) =>
      (match PhaseOf(s, i)
       case SawEmpty => if i == 0 then Enter(s, i, ExecNew) else s
       case SawData => Enter(s, i, ExecRestart)
       case Listed(c) => Enter(s, i, ExecJoin(c))
       case _ => s)
    case Serve(i) =>
      (match PhaseOf(s, i)
       case ExecNew =>
         Enter(s, i, Serving(s.unused)).(volumes := s.volumes[i := Data(s.unused)], unused := s.unused + 1)
       case ExecJoin(c) => Enter(s, i, Serving(c)).(volumes := s.volumes[i := Data(c)])
       case ExecRestart =>
         if VolumeOf(s, i).Data? then Enter(s, i, Serving(VolumeOf(s, i).cluster)) else s
       case _ => s)
    case LoseVolume(i) =>
      // A claim in use is protected until its pod is gone.
      if PhaseOf(s, i) == Absent then s.(volumes := s.volumes[i := Empty]) else s
  }

  /** The states a run passes through, first to last. */
  function Run(s: State, steps: seq<Step>): (states: seq<State>)
    ensures |states| == |steps| + 1 && states[0] == s
    decreases |steps|
  {
    if steps == [] then [s] else [s] + Run(Do(s, steps[0]), steps[1..])
  }

  lemma {:induction false} RunStep(s: State, steps: seq<Step>, n: nat)
    requires n < |steps|
    ensures Run(s, steps)[n + 1] == Do(Run(s, steps)[n], steps[n])
    decreases n
  {
    if n > 0 {
      RunStep(Do(s, steps[0]), steps[1..], n - 1);
    }
  }

  /** No claim, no pod, no set, nothing ever bootstrapped. */
  predicate Initial(s: State) {
    s.replicas == NO_SET && s.volumes == map[] && s.pods == map[]
  }

  // ---- A pod and its own volume ----

  /** What a pod has seen of its volume, and what it serves, is still so: a claim in use is not lost. */
  predicate Settled(s: State, i: nat) {
    match PhaseOf(s, i)
    case SawEmpty => VolumeOf(s, i) == Empty
    case Listed(_) => VolumeOf(s, i) == Empty
    case ExecNew => VolumeOf(s, i) == Empty && i == 0
    case ExecJoin(_) => VolumeOf(s, i) == Empty
    case SawData => VolumeOf(s, i).Data?
    case ExecRestart => VolumeOf(s, i).Data?
    case Serving(c) => VolumeOf(s, i) == Data(c)
    case _ => true
  }

  lemma SettledStep(s: State, step: Step, i: nat)
    requires Settled(s, i)
    ensures Settled(Do(s, step), i)
  {
    match step
    case StartPod(_) =>
    case StopPod(_) =>
    case LookAtDir(_) =>
    case FindMember(_, _) =>
    case Exec(_) =>
    case Serve(_) =>
    case LoseVolume(_) =>
    case _ =>
  }

  lemma {:induction false} SettledAlong(s: State, steps: seq<Step>, n: nat, i: nat)
    requires Initial(s) && n <= |steps|
    ensures Settled(Run(s, steps)[n], i)
    decreases n
  {
    hide Run, Do;
    if n == 0 {
      assert Run(s, steps)[0] == s;
    } else {
      SettledAlong(s, steps, n - 1, i);
      RunStep(s, steps, n - 1);
      SettledStep(Run(s, steps)[n - 1], steps[n - 1], i);
    }
  }

  /** A volume that holds data keeps it, unless its claim is deleted. */
  lemma KeepsData(s: State, step: Step, i: nat)
    requires Settled(s, i) && VolumeOf(s, i).Data? && step != LoseVolume(i)
    ensures VolumeOf(Do(s, step), i) == VolumeOf(s, i)
  {
  }

  /** A drift deletion restarts, never re-founds: over any run, however the set is deleted and created
      again and whatever the other pods do, as long as nobody deletes the claim of a pod, its volume
      keeps the cluster it holds; the pod joins or founds no other and serves no other. */
  lemma {:induction false} RecreateRestarts(s: State, steps: seq<Step>, m: nat, n: nat, i: nat, c: nat)
    requires Initial(s) && m <= n <= |steps| && VolumeOf(Run(s, steps)[m], i) == Data(c)
    requires LoseVolume(i) !in steps[m..n]
    ensures var t := Run(s, steps)[n];
            && VolumeOf(t, i) == Data(c)
            && (PhaseOf(t, i).Serving? ==> PhaseOf(t, i) == Serving(c))
            && PhaseOf(t, i) != ExecNew && !PhaseOf(t, i).ExecJoin?
    decreases n
  {
    hide Run, Do;
    SettledAlong(s, steps, n, i);
    if m < n {
      assert steps[m..n] == steps[m..n - 1] + [steps[n - 1]];
      RecreateRestarts(s, steps, m, n - 1, i, c);
      SettledAlong(s, steps, n - 1, i);
      RunStep(s, steps, n - 1);
      KeepsData(Run(s, steps)[n - 1], steps[n - 1], i);
    }
  }

  // ---- Foundings ----

  /** The step founds a cluster: etcd starts serving with state "new". */
  predicate Founds(s: State, step: Step) {
    step.Serve? && PhaseOf(s, step.pod) == ExecNew
  }

  ghost predicate FoundsAt(s: State, steps: seq<Step>, n: nat) {
    n < |steps| && Founds(Run(s, steps)[n], steps[n])
  }

  predicate KnownTo(s: State, i: nat, c: nat) {
    VolumeOf(s, i) == Data(c) || PhaseOf(s, i) in {Listed(c), ExecJoin(c), Serving(c)}
  }

  /** Some volume or some pod knows the cluster. */
  ghost predicate Known(s: State, c: nat) {
    exists i: nat :: KnownTo(s, i, c)
  }

  /** A cluster becomes known by being founded only. */
  lemma KnownStep(s: State, step: Step, c: nat)
    requires Known(Do(s, step), c)
    ensures Known(s, c) || (Founds(s, step) && c == s.unused)
  {
    var i: nat :| KnownTo(Do(s, step), i, c);
    if step.FindMember? {
      assert KnownTo(s, step.via, c) || KnownTo(s, i, c);
    } else {
      assert KnownTo(s, i, c) || (Founds(s, step) && c == s.unused);
    }
  }

  lemma NothingKnown(s: State, c: nat)
    requires Initial(s)
    ensures !Known(s, c)
  {
  }

  lemma {:induction false} KnownWasFounded(s: State, steps: seq<Step>, n: nat, c: nat) returns (k: nat)
    requires Initial(s) && n <= |steps| && Known(Run(s, steps)[n], c)
    ensures k < n && FoundsAt(s, steps, k) && Run(s, steps)[k].unused == c
    decreases n
  {
    hide Run, Do, Founds, Known;
    NothingKnown(s, c);
    assert Run(s, steps)[0] == s;
    RunStep(s, steps, n - 1);
    KnownStep(Run(s, steps)[n - 1], steps[n - 1], c);
    if Known(Run(s, steps)[n - 1], c) {
      k := KnownWasFounded(s, steps, n - 1, c);
    } else {
      k := n - 1;
    }
  }

  /** No identity is used twice. */
  lemma {:induction false} UnusedGrows(s: State, steps: seq<Step>, m: nat, n: nat)
    requires m <= n <= |steps|
    ensures Run(s, steps)[m].unused <= Run(s, steps)[n].unused
    ensures m < n && FoundsAt(s, steps, m) ==> Run(s, steps)[m].unused < Run(s, steps)[n].unused
    decreases n
  {
    if m < n {
      UnusedGrows(s, steps, m, n - 1);
      RunStep(s, steps, n - 1);
    }
  }

  lemma {:induction false} FoundedVolume(s: State, steps: seq<Step>, n: nat)
    requires Initial(s) && FoundsAt(s, steps, n)
    ensures steps[n] == Serve(0) && VolumeOf(Run(s, steps)[n], 0) == Empty
    ensures VolumeOf(Run(s, steps)[n + 1], 0) == Data(Run(s, steps)[n].unused)
  {
    SettledAlong(s, steps, n, steps[n].pod);
    RunStep(s, steps, n);
  }

  /** Two volumes, at two moments, hold data of different clusters. */
  ghost predicate Split(s: State, steps: seq<Step>) {
    exists m: nat, i: nat, n: nat, j: nat ::
      m <= |steps| && n <= |steps| && Differ(Run(s, steps)[m], i, Run(s, steps)[n], j)
  }

  predicate Differ(s: State, i: nat, t: State, j: nat) {
    VolumeOf(s, i).Data? && VolumeOf(t, j).Data? && VolumeOf(s, i) != VolumeOf(t, j)
  }

  ghost predicate FoundedTwice(s: State, steps: seq<Step>) {
    exists k: nat, l: nat :: k < l && FoundsAt(s, steps, k) && FoundsAt(s, steps, l)
  }

  /** Exactly the runs that found twice ever hold data of two clusters. */
  lemma {:induction false} SplitIffFoundedTwice(s: State, steps: seq<Step>)
    requires Initial(s)
    ensures Split(s, steps) <==> FoundedTwice(s, steps)
  {
    hide Run;
    if Split(s, steps) {
      var m: nat, i: nat, n: nat, j: nat :|
        m <= |steps| && n <= |steps| && Differ(Run(s, steps)[m], i, Run(s, steps)[n], j);
      var (c, d) := (VolumeOf(Run(s, steps)[m], i).cluster, VolumeOf(Run(s, steps)[n], j).cluster);
      assert KnownTo(Run(s, steps)[m], i, c) && KnownTo(Run(s, steps)[n], j, d);
      var k := KnownWasFounded(s, steps, m, c);
      var l := KnownWasFounded(s, steps, n, d);
      assert FoundsAt(s, steps, if k < l then k else l) && FoundsAt(s, steps, if k < l then l else k);
    }
    if FoundedTwice(s, steps) {
      var k: nat, l: nat :| k < l && FoundsAt(s, steps, k) && FoundsAt(s, steps, l);
      FoundedVolume(s, steps, k);
      FoundedVolume(s, steps, l);
      UnusedGrows(s, steps, k, l);
      assert Differ(Run(s, steps)[k + 1], 0, Run(s, steps)[l + 1], 0);
    }
  }

  /** And between two foundings the claim of pod 0 was deleted. */
  lemma {:induction false} RefoundingNeedsLoss(s: State, steps: seq<Step>, k: nat, l: nat)
    requires Initial(s) && k < l && FoundsAt(s, steps, k) && FoundsAt(s, steps, l)
    ensures LoseVolume(0) in steps[k + 1..l]
  {
    hide Run;
    FoundedVolume(s, steps, k);
    FoundedVolume(s, steps, l);
    if LoseVolume(0) !in steps[k + 1..l] {
      RecreateRestarts(s, steps, k + 1, l, 0, Run(s, steps)[k].unused);
    }
  }

  // ---- One cluster ----

  ghost predicate VolumeZeroKept(steps: seq<Step>) {
    LoseVolume(0) !in steps
  }

  /** One cluster for good: whatever two volumes hold, at whatever two moments of a run, is data of
      the same cluster. Claims of the joining pods may even be lost and refilled. */
  lemma {:induction false} OneClusterEver(s: State, steps: seq<Step>, m: nat, i: nat, n: nat, j: nat)
    requires Initial(s) && VolumeZeroKept(steps)
    requires m <= |steps| && n <= |steps|
    requires VolumeOf(Run(s, steps)[m], i).Data? && VolumeOf(Run(s, steps)[n], j).Data?
    ensures VolumeOf(Run(s, steps)[m], i) == VolumeOf(Run(s, steps)[n], j)
  {
    hide Run;
    SplitIffFoundedTwice(s, steps);
    if Differ(Run(s, steps)[m], i, Run(s, steps)[n], j) {
      var k: nat, l: nat :| k < l && FoundsAt(s, steps, k) && FoundsAt(s, steps, l);
      RefoundingNeedsLoss(s, steps, k, l);
    }
  }

  /** State "new" is used by pod 0 only, on an empty volume, and never again once any volume of any
      earlier moment has held data. */
  lemma {:induction false} NewOnlyOnEmpty(s: State, steps: seq<Step>, n: nat, i: nat)
    requires Initial(s) && VolumeZeroKept(steps) && n <= |steps|
    requires PhaseOf(Run(s, steps)[n], i) == ExecNew
    ensures i == 0 && VolumeOf(Run(s, steps)[n], 0) == Empty
    ensures forall m: nat, j: nat | m <= n :: VolumeOf(Run(s, steps)[m], j) == Empty
  {
    hide Run;
    SettledAlong(s, steps, n, i);
    forall m: nat, j: nat | m <= n
      ensures VolumeOf(Run(s, steps)[m], j) == Empty
    {
      if VolumeOf(Run(s, steps)[m], j).Data? {
        assert KnownTo(Run(s, steps)[m], j, VolumeOf(Run(s, steps)[m], j).cluster);
        var k := KnownWasFounded(s, steps, m, VolumeOf(Run(s, steps)[m], j).cluster);
        FoundedVolume(s, steps, k);
        RecreateRestarts(s, steps, k + 1, n, 0, Run(s, steps)[k].unused);
      }
    }
  }

  lemma {:induction false} SplitAt(s: State, steps: seq<Step>, m: nat, i: nat, n: nat, j: nat)
    requires m <= |steps| && n <= |steps| && Differ(Run(s, steps)[m], i, Run(s, steps)[n], j)
    ensures Split(s, steps)
  {
    hide Run;
  }

  lemma {:induction false} RunConcat(s: State, a: seq<Step>, b: seq<Step>, n: nat)
    requires n <= |b|
    ensures Run(s, a + b)[|a| + n] == Run(Run(s, a)[|a|], b)[n]
    decreases |a|
  {
    if a == [] {
      assert a + b == b;
    } else {
      assert (a + b)[1..] == a[1..] + b;
      RunConcat(Do(s, a[0]), a[1..], b, n);
    }
  }

  /** Keeping volume 0 is needed, whatever happened before: once it holds data, delete its claim while
      pod 0 is down, and the restarted pod founds a second cluster. */
  lemma {:induction false} LosingVolumeZeroSplits(s: State, steps: seq<Step>)
    requires Initial(s)
    requires var t := Run(s, steps)[|steps|]; VolumeOf(t, 0).Data? && PhaseOf(t, 0) == Absent && t.replicas > 0
    ensures Split(s, steps + [LoseVolume(0), StartPod(0), LookAtDir(0), Exec(0), Serve(0)])
  {
    hide Run, Do, Split;
    var t := Run(s, steps)[|steps|];
    var c := VolumeOf(t, 0).cluster;
    var tail := [LoseVolume(0), StartPod(0), LookAtDir(0), Exec(0), Serve(0)];
    assert KnownTo(t, 0, c) && Known(t, c);
    var k := KnownWasFounded(s, steps, |steps|, c);
    UnusedGrows(s, steps, k, |steps|);
    RunConcat(s, steps, tail, 0);
    RunConcat(s, steps, tail, 5);
    RunFive(t, tail);
    Refound(t);
    SplitAt(s, steps + tail, |steps|, 0, |steps| + 5, 0);
  }

  lemma {:induction false} RunFive(t: State, steps: seq<Step>)
    requires |steps| == 5
    ensures Run(t, steps)[5] == Do(Do(Do(Do(Do(t, steps[0]), steps[1]), steps[2]), steps[3]), steps[4])
  {
    hide Do;
    RunStep(t, steps, 0);
    RunStep(t, steps, 1);
    RunStep(t, steps, 2);
    RunStep(t, steps, 3);
    RunStep(t, steps, 4);
  }

  lemma Refound(t: State)
    requires PhaseOf(t, 0) == Absent && t.replicas > 0
    ensures var end := Do(Do(Do(Do(Do(t, LoseVolume(0)), StartPod(0)), LookAtDir(0)), Exec(0)), Serve(0));
            VolumeOf(end, 0) == Data(t.unused)
  {
  }

  // ---- A pod left alone comes up ----

  /** A pod starts and runs its script to the end. */
  function Alone(s: State, i: nat): State {
    Do(Do(Do(Do(s, StartPod(i)), LookAtDir(i)), Exec(i)), Serve(i))
  }

  /** And on its way finds itself a member through another pod. */
  function Guided(s: State, i: nat, j: nat): State {
    Do(Do(Do(Do(Do(s, StartPod(i)), LookAtDir(i)), FindMember(i, j)), Exec(i)), Serve(i))
  }

  predicate Serves(s: State, i: nat, c: nat) {
    PhaseOf(s, i) == Serving(c) && VolumeOf(s, i) == Data(c)
  }

  /** On a volume with data a pod serves the cluster of that data; pod 0 on an empty volume founds one. */
  lemma PodComesUp(s: State, i: nat)
    requires i < s.replicas && PhaseOf(s, i) == Absent
    ensures match VolumeOf(s, i)
            case Data(c) => Serves(Alone(s, i), i, c)
            case Empty => if i == 0 then Serves(Alone(s, i), i, s.unused) else PhaseOf(Alone(s, i), i) == SawEmpty
  {
  }

  /** And it looks for no member list. */
  lemma PodZeroNeverJoins(s: State, j: nat)
    ensures Do(s, FindMember(0, j)) == s
  {
  }

  /** Any other joins the cluster of a serving pod. */
  lemma PodJoins(s: State, i: nat, j: nat, c: nat)
    requires 0 < i < s.replicas && PhaseOf(s, i) == Absent && VolumeOf(s, i) == Empty && PhaseOf(s, j) == Serving(c)
    ensures Serves(Guided(s, i, j), i, c)
  {
  }
}
