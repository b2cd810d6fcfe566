/** What holds along every run of requests: the store stays sane, versions are never reused, and what
    one request can do is all that happens between the writes of others. */
module Traces {
  import opened Wrappers
  import opened Objects
  import opened Api

  // ---- Sane states ----

  predicate SaneObject(s: State, k: Key, o: Object) {
    && 0 < o.rv <= s.clock
    && Typed(k.kind, o.fixed) && Defaulted(o.fixed) == o.fixed && o.fixed != Ip(Unassigned)
    && SpaceExists(s, k) && Registered(s, k.kind)
  }

  ghost predicate Sane(s: State) {
    && (forall k | k in s.objs :: SaneObject(s, k, s.objs[k]))
    && (s.inst.Some? ==> 0 < s.inst.value.rv <= s.clock && s.inst.value.uid <= s.clock && s.inst.value.uid !in s.others)
    && (forall uid | uid in s.others :: uid <= s.clock)
  }

  /** `b` may come after `a`: whatever is not as it was carries a version, and whatever is new an
      identity, that `a` had not handed out. */
  ghost predicate Later(a: State, b: State) {
    && a.clock <= b.clock
    && (forall k | k in b.objs :: (k in a.objs && b.objs[k] == a.objs[k]) || b.objs[k].rv > a.clock)
    && (b.inst.Some? ==> b.inst == a.inst || b.inst.value.rv > a.clock)
    && (b.inst.Some? ==> (a.inst.Some? && b.inst.value.uid == a.inst.value.uid) || b.inst.value.uid > a.clock)
    && (forall uid | uid in b.others :: uid in a.others || uid > a.clock)
  }

  lemma LaterTransitive(a: State, b: State, c: State)
    requires Later(a, b) && Later(b, c)
    ensures Later(a, c)
  {
  }

  /** A version read once identifies the object for good. */
  lemma SameVersionSameObject(a: State, b: State, k: Key, x: Object, y: Object)
    requires Sane(a) && Later(a, b) && Holds(a, k, x) && Holds(b, k, y) && x.rv == y.rv
    ensures x == y
  {
    assert SaneObject(a, k, x);
  }

  lemma DefaultedTwice(fixed: Fixed)
    ensures Defaulted(Defaulted(fixed)) == Defaulted(fixed)
  {
    if fixed.Set? {
      var once := DefaultClaims(fixed.spec.claims);
      assert DefaultClaims(once) == once;
    }
  }

  lemma StoreSane(s: State, k: Key, o: Object)
    requires Sane(s) && o.rv == s.clock + 1
    requires Typed(k.kind, o.fixed) && Defaulted(o.fixed) == o.fixed && o.fixed != Ip(Unassigned)
    requires SpaceExists(s, k) && Registered(s, k.kind)
    ensures Sane(Store(s, k, o)) && Later(s, Store(s, k, o))
  {
    var t := Store(s, k, o);
    forall j | j in t.objs
      ensures SaneObject(t, j, t.objs[j])
    {
      if j != k {
        assert SaneObject(s, j, s.objs[j]);
      }
    }
  }

  lemma WithoutSane(s: State, gone: Key)
    requires Sane(s)
    ensures Sane(Without(s, gone)) && Later(s, Without(s, gone))
  {
    hide Sane, Later;
    var t := Without(s, gone);
    forall j | j in t.objs
      ensures SpaceExists(t, j) && Registered(t, j.kind)
    {
      Grounded(s, j);
      GoesFirst(j);
    }
    ShrinkSane(s, t);
  }

  lemma CreateSane(s: State, k: Key, o: Object)
    requires Sane(s)
    ensures Sane(ServeCreate(s, k, o).0) && Later(s, ServeCreate(s, k, o).0)
  {
    DefaultedTwice(o.fixed);
    if ServeCreate(s, k, o).1 == Done {
      StoreSane(s, k, Admitted(s, o));
    }
  }

  lemma UpdateSane(s: State, k: Key, o: Object)
    requires Sane(s)
    ensures Sane(ServeUpdate(s, k, o).0) && Later(s, ServeUpdate(s, k, o).0)
  {
    if ServeUpdate(s, k, o).1 == Done {
      assert SaneObject(s, k, s.objs[k]);
      StoreSane(s, k, Merged(s, s.objs[k], o));
    }
  }

  lemma InstanceSane(s: State, i: Instance)
    requires Sane(s)
    ensures Sane(ServePut(s, i).0) && Later(s, ServePut(s, i).0)
    ensures Sane(ServeStatus(s, i).0) && Later(s, ServeStatus(s, i).0)
  {
    forall k | k in s.objs
      ensures SaneObject(ServePut(s, i).0, k, s.objs[k]) && SaneObject(ServeStatus(s, i).0, k, s.objs[k])
    {
      assert SaneObject(s, k, s.objs[k]);
    }
  }

  lemma ServeSane(s: State, req: Request, healthy: bool)
    requires Sane(s)
    ensures Sane(Serve(s, req, healthy).0) && Later(s, Serve(s, req, healthy).0)
  {
    match req
    case Create(k, o) => CreateSane(s, k, o);
    case Update(k, o) => UpdateSane(s, k, o);
    case Delete(k, _) => WithoutSane(s, k);
    case PutInstance(i) => InstanceSane(s, i);
    case PutStatus(i) => InstanceSane(s, i);
    case _ =>
  }

  lemma ShrinkSane(s: State, t: State)
    requires Sane(s) && t.clock == s.clock && t.inst == s.inst && t.others == s.others
    requires forall k | k in t.objs :: k in s.objs && t.objs[k] == s.objs[k]
    requires forall k | k in t.objs :: SpaceExists(t, k) && Registered(t, k.kind)
    ensures Sane(t) && Later(s, t)
  {
    forall k | k in t.objs
      ensures SaneObject(t, k, t.objs[k])
    {
      assert SaneObject(s, k, s.objs[k]);
    }
  }

  lemma CollectSane(s: State)
    requires Sane(s)
    ensures Sane(Act(s, Collect)) && Later(s, Act(s, Collect))
  {
    hide Sane, Later, Orphaned;
    var t := Act(s, Collect);
    forall k | k in t.objs
      ensures SpaceExists(t, k) && Registered(t, k.kind)
    {
      Grounded(s, k);
      GoesFirst(k);
    }
    ShrinkSane(s, t);
  }

  lemma Grounded(s: State, k: Key)
    requires Sane(s) && k in s.objs
    ensures SpaceExists(s, k) && Registered(s, k.kind)
  {
    assert SaneObject(s, k, s.objs[k]);
  }

  /** Whatever takes a namespace or a definition away takes along what lives off it. */
  lemma GoesFirst(k: Key)
    ensures Namespaced(k.kind) ==>
              forall gone :: GoesWith(Key(Namespace, NoNamespace, k.space), gone) ==> GoesWith(k, gone)
    ensures k.kind == VolumeSnapshotClass ==> forall gone :: GoesWith(SNAPSHOT_CLASSES_KEY, gone) ==> GoesWith(k, gone)
  {
  }

  lemma PutSane(s: State, k: Key, o: Object)
    requires Sane(s)
    ensures Sane(Act(s, Put(k, o))) && Later(s, Act(s, Put(k, o)))
  {
    hide Sane, Later, ServeUpdate, ServeCreate;
    if k in s.objs { UpdateSane(s, k, o.(rv := s.objs[k].rv)); } else { CreateSane(s, k, o.(rv := 0)); }
  }

  lemma ReadySane(s: State, k: Key, n: nat)
    requires Sane(s)
    ensures Sane(Act(s, SetReady(k, n))) && Later(s, Act(s, SetReady(k, n)))
  {
    if k in s.objs {
      assert SaneObject(s, k, s.objs[k]);
      StoreSane(s, k, s.objs[k].(rv := s.clock + 1, ready := n));
    }
  }

  lemma ActSane(s: State, a: Action)
    requires Sane(s)
    ensures Sane(Act(s, a)) && Later(s, Act(s, a))
  {
    match a
    case Put(k, o) => PutSane(s, k, o);
    case Drop(k) => WithoutSane(s, k);
    case SetReady(k, n) => ReadySane(s, k, n);
    case Collect => CollectSane(s);
    case InstallVelero(there) => if there { GrowVelero(s); } else { ShrinkVelero(s); }
    case Arise => OwnersSane(s, Act(s, a));
    case Perish(_) => OwnersSane(s, Act(s, a));
    case _ => UserSane(s, a);
  }

  /** What others do to the instance. */
  lemma UserSane(s: State, a: Action)
    requires Sane(s) && (a.CreateInstance? || a.DeleteInstance? || a.EditInstance? || a.Hold? || a.Release?)
    ensures Sane(Act(s, a)) && Later(s, Act(s, a))
  {
    hide Later;
    match a
    case CreateInstance(_) => InstanceOnly(s, Act(s, a));
    case DeleteInstance => InstanceOnly(s, Act(s, a));
    case EditInstance(spec) =>
      if s.inst.Some? { InstanceSane(s, s.inst.value.(spec := spec)); } else { InstanceOnly(s, s); }
    case Hold(f) =>
      if s.inst.Some? { InstanceSane(s, s.inst.value.(finalizers := s.inst.value.finalizers + {f})); }
      else { InstanceOnly(s, s); }
    case Release(f) =>
      if s.inst.Some? { InstanceSane(s, s.inst.value.(finalizers := s.inst.value.finalizers - {f})); }
      else { InstanceOnly(s, s); }
  }

  lemma OwnersSane(s: State, t: State)
    requires Sane(s) && t.objs == s.objs && t.velero == s.velero && t.inst == s.inst && s.clock <= t.clock
    requires forall uid | uid in t.others :: uid in s.others || s.clock < uid <= t.clock
    ensures Sane(t) && Later(s, t)
  {
    forall k | k in t.objs
      ensures SaneObject(t, k, t.objs[k])
    {
      assert SaneObject(s, k, s.objs[k]);
    }
  }

  lemma InstanceOnly(s: State, t: State)
    requires Sane(s) && t.objs == s.objs && t.velero == s.velero && t.others == s.others && s.clock <= t.clock
    requires t.inst.Some? ==> t.inst == s.inst || s.clock < t.inst.value.rv <= t.clock
    requires t.inst.Some? ==>
               (s.inst.Some? && t.inst.value.uid == s.inst.value.uid) || s.clock < t.inst.value.uid <= t.clock
    ensures Sane(t) && Later(s, t)
  {
    forall k | k in t.objs
      ensures SaneObject(t, k, t.objs[k])
    {
      assert SaneObject(s, k, s.objs[k]);
    }
  }

  lemma GrowVelero(s: State)
    requires Sane(s)
    ensures Sane(s.(velero := true)) && Later(s, s.(velero := true))
  {
    forall k | k in s.objs
      ensures SaneObject(s.(velero := true), k, s.objs[k])
    {
      assert SaneObject(s, k, s.objs[k]);
    }
  }

  lemma ShrinkVelero(s: State)
    requires Sane(s)
    ensures Sane(Act(s, InstallVelero(false))) && Later(s, Act(s, InstallVelero(false)))
  {
    var t := Act(s, InstallVelero(false));
    forall k | k in t.objs
      ensures SaneObject(t, k, t.objs[k])
    {
      assert SaneObject(s, k, s.objs[k]);
    }
  }

  // ---- Traces ----

  type History = seq<Event>

  const NOWHERE := State(map[], None, false, 0, {})
  const NOTHING := Event(Other(Collect), NOWHERE, NOWHERE)

  /** The n-th event; past the end, none of the operator's. */
  function Nth(h: History, n: nat): Event {
    if n < |h| then h[n] else NOTHING
  }

  function Last(h: History): Event {
    if h == [] then NOTHING else h[|h| - 1]
  }

  /** All but the last event. */
  function Front(h: History): History {
    if h == [] then [] else h[..|h| - 1]
  }

  /** The history up to and including the n-th event. */
  function Upto(h: History, n: nat): History {
    if n < |h| then h[..n + 1] else h
  }

  /** The most recent request of the operator in a history. */
  function LastRequest(h: History): Option<Event>
    decreases |h|
  {
    if h == [] then None
    else if Last(h).actor.Operator? then Some(Last(h))
    else LastRequest(Front(h))
  }

  /** What came before that request. */
  function BeforeRequest(h: History): History
    decreases |h|
  {
    if h == [] then []
    else if Last(h).actor.Operator? then Front(h)
    else BeforeRequest(Front(h))
  }

  /** An event is what its actor made of the state before it, and reads are answered truthfully. */
  ghost predicate Genuine(e: Event) {
    match e.actor
    case Other(a) => e.post == Act(e.pre, a)
    case Operator(Get(k), Got(x)) => k in e.pre.objs && e.pre.objs[k] == x
    case Operator(List(kind, space), Listed(keys)) => keys == Matching(e.pre, kind, space)
    case Operator(GetInstance, GotInstance(i)) => e.pre.inst == Some(i)
    case _ => true
  }

  /** Each event starts where the one before ended. */
  ghost predicate Linked(start: State, trace: seq<Event>, i: nat) {
    && i < |trace| && Genuine(trace[i])
    && trace[i].pre == (if i == 0 then start else trace[i - 1].post)
    && Sane(trace[i].pre) && Sane(trace[i].post) && Later(trace[i].pre, trace[i].post)
  }

  /** A world whose trace leads from its start to its state, through sane states only. */
  ghost predicate Good(w: World) {
    && Sane(w.start) && Sane(w.s) && Later(w.start, w.s)
    && w.s == (if w.trace == [] then w.start else Last(w.trace).post)
    && forall i: nat | i < |w.trace| :: Linked(w.start, w.trace, i)
  }

  /** What other clients are relied on to do, as a relation between states. */
  type Rely = (State, State) -> bool

  /** What a history ending in a request of the operator looks like. */
  type Guarantee = History -> bool

  ghost predicate EventOk(h: History, g: Guarantee) {
    Last(h).actor.Operator? ==> g(h)
  }

  /** `v` is `w` some time later, every request of the operator in between being as guaranteed; once the
      script is used up nobody else acts. */
  ghost predicate Via(w: World, v: World, g: Guarantee) {
    && Good(w) && Good(v)
    && w.start == v.start && w.trace <= v.trace && Later(w.s, v.s)
    && (w.script == [] ==> v.script == [] && forall i | |w.trace| <= i < |v.trace| :: v.trace[i].actor.Operator?)
    && forall n | |w.trace| < n <= |v.trace| :: EventOk(v.trace[..n], g)
  }

  /** Everything others did between `w` and `v` was as relied on. */
  ghost predicate Heeded(w: World, v: World, rely: Rely) {
    forall i | |w.trace| <= i < |v.trace| && v.trace[i].actor.Other? :: rely(v.trace[i].pre, v.trace[i].post)
  }

  lemma HeededParts(w: World, u: World, v: World, rely: Rely)
    requires Heeded(w, v, rely) && w.trace <= u.trace <= v.trace
    ensures Heeded(w, u, rely) && Heeded(u, v, rely)
  {
  }

  lemma CalmHeeds(w: World, v: World, g: Guarantee, rely: Rely)
    requires Via(w, v, g) && w.script == []
    ensures Heeded(w, v, rely)
  {
  }

  lemma ViaSelf(w: World, g: Guarantee)
    requires Good(w)
    ensures Via(w, w, g)
  {
  }

  lemma ViaTransitive(u: World, v: World, w: World, g: Guarantee)
    requires Via(u, v, g) && Via(v, w, g)
    ensures Via(u, w, g)
  {
    forall n | |u.trace| < n <= |w.trace|
      ensures EventOk(w.trace[..n], g)
    {
      if n <= |v.trace| {
        assert w.trace[..n] == v.trace[..n];
      }
    }
  }

  lemma ViaWeaken(w: World, v: World, g: Guarantee, g': Guarantee)
    requires Via(w, v, g)
    requires forall h: History | g(h) :: g'(h)
    ensures Via(w, v, g')
  {
    forall n | |w.trace| < n <= |v.trace|
      ensures EventOk(v.trace[..n], g')
    {
      assert EventOk(v.trace[..n], g);
    }
  }

  /** Every request of a stretch may be looked at anew. */
  lemma Relook(w: World, v: World, g: Guarantee, g': Guarantee)
    requires Via(w, v, g)
    requires forall n | |w.trace| < n <= |v.trace| && g(v.trace[..n]) && Last(v.trace[..n]).actor.Operator? ::
               g'(v.trace[..n])
    ensures Via(w, v, g')
  {
    hide Good, Later;
    forall n | |w.trace| < n <= |v.trace|
      ensures EventOk(v.trace[..n], g')
    {
      assert EventOk(v.trace[..n], g);
    }
  }

  lemma NoteGood(w: World, actor: Actor, t: State)
    requires Good(w) && Sane(t) && Later(w.s, t) && Genuine(Event(actor, w.s, t))
    ensures Good(Note(w, actor, t))
  {
    var v := Note(w, actor, t);
    LaterTransitive(w.start, w.s, t);
    forall i: nat | i < |v.trace|
      ensures Linked(v.start, v.trace, i)
    {
      if i < |w.trace| {
        assert Linked(w.start, w.trace, i);
      }
    }
  }

  lemma NoteVia(w: World, actor: Actor, t: State, g: Guarantee)
    requires Good(w) && Sane(t) && Later(w.s, t) && Genuine(Event(actor, w.s, t))
    requires actor.Other? ==> w.script != []
    requires EventOk(Note(w, actor, t).trace, g)
    ensures Via(w, Note(w, actor, t), g)
  {
    hide Sane;
    var v := Note(w, actor, t);
    NoteGood(w, actor, t);
    assert v.trace[..|v.trace|] == v.trace;
  }

  lemma {:induction false} ActsVia(w: World, writes: seq<Action>, g: Guarantee)
    requires Good(w) && (w.script == [] ==> writes == [])
    ensures Via(w, Acts(w, writes), g)
    ensures LastRequest(Acts(w, writes).trace) == LastRequest(w.trace)
    ensures BeforeRequest(Acts(w, writes).trace) == BeforeRequest(w.trace)
    ensures Acts(w, writes).script == w.script
    decreases |writes|
  {
    if writes == [] {
      ViaSelf(w, g);
    } else {
      var t := Act(w.s, writes[0]);
      ActSane(w.s, writes[0]);
      var v := Note(w, Other(writes[0]), t);
      assert Front(v.trace) == w.trace;
      NoteVia(w, Other(writes[0]), t, g);
      ActsVia(v, writes[1..], g);
      ViaTransitive(w, v, Acts(w, writes), g);
    }
  }

  lemma ArriveVia(w: World, g: Guarantee)
    requires Good(w)
    ensures Via(w, Arrive(w), g)
    ensures LastRequest(Arrive(w).trace) == LastRequest(w.trace)
    ensures BeforeRequest(Arrive(w).trace) == BeforeRequest(w.trace)
  {
    ActsVia(w, Next(w).writes, g);
  }

  /** The event a request leaves behind: what it found, what it left, what it was told. */
  lemma CallEvent(w: World, req: Request)
    requires Good(w)
    ensures var (v, r) := Call(w, req);
            var e := Last(v.trace);
            && v.trace != [] && Good(v) && Later(w.s, e.pre) && Later(e.pre, e.post)
            && e.actor == Operator(req, r) && e.post == v.s
            && w.trace <= Front(v.trace) && LastRequest(Front(v.trace)) == LastRequest(w.trace)
            && BeforeRequest(Front(v.trace)) == BeforeRequest(w.trace)
            && var (t, reply) := Serve(e.pre, req, Next(w).healthy);
               (e.post == t || (e.post == e.pre && r == Fail(Transient))) && (r == reply || r == Fail(Transient))
  {
    hide Sane, Acts;
    ArriveVia(w, h => true);
    var u := Arrive(w);
    ServeSane(u.s, req, Next(w).healthy);
    var (v, r) := Call(w, req);
    assert Front(v.trace) == u.trace;
    NoteGood(u, Operator(req, r), v.s);
  }

  /** The operator has done nothing since `w`. */
  ghost predicate OthersOnly(w: World, h: History) {
    forall i | |w.trace| <= i < |h| :: h[i].actor.Other?
  }

  lemma {:induction false} OnlyOthers(w: World, writes: seq<Action>)
    ensures w.trace <= Acts(w, writes).trace && OthersOnly(w, Acts(w, writes).trace)
    decreases |writes|
  {
    hide Act;
    if writes != [] {
      OnlyOthers(Note(w, Other(writes[0]), Act(w.s, writes[0])), writes[1..]);
    }
  }

  /** A request is the only one of the operator that it adds to the trace. */
  lemma OthersFirst(w: World, req: Request)
    ensures |w.trace| < |Call(w, req).0.trace| && OthersOnly(w, Front(Call(w, req).0.trace))
  {
    hide Acts;
    OnlyOthers(w, Next(w).writes);
  }

  lemma CallVia(w: World, req: Request, g: Guarantee)
    requires Good(w) && g(Call(w, req).0.trace)
    ensures Via(w, Call(w, req).0, g)
  {
    hide Sane, Acts;
    ArriveVia(w, g);
    var u := Arrive(w);
    ServeSane(u.s, req, Next(w).healthy);
    var (v, r) := Call(w, req);
    NoteVia(u, Operator(req, r), v.s, g);
    ViaTransitive(w, u, v, g);
  }

  /** The state a world was in after its first `n` events. */
  function StateAt(w: World, n: nat): State {
    if n == 0 || |w.trace| < n then w.start else w.trace[n - 1].post
  }

  /** A world on the way to another is a moment of it. */
  lemma Midway(u: World, v: World)
    requires Good(u) && Good(v) && u.start == v.start && u.trace <= v.trace
    ensures u.s == StateAt(v, |u.trace|)
  {
    hide Sane, Later, Linked;
  }

  function End(w: World): State {
    StateAt(w, |w.trace|)
  }

  /** Every event between `w` and `v` finds such a state. */
  ghost predicate Along(w: World, v: World, inv: State -> bool) {
    forall i | |w.trace| <= i < |v.trace| :: inv(v.trace[i].pre)
  }

  lemma {:induction false} LaterWithin(w: World, m: nat, n: nat)
    requires Good(w) && m <= n <= |w.trace|
    ensures Sane(StateAt(w, m)) && Sane(StateAt(w, n)) && Later(StateAt(w, m), StateAt(w, n))
    decreases n
  {
    hide Sane, Genuine, SaneObject;
    if n > 0 {
      assert Linked(w.start, w.trace, n - 1);
    }
    if m < n {
      LaterWithin(w, m, n - 1);
      LaterTransitive(StateAt(w, m), StateAt(w, n - 1), StateAt(w, n));
    } else if n > 0 {
      LaterSelf(StateAt(w, n));
    }
  }

  lemma LaterSelf(s: State)
    ensures Later(s, s)
  {
  }

  /** What no event breaks holds throughout. */
  lemma {:induction false} Throughout(w: World, v: World, rely: Rely, g: Guarantee, inv: State -> bool)
    requires Via(w, v, g) && Heeded(w, v, rely) && inv(w.s)
    requires forall s, t | Sane(s) && Later(s, t) && inv(s) && rely(s, t) :: inv(t)
    requires forall h: History | g(h) && inv(Last(h).pre) && Sane(Last(h).pre) && Later(Last(h).pre, Last(h).post) ::
               inv(Last(h).post)
    ensures inv(v.s) && Along(w, v, inv)
    ensures forall n | |w.trace| <= n <= |v.trace| :: inv(StateAt(v, n))
  {
    hide Sane, Later, Genuine;
    var n := |w.trace|;
    while n < |v.trace|
      invariant |w.trace| <= n <= |v.trace|
      invariant inv(StateAt(v, n)) && forall i | |w.trace| <= i <= n :: inv(StateAt(v, i))
      invariant forall i | |w.trace| <= i < n :: inv(v.trace[i].pre)
    {
      var h := v.trace[..n + 1];
      assert EventOk(h, g) && Last(h) == v.trace[n];
      assert Linked(v.start, v.trace, n) && v.trace[n].pre == StateAt(v, n);
      assert StateAt(v, n + 1) == v.trace[n].post && inv(v.trace[n].post);
      n := n + 1;
    }
    assert StateAt(v, n) == v.s;
  }

  /** A deletion of the operator that went through. */
  predicate DeletesAt(e: Event, k: Key, site: Site) {
    match e.actor
    case Operator(req, _) => req == Delete(k, site) && e.pre != e.post
    case _ => false
  }
}
