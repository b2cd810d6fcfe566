/** Teardown safety: nothing is written before the instance holds the finalizer, and nothing on the
    teardown list is left when the finalizer goes. */
module Teardown {
  import opened Wrappers
  import opened Objects
  import opened Api
  import opened Components
  import opened Strategies
  import opened Traces
  import opened Reconcile
  import opened Effects
  import opened Passes
  import opened Plans
  import opened PassTraces
  import opened Runs

  // ---- The finalizer guards every write ----

  predicate Held(s: State) {
    s.inst.Some? && OperatorFinalizer in s.inst.value.finalizers
  }

  /** The instance of that identity is stored and holds the operator's finalizer. */
  predicate Guarded(s: State, uid: nat) {
    Held(s) && s.inst.value.uid == uid
  }

  predicate BeingDeleted(s: State) {
    s.inst.Some? && s.inst.value.deleting
  }

  predicate OnList(k: Key) {
    k in FixedTeardown()
  }

  /** What the operator takes down: the teardown list, and backup schedules of its name. */
  predicate Ours(k: Key) {
    OnList(k) || (k.kind == Schedule && k.name == EtcdName)
  }

  /** Others do not take the operator's finalizer away. */
  ghost function KeepFinalizer(): Rely {
    (s: State, t: State) => forall uid | Guarded(s, uid) :: Guarded(t, uid)
  }

  /** A creation or update that goes through. */
  predicate Writes(e: Event) {
    match e.actor
    case Operator(Create(_, _), _) => e.pre != e.post
    case Operator(Update(_, _), _) => e.pre != e.post
    case _ => false
  }

  /** It finds the instance stored and holding the finalizer. */
  ghost function Guarding(uid: nat): Guarantee {
    (h: History) => Writes(Last(h)) ==> Guarded(Last(h).pre, uid)
  }

  lemma RequestKeepsGuard(h: History, a: Agenda, uid: nat)
    requires PassRequest(h, a) && !a.deleting && Guarded(Last(h).pre, uid)
    ensures Guarded(Last(h).post, uid)
  {
    hide DriftFields, JustRead, Replacement, Admitted, Merged, MayReplace, ListedIn, Scanned;
  }

  lemma {:induction false} NormalGuards(w: World, inst: Instance, order: Ordering)
    requires Good(w) && Guarded(w.s, inst.uid) && !inst.deleting
    requires Heeded(w, ReconcileNormal(w, inst, order).0, KeepFinalizer())
    ensures Reached(w, ReconcileNormal(w, inst, order).0, Guarding(inst.uid))
  {
    hide Good, Sane, Later, ReconcileNormal, AgendaOf, PassRequest, Guarded, Heeded, Writes;
    var v := ReconcileNormal(w, inst, order).0;
    var a := AgendaOf(inst);
    NormalReaches(w, inst, order);
    AgendaIs(inst);
    forall h: History | PassBy(a)(h) && Guarded(Last(h).pre, inst.uid)
      ensures Guarded(Last(h).post, inst.uid)
    {
      RequestKeepsGuard(h, a, inst.uid);
    }
    Throughout(w, v, KeepFinalizer(), PassBy(a), (s: State) => Guarded(s, inst.uid));
    forall n | |w.trace| < n <= |v.trace| && PassBy(a)(v.trace[..n])
      ensures Guarding(inst.uid)(v.trace[..n])
    {
      assert Last(v.trace[..n]) == v.trace[n - 1];
    }
    Relook(w, v, PassBy(a), Guarding(inst.uid));
  }

  /** Neither the reads and writes of the instance nor the reconcile of one being deleted create or update
      an object. */
  lemma ElseWritesNothing(h: History, a: Agenda)
    requires Marks(h, a.deleting) || (PassRequest(h, a) && a.deleting)
    ensures !Writes(Last(h))
  {
    hide Without;
  }

  lemma ReconcileGuards(w: World, order: Ordering)
    requires Good(w) && Heeded(w, ReconcileOnce(w, order).0, KeepFinalizer())
    ensures Reached(w, ReconcileOnce(w, order).0, Guarding(Subject(w).uid))
  {
    hide Via, Good, Call, ReconcileNormal, ReconcileDelete, AgendaOf, KeepFinalizer, Marks, PassRequest, Heeded,
         Writes, Guarded;
    var (v, r) := Call(w, GetInstance);
    var end := ReconcileOnce(w, order).0;
    var inst := Subject(w);
    var g := Guarding(inst.uid);
    var a := AgendaOf(inst);
    AgendaIs(inst);
    forall h: History | Marks(h, a.deleting) || (PassRequest(h, a) && a.deleting)
      ensures g(h)
    {
      ElseWritesNothing(h, a);
    }
    GetInstanceVia(w, a.deleting);
    ReachedWeaken(w, v, Marking(a.deleting), g);
    ReconcileReaches(w, inst, order);
    HeededParts(w, v, end, KeepFinalizer());
    if r.GotInstance? {
      if inst.deleting {
        ReachedWeaken(v, end, PassBy(a), g);
      } else if OperatorFinalizer in inst.finalizers {
        assert Guarded(v.s, inst.uid) by { HeldGuards(v.s, inst); }
        NormalGuards(v, inst, order);
      } else {
        AdoptionGuards(v, inst, order);
      }
      ReachedTransitive(w, v, end, g);
    }
  }

  lemma HeldGuards(s: State, inst: Instance)
    requires s.inst == Some(inst) && OperatorFinalizer in inst.finalizers
    ensures Guarded(s, inst.uid)
  {
  }

  lemma AdoptionGuards(w: World, inst: Instance, order: Ordering)
    requires Good(w) && w.s.inst == Some(inst) && !inst.deleting && Heeded(w, Adopt(w, inst, order).0, KeepFinalizer())
    ensures Reached(w, Adopt(w, inst, order).0, Guarding(inst.uid))
  {
    hide Via, Good, Call, ReconcileNormal, AgendaOf, KeepFinalizer, Heeded, PassBy;
    var i := inst.(finalizers := inst.finalizers + {OperatorFinalizer});
    var (u, p) := Call(w, PutInstance(i));
    ReachedSelf(w, Guarding(inst.uid));
    ReachedLater(w, w, Guarding(inst.uid));
    PutVia(w, w.s, i, inst);
    ReachedWeaken(w, u, Marking(inst.deleting), Guarding(inst.uid));
    if p.GotInstance? {
      AdoptReaches(w, inst, order);
      HeededParts(w, u, ReconcileNormal(u, p.inst, order).0, KeepFinalizer());
      NormalGuards(u, p.inst, order);
      ReachedTransitive(w, u, ReconcileNormal(u, p.inst, order).0, Guarding(inst.uid));
    }
  }

  /** No object is created or updated before the instance holds the finalizer: whatever others do short
      of taking the finalizer away, at every write of every reconcile that instance is stored and
      holds it. */
  lemma NoWriteBeforeFinalizer(s: State, p: Pass, order: Ordering, n: nat)
    requires Sane(s) && PassHeeds(s, p, order, KeepFinalizer()) && Writes(Nth(PassWorld(s, p, order).trace, n))
    ensures Guarded(Nth(PassWorld(s, p, order).trace, n).pre, Subject(Fresh(s, p)).uid)
  {
    hide ReconcileOnce, Good, Call, Subject, Guarded, Heeded;
    FreshGood(s, p);
    ReconcileGuards(Fresh(s, p), order);
    var w := PassWorld(s, p, order);
    assert EventOk(w.trace[..n + 1], Guarding(Subject(Fresh(s, p)).uid));
    assert Last(w.trace[..n + 1]) == w.trace[n];
  }

  // ---- Nothing is left at the release ----

  /** Others do not make the object. */
  ghost function NotMade(k: Key): Rely {
    (s: State, t: State) => k in t.objs ==> k in s.objs
  }

  /** Others make nothing of the operator's while the stored instance is being deleted. */
  ghost function NoneWhileDeleting(): Rely {
    (s: State, t: State) => forall k | Ours(k) && k in t.objs && k !in s.objs :: !BeingDeleted(s)
  }

  /** What nobody else makes, and a reconcile that has nothing to bring about, stays away. */
  lemma StaysAway(w: World, v: World, g: Guarantee, k: Key)
    requires Reached(w, v, g) && Heeded(w, v, NotMade(k)) && k !in w.s.objs
    requires forall h: History | g(h) && k !in Last(h).pre.objs :: k !in Last(h).post.objs
    ensures k !in v.s.objs && Along(w, v, (s: State) => k !in s.objs)
    ensures forall n | |w.trace| <= n <= |v.trace| :: k !in StateAt(v, n).objs
  {
    hide Good, Sane, Later, Heeded;
    var inv := (s: State) => k !in s.objs;
    Throughout(w, v, NotMade(k), g, inv);
    forall n | |w.trace| <= n <= |v.trace|
      ensures k !in StateAt(v, n).objs
    {
      assert inv(StateAt(v, n));
    }
  }

  /** What a teardown deleted stays away. */
  lemma {:induction false} TeardownClears(w: World, keys: seq<Key>, a: Agenda, k: Key)
    requires Good(w) && Heeded(w, DeleteAll(w, keys).0, NotMade(k)) && DeleteAll(w, keys).1.None?
    requires a.deleting && (forall j | j in keys :: j in a.teardown) && k in keys
    ensures k !in DeleteAll(w, keys).0.s.objs
    decreases |keys|
  {
    hide Call, Via, Good, NotMade, Heeded;
    var v := DeleteTolerant(w, keys[0], TeardownSite).0;
    CallGrows(w, Delete(keys[0], TeardownSite));
    DeletedIsGone(w, keys[0], TeardownSite);
    CallEvent(w, Delete(keys[0], TeardownSite));
    DeleteAllReaches(v, keys[1..], a);
    HeededParts(w, v, DeleteAll(w, keys).0, NotMade(k));
    if k == keys[0] {
      StaysAway(v, DeleteAll(v, keys[1..]).0, Deleting(a), k);
    } else {
      TeardownClears(v, keys[1..], a, k);
    }
  }

  lemma TeardownIsOurs(spec: Spec)
    ensures forall k | k in TeardownKeys(spec) :: Ours(k)
  {
    hide FixedTeardown;
    ScheduleKind(spec);
  }

  /** The finalizer is taken away from an instance being deleted only. */
  predicate Releases(e: Event) {
    e.actor.Operator? && Held(e.pre) && !Held(e.post)
  }

  lemma ReleaseIsOfDeleted(h: History, a: Agenda)
    requires PassRequest(h, a) && Releases(Last(h))
    ensures a.deleting && !Deletes(h, a)
  {
    hide DriftFields, JustRead, Replacement, Admitted, Merged, MayReplace, ListedIn, Scanned;
  }

  /** An instance stored before and after was stored in between. */
  lemma InstanceSteady(a: State, b: State, c: State)
    requires Sane(a) && Later(a, b) && Later(b, c) && a.inst.Some? && c.inst == a.inst
    ensures b.inst == a.inst
  {
  }

  /** While the instance stays as it was read, being deleted, nothing of the operator's is made. */
  lemma NoneMadeMeanwhile(v: World, u: World, k: Key)
    requires Good(v) && Good(u) && v.start == u.start && v.trace <= u.trace && |v.trace| < |u.trace|
    requires BeingDeleted(v.s) && Last(u.trace).pre.inst == v.s.inst && Last(u.trace).actor.Operator?
    requires Heeded(v, u, NoneWhileDeleting()) && Ours(k)
    ensures Heeded(v, u, NotMade(k))
  {
    hide Sane, Later, Ours, Genuine;
    var n := |u.trace| - 1;
    Midway(v, u);
    forall i | |v.trace| <= i < |u.trace| && u.trace[i].actor.Other?
      ensures NotMade(k)(u.trace[i].pre, u.trace[i].post)
    {
      assert Linked(u.start, u.trace, i) && Linked(u.start, u.trace, n);
      LaterWithin(u, |v.trace|, i);
      LaterWithin(u, i, n);
      InstanceSteady(v.s, u.trace[i].pre, u.trace[n].pre);
      assert NoneWhileDeleting()(u.trace[i].pre, u.trace[i].post) && BeingDeleted(u.trace[i].pre);
    }
  }

  /** The finalizer is dropped only from the very instance read before the teardown. */
  lemma ReleasesWhatWasRead(v: World, read: State, inst: Instance)
    requires Good(v) && Sane(read) && Later(read, v.s) && read.inst == Some(inst)
    requires Releases(Last(Call(v, PutInstance(inst.(finalizers := inst.finalizers - {OperatorFinalizer}))).0.trace))
    ensures Last(Call(v, PutInstance(inst.(finalizers := inst.finalizers - {OperatorFinalizer}))).0.trace).pre.inst
            == Some(inst)
  {
    hide Call, Sane, Good;
    var i := inst.(finalizers := inst.finalizers - {OperatorFinalizer});
    CallEvent(v, PutInstance(i));
    var e := Last(Call(v, PutInstance(i)).0.trace);
    LaterTransitive(read, v.s, e.pre);
    assert Sane(e.pre) by { LastSane(Call(v, PutInstance(i)).0); }
    SameVersionSameInstance(read, e.pre, inst, e.pre.inst.value);
  }

  lemma LastSane(v: World)
    requires Good(v) && v.trace != []
    ensures Sane(Last(v.trace).pre)
  {
    hide Sane, Later, Genuine;
    assert Linked(v.start, v.trace, |v.trace| - 1);
  }

  lemma DeletionReleasesClean(v: World, inst: Instance, n: nat)
    requires Good(v) && v.s.inst == Some(inst) && inst.deleting
    requires |v.trace| <= n && Releases(Nth(ReconcileDelete(v, inst).0.trace, n))
    requires Heeded(v, ReconcileDelete(v, inst).0, NoneWhileDeleting())
    ensures Nth(ReconcileDelete(v, inst).0.trace, n).pre.inst == Some(inst)
    ensures forall k | k in TeardownKeys(inst.spec) :: k !in Nth(ReconcileDelete(v, inst).0.trace, n).pre.objs
  {
    hide Via, Good, DeleteAll, TeardownKeys, Call, Deletes, Marks, Ours, Held, Heeded, NotMade, NoneWhileDeleting,
         Later, Sane, KeyOf, Expected, ScheduleWanted, TaskOf, Wanted;
    var a := AgendaOf(inst);
    var (x, err) := DeleteAll(v, a.teardown);
    var u := ReconcileDelete(v, inst).0;
    DeleteAllReaches(v, a.teardown, a);
    ReachedLater(v, x, Deleting(a));
    NoneReleased(v, x, a, n);
    var i := inst.(finalizers := inst.finalizers - {OperatorFinalizer});
    PutVia(x, v.s, i, inst);
    ReachedLater(x, u, Marking(inst.deleting));
    OthersFirst(x, PutInstance(i));
    assert forall j | 0 <= j < |u.trace| - 1 :: u.trace[j] == Front(u.trace)[j];
    ReleasesWhatWasRead(x, v.s, inst);
    TeardownIsOurs(inst.spec);
    forall k | k in TeardownKeys(inst.spec)
      ensures k !in u.trace[n].pre.objs
    {
      NoneMadeMeanwhile(v, u, k);
      HeededParts(v, x, u, NotMade(k));
      TeardownClears(v, a.teardown, a, k);
      MarkingMakesNothing(inst.deleting, k);
      StaysAway(x, u, Marking(inst.deleting), k);
    }
  }

  lemma MarkingMakesNothing(deleting: bool, k: Key)
    ensures forall h: History | Marking(deleting)(h) && k !in Last(h).pre.objs :: k !in Last(h).post.objs
  {
  }

  /** No deletion of a teardown releases the instance. */
  lemma NoneReleased(w: World, v: World, a: Agenda, n: nat)
    requires Reached(w, v, Deleting(a)) && |w.trace| <= n
    ensures !Releases(Nth(v.trace, n))
  {
    hide Good, Later;
    if n < |v.trace| {
      assert EventOk(v.trace[..n + 1], Deleting(a));
      assert Last(v.trace[..n + 1]) == v.trace[n];
    }
  }

  /** The instance stored when the event came. */
  ghost predicate FindsInstance(e: Event, inst: Instance) {
    e.pre.inst == Some(inst)
  }

  /** The request that takes the finalizer away finds every object on the teardown list of the spec
      then stored gone, the backup schedule included. */
  lemma NothingLeftAtRelease(s: State, p: Pass, order: Ordering, n: nat, inst: Instance, k: Key)
    requires Sane(s) && PassHeeds(s, p, order, NoneWhileDeleting())
    requires Releases(Nth(PassWorld(s, p, order).trace, n)) && FindsInstance(Nth(PassWorld(s, p, order).trace, n), inst)
    requires k in TeardownKeys(inst.spec)
    ensures k !in Nth(PassWorld(s, p, order).trace, n).pre.objs
  {
    hide Call, ReconcileDelete, ReconcileNormal, Adopt, PassRequest, AgendaOf, Good, Heeded, Linked, TeardownKeys,
         Marks, NoneWhileDeleting, Held, Sound;
    var w := Fresh(s, p);
    var t := PassWorld(s, p, order).trace;
    var v := Call(w, GetInstance).0;
    PassReaches(s, p, order);
    assert Last(Upto(t, n)) == t[n] && PassRequest(Upto(t, n), PassAgenda(s, p));
    ReleaseIsOfDeleted(Upto(t, n), PassAgenda(s, p));
    AgendaIs(Subject(w));
    GetInstanceVia(w, true);
    ReconcileReaches(w, Subject(w), order);
    HeededParts(w, v, PassWorld(s, p, order), NoneWhileDeleting());
    assert |v.trace| <= n by { ReadsHold(w, PassWorld(s, p, order), n); }
    DeletionReleasesClean(v, Subject(w), n);
  }

  /** The first request of a reconcile releases nothing. */
  lemma ReadsHold(w: World, u: World, n: nat)
    requires Good(w) && w.trace == [] && Call(w, GetInstance).0.trace <= u.trace && Releases(Nth(u.trace, n))
    ensures |Call(w, GetInstance).0.trace| <= n
  {
    hide Call, Good;
    var t := Call(w, GetInstance).0.trace;
    CallEvent(w, GetInstance);
    OthersFirst(w, GetInstance);
    forall i | 0 <= i < |t|
      ensures !Releases(u.trace[i])
    {
      assert u.trace[i] == t[i] && (i < |t| - 1 ==> Front(t)[i] == t[i]);
    }
  }

  // ---- Every moment of every run ----

  /** Others neither take the finalizer away nor make anything of the operator's, except while the
      instance holds the finalizer and is not being deleted. */
  ghost function HandsOff(): Rely {
    (s: State, t: State) =>
      && KeepFinalizer()(s, t)
      && forall k | Ours(k) && k in t.objs && k !in s.objs :: Held(s) && !BeingDeleted(s)
  }

  /** While the finalizer is not held, the object does not exist. */
  predicate Clean(s: State, k: Key) {
    Held(s) || k !in s.objs
  }

  lemma OthersKeepClean(s: State, t: State, k: Key)
    requires Clean(s, k) && HandsOff()(s, t) && OnList(k)
    ensures Clean(t, k)
  {
    hide OnList;
    assert KeepFinalizer()(s, t) && Ours(k);
    if Held(s) {
      assert Guarded(s, s.inst.value.uid);
    }
  }

  /** A request that writes while the finalizer is held, and releases when the object is gone, keeps it so. */
  lemma RequestKeepsClean(h: History, a: Agenda, k: Key)
    requires PassRequest(h, a) && Clean(Last(h).pre, k)
    requires Writes(Last(h)) ==> Held(Last(h).pre)
    requires Releases(Last(h)) ==> k !in Last(h).pre.objs
    ensures Clean(Last(h).post, k)
  {
    hide DriftFields, JustRead, Replacement, Admitted, Merged, MayReplace, ListedIn, Scanned;
  }

  lemma {:induction false} CleanWithinPass(s: State, p: Pass, order: Ordering, n: nat, k: Key)
    requires Sane(s) && Clean(s, k) && PassHeeds(s, p, order, HandsOff()) && OnList(k)
    ensures Clean(StateAt(PassWorld(s, p, order), n), k)
    decreases n
  {
    hide PassWorld, AgendaOf, Subject, HandsOff, Clean, PassRequest, Sane, Later, Genuine, Sound, Held, OnList,
         TeardownKeys, Writes, Releases;
    PassReaches(s, p, order);
    var w := PassWorld(s, p, order);
    if 0 < n <= |w.trace| {
      CleanWithinPass(s, p, order, n - 1, k);
      assert Linked(s, w.trace, n - 1) && Nth(w.trace, n - 1) == w.trace[n - 1];
      if w.trace[n - 1].actor.Operator? {
        HandsOffIsMore(s, p, order);
        WritesAndReleases(s, p, order, n - 1, k);
        RequestKeepsClean(Upto(w.trace, n - 1), PassAgenda(s, p), k);
      } else {
        OthersKeepClean(w.trace[n - 1].pre, w.trace[n - 1].post, k);
      }
    }
  }

  lemma HandsOffIsMore(s: State, p: Pass, order: Ordering)
    requires PassHeeds(s, p, order, HandsOff())
    ensures PassHeeds(s, p, order, KeepFinalizer()) && PassHeeds(s, p, order, NoneWhileDeleting())
  {
    hide PassWorld, Ours, Guarded;
  }

  lemma WritesAndReleases(s: State, p: Pass, order: Ordering, n: nat, k: Key)
    requires Sane(s) && OnList(k)
    requires PassHeeds(s, p, order, KeepFinalizer()) && PassHeeds(s, p, order, NoneWhileDeleting())
    ensures var e := Nth(PassWorld(s, p, order).trace, n);
            (Writes(e) ==> Held(e.pre)) && (Releases(e) ==> k !in e.pre.objs)
  {
    hide PassWorld, Subject, PassHeeds, FixedTeardown, Writes;
    var e := Nth(PassWorld(s, p, order).trace, n);
    if Writes(e) {
      NoWriteBeforeFinalizer(s, p, order, n);
    }
    if Releases(e) {
      NothingLeftAtRelease(s, p, order, n, e.pre.inst.value, k);
    }
  }

  lemma {:induction false} CleanBetweenPasses(s: State, passes: Series, order: Ordering, n: nat, k: Key)
    requires Sane(s) && Clean(s, k) && RunHeeds(s, passes, order, HandsOff()) && OnList(k)
    ensures Clean(After(s, passes, order, n), k)
  {
    hide PassHeeds, PassWorld, AfterPass, Sane, Clean;
    if n > 0 {
      var at := After(s, passes, order, n - 1);
      CleanBetweenPasses(s, passes, order, n - 1, k);
      SaneRun(s, passes, order, n - 1);
      assert HeedsAt(s, passes, order, HandsOff(), n - 1);
      CleanWithinPass(at, passes(n - 1), order, |PassWorld(at, passes(n - 1), order).trace|, k);
      PassMoments(at, passes(n - 1), order);
    }
  }

  /** Over every run, whoever edits or deletes the instance and however requests fail and the operator
      crashes: whenever the instance is gone, so is every object on the teardown list. */
  lemma {:induction false} GoneMeansTornDown(s: State, passes: Series, order: Ordering, n: nat, i: nat, k: Key)
    requires Sane(s) && Clean(s, k) && RunHeeds(s, passes, order, HandsOff()) && k in FixedTeardown()
    ensures var t := StateAt(RunWorld(s, passes, order, n), i); t.inst.None? ==> k !in t.objs
  {
    hide PassHeeds, PassWorld, Sane, After, StateAt, FixedTeardown;
    assert OnList(k);
    CleanBetweenPasses(s, passes, order, n, k);
    SaneRun(s, passes, order, n);
    assert HeedsAt(s, passes, order, HandsOff(), n);
    CleanWithinPass(After(s, passes, order, n), passes(n), order, i, k);
  }

  // ---- Nothing comes back ----

  /** The instance, if any, is being deleted. */
  predicate Dying(s: State) {
    s.inst.Some? ==> s.inst.value.deleting
  }

  ghost function IsDying(): Invariant {
    (s: State) => Dying(s)
  }

  /** Others neither make the object nor create an instance anew. */
  ghost function NotMadeAnew(k: Key): Rely {
    (s: State, t: State) => NotMade(k)(s, t) && (Dying(s) ==> Dying(t))
  }

  lemma DyingStays(k: Key)
    ensures KeptByRequests(IsDying()) && StableUnderOthers(IsDying(), NotMadeAnew(k))
  {
    hide PassRequest, Sane, Later, Sound;
    forall h: History, a: Agenda | PassRequest(h, a) && Dying(Last(h).pre)
      ensures Dying(Last(h).post)
    {
      RequestKeepsIntent(h, a);
    }
  }

  /** A reconcile of an instance being deleted, or of none, makes nothing. */
  lemma DyingMakesNothing(h: History, a: Agenda, k: Key)
    requires PassRequest(h, a) && (a.deleting || a.tasks == iset{}) && k !in Last(h).pre.objs
    ensures k !in Last(h).post.objs
  {
    hide ListedIn, Scanned;
  }

  lemma NobodyWants()
    ensures AgendaOf(NOBODY).tasks == iset{}
  {
    hide TaskOf, KeyOf, Expected, ScheduleWanted, TeardownKeys, Plan;
  }

  /** Within a reconcile, what is absent once the instance is being deleted stays absent. */
  lemma AbsentWithinPass(s: State, p: Pass, order: Ordering, k: Key)
    requires Sane(s) && Dying(s) && k !in s.objs && PassHeeds(s, p, order, NotMadeAnew(k))
    ensures Dying(AfterPass(s, p, order)) && k !in AfterPass(s, p, order).objs
    ensures forall n: nat :: k !in StateAt(PassWorld(s, p, order), n).objs
  {
    hide Subject, Sane, ReconcileOnce, StateAt, KeptByRequests, StableUnderOthers, AgendaOf, PassRequest, PassTrace,
         Sound, Via, Good;
    var (w, v, a) := (Fresh(s, p), PassWorld(s, p, order), PassAgenda(s, p));
    DyingStays(k);
    PassKeeps(s, p, order, NotMadeAnew(k), IsDying());
    assert IsDying()(AfterPass(s, p, order));
    SubjectMoment(s, p, order);
    NobodyWants();
    AgendaIs(Subject(w));
    if Subject(w) != NOBODY {
      var n: nat :| StateAt(v, n).inst == Some(Subject(w));
      assert IsDying()(StateAt(v, n));
    }
    PassReaches(s, p, order);
    PassMoments(s, p, order);
    forall h: History | PassBy(a)(h) && k !in Last(h).pre.objs
      ensures k !in Last(h).post.objs
    {
      DyingMakesNothing(h, a, k);
    }
    StaysAway(w, v, PassBy(a), k);
    forall n: nat
      ensures k !in StateAt(v, n).objs
    {
      PastTheEnd(v, n);
    }
  }

  lemma PastTheEnd(w: World, n: nat)
    ensures |w.trace| < n ==> StateAt(w, n) == w.start
  {
  }

  /** Once the instance is being deleted and nobody else makes the object or a new instance, what is
      absent stays absent, at every moment of every later reconcile, failed ones and crashes included. */
  lemma {:induction false} NothingComesBack(s: State, passes: Series, order: Ordering, n: nat, i: nat, k: Key)
    requires Sane(s) && Dying(s) && k !in s.objs && RunHeeds(s, passes, order, NotMadeAnew(k))
    ensures k !in StateAt(RunWorld(s, passes, order, n), i).objs
    ensures k !in After(s, passes, order, n).objs && Dying(After(s, passes, order, n))
  {
    hide PassHeeds, PassWorld, AfterPass, Sane, StateAt, Dying;
    if n > 0 {
      NothingComesBack(s, passes, order, n - 1, i, k);
      SaneRun(s, passes, order, n - 1);
      assert HeedsAt(s, passes, order, NotMadeAnew(k), n - 1);
      AbsentWithinPass(After(s, passes, order, n - 1), passes(n - 1), order, k);
    }
    SaneRun(s, passes, order, n);
    assert HeedsAt(s, passes, order, NotMadeAnew(k), n);
    AbsentWithinPass(After(s, passes, order, n), passes(n), order, k);
  }

  // ---- What a teardown covers ----

  /** What a teardown leaves to collection by owner, or for good: namespaces, access control, and two
      services. */
  predicate LeftBehind(c: Component) {
    match c
    case OpenebsNs => true
    case MayastorNs => true
    case LvmSa => true
    case LvmCr => true
    case LvmCrb => true
    case HostpathSa => true
    case HostpathCr => true
    case HostpathCrb => true
    case ZfsSa => true
    case ZfsCr => true
    case ZfsCrb => true
    case RawfileSa => true
    case RawfileCr => true
    case RawfileCrb => true
    case MayastorSa => true
    case MayastorCr => true
    case MayastorCrb => true
    case EtcdSvc => true
    case ApiRestSvc => true
    case _ => false
  }

  /** The place of a component on the teardown list. */
  function SlotOf(c: Component): nat {
    match c
    case LvmControllerDep => 0
    case LvmNodeDs => 1
    case HostpathDep => 2
    case ZfsControllerDep => 3
    case ZfsNodeDs => 4
    case ZfsBinCm => 5
    case RawfileDep => 6
    case LvmCsi => 7
    case ZfsCsi => 8
    case LvmSc => 9
    case HostpathSc => 10
    case ZfsSc => 11
    case RawfileSc => 12
    case EtcdSts => 13
    case AgentCoreDep => 14
    case AgentCoreSvc => 15
    case ApiRestDep => 16
    case CsiControllerDep => 17
    case IoEngineDs => 18
    case MetricsSvc => 19
    case CsiNodeDs => 20
    case HaNodeDs => 21
    case DiskpoolDep => 22
    case MayastorCsi => 23
    case MayastorSc => 24
    case LvmNodesDef => 25
    case LvmVolumesDef => 26
    case LvmSnapshotsDef => 27
    case ZfsNodesDef => 28
    case ZfsVolumesDef => 29
    case ZfsSnapshotsDef => 30
    case SnapshotClassesDef => 31
    case SnapshotsDef => 32
    case SnapshotContentsDef => 33
    case MayastorVsc => 34
    case _ => 0
  }

  lemma LvmCovered(c: Component, spec: Spec)
    requires EngineOf(c) == Lvm && !LeftBehind(c) && LvmClassOf(spec) == LvmClass
    ensures SlotOf(c) < |FixedTeardown()| && FixedTeardown()[SlotOf(c)] == KeyOf(c, spec)
  {
    hide LvmClassOf;
  }

  lemma ZfsCovered(c: Component, spec: Spec)
    requires EngineOf(c) == Zfs && !LeftBehind(c) && ZfsClassOf(spec) == ZfsClass
    ensures SlotOf(c) < |FixedTeardown()| && FixedTeardown()[SlotOf(c)] == KeyOf(c, spec)
  {
    hide ZfsClassOf;
  }

  lemma SmallCovered(c: Component, spec: Spec)
    requires EngineOf(c) in {Hostpath, Rawfile} && !LeftBehind(c) && HostpathClassOf(spec) == HostpathClass
    ensures SlotOf(c) < |FixedTeardown()| && FixedTeardown()[SlotOf(c)] == KeyOf(c, spec)
  {
    hide HostpathClassOf;
  }

  lemma MayastorCovered(c: Component, spec: Spec)
    requires EngineOf(c) == Mayastor && !LeftBehind(c) && c != EtcdSchedule
    requires MayastorClassOf(spec) == MayastorName && SnapshotClassOf(spec) == SnapshotClassName
    ensures SlotOf(c) < |FixedTeardown()| && FixedTeardown()[SlotOf(c)] == KeyOf(c, spec)
  {
    hide MayastorClassOf, SnapshotClassOf;
  }

  /** Keys that are not on the list. */
  predicate Unlisted(k: Key) {
    match k.kind
    case Namespace => true
    case ServiceAccount => true
    case ClusterRole => true
    case ClusterRoleBinding => true
    case Service => k.name == EtcdName || k.name == ApiRest
    case _ => false
  }

  lemma ListIsListed()
    ensures forall i | 0 <= i < |FixedTeardown()| :: !Unlisted(FixedTeardown()[i])
  {
  }

  lemma LeftIsUnlisted(c: Component, spec: Spec)
    requires LeftBehind(c)
    ensures Unlisted(KeyOf(c, spec))
  {
  }

  /** The spec leaves the class names to the operator. */
  predicate DefaultNames(spec: Spec) {
    && LvmClassOf(spec) == LvmClass && ZfsClassOf(spec) == ZfsClass && HostpathClassOf(spec) == HostpathClass
    && MayastorClassOf(spec) == MayastorName && SnapshotClassOf(spec) == SnapshotClassName
  }

  /** With the default class names, a teardown deletes exactly the components not left behind. */
  lemma TeardownCovers(c: Component, spec: Spec)
    requires DefaultNames(spec)
    ensures KeyOf(c, spec) in TeardownKeys(spec) <==> !LeftBehind(c)
  {
    hide FixedTeardown, KeyOf, EngineOf, LeftBehind, SlotOf, Unlisted;
    ListedKeys(c, spec);
    KindTells(c, spec);
    ScheduleKind(spec);
    if LeftBehind(c) {
      LeftIsUnlisted(c, spec);
      ListIsListed();
    } else if c != EtcdSchedule {
      match EngineOf(c)
      case Lvm => LvmCovered(c, spec);
      case Zfs => ZfsCovered(c, spec);
      case Mayastor => MayastorCovered(c, spec);
      case _ => SmallCovered(c, spec);
    }
  }

  lemma ListedKeys(c: Component, spec: Spec)
    ensures KeyOf(c, spec) in TeardownKeys(spec) <==>
              KeyOf(c, spec) in FixedTeardown() || KeyOf(c, spec) == KeyOf(EtcdSchedule, spec)
    ensures !LeftBehind(EtcdSchedule)
  {
    hide FixedTeardown, KeyOf;
  }

  /** The class names of a kind that the list holds. */
  predicate DefaultClass(k: Key) {
    match k.kind
    case StorageClass => k.name in {LvmClass, HostpathClass, ZfsClass, RawfileClass, MayastorName}
    case VolumeSnapshotClass => k.name == SnapshotClassName
    case _ => false
  }

  lemma ListedClasses(k: Key)
    requires k.kind in {StorageClass, VolumeSnapshotClass} && k.space == NoNamespace
    ensures k in FixedTeardown() <==> DefaultClass(k)
  {
    var l := FixedTeardown();
    if DefaultClass(k) {
      var i := if k.kind == VolumeSnapshotClass then 34
               else if k.name == LvmClass then 9
               else if k.name == HostpathClass then 10
               else if k.name == ZfsClass then 11
               else if k.name == RawfileClass then 12
               else 24;
      assert l[i] == k;
    }
  }

  lemma ClassKinds(c: Component, spec: Spec)
    requires IsClass(c) || c == MayastorVsc
    ensures KeyOf(c, spec).kind in {StorageClass, VolumeSnapshotClass} && KeyOf(c, spec).space == NoNamespace
  {
    hide LvmClassOf, ZfsClassOf, HostpathClassOf, MayastorClassOf, SnapshotClassOf;
  }

  /** A teardown deletes a class exactly when the name the spec gives it is the default name of some
      engine's class of that kind; a class with any other name is left. */
  lemma OwnNamesAreLeft(c: Component, spec: Spec)
    requires IsClass(c) || c == MayastorVsc
    ensures KeyOf(c, spec) in TeardownKeys(spec) <==> DefaultClass(KeyOf(c, spec))
  {
    hide FixedTeardown, KeyOf, DefaultClass, IsClass;
    ListedKeys(c, spec);
    ClassKinds(c, spec);
    ScheduleKind(spec);
    ListedClasses(KeyOf(c, spec));
  }

  // ---- What a teardown forgets ----

  /** When the user moves the backup schedule to another namespace, no request of any later reconcile,
      sweep and teardown included, touches the schedule left in the old one. */
  lemma MovedScheduleIsForgotten(h: History, inst: Instance, before: Spec)
    requires PassRequest(h, AgendaOf(inst)) && VeleroSpaceOf(inst.spec) != VeleroSpaceOf(before)
    ensures Spares(Last(h), KeyOf(EtcdSchedule, before))
  {
    hide AgendaOf, PassRequest, Sound;
    ScheduleKeys(before, inst.spec);
    AgendaSound(inst);
    TeardownSpares(inst);
    RequestForgets(h, AgendaOf(inst), KeyOf(EtcdSchedule, before));
  }

  lemma ScheduleKeys(s: Spec, t: Spec)
    ensures KeyOf(EtcdSchedule, s) == Key(Schedule, VeleroSpaceOf(s), EtcdName)
    ensures KeyOf(EtcdSchedule, t) == Key(Schedule, VeleroSpaceOf(t), EtcdName)
  {
  }

  /** A teardown deletes no namespace, and no schedule but that of the spec. */
  ghost predicate ListsOneSchedule(a: Agenda) {
    forall k | k in a.teardown :: k.kind != Namespace && (k.kind == Schedule ==> k == a.schedule)
  }

  lemma TeardownSpares(inst: Instance)
    ensures ListsOneSchedule(AgendaOf(inst)) && AgendaOf(inst).schedule == KeyOf(EtcdSchedule, inst.spec)
  {
    hide FixedTeardown, TaskOf, Wanted, Expected, ScheduleWanted, KeyOf;
    forall i | 0 <= i < |FixedTeardown()|
      ensures FixedTeardown()[i].kind !in {Namespace, Schedule}
    {
      FixedSpares(i);
    }
    ScheduleKind(inst.spec);
  }

  lemma FixedSpares(i: nat)
    requires i < |FixedTeardown()|
    ensures FixedTeardown()[i].kind !in {Namespace, Schedule}
  {
  }

  lemma RequestForgets(h: History, a: Agenda, k: Key)
    requires PassRequest(h, a) && Sound(a) && ListsOneSchedule(a) && k.kind == Schedule && k != a.schedule
    ensures Spares(Last(h), k)
  {
    hide JustRead, DriftFields, Replacement, Admitted, Merged, ListedIn, Proper, SetOf, IpOf, Owned;
  }
}
