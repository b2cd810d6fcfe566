/** A teardown ends: of the reconciles of an instance being deleted, each either meets a disturbance or
    takes the finalizer away. */
module Termination {
  import opened Wrappers
  import opened Objects
  import opened Api
  import opened Components
  import opened Strategies
  import opened Traces
  import opened Reconcile
  import opened Effects
  import opened Passes
  import opened Plans
  import opened PassTraces
  import opened Runs
  import opened Teardown

  // ---- Disturbances ----

  /** A request that went unanswered, or a change of the instance by someone else. */
  predicate Disturbing(e: Event) {
    match e.actor
    case Operator(_, reply) => reply == Fail(Transient)
    case Other(_) => e.pre.inst != e.post.inst
  }

  /** Nothing disturbing happened between `w` and `v`. */
  ghost predicate Quiet(w: World, v: World) {
    forall i | |w.trace| <= i < |v.trace| :: !Disturbing(v.trace[i])
  }

  lemma QuietParts(w: World, u: World, v: World)
    requires Quiet(w, v) && w.trace <= u.trace <= v.trace
    ensures Quiet(w, u) && Quiet(u, v)
  {
  }

  /** The reconcile met no disturbance. */
  ghost predicate Undisturbed(s: State, p: Pass, order: Ordering) {
    Quiet(Fresh(s, p), PassWorld(s, p, order))
  }

  /** Nor did the n-th one of the run. */
  ghost predicate UndisturbedAt(s: State, passes: Series, order: Ordering, n: nat) {
    Undisturbed(After(s, passes, order, n), passes(n), order)
  }

  /** How many of the first `n` reconciles met a disturbance: a request that failed, a crash, or a change
      of the instance by someone else. */
  ghost function DisturbedReconciles(s: State, passes: Series, order: Ordering, n: nat): nat {
    if n == 0 then 0
    else DisturbedReconciles(s, passes, order, n - 1) + if UndisturbedAt(s, passes, order, n - 1) then 0 else 1
  }

  lemma {:induction false} SomeUndisturbed(s: State, passes: Series, order: Ordering, n: nat) returns (m: nat)
    requires DisturbedReconciles(s, passes, order, n) < n
    ensures m < n && UndisturbedAt(s, passes, order, m)
  {
    hide UndisturbedAt;
    if UndisturbedAt(s, passes, order, n - 1) {
      m := n - 1;
    } else {
      m := SomeUndisturbed(s, passes, order, n - 1);
    }
  }

  // ---- An undisturbed reconcile ----

  /** While only others act, and none on the instance, it stays as it is. */
  lemma {:induction false} InstanceKept(v: World, m: nat, n: nat)
    requires Good(v) && m <= n <= |v.trace|
    requires forall i | m <= i < n :: v.trace[i].actor.Other? && !Disturbing(v.trace[i])
    ensures StateAt(v, n).inst == StateAt(v, m).inst
    decreases n
  {
    hide Sane, Later, Genuine;
    if m < n {
      InstanceKept(v, m, n - 1);
      assert Linked(v.start, v.trace, n - 1) && !Disturbing(v.trace[n - 1]);
    }
  }

  /** An undisturbed request is served, by a server that stores the instance it stored before. */
  lemma QuietCall(w: World, req: Request)
    requires Good(w) && Quiet(w, Call(w, req).0)
    ensures var (v, r) := Call(w, req);
            && Good(v) && w.trace <= v.trace && Last(v.trace).pre.inst == w.s.inst
            && (v.s, r) == Serve(Last(v.trace).pre, req, Next(w).healthy)
  {
    hide Serve, Call, Sane, Later, Genuine;
    var (v, r) := Call(w, req);
    CallEvent(w, req);
    OthersFirst(w, req);
    CallVia(w, req, h => true);
    var m := |v.trace| - 1;
    assert !Disturbing(v.trace[m]);
    assert forall i | |w.trace| <= i < m :: v.trace[i] == Front(v.trace)[i];
    Midway(w, v);
    InstanceKept(v, |w.trace|, m);
    assert Linked(v.start, v.trace, m);
  }

  /** No deletion of a teardown fails: an absent object or an unregistered kind is not minded. */
  lemma QuietDelete(w: World, k: Key, site: Site)
    requires Good(w) && Quiet(w, DeleteTolerant(w, k, site).0)
    ensures var (v, e) := DeleteTolerant(w, k, site); e.None? && v.s.inst == w.s.inst && Good(v) && w.trace <= v.trace
  {
    hide Call, Quiet, Good;
    QuietCall(w, Delete(k, site));
  }

  lemma {:induction false} QuietDeleteAll(w: World, keys: seq<Key>, a: Agenda)
    requires Good(w) && Quiet(w, DeleteAll(w, keys).0)
    requires a.deleting && forall k | k in keys :: k in a.teardown
    ensures var (v, e) := DeleteAll(w, keys); e.None? && v.s.inst == w.s.inst && Good(v)
    decreases |keys|
  {
    hide Call, Quiet, Good, Deleting, Via;
    if keys != [] {
      var (v, e) := DeleteTolerant(w, keys[0], TeardownSite);
      CallGrows(w, Delete(keys[0], TeardownSite));
      CallEvent(w, Delete(keys[0], TeardownSite));
      DeleteAllReaches(v, keys[1..], a);
      QuietParts(w, v, if e.None? then DeleteAll(w, keys).0 else v);
      QuietDelete(w, keys[0], TeardownSite);
      QuietDeleteAll(v, keys[1..], a);
    }
  }

  lemma QuietDeletion(w: World, inst: Instance)
    requires Good(w) && Quiet(w, ReconcileDelete(w, inst).0) && w.s.inst == Some(inst) && inst.deleting
    ensures !Held(ReconcileDelete(w, inst).0.s)
  {
    hide Call, Quiet, DeleteAll, TeardownKeys, Good, Deleting, Via, KeyOf, Expected, ScheduleWanted, TaskOf, Wanted;
    var a := AgendaOf(inst);
    var (v, e) := DeleteAll(w, a.teardown);
    DeleteAllReaches(w, a.teardown, a);
    var put := PutInstance(inst.(finalizers := inst.finalizers - {OperatorFinalizer}));
    if e.None? {
      CallGrows(v, put);
      QuietParts(w, v, ReconcileDelete(w, inst).0);
    }
    QuietDeleteAll(w, a.teardown, a);
    QuietCall(v, put);
  }

  /** Whatever is in the store, and whatever others do to it meanwhile: an undisturbed reconcile of an
      instance being deleted takes the finalizer away. */
  lemma QuietPassReleases(s: State, p: Pass, order: Ordering)
    requires Sane(s) && Undisturbed(s, p, order) && BeingDeleted(s)
    ensures !Held(AfterPass(s, p, order))
  {
    hide Call, Quiet, ReconcileDelete, ReconcileNormal, Adopt, Good, PassBy, AgendaOf, Held;
    var w := Fresh(s, p);
    FreshGood(s, p);
    GetInstanceVia(w, true);
    ReconcileReaches(w, Subject(w), order);
    QuietParts(w, Call(w, GetInstance).0, PassWorld(s, p, order));
    QuietCall(w, GetInstance);
    QuietDeletion(Call(w, GetInstance).0, s.inst.value);
  }

  // ---- Verdicts ----

  /** The work queue will hand the request out again: after an error, or after the time asked for. */
  predicate Asks(v: Verdict) {
    v.err.Some? || v.requeue > 0
  }

  /** The server granted a write of the instance without the operator's finalizer. */
  predicate Grants(e: Event) {
    match e.actor
    case Operator(PutInstance(i), GotInstance(_)) => OperatorFinalizer !in i.finalizers
    case _ => false
  }

  /** The verdict on a deletion as its last request explains it. */
  predicate Concludes(e: Event, v: Verdict) {
    match e.actor
    case Operator(Delete(_, site), Fail(x)) => site == TeardownSite && v == Verdict(10, Some(x))
    case Operator(PutInstance(_), Fail(x)) => v == Verdict(0, Some(x))
    case Operator(PutInstance(_), GotInstance(_)) => Grants(e) && v == Verdict(0, None)
    case _ => false
  }

  predicate FailedDeletion(e: Event, x: Error) {
    match e.actor
    case Operator(Delete(_, site), reply) => site == TeardownSite && reply == Fail(x)
    case _ => false
  }

  lemma {:induction false} DeleteAllEnds(w: World, keys: seq<Key>)
    requires Good(w)
    ensures var (v, e) := DeleteAll(w, keys); Good(v) && (e.Some? ==> FailedDeletion(Last(v.trace), e.value))
    decreases |keys|
  {
    hide Call, Good;
    if keys != [] {
      DeleteEvent(w, keys[0], TeardownSite);
      CallEvent(w, Delete(keys[0], TeardownSite));
      DeleteAllEnds(Call(w, Delete(keys[0], TeardownSite)).0, keys[1..]);
    }
  }

  /** A write of the instance is granted or fails; and once it is granted without the finalizer, the
      instance does not hold it. */
  lemma PutEnds(w: World, i: Instance)
    requires Good(w)
    ensures var (v, r) := Call(w, PutInstance(i));
            && Last(v.trace).actor == Operator(PutInstance(i), r) && (r.GotInstance? || r.Fail?)
            && (Grants(Last(v.trace)) ==> !Held(v.s))
  {
    hide Call, Good;
    CallEvent(w, PutInstance(i));
  }

  /** How a deletion ends: with an error after a deletion or the last write that failed, else with the
      finalizer gone. */
  lemma DeletionConcludes(w: World, inst: Instance)
    requires Good(w)
    ensures var (v, verdict) := ReconcileDelete(w, inst);
            && Concludes(Last(v.trace), verdict) && (Grants(Last(v.trace)) ==> !Held(v.s))
  {
    hide Call, Good, DeleteAll, TeardownKeys, Held;
    DeleteAllEnds(w, TeardownKeys(inst.spec));
    var v := DeleteAll(w, TeardownKeys(inst.spec)).0;
    PutEnds(v, inst.(finalizers := inst.finalizers - {OperatorFinalizer}));
  }

  /** A normal reconcile always asks for the next, and releases nothing. */
  lemma NormalAsks(w: World, inst: Instance, order: Ordering)
    requires Good(w)
    ensures var (v, verdict) := ReconcileNormal(w, inst, order); Asks(verdict) && !Grants(Last(v.trace))
  {
    hide Call, Good, DeployFrom, CleanupOrphans, PhaseFor, ConditionsFor, Via, AgendaOf, Sweeping, Deploying;
    var (v, engines) := Deploy(w, inst);
    DeployReaches(0, w, inst);
    var u := CleanupOrphans(v, inst, order).0;
    OrphansReach(v, inst, order);
    var x := Call(u, GetInstance).0;
    GetInstanceVia(u, false);
    CallEvent(u, GetInstance);
    var put := PublishedStatus(u, engines);
    CallEvent(x, PutStatus(put));
  }

  /** What the status write of a reconcile sends. */
  function PublishedStatus(w: World, engines: seq<EngineStatus>): Instance {
    var r := Call(w, GetInstance).1;
    var phase := PhaseFor(engines);
    if r.GotInstance? then r.inst.(status := Status(phase, engines, ConditionsFor(phase))) else NOBODY
  }

  /** A reconcile that asks for no other found the instance absent, or had its write of the instance
      without the finalizer granted; and then the instance does not hold the finalizer. */
  lemma SilentIsDone(w: World, order: Ordering)
    requires Good(w)
    ensures var (v, verdict) := ReconcileOnce(w, order);
            && (!Asks(verdict) <==> Call(w, GetInstance).1 == Fail(NotFound) || Grants(Last(v.trace)))
            && (!Asks(verdict) ==> !Held(v.s))
            && (WorksOn(w, Subject(w)) && Subject(w).deleting ==> Concludes(Last(v.trace), verdict))
  {
    hide Call, Good, ReconcileNormal, ReconcileDelete, Via;
    var (v, r) := Call(w, GetInstance);
    CallEvent(w, GetInstance);
    GetInstanceVia(w, false);
    if r.GotInstance? {
      var inst := r.inst;
      if inst.deleting {
        DeletionConcludes(v, inst);
      } else if OperatorFinalizer in inst.finalizers {
        NormalAsks(v, inst, order);
      } else {
        var held := inst.(finalizers := inst.finalizers + {OperatorFinalizer});
        var (u, p) := Call(v, PutInstance(held));
        CallEvent(v, PutInstance(held));
        PutEnds(v, held);
        if p.GotInstance? {
          NormalAsks(u, p.inst, order);
        }
      }
    }
  }

  // ---- Runs ----

  /** The n-th reconcile of the run asks for the next. */
  predicate AsksAt(s: State, passes: Series, order: Ordering, n: nat) {
    var at := After(s, passes, order, n);
    Asks(ReconcileOnce(World(at, at, passes(n).script, []), order).1)
  }

  /** The instance of that identity, as long as it is there, is being deleted; and no other will ever
      have that identity. */
  ghost predicate Doomed(s: State, uid: nat) {
    uid <= s.clock && (s.inst.Some? && s.inst.value.uid == uid ==> s.inst.value.deleting)
  }

  ghost function Dooming(uid: nat): Rely {
    (s: State, t: State) => Doomed(s, uid) ==> Doomed(t, uid)
  }

  ghost function IsDoomed(uid: nat): Invariant {
    (s: State) => Doomed(s, uid)
  }

  lemma RequestsKeepDoom(uid: nat)
    ensures KeptByRequests(IsDoomed(uid)) && StableUnderOthers(IsDoomed(uid), Dooming(uid))
  {
    hide PassRequest, Sane, Sound;
    forall h: History, a: Agenda | PassRequest(h, a) && Doomed(Last(h).pre, uid) && Later(Last(h).pre, Last(h).post)
      ensures Doomed(Last(h).post, uid)
    {
      RequestKeepsIntent(h, a);
    }
  }

  lemma ActionsKeepDoom(e: Event, uid: nat)
    requires e.actor.Other? && Genuine(e) && Later(e.pre, e.post)
    ensures Dooming(uid)(e.pre, e.post)
  {
  }

  /** Whatever others do, they cannot undo a deletion. */
  lemma {:induction false} AnyoneKeepsDoom(s: State, passes: Series, order: Ordering, uid: nat)
    requires Sane(s)
    ensures RunHeeds(s, passes, order, Dooming(uid))
  {
    hide Sane, Later, Act, Dooming, After, PassWorld, PassRequest, Sound, AgendaOf, Genuine;
    forall n: nat
      ensures HeedsAt(s, passes, order, Dooming(uid), n)
    {
      var (at, p) := (After(s, passes, order, n), passes(n));
      SaneRun(s, passes, order, n);
      PassReaches(at, p, order);
      var t := PassWorld(at, p, order).trace;
      forall i: nat | i < |t| && t[i].actor.Other?
        ensures Dooming(uid)(t[i].pre, t[i].post)
      {
        assert Linked(at, t, i);
        ActionsKeepDoom(t[i], uid);
      }
    }
  }

  /** The instance is gone or released after `m` reconciles, and each of these asked for the next. */
  ghost predicate ReleasedBy(s: State, passes: Series, order: Ordering, m: nat, uid: nat) {
    && !Guarded(After(s, passes, order, m), uid)
    && forall j: nat | j + 1 < m :: AsksAt(s, passes, order, j)
  }

  /** Some moment between the first `n` reconciles finds the instance gone or released, and every
      reconcile up to there was asked for by the one before. */
  ghost predicate Released(s: State, passes: Series, order: Ordering, n: nat, uid: nat) {
    exists m: nat :: m <= n && ReleasedBy(s, passes, order, m, uid)
  }

  lemma {:induction false} FirstRelease(s: State, passes: Series, order: Ordering, n: nat, uid: nat)
    requires Sane(s) && !Guarded(After(s, passes, order, n), uid)
    ensures Released(s, passes, order, n, uid)
    decreases n
  {
    hide Sane, ReconcileOnce, Subject, Grants, Asks;
    if m: nat :| m < n && !Guarded(After(s, passes, order, m), uid) {
      FirstRelease(s, passes, order, m, uid);
    } else {
      forall j: nat | j + 1 < n
        ensures AsksAt(s, passes, order, j)
      {
        var at := After(s, passes, order, j);
        SaneRun(s, passes, order, j);
        FreshGood(at, passes(j));
        SilentIsDone(Fresh(at, passes(j)), order);
        assert Guarded(After(s, passes, order, j + 1), uid);
      }
      assert ReleasedBy(s, passes, order, n, uid);
    }
  }

  /** Whatever others do: as soon as not every reconcile has met a disturbance, an instance being deleted
      has lost its finalizer, or is gone; and each reconcile on the way there was asked for by the verdict
      of the one before. */
  lemma {:induction false} TeardownTerminates(s: State, passes: Series, order: Ordering, n: nat, inst: Instance)
    requires Sane(s) && s.inst == Some(inst) && inst.deleting && DisturbedReconciles(s, passes, order, n) < n
    ensures Released(s, passes, order, n, inst.uid)
  {
    hide Sane, DisturbedReconciles, Undisturbed, AfterPass, KeptByRequests, StableUnderOthers, RunHeeds, Guarded,
         ReleasedBy;
    var m := SomeUndisturbed(s, passes, order, n);
    assert Doomed(s, inst.uid) by { SaneInstance(s, inst); }
    AnyoneKeepsDoom(s, passes, order, inst.uid);
    RequestsKeepDoom(inst.uid);
    RunKeeps(s, passes, order, Dooming(inst.uid), IsDoomed(inst.uid), m);
    var before := After(s, passes, order, m);
    assert IsDoomed(inst.uid)(before);
    if Guarded(before, inst.uid) {
      SaneRun(s, passes, order, m);
      GuardedIsDeleted(before, inst.uid);
      QuietPassReleases(before, passes(m), order);
      GuardedIsDeleted(After(s, passes, order, m + 1), inst.uid);
      FirstRelease(s, passes, order, m + 1, inst.uid);
    } else {
      FirstRelease(s, passes, order, m, inst.uid);
    }
  }

  lemma GuardedIsDeleted(s: State, uid: nat)
    ensures Guarded(s, uid) && Doomed(s, uid) ==> BeingDeleted(s)
    ensures !Held(s) ==> !Guarded(s, uid)
  {
  }

  lemma SaneInstance(s: State, inst: Instance)
    requires Sane(s) && s.inst == Some(inst)
    ensures inst.uid <= s.clock
  {
  }
}
