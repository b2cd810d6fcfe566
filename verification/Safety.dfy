/** Safety of single reconciles and of whole runs under every interleaving with other writers:
    optimistic concurrency, immutable fields, foreign objects, what a sweep takes. */
module Safety {
  import opened Wrappers
  import opened Objects
  import opened Api
  import opened Components
  import opened Strategies
  import opened Drift
  import opened Traces
  import opened Reconcile
  import opened Effects
  import opened Passes
  import opened Plans
  import opened PassTraces
  import opened Agreement

  // ---- Optimistic concurrency ----

  /** An update of the operator that went through. */
  predicate Updates(e: Event, k: Key, o: Object) {
    match e.actor
    case Operator(req, _) => req == Update(k, o) && e.pre != e.post
    case _ => false
  }

  /** The event replaces `x` and touches no other object, and the immutable fields stay. */
  ghost predicate ReplacesOnly(e: Event, k: Key, x: Object) {
    && Holds(e.pre, k, x) && e.post.objs.Keys == e.pre.objs.Keys
    && (forall j | j in e.pre.objs && j != k :: e.post.objs[j] == e.pre.objs[j])
    && e.post.objs[k].fixed == x.fixed
  }

  lemma UpdateRequest(h: History, a: Agenda, k: Key, o: Object)
    requires PassRequest(h, a) && Updates(Last(h), k, o)
    ensures exists x :: JustRead(h, k, x) && ReplacesOnly(Last(h), k, x)
  {
    hide JustRead, Replacement, Merged, DriftFields, ListedIn, Scanned, Proper;
    var t :| t in a.tasks && Justified(h, t);
    var x :| Replaced(h, Last(h), t, o, x);
    assert JustRead(h, k, x) && ReplacesOnly(Last(h), k, x);
  }

  /** Every update that goes through replaces exactly the object the operator's request just before
      read, whatever others wrote in between. */
  lemma UpdatesReplaceWhatWasRead(s: State, p: Pass, order: Ordering, n: nat, k: Key, o: Object)
    requires Sane(s) && Updates(Nth(PassWorld(s, p, order).trace, n), k, o)
    ensures var t := PassWorld(s, p, order).trace;
            exists x :: JustRead(Upto(t, n), k, x) && ReplacesOnly(Nth(t, n), k, x)
  {
    hide PassWorld, PassRequest, PassAgenda, JustRead, ReplacesOnly, Linked, Sound;
    PassReaches(s, p, order);
    UpdateRequest(Upto(PassWorld(s, p, order).trace, n), PassAgenda(s, p), k, o);
  }

  // ---- Creations, and deletions of classes ----

  /** The operator asks for a creation, granted or not. */
  predicate AsksCreation(e: Event, k: Key) {
    match e.actor
    case Operator(Create(j, _), _) => j == k
    case _ => false
  }

  lemma CreateRequest(h: History, a: Agenda, k: Key)
    requires PassRequest(h, a) && AsksCreation(Last(h), k)
    ensures JustGone(h, k)
  {
    hide JustGone, JustRead, ListedIn, Scanned, Proper, Made, Replaced, Removed;
  }

  /** The operator creates only what its request just before found absent, or has just deleted to make it
      again: a read that fails in any other way is no reason. */
  lemma CreatesFollowAbsence(s: State, p: Pass, order: Ordering, n: nat, k: Key)
    requires Sane(s) && AsksCreation(Nth(PassWorld(s, p, order).trace, n), k)
    ensures JustGone(Upto(PassWorld(s, p, order).trace, n), k)
  {
    hide PassWorld, PassRequest, PassAgenda, Sound, Linked, JustGone;
    PassReaches(s, p, order);
    CreateRequest(Upto(PassWorld(s, p, order).trace, n), PassAgenda(s, p), k);
  }

  lemma ClassRequest(h: History, a: Agenda, k: Key)
    requires PassRequest(h, a) && Sound(a) && DeletesAt(Last(h), k, RecreateSite) && k.kind == StorageClass
    ensures UpdateRefused(BeforeRequest(Front(h)), k)
  {
    hide JustGone, JustRead, ListedIn, Scanned, Proper, Made, Replaced, UpdateRefused, Without, BeforeRequest;
  }

  /** A storage class is deleted to be made again only after its update was refused for immutable fields:
      the request before the read before the deletion. */
  lemma ClassesFallOnRefusal(s: State, p: Pass, order: Ordering, n: nat, k: Key)
    requires Sane(s) && DeletesAt(Nth(PassWorld(s, p, order).trace, n), k, RecreateSite) && k.kind == StorageClass
    ensures UpdateRefused(BeforeRequest(Front(Upto(PassWorld(s, p, order).trace, n))), k)
  {
    hide PassWorld, PassRequest, PassAgenda, Sound, Linked, UpdateRefused, BeforeRequest;
    PassReaches(s, p, order);
    ClassRequest(Upto(PassWorld(s, p, order).trace, n), PassAgenda(s, p), k);
  }

  // ---- Immutable fields ----

  /** The operator's update was refused for an immutable field. */
  predicate RefusedUpdate(e: Event, k: Key) {
    match e.actor
    case Operator(Update(key, _), reply) => key == k && reply == Fail(Invalid)
    case _ => false
  }

  lemma SetRequest(h: History, a: Agenda)
    requires PassRequest(h, a) && Sound(a)
    ensures !RefusedUpdate(Last(h), ETCD_KEY)
  {
    hide ListedIn, Scanned, Proper, Made, Replaced, Removed;
  }

  /** The drift check and the templates taken over leave the server nothing to refuse: no update of
      the etcd StatefulSet is ever answered "immutable field changed". */
  lemma SetUpdatesAreNeverInvalid(s: State, p: Pass, order: Ordering, n: nat)
    requires Sane(s)
    ensures !RefusedUpdate(Nth(PassWorld(s, p, order).trace, n), ETCD_KEY)
  {
    hide PassWorld, PassAgenda, PassRequest, Sound, Linked;
    var t := PassWorld(s, p, order).trace;
    PassReaches(s, p, order);
    if n < |t| && t[n].actor.Operator? {
      SetRequest(Upto(t, n), PassAgenda(s, p));
    }
  }

  // ---- What was read and listed ----

  lemma {:induction false} LastRequestIn(h: History)
    ensures LastRequest(h).Some? ==> LastRequest(h).value in h
    decreases |h|
  {
    if h != [] && !Last(h).actor.Operator? {
      LastRequestIn(Front(h));
    }
  }

  /** Some event before the n-th found the object stored. */
  ghost predicate StoredBefore(t: History, n: nat, k: Key, x: Object) {
    exists j :: 0 <= j < n && Holds(Nth(t, j).pre, k, x)
  }

  /** What was read was stored then. */
  lemma ReadIs(t: History, n: nat, k: Key, y: Object)
    requires JustRead(Upto(t, n), k, y) && n < |t| && forall i: nat | i < n :: Genuine(Nth(t, i))
    ensures StoredBefore(t, n, k, y)
  {
    assert Front(Upto(t, n)) == t[..n];
    LastRequestIn(t[..n]);
    var j :| 0 <= j < n && t[..n][j] == LastRequest(t[..n]).value;
    assert Genuine(Nth(t, j));
  }

  /** Some event before the n-th listed the object, with the operator's label. */
  ghost predicate ListedBefore(t: History, n: nat, k: Key) {
    exists j, x :: 0 <= j < n && ListsKey(Nth(t, j), k) && Holds(Nth(t, j).pre, k, x) && Labelled(x)
  }

  /** What was listed was stored, with the label, then. */
  lemma ListedIs(t: History, n: nat, k: Key)
    requires ListedIn(Front(Upto(t, n)), k) && n < |t| && forall i: nat | i < n :: Genuine(Nth(t, i))
    ensures ListedBefore(t, n, k)
  {
    assert Front(Upto(t, n)) == t[..n];
    var e :| e in t[..n] && ListsKey(e, k);
    var j :| 0 <= j < n && t[..n][j] == e;
    assert Genuine(Nth(t, j)) && ListsKey(Nth(t, j), k);
    var x := Nth(t, j).pre.objs[k];
    assert Holds(Nth(t, j).pre, k, x) && Managed(x.labels) && Labelled(x);
  }

  lemma TraceGenuine(t: History, s: State, a: Agenda, n: nat)
    requires PassTrace(t, s, a) && n <= |t|
    ensures forall i: nat | i < n :: Genuine(Nth(t, i))
  {
    hide Sane, Later, Genuine, PassRequest;
    forall i: nat | i < n
      ensures Genuine(Nth(t, i))
    {
      assert Linked(s, t, i);
    }
  }

  // ---- Orphans ----

  lemma OrphanRequest(h: History, a: Agenda, k: Key)
    requires PassRequest(h, a) && DeletesAt(Last(h), k, OrphanSite)
    ensures Scanned(k) && k.name !in a.expected && ListedIn(Front(h), k)
  {
    hide Scanned, ListedIn, Proper, Made, Replaced, Without, JustRead;
  }

  /** What an orphan sweep deletes was listed earlier in the same reconcile, so it carried the
      operator's label then, under a name the spec does not account for. */
  lemma OrphansWereLabelled(s: State, p: Pass, order: Ordering, n: nat, k: Key)
    requires Sane(s) && DeletesAt(Nth(PassWorld(s, p, order).trace, n), k, OrphanSite)
    ensures Scanned(k) && k.name !in Expected(Subject(Fresh(s, p)).spec)
    ensures ListedBefore(PassWorld(s, p, order).trace, n, k)
  {
    hide PassWorld, Subject, Scanned, Expected, Linked, ListedIn, TaskOf, Wanted, KeyOf, ScheduleWanted, TeardownKeys,
         ListedBefore, PassRequest, Sound, Genuine;
    var t := PassWorld(s, p, order).trace;
    PassReaches(s, p, order);
    OrphanRequest(Upto(t, n), PassAgenda(s, p), k);
    TraceGenuine(t, s, PassAgenda(s, p), n);
    ListedIs(t, n, k);
  }

  // ---- Nothing deployed is swept ----

  /** The operator creates or updates the object, and it goes through. */
  predicate Puts(e: Event, k: Key) {
    match e.actor
    case Operator(Create(key, _), _) => key == k && e.pre != e.post
    case Operator(Update(key, _), _) => key == k && e.pre != e.post
    case _ => false
  }

  /** The operator deletes an object as an orphan or as unwanted, and it goes through. */
  predicate SweepsAt(e: Event, k: Key) {
    DeletesAt(e, k, OrphanSite) || DeletesAt(e, k, UnwantedSite)
  }

  /** A write is of a task, and a sweep takes what is not one. */
  lemma RequestAgrees(h: History, a: Agenda, k: Key)
    requires PassRequest(h, a) && Sound(a) && Agrees(a)
    ensures Puts(Last(h), k) ==> !SweptKey(k, a)
    ensures SweepsAt(Last(h), k) ==> SweptKey(k, a) && Last(h).post == Without(Last(h).pre, k)
    ensures DeletesAt(Last(h), k, UnwantedSite) ==> k == a.schedule && !a.scheduleWanted
  {
    hide Scanned, ListedIn, Without, JustRead, Replacement, DriftFields, Admitted, Merged, Proper, SetOf, IpOf;
  }

  lemma SweptStaysApart(k: Key, swept: Key, a: Agenda)
    requires SweptKey(swept, a) && Sound(a) && k != swept
    ensures !GoesWith(k, swept)
  {
    hide SoundTask;
  }

  /** Whatever the spec, whoever interferes and however many engines fail: the sweep of a reconcile
      removes no object that a write of the same reconcile addressed. */
  lemma DeployedIsNeverSwept(s: State, p: Pass, order: Ordering, m: nat, n: nat, k: Key, swept: Key)
    requires Sane(s)
    requires Puts(Nth(PassWorld(s, p, order).trace, m), k) && SweepsAt(Nth(PassWorld(s, p, order).trace, n), swept)
    ensures Spares(Nth(PassWorld(s, p, order).trace, n), k)
  {
    hide PassWorld, PassRequest, AgendaOf, Sane, Linked, SweptKey, Sound, Agrees, Subject;
    var (t, a) := (PassWorld(s, p, order).trace, PassAgenda(s, p));
    PassReaches(s, p, order);
    AgendaAgrees(Subject(Fresh(s, p)));
    RequestAgrees(Upto(t, m), a, k);
    RequestAgrees(Upto(t, n), a, swept);
    SweptStaysApart(k, swept, a);
  }

  // ---- What a sweep leaves alone ----

  /** Whatever others do meanwhile, a sweep changes nothing but the schedule of the spec, if that is not
      wanted, and what it has listed with the operator's label under a name the spec does not account
      for. */
  lemma SweepSparesTheRest(s: State, p: Pass, order: Ordering, n: nat, swept: Key, k: Key)
    requires Sane(s) && SweepsAt(Nth(PassWorld(s, p, order).trace, n), swept)
    requires !Spares(Nth(PassWorld(s, p, order).trace, n), k)
    ensures var spec := Subject(Fresh(s, p)).spec;
            || (k == KeyOf(EtcdSchedule, spec) && !ScheduleWanted(spec))
            || (Scanned(k) && k.name !in Expected(spec) && ListedBefore(PassWorld(s, p, order).trace, n, k))
  {
    hide PassWorld, PassRequest, Subject, Sane, Linked, SweptKey, Sound, Agrees, KeyOf, ScheduleWanted, Scanned,
         Expected, ListedBefore, TaskOf, Wanted, TeardownKeys;
    var a := PassAgenda(s, p);
    PassReaches(s, p, order);
    AgendaAgrees(Subject(Fresh(s, p)));
    RequestAgrees(Upto(PassWorld(s, p, order).trace, n), a, swept);
    if k != swept {
      SweptStaysApart(k, swept, a);
    }
    if DeletesAt(Nth(PassWorld(s, p, order).trace, n), k, OrphanSite) {
      OrphansWereLabelled(s, p, order, n, k);
    }
  }

  // ---- Foreign objects ----

  /** The stored object is neither controlled by the instance nor labelled, and differs in what no update
      can change. */
  ghost predicate Foreign(s: State, t: Task) {
    exists x :: Holds(s, t.key, x) && !Controls(x.owners, t.uid) && !Labelled(x) && Differs(t, x)
  }

  /** So the operator does not own it, and cannot make it the desired one by an update. */
  lemma ForeignMeans(s: State, t: Task)
    requires Foreign(s, t) && (t.way == AsService ==> t.desired.fixed == Ip(NoAddress))
    ensures forall x | Holds(s, t.key, x) :: !Owned(x, t.uid) && Mismatched(t, x)
  {
    hide Owned, DriftFields, Controls, Labelled, SetsDiffer;
    forall x | Holds(s, t.key, x)
      ensures !Owned(x, t.uid) && Mismatched(t, x)
    {
      OwnedMeans(x, t.uid);
      DriftFieldsAre(SetOf(x), SetOf(t.desired));
    }
  }

  /** Others may change the object as they like, as long as they do not make a foreign one of one that
      is not. */
  ghost function NoneForeign(t: Task): Rely {
    (s: State, u: State) => Foreign(u, t) ==> Foreign(s, t)
  }

  /** The set or the service, as the instance of the agenda wants it. */
  ghost predicate Guardable(t: Task, a: Agenda) {
    && (t.way == AsSet || t.way == AsService) && SoundTask(t, a)
    && (t.way == AsService ==> t.desired.fixed == Ip(NoAddress))
    && forall u | u in a.tasks && u.key == t.key :: u == t
  }

  /** The operator makes no foreign object either. */
  lemma RequestMakesNoneForeign(h: History, t: Task, a: Agenda)
    requires PassRequest(h, a) && Sound(a) && Guardable(t, a) && Foreign(Last(h).post, t)
    ensures Foreign(Last(h).pre, t)
  {
    hide Differs, DriftFields, JustRead, ListedIn, Scanned, Proper, Removed, Made, Replaced, Labelled, Controls;
    var e := Last(h);
    var x :| Holds(e.post, t.key, x) && !Controls(x.owners, t.uid) && !Labelled(x) && Differs(t, x);
    if !Holds(e.pre, t.key, x) {
      var u :| u in a.tasks && Justified(h, u);
      TaskMakesOwned(h, u, a, t.key, x);
    }
  }

  /** What a deployment stores, but for the namespaces, is owned. */
  lemma TaskMakesOwned(h: History, t: Task, a: Agenda, k: Key, x: Object)
    requires Justified(h, t) && SoundTask(t, a) && k.kind != Namespace
    requires Holds(Last(h).post, k, x) && !Holds(Last(h).pre, k, x)
    ensures k == t.key && x.owners == [OwnerRef(a.uid, true)] && Controls(x.owners, a.uid)
    ensures forall j | j in Last(h).post.objs && j != k :: Holds(Last(h).pre, j, Last(h).post.objs[j])
  {
    hide DriftFields, JustRead, Proper, MayReplace, SetOf;
    assert x.owners[0] == OwnerRef(a.uid, true);
  }

  /** The object is foreign when the n-th event of the reconcile comes. */
  ghost predicate ForeignAt(h: History, t: Task, n: nat) {
    n < |h| && Foreign(Nth(h, n).pre, t)
  }

  /** An object that is not foreign at some moment of a reconcile is not at any later one. */
  lemma {:induction false} NeverTurnsForeign(h: History, s: State, a: Agenda, t: Task, j: nat, n: nat)
    requires PassTrace(h, s, a) && Sound(a) && Guardable(t, a) && j <= n && ForeignAt(h, t, n)
    requires forall i: nat | i < |h| && h[i].actor.Other? :: NoneForeign(t)(h[i].pre, h[i].post)
    ensures ForeignAt(h, t, j)
    decreases n
  {
    hide PassRequest, Sound, Guardable, Sane, Later, Genuine, Foreign;
    if j < n {
      assert Linked(s, h, n - 1) && Linked(s, h, n) && Last(Upto(h, n - 1)) == h[n - 1];
      if h[n - 1].actor.Operator? {
        RequestMakesNoneForeign(Upto(h, n - 1), t, a);
      } else {
        assert NoneForeign(t)(h[n - 1].pre, h[n - 1].post);
      }
      NeverTurnsForeign(h, s, a, t, j, n - 1);
    }
  }

  /** What a deployment deletes it just read, and it was owned then. */
  lemma TaskSparesForeign(h: History, u: Task, t: Task, a: Agenda)
    requires Justified(h, u) && SoundTask(u, a) && SoundTask(t, a) && (u.key == t.key ==> u == t)
    requires (t.way == AsSet || (t.way == AsService && t.desired.fixed == Ip(NoAddress))) && Foreign(Last(h).pre, t)
    requires forall y | JustRead(h, t.key, y) :: !Owned(y, t.uid)
    ensures Spares(Last(h), t.key)
  {
    hide DriftFields, JustRead, Owned, Proper, Without, SetOf, IpOf, Foreign;
    var e := Last(h);
    ForeignMeans(e.pre, t);
    if e.pre != e.post && e.actor.req.Delete? && u.key != t.key {
      WithoutSpares(e, u.key, t.key);
    }
  }

  /** And what a sweep deletes was labelled. */
  lemma DeletesNoForeign(h: History, t: Task, a: Agenda)
    requires PassRequest(h, a) && Sound(a) && Guardable(t, a) && !a.deleting && Foreign(Last(h).pre, t)
    requires forall y | JustRead(h, t.key, y) :: !Owned(y, t.uid)
    requires !ListedIn(Front(h), t.key)
    ensures Spares(Last(h), t.key)
  {
    hide Justified, Foreign, JustRead, ListedIn, Owned, Proper, Without, Mismatched;
    var e := Last(h);
    if Deploys(h, a) {
      var u :| u in a.tasks && Justified(h, u);
      TaskSparesForeign(h, u, t, a);
    } else if e.pre != e.post && e.actor.req.Delete? && e.actor.req.key != t.key {
      WithoutSpares(e, e.actor.req.key, t.key);
    }
  }

  /** In a normal reconcile no request of the operator changes a StatefulSet or Service while it is
      foreign: neither controlled by the instance nor labelled, and not to be reconciled by an update. */
  lemma ForeignUntouched(s: State, p: Pass, order: Ordering, c: Component, n: nat)
    requires Sane(s) && (c == EtcdSts || c == EtcdSvc) && !Subject(Fresh(s, p)).deleting
    requires PassHeeds(s, p, order, NoneForeign(TaskOf(c, Subject(Fresh(s, p)))))
    requires ForeignAt(PassWorld(s, p, order).trace, TaskOf(c, Subject(Fresh(s, p))), n)
    ensures var e := Nth(PassWorld(s, p, order).trace, n);
            e.actor.Operator? ==> Spares(e, KeyOf(c, Subject(Fresh(s, p)).spec))
  {
    hide PassWorld, Subject, AgendaOf, Sane, Later, Genuine, KeyOf, Desired, WayOf, JustRead, Owned, PassRequest,
         Foreign, Managed, ListedIn, StoredBefore, ListedBefore, Sound, Guardable;
    var (h, inst) := (PassWorld(s, p, order).trace, Subject(Fresh(s, p)));
    var (a, t) := (PassAgenda(s, p), TaskOf(c, inst));
    PassReaches(s, p, order);
    AgendaSound(inst);
    EtcdGuardable(c, inst);
    if h[n].actor.Operator? {
      assert Last(Upto(h, n)) == h[n] && PassRequest(Upto(h, n), a);
      TraceGenuine(h, s, a, n);
      forall j: nat | j < n
        ensures ForeignAt(h, t, j)
      {
        NeverTurnsForeign(h, s, a, t, j, n);
      }
      NoneOwnedBefore(h, t, n);
      DeletesNoForeign(Upto(h, n), t, a);
    }
  }

  lemma EtcdGuardable(c: Component, inst: Instance)
    requires c == EtcdSts || c == EtcdSvc
    ensures Guardable(TaskOf(c, inst), AgendaOf(inst)) && TaskOf(c, inst).key == KeyOf(c, inst.spec)
    ensures TaskOf(c, inst).way == AsService ==> TaskOf(c, inst).desired.fixed == Ip(NoAddress)
  {
    hide KeyOf, FixedOf, LabelsOf, ReadsSpec, Wanted, Expected, ScheduleWanted, TeardownKeys, SoundTask, IsClass,
         EtcdSet;
    TaskSound(c, inst);
    EtcdFields(inst.spec);
    forall u | u in AgendaOf(inst).tasks && u.key == TaskOf(c, inst).key
      ensures u == TaskOf(c, inst)
    {
      var d :| Wanted(d, inst.spec) && u == TaskOf(d, inst);
      KindTells(c, inst.spec);
      KindTells(d, inst.spec);
    }
  }

  /** While the object is foreign, nothing read or listed under its key so far was owned. */
  lemma NoneOwnedBefore(h: History, t: Task, n: nat)
    requires n < |h| && forall j: nat | j < n :: Genuine(Nth(h, j)) && ForeignAt(h, t, j)
    requires t.way == AsService ==> t.desired.fixed == Ip(NoAddress)
    ensures forall y | JustRead(Upto(h, n), t.key, y) :: !Owned(y, t.uid)
    ensures !ListedIn(Front(Upto(h, n)), t.key)
  {
    hide Mismatched, JustRead, Owned, Act, Differs, Controls;
    forall y | JustRead(Upto(h, n), t.key, y)
      ensures !Owned(y, t.uid)
    {
      ReadIs(h, n, t.key, y);
      var j :| 0 <= j < n && Holds(Nth(h, j).pre, t.key, y);
      assert ForeignAt(h, t, j);
      ForeignMeans(Nth(h, j).pre, t);
    }
    forall e | e in Front(Upto(h, n))
      ensures !ListsKey(e, t.key)
    {
      var j: nat :| j < n && h[j] == e;
      assert Genuine(Nth(h, j)) && ForeignAt(h, t, j);
    }
  }
}
