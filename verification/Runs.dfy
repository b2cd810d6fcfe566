/** Claims about whole runs: any number of reconciles, each interleaved with other writers, failing
    requests and operator crashes. */
module Runs {
  import opened Wrappers
  import opened Objects
  import opened Api
  import opened Components
  import opened Strategies
  import opened Traces
  import opened Reconcile
  import opened Effects
  import opened Passes
  import opened Plans
  import opened PassTraces

  // ---- Invariants of runs ----

  type Invariant = State -> bool

  ghost predicate StableUnderOthers(inv: Invariant, rely: Rely) {
    forall s, t | Sane(s) && Later(s, t) && inv(s) && rely(s, t) :: inv(t)
  }

  ghost predicate KeptByRequests(inv: Invariant) {
    forall h: History, a: Agenda | PassRequest(h, a) && Sound(a) && Sane(Last(h).pre) && inv(Last(h).pre)
                                   && Later(Last(h).pre, Last(h).post) ::
      inv(Last(h).post)
  }

  /** Everything others do during the n-th reconcile is as relied on. */
  ghost predicate HeedsAt(s: State, passes: Series, order: Ordering, rely: Rely, n: nat) {
    PassHeeds(After(s, passes, order, n), passes(n), order, rely)
  }

  /** And during any reconcile of the run. */
  ghost predicate RunHeeds(s: State, passes: Series, order: Ordering, rely: Rely) {
    forall n: nat :: HeedsAt(s, passes, order, rely, n)
  }

  lemma PassKeeps(s: State, p: Pass, order: Ordering, rely: Rely, inv: Invariant)
    requires Sane(s) && inv(s) && PassHeeds(s, p, order, rely)
    requires StableUnderOthers(inv, rely) && KeptByRequests(inv)
    ensures forall n: nat :: inv(StateAt(PassWorld(s, p, order), n))
    ensures inv(AfterPass(s, p, order))
  {
    hide PassRequest, PassAgenda, ReconcileOnce, PassTrace, Sound, Sane, Later, Heeded;
    var w := PassWorld(s, p, order);
    PassReaches(s, p, order);
    PassMoments(s, p, order);
    Throughout(Fresh(s, p), w, rely, PassBy(PassAgenda(s, p)), inv);
  }

  lemma {:induction false} SaneRun(s: State, passes: Series, order: Ordering, n: nat)
    requires Sane(s)
    ensures Sane(After(s, passes, order, n))
  {
    hide AfterPass, PassWorld, Sane;
    if n > 0 {
      SaneRun(s, passes, order, n - 1);
      PassMoments(After(s, passes, order, n - 1), passes(n - 1), order);
    }
  }

  /** What neither the others nor any single request breaks holds between all reconciles of a run,
      crashes included. */
  lemma {:induction false} RunKeeps(s: State, passes: Series, order: Ordering, rely: Rely, inv: Invariant, n: nat)
    requires Sane(s) && inv(s) && RunHeeds(s, passes, order, rely)
    requires StableUnderOthers(inv, rely) && KeptByRequests(inv)
    ensures inv(After(s, passes, order, n))
  {
    hide AfterPass, PassWorld, PassHeeds, Sane, StableUnderOthers, KeptByRequests;
    if n > 0 {
      RunKeeps(s, passes, order, rely, inv, n - 1);
      SaneRun(s, passes, order, n - 1);
      assert HeedsAt(s, passes, order, rely, n - 1);
      PassKeeps(After(s, passes, order, n - 1), passes(n - 1), order, rely, inv);
    }
  }

  /** And at every moment within every reconcile. */
  lemma {:induction false} RunKeepsAlways(s: State, passes: Series, order: Ordering, rely: Rely, inv: Invariant,
                                          n: nat, i: nat)
    requires Sane(s) && inv(s) && RunHeeds(s, passes, order, rely)
    requires StableUnderOthers(inv, rely) && KeptByRequests(inv)
    ensures inv(StateAt(RunWorld(s, passes, order, n), i))
  {
    hide PassWorld, PassHeeds, Sane, After, StableUnderOthers, KeptByRequests;
    RunKeeps(s, passes, order, rely, inv, n);
    SaneRun(s, passes, order, n);
    assert HeedsAt(s, passes, order, rely, n);
    PassKeeps(After(s, passes, order, n), passes(n), order, rely, inv);
  }

  // ---- Ownership ----

  /** The identities of the instances stored so far: those before, and that of each instance some
      event of the history left stored. */
  ghost function Identities(t: History, before: iset<nat>): iset<nat> {
    iset uid | uid in before || exists e :: e in t && e.post.inst.Some? && e.post.inst.value.uid == uid
  }

  ghost predicate OwnedByOne(o: Object, ids: iset<nat>) {
    exists uid :: uid in ids && o.owners == [OwnerRef(uid, true)]
  }

  /** Every object but the namespaces and those `outside` carries exactly the controller reference of
      one of the instances; and no identity of an instance is ever that of something else. */
  ghost predicate AllOwned(s: State, outside: iset<Key>, ids: iset<nat>) {
    && (forall k | k in s.objs && k.kind != Namespace && k !in outside :: OwnedByOne(s.objs[k], ids))
    && (s.inst.Some? ==> s.inst.value.uid in ids)
    && (forall uid | uid in ids :: uid <= s.clock && uid !in s.others)
  }

  /** Others add objects and rewrite owners only under the keys `outside`. */
  ghost function KeepOwners(outside: iset<Key>): Rely {
    (s: State, t: State) =>
      forall k | k in t.objs && k.kind != Namespace && k !in outside ::
        k in s.objs && t.objs[k].owners == s.objs[k].owners
  }

  /** The operator creates or updates something other than a namespace, and it goes through. */
  predicate WritesAt(e: Event, k: Key) {
    match e.actor
    case Operator(Create(key, _), _) => key == k && k.kind != Namespace && e.pre != e.post
    case Operator(Update(key, _), _) => key == k && k.kind != Namespace && e.pre != e.post
    case _ => false
  }

  ghost predicate StoredWith(s: State, k: Key, owners: seq<OwnerRef>) {
    k in s.objs && s.objs[k].owners == owners
  }

  /** A request of the operator stores owned objects under the keys it writes, and otherwise adds and
      changes nothing but namespaces. */
  lemma RequestOwned(h: History, a: Agenda, k: Key)
    requires PassRequest(h, a) && Sound(a) && k.kind != Namespace
    ensures WritesAt(Last(h), k) ==> StoredWith(Last(h).post, k, [OwnerRef(a.uid, true)])
    ensures !WritesAt(Last(h), k) && k in Last(h).post.objs ==> Holds(Last(h).pre, k, Last(h).post.objs[k])
  {
    hide Justified, Scanned, ListedIn, SoundTask;
    if Deploys(h, a) {
      var t :| t in a.tasks && Justified(h, t);
      TaskOwned(h, t, a, k);
    }
  }

  lemma TaskOwned(h: History, t: Task, a: Agenda, k: Key)
    requires Justified(h, t) && SoundTask(t, a) && k.kind != Namespace
    ensures WritesAt(Last(h), k) ==> StoredWith(Last(h).post, k, [OwnerRef(a.uid, true)])
    ensures !WritesAt(Last(h), k) && k in Last(h).post.objs ==> Holds(Last(h).pre, k, Last(h).post.objs[k])
  {
    hide DriftFields, JustRead, Proper, MayReplace, SetOf;
  }

  /** A creation or update carries exactly the controller reference of the instance being reconciled. */
  lemma WritesAreOwned(s: State, p: Pass, order: Ordering, n: nat, k: Key)
    requires Sane(s) && WritesAt(Nth(PassWorld(s, p, order).trace, n), k)
    ensures StoredWith(Nth(PassWorld(s, p, order).trace, n).post, k, [OwnerRef(Subject(Fresh(s, p)).uid, true)])
  {
    hide PassWorld, PassRequest, AgendaOf, Sound, Linked, Subject;
    PassReaches(s, p, order);
    AgendaSound(Subject(Fresh(s, p)));
    RequestOwned(Upto(PassWorld(s, p, order).trace, n), PassAgenda(s, p), k);
  }

  /** Whoever writes on behalf of an instance has read it before. */
  lemma SubjectStored(s: State, p: Pass, order: Ordering, n: nat, k: Key, before: iset<nat>)
    requires Sane(s) && WritesAt(Nth(PassWorld(s, p, order).trace, n), k)
    ensures Subject(Fresh(s, p)).uid in Identities(Front(Upto(PassWorld(s, p, order).trace, n)), before)
  {
    hide Call, Sane, Later, PassBy, AgendaOf, ReconcileNormal, ReconcileDelete, Adopt;
    var w := Fresh(s, p);
    var t := PassWorld(s, p, order).trace;
    FreshGood(s, p);
    CallEvent(w, GetInstance);
    OthersFirst(w, GetInstance);
    ReconcileReaches(w, Subject(w), order);
    var (v, r) := Call(w, GetInstance);
    var m := |v.trace| - 1;
    assert forall i | 0 <= i < m :: t[i] == Front(v.trace)[i];
    assert t[m] == Last(v.trace) && Front(Upto(t, n)) == t[..n];
    if r.GotInstance? {
      assert t[m] == t[..n][m];
    }
  }

  /** The event leaves the owners as they were, or those of an instance. */
  ghost predicate KeepsOwner(e: Event, k: Key, ids: iset<nat>) {
    k in e.post.objs ==>
      || (k in e.pre.objs && e.post.objs[k].owners == e.pre.objs[k].owners)
      || OwnedByOne(e.post.objs[k], ids)
  }

  /** One more event. */
  lemma OwnedStep(h: History, outside: iset<Key>, before: iset<nat>)
    requires h != [] && Sane(Last(h).post) && Later(Last(h).pre, Last(h).post)
    requires AllOwned(Last(h).pre, outside, Identities(Front(h), before))
    requires forall k: Key | k.kind != Namespace && k !in outside ::
               KeepsOwner(Last(h), k, Identities(Front(h), before))
    ensures AllOwned(Last(h).post, outside, Identities(h, before))
  {
    hide SaneObject;
    var (e, ids, more) := (Last(h), Identities(Front(h), before), Identities(h, before));
    assert h == Front(h) + [e];
    assert forall uid :: uid in more <==> uid in ids || (e.post.inst.Some? && e.post.inst.value.uid == uid);
    forall k | k in e.post.objs && k.kind != Namespace && k !in outside
      ensures OwnedByOne(e.post.objs[k], more)
    {
      assert KeepsOwner(e, k, ids) && OwnedByOne(e.post.objs[k], ids);
    }
  }

  /** What the n-th event does to the owners. */
  lemma OwnersKept(s: State, p: Pass, order: Ordering, outside: iset<Key>, before: iset<nat>, n: nat, k: Key)
    requires Sane(s) && PassHeeds(s, p, order, KeepOwners(outside)) && n < |PassWorld(s, p, order).trace|
    requires k.kind != Namespace && k !in outside
    ensures var t := PassWorld(s, p, order).trace;
            KeepsOwner(Nth(t, n), k, Identities(Front(Upto(t, n)), before))
  {
    hide PassWorld, PassRequest, AgendaOf, Sound, Sane, Later, Genuine, Subject, Identities, WritesAt;
    var t := PassWorld(s, p, order).trace;
    PassReaches(s, p, order);
    if t[n].actor.Operator? {
      AgendaSound(Subject(Fresh(s, p)));
      RequestOwned(Upto(t, n), PassAgenda(s, p), k);
      if WritesAt(t[n], k) {
        SubjectStored(s, p, order, n, k, before);
      }
    }
  }

  lemma {:induction false} OwnedWithinPass(s: State, p: Pass, order: Ordering, outside: iset<Key>, before: iset<nat>,
                                           n: nat)
    requires Sane(s) && AllOwned(s, outside, before) && PassHeeds(s, p, order, KeepOwners(outside))
    requires n <= |PassWorld(s, p, order).trace|
    ensures AllOwned(StateAt(PassWorld(s, p, order), n), outside, Identities(PassWorld(s, p, order).trace[..n], before))
    decreases n
  {
    hide PassWorld, PassRequest, AgendaOf, Sound, Sane, Later, Genuine, Subject, Identities, AllOwned, KeepsOwner,
         KeepOwners;
    var w := PassWorld(s, p, order);
    PassReaches(s, p, order);
    if n == 0 {
      NobodyElse(before);
      assert w.trace[..0] == [];
    } else {
      OwnedWithinPass(s, p, order, outside, before, n - 1);
      var h := w.trace[..n];
      assert Linked(s, w.trace, n - 1) && Upto(w.trace, n - 1) == h && Front(h) == w.trace[..n - 1];
      forall k: Key | k.kind != Namespace && k !in outside
        ensures KeepsOwner(Last(h), k, Identities(Front(h), before))
      {
        OwnersKept(s, p, order, outside, before, n - 1, k);
      }
      OwnedStep(h, outside, before);
    }
  }

  lemma NobodyElse(before: iset<nat>)
    ensures Identities([], before) == before
  {
  }

  /** The identities of the instances stored up to the n-th reconcile. */
  ghost function RunIdentities(s: State, passes: Series, order: Ordering, before: iset<nat>, n: nat): iset<nat> {
    if n == 0 then before
    else Identities(RunWorld(s, passes, order, n - 1).trace, RunIdentities(s, passes, order, before, n - 1))
  }

  /** Over any run, whatever the operator leaves behind other than the namespaces carries exactly the
      controller reference of an instance of the run; `outside` holds all that was there before and
      all that others make. */
  lemma {:induction false} OwnershipOverRuns(s: State, passes: Series, order: Ordering, outside: iset<Key>,
                                             before: iset<nat>, n: nat)
    requires Sane(s) && AllOwned(s, outside, before) && RunHeeds(s, passes, order, KeepOwners(outside))
    ensures AllOwned(After(s, passes, order, n), outside, RunIdentities(s, passes, order, before, n))
  {
    hide Sane, AllOwned, KeepOwners, PassWorld, Identities, PassHeeds, AfterPass;
    if n > 0 {
      OwnershipOverRuns(s, passes, order, outside, before, n - 1);
      SaneRun(s, passes, order, n - 1);
      assert HeedsAt(s, passes, order, KeepOwners(outside), n - 1);
      var (at, p) := (After(s, passes, order, n - 1), passes(n - 1));
      var t := PassWorld(at, p, order).trace;
      OwnedWithinPass(at, p, order, outside, RunIdentities(s, passes, order, before, n - 1), |t|);
      PassMoments(at, p, order);
      assert t[..|t|] == t;
    }
  }

  /** So once the instance is gone, collection by owner leaves nothing of the operator's but namespaces,
      whatever else lives and owns objects. */
  lemma {:induction false} OnlyNamespacesRemain(s: State, passes: Series, order: Ordering, outside: iset<Key>,
                                                before: iset<nat>, n: nat)
    requires Sane(s) && AllOwned(s, outside, before) && RunHeeds(s, passes, order, KeepOwners(outside))
    requires After(s, passes, order, n).inst.None?
    ensures forall k | k in Act(After(s, passes, order, n), Collect).objs :: k.kind == Namespace || k in outside
  {
    hide After, Sane, AllOwned, Act, KeepOwners, RunHeeds, RunIdentities;
    OwnershipOverRuns(s, passes, order, outside, before, n);
    CollectsAll(After(s, passes, order, n), outside, RunIdentities(s, passes, order, before, n));
  }

  lemma CollectsAll(s: State, outside: iset<Key>, ids: iset<nat>)
    requires AllOwned(s, outside, ids) && s.inst.None?
    ensures forall k | k in Act(s, Collect).objs :: k.kind == Namespace || k in outside
  {
    forall k | k in s.objs && k.kind != Namespace && k !in outside
      ensures Orphaned(s, s.objs[k]) && GoesWith(k, k)
    {
      assert OwnedByOne(s.objs[k], ids);
    }
  }

  // ---- User intent ----

  /** The spec the user last wrote, by creating or editing the instance. */
  ghost function LastWritten(t: History, before: Option<Spec>): Option<Spec>
    decreases |t|
  {
    if t == [] then before
    else
      var e := Last(t);
      var earlier := LastWritten(Front(t), before);
      match e.actor
      case Other(EditInstance(spec)) => if e.pre.inst.Some? then Some(spec) else earlier
      case Other(CreateInstance(spec)) => if e.pre.inst.None? then Some(spec) else earlier
      case _ => earlier
  }

  ghost predicate StoresIntent(s: State, intent: Option<Spec>) {
    s.inst.Some? ==> intent == Some(s.inst.value.spec)
  }

  /** `j` asks for what `i` asks for, under the same identity, and is being deleted if that is. */
  predicate SameIntent(i: Instance, j: Instance) {
    i.spec == j.spec && i.uid == j.uid && i.deleting == j.deleting
  }

  /** No request of the operator changes what the user asked for, or who is asking, or takes back a
      deletion. */
  lemma RequestKeepsIntent(h: History, a: Agenda)
    requires PassRequest(h, a)
    ensures Last(h).post.inst.Some? ==>
              Last(h).pre.inst.Some? && SameIntent(Last(h).pre.inst.value, Last(h).post.inst.value)
  {
    hide Replacement, DriftFields, JustRead, ListedIn, Scanned, Admitted, Merged, MayReplace, Proper;
  }

  lemma {:induction false} IntentStep(h: History, a: Agenda, before: Option<Spec>)
    requires h != [] && Genuine(Last(h)) && (Last(h).actor.Operator? ==> PassRequest(h, a))
    requires StoresIntent(Last(h).pre, LastWritten(Front(h), before))
    ensures StoresIntent(Last(h).post, LastWritten(h, before))
  {
    hide PassRequest, Sane;
    if Last(h).actor.Operator? {
      RequestKeepsIntent(h, a);
    }
  }

  lemma {:induction false} IntentWithinPass(s: State, p: Pass, order: Ordering, before: Option<Spec>, n: nat)
    requires Sane(s) && StoresIntent(s, before) && n <= |PassWorld(s, p, order).trace|
    ensures StoresIntent(StateAt(PassWorld(s, p, order), n), LastWritten(PassWorld(s, p, order).trace[..n], before))
    decreases n
  {
    hide PassWorld, PassAgenda, PassRequest, Sound, Sane, Later, Genuine, LastWritten, StoresIntent;
    var w := PassWorld(s, p, order);
    PassReaches(s, p, order);
    if n == 0 {
      assert w.trace[..0] == [];
      NothingWritten(before);
    } else {
      IntentWithinPass(s, p, order, before, n - 1);
      var h := w.trace[..n];
      assert Linked(s, w.trace, n - 1) && Upto(w.trace, n - 1) == h && Front(h) == w.trace[..n - 1];
      IntentStep(h, PassAgenda(s, p), before);
    }
  }

  lemma {:induction false} NothingWritten(before: Option<Spec>)
    ensures LastWritten([], before) == before
  {
  }

  /** All that happens in the first `n` reconciles. */
  ghost function RunTrace(s: State, passes: Series, order: Ordering, n: nat): History {
    if n == 0 then [] else RunTrace(s, passes, order, n - 1) + RunWorld(s, passes, order, n - 1).trace
  }

  lemma {:induction false} WrittenConcat(a: History, b: History, before: Option<Spec>)
    ensures LastWritten(a + b, before) == LastWritten(b, LastWritten(a, before))
    decreases |b|
  {
    if b == [] {
      assert a + b == a;
    } else {
      assert Front(a + b) == a + Front(b);
      WrittenConcat(a, Front(b), before);
    }
  }

  /** Whatever the interleaving of user edits and deletions with the operator's finalizer and status
      writes, the stored spec is the one the user wrote last. */
  lemma {:induction false} UserIntentIsKept(s: State, passes: Series, order: Ordering, before: Option<Spec>, n: nat)
    requires Sane(s) && StoresIntent(s, before)
    ensures StoresIntent(After(s, passes, order, n), LastWritten(RunTrace(s, passes, order, n), before))
  {
    hide PassWorld, AfterPass, Sane, LastWritten, StoresIntent;
    if n == 0 {
      NothingWritten(before);
    } else {
      UserIntentIsKept(s, passes, order, before, n - 1);
      SaneRun(s, passes, order, n - 1);
      var (at, p) := (After(s, passes, order, n - 1), passes(n - 1));
      var (u, t) := (RunTrace(s, passes, order, n - 1), PassWorld(at, p, order).trace);
      IntentWithinPass(at, p, order, LastWritten(u, before), |t|);
      PassMoments(at, p, order);
      assert t[..|t|] == t;
      WrittenConcat(u, t, before);
    }
  }
}
