/** The etcd StatefulSet is not deleted and made again for ever: each drift deletion is paid for by a change
    the user made. */
module Livelock {
  import opened Wrappers
  import opened Objects
  import opened Api
  import opened Components
  import opened Strategies
  import opened Drift
  import opened Traces
  import opened Reconcile
  import opened Effects
  import opened Passes
  import opened Plans
  import opened PassTraces
  import opened Runs

  // ---- When two specs disagree about the etcd set ----

  /** Whether a stored set drifts depends on the spec only through its effective size and class. */
  lemma SameVerdict(x: SetSpec, s: Spec, t: Spec)
    requires SameStorage(s, t)
    ensures DriftFields(x, EtcdSet(s)) == DriftFields(x, EtcdSet(t))
  {
    hide EtcdSize, EtcdClass;
    var (a, b) := (EtcdSet(s), EtcdSet(t));
    assert SemanticallyEqual(NormalClaim(a.claims[0]), NormalClaim(b.claims[0]));
    assert ClaimsEqual(a.claims, b.claims);
    DriftUnchanged(x, a, b);
  }

  // ---- Counting deletions ----

  /** Others neither make an etcd set nor change its immutable fields. */
  ghost function Steady(): Rely {
    (s: State, t: State) =>
      ETCD_KEY in t.objs ==> ETCD_KEY in s.objs && t.objs[ETCD_KEY].fixed == s.objs[ETCD_KEY].fixed
  }

  predicate DeletesForDrift(e: Event) {
    match e.actor
    case Operator(Delete(_, site), _) => site == DriftSite && e.pre != e.post
    case _ => false
  }

  function DriftDeletions(t: History): nat
    decreases |t|
  {
    if t == [] then 0 else DriftDeletions(Front(t)) + Owing(DeletesForDrift(Last(t)))
  }

  function Owing(b: bool): nat {
    if b then 1 else 0
  }

  /** If the operator's latest request read the etcd set, the set still has the fields it read. */
  ghost predicate ReadStands(h: History, s: State) {
    var r := LastRequest(h);
    match r
    case Some(Event(Operator(Get(k), Got(x)), _, _)) =>
      k == ETCD_KEY && ETCD_KEY in s.objs ==> s.objs[ETCD_KEY].fixed == x.fixed
    case _ => true
  }

  /** The agenda holds an etcd set. */
  ghost predicate HasSet(a: Agenda) {
    exists t :: t in a.tasks && t.way == AsSet
  }

  /** If it does, it is this one, and what a creation of it stores does not drift. */
  ghost predicate Builds(a: Agenda, d: SetSpec) {
    && (forall t | t in a.tasks && t.way == AsSet :: t.desired.fixed == Set(d))
    && (HasSet(a) ==> DriftFields(d.(claims := DefaultClaims(d.claims)), d) == [])
  }

  lemma TaskBuilds(c: Component, inst: Instance)
    requires Wanted(c, inst.spec) && TaskOf(c, inst).way == AsSet
    ensures TaskOf(c, inst).desired.fixed == Set(EtcdSet(inst.spec)) && Enabled(Mayastor, inst.spec)
  {
    hide KeyOf, Desired, Wanted, EtcdSet, Enabled, IsClass, IsNamespace, ScheduleConfigured, EngineOf;
    BuildsItsSet(inst);
    WantedByItsEngine(c, inst.spec);
  }

  lemma AgendaBuilds(inst: Instance, d: SetSpec)
    requires d == EtcdSet(inst.spec) || !Enabled(Mayastor, inst.spec)
    ensures Builds(AgendaOf(inst), d)
    ensures HasSet(AgendaOf(inst)) ==> Enabled(Mayastor, inst.spec)
  {
    hide TaskOf, Wanted, Expected, ScheduleWanted, TeardownKeys, EtcdSet, DriftFields, Enabled, DefaultClaims, KeyOf;
    DriftIffStorageDiffers(inst.spec, inst.spec);
    forall t | t in AgendaOf(inst).tasks && t.way == AsSet
      ensures t.desired.fixed == Set(EtcdSet(inst.spec)) && Enabled(Mayastor, inst.spec)
    {
      var c :| Wanted(c, inst.spec) && t == TaskOf(c, inst);
      TaskBuilds(c, inst);
    }
  }

  lemma BuildsItsSet(inst: Instance)
    ensures Desired(EtcdSts, inst).fixed == Set(EtcdSet(inst.spec)) && EngineOf(EtcdSts) == Mayastor
  {
    hide LabelsOf, EtcdSet;
  }

  /** Only the task of the set makes a set drift, and a drift deletion is made while it does. */
  lemma TaskDrift(h: History, t: Task, a: Agenda, d: SetSpec)
    requires Justified(h, t) && SoundTask(t, a) && ReadStands(Front(h), Last(h).pre)
    requires t.way == AsSet ==> t.desired.fixed == Set(d) && DriftFields(d.(claims := DefaultClaims(d.claims)), d) == []
    ensures if DeletesForDrift(Last(h)) then Drifting(Last(h).pre, d) && !Drifting(Last(h).post, d) && t.way == AsSet
            else Drifting(Last(h).post, d) ==> Drifting(Last(h).pre, d)
  {
    hide DriftFields, Owned, DefaultClaims;
  }

  lemma RequestDrift(h: History, a: Agenda, d: SetSpec)
    requires PassRequest(h, a) && Sound(a) && Builds(a, d) && ReadStands(Front(h), Last(h).pre)
    ensures if DeletesForDrift(Last(h)) then Drifting(Last(h).pre, d) && !Drifting(Last(h).post, d) && HasSet(a)
            else Drifting(Last(h).post, d) ==> Drifting(Last(h).pre, d)
  {
    hide DriftFields, Justified, ReadStands, ListedIn, Scanned, SoundTask, DefaultClaims;
    if Deploys(h, a) {
      var t :| t in a.tasks && Justified(h, t);
      TaskDrift(h, t, a, d);
    }
  }

  lemma ReadStandsNext(h: History, a: Agenda)
    requires Genuine(Last(h)) && ReadStands(Front(h), Last(h).pre) && h != []
    requires if Last(h).actor.Operator? then PassRequest(h, a) else Steady()(Last(h).pre, Last(h).post)
    ensures ReadStands(h, Last(h).post)
  {
    hide Act, JustRead, Replaced, Made, Removed, ListedIn, Scanned;
  }

  /** Along a reconcile, a drift deletion happens only while the stored set drifts, and ends that. */
  lemma {:induction false} DeletionsAlong(h: History, s: State, a: Agenda, d: SetSpec)
    requires PassTrace(h, s, a) && Sound(a) && Builds(a, d)
    requires forall e | e in h && e.actor.Other? :: Steady()(e.pre, e.post)
    ensures var now := if h == [] then s else Last(h).post;
            && ReadStands(h, now)
            && DriftDeletions(h) + Owing(Drifting(now, d)) <= Owing(Drifting(s, d))
            && (DriftDeletions(h) > 0 ==> HasSet(a))
    decreases |h|
  {
    hide PassRequest, Sound, Builds, Sane, Later, Steady, ReadStands, Drifting, Genuine, HasSet;
    if h != [] {
      var (g, n) := (Front(h), |h| - 1);
      forall i: nat | i < |g|
        ensures Linked(s, g, i) && (Nth(g, i).actor.Operator? ==> PassRequest(Upto(g, i), a))
      {
        assert Linked(s, h, i) && Upto(g, i) == Upto(h, i) && Nth(g, i) == Nth(h, i);
      }
      DeletionsAlong(g, s, a, d);
      assert Linked(s, h, n) && Nth(h, n) == Last(h) && Upto(h, n) == h;
      if Last(h).actor.Operator? {
        RequestDrift(h, a, d);
      } else {
        OthersCauseNoDrift(Last(h), d);
      }
      ReadStandsNext(h, a);
    } else {
      NothingRead(s);
    }
  }

  lemma NothingRead(s: State)
    ensures ReadStands([], s) && DriftDeletions([]) == 0
  {
  }

  lemma OthersCauseNoDrift(e: Event, d: SetSpec)
    requires e.actor.Other? && Steady()(e.pre, e.post)
    ensures Drifting(e.post, d) ==> Drifting(e.pre, d)
    ensures !DeletesForDrift(e)
  {
  }

  /** Within a reconcile, a drift deletion happens only while the stored set drifts from the wanted one,
      and ends that; a reconcile that wants no set makes none drift from any. */
  lemma {:induction false} DeletionsWithinPass(s: State, p: Pass, order: Ordering, d: SetSpec)
    requires Sane(s) && PassHeeds(s, p, order, Steady())
    requires d == EtcdSet(Subject(Fresh(s, p)).spec) || !Enabled(Mayastor, Subject(Fresh(s, p)).spec)
    ensures var deletions := DriftDeletions(PassWorld(s, p, order).trace);
            && deletions + Owing(Drifting(AfterPass(s, p, order), d)) <= Owing(Drifting(s, d))
            && (deletions > 0 ==> Enabled(Mayastor, Subject(Fresh(s, p)).spec))
  {
    hide PassWorld, PassRequest, Subject, Sane, Sound, Steady, ReadStands, Drifting, Enabled, Genuine, Owing, Linked,
         AgendaOf, HasSet, EtcdSet, Builds;
    PassReaches(s, p, order);
    PassMoments(s, p, order);
    AgendaBuilds(Subject(Fresh(s, p)), d);
    DeletionsAlong(PassWorld(s, p, order).trace, s, PassAgenda(s, p), d);
  }

  // ---- Over whole runs ----

  /** The spec of the instance a reconcile works on, when it enables Mayastor. */
  ghost function StorageSubject(s: State, p: Pass): Option<Spec> {
    var spec := Subject(Fresh(s, p)).spec;
    if Enabled(Mayastor, spec) then Some(spec) else None
  }

  ghost predicate Changes(before: Option<Spec>, now: Option<Spec>) {
    before.Some? && now.Some? && !SameStorage(before.value, now.value)
  }

  /** The last such spec among the first `n` reconciles. */
  ghost function LastStorage(s: State, passes: Series, order: Ordering, n: nat): Option<Spec> {
    if n == 0 then None
    else
      var now := StorageSubject(After(s, passes, order, n - 1), passes(n - 1));
      if now.Some? then now else LastStorage(s, passes, order, n - 1)
  }

  /** How often the effective storage differs between one reconcile of Mayastor and the next, among the
      first `n`. */
  ghost function StorageChanges(s: State, passes: Series, order: Ordering, n: nat): nat {
    if n == 0 then 0
    else StorageChanges(s, passes, order, n - 1)
         + Owing(Changes(LastStorage(s, passes, order, n - 1),
                         StorageSubject(After(s, passes, order, n - 1), passes(n - 1))))
  }

  /** What the past still owes: a set that drifts from the last spec seen may be deleted once. */
  ghost function Debt(s: State, before: Option<Spec>): nat {
    Owing(before.None? || Drifting(s, EtcdSet(before.value)))
  }

  lemma {:induction false} DeletionsConcat(a: History, b: History)
    ensures DriftDeletions(a + b) == DriftDeletions(a) + DriftDeletions(b)
    decreases |b|
  {
    hide DeletesForDrift, Owing;
    if b == [] {
      assert a + b == a;
    } else {
      assert Front(a + b) == a + Front(b);
      DeletionsConcat(a, Front(b));
    }
  }

  /** One reconcile: its deletions and the debt it leaves are covered by the debt it found and the
      change of storage it brought. */
  lemma PassPays(s: State, p: Pass, order: Ordering, before: Option<Spec>)
    requires Sane(s) && PassHeeds(s, p, order, Steady())
    ensures var now := StorageSubject(s, p);
            DriftDeletions(PassWorld(s, p, order).trace)
              + Debt(AfterPass(s, p, order), if now.Some? then now else before)
            <= Debt(s, before) + Owing(Changes(before, now))
  {
    hide PassWorld, AfterPass, Subject, Sane, PassHeeds, SameStorage, Enabled, EtcdSet, DriftFields;
    var spec := Subject(Fresh(s, p)).spec;
    DeletionsWithinPass(s, p, order, EtcdSet(spec));
    if before.Some? {
      if StorageSubject(s, p).None? {
        DeletionsWithinPass(s, p, order, EtcdSet(before.value));
      } else if SameStorage(before.value, spec) && ETCD_KEY in s.objs {
        SameVerdict(SetOf(s.objs[ETCD_KEY]), before.value, spec);
      }
    }
  }

  /** No delete and recreate livelock: over any run, from any store, with any faults, crashes and
      interleavings, the drift deletions number at most one more than the changes to the effective
      storage size and class. */
  lemma {:induction false} NoLivelock(s: State, passes: Series, order: Ordering, n: nat)
    requires Sane(s) && RunHeeds(s, passes, order, Steady())
    ensures DriftDeletions(RunTrace(s, passes, order, n)) <= StorageChanges(s, passes, order, n) + 1
    ensures DriftDeletions(RunTrace(s, passes, order, n))
              + Debt(After(s, passes, order, n), LastStorage(s, passes, order, n))
            <= StorageChanges(s, passes, order, n) + 1
  {
    hide PassWorld, AfterPass, StorageSubject, Sane, Steady, Drifting, PassHeeds, Changes, Debt;
    if n == 0 {
      NothingRead(s);
      DebtIsOne(s, None);
    } else {
      NoLivelock(s, passes, order, n - 1);
      SaneRun(s, passes, order, n - 1);
      assert HeedsAt(s, passes, order, Steady(), n - 1);
      var at := After(s, passes, order, n - 1);
      PassPays(at, passes(n - 1), order, LastStorage(s, passes, order, n - 1));
      DeletionsConcat(RunTrace(s, passes, order, n - 1), PassWorld(at, passes(n - 1), order).trace);
    }
  }

  lemma DebtIsOne(s: State, before: Option<Spec>)
    ensures Debt(s, before) <= 1
  {
  }
}
