/** The trace of one reconcile: what its requests are, and that every event in it is genuine. */
module PassTraces {
  import opened Wrappers
  import opened Objects
  import opened Api
  import opened Strategies
  import opened Traces
  import opened Reconcile
  import opened Effects
  import opened Passes
  import opened Plans

  // ---- The trace of a reconcile ----

  /** What a reconcile is about. */
  ghost function PassAgenda(s: State, p: Pass): Agenda {
    AgendaOf(Subject(Fresh(s, p)))
  }

  /** The trace of a reconcile with that agenda: every request is one of those listed, and every event
      is genuine. */
  ghost predicate PassTrace(h: History, s: State, a: Agenda) {
    forall n: nat | n < |h| :: Linked(s, h, n) && (Nth(h, n).actor.Operator? ==> PassRequest(Upto(h, n), a))
  }

  lemma PassReaches(s: State, p: Pass, order: Ordering)
    requires Sane(s)
    ensures Reached(Fresh(s, p), PassWorld(s, p, order), PassBy(PassAgenda(s, p))) && Good(Fresh(s, p))
    ensures PassWorld(s, p, order).start == s && PassTrace(PassWorld(s, p, order).trace, s, PassAgenda(s, p))
    ensures Sound(PassAgenda(s, p))
  {
    hide Call, ReconcileOnce, PassRequest, AgendaOf, Sound, Sane, Genuine;
    var w := Fresh(s, p);
    var v := PassWorld(s, p, order);
    FreshGood(s, p);
    AgendaSound(Subject(w));
    GetInstanceVia(w, false);
    ReconcileReaches(w, Subject(w), order);
    forall n: nat | n < |v.trace|
      ensures Linked(s, v.trace, n) && (v.trace[n].actor.Operator? ==> PassRequest(Upto(v.trace, n), PassAgenda(s, p)))
    {
      assert EventOk(v.trace[..n + 1], PassBy(PassAgenda(s, p)));
      assert Last(v.trace[..n + 1]) == v.trace[n];
    }
  }

  /** The state a reconcile leaves is that after its last event, and every moment in between is sane. */
  lemma PassMoments(s: State, p: Pass, order: Ordering)
    requires Sane(s)
    ensures var w := PassWorld(s, p, order);
            && AfterPass(s, p, order) == End(w)
            && forall n: nat :: Sane(StateAt(w, n))
  {
    hide ReconcileOnce, PassBy, PassRequest, PassAgenda, Sane;
    PassReaches(s, p, order);
    var w := PassWorld(s, p, order);
    forall n: nat
      ensures Sane(StateAt(w, n))
    {
      if 0 < n <= |w.trace| {
        assert Linked(s, w.trace, n - 1);
      }
    }
  }

  /** The instance a reconcile works on was stored at some moment of it. */
  lemma SubjectMoment(s: State, p: Pass, order: Ordering)
    requires Sane(s)
    ensures Subject(Fresh(s, p)) == NOBODY
            || exists n: nat :: StateAt(PassWorld(s, p, order), n).inst == Some(Subject(Fresh(s, p)))
  {
    hide Call, ReconcileOnce, PassBy, AgendaOf, Sane, StateAt, PassTrace, Sound;
    var w := Fresh(s, p);
    var v := Call(w, GetInstance).0;
    PassReaches(s, p, order);
    GetInstanceVia(w, false);
    ReconcileReaches(w, Subject(w), order);
    Midway(v, PassWorld(s, p, order));
  }

  /** Everything others do during the reconcile is as relied on. */
  ghost predicate PassHeeds(s: State, p: Pass, order: Ordering, rely: Rely) {
    Heeded(Fresh(s, p), PassWorld(s, p, order), rely)
  }

  // ---- What deletions spare ----

  /** The event leaves the object exactly as it was. */
  ghost predicate Spares(e: Event, k: Key) {
    k in e.pre.objs ==> k in e.post.objs && e.post.objs[k] == e.pre.objs[k]
  }

  lemma WithoutSpares(e: Event, gone: Key, k: Key)
    requires e.post == Without(e.pre, gone) && k != gone && gone.kind !in {Namespace, CustomResourceDefinition}
    ensures Spares(e, k)
  {
  }
}
