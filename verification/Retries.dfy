/** The retry on conflict: a conflict writes nothing, how many there are, and what they leave behind. */
module Retries {
  import opened Wrappers
  import opened Objects
  import opened Api
  import opened Strategies
  import opened Traces
  import opened Effects
  import opened Passes

  ghost function Idle(): Guarantee {
    (h: History) => Last(h).pre == Last(h).post
  }

  /** A request that was answered with a conflict, or that only reads, writes nothing; and only an update
      conflicts. */
  lemma IdleCall(w: World, req: Request)
    requires Good(w) && (req.Get? || req.Create? || req.Update? || req.Delete?)
    ensures var (v, r) := Call(w, req);
            && Good(v)
            && (req.Get? ==> r.Got? || r.Fail?)
            && (req.Get? || r == Fail(Conflict) ==> Reached(w, v, Idle()))
            && (r == Fail(Conflict) ==> req.Update?)
  {
    hide Call, Via, Good;
    CallEvent(w, req);
    if req.Get? || Call(w, req).1 == Fail(Conflict) {
      ReachedByCall(w, req, Idle());
    }
  }

  lemma IdleAttempt(how: Strategy, w: World, k: Key, o: Object, uid: nat)
    requires Good(w) && Attempt(how, w, k, o, uid).err == Some(Conflict)
    ensures Reached(w, Attempt(how, w, k, o, uid).w, Idle())
  {
    hide Call, Via, Good, DriftFields, Owned;
    var (v, r) := Call(w, Get(k));
    IdleCall(w, Get(k));
    if r.Got? {
      IdleCall(v, Update(k, o.(rv := r.obj.rv)));
      IdleCall(v, Update(k, WithClaims(o, r.obj)));
      IdleCall(v, Delete(k, DriftSite));
      IdleCall(v, Delete(k, RecreateSite));
      IdleCall(Call(v, Delete(k, RecreateSite)).0, Create(k, o.(rv := 0)));
      ReachedTransitive(w, v, Attempt(how, w, k, o, uid).w, Idle());
    } else {
      IdleCall(v, Create(k, o));
    }
  }

  /** An apply all of whose attempts conflict has written nothing. */
  lemma {:induction false} ConflictsWriteNothing(how: Strategy, w: World, k: Key, o: Object, uid: nat, tries: nat)
    requires Good(w) && Retry(how, w, k, o, uid, tries).err == Some(Conflict)
    ensures Reached(w, Retry(how, w, k, o, uid, tries).w, Idle())
    decreases tries
  {
    hide Attempt, Via, Good;
    var a := Attempt(how, w, k, o, uid);
    IdleAttempt(how, w, k, o, uid);
    if a.err == Some(Conflict) && tries > 1 {
      ConflictsWriteNothing(how, a.w, k, a.obj, uid, tries - 1);
      ReachedTransitive(w, a.w, Retry(how, a.w, k, a.obj, uid, tries - 1).w, Idle());
    }
  }

  /** How many updates of the key were answered with a conflict. */
  function Conflicts(h: History, k: Key): nat
    decreases |h|
  {
    if h == [] then 0 else Conflicts(Front(h), k) + if ConflictedUpdate(Last(h), k) then 1 else 0
  }

  predicate ConflictedUpdate(e: Event, k: Key) {
    match e.actor
    case Operator(Update(j, _), reply) => j == k && reply == Fail(Conflict)
    case _ => false
  }

  lemma {:induction false} OthersDoNotConflict(w: World, h: History, k: Key)
    requires w.trace <= h && OthersOnly(w, h)
    ensures Conflicts(h, k) == Conflicts(w.trace, k)
    decreases |h|
  {
    if |h| > |w.trace| {
      OthersDoNotConflict(w, Front(h), k);
    } else {
      assert h == w.trace;
    }
  }

  predicate IsConflict(r: Reply) {
    r == Fail(Conflict)
  }

  lemma {:induction false} CallConflicts(w: World, req: Request, k: Key)
    requires Good(w) && (req.Get? || req.Create? || req.Update? || req.Delete?)
    ensures var (v, r) := Call(w, req);
            && Good(v) && w.trace <= v.trace
            && (r == Fail(Conflict) ==> req.Update?) && (req.Get? ==> r.Got? || r.Fail?)
            && Conflicts(v.trace, k) == Conflicts(w.trace, k)
                                        + if IsConflict(r) && req.Update? && req.key == k then 1 else 0
  {
    hide Call, Good;
    CallEvent(w, req);
    OthersFirst(w, req);
    OthersDoNotConflict(w, Front(Call(w, req).0.trace), k);
    IdleCall(w, req);
  }

  lemma {:induction false} ResolveConflicts(how: Strategy, w: World, k: Key, o: Object, x: Object, uid: nat)
    requires Good(w)
    ensures var a := Resolve(how, w, k, o, x, uid);
            && Good(a.w) && w.trace <= a.w.trace
            && Conflicts(a.w.trace, k) == Conflicts(w.trace, k) + if a.err == Some(Conflict) then 1 else 0
  {
    hide Call, Good, DriftFields, Owned, WithClaims;
    var sent := if how == StatefulApply then WithClaims(o, x) else o.(rv := x.rv);
    CallConflicts(w, Update(k, sent), k);
    var site := if how == StatefulApply then DriftSite else RecreateSite;
    CallConflicts(w, Delete(k, site), k);
    CallConflicts(Call(w, Delete(k, site)).0, Create(k, o.(rv := 0)), k);
  }

  lemma {:induction false} OneConflict(how: Strategy, w: World, k: Key, o: Object, uid: nat)
    requires Good(w)
    ensures var a := Attempt(how, w, k, o, uid);
            && Good(a.w) && Call(w, Get(k)).0.trace <= a.w.trace && w.trace <= a.w.trace
            && Conflicts(a.w.trace, k) == Conflicts(w.trace, k) + if a.err == Some(Conflict) then 1 else 0
  {
    hide Call, Good, Resolve;
    var (v, r) := Call(w, Get(k));
    CallConflicts(w, Get(k), k);
    if r.Got? {
      ResolveConflicts(how, v, k, o, r.obj, uid);
    } else {
      CallConflicts(v, Create(k, o), k);
    }
  }

  /** An apply ends in a conflict exactly when all its attempts did, one update each. */
  lemma {:induction false} ConflictsAreCounted(how: Strategy, w: World, k: Key, o: Object, uid: nat, tries: nat)
    requires Good(w) && tries > 0
    ensures Call(w, Get(k)).0.trace <= Retry(how, w, k, o, uid, tries).w.trace
    ensures w.trace <= Retry(how, w, k, o, uid, tries).w.trace
    ensures var a := Retry(how, w, k, o, uid, tries);
            if a.err == Some(Conflict) then Conflicts(a.w.trace, k) == Conflicts(w.trace, k) + tries
            else Conflicts(a.w.trace, k) < Conflicts(w.trace, k) + tries
    decreases tries
  {
    hide Attempt, Good, Call;
    var a := Attempt(how, w, k, o, uid);
    OneConflict(how, w, k, o, uid);
    if a.err == Some(Conflict) && tries > 1 {
      ConflictsAreCounted(how, a.w, k, a.obj, uid, tries - 1);
    }
  }

  /** So the operator gives up on an object after five conflicting updates of it, and not before. */
  lemma {:induction false} GivesUpAfterFive(how: Strategy, w: World, k: Key, o: Object, uid: nat)
    requires Good(w)
    ensures var a := ApplyObject(how, w, k, o, uid);
            a.err == Some(Conflict) <==> Conflicts(a.w.trace, k) == Conflicts(w.trace, k) + 5
  {
    hide Retry, Good;
    ConflictsAreCounted(how, w, k, OwnedBy(o, uid), uid, MAX_TRIES);
  }

  /** The attempt that conflicted has left the version it read in the caller's object. */
  lemma ConflictLeavesVersion(how: Strategy, w: World, k: Key, o: Object, uid: nat)
    requires Good(w) && Attempt(how, w, k, o, uid).err == Some(Conflict)
    ensures Attempt(how, w, k, o, uid).obj.rv > 0
  {
    hide Call, Good, DriftFields, Owned;
    var (v, r) := Call(w, Get(k));
    CallEvent(w, Get(k));
    if r.Got? {
      assert r.obj.rv > 0 by { StoredVersion(v, k, r.obj); }
      CallConflicts(v, Delete(k, DriftSite), k);
      CallConflicts(v, Delete(k, RecreateSite), k);
      CallConflicts(Call(v, Delete(k, RecreateSite)).0, Create(k, o.(rv := 0)), k);
    } else {
      CallConflicts(v, Create(k, o), k);
    }
  }

  lemma VersionedCreation(w: World, k: Key, o: Object)
    requires Good(w) && o.rv > 0
    ensures Call(w, Create(k, o)).1 in {Fail(BadRequest), Fail(NoMatch), Fail(Transient)}
  {
    hide Call, Good;
    CallEvent(w, Create(k, o));
  }

  /** So an apply that conflicts once, and then finds the object gone, does not make it: its creation
      carries the version of the lost object, which the server refuses. */
  lemma {:induction false} LostObjectIsNotRemade(how: Strategy, w: World, k: Key, o: Object, uid: nat, tries: nat)
    requires Good(w) && tries > 1 && Attempt(how, w, k, o, uid).err == Some(Conflict)
    requires Call(Attempt(how, w, k, o, uid).w, Get(k)).1 == Fail(NotFound)
    ensures Retry(how, w, k, o, uid, tries).err in {Some(BadRequest), Some(NoMatch), Some(Transient)}
  {
    hide Call, Good, Resolve, Attempt;
    var a := Attempt(how, w, k, o, uid);
    OneConflict(how, w, k, o, uid);
    ConflictLeavesVersion(how, w, k, o, uid);
    var v := Call(a.w, Get(k)).0;
    CallConflicts(a.w, Get(k), k);
    VersionedCreation(v, k, a.obj);
    CreatesAtOnce(how, a.w, k, a.obj, uid);
  }

  lemma CreatesAtOnce(how: Strategy, w: World, k: Key, o: Object, uid: nat)
    requires Call(w, Get(k)).1 == Fail(NotFound)
    ensures Attempt(how, w, k, o, uid) == TryCreate(Call(w, Get(k)).0, k, o)
  {
    hide Call;
  }
}
