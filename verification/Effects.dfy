/** What a deployment does to the store, request by request, whatever other writers do in between:
    each request that changes anything creates the desired object, updates the version read just
    before, or deletes for a stated reason. */
module Effects {
  import opened Wrappers
  import opened Objects
  import opened Api
  import opened Components
  import opened Strategies
  import opened Drift
  import opened Traces

  // ---- The retry keeps the verdict ----

  lemma ClaimsEqualEquivalence(a: seq<Claim>, b: seq<Claim>, c: seq<Claim>)
    ensures ClaimsEqual(a, a)
    ensures ClaimsEqual(a, b) ==> ClaimsEqual(b, a)
    ensures ClaimsEqual(a, b) && ClaimsEqual(b, c) ==> ClaimsEqual(a, c)
  {
    if ClaimsEqual(a, b) {
      forall i | 0 <= i < |a|
        ensures SemanticallyEqual(NormalClaim(b[i]), NormalClaim(a[i]))
      {
        assert SemanticallyEqual(NormalClaim(a[i]), NormalClaim(b[i]));
      }
    }
    if ClaimsEqual(a, b) && ClaimsEqual(b, c) {
      forall i | 0 <= i < |a|
        ensures SemanticallyEqual(NormalClaim(a[i]), NormalClaim(c[i]))
      {
        assert SemanticallyEqual(NormalClaim(a[i]), NormalClaim(b[i]));
        assert SemanticallyEqual(NormalClaim(b[i]), NormalClaim(c[i]));
      }
    }
  }

  /** Taking over semantically equal templates changes no later verdict about any stored set. */
  lemma DriftUnchanged(x: SetSpec, o: SetSpec, d: SetSpec)
    requires o == d.(claims := o.claims) && ClaimsEqual(o.claims, d.claims)
    ensures DriftFields(x, o) == DriftFields(x, d)
  {
    ClaimsEqualEquivalence(x.claims, o.claims, d.claims);
    ClaimsEqualEquivalence(x.claims, d.claims, o.claims);
    ClaimsEqualEquivalence(o.claims, d.claims, o.claims);
  }

  /** A set with the immutable fields of `d`, its claim templates up to semantic equality. */
  ghost predicate SameButClaims(o: Object, d: Object) {
    SetOf(o) == SetOf(d).(claims := SetOf(o).claims) && ClaimsEqual(SetOf(o).claims, SetOf(d).claims)
  }

  /** The caller's object as each attempt of a retry finds it. */
  ghost function RetryObjects(w: World, k: Key, o: Object, uid: nat, tries: nat): seq<Object>
    decreases tries
  {
    var out := Attempt(StatefulApply, w, k, o, uid);
    [o] + if out.err == Some(Conflict) && tries > 1 then RetryObjects(out.w, k, out.obj, uid, tries - 1) else []
  }

  /** Each attempt may overwrite the templates of the object the next one starts from; yet every
      attempt judges every stored set as the original object would. */
  lemma {:induction false} RetryKeepsVerdict(w: World, k: Key, o: Object, uid: nat, tries: nat, d: Object)
    requires SameButClaims(o, d)
    ensures forall a, x: SetSpec | a in RetryObjects(w, k, o, uid, tries) ::
              DriftFields(x, SetOf(a)) == DriftFields(x, SetOf(d))
    decreases tries
  {
    hide Call, Owned;
    forall x: SetSpec
      ensures DriftFields(x, SetOf(o)) == DriftFields(x, SetOf(d))
    {
      DriftUnchanged(x, SetOf(o), SetOf(d));
    }
    var out := Attempt(StatefulApply, w, k, o, uid);
    var r := Call(w, Get(k)).1;
    if r.Got? && DriftFields(SetOf(r.obj), SetOf(o)) == [] {
      ClaimsEqualEquivalence(SetOf(r.obj).claims, SetOf(o).claims, SetOf(d).claims);
    }
    if out.err == Some(Conflict) && tries > 1 {
      RetryKeepsVerdict(out.w, k, out.obj, uid, tries - 1, d);
    }
  }

  /** What earlier attempts may have made of the desired object `d`. An object without a version is
      still as the builder made it, save for the Service and StorageClass paths that clear it. */
  ghost predicate Mutated(how: Strategy, o: Object, d: Object) {
    && o == d.(rv := o.rv, fixed := o.fixed)
    && if how != StatefulApply || o.rv == 0 then o.fixed == d.fixed
       else && o.fixed == Set(SetOf(d).(claims := SetOf(o).claims))
            && ClaimsEqual(SetOf(o).claims, SetOf(d).claims)
  }

  // ---- Tasks and justified requests ----

  /** How an object is brought about. The backup schedule is only brought about where the spec asks for
      it, and removed otherwise. */
  datatype Way = AsNamespace | AsPlain | AsSet | AsService | AsClass | AsSchedule(configured: bool)

  /** An object to bring about under a key, on behalf of the instance of that identity. */
  datatype Task = Task(key: Key, desired: Object, way: Way, uid: nat)

  function StrategyOf(way: Way): Strategy {
    match way
    case AsSet => StatefulApply
    case AsService => HeadlessApply
    case _ => PlainApply
  }

  predicate Applicable(t: Task) {
    t.way != AsSchedule(false)
  }

  /** A task as the operator sets itself: the desired object has no version, and the set is the etcd set. */
  predicate Proper(t: Task) {
    t.desired.rv == 0 && (t.way == AsSet ==> t.key == ETCD_KEY && t.desired.fixed.Set?)
  }

  /** The request before the last one of a history read `x` under the key. */
  ghost predicate JustRead(h: History, k: Key, x: Object) {
    var r := LastRequest(Front(h));
    r.Some? && r.value.actor == Operator(Get(k), Got(x))
  }

  /** The request before the last one of a history found the key free, or freed it. */
  ghost predicate JustGone(h: History, k: Key) {
    match LastRequest(Front(h))
    case Some(Event(Operator(Get(j), Fail(NotFound)), _, _)) => j == k
    case Some(Event(Operator(Delete(j, RecreateSite), Done), _, _)) => j == k
    case _ => false
  }

  /** The request before the last one found the etcd set with ready replicas. */
  ghost predicate FoundReady(h: History) {
    match LastRequest(Front(h))
    case Some(Event(Operator(Get(k), Got(x)), _, _)) => k == ETCD_KEY && x.ready > 0
    case _ => false
  }

  /** The last request was an update refused for immutable fields. */
  ghost predicate UpdateRefused(h: History, k: Key) {
    match LastRequest(h)
    case Some(Event(Operator(Update(j, _), Fail(Invalid)), _, _)) => j == k
    case _ => false
  }

  /** The object sent to replace `x`. */
  ghost function Replacement(t: Task, x: Object): Object {
    match t.way
    case AsNamespace => x.(labels := x.labels + PodSecurity())
    case AsSet => WithClaims(t.desired, x)
    case _ => t.desired.(rv := x.rv)
  }

  /** Why an object may be deleted and made again. */
  ghost predicate MayReplace(t: Task, x: Object, site: Site) {
    match site
    case DriftSite => t.way == AsSet && Owned(x, t.uid) && DriftFields(SetOf(x), SetOf(t.desired)) != []
    case RecreateSite =>
      t.way == AsClass || (t.way == AsService && Owned(x, t.uid) && IpOf(x) != IpOf(t.desired))
    case _ => false
  }

  /** The stored object cannot become the desired one by an update. */
  ghost predicate Mismatched(t: Task, x: Object) {
    match t.way
    case AsSet => DriftFields(SetOf(x), SetOf(t.desired)) != []
    case AsService => IpOf(x) != IpOf(t.desired)
    case _ => false
  }

  /** The set or the address is another than the desired one. */
  ghost predicate Differs(t: Task, x: Object) {
    match (t.way, x.fixed, t.desired.fixed)
    case (AsSet, Set(a), Set(b)) => SetsDiffer(a, b)
    case (AsService, a, b) => a != b
    case _ => false
  }

  /** A request about one object. */
  predicate Addresses(req: Request, k: Key) {
    match req
    case Get(key) => key == k
    case Create(key, _) => key == k
    case Update(key, _) => key == k
    case Delete(key, _) => key == k
    case Probe => true
    case _ => false
  }

  /** What a creation, an update and a deletion on behalf of a task do. */
  ghost predicate Made(e: Event, t: Task, o: Object) {
    o == t.desired && t.key !in e.pre.objs && e.post == Store(e.pre, t.key, Admitted(e.pre, o))
  }

  ghost predicate Replaced(h: History, e: Event, t: Task, o: Object, x: Object) {
    && Holds(e.pre, t.key, x) && JustRead(h, t.key, x)
    && o == Replacement(t, x)
    && e.post == Store(e.pre, t.key, Merged(e.pre, x, o)) && Merged(e.pre, x, o).fixed == x.fixed
    && (t.way == AsSet ==> DriftFields(SetOf(x), SetOf(t.desired)) == [])
    && (t.way == AsService ==> IpOf(x) == IpOf(t.desired))
  }

  ghost predicate Removed(h: History, e: Event, t: Task, site: Site) {
    && t.key in e.pre.objs && e.post == Without(e.pre, t.key)
    && ((t.way == AsSchedule(false) && site == UnwantedSite)
        || (&& (exists x :: JustRead(h, t.key, x) && MayReplace(t, x, site))
            && (t.way == AsClass ==> UpdateRefused(BeforeRequest(Front(h)), t.key))))
  }

  /** The last request of the history, made on behalf of a task, either changed nothing or is one of the
      three a deployment makes. A StatefulSet update is never refused for its immutable fields. */
  ghost predicate Justified(h: History, t: Task) {
    var e := Last(h);
    match e.actor
    case Other(_) => false
    case Operator(req, reply) =>
      && Addresses(req, t.key)
      && (t.way == AsSet ==> reply != Fail(Invalid))
      && (req.Delete? || Applicable(t))
      && (req.Create? ==> JustGone(h, t.key)) && (req.Probe? ==> FoundReady(h))
      && (e.pre == e.post
          || match req
             case Create(_, o) => Made(e, t, o)
             case Update(_, o) => exists x :: Replaced(h, e, t, o, x)
             case Delete(_, site) => Removed(h, e, t, site)
             case _ => false)
  }

  ghost function Doing(t: Task): Guarantee {
    (h: History) => Justified(h, t)
  }

  // ---- Single requests ----

  /** From `w` to `v` by justified requests for one task. */
  ghost predicate Brought(w: World, v: World, t: Task) {
    Via(w, v, Doing(t)) && Good(v) && w.trace <= v.trace
  }

  lemma BroughtTransitive(u: World, v: World, w: World, t: Task)
    requires Brought(u, v, t) && Brought(v, w, t)
    ensures Brought(u, w, t)
  {
    hide Good, Doing;
    ViaTransitive(u, v, w, Doing(t));
  }

  lemma BroughtSelf(w: World, t: Task)
    requires Good(w)
    ensures Brought(w, w, t)
  {
    hide Good, Doing;
    ViaSelf(w, Doing(t));
  }

  /** A request that leaves a justified history leaves a world reached by justified requests. */
  lemma RequestVia(w: World, req: Request, t: Task)
    requires Good(w) && Justified(Call(w, req).0.trace, t)
    ensures Brought(w, Call(w, req).0, t)
  {
    hide Call, Good, Justified;
    CallVia(w, req, Doing(t));
  }

  ghost predicate Asked(w: World, req: Request, r: Reply) {
    Last(w.trace).actor == Operator(req, r)
  }

  /** What the operator sends for a task: the desired object, but for the fields the server keeps; for a
      namespace the labels are added to what is there. */
  ghost predicate Sends(t: Task, o: Object) {
    if t.way == AsNamespace then o == t.desired || o.labels + PodSecurity() == o.labels
    else o.labels == t.desired.labels && o.owners == t.desired.owners && o.body == t.desired.body
  }

  /** The reply to the last request says that the desired object was stored, or that there is nothing to
      do: the namespace has its labels, the kind of the schedule is not there, or a schedule that is not
      wanted is gone. */
  ghost predicate Delivers(t: Task, req: Request, reply: Reply) {
    || Skips(t, reply)
    || match req
       case Create(_, o) => reply == Done && Sends(t, o)
       case Update(_, o) => reply == Done && Sends(t, o)
       case Get(_) => t.way == AsNamespace && reply.Got? && Sends(t, reply.obj)
       case Delete(_, _) => t.way == AsSchedule(false) && reply in {Done, Fail(NotFound), Fail(NoMatch)}
       case _ => false
  }

  ghost predicate Skips(t: Task, reply: Reply) {
    t.way == AsSchedule(true) && reply == Fail(NoMatch)
  }

  /** How the last request of an operation explains its end: nothing follows a failure, and a success is
      a delivery. */
  ghost predicate Explains(t: Task, req: Request, reply: Reply, err: Option<Error>) {
    match err
    case None => Delivers(t, req, reply)
    case Some(e) =>
      || (reply == Fail(e) && (e == Invalid ==> req.Update?))
      || (e == NotManaged && req.Get? && reply.Got?)
      || (e == Drifted && req.Delete? && reply == Done)
  }

  ghost predicate Ends(h: History, err: Option<Error>, t: Task) {
    match Last(h).actor
    case Operator(req, reply) => Addresses(req, t.key) && Explains(t, req, reply, err)
    case _ => false
  }

  lemma AskedEnds(w: World, req: Request, r: Reply, err: Option<Error>, t: Task)
    requires Asked(w, req, r) && Addresses(req, t.key) && Explains(t, req, r, err)
    ensures Ends(w.trace, err, t)
  {
    hide Addresses, Explains;
  }

  lemma ReadVia(w: World, req: Request, t: Task)
    requires Good(w) && Applicable(t)
    requires (req.Get? || req.Probe?) && Addresses(req, t.key)
    requires req.Probe? ==> exists x :: Asked(w, Get(ETCD_KEY), Got(x)) && x.ready > 0
    ensures var (v, r) := Call(w, req);
            && Brought(w, v, t) && Asked(v, req, r) && |w.trace| < |v.trace|
            && (r.Fail? || r == Done || (req.Get? && exists x :: r == Got(x) && Holds(v.s, t.key, x)))
            && (req.Get? ==> r != Done) && r != Fail(Invalid)
  {
    hide Call, Brought, Good, Replacement, MayReplace, DriftFields, Admitted, Merged, JustRead, Without;
    CallEvent(w, req);
    RequestVia(w, req, t);
  }

  lemma CreateVia(w: World, o: Object, t: Task)
    requires Good(w) && Applicable(t)
    requires Sends(t, o) && (o.rv == 0 ==> o == t.desired)
    requires Asked(w, Get(t.key), Fail(NotFound)) || Asked(w, Delete(t.key, RecreateSite), Done)
    ensures var (v, r) := Call(w, Create(t.key, o));
            && Brought(w, v, t) && Ends(v.trace, ErrorOf(r), t)
            && (!r.Fail? ==> t.key in v.s.objs)
            && r != Fail(Conflict) && r != Fail(Invalid)
  {
    hide Call, Brought, Good, Admitted, Sends, Ends;
    var (v, r) := Call(w, Create(t.key, o));
    CallEvent(w, Create(t.key, o));
    RequestVia(w, Create(t.key, o), t);
    AskedEnds(v, Create(t.key, o), r, ErrorOf(r), t);
  }

  /** An update that goes through replaced the very version its sender had read. */
  lemma UpdateEvent(w: World, k: Key, o: Object, x: Object)
    requires Good(w) && Holds(w.s, k, x) && o.rv == x.rv
    ensures var (v, r) := Call(w, Update(k, o));
            var e := Last(v.trace);
            && e.actor == Operator(Update(k, o), r)
            && (e.post == e.pre || (Holds(e.pre, k, x) && e.post == Store(e.pre, k, Merged(e.pre, x, o))
                                    && Merged(e.pre, x, o).fixed == x.fixed))
            && (!r.Fail? ==> k in v.s.objs)
            && (Merged(w.s, x, o).fixed == x.fixed ==> r != Fail(Invalid))
  {
    hide Call;
    CallEvent(w, Update(k, o));
    var e := Last(Call(w, Update(k, o)).0.trace);
    if k in e.pre.objs && e.pre.objs[k].rv == x.rv {
      SameVersionSameObject(w.s, e.pre, k, x, e.pre.objs[k]);
    }
  }

  lemma MutatedIsSent(t: Task, o: Object)
    requires o == t.desired.(rv := o.rv, fixed := o.fixed) && (t.way == AsNamespace ==> o == t.desired)
    ensures Sends(t, o)
  {
    hide PodSecurity;
  }

  lemma ReplacementIsSent(t: Task, x: Object)
    ensures Sends(t, Replacement(t, x))
  {
    hide PodSecurity;
    var twice := x.labels + PodSecurity();
    assert twice + PodSecurity() == twice;
  }

  lemma UpdateVia(w: World, o: Object, x: Object, t: Task)
    requires Good(w) && Applicable(t)
    requires Holds(w.s, t.key, x) && Asked(w, Get(t.key), Got(x))
    requires o.rv == x.rv && o == Replacement(t, x)
    requires t.way == AsSet ==> DriftFields(SetOf(x), SetOf(t.desired)) == [] && Merged(w.s, x, o).fixed == x.fixed
    requires t.way == AsService ==> IpOf(x) == IpOf(t.desired)
    ensures var (v, r) := Call(w, Update(t.key, o));
            && Brought(w, v, t) && Ends(v.trace, ErrorOf(r), t)
            && (!r.Fail? ==> t.key in v.s.objs)
  {
    hide Call, Brought, Good, Merged, Replacement, DriftFields, Sends, Ends;
    var (v, r) := Call(w, Update(t.key, o));
    var h := v.trace;
    UpdateEvent(w, t.key, o, x);
    CallEvent(w, Update(t.key, o));
    if Last(h).pre != Last(h).post {
      assert Replaced(h, Last(h), t, o, x);
    }
    RequestVia(w, Update(t.key, o), t);
    ReplacementIsSent(t, x);
    AskedEnds(v, Update(t.key, o), r, ErrorOf(r), t);
  }

  lemma DeleteEvent(w: World, k: Key, site: Site)
    requires Good(w)
    ensures var (v, r) := Call(w, Delete(k, site));
            var e := Last(v.trace);
            && e.actor == Operator(Delete(k, site), r) && (r.Fail? || r == Done)
            && (e.post == e.pre || (k in e.pre.objs && e.post == Without(e.pre, k)))
            && r != Fail(Conflict) && r != Fail(Invalid)
  {
    hide Call, Good, Without;
    CallEvent(w, Delete(k, site));
  }

  lemma DeleteVia(w: World, x: Object, site: Site, t: Task)
    requires Good(w)
    requires (t.way == AsSchedule(false) && site == UnwantedSite)
             || (MayReplace(t, x, site) && Asked(w, Get(t.key), Got(x)))
    requires t.way == AsClass ==> UpdateRefused(BeforeRequest(w.trace), t.key)
    ensures var (v, r) := Call(w, Delete(t.key, site));
            && Brought(w, v, t) && Asked(v, Delete(t.key, site), r) && (r.Fail? || r == Done) && |w.trace| < |v.trace|
            && r != Fail(Conflict) && r != Fail(Invalid)
  {
    hide Call, Brought, Good, MayReplace, Without;
    DeleteEvent(w, t.key, site);
    CallEvent(w, Delete(t.key, site));
    if Asked(w, Get(t.key), Got(x)) {
      assert JustRead(Call(w, Delete(t.key, site)).0.trace, t.key, x);
    }
    RequestVia(w, Delete(t.key, site), t);
  }

  /** A creation after a deletion. */
  lemma RecreateVia(w: World, x: Object, site: Site, t: Task)
    requires Good(w) && Applicable(t) && MayReplace(t, x, site) && Asked(w, Get(t.key), Got(x))
    requires site == RecreateSite && (t.way == AsClass ==> UpdateRefused(BeforeRequest(w.trace), t.key))
    ensures var (v, r) := Call(w, Delete(t.key, site));
            var out := TryCreate(v, t.key, t.desired);
            && Brought(w, v, t) && r != Fail(Conflict) && (r.Fail? ==> Ends(v.trace, Some(r.error), t))
            && (!r.Fail? ==> Did(w, out, t) && out.err != Some(Conflict))
  {
    hide Call, Good, Via, Ends, Sends, UpdateRefused, Doing;
    var (v, r) := Call(w, Delete(t.key, site));
    DeleteVia(w, x, site, t);
    if r.Fail? {
      AskedEnds(v, Delete(t.key, site), r, ErrorOf(r), t);
    } else {
      assert Sends(t, t.desired) by { MutatedIsSent(t, t.desired); }
      CreateVia(v, t.desired, t);
      BroughtTransitive(w, v, Call(v, Create(t.key, t.desired)).0, t);
    }
  }

  // ---- Attempts and retries ----

  ghost predicate Did(w: World, out: Outcome, t: Task) {
    && Brought(w, out.w, t)
    && Mutated(StrategyOf(t.way), out.obj, t.desired) && Ends(out.w.trace, out.err, t)
    && (out.err.None? ==> t.key in out.w.s.objs)
  }

  /** Without drift, the templates of the stored set complete the desired one to what is stored. */
  lemma KeepsFixed(s: State, o: Object, x: Object)
    requires Sane(s) && Holds(s, ETCD_KEY, x)
    requires DriftFields(SetOf(x), SetOf(o)) == []
    ensures Merged(s, x, WithClaims(o, x)).fixed == x.fixed
  {
    hide ClaimsEqual;
    assert SaneObject(s, ETCD_KEY, x);
    assert SetOf(o).(claims := SetOf(x).claims) == SetOf(x);
  }

  lemma SelfSane(w: World)
    requires Good(w)
    ensures Sane(w.s)
  {
  }

  /** An undrifted set hands over templates equal to the desired ones. */
  lemma TakeOver(o: Object, x: Object, d: Object)
    requires Mutated(StatefulApply, o, d) && d.fixed.Set? && DriftFields(SetOf(x), SetOf(o)) == [] && x.rv > 0
    ensures Mutated(StatefulApply, WithClaims(o, x), d)
    ensures WithClaims(o, x) == WithClaims(d, x)
  {
    assert ClaimsEqual(SetOf(x).claims, SetOf(o).claims);
    ClaimsEqualEquivalence(SetOf(x).claims, SetOf(o).claims, SetOf(d).claims);
    ClaimsEqualEquivalence(SetOf(d).claims, SetOf(d).claims, SetOf(d).claims);
  }

  lemma StoredVersion(w: World, k: Key, x: Object)
    requires Good(w) && Holds(w.s, k, x)
    ensures x.rv > 0
  {
    assert SaneObject(w.s, k, x);
  }

  lemma ResolveSet(w: World, o: Object, x: Object, t: Task)
    requires Good(w) && Proper(t) && t.way == AsSet
    requires Mutated(StatefulApply, o, t.desired)
    requires Holds(w.s, ETCD_KEY, x) && Asked(w, Get(ETCD_KEY), Got(x))
    ensures Did(w, Resolve(StatefulApply, w, ETCD_KEY, o, x, t.uid), t)
  {
    hide Call, Brought, Good, Asked, Owned, DriftFields, Merged, Ends, Sends, Sane, ClaimsEqual;
    BroughtSelf(w, t);
    SelfSane(w);
    StoredVersion(w, ETCD_KEY, x);
    if o.rv != 0 {
      DriftUnchanged(SetOf(x), SetOf(o), SetOf(t.desired));
    }
    if DriftFields(SetOf(x), SetOf(o)) == [] {
      TakeOver(o, x, t.desired);
      KeepsFixed(w.s, o, x);
      UpdateVia(w, WithClaims(o, x), x, t);
    } else if Owned(x, t.uid) {
      var (v, r) := Call(w, Delete(ETCD_KEY, DriftSite));
      DeleteVia(w, x, DriftSite, t);
      AskedEnds(v, Delete(ETCD_KEY, DriftSite), r, Some(if r.Fail? then r.error else Drifted), t);
    } else {
      AskedEnds(w, Get(ETCD_KEY), Got(x), Some(NotManaged), t);
    }
  }

  lemma ResolveVia(w: World, o: Object, x: Object, t: Task)
    requires Good(w) && Applicable(t) && Proper(t) && t.way != AsNamespace
    requires Mutated(StrategyOf(t.way), o, t.desired)
    requires Holds(w.s, t.key, x) && Asked(w, Get(t.key), Got(x))
    ensures Did(w, Resolve(StrategyOf(t.way), w, t.key, o, x, t.uid), t)
  {
    hide Call, Brought, Good, Asked, Owned, DriftFields, Merged, WithClaims, ClaimsEqual, Ends, Sends;
    if t.way == AsSet {
      ResolveSet(w, o, x, t);
    } else if t.way == AsService && IpOf(x) != IpOf(o) {
      BroughtSelf(w, t);
      if Owned(x, t.uid) {
        RecreateVia(w, x, RecreateSite, t);
      } else {
        AskedEnds(w, Get(t.key), Got(x), Some(NotManaged), t);
      }
    } else {
      UpdateVia(w, o.(rv := x.rv), x, t);
    }
  }

  lemma {:induction false} RetryVia(w: World, o: Object, t: Task, tries: nat)
    requires Good(w) && Applicable(t) && Proper(t) && t.way != AsNamespace
    requires Mutated(StrategyOf(t.way), o, t.desired)
    ensures Did(w, Retry(StrategyOf(t.way), w, t.key, o, t.uid, tries), t)
    ensures |w.trace| < |Retry(StrategyOf(t.way), w, t.key, o, t.uid, tries).w.trace|
    decreases tries
  {
    hide Call, Resolve, Via, Good, Doing, Ends, Sends, Asked;
    var (v, r) := Call(w, Get(t.key));
    ReadVia(w, Get(t.key), t);
    assert Sends(t, o) by { MutatedIsSent(t, o); }
    var a := Attempt(StrategyOf(t.way), w, t.key, o, t.uid);
    if r.Got? {
      ResolveVia(v, o, r.obj, t);
      BroughtTransitive(w, v, a.w, t);
    } else if r == Fail(NotFound) {
      CreateVia(v, o, t);
      BroughtTransitive(w, v, a.w, t);
    } else {
      AskedEnds(v, Get(t.key), r, ErrorOf(r), t);
    }
    if a.err == Some(Conflict) && tries > 1 {
      RetryVia(a.w, a.obj, t, tries - 1);
      BroughtTransitive(w, a.w, Retry(StrategyOf(t.way), a.w, t.key, a.obj, t.uid, tries - 1).w, t);
    }
  }

  lemma ApplyVia(w: World, o: Object, t: Task)
    requires Good(w) && Applicable(t) && Proper(t) && t.way != AsNamespace && t.desired == OwnedBy(o, t.uid)
    ensures Did(w, ApplyObject(StrategyOf(t.way), w, t.key, o, t.uid), t)
    ensures |w.trace| < |ApplyObject(StrategyOf(t.way), w, t.key, o, t.uid).w.trace|
  {
    hide Good, Retry, Did;
    RetryVia(w, t.desired, t, MAX_TRIES);
  }

  // ---- Steps ----

  function ComponentOf(step: Step): Component {
    match step
    case Space(c) => c
    case Plain(c) => c
    case Definition(c) => c
    case Headless(c) => c
    case Healthy => EtcdSts
    case Stateful(c) => c
    case Backup => EtcdSchedule
    case Class(c) => c
  }

  predicate IsNamespace(c: Component) {
    c == OpenebsNs || c == MayastorNs
  }

  predicate IsClass(c: Component) {
    c in {LvmSc, HostpathSc, ZfsSc, RawfileSc, MayastorSc}
  }

  ghost function Desired(c: Component, inst: Instance): Object {
    if IsNamespace(c) then Build(c, inst.spec) else OwnedBy(Build(c, inst.spec), inst.uid)
  }

  function WayOf(c: Component, spec: Spec): Way {
    if IsNamespace(c) then AsNamespace
    else if c == EtcdSts then AsSet
    else if c == EtcdSvc then AsService
    else if c == EtcdSchedule then AsSchedule(ScheduleConfigured(spec))
    else if IsClass(c) then AsClass
    else AsPlain
  }

  ghost function TaskOf(c: Component, inst: Instance): Task {
    Task(KeyOf(c, inst.spec), Desired(c, inst), WayOf(c, inst.spec), inst.uid)
  }

  lemma TaskProper(c: Component, inst: Instance)
    ensures Proper(TaskOf(c, inst))
  {
    hide LabelsOf, LabelsFor, EtcdSet;
  }

  /** Each plan uses for each component the strategy made for it. */
  predicate Fits(step: Step) {
    match step
    case Space(c) => IsNamespace(c)
    case Plain(c) => Ordinary(c)
    case Definition(c) => Ordinary(c)
    case Headless(c) => c == EtcdSvc
    case Stateful(c) => c == EtcdSts
    case Class(c) => IsClass(c)
    case _ => true
  }

  predicate Ordinary(c: Component) {
    !IsNamespace(c) && c != EtcdSts && c != EtcdSvc && c != EtcdSchedule && !IsClass(c)
  }

  ghost predicate AllFit(plan: seq<Step>) {
    forall i | 0 <= i < |plan| :: Fits(plan[i])
  }

  lemma LocalPlansFit()
    ensures AllFit(LvmPlan()) && AllFit(HostpathPlan()) && AllFit(RawfilePlan())
  {
  }

  lemma ZfsPlanFits()
    ensures AllFit(ZfsPlan())
  {
  }

  lemma EtcdPlanFits()
    ensures AllFit(EtcdPlan())
  {
  }

  lemma ServicePlanFits()
    ensures AllFit(ControlPlan()) && AllFit(NodePlan())
  {
  }

  lemma PlansFit(e: Engine)
    ensures AllFit(Plan(e))
  {
    hide LvmPlan, ZfsPlan, HostpathPlan, RawfilePlan, EtcdPlan, ControlPlan, NodePlan;
    LocalPlansFit();
    ZfsPlanFits();
    EtcdPlanFits();
    ServicePlanFits();
  }

  /** After a refused update and a read, the request before the read was the refused one. */
  lemma RefusedBefore(w: World, t: Task)
    requires Good(w) && Ends(w.trace, Some(Invalid), t)
    ensures UpdateRefused(BeforeRequest(Call(w, Get(t.key)).0.trace), t.key)
  {
    hide Call, Good;
    CallEvent(w, Get(t.key));
  }

  lemma ClassVia(w: World, o: Object, t: Task)
    requires Good(w) && Proper(t) && t.way == AsClass && t.desired == OwnedBy(o, t.uid)
    ensures var (v, e) := ApplyClass(w, t.key, o, t.uid);
            && Brought(w, v, t) && Ends(v.trace, e, t) && |w.trace| < |v.trace|
            && (e.None? ==> t.key in v.s.objs)
  {
    hide Call, Via, Good, Retry, Doing, Ends;
    var a := ApplyObject(PlainApply, w, t.key, o, t.uid);
    ApplyVia(w, o, t);
    if a.err == Some(Invalid) {
      var (v, r) := Call(a.w, Get(t.key));
      ReadVia(a.w, Get(t.key), t);
      BroughtTransitive(w, a.w, v, t);
      if r.Fail? {
        AskedEnds(v, Get(t.key), r, ErrorOf(r), t);
      } else {
        RefusedBefore(a.w, t);
        RecreateVia(v, r.obj, RecreateSite, t);
        var (u, d) := Call(v, Delete(t.key, RecreateSite));
        BroughtTransitive(w, v, u, t);
        if !d.Fail? {
          BroughtTransitive(w, v, TryCreate(u, t.key, t.desired).w, t);
        }
      }
    }
  }

  lemma DynamicVia(w: World, o: Object, t: Task)
    requires Good(w) && Applicable(t) && Proper(t) && StrategyOf(t.way) == PlainApply && t.way != AsNamespace
    requires t.desired == OwnedBy(o, t.uid)
    ensures var (v, e) := ApplyDynamic(w, t.key, o, t.uid);
            && Brought(w, v, t) && Ends(v.trace, e, t) && |w.trace| < |v.trace|
            && (e.None? ==> t.key in v.s.objs)
  {
    hide Call, Via, Good, Ends, Sends, Asked, Doing;
    var (v, r) := Call(w, Get(t.key));
    ReadVia(w, Get(t.key), t);
    assert Sends(t, t.desired) by { MutatedIsSent(t, t.desired); }
    if r.Got? {
      UpdateVia(v, t.desired.(rv := r.obj.rv), r.obj, t);
      BroughtTransitive(w, v, TryUpdate(v, t.key, t.desired.(rv := r.obj.rv)).w, t);
    } else if r == Fail(NotFound) {
      CreateVia(v, t.desired, t);
      BroughtTransitive(w, v, TryCreate(v, t.key, t.desired).w, t);
    } else {
      AskedEnds(v, Get(t.key), r, ErrorOf(r), t);
    }
  }

  lemma SpaceVia(w: World, t: Task)
    requires Good(w) && Proper(t) && t.way == AsNamespace
    ensures var (v, e) := EnsureNamespace(w, t.key, t.desired);
            && Brought(w, v, t) && Ends(v.trace, e, t) && |w.trace| < |v.trace|
            && (e.None? ==> t.key in v.s.objs)
  {
    hide Call, Via, Good, PodSecurity, Ends, Sends, Asked, Doing;
    var (v, r) := Call(w, Get(t.key));
    ReadVia(w, Get(t.key), t);
    assert Sends(t, t.desired) by { MutatedIsSent(t, t.desired); }
    if r.Got? {
      var x := r.obj.(labels := r.obj.labels + PodSecurity());
      ReplacementIsSent(t, r.obj);
      if x == r.obj {
        AskedEnds(v, Get(t.key), r, None, t);
      } else {
        UpdateVia(v, x, r.obj, t);
        BroughtTransitive(w, v, TryUpdate(v, t.key, x).w, t);
      }
    } else if r == Fail(NotFound) {
      CreateVia(v, t.desired, t);
      BroughtTransitive(w, v, TryCreate(v, t.key, t.desired).w, t);
    } else {
      AskedEnds(v, Get(t.key), r, ErrorOf(r), t);
    }
  }

  lemma HealthVia(w: World, t: Task)
    requires Good(w) && Proper(t) && t.way == AsSet
    ensures var (v, e) := HealthCheck(w);
            Brought(w, v, t) && (e.None? || Ends(v.trace, e, t)) && |w.trace| < |v.trace|
  {
    hide Call, Via, Good, Doing, Ends, Asked;
    var (v, r) := Call(w, Get(ETCD_KEY));
    ReadVia(w, Get(ETCD_KEY), t);
    if r.Got? && r.obj.ready > 0 {
      var (u, p) := Call(v, Probe);
      ReadVia(v, Probe, t);
      BroughtTransitive(w, v, u, t);
      if p.Fail? {
        AskedEnds(u, Probe, p, ErrorOf(p), t);
      }
    } else if r.Fail? {
      AskedEnds(v, Get(ETCD_KEY), r, ErrorOf(r), t);
    }
  }

  predicate Creates(step: Step) {
    !step.Healthy? && !step.Backup?
  }

  lemma ScheduleTask(inst: Instance)
    ensures TaskOf(EtcdSchedule, inst) == Task(KeyOf(EtcdSchedule, inst.spec),
                                               OwnedBy(Build(EtcdSchedule, inst.spec), inst.uid),
                                               AsSchedule(ScheduleConfigured(inst.spec)), inst.uid)
  {
    hide KeyOf, Build, ScheduleConfigured;
  }

  lemma BackupVia(w: World, inst: Instance)
    requires Good(w)
    ensures var (v, e) := ReconcileSchedule(w, inst);
            && Brought(w, v, TaskOf(EtcdSchedule, inst))
            && Ends(v.trace, e, TaskOf(EtcdSchedule, inst)) && |w.trace| < |v.trace|
  {
    hide Brought, Good, Build, KeyOf, ApplyDynamic, Proper, Call, Ends, ScheduleConfigured, TaskOf, Asked;
    var t := TaskOf(EtcdSchedule, inst);
    TaskProper(EtcdSchedule, inst);
    ScheduleTask(inst);
    if ScheduleConfigured(inst.spec) {
      var (v, e) := ApplyDynamic(w, t.key, Build(EtcdSchedule, inst.spec), inst.uid);
      DynamicVia(w, Build(EtcdSchedule, inst.spec), t);
      if e == Some(NoMatch) {
        SkippedEnds(v.trace, t);
      }
    } else {
      var (v, r) := Call(w, Delete(t.key, UnwantedSite));
      DeleteVia(w, t.desired, UnwantedSite, t);
      AskedEnds(v, Delete(t.key, UnwantedSite), r,
                if r.Fail? && r.error != NotFound && r.error != NoMatch then Some(r.error) else None, t);
    }
  }

  /** For the schedule a missing kind is no failure. */
  lemma SkippedEnds(h: History, t: Task)
    requires Ends(h, Some(NoMatch), t) && t.way == AsSchedule(true)
    ensures Ends(h, None, t)
  {
    hide Sends;
  }

  lemma StepVia(step: Step, w: World, inst: Instance)
    requires Good(w) && Fits(step)
    ensures var (v, e) := RunStep(step, w, inst);
            && Brought(w, v, TaskOf(ComponentOf(step), inst))
            && |w.trace| < |v.trace|
            && ((step.Healthy? && e.None?) || Ends(v.trace, e, TaskOf(ComponentOf(step), inst)))
            && (e.None? && Creates(step) ==> KeyOf(ComponentOf(step), inst.spec) in v.s.objs)
  {
    hide Brought, Good, Build, KeyOf, ApplyObject, ApplyClass, ApplyDynamic, HealthCheck, Proper, Call, Mutated, Ends,
         Strategies.EnsureNamespace, ReconcileSchedule, ScheduleConfigured;
    var t := TaskOf(ComponentOf(step), inst);
    var o := Build(ComponentOf(step), inst.spec);
    TaskProper(ComponentOf(step), inst);
    match step
    case Space(c) => SpaceVia(w, t);
    case Plain(c) => ApplyVia(w, o, t);
    case Definition(c) => DynamicVia(w, o, t);
    case Headless(c) => ApplyVia(w, o, t);
    case Healthy => HealthVia(w, t);
    case Stateful(c) => ApplyVia(w, o, t);
    case Backup => BackupVia(w, inst);
    case Class(c) => ClassVia(w, o, t);
  }
}
