/** Whose a stored object is, and when a stored set differs from a wanted one, said in the fields of the
    objects themselves; and when the sets of two specs do. */
module Drift {
  import opened Wrappers
  import opened Objects
  import opened Api
  import opened Components
  import opened Strategies

  // ---- Whose an object is ----

  /** The first controller reference is that of the instance. */
  predicate Controls(owners: seq<OwnerRef>, uid: nat) {
    exists i :: 0 <= i < |owners| && owners[i] == OwnerRef(uid, true) && forall j | 0 <= j < i :: !owners[j].controller
  }

  predicate Labelled(x: Object) {
    MANAGED_BY in x.labels && x.labels[MANAGED_BY] == OPERATOR_NAME
  }

  lemma {:induction false} ControllerIsFirst(owners: seq<OwnerRef>, uid: nat)
    ensures ControlledBy(owners, uid) <==> Controls(owners, uid)
    decreases |owners|
  {
    if owners != [] && !owners[0].controller {
      ControllerIsFirst(owners[1..], uid);
      if Controls(owners, uid) {
        var i :| 0 <= i < |owners| && owners[i] == OwnerRef(uid, true)
                 && forall j | 0 <= j < i :: !owners[j].controller;
        assert owners[1..][i - 1] == OwnerRef(uid, true);
      }
      if Controls(owners[1..], uid) {
        var i :| 0 <= i < |owners[1..]| && owners[1..][i] == OwnerRef(uid, true)
                 && forall j | 0 <= j < i :: !owners[1..][j].controller;
        assert owners[i + 1] == OwnerRef(uid, true);
        assert forall j | 0 < j < i + 1 :: owners[j] == owners[1..][j - 1];
      }
    }
  }

  /** The operator takes as its own what its instance controls and what carries its label. */
  lemma {:induction false} OwnedMeans(x: Object, uid: nat)
    ensures Owned(x, uid) <==> Controls(x.owners, uid) || Labelled(x)
  {
    ControllerIsFirst(x.owners, uid);
  }

  // ---- When two sets differ ----

  /** The templates ask for different volumes, or under different names. */
  predicate ClaimDiffers(a: Claim, b: Claim) {
    || a.name != b.name || a.spec.storage.Bytes() != b.spec.storage.Bytes()
    || a.spec.className != b.spec.className || a.spec.mode != b.spec.mode
  }

  predicate ClaimsDiffer(a: seq<Claim>, b: seq<Claim>) {
    |a| != |b| || exists i :: 0 <= i < |a| && ClaimDiffers(a[i], b[i])
  }

  predicate SetsDiffer(a: SetSpec, b: SetSpec) {
    a.serviceName != b.serviceName || a.management != b.management || a.selector != b.selector
    || ClaimsDiffer(a.claims, b.claims)
  }

  /** Templates are equal when nothing but type header, status and metadata other than the name differs. */
  lemma ClaimsEqualMeans(a: seq<Claim>, b: seq<Claim>)
    ensures ClaimsEqual(a, b) <==> !ClaimsDiffer(a, b)
  {
    if |a| == |b| {
      forall i | 0 <= i < |a|
        ensures SemanticallyEqual(NormalClaim(a[i]), NormalClaim(b[i])) <==> !ClaimDiffers(a[i], b[i])
      {
      }
    }
  }

  /** A field is reported exactly when it differs. */
  lemma DriftFieldsAre(x: SetSpec, d: SetSpec)
    ensures ServiceNameField in DriftFields(x, d) <==> x.serviceName != d.serviceName
    ensures ManagementField in DriftFields(x, d) <==> x.management != d.management
    ensures SelectorField in DriftFields(x, d) <==> x.selector != d.selector
    ensures ClaimsField in DriftFields(x, d) <==> ClaimsDiffer(x.claims, d.claims)
    ensures DriftFields(x, d) == [] <==> !SetsDiffer(x, d)
  {
    hide ClaimsEqual, ClaimsDiffer;
    ClaimsEqualMeans(x.claims, d.claims);
  }

  /** Sizes are compared as numbers of bytes. */
  lemma SizesAreBytes(n: nat)
    ensures Quantity(n, One).Bytes() == n
    ensures Quantity(n, Ki).Bytes() == Quantity(1024 * n, One).Bytes()
    ensures Quantity(n, Mi).Bytes() == Quantity(1024 * n, Ki).Bytes()
    ensures Quantity(n, Gi).Bytes() == Quantity(1024 * n, Mi).Bytes()
    ensures Quantity(n, Ti).Bytes() == Quantity(1024 * n, Gi).Bytes()
    ensures Quantity(n, K).Bytes() == Quantity(1000 * n, One).Bytes()
    ensures Quantity(n, M).Bytes() == Quantity(1000 * n, K).Bytes()
    ensures Quantity(n, G).Bytes() == Quantity(1000 * n, M).Bytes()
    ensures Quantity(n, T).Bytes() == Quantity(1000 * n, G).Bytes()
  {
  }

  // ---- When two specs disagree about the etcd set ----

  /** The etcd set of a spec with the server's defaults filled in. */
  function StoredSet(spec: Spec): SetSpec {
    EtcdSet(spec).(claims := DefaultClaims(EtcdSet(spec).claims))
  }

  /** The effective storage size and storage class, defaults included. */
  predicate SameStorage(s: Spec, t: Spec) {
    EtcdSize(s).Bytes() == EtcdSize(t).Bytes() && EtcdClass(s) == EtcdClass(t)
  }

  /** The stored set of one spec drifts from the set built from another exactly when the effective
      size or the effective class differs; and then it is the claim templates that drifted. */
  lemma DriftIffStorageDiffers(s: Spec, t: Spec)
    ensures DriftFields(StoredSet(s), EtcdSet(t)) == if SameStorage(s, t) then [] else [ClaimsField]
  {
    hide EtcdSize, EtcdClass;
    var (stored, wanted) := (StoredSet(s).claims, EtcdSet(t).claims);
    assert ClaimsEqual(stored, wanted) <==> SemanticallyEqual(NormalClaim(stored[0]), NormalClaim(wanted[0]));
    assert NormalClaim(stored[0]).spec == EtcdSet(s).claims[0].spec;
  }

  /** A builder that left the volume mode to the server would see drift in the very set it made. */
  lemma ModeMustBeWritten(s: Spec)
    ensures var claim := EtcdSet(s).claims[0];
            var bare := EtcdSet(s).(claims := [claim.(spec := claim.spec.(mode := None))]);
            DriftFields(bare.(claims := DefaultClaims(bare.claims)), bare) == [ClaimsField]
  {
    hide EtcdSize, EtcdClass;
    var claim := EtcdSet(s).claims[0];
    var bare := [claim.(spec := claim.spec.(mode := None))];
    assert !SemanticallyEqual(NormalClaim(DefaultClaims(bare)[0]), NormalClaim(bare[0]));
  }

  /** The stored etcd set drifts from the wanted one. */
  ghost predicate Drifting(s: State, d: SetSpec) {
    ETCD_KEY in s.objs && DriftFields(SetOf(s.objs[ETCD_KEY]), d) != []
  }
}
