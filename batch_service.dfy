/** The batch operations of src/services/batchService.ts. Every function there
    builds new values with `map`, `filter`, `find` and spreads; nothing is
    updated in place. Identifiers and clock readings, which the source draws
    from `Math.random` and `new Date()`, are parameters here. */
module BatchService {
  import opened Types
  import opened Seqs

  /** `b` is the first batch of the list that carries `batchId`. */
  ghost predicate FoundAt(batches: seq<Batch>, b: Batch, batchId: string)
  {
    exists i :: 0 <= i < |batches| && batches[i] == b && b.id == batchId &&
      (forall j :: 0 <= j < i ==> batches[j].id != batchId)
  }

  /** `getBatchById`: the first batch carrying `batchId`, if any. */
  function GetBatchById(batches: seq<Batch>, batchId: string): (r: Option<Batch>)
    ensures r.None? <==> forall i :: 0 <= i < |batches| ==> batches[i].id != batchId
    ensures r.Some? ==> FoundAt(batches, r.value, batchId)
  {
    if batches == [] then None
    else if batches[0].id == batchId then Some(batches[0])
    else
      var r := GetBatchById(batches[1..], batchId);
      assert r.Some? ==> FoundAt(batches, r.value, batchId) by {
        if r.Some? {
          var k :| 0 <= k < |batches[1..]| && batches[1..][k] == r.value && r.value.id == batchId &&
            forall j :: 0 <= j < k ==> batches[1..][j].id != batchId;
          forall j | 0 <= j < k + 1 ensures batches[j].id != batchId {
            if j > 0 { assert batches[j] == batches[1..][j - 1]; }
          }
          assert batches[k + 1] == r.value;
        }
      }
      r
  }

  /** No two signatures of `sigs` come from the same role. */
  ghost predicate DistinctRoles(sigs: seq<Signature>)
  {
    forall i, j :: 0 <= i < j < |sigs| ==> sigs[i].role != sigs[j].role
  }

  /** The status an unflagged batch carries when it has `n` signatures. */
  function StatusForCount(n: nat): Status
  {
    if n >= 4 then Delivered else if n >= 2 then InTransit else Registered
  }

  /** The lifecycle invariant: the creating manufacturer signed first, every
      role signed at most once, and unless the batch was reported its status
      is the one its signature count gives. */
  ghost predicate WellFormed(b: Batch)
  {
    && |b.signatures| >= 1
    && b.signatures[0].role == Manufacturer
    && DistinctRoles(b.signatures)
    && (b.status == Flagged || b.status == StatusForCount(|b.signatures|))
  }

  ghost predicate AllWellFormed(batches: seq<Batch>)
  {
    forall i :: 0 <= i < |batches| ==> WellFormed(batches[i])
  }

  /** `createBatch`: the descriptive fields as given, one signature by the
      creating manufacturer, status `registered`. Nothing is validated. */
  function CreateBatch(data: BatchData, userName: string, organization: Option<string>, idSuffix: string, now: string): (b: Batch)
    ensures b.id == "BATCH-" + idSuffix && b.createdAt == now
    ensures DataOf(b) == data
    ensures |b.signatures| == 1
    ensures b.signatures[0].role == Manufacturer && b.signatures[0].userName == userName
    ensures b.signatures[0].isVerified && b.signatures[0].timestamp == now
    ensures b.signatures[0].organizationName == OrganizationOrDefault(organization)
    ensures b.status == Registered
    ensures WellFormed(b)
  {
    Batch(
      "BATCH-" + idSuffix,
      data.medicineName, data.manufacturingDate, data.expiryDate, data.quantity, data.manufacturerName,
      now,
      [Signature(Manufacturer, now, OrganizationOrDefault(organization), userName, true)],
      Registered)
  }

  /** What `signBatchById` does to one batch: a batch with another id, or one
      `role` has already signed, is returned as it is; otherwise a signature is
      appended and the status recomputed from the new count, whatever it was
      before (a flagged batch included). */
  function SignIfMatching(b: Batch, batchId: string, role: Role, userName: string, organization: Option<string>, now: string): (r: Batch)
    ensures b.id != batchId || HasSigned(b, role) ==> r == b
    ensures b.id == batchId && !HasSigned(b, role) ==>
      && r.signatures == b.signatures + [Signature(role, now, OrganizationOrDefault(organization), userName, true)]
      && r.status == (if |b.signatures| + 1 >= 4 then Delivered else InTransit)
    ensures r.(signatures := b.signatures, status := b.status) == b
    ensures HasSigned(r, role) <==> b.id == batchId || HasSigned(b, role)
  {
    if b.id == batchId && !HasSigned(b, role) then
      var signature := Signature(role, now, OrganizationOrDefault(organization), userName, true);
      var r := b.(signatures := b.signatures + [signature],
                  status := if |b.signatures| + 1 >= 4 then Delivered else InTransit);
      assert signature in r.signatures;
      r
    else
      b
  }

  /** The record a signing builds in place for a batch it changes is the
      one SignIfMatching returns. */
  lemma SignInPlace(b: Batch, batchId: string, role: Role, userName: string, organization: Option<string>, now: string)
    requires b.id == batchId && !HasSigned(b, role)
    ensures b.(signatures := b.signatures + [Signature(role, now, OrganizationOrDefault(organization), userName, true)],
               status := if |b.signatures| + 1 >= 4 then Delivered else InTransit)
         == SignIfMatching(b, batchId, role, userName, organization, now)
  {
  }

  /** `signBatchById`: every batch carrying `batchId` is signed by `role`
      (see SignIfMatching); the rest of the list, its length and its order
      are kept. */
  function SignBatchById(batches: seq<Batch>, batchId: string, role: Role, userName: string, organization: Option<string>, now: string): (r: seq<Batch>)
    ensures |r| == |batches|
    ensures forall i :: 0 <= i < |batches| && batches[i].id != batchId ==> r[i] == batches[i]
    ensures forall i :: 0 <= i < |batches| && batches[i].id == batchId ==>
      r[i] == SignIfMatching(batches[i], batchId, role, userName, organization, now)
  {
    Map(batches, b => SignIfMatching(b, batchId, role, userName, organization, now))
  }

  /** Signing a list one batch longer, as a loop over the list does. */
  lemma SignBatchByIdSnoc(batches: seq<Batch>, b: Batch, batchId: string, role: Role,
                          userName: string, organization: Option<string>, now: string)
    ensures SignBatchById(batches + [b], batchId, role, userName, organization, now)
         == SignBatchById(batches, batchId, role, userName, organization, now)
            + [SignIfMatching(b, batchId, role, userName, organization, now)]
  {
    var f := (b: Batch) => SignIfMatching(b, batchId, role, userName, organization, now);
    assert (batches + [b])[..|batches|] == batches;
    MapPrefix(batches + [b], |batches|, f);
  }

  /** `reportFakeBatchById`: every batch carrying `batchId` becomes `flagged`,
      whatever its status was; nothing else changes. */
  function ReportFakeBatchById(batches: seq<Batch>, batchId: string): (r: seq<Batch>)
    ensures |r| == |batches|
    ensures forall i :: 0 <= i < |batches| ==>
      r[i].status == (if batches[i].id == batchId then Flagged else batches[i].status)
    ensures forall i :: 0 <= i < |batches| ==> r[i].(status := batches[i].status) == batches[i]
  {
    Map(batches, (b: Batch) => if b.id == batchId then b.(status := Flagged) else b)
  }

  /** Reporting on a list one batch longer, as a loop over the list does. */
  lemma ReportFakeBatchByIdSnoc(batches: seq<Batch>, b: Batch, batchId: string)
    ensures ReportFakeBatchById(batches + [b], batchId)
         == ReportFakeBatchById(batches, batchId) + [if b.id == batchId then b.(status := Flagged) else b]
  {
    var f := (b: Batch) => if b.id == batchId then b.(status := Flagged) else b;
    assert (batches + [b])[..|batches|] == batches;
    MapPrefix(batches + [b], |batches|, f);
  }

  /** `getVerifiedBatchesByRole`: the batches that await the given role. No
      role gives nothing; a manufacturer with a non-empty name gets the
      batches it made; a manufacturer without one gets nothing; any other role
      gets the batches its predecessor signed and it has not, in list order. */
  function GetVerifiedBatchesByRole(batches: seq<Batch>, role: Option<Role>, userName: Option<string>): (r: seq<Batch>)
    ensures IsSubseq(r, batches) && |r| <= |batches|
    ensures role.None? ==> r == []
    ensures role == Some(Manufacturer) && (userName.None? || userName.value == "") ==> r == []
    ensures role == Some(Manufacturer) && userName.Some? && userName.value != "" ==>
      && |r| == Count(batches, MadeBy(userName.value))
      && (forall i :: 0 <= i < |r| ==> r[i].manufacturerName == userName.value)
      && (forall i :: 0 <= i < |batches| ==> (batches[i] in r <==> batches[i].manufacturerName == userName.value))
    ensures role.Some? && role.value != Manufacturer ==>
      && |r| == Count(batches, Awaiting(role.value))
      && (forall i :: 0 <= i < |r| ==> AwaitsRole(r[i], role.value))
      && (forall i :: 0 <= i < |batches| ==> (batches[i] in r <==> AwaitsRole(batches[i], role.value)))
  {
    if role.None? then []
    else if role.value == Manufacturer && userName.Some? && userName.value != "" then
      var p := (b: Batch) => b.manufacturerName == userName.value;
      CountCongruent(batches, p, MadeBy(userName.value));
      var r := Filter(batches, p);
      SubseqIsShorter(r, batches);
      r
    else
      var userRoleIndex := IndexOf(role.value);
      if userRoleIndex <= 0 then []
      else
        var previousRole := RoleOrder[userRoleIndex - 1];
        var p := (b: Batch) => HasSigned(b, previousRole) && !HasSigned(b, role.value);
        assert Predecessor(role.value) == Some(previousRole);
        CountCongruent(batches, p, Awaiting(role.value));
        var r := Filter(batches, p);
        SubseqIsShorter(r, batches);
        r
  }

  /** Signing one batch keeps its lifecycle invariant: the new role had not
      signed, and the new status is the one the new count gives. */
  lemma SignIfMatchingPreservesWellFormed(b: Batch, batchId: string, role: Role,
                                          userName: string, organization: Option<string>, now: string)
    requires WellFormed(b)
    ensures WellFormed(SignIfMatching(b, batchId, role, userName, organization, now))
  {
    var r := SignIfMatching(b, batchId, role, userName, organization, now);
    if b.id == batchId && !HasSigned(b, role) {
      forall i, j | 0 <= i < j < |r.signatures| ensures r.signatures[i].role != r.signatures[j].role {
        if j == |b.signatures| {
          assert r.signatures[i] in b.signatures;
        }
      }
    }
  }

  /** Signing keeps the lifecycle invariant of every batch in the list. */
  lemma SignPreservesWellFormed(batches: seq<Batch>, batchId: string, role: Role,
                                userName: string, organization: Option<string>, now: string)
    requires AllWellFormed(batches)
    ensures AllWellFormed(SignBatchById(batches, batchId, role, userName, organization, now))
  {
    var r := SignBatchById(batches, batchId, role, userName, organization, now);
    forall i | 0 <= i < |r| ensures WellFormed(r[i]) {
      assert r[i] == SignIfMatching(batches[i], batchId, role, userName, organization, now);
      SignIfMatchingPreservesWellFormed(batches[i], batchId, role, userName, organization, now);
    }
  }

  /** Reporting keeps the lifecycle invariant of every batch in the list. */
  lemma ReportPreservesWellFormed(batches: seq<Batch>, batchId: string)
    requires AllWellFormed(batches)
    ensures AllWellFormed(ReportFakeBatchById(batches, batchId))
  {
    var r := ReportFakeBatchById(batches, batchId);
    forall i | 0 <= i < |r| ensures WellFormed(r[i]) {
      assert r[i].(status := batches[i].status) == batches[i];
    }
  }

  /** An id no batch carries leaves the list as it is. */
  lemma SignUnknownId(batches: seq<Batch>, batchId: string, role: Role,
                      userName: string, organization: Option<string>, now: string)
    requires forall i :: 0 <= i < |batches| ==> batches[i].id != batchId
    ensures SignBatchById(batches, batchId, role, userName, organization, now) == batches
  {
  }

  /** Signing twice with the same role is signing once: the second call finds
      the role among the signatures of every batch it targets. */
  lemma SignIdempotent(batches: seq<Batch>, batchId: string, role: Role,
                       userName: string, organization: Option<string>, now: string,
                       userName': string, organization': Option<string>, now': string)
    ensures var once := SignBatchById(batches, batchId, role, userName, organization, now);
      SignBatchById(once, batchId, role, userName', organization', now') == once
  {
    var once := SignBatchById(batches, batchId, role, userName, organization, now);
    var twice := SignBatchById(once, batchId, role, userName', organization', now');
    forall i | 0 <= i < |once| ensures twice[i] == once[i] {
      if once[i].id == batchId {
        assert HasSigned(once[i], role);
      }
    }
  }

  /** Reporting twice is reporting once. */
  lemma ReportIdempotent(batches: seq<Batch>, batchId: string)
    ensures ReportFakeBatchById(ReportFakeBatchById(batches, batchId), batchId) == ReportFakeBatchById(batches, batchId)
  {
    var once := ReportFakeBatchById(batches, batchId);
    var twice := ReportFakeBatchById(once, batchId);
    forall i | 0 <= i < |once| ensures twice[i] == once[i] {
      assert twice[i].(status := once[i].status) == once[i];
    }
  }

  /** An id no batch carries leaves the list as it is. */
  lemma ReportUnknownId(batches: seq<Batch>, batchId: string)
    requires forall i :: 0 <= i < |batches| ==> batches[i].id != batchId
    ensures ReportFakeBatchById(batches, batchId) == batches
  {
    var r := ReportFakeBatchById(batches, batchId);
    forall i | 0 <= i < |batches| ensures r[i] == batches[i] {
      assert r[i].(status := batches[i].status) == batches[i];
    }
  }

  /** For a batch that has not been reported, the status says exactly how
      many signatures it has. */
  lemma StatusReflectsCount(b: Batch)
    requires WellFormed(b) && b.status != Flagged
    ensures b.status == Registered <==> |b.signatures| == 1
    ensures b.status == InTransit <==> 2 <= |b.signatures| <= 3
    ensures b.status == Delivered <==> |b.signatures| >= 4
  {
  }

  /** The roles that have signed. */
  function RolesOf(sigs: seq<Signature>): (roles: set<Role>)
    ensures forall i :: 0 <= i < |sigs| ==> sigs[i].role in roles
    ensures forall r :: r in roles ==> exists i :: 0 <= i < |sigs| && sigs[i].role == r
  {
    if sigs == [] then {} else {sigs[0].role} + RolesOf(sigs[1..])
  }

  lemma {:induction false} DistinctRolesCount(sigs: seq<Signature>)
    requires DistinctRoles(sigs)
    ensures |RolesOf(sigs)| == |sigs|
  {
    if sigs != [] {
      DistinctRolesCount(sigs[1..]);
      forall i | 0 <= i < |sigs[1..]| ensures sigs[1..][i].role != sigs[0].role {
        assert sigs[1..][i] == sigs[i + 1];
      }
      assert sigs[0].role !in RolesOf(sigs[1..]);
    }
  }

  /** There are five roles and each signs at most once, so no batch ever
      carries more than five signatures. */
  lemma AtMostFiveSignatures(b: Batch)
    requires WellFormed(b)
    ensures |b.signatures| <= 5
  {
    DistinctAtMostFive(b.signatures);
  }

  lemma DistinctAtMostFive(sigs: seq<Signature>)
    requires DistinctRoles(sigs)
    ensures |sigs| <= 5
  {
    DistinctRolesCount(sigs);
    var all := {Manufacturer, Wholesaler, Distributor, Retailer, Consumer};
    assert RolesOf(sigs) <= all by {
      forall r | r in RolesOf(sigs) ensures r in all {
        match r
        case Manufacturer =>
        case Wholesaler =>
        case Distributor =>
        case Retailer =>
        case Consumer =>
      }
    }
    SubsetCardinality(RolesOf(sigs), all);
  }

  lemma {:induction false} SubsetCardinality<T>(a: set<T>, b: set<T>)
    requires a <= b
    ensures |a| <= |b|
  {
    if a != {} {
      var x :| x in a;
      SubsetCardinality(a - {x}, b - {x});
    }
  }

  /** One step of the store's history: registering a batch (appended to the
      list, as the provider does), signing, or reporting. */
  datatype Action =
    | Create(data: BatchData, userName: string, organization: Option<string>, idSuffix: string, now: string)
    | Sign(batchId: string, role: Role, userName: string, organization: Option<string>, now: string)
    | Report(batchId: string)

  function Apply(batches: seq<Batch>, a: Action): seq<Batch>
  {
    match a
    case Create(data, userName, organization, idSuffix, now) =>
      batches + [CreateBatch(data, userName, organization, idSuffix, now)]
    case Sign(batchId, role, userName, organization, now) =>
      SignBatchById(batches, batchId, role, userName, organization, now)
    case Report(batchId) =>
      ReportFakeBatchById(batches, batchId)
  }

  function Run(batches: seq<Batch>, actions: seq<Action>): seq<Batch>
    decreases |actions|
  {
    if actions == [] then batches else Run(Apply(batches, actions[0]), actions[1..])
  }

  /** Whatever sequence of registrations, signatures and reports a store
      goes through, starting empty, every batch in it keeps the lifecycle
      invariant. */
  lemma {:induction false} RunPreservesWellFormed(batches: seq<Batch>, actions: seq<Action>)
    requires AllWellFormed(batches)
    ensures AllWellFormed(Run(batches, actions))
    decreases |actions|
  {
    if actions != [] {
      var next := Apply(batches, actions[0]);
      match actions[0] {
        case Create(_, _, _, _, _) =>
        case Sign(batchId, role, userName, organization, now) =>
          SignPreservesWellFormed(batches, batchId, role, userName, organization, now);
        case Report(batchId) =>
          ReportPreservesWellFormed(batches, batchId);
      }
      RunPreservesWellFormed(next, actions[1..]);
    }
  }

  /** Signing is not refused for a reported batch: a new role's signature
      takes it out of `flagged` again. */
  lemma SigningUnflags(b: Batch, role: Role, userName: string, organization: Option<string>, now: string)
    requires b.status == Flagged && !HasSigned(b, role)
    ensures SignIfMatching(b, b.id, role, userName, organization, now).status in {InTransit, Delivered}
  {
  }

  /** A batch registered by a manufacturer and signed by a distributor, a
      wholesaler (no order is checked when signing) and a retailer, then
      reported; the distributor's second signature changes nothing. */
  lemma Scenario(data: BatchData)
    ensures
      var b0 := [CreateBatch(data, "Alice", Some("Acme"), "M1", "t0")];
      var b1 := SignBatchById(b0, "BATCH-M1", Distributor, "Bob", None, "t1");
      var b2 := SignBatchById(b1, "BATCH-M1", Distributor, "Bob", None, "t2");
      var b3 := SignBatchById(b2, "BATCH-M1", Wholesaler, "Carl", None, "t3");
      var b4 := SignBatchById(b3, "BATCH-M1", Retailer, "Dana", None, "t4");
      var b5 := ReportFakeBatchById(b4, "BATCH-M1");
      && b0[0].status == Registered && |b0[0].signatures| == 1
      && b1[0].status == InTransit && |b1[0].signatures| == 2
      && b2 == b1
      && b3[0].status == InTransit && |b3[0].signatures| == 3
      && b4[0].status == Delivered && |b4[0].signatures| == 4
      && b5[0].status == Flagged && b5[0].signatures == b4[0].signatures
  {
    var b0 := [CreateBatch(data, "Alice", Some("Acme"), "M1", "t0")];
    var b1 := SignBatchById(b0, "BATCH-M1", Distributor, "Bob", None, "t1");
    assert HasSigned(b1[0], Distributor);
    SignIdempotent(b0, "BATCH-M1", Distributor, "Bob", None, "t1", "Bob", None, "t2");
    var b3 := SignBatchById(b1, "BATCH-M1", Wholesaler, "Carl", None, "t3");
    assert !HasSigned(b1[0], Wholesaler) by {
      assert forall s :: s in b1[0].signatures ==> s.role in {Manufacturer, Distributor};
    }
    assert !HasSigned(b3[0], Retailer) by {
      assert forall s :: s in b3[0].signatures ==> s.role in {Manufacturer, Distributor, Wholesaler};
    }
  }
}
