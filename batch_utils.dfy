/** The helpers of src/utils/batchUtils.ts: a second copy of the visibility
    filter, taking the signed-in user as a whole, the notification record
    constructor and the batch id format. */
module BatchUtils {
  import opened Types
  import opened Seqs
  import BatchService

  /** The part of the signed-in user the filter looks at: `{ role, name }`. */
  datatype AuthUser = AuthUser(role: Role, name: string)

  /** `getVerifiedBatches`: no user sees nothing; a manufacturer sees the
      batches whose manufacturer name is its name (an empty name included);
      any other role sees the batches its predecessor signed and it has not,
      in list order. */
  function GetVerifiedBatches(batches: seq<Batch>, user: Option<AuthUser>): (r: seq<Batch>)
    ensures IsSubseq(r, batches) && |r| <= |batches|
    ensures user.None? ==> r == []
    ensures user.Some? && user.value.role == Manufacturer ==>
      && |r| == Count(batches, MadeBy(user.value.name))
      && (forall i :: 0 <= i < |r| ==> r[i].manufacturerName == user.value.name)
      && (forall i :: 0 <= i < |batches| ==> (batches[i] in r <==> batches[i].manufacturerName == user.value.name))
    ensures user.Some? && user.value.role != Manufacturer ==>
      && |r| == Count(batches, Awaiting(user.value.role))
      && (forall i :: 0 <= i < |r| ==> AwaitsRole(r[i], user.value.role))
      && (forall i :: 0 <= i < |batches| ==> (batches[i] in r <==> AwaitsRole(batches[i], user.value.role)))
  {
    if user.None? then []
    else if user.value.role == Manufacturer then
      var p := (b: Batch) => b.manufacturerName == user.value.name;
      CountCongruent(batches, p, MadeBy(user.value.name));
      var r := Filter(batches, p);
      SubseqIsShorter(r, batches);
      r
    else
      var userRoleIndex := IndexOf(user.value.role);
      if userRoleIndex <= 0 then []
      else
        var previousRole := RoleOrder[userRoleIndex - 1];
        var p := (b: Batch) => HasSigned(b, previousRole) && !HasSigned(b, user.value.role);
        assert Predecessor(user.value.role) == Some(previousRole);
        CountCongruent(batches, p, Awaiting(user.value.role));
        var r := Filter(batches, p);
        SubseqIsShorter(r, batches);
        r
  }

  /** For a user with a non-empty name this filter and the service's
      `getVerifiedBatchesByRole` return the same list. */
  lemma AgreesWithService(batches: seq<Batch>, role: Role, name: string)
    requires name != ""
    ensures GetVerifiedBatches(batches, Some(AuthUser(role, name)))
         == BatchService.GetVerifiedBatchesByRole(batches, Some(role), Some(name))
  {
    if role == Manufacturer {
      FilterCongruent(batches, (b: Batch) => b.manufacturerName == AuthUser(role, name).name,
                               (b: Batch) => b.manufacturerName == Some(name).value);
    } else {
      var previousRole := RoleOrder[IndexOf(role) - 1];
      FilterCongruent(batches, (b: Batch) => HasSigned(b, previousRole) && !HasSigned(b, AuthUser(role, name).role),
                               (b: Batch) => HasSigned(b, previousRole) && !HasSigned(b, Some(role).value));
    }
  }

  /** The two copies part ways on a manufacturer with an empty name: here it
      sees the batches whose manufacturer name is empty, the service gives it
      nothing, because the empty string is falsy there. */
  lemma EmptyManufacturerNameDiffers(batches: seq<Batch>, i: nat)
    requires i < |batches| && batches[i].manufacturerName == ""
    ensures GetVerifiedBatches(batches, Some(AuthUser(Manufacturer, ""))) != []
    ensures BatchService.GetVerifiedBatchesByRole(batches, Some(Manufacturer), Some("")) == []
  {
    assert batches[i] in GetVerifiedBatches(batches, Some(AuthUser(Manufacturer, "")));
  }

  /** A consumer is shown exactly the batches a retailer signed and no
      consumer has. */
  lemma ConsumerSeesRetailerSigned(batches: seq<Batch>, name: string)
    ensures var r := GetVerifiedBatches(batches, Some(AuthUser(Consumer, name)));
      forall i :: 0 <= i < |batches| ==>
        (batches[i] in r <==> HasSigned(batches[i], Retailer) && !HasSigned(batches[i], Consumer))
  {
  }

  /** `createNotification`: an unread notification with the given message
      and batch reference. The service file holds an identical copy. */
  function CreateNotification(message: string, batchId: Option<string>, id: string, now: string): (n: Notification)
    ensures !n.read
    ensures n.message == message && n.batchId == batchId
    ensures n.id == id && n.timestamp == now
  {
    Notification(id, message, now, false, batchId)
  }

  const BatchIdPrefix: string := "BATCH-"

  /** `generateBatchId`: "BATCH-" followed by a random suffix, here a
      parameter. */
  function GenerateBatchId(suffix: string): (id: string)
    ensures |id| == |BatchIdPrefix| + |suffix|
    ensures id[..|BatchIdPrefix|] == BatchIdPrefix && id[|BatchIdPrefix|..] == suffix
  {
    BatchIdPrefix + suffix
  }

  /** Distinct suffixes give distinct ids, and the service's `createBatch`
      builds its ids in the same format. */
  lemma BatchIdsInjective(s1: string, s2: string)
    ensures GenerateBatchId(s1) == GenerateBatchId(s2) <==> s1 == s2
    ensures forall data, userName, organization, now ::
      BatchService.CreateBatch(data, userName, organization, s1, now).id == GenerateBatchId(s1)
  {
    if GenerateBatchId(s1) == GenerateBatchId(s2) {
      assert s1 == GenerateBatchId(s1)[|BatchIdPrefix|..];
    }
  }
}
