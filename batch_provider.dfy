/** The batch store of src/providers/BatchProvider.tsx. The provider keeps
    two pieces of state, the batch list and the notification log, and its
    operations replace them with updated copies; here they are the fields of
    a class and the operations its methods. The signed-in user, which the
    provider reads from the authentication context, is a parameter of every
    operation, as are the random ids and the clock readings. */
module Provider {
  import opened Types
  import opened Seqs
  import BatchService
  import BatchUtils
  import AnalyticsUtils

  /** The notification texts the provider writes. */
  function RegisteredMessage(batchId: string, medicineName: string): string
  {
    "New batch " + batchId + " for " + medicineName + " registered"
  }

  function SignedMessage(batchId: string, role: Role, name: string): string
  {
    "Batch " + batchId + " signed by " + RoleName(role) + " " + name
  }

  function ReportedMessage(batchId: string, role: Role, name: string, reason: string): string
  {
    "\U{26A0}\U{FE0F} Batch " + batchId + " reported as potentially fake by " + RoleName(role) + " " + name
      + ". Reason: " + reason
  }

  /** The batches a signing by `role` changes: those carrying `batchId`
      that `role` has not signed. */
  function Pending(batchId: string, role: Role): Batch -> bool
  {
    (b: Batch) => b.id == batchId && !HasSigned(b, role)
  }

  function CarriesId(batchId: string): Batch -> bool
  {
    (b: Batch) => b.id == batchId
  }

  /** The map `clearBatchNotification` applies: entries with the given id
      become read; every other field and every other entry stays as it was. */
  function MarkRead(notifications: seq<Notification>, id: string): (r: seq<Notification>)
    ensures |r| == |notifications|
    ensures forall i :: 0 <= i < |r| ==> r[i].(read := notifications[i].read) == notifications[i]
    ensures forall i :: 0 <= i < |r| ==> (r[i].read <==> notifications[i].read || notifications[i].id == id)
  {
    Map(notifications, (n: Notification) => if n.id == id then n.(read := true) else n)
  }

  lemma MarkReadIdempotent(notifications: seq<Notification>, id: string)
    ensures MarkRead(MarkRead(notifications, id), id) == MarkRead(notifications, id)
  {
    var once := MarkRead(notifications, id);
    var twice := MarkRead(once, id);
    forall i | 0 <= i < |once| ensures twice[i] == once[i] {
      assert twice[i].(read := once[i].read) == once[i];
    }
  }

  /** Marking read lowers the unread count by the number of unread entries
      carrying the id, and by nothing else. */
  lemma {:induction false} MarkReadUnreadCount(notifications: seq<Notification>, id: string)
    ensures Count(MarkRead(notifications, id), AnalyticsUtils.Unread())
         == Count(notifications, AnalyticsUtils.Unread())
          - Count(notifications, (n: Notification) => n.id == id && !n.read)
  {
    if notifications != [] {
      var r := MarkRead(notifications, id);
      assert r[1..] == MarkRead(notifications[1..], id);
      MarkReadUnreadCount(notifications[1..], id);
    }
  }

  /** Every notification a signing writes counts as a verification alert. */
  lemma SignedMessageIsVerificationAlert(batchId: string, role: Role, name: string)
    ensures Includes(SignedMessage(batchId, role, name), "signed")
  {
    var m := SignedMessage(batchId, role, name);
    assert m == ("Batch " + batchId + " ") + "signed" + (" by " + RoleName(role) + " " + name);
    IncludesInfix("Batch " + batchId + " ", "signed", " by " + RoleName(role) + " " + name);
  }

  /** When ids are unique a signing writes one notification if it changes
      the batch and none if the role had signed already; an unknown id
      writes none. */
  lemma SignNotificationCount(batches: seq<Batch>, batchId: string, role: Role, k: nat)
    requires k < |batches| && batches[k].id == batchId
    requires forall i :: 0 <= i < |batches| && i != k ==> batches[i].id != batchId
    ensures Count(batches, Pending(batchId, role)) == if HasSigned(batches[k], role) then 0 else 1
  {
    CountSingle(batches, Pending(batchId, role), k);
  }

  /** When ids are unique a report writes exactly one notification, even
      for a batch that is already flagged. */
  lemma ReportNotificationCount(batches: seq<Batch>, batchId: string, k: nat)
    requires k < |batches| && batches[k].id == batchId
    requires forall i :: 0 <= i < |batches| && i != k ==> batches[i].id != batchId
    ensures Count(batches, CarriesId(batchId)) == 1
  {
    CountSingle(batches, CarriesId(batchId), k);
  }

  /** One step of the signing loop: the signed list and the number of
      changed batches, each one batch further along. */
  lemma SignStep(batches: seq<Batch>, i: nat, batchId: string, role: Role,
                 userName: string, organization: Option<string>, now: string)
    requires i < |batches|
    ensures BatchService.SignBatchById(batches[..i + 1], batchId, role, userName, organization, now)
         == BatchService.SignBatchById(batches[..i], batchId, role, userName, organization, now)
            + [BatchService.SignIfMatching(batches[i], batchId, role, userName, organization, now)]
    ensures Count(batches[..i + 1], Pending(batchId, role))
         == Count(batches[..i], Pending(batchId, role)) + (if batches[i].id == batchId && !HasSigned(batches[i], role) then 1 else 0)
  {
    CountPrefix(batches, i, Pending(batchId, role));
    assert batches[..i + 1] == batches[..i] + [batches[i]];
    BatchService.SignBatchByIdSnoc(batches[..i], batches[i], batchId, role, userName, organization, now);
  }

  /** The filter the provider's `getVerifiedBatches` runs over the stored
      batches: nothing without a user; a manufacturer sees the batches with
      its own name; any other role sees the batches the role before it has
      signed and it has not. */
  function VisibleBatches(bs: seq<Batch>, user: Option<User>): (r: seq<Batch>)
    ensures r == BatchUtils.GetVerifiedBatches(bs,
                   if user.None? then None else Some(BatchUtils.AuthUser(user.value.role, user.value.name)))
  {
    if user.None? then []
    else
      var u := user.value;
      var authUser := BatchUtils.AuthUser(u.role, u.name);
      if u.role == Manufacturer then
        FilterCongruent(bs, (b: Batch) => b.manufacturerName == u.name,
                            (b: Batch) => b.manufacturerName == Some(authUser).value.name);
        Filter(bs, (b: Batch) => b.manufacturerName == u.name)
      else
        var userRoleIndex := IndexOf(u.role);
        if userRoleIndex <= 0 then []
        else
          var previousRole := RoleOrder[userRoleIndex - 1];
          FilterCongruent(bs, (b: Batch) => HasSigned(b, previousRole) && !HasSigned(b, u.role),
                              (b: Batch) => HasSigned(b, previousRole) && !HasSigned(b, Some(authUser).value.role));
          Filter(bs, (b: Batch) => HasSigned(b, previousRole) && !HasSigned(b, u.role))
  }

  class BatchProvider {
    var batches: seq<Batch>
    var batchNotifications: seq<Notification>

    /** Every stored batch keeps the lifecycle invariant. */
    ghost predicate Valid()
      reads this
    {
      BatchService.AllWellFormed(batches)
    }

    /** The provider starts with no batches and no notifications. */
    constructor ()
      ensures batches == [] && batchNotifications == []
      ensures Valid()
    {
      batches := [];
      batchNotifications := [];
    }

    /** `addNotification`: a new unread entry at the front of the log. */
    method AddNotification(message: string, batchId: Option<string>, id: string, now: string)
      modifies this
      ensures batches == old(batches)
      ensures batchNotifications == [BatchUtils.CreateNotification(message, batchId, id, now)] + old(batchNotifications)
    {
      var newNotification := Notification(id, message, now, false, batchId);
      batchNotifications := [newNotification] + batchNotifications;
    }

    /** `registerBatch`: without a user nothing happens; otherwise the batch
      the service's `createBatch` would build is appended and one
      notification is put in front of the log. A registered batch whose id is
      new is what `getBatch` then finds. */
    method RegisterBatch(user: Option<User>, batchData: BatchData, idSuffix: string, now: string, notificationId: string)
      modifies this
      ensures user.None? ==> batches == old(batches) && batchNotifications == old(batchNotifications)
      ensures user.Some? ==>
        var created := BatchService.CreateBatch(batchData, user.value.name, user.value.organization, idSuffix, now);
        && batches == old(batches) + [created]
        && batchNotifications
           == [BatchUtils.CreateNotification(RegisteredMessage(created.id, created.medicineName), Some(created.id), notificationId, now)]
              + old(batchNotifications)
        && ((forall i :: 0 <= i < |old(batches)| ==> old(batches)[i].id != created.id) ==> GetBatch(created.id) == Some(created))
      ensures old(Valid()) ==> Valid()
    {
      if user.None? {
        return;
      }
      var u := user.value;
      var newBatch := Batch(
        BatchUtils.GenerateBatchId(idSuffix),
        batchData.medicineName, batchData.manufacturingDate, batchData.expiryDate,
        batchData.quantity, batchData.manufacturerName,
        now,
        [Signature(Manufacturer, now, OrganizationOrDefault(u.organization), u.name, true)],
        Registered);
      batches := batches + [newBatch];
      AddNotification(RegisteredMessage(newBatch.id, newBatch.medicineName), Some(newBatch.id), notificationId, now);
      assert batches[|batches| - 1] == newBatch;
    }

    /** `signBatch`: without a user nothing happens; otherwise the batch list
      becomes what the service's `signBatchById` returns for the user's role,
      and one notification is put in front of the log for every batch that
      signing changed. */
    method SignBatch(user: Option<User>, batchId: string, now: string, notificationId: string)
      modifies this
      ensures user.None? ==> batches == old(batches) && batchNotifications == old(batchNotifications)
      ensures user.Some? ==>
        && batches == BatchService.SignBatchById(old(batches), batchId, user.value.role, user.value.name, user.value.organization, now)
        && batchNotifications
           == Repeat(Count(old(batches), Pending(batchId, user.value.role)),
                     BatchUtils.CreateNotification(SignedMessage(batchId, user.value.role, user.value.name), Some(batchId), notificationId, now))
              + old(batchNotifications)
      ensures old(Valid()) ==> Valid()
    {
      if user.None? {
        return;
      }
      var u := user.value;
      ghost var note := BatchUtils.CreateNotification(SignedMessage(batchId, u.role, u.name), Some(batchId), notificationId, now);
      var prevBatches := batches;
      var next: seq<Batch> := [];
      for i := 0 to |prevBatches|
        invariant batches == prevBatches
        invariant next == BatchService.SignBatchById(prevBatches[..i], batchId, u.role, u.name, u.organization, now)
        invariant batchNotifications == Repeat(Count(prevBatches[..i], Pending(batchId, u.role)), note) + old(batchNotifications)
      {
        var batch := prevBatches[i];
        SignStep(prevBatches, i, batchId, u.role, u.name, u.organization, now);
        if batch.id == batchId && !HasSigned(batch, u.role) {
          var newSignature := Signature(u.role, now, OrganizationOrDefault(u.organization), u.name, true);
          AddNotification(SignedMessage(batchId, u.role, u.name), Some(batchId), notificationId, now);
          RepeatPrepend(Count(prevBatches[..i], Pending(batchId, u.role)), note, old(batchNotifications));
          var signed := batch.(signatures := batch.signatures + [newSignature],
                               status := if |batch.signatures| + 1 >= 4 then Delivered else InTransit);
          BatchService.SignInPlace(batch, batchId, u.role, u.name, u.organization, now);
          next := next + [signed];
        } else {
          next := next + [batch];
        }
      }
      assert prevBatches[..|prevBatches|] == prevBatches;
      batches := next;
      if old(Valid()) {
        BatchService.SignPreservesWellFormed(prevBatches, batchId, u.role, u.name, u.organization, now);
      }
    }

    /** `getBatch`: the first stored batch carrying `batchId`. */
    function GetBatch(batchId: string): (r: Option<Batch>)
      reads this
      ensures r.None? <==> forall i :: 0 <= i < |batches| ==> batches[i].id != batchId
      ensures r.Some? ==> BatchService.FoundAt(batches, r.value, batchId)
    {
      BatchService.GetBatchById(batches, batchId)
    }

    /** `reportFakeBatch`: without a user nothing happens; otherwise every
      batch carrying `batchId` becomes flagged, signatures kept, and each of
      them, flagged before or not, puts one notification in front of the log. */
    method ReportFakeBatch(user: Option<User>, batchId: string, reason: string, now: string, notificationId: string)
      modifies this
      ensures user.None? ==> batches == old(batches) && batchNotifications == old(batchNotifications)
      ensures user.Some? ==>
        && batches == BatchService.ReportFakeBatchById(old(batches), batchId)
        && batchNotifications
           == Repeat(Count(old(batches), CarriesId(batchId)),
                     BatchUtils.CreateNotification(ReportedMessage(batchId, user.value.role, user.value.name, reason), Some(batchId), notificationId, now))
              + old(batchNotifications)
      ensures old(Valid()) ==> Valid()
    {
      if user.None? {
        return;
      }
      var u := user.value;
      ghost var note := BatchUtils.CreateNotification(ReportedMessage(batchId, u.role, u.name, reason), Some(batchId), notificationId, now);
      var prevBatches := batches;
      var next: seq<Batch> := [];
      for i := 0 to |prevBatches|
        invariant batches == prevBatches
        invariant next == BatchService.ReportFakeBatchById(prevBatches[..i], batchId)
        invariant batchNotifications == Repeat(Count(prevBatches[..i], CarriesId(batchId)), note) + old(batchNotifications)
      {
        var batch := prevBatches[i];
        CountPrefix(prevBatches, i, CarriesId(batchId));
        assert prevBatches[..i + 1] == prevBatches[..i] + [batch];
        BatchService.ReportFakeBatchByIdSnoc(prevBatches[..i], batch, batchId);
        if batch.id == batchId {
          AddNotification(ReportedMessage(batchId, u.role, u.name, reason), Some(batchId), notificationId, now);
          RepeatPrepend(Count(prevBatches[..i], CarriesId(batchId)), note, old(batchNotifications));
          next := next + [batch.(status := Flagged)];
        } else {
          next := next + [batch];
        }
      }
      assert prevBatches[..|prevBatches|] == prevBatches;
      batches := next;
      if old(Valid()) {
        BatchService.ReportPreservesWellFormed(prevBatches, batchId);
      }
    }

    /** `clearBatchNotification`: the entries with the given id are marked
      read; the log keeps its length and order. */
    method ClearBatchNotification(id: string)
      modifies this
      ensures batches == old(batches)
      ensures batchNotifications == MarkRead(old(batchNotifications), id)
    {
      batchNotifications := Map(batchNotifications, (n: Notification) => if n.id == id then n.(read := true) else n);
    }

    /** `getVerifiedBatches`: the provider's own copy of the visibility
      filter (see VisibleBatches), applied to the stored batches; it returns
      what `getVerifiedBatches` of the utilities does for the signed-in user. */
    function GetVerifiedBatches(user: Option<User>): (r: seq<Batch>)
      reads this
      ensures r == BatchUtils.GetVerifiedBatches(batches,
                     if user.None? then None else Some(BatchUtils.AuthUser(user.value.role, user.value.name)))
    {
      VisibleBatches(batches, user)
    }
  }
}
