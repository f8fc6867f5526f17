# MedChain batch lifecycle — a Dafny model

This project models the core of MedChain, a pharmaceutical supply-chain tracker. Medicine
batches are registered by a manufacturer and then signed by each supply-chain role as custody
passes along: wholesaler, distributor, retailer, consumer. A batch's status follows its
signature count (`registered`, `in-transit`, `delivered`). Any role can report a batch, which
sets it to `flagged`. Each role is shown the batches "awaiting" it.

The model covers four source files:

- `src/services/batchService.ts` (module `BatchService`, in `batch_service.dfy`). These are pure
  functions over batch lists: lookup, creation, signing, reporting and the role filter. The
  module also holds the lifecycle invariant (`WellFormed`) and proofs that every operation keeps
  it, over any sequence of operations.
- `src/utils/batchUtils.ts` (module `BatchUtils`). This is the second copy of the role filter. It
  takes a nullable user, and the module proves it agrees with the service's filter. The module
  also holds the notification constructor and the batch id format.
- `src/providers/BatchProvider.tsx` (module `Provider`). The store is a class `BatchProvider` with
  the two state fields `batches` and `batchNotifications`. Its methods update those fields and
  are proved against the service functions. A ghost `Valid()` states the lifecycle invariant of
  every stored batch, and every method keeps it.
- `src/components/analytics/utils/analyticsUtils.ts` (module `AnalyticsUtils`). It holds the
  dashboard figures. The two counting loops are methods whose invariants prove the counts add
  up to the number of batches.

Three smaller files complete the model:

- `types.dfy` holds the records of `src/types/batch.ts` and the roles of
  `src/contexts/AuthContext.tsx`.
- `register_batch_form.dfy` holds the registration form's input check.
- `seqs.dfy` holds `map`, `filter` and counting over sequences, with their lemmas.

Random identifiers (`Math.random`) and clock readings (`new Date()`) are parameters. The
signed-in user, which the provider reads from the authentication context, is a parameter of
each provider operation.

## Behaviour a reader might not expect (the model follows the code)

- Role order. All three filters use `manufacturer, wholesaler, distributor, retailer, consumer`
  (src/services/batchService.ts:99, src/utils/batchUtils.ts:15,
  src/providers/BatchProvider.tsx:143), so a distributor sees what a wholesaler has signed.
- Signing a flagged batch is not refused. A new role's signature overwrites `flagged` with
  `in-transit` or `delivered` (`BatchService.SigningUnflags`).
- No role-order check is made when signing. Any role that has not yet signed can sign
  (`BatchService.Scenario` signs as distributor before wholesaler).
- `createBatch` and `registerBatch` validate nothing. Only the registration form checks its
  input (`RegisterBatchForm.CheckRegistration`).
- An unknown id is not an error. Signing or reporting it returns the list unchanged
  (`BatchService.SignUnknownId`, `BatchService.ReportUnknownId`).

## Model

| member | source | states |
|---|---|---|
| Types.OrganizationOrDefault | src/services/batchService.ts:23 | a missing or empty organization becomes "Unknown Organization"; a non-empty one is kept |
| Types.IndexOf | src/services/batchService.ts:99-100 | every role has exactly one position in the role order |
| BatchService.GetBatchById | src/services/batchService.ts:5-7 | the result is the first batch with the id; none exactly when no batch carries it |
| BatchService.CreateBatch | src/services/batchService.ts:10-30 | id "BATCH-" + suffix; descriptive fields copied; exactly one verified manufacturer signature with the given name and the defaulted organization; status registered; the lifecycle invariant holds |
| BatchService.SignIfMatching | src/services/batchService.ts:41-61 | another id or an already-signed role leaves the batch unchanged; otherwise exactly one signature for the role is appended, status becomes delivered at 4 or more signatures and in-transit below, every other field is kept, and afterwards the role has signed |
| BatchService.SignBatchById | src/services/batchService.ts:33-63 | length and order kept; batches with other ids unchanged; each batch with the id is signed as SignIfMatching states |
| BatchService.SignBatchByIdSnoc | src/services/batchService.ts:40-62 | signing a list extended by one batch extends the result by that batch signed |
| BatchService.SignUnknownId | src/services/batchService.ts:40-62 | an id no batch carries gives the same list back |
| BatchService.SignIdempotent | src/services/batchService.ts:40-62 | signing twice with the same role, even with other names or times, equals signing once |
| BatchService.SignIfMatchingPreservesWellFormed | src/services/batchService.ts:43-58 | signing keeps roles pairwise distinct, the manufacturer first, and status matched to the count |
| BatchService.SignPreservesWellFormed | src/services/batchService.ts:40-62 | signing a list keeps the invariant of every batch in it |
| BatchService.ReportFakeBatchById | src/services/batchService.ts:66-76 | length kept; batches with the id become flagged whatever their status; nothing else changes, signatures included |
| BatchService.ReportFakeBatchByIdSnoc | src/services/batchService.ts:66-76 | reporting on a list extended by one batch extends the result by that batch, flagged if it carries the id |
| BatchService.ReportIdempotent | src/services/batchService.ts:66-76 | reporting twice equals reporting once |
| BatchService.ReportUnknownId | src/services/batchService.ts:66-76 | an id no batch carries gives the same list back |
| BatchService.ReportPreservesWellFormed | src/services/batchService.ts:66-76 | reporting keeps the invariant of every batch |
| BatchService.RunPreservesWellFormed | src/services/batchService.ts:10-76 | after any sequence of creations, signatures and reports, every batch keeps the invariant |
| BatchService.StatusReflectsCount | src/services/batchService.ts:43-58 | for an unflagged well-formed batch: registered iff 1 signature, in-transit iff 2 or 3, delivered iff at least 4 |
| BatchService.AtMostFiveSignatures | src/services/batchService.ts:43-45 | since each role signs at most once, a batch never has more than five signatures |
| BatchService.SigningUnflags | src/services/batchService.ts:54-58 | a flagged batch signed by a new role leaves flagged for in-transit or delivered |
| BatchService.Scenario | src/services/batchService.ts:10-76 | register, sign as distributor (twice, the second time a no-op), wholesaler, retailer, then report: statuses registered, in-transit, in-transit, delivered, flagged; signatures kept by the report |
| BatchService.GetVerifiedBatchesByRole | src/services/batchService.ts:90-110 | result is an order-preserving subsequence; no role gives nothing; a manufacturer with a non-empty name gets exactly its batches; one without a name gets nothing; any other role gets exactly the batches its predecessor signed and it has not |
| BatchUtils.GetVerifiedBatches | src/utils/batchUtils.ts:5-26 | result is an order-preserving subsequence; a null user gets nothing; a manufacturer gets exactly the batches with its name, an empty name included; any other role gets exactly the batches its predecessor signed and it has not |
| BatchUtils.AgreesWithService | src/utils/batchUtils.ts:5-26 | for a non-empty name the filter equals the service's getVerifiedBatchesByRole |
| BatchUtils.EmptyManufacturerNameDiffers | src/utils/batchUtils.ts:11-13 | for a manufacturer with an empty name the two filters differ when some batch has an empty manufacturer name |
| BatchUtils.ConsumerSeesRetailerSigned | src/utils/batchUtils.ts:15-25 | a consumer sees exactly the batches a retailer signed and no consumer has |
| BatchUtils.CreateNotification | src/utils/batchUtils.ts:28-36 | the notification is unread and has the given message, batch reference, id and time |
| BatchUtils.GenerateBatchId | src/utils/batchUtils.ts:38-40 | the id is "BATCH-" followed by the suffix |
| BatchUtils.BatchIdsInjective | src/utils/batchUtils.ts:38-40 | distinct suffixes give distinct ids, and createBatch uses the same format |
| AnalyticsUtils.HealthPercent | src/components/analytics/utils/analyticsUtils.ts:8-10 | the rounded healthy percentage lies in 0..100; it is 100 with nothing flagged and 0 with everything flagged |
| AnalyticsUtils.HealthPercentAntitone | src/components/analytics/utils/analyticsUtils.ts:8-10 | more flagged batches never give a higher health figure |
| AnalyticsUtils.SupplyChainHealth | src/components/analytics/utils/analyticsUtils.ts:5-11 | 100 for no batches; otherwise within 0..100, 100 when none is flagged, 0 when all are |
| AnalyticsUtils.GenerateStatusData | src/components/analytics/utils/analyticsUtils.ts:14-34 | four entries in the order Registered, In Transit, Delivered, Flagged, each the count of its status, summing to the number of batches |
| AnalyticsUtils.Stage | src/components/analytics/utils/analyticsUtils.ts:47 | the stage is the signature count capped at 4, and is 4 exactly when there are at least 4 signatures |
| AnalyticsUtils.GenerateVerificationData | src/components/analytics/utils/analyticsUtils.ts:37-58 | five buckets in order, for 0, 1, 2, 3 and at least 4 signatures; the last counts the batches with at least 4; the buckets sum to the number of batches |
| AnalyticsUtils.NoUnsignedBatches | src/components/analytics/utils/analyticsUtils.ts:46-49 | for well-formed batches the "No Verification" bucket is empty |
| AnalyticsUtils.GenerateAlertAnalytics | src/components/analytics/utils/analyticsUtils.ts:76-85 | unread and per-keyword counts are at most the number of notifications; each is zero exactly when no notification qualifies; unread equals the length exactly when none is read |
| AnalyticsUtils.GetHealthColor | src/components/analytics/utils/analyticsUtils.ts:88-92 | green iff health is at least 90, yellow iff from 70 below 90, red iff below 70, for every integer |
| AnalyticsUtils.HealthColorEndpoints | src/components/analytics/utils/analyticsUtils.ts:88-92 | nothing flagged shows green; everything flagged (non-empty) shows red |
| Provider.MarkRead | src/providers/BatchProvider.tsx:126-134 | length kept; entries with the id become read; every other field and entry is unchanged |
| Provider.MarkReadIdempotent | src/providers/BatchProvider.tsx:126-134 | clearing twice equals clearing once |
| Provider.MarkReadUnreadCount | src/providers/BatchProvider.tsx:126-134 | clearing lowers the unread count by exactly the unread entries with that id |
| Provider.SignedMessageIsVerificationAlert | src/providers/BatchProvider.tsx:78 | every signing notification counts as a verification alert on the dashboard |
| Provider.SignNotificationCount | src/providers/BatchProvider.tsx:64-88 | with unique ids a signing writes one notification if it changes the batch, none if the role had signed |
| Provider.ReportNotificationCount | src/providers/BatchProvider.tsx:99-110 | with unique ids a report writes exactly one notification, even for a flagged batch |
| Provider.SignStep | src/providers/BatchProvider.tsx:64-88 | one loop step: the signed list and the number of changed batches each advance by the current batch |
| Provider.VisibleBatches | src/providers/BatchProvider.tsx:136-154 | the provider's copy of the filter over any batch list: nothing without a user, a manufacturer's own batches, otherwise the batches awaiting the role; equal to batchUtils' getVerifiedBatches |
| Provider.BatchProvider.constructor | src/providers/BatchProvider.tsx:9-10 | the store starts with no batches and no notifications |
| Provider.BatchProvider.AddNotification | src/providers/BatchProvider.tsx:114-124 | the log grows by one; the new unread entry is in front; older entries keep their order; batches unchanged |
| Provider.BatchProvider.RegisterBatch | src/providers/BatchProvider.tsx:37-59 | no user: nothing changes; otherwise the batch createBatch builds is appended, one notification is prepended, getBatch then finds it if its id is new, and the invariant is kept |
| Provider.BatchProvider.SignBatch | src/providers/BatchProvider.tsx:61-90 | no user: nothing changes; otherwise batches become signBatchById of the old list for the user's role, one notification per changed batch is prepended, and the invariant is kept |
| Provider.BatchProvider.GetBatch | src/providers/BatchProvider.tsx:92-94 | the first stored batch with the id; none exactly when no batch carries it |
| Provider.BatchProvider.ReportFakeBatch | src/providers/BatchProvider.tsx:96-112 | no user: nothing changes; otherwise batches become reportFakeBatchById of the old list, one notification per batch with the id is prepended, and the invariant is kept |
| Provider.BatchProvider.ClearBatchNotification | src/providers/BatchProvider.tsx:126-134 | the log becomes MarkRead of the old log; batches unchanged |
| Provider.BatchProvider.GetVerifiedBatches | src/providers/BatchProvider.tsx:136-154 | the provider's copy of the filter returns what batchUtils' getVerifiedBatches returns for the signed-in user |
| RegisterBatchForm.CheckRegistration | src/components/batch/RegisterBatchForm.tsx:39-55 | a missing field is reported first; then an expiry date not strictly after manufacture; accepted only when all fields are present and the dates are ordered |

## Left out

- Persistence. The local-storage load and save effects (src/providers/BatchProvider.tsx:13-35)
  and the stored session of the authentication context are I/O.
- Identifiers and clocks. `Math.random` ids and `new Date()` timestamps are parameters. The
  batch's `createdAt` and its first signature's timestamp share one parameter, while the source
  reads the clock twice.
- Provider.BatchProvider.RegisterBatch: the one `now` parameter stands for three clock readings.
  They are the batch's `createdAt`, its first signature, and the notification's timestamp,
  which `addNotification` reads afresh (src/providers/BatchProvider.tsx:117). The contract
  therefore makes the three timestamps equal, which the source does not promise.
- Provider.BatchProvider.SignBatch: the one `now` parameter stands for the clock reading of
  each new signature and of each notification. The contract makes these timestamps all equal,
  while the source reads the clock for each of them.
- Provider.BatchProvider.ReportFakeBatch: the one `now` parameter is the timestamp of every
  notification the call writes. The source reads the clock once for each.
- Provider.BatchProvider.SignBatch: all notifications written by one call share the given
  notification id. The source draws a fresh random id for each, which matters only when
  several batches share an id. The same holds for Provider.BatchProvider.ReportFakeBatch.
- React semantics. State updates are modelled as immediate sequential assignments. Queued
  state-updater functions, re-rendering and strict-mode double invocation are not modelled.
- `selectedBatch` / `setSelectedBatch` (src/providers/BatchProvider.tsx:11) is UI selection
  state with no logic.
- `createNotification` of src/services/batchService.ts:79-87 is identical to the one in
  src/utils/batchUtils.ts. It is modelled once, as `BatchUtils.CreateNotification`.
- AnalyticsUtils.SupplyChainHealth: the rounding is computed over exact rationals, as
  floor(100·(n−f)/n + 1/2). The source rounds a double-precision value, which can round the
  other way at an exact half. Only the bounds, the endpoints and monotonicity are claimed.
- `generateTimelineData` (src/components/analytics/utils/analyticsUtils.ts:61-73) parses and
  formats dates and scales quantities by floating-point division.
- `quantity` is a JavaScript number. It is modelled as an integer, as the registration form
  produces it.
- Dates in the registration form are instants, modelled as integers. Date parsing and ISO
  formatting are not modelled, and batch dates and timestamps are opaque strings.
- Chart labels and colours are kept as the literal strings the source returns. The mocked
  login, the Express relay server (src/api/server.js), the deployment module
  (ignition/modules/Lock.js) and all React components are outside this model.
