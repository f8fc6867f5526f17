/** The dashboard figures of src/components/analytics/utils/analyticsUtils.ts:
    supply-chain health, the status and verification distributions, alert
    counts and the health colour. Only their integer content is modelled;
    chart colours and labels are kept as the strings the source returns. */
module AnalyticsUtils {
  import opened Types
  import opened Seqs
  import BatchService

  function HasStatus(st: Status): Batch -> bool
  {
    (b: Batch) => b.status == st
  }

  /** How many batches carry status `st`. */
  function StatusCount(batches: seq<Batch>, st: Status): nat
  {
    Count(batches, HasStatus(st))
  }

  /** Integer division by a positive divisor is the quotient `q` fixed by
      `q * d <= a < (q + 1) * d`. */
  lemma DivIsQuotient(a: int, d: int, q: int)
    requires d > 0 && q * d <= a < (q + 1) * d
    ensures a / d == q
  {
    var r := a / d;
    assert r * d <= a < (r + 1) * d;
    MulStrict(q, r + 1, d);
    MulStrict(r, q + 1, d);
  }

  lemma MulStrict(x: int, y: int, d: int)
    requires d > 0 && x * d < y * d
    ensures x < y
  {
  }

  /** `Math.round(100 - (flagged / total) * 100)` over the rationals:
      JavaScript's `Math.round` rounds halves up, so the result is
      floor(100 * (total - flagged) / total + 1/2). */
  function HealthPercent(flagged: nat, total: nat): (h: int)
    requires 0 < total && flagged <= total
    ensures 0 <= h <= 100
    ensures flagged == 0 ==> h == 100
    ensures flagged == total ==> h == 0
  {
    var a, d := 200 * (total - flagged) + total, 2 * total;
    var h := a / d;
    assert 0 <= a < 101 * d;
    assert h * d <= a < (h + 1) * d;
    MulStrict(h, 101, d);
    MulStrict(-1, h, d);
    assert flagged == 0 ==> h == 100 by {
      if flagged == 0 { DivIsQuotient(a, d, 100); }
    }
    assert flagged == total ==> h == 0 by {
      if flagged == total { DivIsQuotient(a, d, 0); }
    }
    h
  }

  /** More flagged batches never raise the health figure. */
  lemma HealthPercentAntitone(f1: nat, f2: nat, total: nat)
    requires 0 < total && f1 <= f2 <= total
    ensures HealthPercent(f2, total) <= HealthPercent(f1, total)
  {
    var a1, a2 := 200 * (total - f1) + total, 200 * (total - f2) + total;
    var d := 2 * total;
    var q1, q2 := a1 / d, a2 / d;
    assert q2 * d <= a2 <= a1 < (q1 + 1) * d;
    MulStrict(q2, q1 + 1, d);
  }

  /** `calculateSupplyChainHealth`: 100 for an empty list; otherwise a
      percentage from 0 to 100 that is 100 when nothing is flagged and 0 when
      everything is. */
  function SupplyChainHealth(batches: seq<Batch>): (h: int)
    ensures 0 <= h <= 100
    ensures batches == [] ==> h == 100
    ensures (forall i :: 0 <= i < |batches| ==> batches[i].status != Flagged) ==> h == 100
    ensures batches != [] && (forall i :: 0 <= i < |batches| ==> batches[i].status == Flagged) ==> h == 0
  {
    CountExtremes(batches, HasStatus(Flagged));
    if |batches| == 0 then 100
    else HealthPercent(StatusCount(batches, Flagged), |batches|)
  }

  datatype StatusDatum = StatusDatum(name: string, value: nat, color: string)

  /** `generateStatusData`: one entry per status, in the order Registered,
      In Transit, Delivered, Flagged, each holding the number of batches with
      that status; together they account for every batch. */
  method GenerateStatusData(batches: seq<Batch>) returns (data: seq<StatusDatum>)
    ensures |data| == 4
    ensures data[0] == StatusDatum("Registered", StatusCount(batches, Registered), "#3b82f6")
    ensures data[1] == StatusDatum("In Transit", StatusCount(batches, InTransit), "#f59e0b")
    ensures data[2] == StatusDatum("Delivered", StatusCount(batches, Delivered), "#10b981")
    ensures data[3] == StatusDatum("Flagged", StatusCount(batches, Flagged), "#ef4444")
    ensures data[0].value + data[1].value + data[2].value + data[3].value == |batches|
  {
    var registered, inTransit, delivered, flagged := 0, 0, 0, 0;
    for i := 0 to |batches|
      invariant registered == StatusCount(batches[..i], Registered)
      invariant inTransit == StatusCount(batches[..i], InTransit)
      invariant delivered == StatusCount(batches[..i], Delivered)
      invariant flagged == StatusCount(batches[..i], Flagged)
      invariant registered + inTransit + delivered + flagged == i
    {
      CountPrefix(batches, i, HasStatus(Registered));
      CountPrefix(batches, i, HasStatus(InTransit));
      CountPrefix(batches, i, HasStatus(Delivered));
      CountPrefix(batches, i, HasStatus(Flagged));
      match batches[i].status
      case Registered => registered := registered + 1;
      case InTransit => inTransit := inTransit + 1;
      case Delivered => delivered := delivered + 1;
      case Flagged => flagged := flagged + 1;
    }
    assert batches[..|batches|] == batches;
    data := [
      StatusDatum("Registered", registered, "#3b82f6"),
      StatusDatum("In Transit", inTransit, "#f59e0b"),
      StatusDatum("Delivered", delivered, "#10b981"),
      StatusDatum("Flagged", flagged, "#ef4444")
    ];
  }

  /** `Math.min(batch.signatures.length, 4)`: the verification stage. */
  function Stage(b: Batch): (k: nat)
    ensures k <= 4
    ensures k == 4 <==> |b.signatures| >= 4
    ensures k < 4 ==> k == |b.signatures|
  {
    if |b.signatures| < 4 then |b.signatures| else 4
  }

  function AtStage(k: nat): Batch -> bool
  {
    (b: Batch) => Stage(b) == k
  }

  function SignedAtLeast(n: nat): Batch -> bool
  {
    (b: Batch) => |b.signatures| >= n
  }

  /** How many batches are at verification stage `k`. */
  function StageCount(batches: seq<Batch>, k: nat): nat
  {
    Count(batches, AtStage(k))
  }

  datatype VerificationDatum = VerificationDatum(name: string, count: nat)

  /** `generateVerificationData`: five buckets for 0, 1, 2, 3 and at least 4
      signatures, in that order; every batch falls in exactly one, and the
      last holds those with four signatures or more. */
  method GenerateVerificationData(batches: seq<Batch>) returns (data: seq<VerificationDatum>)
    ensures |data| == 5
    ensures data[0] == VerificationDatum("No Verification", StageCount(batches, 0))
    ensures data[1] == VerificationDatum("25% Verified", StageCount(batches, 1))
    ensures data[2] == VerificationDatum("50% Verified", StageCount(batches, 2))
    ensures data[3] == VerificationDatum("75% Verified", StageCount(batches, 3))
    ensures data[4] == VerificationDatum("100% Verified", StageCount(batches, 4))
    ensures data[4].count == Count(batches, SignedAtLeast(4))
    ensures data[0].count + data[1].count + data[2].count + data[3].count + data[4].count == |batches|
  {
    var stages := [0, 0, 0, 0, 0];
    for i := 0 to |batches|
      invariant |stages| == 5
      invariant forall k :: 0 <= k < 5 ==> stages[k] == StageCount(batches[..i], k)
      invariant stages[0] + stages[1] + stages[2] + stages[3] + stages[4] == i
    {
      forall k | 0 <= k < 5 ensures StageCount(batches[..i + 1], k) == StageCount(batches[..i], k) + (if Stage(batches[i]) == k then 1 else 0) {
        CountPrefix(batches, i, AtStage(k));
      }
      var sigCount := Stage(batches[i]);
      stages := stages[sigCount := stages[sigCount] + 1];
    }
    assert batches[..|batches|] == batches;
    CountCongruent(batches, AtStage(4), SignedAtLeast(4));
    data := [
      VerificationDatum("No Verification", stages[0]),
      VerificationDatum("25% Verified", stages[1]),
      VerificationDatum("50% Verified", stages[2]),
      VerificationDatum("75% Verified", stages[3]),
      VerificationDatum("100% Verified", stages[4])
    ];
  }

  /** Every batch the service creates and signs has at least one signature,
      so the "No Verification" bucket stays empty. */
  lemma NoUnsignedBatches(batches: seq<Batch>)
    requires BatchService.AllWellFormed(batches)
    ensures StageCount(batches, 0) == 0
  {
    CountExtremes(batches, AtStage(0));
  }

  function Unread(): Notification -> bool
  {
    (n: Notification) => !n.read
  }

  function MentionsWord(word: string): Notification -> bool
  {
    (n: Notification) => Includes(n.message, word)
  }

  datatype AlertSummary = AlertSummary(unreadAlerts: nat, verification: nat, registration: nat, issues: nat)

  /** `generateAlertAnalytics`: the number of unread notifications and, per
      kind, the number whose message mentions "signed", "registered" or
      "reported"; none can exceed the number of notifications. */
  function GenerateAlertAnalytics(notifications: seq<Notification>): (a: AlertSummary)
    ensures a.unreadAlerts <= |notifications|
    ensures a.unreadAlerts == 0 <==> forall i :: 0 <= i < |notifications| ==> notifications[i].read
    ensures a.unreadAlerts == |notifications| <==> forall i :: 0 <= i < |notifications| ==> !notifications[i].read
    ensures a.verification <= |notifications| && a.registration <= |notifications| && a.issues <= |notifications|
    ensures a.verification == 0 <==> forall i :: 0 <= i < |notifications| ==> !Includes(notifications[i].message, "signed")
    ensures a.registration == 0 <==> forall i :: 0 <= i < |notifications| ==> !Includes(notifications[i].message, "registered")
    ensures a.issues == 0 <==> forall i :: 0 <= i < |notifications| ==> !Includes(notifications[i].message, "reported")
  {
    CountExtremes(notifications, Unread());
    CountExtremes(notifications, MentionsWord("signed"));
    CountExtremes(notifications, MentionsWord("registered"));
    CountExtremes(notifications, MentionsWord("reported"));
    AlertSummary(
      Count(notifications, Unread()),
      Count(notifications, MentionsWord("signed")),
      Count(notifications, MentionsWord("registered")),
      Count(notifications, MentionsWord("reported")))
  }

  const Green: string := "text-green-500"
  const Yellow: string := "text-yellow-500"
  const Red: string := "text-red-500"

  /** `getHealthColor`: green from 90 up, yellow from 70 below 90, red below
      70; defined for every integer. */
  function GetHealthColor(health: int): (c: string)
    ensures c == Green <==> health >= 90
    ensures c == Yellow <==> 70 <= health < 90
    ensures c == Red <==> health < 70
  {
    if health >= 90 then Green
    else if health >= 70 then Yellow
    else Red
  }

  /** A supply chain with nothing flagged shows green; one where everything
      is flagged shows red. */
  lemma HealthColorEndpoints(batches: seq<Batch>)
    ensures (forall i :: 0 <= i < |batches| ==> batches[i].status != Flagged) ==> GetHealthColor(SupplyChainHealth(batches)) == Green
    ensures batches != [] && (forall i :: 0 <= i < |batches| ==> batches[i].status == Flagged) ==> GetHealthColor(SupplyChainHealth(batches)) == Red
  {
  }
}
