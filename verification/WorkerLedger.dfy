// One durable worker record (lib/autonomy-worker.mjs): leases, the planned command, its receipt, and the
// operations that change them. Session, policy and scope digests are checked before these calls and are
// not part of the record here. Times are integers (milliseconds).
module WorkerLedger {
  import opened Wrappers

  datatype Status = Active | Paused | HumanGate | Done | Revoked

  datatype ReceiptState = Completed | NeedsHuman

  // tool and digest identify the planned command; digest is its execution digest.
  datatype Plan = Plan(tool: string, digest: nat, receipt: Option<ReceiptState>)

  datatype Lease = Lease(id: nat, expiresAt: int, plan: Option<Plan>)

  datatype Worker = Worker(
    status: Status, nextWakeAt: Option<int>, lease: Option<Lease>, failures: nat, maxFailures: nat, completed: nat)

  // What the schedule token commits to; equal tokens mean equal commitments (collision-free digest).
  datatype Token = Token(
    status: Status, nextWakeAt: Option<int>, lease: Option<nat>, expiresAt: Option<int>, digest: Option<nat>)

  function ScheduleToken(w: Worker): Token {
    match w.lease
    case None => Token(w.status, w.nextWakeAt, None, None, None)
    case Some(l) =>
      var digest := if l.plan.Some? then Some(l.plan.value.digest) else None;
      Token(w.status, w.nextWakeAt, Some(l.id), Some(l.expiresAt), digest)
  }

  function Create(at: int, maxFailures: nat): Worker { Worker(Active, Some(at), None, 0, maxFailures, 0) }

  datatype CampaignStatus = CampaignActive | CampaignCompleted | CampaignRevoked

  datatype Claim = Claimed(worker: Worker) | NotDue(worker: Worker) | Closed(worker: Worker) | ClaimRefused

  function ClaimLease(w: Worker, campaign: CampaignStatus, leaseId: nat, leaseMs: nat, at: int): Claim {
    if campaign != CampaignActive then
      Closed(w.(status := if campaign == CampaignRevoked then Revoked else Done, lease := None, nextWakeAt := None))
    else if w.status != Active then ClaimRefused
    else if w.nextWakeAt.Some? && w.nextWakeAt.value > at then NotDue(w)
    else if w.lease.Some? && w.lease.value.expiresAt > at then ClaimRefused
    else if w.lease.Some? && w.lease.value.plan.Some? then Closed(w.(status := HumanGate, nextWakeAt := None))
    else Claimed(w.(lease := Some(Lease(leaseId, at + leaseMs, None))))
  }

  predicate HoldsLease(w: Worker, leaseId: nat, at: int) {
    w.lease.Some? && w.lease.value.id == leaseId && w.lease.value.expiresAt > at
  }

  function Issue(w: Worker, leaseId: nat, tool: string, digest: nat, at: int): Result<Worker> {
    if !HoldsLease(w, leaseId, at) || w.lease.value.plan.Some? then Failure
    else Success(w.(lease := Some(w.lease.value.(plan := Some(Plan(tool, digest, None))))))
  }

  // recordExecutionResult: a second receipt must agree with the first.
  function RecordReceipt(w: Worker, leaseId: nat, digest: nat, r: ReceiptState, at: int): Result<Worker> {
    if !HoldsLease(w, leaseId, at) || w.lease.value.plan.None? || w.lease.value.plan.value.digest != digest then Failure
    else
      var plan := w.lease.value.plan.value;
      if plan.receipt.Some? then if plan.receipt == Some(r) then Success(w) else Failure
      else Success(w.(lease := Some(w.lease.value.(plan := Some(plan.(receipt := Some(r)))))))
  }

  datatype Ending = ActionSucceeded | DoneForNow(wakeAt: Option<int>) | TransientFailure | Gate

  function Backoff(failures: nat): nat {
    var doublings := if failures - 1 < 8 then failures - 1 else 8;
    var ms := 300_000 * Power2(if doublings < 0 then 0 else doublings);
    if ms < 86_400_000 then ms else 86_400_000
  }

  function Power2(n: nat): nat { if n == 0 then 1 else 2 * Power2(n - 1) }

  function Complete(w: Worker, leaseId: nat, ending: Ending, at: int): Result<Worker> {
    if !HoldsLease(w, leaseId, at) then Failure
    else
      var plan := w.lease.value.plan;
      match ending
      case ActionSucceeded =>
        if plan.None? || plan.value.receipt != Some(Completed) then Failure
        else
          Success(w.(lease := None, status := Active, nextWakeAt := Some(at), failures := 0,
                     completed := w.completed + 1))
      case DoneForNow(wakeAt) =>
        if wakeAt.Some? && wakeAt.value <= at then Failure
        else
          var status := if wakeAt.None? then Done else Active;
          Success(w.(lease := None, status := status, nextWakeAt := wakeAt, failures := 0))
      case Gate => Success(w.(status := HumanGate, nextWakeAt := None))
      case TransientFailure =>
        if plan.None? then Failure
        else
          var failures := w.failures + 1;
          if failures >= w.maxFailures then Success(w.(status := HumanGate, nextWakeAt := None, failures := failures))
          else
            Success(w.(lease := None, status := Active, nextWakeAt := Some(at + Backoff(failures)),
                       failures := failures))
  }

  function GateRecovery(w: Worker): Worker {
    if w.status != Active then w else w.(status := HumanGate, nextWakeAt := None)
  }

  function Resume(w: Worker, at: int): Result<Worker> {
    if w.status != Paused && w.status != HumanGate then Failure
    else Success(w.(status := Active, lease := None, nextWakeAt := Some(at), failures := 0))
  }

  function Revoke(w: Worker): Worker { w.(status := Revoked, lease := None, nextWakeAt := None) }

  // ---- Every operation, and what holds of every history

  datatype Op =
    | DoClaim(campaign: CampaignStatus, leaseId: nat, leaseMs: nat)
    | DoIssue(lease: nat, tool: string, digest: nat)
    | DoReceipt(lease: nat, digest: nat, receipt: ReceiptState)
    | DoComplete(lease: nat, ending: Ending)
    | DoGate
    | DoResume
    | DoRevoke

  // A refused call stores nothing.
  function Apply(w: Worker, op: Op, at: int): Worker {
    match op
    case DoClaim(campaign, id, ms) =>
      var c := ClaimLease(w, campaign, id, ms, at);
      if c.ClaimRefused? then w else c.worker
    case DoIssue(id, tool, digest) =>
      var r := Issue(w, id, tool, digest, at); if r.Success? then r.value else w
    case DoReceipt(id, digest, receipt) =>
      var r := RecordReceipt(w, id, digest, receipt, at); if r.Success? then r.value else w
    case DoComplete(id, ending) =>
      var r := Complete(w, id, ending, at); if r.Success? then r.value else w
    case DoGate => GateRecovery(w)
    case DoResume => var r := Resume(w, at); if r.Success? then r.value else w
    case DoRevoke => Revoke(w)
  }

  // When the host should wake an active worker: the end of its lease, else its next wake time.
  function WakeAt(w: Worker): Option<int> {
    if w.lease.Some? then Some(w.lease.value.expiresAt) else w.nextWakeAt
  }

  predicate Wakeable(w: Worker) { w.status == Active ==> WakeAt(w).Some? }

  // An active worker always has a wake time for startup recovery to restore, after any calls at any times.
  lemma {:induction false} ActiveWorkersAreWakeable(start: int, maxFailures: nat, ops: seq<(Op, int)>)
    ensures Wakeable(History(start, maxFailures, ops))
  {
    if ops != [] {
      ActiveWorkersAreWakeable(start, maxFailures, ops[..|ops| - 1]);
    }
  }

  function History(start: int, maxFailures: nat, ops: seq<(Op, int)>): Worker {
    if ops == [] then Create(start, maxFailures)
    else
      var (op, at) := ops[|ops| - 1];
      Apply(History(start, maxFailures, ops[..|ops| - 1]), op, at)
  }

  // The leased command has its completed receipt and is not closed yet.
  predicate Finished(w: Worker) {
    w.lease.Some? && w.lease.value.plan.Some? && w.lease.value.plan.value.receipt == Some(Completed)
  }

  // A call that stores a completed receipt for a command that had none.
  predicate StoresReceipt(w: Worker, op: Op, at: int) {
    op.DoReceipt? && op.receipt == Completed && !Finished(w)
    && RecordReceipt(w, op.lease, op.digest, Completed, at).Success?
  }

  function ReceiptsStored(start: int, maxFailures: nat, ops: seq<(Op, int)>): nat {
    if ops == [] then 0
    else
      var (op, at) := ops[|ops| - 1];
      var before := ops[..|ops| - 1];
      ReceiptsStored(start, maxFailures, before)
      + if StoresReceipt(History(start, maxFailures, before), op, at) then 1 else 0
  }

  // Over any history, every counted completion has used up a completed receipt of its own: together with the
  // one the current lease may hold, they are at most as many as were stored.
  lemma {:induction false} CompletionsAreBacked(start: int, maxFailures: nat, ops: seq<(Op, int)>)
    ensures var w := History(start, maxFailures, ops);
      w.completed + (if Finished(w) then 1 else 0) <= ReceiptsStored(start, maxFailures, ops)
  {
    if ops != [] {
      CompletionsAreBacked(start, maxFailures, ops[..|ops| - 1]);
    }
  }

  // ---- Leases

  // A claim can get a new lease: the worker is active and due, and holds no lease, or only one that has expired
  // without a command having been planned under it.
  predicate Grantable(w: Worker, at: int) {
    && w.status.Active? && (w.nextWakeAt.None? || w.nextWakeAt.value <= at)
    && (w.lease.None? || (w.lease.value.expiresAt <= at && w.lease.value.plan.None?))
  }

  // The worker's lease has expired although its command was never resolved.
  predicate Stranded(w: Worker, at: int) {
    && w.status.Active? && (w.nextWakeAt.None? || w.nextWakeAt.value <= at)
    && w.lease.Some? && w.lease.value.expiresAt <= at && w.lease.value.plan.Some?
  }

  // What a claim under an active campaign does to any record: a new lease exactly if it can get one, a human
  // gate exactly over an expired unresolved command, and nothing otherwise; a live lease always stands.
  lemma ClaimOutcome(w: Worker, leaseId: nat, leaseMs: nat, at: int)
    ensures var v := Apply(w, DoClaim(CampaignActive, leaseId, leaseMs), at);
      && (Grantable(w, at) ==> v == w.(lease := Some(Lease(leaseId, at + leaseMs, None))))
      && (Stranded(w, at) ==> v == w.(status := HumanGate, nextWakeAt := None))
      && (!Grantable(w, at) && !Stranded(w, at) ==> v == w)
    ensures forall id :: HoldsLease(w, id, at) ==> Apply(w, DoClaim(CampaignActive, leaseId, leaseMs), at) == w
  {
  }

  // A campaign that is over closes its worker for good.
  lemma ClosedCampaignEndsWorker(w: Worker, campaign: CampaignStatus, leaseId: nat, leaseMs: nat, at: int)
    requires !campaign.CampaignActive?
    ensures var v := Apply(w, DoClaim(campaign, leaseId, leaseMs), at);
      && v.lease.None? && v.nextWakeAt.None?
        && (if campaign.CampaignRevoked? then v.status.Revoked? else v.status.Done?)
      && (forall t :: Apply(v, DoResume, t) == v)
        && (forall id, ms, t :: Apply(v, DoClaim(CampaignActive, id, ms), t) == v)
  {
  }

  // Call n of this history got a new lease.
  predicate Granted(start: int, maxFailures: nat, ops: seq<(Op, int)>, n: nat) {
    && n < |ops| && ops[n].0.DoClaim?
    && var before, after := History(start, maxFailures, ops[..n]), History(start, maxFailures, ops[..n + 1]);
       after.lease.Some? && after.lease != before.lease
  }

  // The calls that can end a lease before it expires.
  predicate EndsLease(op: Op) {
    op.DoComplete? || op.DoResume? || op.DoRevoke? || (op.DoClaim? && !op.campaign.CampaignActive?)
  }

  lemma LeaseStep(w: Worker, op: Op, at: int)
    requires w.lease.Some? && !EndsLease(op)
    ensures var v := Apply(w, op, at);
      && v.lease.Some? && v.lease.value.expiresAt >= w.lease.value.expiresAt
      && (w.lease.value.plan.Some? ==>
        && v.lease.value.id == w.lease.value.id && v.lease.value.plan.Some?
        && v.lease.value.plan.value.tool == w.lease.value.plan.value.tool
        && v.lease.value.plan.value.digest == w.lease.value.plan.value.digest)
  {
    if op.DoClaim? { ClaimOutcome(w, op.leaseId, op.leaseMs, at); }
  }

  lemma HistoryStep(start: int, maxFailures: nat, ops: seq<(Op, int)>, n: nat)
    requires n < |ops|
    ensures History(start, maxFailures, ops[..n + 1])
      == Apply(History(start, maxFailures, ops[..n]), ops[n].0, ops[n].1)
  {
    assert ops[..n + 1][..n] == ops[..n];
  }

  lemma GrantNeedsExpiry(start: int, maxFailures: nat, ops: seq<(Op, int)>, n: nat)
    requires Granted(start, maxFailures, ops, n)
    ensures var before := History(start, maxFailures, ops[..n]);
      ops[n].0.campaign.CampaignActive? && Grantable(before, ops[n].1)
    ensures History(start, maxFailures, ops[..n + 1]).lease
      == Some(Lease(ops[n].0.leaseId, ops[n].1 + ops[n].0.leaseMs, None))
  {
    HistoryStep(start, maxFailures, ops, n);
    var before := History(start, maxFailures, ops[..n]);
    if ops[n].0.campaign.CampaignActive? { ClaimOutcome(before, ops[n].0.leaseId, ops[n].0.leaseMs, ops[n].1); }
    else { ClosedCampaignEndsWorker(before, ops[n].0.campaign, ops[n].0.leaseId, ops[n].0.leaseMs, ops[n].1); }
  }

  // From position m on a lease is held, and it expires no earlier than the one held at m.
  lemma {:induction false} LeaseLasts(start: int, maxFailures: nat, ops: seq<(Op, int)>, m: nat, n: nat)
    requires m <= n <= |ops| && History(start, maxFailures, ops[..m]).lease.Some?
    requires forall k :: m <= k < n ==> !EndsLease(ops[k].0)
    ensures var w, v := History(start, maxFailures, ops[..m]), History(start, maxFailures, ops[..n]);
      && v.lease.Some? && v.lease.value.expiresAt >= w.lease.value.expiresAt
      && (w.lease.value.plan.Some? ==>
        && v.lease.value.id == w.lease.value.id && v.lease.value.plan.Some?
        && v.lease.value.plan.value.tool == w.lease.value.plan.value.tool
        && v.lease.value.plan.value.digest == w.lease.value.plan.value.digest)
    decreases n
  {
    if m < n {
      LeaseLasts(start, maxFailures, ops, m, n - 1);
      HistoryStep(start, maxFailures, ops, n - 1);
      LeaseStep(History(start, maxFailures, ops[..n - 1]), ops[n - 1].0, ops[n - 1].1);
    }
  }

  // Two leases of one history never overlap: unless a completion, a resume, a revocation or the campaign's end
  // comes between them, the second is granted only when the first has expired.
  lemma LeasesNeverOverlap(start: int, maxFailures: nat, ops: seq<(Op, int)>, m: nat, n: nat)
    requires m < n && Granted(start, maxFailures, ops, m) && Granted(start, maxFailures, ops, n)
    requires forall k :: m < k < n ==> !EndsLease(ops[k].0)
    ensures ops[m].1 + ops[m].0.leaseMs <= ops[n].1
  {
    GrantNeedsExpiry(start, maxFailures, ops, m);
    GrantNeedsExpiry(start, maxFailures, ops, n);
    LeaseLasts(start, maxFailures, ops, m + 1, n);
  }

  // No history claims a new lease over an unresolved command: once planned, it stays the leased one, whatever
  // the time, until it is completed, the worker resumed or revoked, or the campaign over.
  lemma CommandsAreNotReclaimed(start: int, maxFailures: nat, ops: seq<(Op, int)>, m: nat, n: nat)
    requires m <= n < |ops|
    requires var w := History(start, maxFailures, ops[..m]); w.lease.Some? && w.lease.value.plan.Some?
    requires forall k :: m <= k < n ==> !EndsLease(ops[k].0)
    ensures !Granted(start, maxFailures, ops, n)
    ensures var w, v := History(start, maxFailures, ops[..m]), History(start, maxFailures, ops[..n]);
      && v.lease.Some? && v.lease.value.plan.Some? && v.lease.value.id == w.lease.value.id
      && v.lease.value.plan.value.digest == w.lease.value.plan.value.digest
  {
    LeaseLasts(start, maxFailures, ops, m, n);
    if Granted(start, maxFailures, ops, n) { GrantNeedsExpiry(start, maxFailures, ops, n); }
  }

  // ---- Endings

  // The waits after one to nine transient failures in a row; further ones wait as long as the ninth.
  const BACKOFFS_MS: seq<nat> :=
    [300_000, 600_000, 1_200_000, 2_400_000, 4_800_000, 9_600_000, 19_200_000, 38_400_000, 76_800_000]

  function WaitAfter(earlier: nat): nat { BACKOFFS_MS[if earlier < 9 then earlier else 8] }

  lemma BackoffIs(earlier: nat)
    ensures Backoff(earlier + 1) == WaitAfter(earlier)
  {
    assert Power2(1) == 2 && Power2(2) == 4 && Power2(3) == 8 && Power2(4) == 16;
    assert Power2(5) == 32 && Power2(6) == 64 && Power2(7) == 128 && Power2(8) == 256;
  }

  // When a lease can be ended this way.
  predicate CanEnd(w: Worker, leaseId: nat, ending: Ending, at: int) {
    && HoldsLease(w, leaseId, at)
    && match ending
       case ActionSucceeded => Finished(w)
       case TransientFailure => w.lease.value.plan.Some?
       case DoneForNow(wakeAt) => wakeAt.None? || wakeAt.value > at
       case Gate => true
  }

  // A refused ending changes nothing. An accepted one makes a succeeded worker due at once and a failed one due
  // after its backoff; the failure that uses up the budget gates the worker with its lease kept, as a gate does.
  lemma EndingOutcome(w: Worker, leaseId: nat, ending: Ending, at: int)
    ensures var v := Apply(w, DoComplete(leaseId, ending), at);
      && (Complete(w, leaseId, ending, at).Success? <==> CanEnd(w, leaseId, ending, at))
      && v.maxFailures == w.maxFailures
      && if !CanEnd(w, leaseId, ending, at) then v == w
         else if ending.Gate? || (ending.TransientFailure? && w.failures + 1 >= w.maxFailures) then
           v.status.HumanGate? && v.nextWakeAt.None? && v.lease == w.lease && v.completed == w.completed
         else
           && v.lease.None? && v.completed == w.completed + (if ending.ActionSucceeded? then 1 else 0)
           && (v.status.Active? || (v.status.Done? && ending == DoneForNow(None)))
           && v.nextWakeAt ==
              match ending
              case ActionSucceeded => Some(at)
              case DoneForNow(wakeAt) => wakeAt
              case _ => Some(at + WaitAfter(w.failures))
  {
    BackoffIs(w.failures);
  }

  // The transient failures accepted since the last other ending or resumption.
  function FailuresInARow(start: int, maxFailures: nat, ops: seq<(Op, int)>): nat {
    if ops == [] then 0
    else
      var front := ops[..|ops| - 1];
      var (op, at) := ops[|ops| - 1];
      var before := History(start, maxFailures, front);
      if op.DoComplete? && CanEnd(before, op.lease, op.ending, at) && !op.ending.Gate? then
        if op.ending.TransientFailure? then FailuresInARow(start, maxFailures, front) + 1 else 0
      else if op.DoResume? && before.status in {Paused, HumanGate} then 0
      else FailuresInARow(start, maxFailures, front)
  }

  // In every history the recorded failures are those in a row, and an active worker has not used up its budget.
  lemma {:induction false} FailureBudgetHolds(start: int, maxFailures: nat, ops: seq<(Op, int)>)
    requires maxFailures > 0
    ensures var w := History(start, maxFailures, ops);
      && w.failures == FailuresInARow(start, maxFailures, ops) && w.maxFailures == maxFailures
      && (w.status.Active? ==> w.failures < maxFailures)
  {
    if ops != [] {
      var front := ops[..|ops| - 1];
      var (op, at) := ops[|ops| - 1];
      FailureBudgetHolds(start, maxFailures, front);
      if op.DoComplete? { EndingOutcome(History(start, maxFailures, front), op.lease, op.ending, at); }
    }
  }

  // A gated worker becomes active exactly when the operator resumes it or when the lease it was gated under is
  // still live and is ended as succeeded, for now, or as failed within the budget.
  lemma GateIsLeftIff(w: Worker, op: Op, at: int)
    requires w.status.HumanGate?
    ensures Apply(w, op, at).status.Active? <==>
      || op.DoResume?
      || (op.DoComplete? && CanEnd(w, op.lease, op.ending, at)
          && match op.ending
             case ActionSucceeded => true
             case DoneForNow(wakeAt) => wakeAt.Some?
             case TransientFailure => w.failures + 1 < w.maxFailures
             case Gate => false)
  {
    if op.DoComplete? { EndingOutcome(w, op.lease, op.ending, at); }
  }

  // A resumed worker starts over: due at once, without its old lease or its failures.
  lemma ResumeOutcome(w: Worker, at: int)
    ensures var v := Apply(w, DoResume, at);
      if w.status.Paused? || w.status.HumanGate? then
        v == Worker(Active, Some(at), None, 0, w.maxFailures, w.completed)
      else v == w
  {
  }

  // A revoked worker is never active again.
  lemma RevokedStays(w: Worker, op: Op, at: int)
    requires w.status.Revoked? && w.lease.None?
    ensures var v := Apply(w, op, at); v.lease.None? && (v.status.Revoked? || (op.DoClaim? && v.status.Done?))
    ensures var v := Apply(Revoke(w), op, at); v.lease.None? && !v.status.Active?
  {
  }

  // The command under a live lease is issued once and its first receipt stands: a second one is accepted exactly
  // when it agrees, and changes nothing.
  lemma PlanOutcome(w: Worker, leaseId: nat, tool: string, digest: nat, receipt: ReceiptState, at: int)
    requires w.lease.Some?
    ensures var v := Apply(w, DoIssue(leaseId, tool, digest), at);
      if HoldsLease(w, leaseId, at) && w.lease.value.plan.None? then
        v == w.(lease := Some(Lease(leaseId, w.lease.value.expiresAt, Some(Plan(tool, digest, None)))))
      else v == w
    ensures var v := Apply(w, DoReceipt(leaseId, digest, receipt), at);
      if HoldsLease(w, leaseId, at) && w.lease.value.plan.Some? && w.lease.value.plan.value.digest == digest
         && w.lease.value.plan.value.receipt.None?
      then
        v == w.(lease := Some(Lease(leaseId, w.lease.value.expiresAt,
          Some(Plan(w.lease.value.plan.value.tool, digest, Some(receipt))))))
      else v == w
    ensures RecordReceipt(w, leaseId, digest, receipt, at).Success? <==>
      HoldsLease(w, leaseId, at) && w.lease.value.plan.Some? && w.lease.value.plan.value.digest == digest
      && w.lease.value.plan.value.receipt in {None, Some(receipt)}
  {
  }

  // Two records have one schedule token exactly when a wake computed from either is right for the other, and the
  // leased command is the same.
  lemma TokensAgreeIff(a: Worker, b: Worker)
    ensures ScheduleToken(a) == ScheduleToken(b) <==>
      && a.status == b.status && a.nextWakeAt == b.nextWakeAt && (a.lease.Some? <==> b.lease.Some?)
      && (a.lease.Some? && b.lease.Some? ==>
        && a.lease.value.id == b.lease.value.id && a.lease.value.expiresAt == b.lease.value.expiresAt
        && (a.lease.value.plan.Some? <==> b.lease.value.plan.Some?)
        && (a.lease.value.plan.Some? && b.lease.value.plan.Some? ==>
          a.lease.value.plan.value.digest == b.lease.value.plan.value.digest))
  {
  }
}
