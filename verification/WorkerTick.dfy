// The worker tick and startup recovery as imperative code over the durable worker records and the host's
// scheduled turns, with every call able to fail, before or after it took effect, or to be the last one the
// process makes.
module WorkerTick {
  import opened Wrappers
  import opened WorkerLedger

  // How one call ends: Threw and Crashed may come before or after the call took effect.
  datatype CallFate = Done | Threw(applied: bool) | Crashed(applied: bool)
  {
    predicate Applies() { Done? || applied }
  }

  datatype Exit = Returned | Raised | Died

  function ExitOf(f: CallFate): Exit {
    match f
    case Done => Returned
    case Threw(_) => Raised
    case Crashed(_) => Died
  }

  // One pass of scheduleWorkerRoute, as far as it can get: an unreachable lock, a replacement the host does
  // not confirm (which may or may not have removed the old job), a registration it refuses, one it makes
  // but answers with an error, a confirmed one, or the process ending with the job as given.
  datatype Scheduling =
    | NoSession
    | NoLock
    | NotCleared(removed: bool)
    | NotRegistered
    | RegisteredUnconfirmed
    | Confirmed
    | DiedAfter(cleared: bool, registered: bool)

  // What the campaign planner answers.
  datatype Planned =
    | PlanFails(crash: bool)
    | ActionReady(tool: string, digest: nat, interactive: bool)
    | CampaignGate
    | DoneForNowAt(wakeAt: Option<int>, deferredGates: nat)
    | PlanInvalid

  datatype TickFates = TickFates(
    claim: CallFate, baseline: CallFate, issue: CallFate, complete: CallFate, scheduling: Scheduling,
    gate: CallFate, report: CallFate, lastGate: CallFate)

  datatype RecoveryFates = RecoveryFates(scheduling: Scheduling, lookup: CallFate, gate: CallFate, lastGate: CallFate)

  // What the ledger is to store for a plan, from the claimed record; Failure where the tick throws instead.
  function Carried(w: Worker, leaseId: nat, plan: Planned, issueAt: int, completeAt: int): Result<Worker> {
    match plan
    case PlanFails(_) => Failure
    case PlanInvalid => Failure
    case ActionReady(tool, digest, interactive) =>
      if interactive then Complete(w, leaseId, Gate, completeAt) else Issue(w, leaseId, tool, digest, issueAt)
    case CampaignGate => Complete(w, leaseId, Gate, completeAt)
    case DoneForNowAt(wakeAt, deferredGates) =>
      Complete(w, leaseId, if deferredGates > 0 then Gate else DoneForNow(wakeAt), completeAt)
  }

  // What a tick is to leave of a claimed record for each plan, when every call answers: an interactive command
  // is gated and never issued.
  predicate Leaves(claimed: Worker, leaseId: nat, plan: Planned, issueAt: int, completeAt: int, now: Worker)
    requires claimed.lease.Some?
  {
    var gated := claimed.(status := HumanGate, nextWakeAt := None);
    var lease := claimed.lease.value;
    match plan
    case PlanFails(crash) => !crash ==> now == gated
    case PlanInvalid => now == gated
    case ActionReady(tool, digest, interactive) =>
      now == if interactive || lease.expiresAt <= issueAt then gated
             else claimed.(lease := Some(lease.(plan := Some(Plan(tool, digest, None)))))
    case CampaignGate => now == gated
    case DoneForNowAt(wakeAt, deferredGates) =>
      now ==
        if deferredGates > 0 || lease.expiresAt <= completeAt || (wakeAt.Some? && wakeAt.value <= completeAt) then gated
        else
          claimed.(lease := None, status := if wakeAt.None? then Status.Done
            else Active, nextWakeAt := wakeAt, failures := 0)
  }

  // Every call takes effect and answers.
  predicate Calm(f: TickFates) {
    f.claim.Done? && f.baseline.Done? && f.issue.Done? && f.complete.Done? && f.scheduling.Confirmed? && f.report.Done?
    && f.lastGate.Done?
  }

  predicate KeptOrGated(was: Worker, now: Worker) { now == was || now == GateRecovery(was) }

  // Recovery finds a wake to restore and the host confirms it.
  predicate Rescheduled(was: Worker, f: RecoveryFates) {
    was.status == Active && WakeAt(was).Some? && f.scheduling.Confirmed?
  }

  // Recovery changes a record only by gating it, and never when the wake is confirmed or not due to it.
  predicate Recovered(was: Worker, now: Worker, f: RecoveryFates) {
    KeptOrGated(was, now) && (was.status != Active || WakeAt(was).None? || f.scheduling.Confirmed? ==> now == was)
  }

  // The worker has a wake that recovery must restore, and the host did not confirm it.
  predicate Unrestored(was: Worker, f: RecoveryFates) {
    was.status == Active && WakeAt(was).Some? && !f.scheduling.Confirmed? && !f.scheduling.DiedAfter?
  }

  // The turn gets to the gate write of the catch clause: no session was trusted, or the lookup of the token
  // or the first gate write threw.
  predicate ReachesLastGate(was: Worker, f: RecoveryFates) {
    Unrestored(was, f) && (f.scheduling.NoSession? || f.lookup.Threw? || (f.lookup.Done? && f.gate.Threw?))
  }

  predicate Stops(was: Worker, f: RecoveryFates) { ReachesLastGate(was, f) && f.lastGate.Threw? }

  predicate Dies(was: Worker, f: RecoveryFates) {
    || (was.status == Active && WakeAt(was).Some? && f.scheduling.DiedAfter?)
    || (Unrestored(was, f) && !f.scheduling.NoSession? && (f.lookup.Crashed? || (f.lookup.Done? && f.gate.Crashed?)))
    || (ReachesLastGate(was, f) && f.lastGate.Crashed?)
  }

  class WorkerHost {
    var workers: seq<Worker>
    // jobs[i]: the pending turn under worker i's tag, with the schedule token of the record it was made for.
    var jobs: seq<Option<Token>>

    constructor (ws: seq<Worker>)
      ensures Valid() && workers == ws && forall i :: 0 <= i < |ws| ==> jobs[i] == None
    {
      workers := ws;
      jobs := seq(|ws|, _ => None);
    }

    ghost predicate Valid()
      reads this
    {
      |jobs| == |workers|
    }

    // The worker will not vanish: it is closed or gated, or a wake computed from its stored record is pending.
    ghost predicate Safe(i: nat)
      reads this
      requires Valid() && i < |workers|
    {
      workers[i].status != Active || jobs[i] == Some(ScheduleToken(workers[i]))
    }

    twostate predicate OthersKept(i: nat)
      reads this
    {
      && |workers| == old(|workers|) && |jobs| == old(|jobs|)
      && (forall k :: 0 <= k < |workers| && k != i ==> workers[k] == old(workers)[k])
      && (forall k :: 0 <= k < |jobs| && k != i ==> jobs[k] == old(jobs)[k])
    }

    // A ledger update: refused ones store nothing and throw.
    method Store(i: nat, next: Result<Worker>, fate: CallFate) returns (exit: Exit)
      requires Valid() && i < |workers|
      modifies this`workers
      ensures workers == if next.Success? && fate.Applies() then old(workers)[i := next.value] else old(workers)
      ensures exit == if next.Failure? then Raised else ExitOf(fate)
    {
      if next.Failure? { return Raised; }
      if fate.Applies() { workers := workers[i := next.value]; }
      exit := ExitOf(fate);
    }

    method Schedule(i: nat, s: Scheduling) returns (exit: Exit, registered: bool)
      requires Valid() && i < |workers|
      modifies this`jobs
      ensures Valid() && forall k :: 0 <= k < |jobs| && k != i ==> jobs[k] == old(jobs)[k]
      ensures registered <==> exit.Returned? && s.Confirmed?
      ensures registered ==> jobs[i] == Some(ScheduleToken(workers[i]))
      ensures exit == if s.NoSession? then Raised else if s.DiedAfter? then Died else Returned
      ensures jobs[i] == old(jobs)[i] || jobs[i] == None || jobs[i] == Some(ScheduleToken(workers[i]))
    {
      exit, registered := Returned, false;
      match s {
        case NoSession => exit := Raised;
        case NoLock =>
        case NotCleared(removed) => if removed { jobs := jobs[i := None]; }
        case NotRegistered => jobs := jobs[i := None];
        case RegisteredUnconfirmed => jobs := jobs[i := Some(ScheduleToken(workers[i]))];
        case Confirmed =>
          jobs := jobs[i := Some(ScheduleToken(workers[i]))];
          registered := true;
        case DiedAfter(cleared, made) =>
          if cleared { jobs := jobs[i := if made then Some(ScheduleToken(workers[i])) else None]; }
          exit := Died;
      }
    }

    method GateWorker(i: nat, fate: CallFate) returns (exit: Exit)
      requires Valid() && i < |workers|
      modifies this`workers
      ensures workers == if fate.Applies() then old(workers)[i := GateRecovery(old(workers)[i])] else old(workers)
      ensures exit == ExitOf(fate)
    {
      exit := Store(i, Success(GateRecovery(workers[i])), fate);
    }

    // Schedule the next wake; a wake that is not confirmed gates the worker.
    method ScheduleOrGate(i: nat, s: Scheduling, gate: CallFate) returns (exit: Exit)
      requires Valid() && i < |workers|
      modifies this
      ensures Valid() && OthersKept(i)
      ensures exit.Returned? || (exit.Raised? && !s.NoSession? && gate.Applies()) ==> Safe(i)
      ensures exit.Raised? ==> s.NoSession? || gate.Threw?
      ensures exit.Died? ==> s.DiedAfter? || gate.Crashed?
      ensures KeptOrGated(old(workers)[i], workers[i])
      ensures s.Confirmed? ==> exit.Returned? && workers == old(workers)
    {
      var registered;
      exit, registered := Schedule(i, s);
      if !exit.Returned? || registered { return; }
      exit := GateWorker(i, gate);
    }

    // What a tick does between a granted claim and its catch clause.
    method AfterClaim(i: nat, leaseId: nat, plan: Planned, f: TickFates, issueAt: int, completeAt: int)
      returns (exit: Exit)
      requires Valid() && i < |workers|
      modifies this
      ensures Valid() && OthersKept(i)
      ensures exit.Returned? ==> Safe(i)
      ensures var r := Carried(old(workers)[i], leaseId, plan, issueAt, completeAt);
        && (KeptOrGated(old(workers)[i], workers[i]) || (r.Success? && KeptOrGated(r.value, workers[i])))
        && (r.Success? && Calm(f) ==> exit.Returned? && workers[i] == r.value)
        && (r.Failure? ==> !exit.Returned? && workers == old(workers))
        && (r.Failure? && Calm(f) ==> exit == if plan.PlanFails? && plan.crash then Died else Raised)
    {
      match plan {
        case PlanFails(crash) => return if crash then Died else Raised;
        case PlanInvalid => return Raised;
        case ActionReady(tool, digest, interactive) =>
          if interactive {
            exit := Store(i, Complete(workers[i], leaseId, Gate, completeAt), f.complete);
            return;
          }
          if !f.baseline.Done? { return ExitOf(f.baseline); }
          exit := Store(i, Issue(workers[i], leaseId, tool, digest, issueAt), f.issue);
          if !exit.Returned? { return; }
          exit := ScheduleOrGate(i, f.scheduling, f.gate);
          if exit.Returned? { exit := ExitOf(f.report); }
        case CampaignGate =>
          exit := Store(i, Complete(workers[i], leaseId, Gate, completeAt), f.complete);
        case DoneForNowAt(wakeAt, deferredGates) =>
          if deferredGates > 0 {
            exit := Store(i, Complete(workers[i], leaseId, Gate, completeAt), f.complete);
            return;
          }
          exit := Store(i, Complete(workers[i], leaseId, DoneForNow(wakeAt), completeAt), f.complete);
          if exit.Returned? && workers[i].status == Active {
            exit := ScheduleOrGate(i, f.scheduling, f.gate);
          }
      }
    }

    // One tick. Past a granted claim, whichever call fails and however, the worker ends closed, gated or
    // with a confirmed wake, unless the process dies or the gate write of the catch clause has no effect.
    method Tick(i: nat, campaign: CampaignStatus, leaseId: nat, leaseMs: nat, plan: Planned, f: TickFates,
                claimAt: int, issueAt: int, completeAt: int)
      returns (exit: Exit, ghost answer: Claim)
      requires Valid() && i < |workers|
      modifies this
      ensures Valid() && OthersKept(i)
      ensures answer == ClaimLease(old(workers)[i], campaign, leaseId, leaseMs, claimAt)
      ensures answer.Claimed? <==> campaign.CampaignActive? && Grantable(old(workers)[i], claimAt)
      ensures answer.Claimed? ==>
        answer.worker == old(workers)[i].(lease := Some(Lease(leaseId, claimAt + leaseMs, None)))
      ensures campaign.CampaignActive? && (exists id :: HoldsLease(old(workers)[i], id, claimAt)) ==>
        KeptOrGated(old(workers)[i], workers[i])
      ensures f.claim.Done? && answer.Claimed? && Calm(f) && exit != Died ==>
        Leaves(answer.worker, leaseId, plan, issueAt, completeAt, workers[i])
      ensures f.claim.Done? && answer.Claimed? && plan.ActionReady? && plan.interactive ==>
        workers[i].lease == answer.worker.lease
      ensures f.claim.Done? && answer.Claimed? && exit != Died && f.lastGate.Applies() ==> Safe(i)
      ensures f.claim.Done? && answer.NotDue? && exit != Died && !f.scheduling.NoSession? && f.gate.Applies()
        ==> Safe(i)
      ensures f.claim.Done? && answer.Closed? ==> Safe(i)
      ensures f.claim.Done? && answer.Claimed? ==>
        var r := Carried(answer.worker, leaseId, plan, issueAt, completeAt);
        && (KeptOrGated(answer.worker, workers[i]) || (r.Success? && KeptOrGated(r.value, workers[i])))
        && (Calm(f) && exit != Died ==> workers[i] == if r.Success? then r.value else GateRecovery(answer.worker))
      ensures f.claim.Done? && answer.NotDue? ==> KeptOrGated(old(workers)[i], workers[i])
      ensures answer.ClaimRefused? ==> workers == old(workers) && jobs == old(jobs)
      ensures !answer.ClaimRefused? && !f.claim.Done? ==>
        exit == ExitOf(f.claim) && jobs == old(jobs)
        && workers == if f.claim.Applies() then old(workers)[i := answer.worker] else old(workers)
      ensures Wakeable(old(workers)[i]) ==> Wakeable(workers[i])
    {
      var claim := ClaimLease(workers[i], campaign, leaseId, leaseMs, claimAt);
      answer := claim;
      if claim.ClaimRefused? { return Raised, claim; }
      exit := Store(i, Success(claim.worker), f.claim);
      if !exit.Returned? { return; }
      match claim {
        case NotDue(_) => exit := ScheduleOrGate(i, f.scheduling, f.gate);
        case Closed(_) =>
        case Claimed(_) =>
          exit := AfterClaim(i, leaseId, plan, f, issueAt, completeAt);
          if exit == Raised {
            var gated := GateWorker(i, f.lastGate);
            if gated == Died { exit := Died; }
          }
      }
    }

    // One worker's turn in startup recovery: the inner gate attempt, then the one of the catch clause.
    method RecoverOne(i: nat, f: RecoveryFates) returns (exit: Exit)
      requires Valid() && i < |workers|
      modifies this
      ensures Valid() && OthersKept(i)
      ensures exit.Returned? && Wakeable(old(workers)[i]) ==> Safe(i)
      ensures exit.Raised? <==> Stops(old(workers)[i], f)
      ensures exit.Died? <==> Dies(old(workers)[i], f)
      ensures Recovered(old(workers)[i], workers[i], f) && (Rescheduled(old(workers)[i], f) ==> Safe(i))
    {
      if workers[i].status != Active || WakeAt(workers[i]).None? { return Returned; }
      var registered;
      exit, registered := Schedule(i, f.scheduling);
      if exit.Died? || registered { return; }
      if exit.Returned? {
        exit := ExitOf(f.lookup);
        if exit.Returned? { exit := GateWorker(i, f.gate); }
      }
      if exit.Raised? { exit := GateWorker(i, f.lastGate); }
    }

    // Startup recovery over every stored worker. It handles the workers in order up to `handled`; each of
    // those ends closed, gated or with a confirmed wake. It stops early exactly at the first worker at which
    // the process dies or the catch clause's own gate write throws; the later ones keep their records and jobs.
    method Recover(fates: seq<RecoveryFates>) returns (exit: Exit, handled: nat)
      requires Valid() && |fates| == |workers|
      modifies this
      ensures Valid() && |workers| == old(|workers|) && handled <= |workers|
      ensures forall k :: 0 <= k < handled && Wakeable(old(workers)[k]) ==> Safe(k)
      ensures forall k :: 0 <= k < handled ==> Recovered(old(workers)[k], workers[k], fates[k])
      ensures forall k :: 0 <= k < handled ==> !Stops(old(workers)[k], fates[k]) && !Dies(old(workers)[k], fates[k])
      ensures exit.Returned? <==> handled == |workers|
      ensures exit.Raised? <==> handled < |workers| && Stops(old(workers)[handled], fates[handled])
      ensures forall k :: handled < k < |workers| ==> workers[k] == old(workers)[k] && jobs[k] == old(jobs)[k]
    {
      handled, exit := 0, Returned;
      while handled < |workers|
        invariant Valid() && |workers| == old(|workers|) && handled <= |workers|
        invariant exit.Returned?
        invariant forall k :: 0 <= k < handled && Wakeable(old(workers)[k]) ==> Safe(k)
        invariant forall k :: 0 <= k < handled ==> Recovered(old(workers)[k], workers[k], fates[k])
        invariant forall k :: 0 <= k < handled ==> !Stops(old(workers)[k], fates[k]) && !Dies(old(workers)[k], fates[k])
        invariant forall k :: handled <= k < |workers| ==> workers[k] == old(workers)[k] && jobs[k] == old(jobs)[k]
      {
        exit := RecoverOne(handled, fates[handled]);
        if !exit.Returned? { return; }
        handled := handled + 1;
      }
    }

    // Whatever a tick's calls did, even if the process died in one of them or its last gate write failed, a
    // restart whose own gate writes succeed leaves every worker closed, gated or with a confirmed wake.
    method TickThenRestart(i: nat, campaign: CampaignStatus, leaseId: nat, leaseMs: nat, plan: Planned, f: TickFates,
                           claimAt: int, issueAt: int, completeAt: int, fates: seq<RecoveryFates>)
      returns (exit: Exit)
      requires Valid() && i < |workers| && |fates| == |workers|
      requires forall k :: 0 <= k < |workers| ==> Wakeable(workers[k])
      requires forall k :: 0 <= k < |fates| ==> !fates[k].lastGate.Threw?
      modifies this
      ensures Valid() && |workers| == old(|workers|)
      ensures !exit.Died? ==> forall k :: 0 <= k < |workers| ==> Safe(k)
      ensures !exit.Raised?
    {
      var e, _ := Tick(i, campaign, leaseId, leaseMs, plan, f, claimAt, issueAt, completeAt);
      var n;
      exit, n := Recover(fates);
    }
  }

  // A pass that stops at one worker leaves the next one without a wake, although the host would confirm it.
  method StoppedRecoveryLosesAWorker(first: Worker, second: Worker, f: RecoveryFates, g: RecoveryFates)
    returns (host: WorkerHost)
    requires Stops(first, f) && second.status == Active && WakeAt(second).Some? && g.scheduling.Confirmed?
    ensures host.Valid() && |host.workers| == 2 && host.workers[1] == second && host.jobs[1] == None && !host.Safe(1)
  {
    host := new WorkerHost([first, second]);
    assert host.workers[0] == first;
    var _, handled := host.Recover([f, g]);
    assert handled == 0;
  }

  // Such a pass exists for every active worker with a wake time.
  lemma RecoveryCanStop(was: Worker, g: CallFate)
    requires was.status == Active && WakeAt(was).Some?
    ensures Stops(was, RecoveryFates(NoSession, g, g, CallFate.Threw(false)))
    ensures Stops(was, RecoveryFates(NotRegistered, CallFate.Done, CallFate.Threw(false), CallFate.Threw(false)))
  {
  }

  // A claim that was stored and then threw leaves an active worker whose new lease no wake stands for.
  method StoredClaimCanLoseTheWake(w: Worker, leaseId: nat, leaseMs: nat, plan: Planned, f: TickFates, at: int)
    returns (host: WorkerHost)
    requires ClaimLease(w, CampaignActive, leaseId, leaseMs, at).Claimed? && f.claim == CallFate.Threw(true)
    ensures host.Valid() && |host.workers| == 1 && host.workers[0].status == Active && !host.Safe(0)
    ensures host.workers[0].lease == Some(Lease(leaseId, at + leaseMs, None)) && host.jobs[0] == None
  {
    host := new WorkerHost([w]);
    var _, _ := host.Tick(0, CampaignActive, leaseId, leaseMs, plan, f, at, at, at);
  }
}
