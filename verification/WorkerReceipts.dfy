// What backs a worker's success: the before and after hooks bind one tool call to the exact leased command,
// the ledger keeps the receipt, and worker_complete closes the lease on it. Every await is one event and
// any number of hooks and completions interleave. Lease ids and hook keys never collide.
module WorkerReceipts {
  import opened Wrappers
  import opened WorkerLedger

  datatype Key = Key(session: nat, run: nat, call: nat)

  // What the before-hook matched: the lease and the exact command (its execution digest) planned under it.
  datatype Binding = Binding(lease: nat, tool: string, digest: nat)

  datatype Hook = Hook(key: Key, binding: Binding, live: bool)

  datatype Wanted = WantSuccess | WantTransient | WantGate

  // A worker_complete call that has read the pending command; readAt is the length of the log at that time.
  datatype Completion = Completion(lease: nat, wanted: Wanted, receipt: Option<ReceiptState>, readAt: nat, live: bool)

  // What happened, in order. Bound: a before-hook registered its key. Consumed: an after-hook that had matched
  // its key deleted it (late when it was no longer registered). Observed: that hook's write stored the receipt
  // or not. Ended: a lease ended.
  datatype Entry =
    | Bound(key: Key, binding: Binding)
    | Consumed(key: Key, binding: Binding, late: bool)
    | Observed(key: Key, binding: Binding, receipt: ReceiptState, stored: bool)
    | Ended(lease: nat, plan: Option<Plan>, ending: Ending)

  // afters: after-hooks that have matched; writing: those that have deleted their key and write the receipt.
  datatype State = State(
    worker: Worker, nextLease: nat, calls: map<Key, Binding>, befores: seq<Hook>, afters: seq<Hook>,
    writing: seq<Hook>, completions: seq<Completion>, log: seq<Entry>)

  datatype Event =
    | Claim(campaign: CampaignStatus, leaseMs: nat, at: int)
    | Planned(lease: nat, tool: string, digest: nat, at: int)
    | Operator(op: Op, at: int)
    | TickCloses(lease: nat, ending: Ending, at: int)
    | BeforeMatch(key: Key, tool: string, digest: nat, at: int)
    | BeforeBind(p: nat)
    | AfterMatch(key: Key, tool: string, digest: nat, at: int)
    | AfterConsume(p: nat)
    | AfterRecord(p: nat, receipt: ReceiptState, at: int)
    | CompleteRead(lease: nat, wanted: Wanted)
    | CompleteClose(p: nat, at: int)

  // The lease whose planned command is this exact one and still has no receipt.
  function Match(w: Worker, tool: string, digest: nat, at: int): Option<Binding> {
    if w.status == Active && w.lease.Some? && w.lease.value.expiresAt > at
       && w.lease.value.plan == Some(Plan(tool, digest, None))
    then Some(Binding(w.lease.value.id, tool, digest))
    else None
  }

  function StepBeforeMatch(s: State, key: Key, tool: string, digest: nat, at: int): State {
    var m := Match(s.worker, tool, digest, at);
    if m.None? then s else s.(befores := s.befores + [Hook(key, m.value, true)])
  }

  // A key still registered blocks the call.
  function StepBeforeBind(s: State, p: nat): State {
    if p >= |s.befores| || !s.befores[p].live then s
    else
      var h := s.befores[p];
      var t := s.(befores := s.befores[p := h.(live := false)]);
      if h.key in s.calls then t
      else t.(calls := s.calls[h.key := h.binding], log := s.log + [Bound(h.key, h.binding)])
  }

  function StepAfterMatch(s: State, key: Key, tool: string, digest: nat, at: int): State {
    if key !in s.calls || s.calls[key].tool != tool then s
    else if Match(s.worker, tool, digest, at) != Some(s.calls[key]) then s
    else s.(afters := s.afters + [Hook(key, s.calls[key], true)])
  }

  function PlanReceipt(w: Worker): Option<ReceiptState> {
    if w.lease.Some? && w.lease.value.plan.Some? then w.lease.value.plan.value.receipt else None
  }

  // The match has returned: the key is deleted before the receipt is written.
  function StepAfterConsume(s: State, p: nat): State {
    if p >= |s.afters| || !s.afters[p].live then s
    else
      var h := s.afters[p];
      s.(afters := s.afters[p := h.(live := false)],
         calls := s.calls - {h.key},
         writing := s.writing + [Hook(h.key, h.binding, true)],
         log := s.log + [Consumed(h.key, h.binding, h.key !in s.calls)])
  }

  // The log entry of an after-hook whose receipt write takes effect now.
  function AfterEntry(s: State, h: Hook, receipt: ReceiptState, at: int): Entry {
    var r := RecordReceipt(s.worker, h.binding.lease, h.binding.digest, receipt, at);
    Observed(h.key, h.binding, receipt, r.Success? && PlanReceipt(s.worker).None?)
  }

  function StepAfterRecord(s: State, p: nat, receipt: ReceiptState, at: int): State {
    if p >= |s.writing| || !s.writing[p].live then s
    else
      var h := s.writing[p];
      var r := RecordReceipt(s.worker, h.binding.lease, h.binding.digest, receipt, at);
      s.(writing := s.writing[p := h.(live := false)],
         worker := if r.Success? then r.value else s.worker,
         log := s.log + [AfterEntry(s, h, receipt, at)])
  }

  function StepCompleteRead(s: State, lease: nat, wanted: Wanted): State {
    if s.worker.lease.None? || s.worker.lease.value.id != lease || s.worker.lease.value.plan.None? then s
    else s.(completions := s.completions + [Completion(lease, wanted, PlanReceipt(s.worker), |s.log|, true)])
  }

  // What worker_complete asks the ledger for, from the receipt it read; None when it throws instead.
  function EndingFor(c: Completion): Option<Ending> {
    match c.wanted
    case WantSuccess => if c.receipt == Some(Completed) then Some(ActionSucceeded) else None
    case WantTransient => Some(if c.receipt.Some? then Gate else TransientFailure)
    case WantGate => Some(Gate)
  }

  function CloseLease(s: State, lease: nat, ending: Ending, at: int): State {
    var r := Complete(s.worker, lease, ending, at);
    if r.Failure? then s
    else s.(worker := r.value, log := s.log + [Ended(lease, s.worker.lease.value.plan, ending)])
  }

  function StepCompleteClose(s: State, p: nat, at: int): State {
    if p >= |s.completions| || !s.completions[p].live then s
    else
      var c := s.completions[p];
      var t := s.(completions := s.completions[p := c.(live := false)]);
      var ending := EndingFor(c);
      if ending.None? then t else CloseLease(t, c.lease, ending.value, at)
  }

  function StepClaim(s: State, campaign: CampaignStatus, leaseMs: nat, at: int): State {
    s.(worker := Apply(s.worker, DoClaim(campaign, s.nextLease, leaseMs), at), nextLease := s.nextLease + 1)
  }

  function StepPlanned(s: State, lease: nat, tool: string, digest: nat, at: int): State {
    s.(worker := Apply(s.worker, DoIssue(lease, tool, digest), at))
  }

  function Next(s: State, e: Event): State {
    match e
    case Claim(campaign, leaseMs, at) => StepClaim(s, campaign, leaseMs, at)
    case Planned(lease, tool, digest, at) => StepPlanned(s, lease, tool, digest, at)
    case Operator(op, at) =>
      if op.DoGate? || op.DoResume? || op.DoRevoke? then s.(worker := Apply(s.worker, op, at)) else s
    case TickCloses(lease, ending, at) =>
      if ending.DoneForNow? || ending.Gate? then CloseLease(s, lease, ending, at) else s
    case BeforeMatch(key, tool, digest, at) => StepBeforeMatch(s, key, tool, digest, at)
    case BeforeBind(p) => StepBeforeBind(s, p)
    case AfterMatch(key, tool, digest, at) => StepAfterMatch(s, key, tool, digest, at)
    case AfterConsume(p) => StepAfterConsume(s, p)
    case AfterRecord(p, receipt, at) => StepAfterRecord(s, p, receipt, at)
    case CompleteRead(lease, wanted) => StepCompleteRead(s, lease, wanted)
    case CompleteClose(p, at) => StepCompleteClose(s, p, at)
  }

  function Run(s: State, events: seq<Event>): State {
    if events == [] then s else Next(Run(s, events[..|events| - 1]), events[|events| - 1])
  }

  function Start(at: int, maxFailures: nat): State { State(Create(at, maxFailures), 0, map[], [], [], [], [], []) }

  // ---- Every reachable state: bindings, receipts and completions agree with the log

  ghost predicate BoundIn(log: seq<Entry>, n: nat, key: Key, b: Binding) {
    exists i :: 0 <= i < n && i < |log| && log[i] == Bound(key, b)
  }

  // Entry j is an after-hook that stored this receipt for a key a before-hook had bound to the same command.
  ghost predicate BacksReceipt(log: seq<Entry>, j: nat, b: Binding, receipt: ReceiptState) {
    && j < |log| && log[j].Observed? && log[j].stored && log[j].binding == b && log[j].receipt == receipt
    && BoundIn(log, j, log[j].key, b)
  }

  // A binding never names another command than the one planned under its lease.
  predicate Fits(s: State, b: Binding) {
    && b.lease < s.nextLease
    && (s.worker.lease.Some? && s.worker.lease.value.id == b.lease ==>
      s.worker.lease.value.plan.Some? && s.worker.lease.value.plan.value.tool == b.tool
      && s.worker.lease.value.plan.value.digest == b.digest)
  }

  predicate HooksFit(s: State) {
    && (s.worker.lease.Some? ==> s.worker.lease.value.id < s.nextLease)
    && (forall p :: 0 <= p < |s.befores| ==> Fits(s, s.befores[p].binding))
    && (forall key :: key in s.calls ==> Fits(s, s.calls[key]))
    && (forall p :: 0 <= p < |s.afters| ==> Fits(s, s.afters[p].binding))
    && (forall p :: 0 <= p < |s.writing| ==> Fits(s, s.writing[p].binding))
  }

  ghost predicate HooksBound(s: State) {
    && (forall key :: key in s.calls ==> BoundIn(s.log, |s.log|, key, s.calls[key]))
    && (forall p :: 0 <= p < |s.afters| ==> BoundIn(s.log, |s.log|, s.afters[p].key, s.afters[p].binding))
    && (forall p :: 0 <= p < |s.writing| ==> BoundIn(s.log, |s.log|, s.writing[p].key, s.writing[p].binding))
  }

  // The receipt a worker's plan holds is exactly the one some after-hook stored.
  ghost predicate ReceiptBacked(s: State) {
    PlanReceipt(s.worker).Some? ==>
      exists j: nat :: BacksReceipt(s.log, j,
        Binding(s.worker.lease.value.id, s.worker.lease.value.plan.value.tool, s.worker.lease.value.plan.value.digest),
        PlanReceipt(s.worker).value)
  }

  // A stored receipt stays with its lease.
  predicate ReceiptsStay(s: State) {
    forall j :: 0 <= j < |s.log| && s.log[j].Observed? && s.log[j].stored ==> StillThere(s, s.log[j])
  }

  predicate StillThere(s: State, o: Entry)
    requires o.Observed?
  {
    && o.binding.lease < s.nextLease
    && (s.worker.lease.Some? && s.worker.lease.value.id == o.binding.lease ==> PlanReceipt(s.worker) == Some(o.receipt))
  }

  // A completion's receipt is still the lease's, unless it read none and an after-hook stored one since.
  predicate CompletionFits(s: State, c: Completion) {
    && c.lease < s.nextLease && c.readAt <= |s.log|
    && (s.worker.lease.Some? && s.worker.lease.value.id == c.lease ==>
      && s.worker.lease.value.plan.Some?
      && (c.receipt.Some? ==> PlanReceipt(s.worker) == c.receipt)
      && (c.receipt.None? && PlanReceipt(s.worker).Some? ==>
        exists j :: c.readAt <= j < |s.log| && StoredFor(s.log[j], c.lease, PlanReceipt(s.worker).value)))
    && (c.receipt.None? ==> forall j :: 0 <= j < c.readAt ==> !StoredForLease(s.log[j], c.lease))
  }

  predicate StoredForLease(o: Entry, lease: nat) { o.Observed? && o.stored && o.binding.lease == lease }

  predicate StoredFor(o: Entry, lease: nat, receipt: ReceiptState) { StoredForLease(o, lease) && o.receipt == receipt }

  predicate CompletionsFit(s: State) {
    forall p :: 0 <= p < |s.completions| ==> CompletionFits(s, s.completions[p])
  }

  ghost predicate Inv(s: State) {
    HooksFit(s) && HooksBound(s) && ReceiptBacked(s) && ReceiptsStay(s) && CompletionsFit(s)
  }

  // The steps that only move the worker record: the lease is kept with its plan, dropped, or fresh.
  predicate SameLease(w: Worker, v: Worker) {
    && v.lease.Some? && w.lease.Some? && v.lease.value.id == w.lease.value.id
    && (w.lease.value.plan.Some? ==> v.lease.value.plan == w.lease.value.plan)
    && (w.lease.value.plan.None? && v.lease.value.plan.Some? ==> v.lease.value.plan.value.receipt.None?)
  }

  lemma RecordMoveKeepsInv(s: State, v: Worker, nextLease: nat)
    requires Inv(s) && nextLease >= s.nextLease
    requires v.lease.None? || SameLease(s.worker, v)
      || (s.nextLease <= v.lease.value.id < nextLease && v.lease.value.plan.None?)
    ensures Inv(s.(worker := v, nextLease := nextLease))
  {
    var t := s.(worker := v, nextLease := nextLease);
    if v.lease.Some? && SameLease(s.worker, v) {
      assert PlanReceipt(v) == PlanReceipt(s.worker);
      forall b: Binding | Fits(s, b) ensures Fits(t, b) {
      }
    }
    forall b: Binding | Fits(s, b) ensures Fits(t, b) {
    }
    forall p | 0 <= p < |s.completions| ensures CompletionFits(t, s.completions[p]) {
      assert CompletionFits(s, s.completions[p]);
    }
  }

  lemma LogGrows(s: State, e: Entry)
    requires Inv(s) && !(e.Observed? && e.stored)
    ensures Inv(s.(log := s.log + [e]))
  {
    var t := s.(log := s.log + [e]);
    forall key, b | BoundIn(s.log, |s.log|, key, b) ensures BoundIn(t.log, |t.log|, key, b) {
      var i :| 0 <= i < |s.log| && s.log[i] == Bound(key, b);
      assert t.log[i] == Bound(key, b);
    }
    BackedInLonger(s, t);
    forall p | 0 <= p < |s.completions| ensures CompletionFits(t, s.completions[p]) {
      LongerFits(s, t, s.completions[p]);
    }
  }

  lemma LongerFits(s: State, t: State, c: Completion)
    requires CompletionFits(s, c) && t.worker == s.worker && t.nextLease == s.nextLease
    requires |s.log| <= |t.log| && s.log == t.log[..|s.log|]
    ensures CompletionFits(t, c)
  {
    if c.receipt.None? && s.worker.lease.Some? && s.worker.lease.value.id == c.lease && PlanReceipt(s.worker).Some? {
      var j :| c.readAt <= j < |s.log| && StoredFor(s.log[j], c.lease, PlanReceipt(s.worker).value);
      assert StoredFor(t.log[j], c.lease, PlanReceipt(t.worker).value);
    }
  }

  lemma BackedInLonger(s: State, t: State)
    requires ReceiptBacked(s) && PlanReceipt(t.worker) == PlanReceipt(s.worker) && t.worker.lease == s.worker.lease
    requires |s.log| <= |t.log| && s.log == t.log[..|s.log|]
    ensures ReceiptBacked(t)
  {
    if PlanReceipt(s.worker).Some? {
      var plan := s.worker.lease.value.plan.value;
      var b := Binding(s.worker.lease.value.id, plan.tool, plan.digest);
      var j: nat :| BacksReceipt(s.log, j, b, PlanReceipt(s.worker).value);
      var i :| 0 <= i < j && i < |s.log| && s.log[i] == Bound(s.log[j].key, b);
      assert t.log[i] == Bound(t.log[j].key, b);
      assert BacksReceipt(t.log, j, b, PlanReceipt(s.worker).value);
    }
  }

  lemma BeforeMatchKeepsInv(s: State, key: Key, tool: string, digest: nat, at: int)
    requires Inv(s)
    ensures Inv(StepBeforeMatch(s, key, tool, digest, at))
  {
  }

  lemma BeforeBindKeepsInv(s: State, p: nat)
    requires Inv(s)
    ensures Inv(StepBeforeBind(s, p))
  {
    if p < |s.befores| && s.befores[p].live && s.befores[p].key !in s.calls {
      var h := s.befores[p];
      LogGrows(s, Bound(h.key, h.binding));
      var t := StepBeforeBind(s, p);
      assert t.log[|s.log|] == Bound(h.key, h.binding);
      forall k | k in t.calls ensures BoundIn(t.log, |t.log|, k, t.calls[k]) {
      }
    }
  }

  lemma AfterMatchKeepsInv(s: State, key: Key, tool: string, digest: nat, at: int)
    requires Inv(s)
    ensures Inv(StepAfterMatch(s, key, tool, digest, at))
  {
  }

  // An after-hook that stores nothing leaves the worker as it was.
  lemma UnstoredReceiptChangesNothing(w: Worker, lease: nat, digest: nat, receipt: ReceiptState, at: int)
    ensures var r := RecordReceipt(w, lease, digest, receipt, at);
      r.Success? && PlanReceipt(w).Some? ==> r.value == w
  {
  }

  lemma AfterConsumeKeepsInv(s: State, p: nat)
    requires Inv(s)
    ensures Inv(StepAfterConsume(s, p))
  {
    if p < |s.afters| && s.afters[p].live {
      var h := s.afters[p];
      LogGrows(s, Consumed(h.key, h.binding, h.key !in s.calls));
    }
  }

  lemma AfterRecordKeepsInv(s: State, p: nat, receipt: ReceiptState, at: int)
    requires Inv(s)
    ensures Inv(StepAfterRecord(s, p, receipt, at))
  {
    var t := StepAfterRecord(s, p, receipt, at);
    if p < |s.writing| && s.writing[p].live {
      var h := s.writing[p];
      UnstoredReceiptChangesNothing(s.worker, h.binding.lease, h.binding.digest, receipt, at);
      var o := t.log[|s.log|];
      if o.stored {
        StoredKeepsInv(s, p, receipt, at);
      } else {
        LogGrows(s, o);
      }
    }
  }

  lemma StoredKeepsInv(s: State, p: nat, receipt: ReceiptState, at: int)
    requires Inv(s) && p < |s.writing| && s.writing[p].live
    requires var h := s.writing[p];
      RecordReceipt(s.worker, h.binding.lease, h.binding.digest, receipt, at).Success? && PlanReceipt(s.worker).None?
    ensures Inv(StepAfterRecord(s, p, receipt, at))
  {
    var t, h, n := StepAfterRecord(s, p, receipt, at), s.writing[p], |s.log|;
    assert Fits(s, h.binding);
    assert t.worker.lease.value.id == h.binding.lease && PlanReceipt(t.worker) == Some(receipt);
    forall key, b | BoundIn(s.log, n, key, b) ensures BoundIn(t.log, |t.log|, key, b) && BoundIn(t.log, n, key, b) {
      var i :| 0 <= i < n && s.log[i] == Bound(key, b);
      assert t.log[i] == Bound(key, b);
    }
    assert BacksReceipt(t.log, n, h.binding, receipt);
    forall b: Binding | Fits(s, b) ensures Fits(t, b) {
    }
    forall j | 0 <= j < n && s.log[j].Observed? && s.log[j].stored ensures StillThere(t, s.log[j]) {
      assert StillThere(s, s.log[j]);
    }
    forall c | 0 <= c < |s.completions| ensures CompletionFits(t, s.completions[c]) {
      var x := s.completions[c];
      assert CompletionFits(s, x);
      if x.lease == h.binding.lease { assert StoredFor(t.log[n], x.lease, receipt); }
    }
  }

  lemma CloseKeepsInv(s: State, lease: nat, ending: Ending, at: int)
    requires Inv(s)
    ensures Inv(CloseLease(s, lease, ending, at))
  {
    var r := Complete(s.worker, lease, ending, at);
    if r.Success? {
      RecordMoveKeepsInv(s, r.value, s.nextLease);
      LogGrows(s.(worker := r.value), Ended(lease, s.worker.lease.value.plan, ending));
    }
  }

  lemma CompleteReadKeepsInv(s: State, lease: nat, wanted: Wanted)
    requires Inv(s)
    ensures Inv(StepCompleteRead(s, lease, wanted))
  {
    var t := StepCompleteRead(s, lease, wanted);
    if |t.completions| > |s.completions| {
      var c := t.completions[|s.completions|];
      forall j | 0 <= j < |s.log| && s.log[j].Observed? && s.log[j].stored && s.log[j].binding.lease == lease
        ensures c.receipt.Some?
      {
        assert StillThere(s, s.log[j]);
      }
      assert CompletionFits(t, c);
      forall p | 0 <= p < |s.completions| ensures CompletionFits(t, s.completions[p]) {
        assert CompletionFits(s, s.completions[p]);
      }
    }
  }

  lemma CompleteCloseKeepsInv(s: State, p: nat, at: int)
    requires Inv(s)
    ensures Inv(StepCompleteClose(s, p, at))
  {
    if p < |s.completions| && s.completions[p].live {
      var c := s.completions[p];
      var t := s.(completions := s.completions[p := c.(live := false)]);
      assert CompletionFits(s, c);
      forall q | 0 <= q < |t.completions| ensures CompletionFits(t, t.completions[q]) {
        assert CompletionFits(s, s.completions[q]);
      }
      assert Inv(t);
      if EndingFor(c).Some? { CloseKeepsInv(t, c.lease, EndingFor(c).value, at); }
    }
  }

  lemma NextKeepsInv(s: State, e: Event)
    requires Inv(s)
    ensures Inv(Next(s, e))
  {
    match e
    case Claim(campaign, leaseMs, at) =>
      RecordMoveKeepsInv(s, StepClaim(s, campaign, leaseMs, at).worker, s.nextLease + 1);
    case Planned(lease, tool, digest, at) =>
      PlannedKeepsInv(s, lease, tool, digest, at);
    case Operator(op, at) =>
      if op.DoGate? || op.DoResume? || op.DoRevoke? { RecordMoveKeepsInv(s, Apply(s.worker, op, at), s.nextLease); }
    case TickCloses(lease, ending, at) => CloseKeepsInv(s, lease, ending, at);
    case BeforeMatch(key, tool, digest, at) => BeforeMatchKeepsInv(s, key, tool, digest, at);
    case BeforeBind(p) => BeforeBindKeepsInv(s, p);
    case AfterMatch(key, tool, digest, at) => AfterMatchKeepsInv(s, key, tool, digest, at);
    case AfterConsume(p) => AfterConsumeKeepsInv(s, p);
    case AfterRecord(p, receipt, at) => AfterRecordKeepsInv(s, p, receipt, at);
    case CompleteRead(lease, wanted) => CompleteReadKeepsInv(s, lease, wanted);
    case CompleteClose(p, at) => CompleteCloseKeepsInv(s, p, at);
  }

  lemma PlannedKeepsInv(s: State, lease: nat, tool: string, digest: nat, at: int)
    requires Inv(s)
    ensures Inv(StepPlanned(s, lease, tool, digest, at))
  {
    RecordMoveKeepsInv(s, StepPlanned(s, lease, tool, digest, at).worker, s.nextLease);
  }

  lemma {:induction false} RunKeepsInv(at: int, maxFailures: nat, events: seq<Event>)
    ensures Inv(Run(Start(at, maxFailures), events))
  {
    if events != [] {
      RunKeepsInv(at, maxFailures, events[..|events| - 1]);
      NextKeepsInv(Run(Start(at, maxFailures), events[..|events| - 1]), events[|events| - 1]);
    }
  }

  // ---- Success evidence

  // The closing of a lease as succeeded, entry n, follows an after-hook that stored a completed receipt for
  // exactly its command, and that one follows a before-hook with the same session, run and call.
  ghost predicate SuccessBacked(log: seq<Entry>, n: nat) {
    n < |log| && log[n].Ended? && log[n].ending == ActionSucceeded ==>
      && log[n].plan.Some?
      && var b := Binding(log[n].lease, log[n].plan.value.tool, log[n].plan.value.digest);
        exists j: nat :: j < n && BacksReceipt(log, j, b, Completed)
  }

  lemma SuccessBackedInLonger(log: seq<Entry>, e: Entry, n: nat)
    requires n < |log| && SuccessBacked(log, n)
    ensures SuccessBacked(log + [e], n)
  {
    if log[n].Ended? && log[n].ending == ActionSucceeded {
      var b := Binding(log[n].lease, log[n].plan.value.tool, log[n].plan.value.digest);
      var j: nat :| j < n && BacksReceipt(log, j, b, Completed);
      BacksInLonger(log, e, j, b, Completed);
    }
  }

  lemma BacksInLonger(log: seq<Entry>, e: Entry, j: nat, b: Binding, receipt: ReceiptState)
    requires BacksReceipt(log, j, b, receipt)
    ensures BacksReceipt(log + [e], j, b, receipt)
  {
    var i :| 0 <= i < j && i < |log| && log[i] == Bound(log[j].key, b);
    assert (log + [e])[i] == Bound((log + [e])[j].key, b);
  }

  lemma CloseBacksSuccess(s: State, lease: nat, ending: Ending, at: int)
    requires Inv(s)
    ensures SuccessBacked(CloseLease(s, lease, ending, at).log, |s.log|)
  {
    if Complete(s.worker, lease, ending, at).Success? && ending == ActionSucceeded {
      var plan := s.worker.lease.value.plan.value;
      var b := Binding(lease, plan.tool, plan.digest);
      var j: nat :| BacksReceipt(s.log, j, b, Completed);
      BacksInLonger(s.log, Ended(lease, Some(plan), ending), j, b, Completed);
    }
  }

  // A step adds at most one entry.
  predicate LogStep(a: seq<Entry>, b: seq<Entry>) { b == a || (|b| == |a| + 1 && b[..|a|] == a) }

  lemma NextLogs(s: State, e: Event)
    ensures LogStep(s.log, Next(s, e).log)
  {
  }

  // Over any run, every closing of a lease as action_succeeded is backed.
  lemma {:induction false} EverySuccessIsBacked(at: int, maxFailures: nat, events: seq<Event>, n: nat)
    ensures SuccessBacked(Run(Start(at, maxFailures), events).log, n)
  {
    if events != [] {
      RunKeepsInv(at, maxFailures, events[..|events| - 1]);
      EverySuccessIsBacked(at, maxFailures, events[..|events| - 1], n);
      NextKeepsBacked(Run(Start(at, maxFailures), events[..|events| - 1]), events[|events| - 1], n);
    }
  }

  lemma NextKeepsBacked(s: State, e: Event, n: nat)
    requires Inv(s) && SuccessBacked(s.log, n)
    ensures SuccessBacked(Next(s, e).log, n)
  {
    var log := Next(s, e).log;
    NextLogs(s, e);
    LastEntryBacked(s, e);
    if log != s.log {
      assert log == s.log + [log[|s.log|]];
      if n < |s.log| { SuccessBackedInLonger(s.log, log[|s.log|], n); }
    }
  }

  lemma LastEntryBacked(s: State, e: Event)
    requires Inv(s)
    ensures SuccessBacked(Next(s, e).log, |s.log|)
  {
    match e
    case TickCloses(lease, ending, at) => CloseBacksSuccess(s, lease, ending, at);
    case CompleteClose(p, at) =>
      if p < |s.completions| && s.completions[p].live && EndingFor(s.completions[p]).Some? {
        var c := s.completions[p];
        var t := s.(completions := s.completions[p := c.(live := false)]);
        CompletionsMarked(s, p);
        CloseBacksSuccess(t, c.lease, EndingFor(c).value, at);
      }
    case _ =>
  }

  lemma CompletionsMarked(s: State, p: nat)
    requires Inv(s) && p < |s.completions|
    ensures Inv(s.(completions := s.completions[p := s.completions[p].(live := false)]))
  {
    var t := s.(completions := s.completions[p := s.completions[p].(live := false)]);
    forall q | 0 <= q < |t.completions| ensures CompletionFits(t, t.completions[q]) {
      assert CompletionFits(s, s.completions[q]);
    }
  }

  // ---- A call key is consumed once for each time it is bound

  function BoundCount(log: seq<Entry>, key: Key): nat {
    if log == [] then 0
    else BoundCount(log[..|log| - 1], key) + if log[|log| - 1].Bound? && log[|log| - 1].key == key then 1 else 0
  }

  function ConsumedCount(log: seq<Entry>, key: Key): nat {
    if log == [] then 0
    else ConsumedCount(log[..|log| - 1], key) + if log[|log| - 1].Consumed? && log[|log| - 1].key == key then 1 else 0
  }

  function LateCount(log: seq<Entry>, key: Key): nat {
    if log == [] then 0
    else LateCount(log[..|log| - 1], key) + if IsLate(log[|log| - 1], key) then 1 else 0
  }

  predicate IsLate(e: Entry, key: Key) { e.Consumed? && e.key == key && e.late }

  predicate KeysCounted(s: State, key: Key) {
    ConsumedCount(s.log, key) + (if key in s.calls then 1 else 0) == BoundCount(s.log, key) + LateCount(s.log, key)
  }

  // Closing a lease, and every step without an entry, touches no key.
  lemma CloseKeepsKeys(s: State, lease: nat, ending: Ending, at: int, key: Key)
    ensures var t := CloseLease(s, lease, ending, at);
      && t.calls == s.calls && t.afters == s.afters && BoundCount(t.log, key) == BoundCount(s.log, key)
      && ConsumedCount(t.log, key) == ConsumedCount(s.log, key) && LateCount(t.log, key) == LateCount(s.log, key)
  {
    if Complete(s.worker, lease, ending, at).Success? {
      CountEntry(s.log, Ended(lease, s.worker.lease.value.plan, ending), key);
    }
  }

  lemma CompleteKeepsKeys(s: State, p: nat, at: int, key: Key)
    ensures var t := StepCompleteClose(s, p, at);
      && t.calls == s.calls && t.afters == s.afters && BoundCount(t.log, key) == BoundCount(s.log, key)
      && ConsumedCount(t.log, key) == ConsumedCount(s.log, key) && LateCount(t.log, key) == LateCount(s.log, key)
  {
    if p < |s.completions| && s.completions[p].live && EndingFor(s.completions[p]).Some? {
      var c := s.completions[p];
      CloseKeepsKeys(s.(completions := s.completions[p := c.(live := false)]), c.lease, EndingFor(c).value, at, key);
    }
  }

  lemma CountEntry(log: seq<Entry>, e: Entry, key: Key)
    ensures BoundCount(log + [e], key) == BoundCount(log, key) + if e.Bound? && e.key == key then 1 else 0
    ensures ConsumedCount(log + [e], key) == ConsumedCount(log, key) + if e.Consumed? && e.key == key then 1 else 0
    ensures LateCount(log + [e], key) == LateCount(log, key) + if IsLate(e, key) then 1 else 0
  {
    assert (log + [e])[..|log|] == log;
  }

  lemma BindKeepsCount(s: State, p: nat, key: Key)
    requires KeysCounted(s, key)
    ensures var t := StepBeforeBind(s, p); KeysCounted(t, key) && LateCount(t.log, key) == LateCount(s.log, key)
  {
    if p < |s.befores| { CountEntry(s.log, Bound(s.befores[p].key, s.befores[p].binding), key); }
  }

  lemma ConsumeKeepsCount(s: State, p: nat, key: Key)
    requires KeysCounted(s, key)
    ensures KeysCounted(StepAfterConsume(s, p), key)
  {
    if p < |s.afters| && s.afters[p].live {
      var h := s.afters[p];
      CountEntry(s.log, Consumed(h.key, h.binding, h.key !in s.calls), key);
    }
  }

  // The receipt write touches no key.
  lemma RecordKeepsKeys(s: State, p: nat, receipt: ReceiptState, at: int, key: Key)
    ensures var t := StepAfterRecord(s, p, receipt, at);
      && t.calls == s.calls && t.afters == s.afters && BoundCount(t.log, key) == BoundCount(s.log, key)
      && ConsumedCount(t.log, key) == ConsumedCount(s.log, key) && LateCount(t.log, key) == LateCount(s.log, key)
  {
    if p < |s.writing| && s.writing[p].live {
      CountEntry(s.log, AfterEntry(s, s.writing[p], receipt, at), key);
    }
  }

  lemma NextKeepsCount(s: State, e: Event, key: Key)
    requires KeysCounted(s, key)
    ensures KeysCounted(Next(s, e), key)
  {
    match e
    case BeforeBind(p) => BindKeepsCount(s, p, key);
    case AfterConsume(p) => ConsumeKeepsCount(s, p, key);
    case AfterRecord(p, receipt, at) => RecordKeepsKeys(s, p, receipt, at, key);
    case TickCloses(lease, ending, at) => CloseKeepsKeys(s, lease, ending, at, key);
    case CompleteClose(p, at) => CompleteKeepsKeys(s, p, at, key);
    case _ =>
  }

  // Over any run each consumption of a key uses up one registration of it, except the late ones: an
  // after-hook that matched the key, waited, and then found it already removed.
  lemma {:induction false} KeysAreConsumedOncePerBinding(at: int, maxFailures: nat, events: seq<Event>, key: Key)
    ensures KeysCounted(Run(Start(at, maxFailures), events), key)
  {
    if events != [] {
      KeysAreConsumedOncePerBinding(at, maxFailures, events[..|events| - 1], key);
      NextKeepsCount(Run(Start(at, maxFailures), events[..|events| - 1]), events[|events| - 1], key);
    }
  }

  // "At most once" fails: from any state with a leased command and a free key, two after-hooks that both match
  // before either consumes use up one registration twice.
  lemma OverlappingHooksConsumeTwice(s: State, key: Key, at: int)
    requires s.worker.status == Active && s.worker.lease.Some? && s.worker.lease.value.expiresAt > at && key !in s.calls
    requires s.worker.lease.value.plan.Some? && s.worker.lease.value.plan.value.receipt.None?
    ensures var plan, n := s.worker.lease.value.plan.value, |s.afters|;
      var delivered := AfterMatch(key, plan.tool, plan.digest, at);
      var s1 := Next(Next(s, BeforeMatch(key, plan.tool, plan.digest, at)), BeforeBind(|s.befores|));
      var t := Next(Next(Next(Next(s1, delivered), delivered), AfterConsume(n)), AfterConsume(n + 1));
      && BoundCount(t.log, key) == BoundCount(s.log, key) + 1
      && ConsumedCount(t.log, key) == ConsumedCount(s.log, key) + 2
      && LateCount(t.log, key) == LateCount(s.log, key) + 1
  {
    var plan, n := s.worker.lease.value.plan.value, |s.afters|;
    var b := Binding(s.worker.lease.value.id, plan.tool, plan.digest);
    assert plan == Plan(plan.tool, plan.digest, None);
    var s0 := StepBeforeMatch(s, key, plan.tool, plan.digest, at);
    assert s0.befores[|s.befores|] == Hook(key, b, true);
    var s1 := StepBeforeBind(s0, |s.befores|);
    assert s1.calls[key] == b && s1.log == s.log + [Bound(key, b)];
    var s2 := StepAfterMatch(s1, key, plan.tool, plan.digest, at);
    var s3 := StepAfterMatch(s2, key, plan.tool, plan.digest, at);
    assert s3.afters[n] == Hook(key, b, true) == s3.afters[n + 1];
    CountEntry(s.log, Bound(key, b), key);
    BothConsume(s3, n, Hook(key, b, true));
  }

  lemma BothConsume(s: State, n: nat, h: Hook)
    requires n + 1 < |s.afters| && s.afters[n] == h && s.afters[n + 1] == h && h.live && h.key in s.calls
    ensures var t := StepAfterConsume(StepAfterConsume(s, n), n + 1);
      && BoundCount(t.log, h.key) == BoundCount(s.log, h.key)
      && ConsumedCount(t.log, h.key) == ConsumedCount(s.log, h.key) + 2
      && LateCount(t.log, h.key) == LateCount(s.log, h.key) + 1
  {
    var s1 := StepAfterConsume(s, n);
    assert s1.log == s.log + [Consumed(h.key, h.binding, false)] && s1.afters[n + 1] == h;
    CountEntry(s.log, Consumed(h.key, h.binding, false), h.key);
    CountEntry(s1.log, Consumed(h.key, h.binding, true), h.key);
  }

  // The host delivered at most one after-hook at a time for this key.
  predicate Alone(s: State, key: Key) {
    forall p, q :: 0 <= p < q < |s.afters| ==> !(LiveFor(s.afters[p], key) && LiveFor(s.afters[q], key))
  }

  predicate AloneThroughout(s: State, events: seq<Event>, key: Key) {
    Alone(Run(s, events), key) && (events == [] || AloneThroughout(s, events[..|events| - 1], key))
  }

  predicate MatchedStaysBound(s: State, key: Key) {
    forall p :: 0 <= p < |s.afters| && LiveFor(s.afters[p], key) ==> key in s.calls
  }

  lemma NextIsNotLate(s: State, e: Event, key: Key)
    requires MatchedStaysBound(s, key) && Alone(s, key)
    ensures MatchedStaysBound(Next(s, e), key) && LateCount(Next(s, e).log, key) == LateCount(s.log, key)
  {
    match e
    case BeforeBind(p) => BindKeepsLate(s, p, key);
    case AfterConsume(p) =>
      ConsumptionIsNotLate(s, p, key);
      if p < |s.afters| && s.afters[p].live { ConsumptionKeepsMatched(s, StepAfterConsume(s, p), p, key); }
    case AfterRecord(p, receipt, at) => RecordKeepsKeys(s, p, receipt, at, key);
    case TickCloses(lease, ending, at) => CloseKeepsKeys(s, lease, ending, at, key);
    case CompleteClose(p, at) => CompleteKeepsKeys(s, p, at, key);
    case _ =>
  }

  lemma BindKeepsLate(s: State, p: nat, key: Key)
    requires MatchedStaysBound(s, key)
    ensures var t := StepBeforeBind(s, p); MatchedStaysBound(t, key) && LateCount(t.log, key) == LateCount(s.log, key)
  {
    if p < |s.befores| { CountEntry(s.log, Bound(s.befores[p].key, s.befores[p].binding), key); }
  }

  predicate LiveFor(h: Hook, key: Key) { h.live && h.key == key }

  lemma AloneAfterRecord(afters: seq<Hook>, p: nat, q: nat, key: Key)
    requires forall i, j :: 0 <= i < j < |afters| ==> !(LiveFor(afters[i], key) && LiveFor(afters[j], key))
    requires p < |afters| && q < |afters|
    ensures LiveFor(afters[p], key) && LiveFor(afters[q], key) ==> p == q
  {
  }

  lemma ConsumptionIsNotLate(s: State, p: nat, key: Key)
    requires MatchedStaysBound(s, key)
    ensures LateCount(StepAfterConsume(s, p).log, key) == LateCount(s.log, key)
  {
    if p < |s.afters| && s.afters[p].live {
      var h := s.afters[p];
      CountEntry(s.log, Consumed(h.key, h.binding, h.key !in s.calls), key);
      assert LiveFor(h, key) ==> key in s.calls;
    }
  }

  lemma ConsumptionKeepsMatched(s: State, t: State, p: nat, key: Key)
    requires MatchedStaysBound(s, key) && Alone(s, key) && p < |s.afters| && s.afters[p].live
    requires t.afters == s.afters[p := s.afters[p].(live := false)] && t.calls == s.calls - {s.afters[p].key}
    ensures MatchedStaysBound(t, key)
  {
    forall q | 0 <= q < |t.afters| && LiveFor(t.afters[q], key) ensures key in t.calls {
      assert q != p && LiveFor(s.afters[q], key);
      AloneAfterRecord(s.afters, p, q, key);
    }
  }

  // Without overlapping after-hooks for a key, it is consumed at most as often as it was bound.
  lemma {:induction false} SeparateHooksConsumeOnce(at: int, maxFailures: nat, events: seq<Event>, key: Key)
    requires AloneThroughout(Start(at, maxFailures), events, key)
    ensures var s := Run(Start(at, maxFailures), events);
      && ConsumedCount(s.log, key) <= BoundCount(s.log, key)
      && LateCount(s.log, key) == 0 && MatchedStaysBound(s, key)
  {
    if events != [] {
      SeparateHooksConsumeOnce(at, maxFailures, events[..|events| - 1], key);
      NextIsNotLate(Run(Start(at, maxFailures), events[..|events| - 1]), events[|events| - 1], key);
    }
    KeysAreConsumedOncePerBinding(at, maxFailures, events, key);
  }

  // ---- A completed command closed as a transient failure

  // worker_complete reads the receipt before it closes the lease. A lease it closes as transient_failure
  // holds a completed receipt exactly when an after-hook stored one between those two steps.
  lemma TransientClosesCompletedCommandIff(at: int, maxFailures: nat, events: seq<Event>, p: nat)
    requires var s := Run(Start(at, maxFailures), events);
      && p < |s.completions| && EndingFor(s.completions[p]) == Some(TransientFailure)
      && s.worker.lease.Some? && s.worker.lease.value.id == s.completions[p].lease
    ensures var s := Run(Start(at, maxFailures), events); var c := s.completions[p];
      PlanReceipt(s.worker) == Some(Completed) <==>
        exists j :: c.readAt <= j < |s.log| && StoredFor(s.log[j], c.lease, Completed)
  {
    var s := Run(Start(at, maxFailures), events);
    RunKeepsInv(at, maxFailures, events);
    var c := s.completions[p];
    assert CompletionFits(s, c);
    if j :| c.readAt <= j < |s.log| && StoredFor(s.log[j], c.lease, Completed) {
      assert StillThere(s, s.log[j]);
    }
  }

  // The promise fails: from any state with a leased command, no receipt and a free key, these events close
  // the lease as a transient failure, to be retried, although its exact command was observed to complete.
  lemma CompletedCommandCanCloseAsTransient(s: State, key: Key, at: int)
    requires s.worker.lease.Some? && s.worker.lease.value.expiresAt > at && s.worker.status == Active
    requires s.worker.lease.value.plan.Some? && s.worker.lease.value.plan.value.receipt.None?
    requires key !in s.calls && s.worker.failures + 1 < s.worker.maxFailures
    ensures var lease, plan := s.worker.lease.value.id, s.worker.lease.value.plan.value;
      var s1 := Next(Next(s, BeforeMatch(key, plan.tool, plan.digest, at)), BeforeBind(|s.befores|));
      var s2 := Next(Next(s1, AfterMatch(key, plan.tool, plan.digest, at)), CompleteRead(lease, WantTransient));
      var s3 := Next(Next(s2, AfterConsume(|s.afters|)), AfterRecord(|s.writing|, Completed, at));
      var t := Next(s3, CompleteClose(|s.completions|, at));
      && t.log[|t.log| - 1] == Ended(lease, Some(plan.(receipt := Some(Completed))), TransientFailure)
      && t.worker.status == Active && t.worker.lease.None? && t.worker.completed == s.worker.completed
  {
    var lease, plan := s.worker.lease.value.id, s.worker.lease.value.plan.value;
    var b := Binding(lease, plan.tool, plan.digest);
    assert plan == Plan(plan.tool, plan.digest, None);
    var s0 := StepBeforeMatch(s, key, plan.tool, plan.digest, at);
    assert s0.befores[|s.befores|] == Hook(key, b, true);
    var s1 := StepBeforeBind(s0, |s.befores|);
    assert s1.calls == s.calls[key := b];
    var s2 := StepAfterMatch(s1, key, plan.tool, plan.digest, at);
    assert s2.afters[|s.afters|] == Hook(key, b, true);
    var s3 := StepCompleteRead(s2, lease, WantTransient);
    var consumed := StepAfterConsume(s3, |s.afters|);
    assert consumed.writing[|s.writing|] == Hook(key, b, true);
    var s4 := StepAfterRecord(consumed, |s.writing|, Completed, at);
    assert s4.worker.lease.value.plan.value == plan.(receipt := Some(Completed));
  }

  // ---- What a completion makes of what it read

  // Event m ends a lease this way: a completion that read what this ending needs, or a tick's own ending.
  predicate EndsFor(s: State, e: Event, lease: nat, ending: Ending) {
    match e
    case TickCloses(l, given, _) => l == lease && given == ending && (ending.DoneForNow? || ending.Gate?)
    case CompleteClose(p, _) =>
      p < |s.completions| && s.completions[p].live && s.completions[p].lease == lease
      && (match ending
          case ActionSucceeded => s.completions[p].wanted.WantSuccess? && s.completions[p].receipt == Some(Completed)
          case TransientFailure => s.completions[p].wanted.WantTransient? && s.completions[p].receipt.None?
          case Gate =>
            s.completions[p].wanted.WantGate?
            || (s.completions[p].wanted.WantTransient? && s.completions[p].receipt.Some?)
          case DoneForNow(_) => false)
    case _ => false
  }

  lemma CloseLogs(s: State, lease: nat, ending: Ending, at: int)
    ensures var t := CloseLease(s, lease, ending, at);
      t.log == s.log
      || (|t.log| == |s.log| + 1 && t.log[..|s.log|] == s.log && t.log[|s.log|].Ended?
          && t.log[|s.log|].lease == lease && t.log[|s.log|].ending == ending)
  {
  }

  lemma EndingIsRead(s: State, e: Event)
    ensures var log := Next(s, e).log;
      |log| > |s.log| && log[|s.log|].Ended? ==> EndsFor(s, e, log[|s.log|].lease, log[|s.log|].ending)
  {
    match e
    case TickCloses(lease, ending, at) => CloseLogs(s, lease, ending, at);
    case CompleteClose(p, at) =>
      if p < |s.completions| && s.completions[p].live && EndingFor(s.completions[p]).Some? {
        var c := s.completions[p];
        CloseLogs(s.(completions := s.completions[p := c.(live := false)]), c.lease, EndingFor(c).value, at);
      }
    case _ =>
  }

  // Over any run, every lease that ended did so for what its completion had read: as succeeded after a
  // completed receipt, as transient only after none, and a receipt of any kind turned "transient" into a gate.
  lemma {:induction false} EndingsFollowWhatWasRead(at: int, maxFailures: nat, events: seq<Event>, n: nat)
    requires n < |Run(Start(at, maxFailures), events).log| && Run(Start(at, maxFailures), events).log[n].Ended?
    ensures var o := Run(Start(at, maxFailures), events).log[n];
      exists m: nat :: m < |events| && EndsFor(Run(Start(at, maxFailures), events[..m]), events[m], o.lease, o.ending)
  {
    var front, e := events[..|events| - 1], events[|events| - 1];
    var s := Run(Start(at, maxFailures), front);
    NextLogs(s, e);
    if n < |s.log| {
      EndingsFollowWhatWasRead(at, maxFailures, front, n);
      var m: nat :| m < |front|
        && EndsFor(Run(Start(at, maxFailures), front[..m]), front[m], s.log[n].lease, s.log[n].ending);
      assert front[..m] == events[..m] && Next(s, e).log[n] == Next(s, e).log[..|s.log|][n];
    } else {
      EndingIsRead(s, e);
      assert events[..|front|] == front;
    }
  }
}
