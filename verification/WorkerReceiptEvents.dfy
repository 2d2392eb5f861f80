// Where the entries of a receipt run come from: its worker record is a ledger history, its hooks follow hook
// events that found their exact command leased, and each await acts once.
module WorkerReceiptEvents {
  import opened Wrappers
  import opened WorkerLedger
  import opened WorkerReceipts

  // ---- The worker record is a ledger history

  // The ledger call an event makes, if any.
  function LedgerCall(s: State, e: Event): seq<(Op, int)> {
    match e
    case Claim(campaign, leaseMs, at) => [(DoClaim(campaign, s.nextLease, leaseMs), at)]
    case Planned(lease, tool, digest, at) => [(DoIssue(lease, tool, digest), at)]
    case Operator(op, at) => if op.DoGate? || op.DoResume? || op.DoRevoke? then [(op, at)] else []
    case TickCloses(lease, DoneForNow(wakeAt), at) => [(DoComplete(lease, DoneForNow(wakeAt)), at)]
    case TickCloses(lease, Gate, at) => [(DoComplete(lease, Gate), at)]
    case AfterRecord(p, receipt, at) =>
      if p < |s.writing| && s.writing[p].live then
        [(DoReceipt(s.writing[p].binding.lease, s.writing[p].binding.digest, receipt), at)]
      else []
    case CompleteClose(p, at) =>
      if p >= |s.completions| || !s.completions[p].live then [] else Closing(s.completions[p], at)
    case _ => []
  }

  // A completion closes its lease as succeeded only after reading a completed receipt, and as transient only
  // after reading none; having read one, "transient" asks for a gate, and success without one throws.
  function Closing(c: Completion, at: int): seq<(Op, int)> {
    match (c.wanted, c.receipt)
    case (WantSuccess, Some(Completed)) => [(DoComplete(c.lease, ActionSucceeded), at)]
    case (WantTransient, None) => [(DoComplete(c.lease, TransientFailure), at)]
    case (WantTransient, Some(_)) => [(DoComplete(c.lease, Gate), at)]
    case (WantGate, _) => [(DoComplete(c.lease, Gate), at)]
    case _ => []
  }

  function LedgerCalls(s: State, events: seq<Event>): seq<(Op, int)> {
    if events == [] then []
    else
      var front := events[..|events| - 1];
      LedgerCalls(s, front) + LedgerCall(Run(s, front), events[|events| - 1])
  }

  function After(w: Worker, calls: seq<(Op, int)>): Worker
    requires |calls| <= 1
  {
    if calls == [] then w else Apply(w, calls[0].0, calls[0].1)
  }

  lemma CloseCalls(s: State, lease: nat, ending: Ending, at: int)
    ensures CloseLease(s, lease, ending, at).worker == Apply(s.worker, DoComplete(lease, ending), at)
  {
  }

  lemma CompletionCalls(s: State, p: nat, at: int)
    ensures StepCompleteClose(s, p, at).worker == After(s.worker, LedgerCall(s, CompleteClose(p, at)))
  {
    if p < |s.completions| && s.completions[p].live {
      var c := s.completions[p];
      var t := s.(completions := s.completions[p := c.(live := false)]);
      if EndingFor(c).Some? { CloseCalls(t, c.lease, EndingFor(c).value, at); }
    }
  }

  lemma EventCalls(s: State, e: Event)
    ensures Next(s, e).worker == After(s.worker, LedgerCall(s, e))
  {
    match e
    case TickCloses(lease, ending, at) => CloseCalls(s, lease, ending, at);
    case CompleteClose(p, at) => CompletionCalls(s, p, at);
    case _ =>
  }

  // So whatever holds of every history of ledger calls holds of the worker in every run of hooks, ticks and
  // completions: its leases never overlap, and its completions are backed.
  lemma {:induction false} RunIsAHistory(at: int, maxFailures: nat, events: seq<Event>)
    ensures var s := Start(at, maxFailures);
      Run(s, events).worker == History(at, maxFailures, LedgerCalls(s, events))
  {
    if events != [] {
      var s, front := Start(at, maxFailures), events[..|events| - 1];
      RunIsAHistory(at, maxFailures, front);
      EventCalls(Run(s, front), events[|events| - 1]);
      HistoryGrows(at, maxFailures, LedgerCalls(s, front), LedgerCall(Run(s, front), events[|events| - 1]));
    }
  }

  lemma HistoryGrows(at: int, maxFailures: nat, calls: seq<(Op, int)>, more: seq<(Op, int)>)
    requires |more| <= 1
    ensures History(at, maxFailures, calls + more) == After(History(at, maxFailures, calls), more)
  {
    if more != [] {
      assert (calls + more)[..|calls|] == calls;
    } else {
      assert calls + more == calls;
    }
  }

  // ---- Hooks follow their exact command

  // The worker is active, its lease is live, and this exact command is planned under it and has no receipt.
  predicate Leased(w: Worker, b: Binding, at: int) {
    w.status.Active? && HoldsLease(w, b.lease, at) && w.lease.value.plan == Some(Plan(b.tool, b.digest, None))
  }

  // Event e is a hook of call `key` that found command b leased; an after-hook also found b registered for it.
  predicate Matches(s: State, e: Event, key: Key, b: Binding, after: bool) {
    if after then
      && e.AfterMatch? && e.key == key && e.tool == b.tool && e.digest == b.digest && Leased(s.worker, b, e.at)
      && key in s.calls && s.calls[key] == b
    else
      e.BeforeMatch? && e.key == key && e.tool == b.tool && e.digest == b.digest && Leased(s.worker, b, e.at)
  }

  predicate Names(h: Hook, key: Key, b: Binding) { h.key == key && h.binding == b }

  // Something in the state or the log speaks of a before-hook, or an after-hook, of this call and command.
  predicate Known(s: State, key: Key, b: Binding, after: bool) {
    if after then
      || (exists p :: 0 <= p < |s.afters| && Names(s.afters[p], key, b))
      || (exists p :: 0 <= p < |s.writing| && Names(s.writing[p], key, b))
      || (exists n :: 0 <= n < |s.log| && Tells(s.log[n], key, b, true))
    else
      || (exists p :: 0 <= p < |s.befores| && Names(s.befores[p], key, b))
      || (key in s.calls && s.calls[key] == b)
      || (exists n :: 0 <= n < |s.log| && Tells(s.log[n], key, b, false))
  }

  predicate Tells(o: Entry, key: Key, b: Binding, after: bool) {
    match o
    case Bound(k, x) => !after && k == key && x == b
    case Consumed(k, x, _) => after && k == key && x == b
    case Observed(k, x, _, _) => after && k == key && x == b
    case Ended(_, _, _) => false
  }

  lemma KnownStep(s: State, e: Event, key: Key, b: Binding, after: bool)
    requires Known(Next(s, e), key, b, after)
    ensures Known(s, key, b, after) || Matches(s, e, key, b, after)
  {
    match e
    case BeforeMatch(k, tool, digest, at) => assert Next(s, e) == StepBeforeMatch(s, k, tool, digest, at);
    case AfterMatch(k, tool, digest, at) => assert Next(s, e) == StepAfterMatch(s, k, tool, digest, at);
    case BeforeBind(p) => BindKnows(s, p, key, b, after);
    case AfterConsume(p) => ConsumeKnows(s, p, key, b, after);
    case AfterRecord(p, receipt, at) => RecordKnows(s, p, receipt, at, key, b, after);
    case TickCloses(lease, ending, at) =>
      if ending.DoneForNow? || ending.Gate? { CloseKnows(s, lease, ending, at, key, b, after); }
    case CompleteClose(p, at) =>
      if p < |s.completions| && s.completions[p].live && EndingFor(s.completions[p]).Some? {
        var c := s.completions[p];
        CloseKnows(s.(completions := s.completions[p := c.(live := false)]), c.lease, EndingFor(c).value, at, key, b,
          after);
      }
    case _ =>
  }

  // A log that gained one entry, and hooks that changed at most in being done.
  lemma BindKnows(s: State, p: nat, key: Key, b: Binding, after: bool)
    requires Known(StepBeforeBind(s, p), key, b, after)
    ensures Known(s, key, b, after)
  {
    var t := StepBeforeBind(s, p);
    if p < |s.befores| && s.befores[p].live {
      assert forall q :: 0 <= q < |t.befores| ==> Names(t.befores[q], key, b) == Names(s.befores[q], key, b);
      if |t.log| > |s.log| && Tells(t.log[|s.log|], key, b, after) { assert Names(s.befores[p], key, b); }
      assert forall n :: 0 <= n < |s.log| ==> t.log[n] == s.log[n];
    }
  }

  lemma ConsumeKnows(s: State, p: nat, key: Key, b: Binding, after: bool)
    requires Known(StepAfterConsume(s, p), key, b, after)
    ensures Known(s, key, b, after)
  {
    var t := StepAfterConsume(s, p);
    if p < |s.afters| && s.afters[p].live {
      assert forall q :: 0 <= q < |t.afters| ==> Names(t.afters[q], key, b) == Names(s.afters[q], key, b);
      assert Names(t.writing[|s.writing|], key, b) ==> Names(s.afters[p], key, b);
      assert Tells(t.log[|s.log|], key, b, after) ==> Names(s.afters[p], key, b);
      assert forall n :: 0 <= n < |s.log| ==> t.log[n] == s.log[n];
      assert forall q :: 0 <= q < |s.writing| ==> t.writing[q] == s.writing[q];
    }
  }

  lemma RecordKnows(s: State, p: nat, receipt: ReceiptState, at: int, key: Key, b: Binding, after: bool)
    requires Known(StepAfterRecord(s, p, receipt, at), key, b, after)
    ensures Known(s, key, b, after)
  {
    var t := StepAfterRecord(s, p, receipt, at);
    if p < |s.writing| && s.writing[p].live {
      assert forall q :: 0 <= q < |t.writing| ==> Names(t.writing[q], key, b) == Names(s.writing[q], key, b);
      assert Tells(t.log[|s.log|], key, b, after) ==> Names(s.writing[p], key, b);
      assert forall n :: 0 <= n < |s.log| ==> t.log[n] == s.log[n];
    }
  }

  lemma CloseKnows(s: State, lease: nat, ending: Ending, at: int, key: Key, b: Binding, after: bool)
    requires Known(CloseLease(s, lease, ending, at), key, b, after)
    ensures Known(s, key, b, after)
  {
    var t := CloseLease(s, lease, ending, at);
    assert forall n :: 0 <= n < |s.log| ==> t.log[n] == s.log[n];
  }

  ghost predicate MatchedIn(s: State, events: seq<Event>, key: Key, b: Binding, after: bool) {
    exists m: nat :: m < |events| && Matches(Run(s, events[..m]), events[m], key, b, after)
  }

  // Every registration follows a before-hook, and every consumption and observation an after-hook, of the same
  // call, at a time when the worker was active and exactly this command was leased, in time and unresolved; the
  // after-hook's call was registered for it.
  lemma {:induction false} HooksFollowTheirCommand(at: int, maxFailures: nat, events: seq<Event>, key: Key, b: Binding,
                                                   after: bool)
    requires Known(Run(Start(at, maxFailures), events), key, b, after)
    ensures MatchedIn(Start(at, maxFailures), events, key, b, after)
  {
    var s := Start(at, maxFailures);
    assert events != [];
    var front, e := events[..|events| - 1], events[|events| - 1];
    KnownStep(Run(s, front), e, key, b, after);
    if Known(Run(s, front), key, b, after) {
      HooksFollowTheirCommand(at, maxFailures, front, key, b, after);
      var m: nat :| m < |front| && Matches(Run(s, front[..m]), front[m], key, b, after);
      assert front[..m] == events[..m] && front[m] == events[m];
    } else {
      assert Matches(Run(s, events[..|front|]), events[|front|], key, b, after);
    }
  }

  // A hook that finds its command leased always goes on; one that does not changes nothing.
  lemma HooksGoOnIff(s: State, key: Key, tool: string, digest: nat, at: int)
    ensures var b := if s.worker.lease.Some? then Binding(s.worker.lease.value.id, tool, digest)
      else Binding(0, tool, digest);
      && Next(s, BeforeMatch(key, tool, digest, at)) ==
        (if Leased(s.worker, b, at) then s.(befores := s.befores + [Hook(key, b, true)]) else s)
      && Next(s, AfterMatch(key, tool, digest, at)) ==
        (if Leased(s.worker, b, at) && key in s.calls && s.calls[key] == b
         then s.(afters := s.afters + [Hook(key, b, true)]) else s)
  {
  }

  // ---- Each await acts once

  // The part of an event that picks a hook or a completion to resume.
  predicate SameAwait(e: Event, f: Event) {
    || (e.BeforeBind? && f.BeforeBind? && e.p == f.p)
    || (e.AfterConsume? && f.AfterConsume? && e.p == f.p)
    || (e.AfterRecord? && f.AfterRecord? && e.p == f.p)
    || (e.CompleteClose? && f.CompleteClose? && e.p == f.p)
  }

  predicate Resumes(s: State, e: Event) {
    match e
    case BeforeBind(p) => p < |s.befores| && s.befores[p].live
    case AfterConsume(p) => p < |s.afters| && s.afters[p].live
    case AfterRecord(p, _, _) => p < |s.writing| && s.writing[p].live
    case CompleteClose(p, _) => p < |s.completions| && s.completions[p].live
    case _ => false
  }

  lemma ResumedOnce(s: State, e: Event, f: Event)
    requires Resumes(s, e) && SameAwait(e, f)
    ensures !Resumes(Next(s, e), f) && Next(Next(s, e), f) == Next(s, e)
  {
    match e
    case BeforeBind(p) => assert !StepBeforeBind(s, p).befores[p].live;
    case AfterConsume(p) => assert !StepAfterConsume(s, p).afters[p].live;
    case AfterRecord(p, receipt, at) => assert !StepAfterRecord(s, p, receipt, at).writing[p].live;
    case CompleteClose(p, at) => CloseResumesOnce(s, p, at);
    case _ =>
  }

  lemma CloseResumesOnce(s: State, p: nat, at: int)
    requires p < |s.completions| && s.completions[p].live
    ensures p < |StepCompleteClose(s, p, at).completions| && !StepCompleteClose(s, p, at).completions[p].live
  {
  }

  // ---- A human gate is left without the operator

  // Two completions, one after the other, of any leased command without a receipt: the first asks for a human gate
  // and gets it, the second reports a transient failure, and the worker is active again, to be woken later.
  lemma GateIsLeftWithoutResume(s: State, at: int)
    requires s.worker.lease.Some? && s.worker.lease.value.expiresAt > at && s.worker.lease.value.plan.Some?
    requires s.worker.lease.value.plan.value.receipt.None? && s.worker.failures + 1 < s.worker.maxFailures
    ensures var lease, n := s.worker.lease.value.id, |s.completions|;
      var gated := Next(Next(s, CompleteRead(lease, WantGate)), CompleteClose(n, at));
      var t := Next(Next(gated, CompleteRead(lease, WantTransient)), CompleteClose(n + 1, at));
      && gated.worker.status.HumanGate? && gated.worker.nextWakeAt.None?
      && t.worker.status.Active? && t.worker.nextWakeAt == Some(at + WaitAfter(s.worker.failures))
  {
    var lease, n := s.worker.lease.value.id, |s.completions|;
    var s1 := StepCompleteRead(s, lease, WantGate);
    assert s1.completions[n] == Completion(lease, WantGate, None, |s.log|, true);
    var gated := StepCompleteClose(s1, n, at);
    assert gated.worker == s.worker.(status := HumanGate, nextWakeAt := None) && |gated.completions| == n + 1;
    var s2 := StepCompleteRead(gated, lease, WantTransient);
    assert s2.completions[n + 1] == Completion(lease, WantTransient, None, |gated.log|, true);
    EndingOutcome(gated.worker, lease, TransientFailure, at);
  }
}
