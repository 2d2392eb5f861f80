// The durable wake of one worker: any number of ticks, completions and recovery passes replace the jobs
// under the worker's tag, one at a time under the schedule lock, while the ledger record changes without
// that lock. Each await is one event; a scheduler can stop for good at any of them.
module WorkerWake {
  import opened Wrappers
  import opened WorkerLedger

  // FromCall: a tick, completion or resume, which schedules for the record its own ledger call returned.
  // FromRecovery: startup recovery, which checks its schedule token again once it holds the lock.
  datatype Origin = FromCall | FromRecovery

  datatype Pc = Waiting | Locked | Checked | Cleared | Confirmed | Unconfirmed | StaleSkipped | Stopped

  // token: the schedule token of the record the requested wake was computed from.
  datatype Scheduler = Scheduler(origin: Origin, token: Token, pc: Pc)

  // jobs: the host's pending turns under the worker's tag, each with the token it was requested for.
  datatype State = State(worker: Worker, jobs: multiset<Token>, holder: Option<nat>, schedulers: seq<Scheduler>)

  datatype Answer = Registered | Refused | Lost

  // Clear with failed leaves the jobs the host could not remove; Lost registers a job but reports an error.
  datatype Event =
    | Change(op: Op, at: int)
    | Request(op: Op, at: int)
    | Recover
    | Acquire(i: nat)
    | Check(i: nat)
    | Clear(i: nat, failed: bool, left: multiset<Token>)
    | Register(i: nat, answer: Answer)
    | Fire(job: Token)
    | Stop(i: nat)

  function Current(s: State): Token { ScheduleToken(s.worker) }

  predicate At(s: State, i: nat, pc: Pc) { i < |s.schedulers| && s.schedulers[i].pc == pc }

  function Goto(s: State, i: nat, pc: Pc): State
    requires i < |s.schedulers|
  {
    s.(schedulers := s.schedulers[i := s.schedulers[i].(pc := pc)])
  }

  function Leave(s: State, i: nat, pc: Pc): State
    requires i < |s.schedulers|
  {
    Goto(s, i, pc).(holder := if s.holder == Some(i) then None else s.holder)
  }

  function Enqueue(s: State, origin: Origin): State {
    s.(schedulers := s.schedulers + [Scheduler(origin, Current(s), Waiting)])
  }

  function StepAcquire(s: State, i: nat): State {
    if At(s, i, Waiting) && s.holder.None? then
      Goto(s, i, if s.schedulers[i].origin.FromCall? then Checked else Locked).(holder := Some(i))
    else s
  }

  function StepCheck(s: State, i: nat): State {
    if !At(s, i, Locked) then s
    else if s.schedulers[i].token == Current(s) then Goto(s, i, Checked)
    else Leave(s, i, StaleSkipped)
  }

  function StepClear(s: State, i: nat, failed: bool, left: multiset<Token>): State {
    if !At(s, i, Checked) then s
    else if !failed then Goto(s, i, Cleared).(jobs := multiset{})
    else if left <= s.jobs then Leave(s, i, Unconfirmed).(jobs := left)
    else s
  }

  function StepRegister(s: State, i: nat, answer: Answer): State {
    if !At(s, i, Cleared) then s
    else if answer.Refused? then Leave(s, i, Unconfirmed)
    else
      var pc := if answer.Registered? then Confirmed else Unconfirmed;
      Leave(s, i, pc).(jobs := s.jobs + multiset{s.schedulers[i].token})
  }

  function Next(s: State, e: Event): State {
    match e
    case Change(op, at) => s.(worker := Apply(s.worker, op, at))
    case Request(op, at) => Enqueue(s.(worker := Apply(s.worker, op, at)), FromCall)
    case Recover => if s.worker.status == Active then Enqueue(s, FromRecovery) else s
    case Acquire(i) => StepAcquire(s, i)
    case Check(i) => StepCheck(s, i)
    case Clear(i, failed, left) => StepClear(s, i, failed, left)
    case Register(i, answer) => StepRegister(s, i, answer)
    case Fire(job) => s.(jobs := s.jobs - multiset{job})
    case Stop(i) => if i < |s.schedulers| then Leave(s, i, Stopped) else s
  }

  function Run(s: State, events: seq<Event>): State {
    if events == [] then s else Next(Run(s, events[..|events| - 1]), events[|events| - 1])
  }

  function Start(w: Worker): State { State(w, multiset{}, None, []) }

  // ---- The lock: one scheduler inside, and never two jobs under the tag

  predicate Inside(pc: Pc) { pc.Locked? || pc.Checked? || pc.Cleared? }

  predicate LockHeld(s: State) {
    && (forall i :: 0 <= i < |s.schedulers| && Inside(s.schedulers[i].pc) ==> s.holder == Some(i))
    && (forall i :: 0 <= i < |s.schedulers| && s.schedulers[i].pc.Cleared? ==> |s.jobs| == 0)
    && |s.jobs| <= 1
  }

  lemma SmallerJobs(a: multiset<Token>, b: multiset<Token>)
    requires a <= b
    ensures |a| <= |b|
  {
    assert b == a + (b - a);
  }

  lemma EnterKeepsLock(s: State, i: nat)
    requires LockHeld(s)
    ensures LockHeld(StepAcquire(s, i)) && LockHeld(StepCheck(s, i))
  {
    var t := StepAcquire(s, i);
    assert t.jobs == s.jobs;
  }

  lemma ReplaceKeepsLock(s: State, i: nat, failed: bool, left: multiset<Token>, answer: Answer)
    requires LockHeld(s)
    ensures LockHeld(StepClear(s, i, failed, left)) && LockHeld(StepRegister(s, i, answer))
  {
    if left <= s.jobs { SmallerJobs(left, s.jobs); }
  }

  lemma StopKeepsLock(s: State, i: nat)
    requires LockHeld(s) && i < |s.schedulers|
    ensures LockHeld(Leave(s, i, Stopped))
  {
  }

  lemma EnqueueKeepsLock(s: State, w: Worker, origin: Origin)
    requires LockHeld(s)
    ensures LockHeld(Enqueue(s.(worker := w), origin))
  {
  }

  lemma NextKeepsLock(s: State, e: Event)
    requires LockHeld(s)
    ensures LockHeld(Next(s, e))
  {
    match e
    case Change(op, at) =>
    case Request(op, at) => EnqueueKeepsLock(s, Apply(s.worker, op, at), FromCall);
    case Recover => EnqueueKeepsLock(s, s.worker, FromRecovery);
    case Acquire(i) => EnterKeepsLock(s, i);
    case Check(i) => EnterKeepsLock(s, i);
    case Clear(i, failed, left) => ReplaceKeepsLock(s, i, failed, left, Lost);
    case Register(i, answer) => ReplaceKeepsLock(s, i, false, multiset{}, answer);
    case Fire(job) => SmallerJobs(s.jobs - multiset{job}, s.jobs);
    case Stop(i) => if i < |s.schedulers| { StopKeepsLock(s, i); }
  }

  // In every interleaving at most one scheduler is past the lock and at most one job is pending.
  lemma {:induction false} RunKeepsLock(w: Worker, events: seq<Event>)
    ensures LockHeld(Run(Start(w), events))
  {
    if events != [] {
      RunKeepsLock(w, events[..|events| - 1]);
      NextKeepsLock(Run(Start(w), events[..|events| - 1]), events[|events| - 1]);
    }
  }

  // ---- A confirmed wake is not replaced by stale recovery

  predicate PastCheck(x: Scheduler) { x.origin.FromRecovery? && (x.pc.Checked? || x.pc.Cleared?) }

  // Nothing but a job for the current record is pending, and no recovery for another record is past its check.
  predicate Settled(s: State) {
    && LockHeld(s)
    && (forall job :: job in s.jobs ==> job == Current(s))
    && (forall i :: 0 <= i < |s.schedulers| && PastCheck(s.schedulers[i]) ==> s.schedulers[i].token == Current(s))
  }

  // A call's scheduler installs a wake for a record that is no longer the stored one.
  predicate LateInstall(s: State, e: Event) {
    && e.Register? && !e.answer.Refused? && At(s, e.i, Cleared)
    && s.schedulers[e.i].origin.FromCall? && s.schedulers[e.i].token != Current(s)
  }

  // A call's scheduler, holding the lock, has its wake for the stored record confirmed.
  predicate Confirms(s: State, e: Event) {
    && e.Register? && e.answer.Registered? && At(s, e.i, Cleared)
    && s.schedulers[e.i].origin.FromCall? && s.schedulers[e.i].token == Current(s)
  }

  lemma ConfirmSettles(s: State, e: Event)
    requires LockHeld(s) && Confirms(s, e)
    ensures Settled(Next(s, e)) && Next(s, e).jobs == multiset{Current(s)}
  {
    var t := StepRegister(s, e.i, e.answer);
    NextKeepsLock(s, e);
    assert |s.jobs| == 0;
    assert s.jobs == multiset{};
  }

  // While the record keeps its token, the pending wake stays the right one exactly until a late call's
  // scheduler installs its own; recovery passes, crashes and failed replacements never do it.
  lemma StepStaysSettledIff(s: State, e: Event)
    requires Settled(s) && Current(Next(s, e)) == Current(s)
    ensures Settled(Next(s, e)) <==> !LateInstall(s, e)
    ensures LateInstall(s, e) ==> Next(s, e).jobs == multiset{s.schedulers[e.i].token}
  {
    NextKeepsLock(s, e);
    match e
    case Register(i, answer) => RegisterFromSettled(s, i, answer);
    case Clear(i, failed, left) => ReplaceFromSettled(s, i, failed, left);
    case Acquire(i) => EnterFromSettled(s, i);
    case Check(i) => EnterFromSettled(s, i);
    case Fire(job) => assert s.jobs - multiset{job} <= s.jobs;
    case Change(op, at) =>
    case Request(op, at) => RequestFromSettled(s, Apply(s.worker, op, at), FromCall);
    case Recover => RequestFromSettled(s, s.worker, FromRecovery);
    case Stop(i) => if i < |s.schedulers| { StopFromSettled(s, i); }
  }

  lemma EnterFromSettled(s: State, i: nat)
    requires Settled(s)
    ensures Settled(StepAcquire(s, i)) && Settled(StepCheck(s, i))
  {
    EnterKeepsLock(s, i);
  }

  lemma ReplaceFromSettled(s: State, i: nat, failed: bool, left: multiset<Token>)
    requires Settled(s)
    ensures Settled(StepClear(s, i, failed, left))
  {
    ReplaceKeepsLock(s, i, failed, left, Lost);
    var t := StepClear(s, i, failed, left);
    assert t.jobs <= s.jobs;
  }

  lemma RequestFromSettled(s: State, w: Worker, origin: Origin)
    requires Settled(s) && ScheduleToken(w) == Current(s)
    ensures Settled(Enqueue(s.(worker := w), origin))
  {
    EnqueueKeepsLock(s, w, origin);
  }

  lemma StopFromSettled(s: State, i: nat)
    requires Settled(s) && i < |s.schedulers|
    ensures Settled(Leave(s, i, Stopped))
  {
    StopKeepsLock(s, i);
  }

  lemma RegisterFromSettled(s: State, i: nat, answer: Answer)
    requires Settled(s)
    ensures var e, t := Register(i, answer), StepRegister(s, i, answer);
      (Settled(t) <==> !LateInstall(s, e)) && (LateInstall(s, e) ==> t.jobs == multiset{s.schedulers[i].token})
  {
    NextKeepsLock(s, Register(i, answer));
    if At(s, i, Cleared) {
      assert s.jobs == multiset{};
      var t := StepRegister(s, i, answer);
      if LateInstall(s, Register(i, answer)) {
        assert s.schedulers[i].token in t.jobs;
      }
    }
  }

  // Neither a change of the record's token nor a late installation happens along these events.
  predicate Undisturbed(s: State, events: seq<Event>) {
    if events == [] then true
    else
      var before, e := Run(s, events[..|events| - 1]), events[|events| - 1];
      Undisturbed(s, events[..|events| - 1]) && Current(Next(before, e)) == Current(before) && !LateInstall(before, e)
  }

  lemma {:induction false} SettledRuns(s: State, events: seq<Event>)
    requires Settled(s) && Undisturbed(s, events)
    ensures Settled(Run(s, events)) && Current(Run(s, events)) == Current(s)
  {
    if events != [] {
      SettledRuns(s, events[..|events| - 1]);
      StepStaysSettledIff(Run(s, events[..|events| - 1]), events[|events| - 1]);
    }
  }

  // Whatever happened before, once a call's locked step has confirmed its wake for the stored record, the
  // only job under the tag carries the current token for as long as the record keeps it and no late call's
  // scheduler gets through: any number of recovery passes, from before or after, leave it that way.
  lemma StaleRecoveryNeverReplacesTheWatchdog(w: Worker, before: seq<Event>, e: Event, after: seq<Event>)
    requires Confirms(Run(Start(w), before), e)
    requires Undisturbed(Next(Run(Start(w), before), e), after)
    ensures var s := Run(Start(w), before); var t := Run(Next(s, e), after);
      t.jobs <= multiset{Current(s)} && Current(t) == Current(s)
  {
    var s := Run(Start(w), before);
    RunKeepsLock(w, before);
    ConfirmSettles(s, e);
    SettledRuns(Next(s, e), after);
    var t := Run(Next(s, e), after);
    if t.jobs != multiset{} {
      var job :| job in t.jobs;
      assert |t.jobs - multiset{job}| == |t.jobs| - 1;
      assert t.jobs - multiset{job} == multiset{};
      assert t.jobs == multiset{job};
    }
  }

  // ---- Which callers replace a confirmed wake

  // Event r is the ledger call of the caller whose scheduler got number i.
  predicate Requested(w: Worker, events: seq<Event>, r: nat, i: nat) {
    r < |events| && events[r].Request? && |Run(Start(w), events[..r]).schedulers| == i
  }

  // Event n registers the wake of a caller whose ledger call left the record with another token than it has
  // by now: the token has changed since that call.
  ghost predicate OutdatedInstall(w: Worker, events: seq<Event>, n: nat) {
    && n < |events| && events[n].Register? && !events[n].answer.Refused?
      && At(Run(Start(w), events[..n]), events[n].i, Cleared)
    && exists r: nat :: r < n && Requested(w, events, r, events[n].i)
                        && Current(Run(Start(w), events[..r + 1])) != Current(Run(Start(w), events[..n]))
  }

  // What one event does to the schedulers: they keep their origins and tokens, and at most one joins.
  ghost predicate Joined(s: State, t: State, e: Event) {
    && |s.schedulers| <= |t.schedulers| <= |s.schedulers| + 1
    && (forall i :: 0 <= i < |s.schedulers| ==> SameOrigin(s.schedulers[i], t.schedulers[i]))
    && (|t.schedulers| > |s.schedulers| ==>
      var x := t.schedulers[|s.schedulers|]; x.token == Current(t) && (x.origin.FromCall? <==> e.Request?))
    && (e.Request? ==> |t.schedulers| > |s.schedulers|)
  }

  predicate SameOrigin(x: Scheduler, y: Scheduler) { x.origin == y.origin && x.token == y.token }

  // A scheduler that only moves on.
  lemma PcJoins(s: State, t: State, e: Event, i: nat)
    requires !e.Request? && i < |s.schedulers| == |t.schedulers|
    requires t.schedulers == s.schedulers[i := s.schedulers[i].(pc := t.schedulers[i].pc)]
    ensures Joined(s, t, e)
  {
  }

  lemma EnqueueJoins(s: State, t: State, e: Event, origin: Origin)
    requires t == Enqueue(s.(worker := t.worker), origin) && (e.Request? <==> origin.FromCall?)
    ensures Joined(s, t, e)
  {
    assert t.schedulers[|s.schedulers|] == Scheduler(origin, Current(t), Waiting);
  }

  lemma NextJoins(s: State, e: Event)
    ensures Joined(s, Next(s, e), e)
  {
    var t := Next(s, e);
    match e
    case Change(op, at) => assert t.schedulers == s.schedulers;
    case Fire(job) => assert t.schedulers == s.schedulers;
    case Request(op, at) => EnqueueJoins(s, t, e, FromCall);
    case Recover => if s.worker.status == Active { EnqueueJoins(s, t, e, FromRecovery); }
    case _ => if e.i < |s.schedulers| { PcJoins(s, t, e, e.i); }
  }

  // One more event of a run.
  lemma RunJoins(w: Worker, events: seq<Event>, n: nat)
    requires n < |events|
    ensures Joined(Run(Start(w), events[..n]), Run(Start(w), events[..n + 1]), events[n])
  {
    assert events[..n + 1][..n] == events[..n];
    NextJoins(Run(Start(w), events[..n]), events[n]);
  }

  lemma TokenIsNew(w: Worker, events: seq<Event>, r: nat, i: nat)
    requires Requested(w, events, r, i)
    ensures var t := Run(Start(w), events[..r + 1]);
      i < |t.schedulers| && t.schedulers[i].origin.FromCall? && t.schedulers[i].token == Current(t)
  {
    RunJoins(w, events, r);
  }

  lemma OriginStays(w: Worker, events: seq<Event>, n: nat, i: nat)
    requires n < |events| && i < |Run(Start(w), events[..n]).schedulers|
    ensures i < |Run(Start(w), events[..n + 1]).schedulers|
    ensures SameOrigin(Run(Start(w), events[..n]).schedulers[i], Run(Start(w), events[..n + 1]).schedulers[i])
  {
    RunJoins(w, events, n);
  }

  // A caller's scheduler has the token that its own ledger call left, and keeps it.
  lemma {:induction false} TokenStays(w: Worker, events: seq<Event>, r: nat, n: nat, i: nat)
    requires r < n <= |events| && Requested(w, events, r, i)
    ensures i < |Run(Start(w), events[..n]).schedulers| && Run(Start(w), events[..n]).schedulers[i].origin.FromCall?
    ensures Run(Start(w), events[..n]).schedulers[i].token == Current(Run(Start(w), events[..r + 1]))
    decreases n
  {
    if n == r + 1 {
      TokenIsNew(w, events, r, i);
    } else {
      var m := n - 1;
      TokenStays(w, events, r, m, i);
      OriginStays(w, events, m, i);
    }
  }

  // Every caller's scheduler was requested by some event.
  lemma {:induction false} CallersWereRequested(w: Worker, events: seq<Event>, n: nat, i: nat)
    requires n <= |events| && i < |Run(Start(w), events[..n]).schedulers|
    requires Run(Start(w), events[..n]).schedulers[i].origin.FromCall?
    ensures exists r: nat :: r < n && Requested(w, events, r, i)
  {
    if n > 0 {
      RunJoins(w, events, n - 1);
      if i < |Run(Start(w), events[..n - 1]).schedulers| {
        OriginStays(w, events, n - 1, i);
        CallersWereRequested(w, events, n - 1, i);
      } else {
        assert Requested(w, events, n - 1, i);
      }
    }
  }

  lemma OutdatedIffLate(w: Worker, events: seq<Event>, n: nat)
    requires n < |events| && Settled(Run(Start(w), events[..n]))
    ensures OutdatedInstall(w, events, n) <==> LateInstall(Run(Start(w), events[..n]), events[n])
  {
    var s, e := Run(Start(w), events[..n]), events[n];
    if e.Register? && At(s, e.i, Cleared) {
      if s.schedulers[e.i].origin.FromCall? {
        CallersWereRequested(w, events, n, e.i);
        forall r: nat | r < n && Requested(w, events, r, e.i)
          ensures s.schedulers[e.i].token == Current(Run(Start(w), events[..r + 1]))
        {
          TokenStays(w, events, r, n, e.i);
        }
      } else {
        forall r: nat | r < n ensures !Requested(w, events, r, e.i) {
          if Requested(w, events, r, e.i) { TokenStays(w, events, r, n, e.i); }
        }
      }
    }
  }

  // The record keeps its token from position n on.
  ghost predicate TokenKept(w: Worker, events: seq<Event>, n: nat) {
    forall k :: n <= k <= |events| ==> Current(Run(Start(w), events[..k])) == Current(Run(Start(w), events))
  }

  // After a call's locked step (event c) has confirmed its wake for the stored record, and for as long as the
  // record keeps its token: that wake is never replaced by a stale one exactly if no caller whose own ledger
  // call came before the last token change gets to register. Recovery passes, crashes and failed
  // replacements never do it; any kind of call can.
  lemma StaysSettledIff(w: Worker, events: seq<Event>, c: nat)
    requires c < |events| && Confirms(Run(Start(w), events[..c]), events[c]) && TokenKept(w, events, c + 1)
    ensures (forall k :: c < k <= |events| ==> Settled(Run(Start(w), events[..k])))
      <==> forall k: nat :: c < k < |events| ==> !OutdatedInstall(w, events, k)
  {
    RunKeepsLock(w, events[..c]);
    ConfirmSettles(Run(Start(w), events[..c]), events[c]);
    assert events[..c + 1][..c] == events[..c];
    if forall k: nat :: c < k < |events| ==> !OutdatedInstall(w, events, k) {
      forall k | c < k <= |events| ensures Settled(Run(Start(w), events[..k])) {
        SettledUpTo(w, events, c, k);
      }
    }
    if forall k :: c < k <= |events| ==> Settled(Run(Start(w), events[..k])) {
      forall k: nat | c < k < |events| ensures !OutdatedInstall(w, events, k) {
        SettledStep(w, events, k);
        assert Settled(Run(Start(w), events[..k + 1]));
        assert Current(Run(Start(w), events[..k + 1])) == Current(Run(Start(w), events[..k]));
      }
    }
  }

  lemma SettledStep(w: Worker, events: seq<Event>, k: nat)
    requires k < |events| && Settled(Run(Start(w), events[..k]))
    ensures Current(Run(Start(w), events[..k + 1])) == Current(Run(Start(w), events[..k])) ==>
      (Settled(Run(Start(w), events[..k + 1])) <==> !OutdatedInstall(w, events, k))
  {
    var s := Run(Start(w), events[..k]);
    assert events[..k + 1][..k] == events[..k];
    OutdatedIffLate(w, events, k);
    if Current(Next(s, events[k])) == Current(s) { StepStaysSettledIff(s, events[k]); }
  }

  lemma {:induction false} SettledUpTo(w: Worker, events: seq<Event>, c: nat, k: nat)
    requires c < k <= |events| && Settled(Run(Start(w), events[..c + 1])) && TokenKept(w, events, c + 1)
    requires forall j: nat :: c < j < |events| ==> !OutdatedInstall(w, events, j)
    ensures Settled(Run(Start(w), events[..k]))
  {
    if k > c + 1 {
      SettledUpTo(w, events, c, k - 1);
      SettledStep(w, events, k - 1);
      assert Current(Run(Start(w), events[..k])) == Current(Run(Start(w), events[..k - 1]));
    }
  }

  // ---- The excluded case is real

  lemma {:induction false} RunConcat(s: State, a: seq<Event>, b: seq<Event>)
    ensures Run(s, a + b) == Run(Run(s, a), b)
  {
    if b == [] {
      assert a + b == a;
    } else {
      assert (a + b)[..|a + b| - 1] == a + b[..|b| - 1];
      RunConcat(s, a, b[..|b| - 1]);
    }
  }

  function Locked3(i: nat): seq<Event> { [Acquire(i), Clear(i, false, multiset{}), Register(i, Registered)] }

  lemma Locked3Installs(s: State, i: nat)
    requires At(s, i, Waiting) && s.schedulers[i].origin.FromCall? && s.holder.None?
    ensures Run(s, Locked3(i)) == Goto(s, i, Confirmed).(jobs := multiset{s.schedulers[i].token})
    ensures s.schedulers[i].token == Current(s) ==> Confirms(Run(s, Locked3(i)[..2]), Locked3(i)[2])
  {
    var run := Locked3(i);
    assert run[..2][..1] == run[..1] && run[..1][..0] == [] && run[..2] == run[..3][..2] && run[..3] == run;
    var s1 := Goto(s, i, Checked).(holder := Some(i));
    var s2 := Goto(s1, i, Cleared).(jobs := multiset{});
    assert Next(s, run[0]) == StepAcquire(s, i) == s1;
    assert Next(s1, run[1]) == StepClear(s1, i, false, multiset{}) == s2;
    assert Run(s, run[..2]) == Next(Run(s, run[..1]), run[1]) == s2;
    RegisterInstalls(s2, i);
  }

  lemma RegisterInstalls(s: State, i: nat)
    requires At(s, i, Cleared) && s.holder == Some(i) && s.jobs == multiset{}
    ensures Next(s, Register(i, Registered))
      == Goto(s, i, Confirmed).(holder := None, jobs := multiset{s.schedulers[i].token})
  {
    assert Next(s, Register(i, Registered)) == StepRegister(s, i, Registered);
  }

  // Whatever its call was: a caller whose token is not the stored one any more replaces the confirmed wake as
  // soon as it gets the lock.
  lemma OutdatedCallerReplaces(s: State, i: nat)
    requires Settled(s) && At(s, i, Waiting) && s.schedulers[i].origin.FromCall? && s.holder.None?
    requires s.schedulers[i].token != Current(s)
    ensures var t := Run(s, Locked3(i));
      t.worker == s.worker && t.jobs == multiset{s.schedulers[i].token} && !Settled(t)
  {
    Locked3Installs(s, i);
    assert s.schedulers[i].token in Run(s, Locked3(i)).jobs;
  }

  const EARLY := 0
  const DUE := 1_000
  const LEASE_MS := 120_000

  // A worker due at DUE; one tick too early requests a wake for the record it saw; a second tick claims,
  // issues, and requests its watchdog.
  function TwoTicks(): seq<Event> {
    [Request(DoClaim(CampaignActive, 1, LEASE_MS), EARLY), Change(DoClaim(CampaignActive, 2, LEASE_MS), DUE),
     Request(DoIssue(2, "rightout_live_scan", 7), DUE)]
  }

  lemma TwoTicksRun()
    ensures var w := Create(DUE, 3); var s := Run(Start(w), TwoTicks());
      && s.jobs == multiset{} && s.holder == None && Current(s) != ScheduleToken(w)
      && s.schedulers == [Scheduler(FromCall, ScheduleToken(w), Waiting), Scheduler(FromCall, Current(s), Waiting)]
  {
    var w, run := Create(DUE, 3), TwoTicks();
    assert run[..2][..1] == run[..1] && run[..1][..0] == [] && run[..2] == run[..3][..2] && run[..3] == run;
    assert Apply(w, DoClaim(CampaignActive, 1, LEASE_MS), EARLY) == w;
    var s1 := Enqueue(Start(w), FromCall);
    assert Run(Start(w), run[..1]) == s1;
    var claimed := w.(lease := Some(Lease(2, DUE + LEASE_MS, None)));
    assert Apply(w, DoClaim(CampaignActive, 2, LEASE_MS), DUE) == claimed;
    var s2 := s1.(worker := claimed);
    assert Run(Start(w), run[..2]) == s2;
  }

  // Once the second tick has confirmed its watchdog the first tick's scheduler gets the lock: the record is
  // unchanged, but the watchdog is gone and the only job is for a record that no longer exists.
  lemma NotDueTickReplacesTheWatchdog()
    ensures var w := Create(DUE, 3);
      var s := Run(Start(w), TwoTicks() + Locked3(1));
      var t := Run(s, Locked3(0));
      && s.jobs == multiset{Current(s)}
      && t.worker == s.worker && t.jobs == multiset{ScheduleToken(w)} && ScheduleToken(w) != Current(t)
  {
    var w := Create(DUE, 3);
    TwoTicksRun();
    RunConcat(Start(w), TwoTicks(), Locked3(1));
    Locked3Installs(Run(Start(w), TwoTicks()), 1);
    Locked3Installs(Run(Start(w), TwoTicks() + Locked3(1)), 0);
  }

  // A worker whose action is done and has its receipt.
  const FINISHED_PLAN := Plan("rightout_live_scan", 7, Some(Completed))
  const FINISHED := Worker(Active, Some(0), Some(Lease(1, LEASE_MS, Some(FINISHED_PLAN))), 0, 3, 0)

  // It is completed, which requests a wake; the next tick claims, issues, and requests its watchdog.
  function CompletionAndTick(): seq<Event> {
    [Request(DoComplete(1, ActionSucceeded), DUE), Change(DoClaim(CampaignActive, 2, LEASE_MS), DUE),
     Request(DoIssue(2, "rightout_live_scan", 8), DUE)]
  }

  lemma CompletionAndTickRun()
    ensures var s := Run(Start(FINISHED), CompletionAndTick());
      && s.jobs == multiset{} && s.holder == None && |s.schedulers| == 2
      && s.schedulers[1] == Scheduler(FromCall, Current(s), Waiting)
      && s.schedulers[0].origin == FromCall && s.schedulers[0].pc == Waiting && s.schedulers[0].token != Current(s)
  {
    var run := CompletionAndTick();
    assert run[..2][..1] == run[..1] && run[..1][..0] == [] && run[..2] == run[..3][..2] && run[..3] == run;
    var done := FINISHED.(lease := None, nextWakeAt := Some(DUE), completed := 1);
    assert Apply(FINISHED, DoComplete(1, ActionSucceeded), DUE) == done;
    var s1 := Enqueue(Start(FINISHED).(worker := done), FromCall);
    assert Run(Start(FINISHED), run[..1]) == s1;
    var claimed := done.(lease := Some(Lease(2, DUE + LEASE_MS, None)));
    assert Apply(done, DoClaim(CampaignActive, 2, LEASE_MS), DUE) == claimed;
    var s2 := s1.(worker := claimed);
    assert Run(Start(FINISHED), run[..2]) == s2;
  }

  // The delayed scheduler of a completion does it too, without any tick that was not due.
  lemma CompletionReplacesTheWatchdog()
    ensures var s := Run(Start(FINISHED), CompletionAndTick() + Locked3(1));
      var t := Run(s, Locked3(0));
      s.jobs == multiset{Current(s)} && t.worker == s.worker && |t.jobs| == 1 && Current(t) !in t.jobs
  {
    CompletionAndTickRun();
    RunConcat(Start(FINISHED), CompletionAndTick(), Locked3(1));
    Locked3Installs(Run(Start(FINISHED), CompletionAndTick()), 1);
    Locked3Installs(Run(Start(FINISHED), CompletionAndTick() + Locked3(1)), 0);
  }

  // ---- What happens to the pending job

  // Only three events touch the jobs: the host firing one, a locked scheduler clearing them (a failed clearing
  // leaves what the host could not remove), and its registration.
  lemma JobsChangeOnlyBy(s: State, e: Event)
    ensures Next(s, e).jobs != s.jobs ==> e.Fire? || e.Clear? || e.Register?
    ensures e.Clear? && At(s, e.i, Checked) && !e.failed ==> Next(s, e).jobs == multiset{}
    ensures e.Clear? && At(s, e.i, Checked) && e.failed && e.left <= s.jobs ==> Next(s, e).jobs == e.left
    ensures e.Clear? && Next(s, e).jobs != s.jobs ==> At(s, e.i, Checked) && (e.failed ==> e.left <= s.jobs)
    ensures e.Register? && At(s, e.i, Cleared) && !e.answer.Refused? ==>
      Next(s, e).jobs == s.jobs + multiset{s.schedulers[e.i].token}
    ensures e.Register? && Next(s, e).jobs != s.jobs ==> At(s, e.i, Cleared) && !e.answer.Refused?
    ensures e.Fire? ==> Next(s, e).jobs == s.jobs - multiset{e.job}
  {
  }

  // A scheduler that confirms, gives up, finds itself stale or stops, gives the lock back; whoever waits can then
  // take it.
  lemma LockComesFree(s: State, e: Event, i: nat, j: nat)
    requires LockHeld(s) && i < |s.schedulers| && s.holder == Some(i) && Inside(s.schedulers[i].pc)
    requires i < |Next(s, e).schedulers| && !Inside(Next(s, e).schedulers[i].pc)
    ensures Next(s, e).holder.None?
    ensures At(Next(s, e), j, Waiting) ==> Next(Next(s, e), Acquire(j)).holder == Some(j)
  {
  }

  // Every scheduler inside can be stopped, and so leave the lock.
  lemma StopLeaves(s: State, i: nat)
    requires LockHeld(s) && i < |s.schedulers| && Inside(s.schedulers[i].pc)
    ensures var t := Next(s, Stop(i)); t.holder.None? && At(t, i, Stopped) && t.jobs == s.jobs
  {
  }

  // A recovery pass goes on to replace the jobs exactly when the record still has the token it saw.
  lemma RecoveryGoesOnIff(s: State, i: nat)
    requires LockHeld(s) && At(s, i, Locked)
    ensures var t := Next(s, Check(i));
      && (s.schedulers[i].token == Current(s) ==> At(t, i, Checked) && t.holder == Some(i))
      && (s.schedulers[i].token != Current(s) ==> At(t, i, StaleSkipped) && t.holder.None?)
      && t.jobs == s.jobs
  {
  }
}
