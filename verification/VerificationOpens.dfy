// Opening confirmation links for one submission reference: HTTP opens, same-profile browser opens and
// webmail sessions share one durable guard; stored verification tokens are consumed by the opens that use
// one. Every await is one event; attempts interleave and may stop anywhere. The guard can also go away by
// expiry, eviction or a purge.
module VerificationOpens {
  import opened Wrappers

  // WebmailGuided: the webmail path of a broker that continues in a guided form and ends without a receipt.
  datatype Path = Http | SameProfile | Webmail | WebmailGuided

  predicate UsesToken(p: Path) { p.Http? || p.SameProfile? }

  // Guarded: its guard is registered. Claimed: the token is consumed, or the campaign effect authorised.
  // InFlight: the link may have been opened. Settled: opened, and the case or flow recorded. Unresolved:
  // reported as uncertain, retry blocked. Releasing: failed before any open.
  datatype Pc =
    | Started | Guarded | Claimed | InFlight | Settled | Unguarded | Releasing | Unresolved | Finished

  // generation identifies the guard this attempt registered.
  datatype Attempt = Attempt(path: Path, handle: nat, pc: Pc, generation: nat)

  datatype State = State(
    guard: Option<nat>, nextGeneration: nat, tokens: set<nat>, nextHandle: nat, attempts: seq<Attempt>,
    visits: multiset<nat>, losses: nat, lapses: nat)

  datatype Event =
    | PollStores
    | Begin(path: Path, handle: nat)
    | Guard(i: nat)
    | Claim(i: nat, fate: Fate)
    | Open(i: nat, requested: bool)
    | Settle(i: nat, recorded: bool)
    | Drop(i: nat, fate: Fate)
    | Receipt(i: nat, received: bool)
    | LoseGuard

  predicate At(s: State, i: nat, pc: Pc) { i < |s.attempts| && s.attempts[i].pc == pc }

  function Goto(s: State, i: nat, pc: Pc): State
    requires i < |s.attempts|
  {
    s.(attempts := s.attempts[i := s.attempts[i].(pc := pc)])
  }

  function StepGuard(s: State, i: nat): State {
    if !At(s, i, Started) then s
    else if s.guard.Some? then Goto(s, i, Finished)
    else
      s.(attempts := s.attempts[i := s.attempts[i].(pc := Guarded, generation := s.nextGeneration)],
         guard := Some(s.nextGeneration), nextGeneration := s.nextGeneration + 1)
  }

  function StepClaim(s: State, i: nat, fate: Fate): State {
    if !At(s, i, Guarded) then s
    else
      var a := s.attempts[i];
      var got := fate.Answered? && (UsesToken(a.path) ==> a.handle in s.tokens);
      var tokens := if UsesToken(a.path) && fate.Applies() then s.tokens - {a.handle} else s.tokens;
      Goto(s, i, if got then Claimed else Releasing).(tokens := tokens)
  }

  function StepOpen(s: State, i: nat, requested: bool): State {
    if !At(s, i, Claimed) then s
    else if !requested then Goto(s, i, Unresolved)
    else
      var a := s.attempts[i];
      Goto(s, i, InFlight).(visits := if UsesToken(a.path) then s.visits + multiset{a.handle} else s.visits)
  }

  function StepSettle(s: State, i: nat, recorded: bool): State {
    if !At(s, i, InFlight) then s else Goto(s, i, if recorded then Settled else Unresolved)
  }

  // Deleting the guard, by key: it removes whatever guard is stored. A browser path whose delete throws
  // reports the open as uncertain, even if the delete took effect.
  function StepDrop(s: State, i: nat, fate: Fate): State {
    if !At(s, i, Settled) && !At(s, i, Releasing) then s
    else
      var a := s.attempts[i];
      var guard := if fate.Applies() then None else s.guard;
      if a.pc.Releasing? || a.path.Http? then Goto(s, i, Finished).(guard := guard)
      else if fate.Answered? then Goto(s, i, if a.path.Webmail? then Unguarded else Finished).(guard := guard)
      else Goto(s, i, Unresolved).(guard := guard, lapses := s.lapses + if fate.Applies() then 1 else 0)
  }

  // The webmail path takes its receipt after the guard is gone.
  function StepReceipt(s: State, i: nat, received: bool): State {
    if !At(s, i, Unguarded) then s
    else if received then Goto(s, i, Finished)
    else Goto(s, i, Unresolved).(lapses := s.lapses + 1)
  }

  function Next(s: State, e: Event): State {
    match e
    case PollStores => s.(tokens := s.tokens + {s.nextHandle}, nextHandle := s.nextHandle + 1)
    case Begin(path, handle) => s.(attempts := s.attempts + [Attempt(path, handle, Started, 0)])
    case Guard(i) => StepGuard(s, i)
    case Claim(i, fate) => StepClaim(s, i, fate)
    case Open(i, requested) => StepOpen(s, i, requested)
    case Settle(i, recorded) => StepSettle(s, i, recorded)
    case Drop(i, fate) => StepDrop(s, i, fate)
    case Receipt(i, received) => StepReceipt(s, i, received)
    case LoseGuard => s.(guard := None, losses := s.losses + if s.guard.Some? then 1 else 0)
  }

  const START := State(None, 0, {}, 0, [], multiset{}, 0, 0)

  function Run(events: seq<Event>): State {
    if events == [] then START else Next(Run(events[..|events| - 1]), events[|events| - 1])
  }

  // ---- How many opens can be in flight or unresolved

  // The attempt registered a guard and has not seen its own attempt through.
  predicate Pending(a: Attempt) {
    a.pc.Guarded? || a.pc.Claimed? || a.pc.InFlight? || a.pc.Settled? || a.pc.Releasing? || a.pc.Unresolved?
  }

  predicate InFlightOrUnresolved(a: Attempt) { a.pc.InFlight? || a.pc.Unresolved? }

  function PendingCount(attempts: seq<Attempt>): nat {
    if attempts == [] then 0
    else PendingCount(attempts[..|attempts| - 1]) + if Pending(attempts[|attempts| - 1]) then 1 else 0
  }

  function OpenCount(attempts: seq<Attempt>): nat {
    if attempts == [] then 0
    else OpenCount(attempts[..|attempts| - 1]) + if InFlightOrUnresolved(attempts[|attempts| - 1]) then 1 else 0
  }

  lemma {:induction false} OpenIsPending(attempts: seq<Attempt>)
    ensures OpenCount(attempts) <= PendingCount(attempts)
  {
    if attempts != [] {
      OpenIsPending(attempts[..|attempts| - 1]);
    }
  }

  lemma {:induction false} PendingUpdate(attempts: seq<Attempt>, i: nat, a: Attempt)
    requires i < |attempts|
    ensures PendingCount(attempts[i := a]) + (if Pending(attempts[i]) then 1 else 0)
      == PendingCount(attempts) + if Pending(a) then 1 else 0
  {
    var last := |attempts| - 1;
    if i < last {
      assert attempts[i := a][..last] == attempts[..last][i := a];
      PendingUpdate(attempts[..last], i, a);
    } else {
      assert attempts[i := a][..last] == attempts[..last];
    }
  }

  function Slack(s: State): int { s.losses + s.lapses + (if s.guard.Some? then 1 else 0) - PendingCount(s.attempts) }

  // A step of one attempt: its own part in the count against what it does to the guard and the credits.
  lemma MoveKeepsSlack(s: State, t: State, i: nat)
    requires i < |s.attempts| == |t.attempts| && t.attempts == s.attempts[i := t.attempts[i]]
    requires t.losses + t.lapses + (if t.guard.Some? then 1 else 0) + (if Pending(s.attempts[i]) then 1 else 0)
      >= s.losses + s.lapses + (if s.guard.Some? then 1 else 0) + (if Pending(t.attempts[i]) then 1 else 0)
    ensures Slack(t) >= Slack(s)
  {
    PendingUpdate(s.attempts, i, t.attempts[i]);
  }

  lemma DropKeepsSlack(s: State, i: nat, fate: Fate)
    requires i < |s.attempts|
    ensures Slack(StepDrop(s, i, fate)) >= Slack(s)
  {
    MoveKeepsSlack(s, StepDrop(s, i, fate), i);
  }

  lemma NextKeepsSlack(s: State, e: Event)
    ensures Slack(Next(s, e)) >= Slack(s)
  {
    var t := Next(s, e);
    match e
    case PollStores =>
    case LoseGuard =>
    case Begin(path, handle) => assert t.attempts[..|s.attempts|] == s.attempts;
    case Guard(i) => if i < |s.attempts| { MoveKeepsSlack(s, StepGuard(s, i), i); }
    case Claim(i, fate) => if i < |s.attempts| { MoveKeepsSlack(s, StepClaim(s, i, fate), i); }
    case Open(i, requested) => if i < |s.attempts| { MoveKeepsSlack(s, StepOpen(s, i, requested), i); }
    case Settle(i, recorded) => if i < |s.attempts| { MoveKeepsSlack(s, StepSettle(s, i, recorded), i); }
    case Drop(i, fate) => if i < |s.attempts| { DropKeepsSlack(s, i, fate); }
    case Receipt(i, received) => if i < |s.attempts| { MoveKeepsSlack(s, StepReceipt(s, i, received), i); }
  }

  // In every run the opens in flight or unresolved for this submission reference number at most one, plus
  // the guards that expired or were purged, plus the failures reported after the guard was deleted.
  lemma {:induction false} OpensAreBounded(events: seq<Event>)
    ensures var s := Run(events);
      PendingCount(s.attempts) <= (if s.guard.Some? then 1 else 0) + s.losses + s.lapses
      && OpenCount(s.attempts) <= 1 + s.losses + s.lapses
  {
    if events != [] {
      OpensAreBounded(events[..|events| - 1]);
      NextKeepsSlack(Run(events[..|events| - 1]), events[|events| - 1]);
    }
    OpenIsPending(Run(events).attempts);
  }

  // An attempt whose link was opened and recorded deletes its guard, and then fails.
  predicate LapsesAt(s: State, e: Event) {
    || (e.Receipt? && At(s, e.i, Unguarded) && !e.received)
    || (e.Drop? && At(s, e.i, Settled) && !s.attempts[e.i].path.Http? && e.fate == Threw(true))
  }

  lemma RunConcat(a: seq<Event>, e: Event)
    ensures Run(a + [e]) == Next(Run(a), e)
  {
    assert (a + [e])[..|a|] == a;
  }

  // A webmail attempt i up to its open, and from there to a guard deleted and a receipt that fails.
  function OpenSteps(i: nat): seq<Event> { [Guard(i)] + [Claim(i, Answered)] + [Open(i, true)] }

  function FailSteps(i: nat): seq<Event> { [Settle(i, true)] + [Drop(i, Answered)] + [Receipt(i, false)] }

  lemma OpenChain(s: State, i: nat)
    requires At(s, i, Started) && s.attempts[i].path == Webmail && s.guard.None?
    ensures StepOpen(StepClaim(StepGuard(s, i), i, Answered), i, true) == s.(
      attempts := s.attempts[i := s.attempts[i].(pc := InFlight, generation := s.nextGeneration)],
      guard := Some(s.nextGeneration), nextGeneration := s.nextGeneration + 1)
  {
    var s2 := StepClaim(StepGuard(s, i), i, Answered);
    assert s2.attempts == s.attempts[i := s.attempts[i].(pc := Claimed, generation := s.nextGeneration)];
  }

  lemma FailChain(s: State, i: nat)
    requires At(s, i, InFlight) && s.attempts[i].path == Webmail
    ensures StepReceipt(StepDrop(StepSettle(s, i, true), i, Answered), i, false) == s.(
      attempts := s.attempts[i := s.attempts[i].(pc := Unresolved)], guard := None, lapses := s.lapses + 1)
  {
    var s2 := StepDrop(StepSettle(s, i, true), i, Answered);
    assert s2.attempts == s.attempts[i := s.attempts[i].(pc := Unguarded)];
  }

  lemma RunThree(before: seq<Event>, a: Event, b: Event, c: Event)
    ensures Run(before + ([a] + [b] + [c])) == Next(Next(Next(Run(before), a), b), c)
  {
    RunConcat(before, a);
    RunConcat(before + [a], b);
    RunConcat(before + [a] + [b], c);
    assert before + ([a] + [b] + [c]) == before + [a] + [b] + [c];
  }

  lemma OpenStepsRun(before: seq<Event>, i: nat)
    requires var s := Run(before); At(s, i, Started) && s.attempts[i].path == Webmail && s.guard.None?
    ensures var s := Run(before);
      Run(before + OpenSteps(i)) == s.(
        attempts := s.attempts[i := s.attempts[i].(pc := InFlight, generation := s.nextGeneration)],
        guard := Some(s.nextGeneration), nextGeneration := s.nextGeneration + 1)
  {
    var s := Run(before);
    RunThree(before, Guard(i), Claim(i, Answered), Open(i, true));
    OpenChain(s, i);
  }

  lemma FailStepsRun(before: seq<Event>, i: nat)
    requires var s := Run(before); At(s, i, InFlight) && s.attempts[i].path == Webmail
    ensures var s := Run(before);
      Run(before + FailSteps(i)) == s.(
        attempts := s.attempts[i := s.attempts[i].(pc := Unresolved)], guard := None, lapses := s.lapses + 1)
  {
    var s := Run(before);
    RunThree(before, Settle(i, true), Drop(i, Answered), Receipt(i, false));
    FailChain(s, i);
  }

  function TwoSessions(): seq<Event> { [Begin(Webmail, 0)] + [Begin(Webmail, 0)] }

  lemma TwoSessionsRun()
    ensures Run(TwoSessions()) == START.(attempts := [Attempt(Webmail, 0, Started, 0), Attempt(Webmail, 0, Started, 0)])
  {
    RunConcat([], Begin(Webmail, 0));
    assert [] + [Begin(Webmail, 0)] == [Begin(Webmail, 0)];
    RunConcat([Begin(Webmail, 0)], Begin(Webmail, 0));
  }

  // Two webmail sessions, no guard lost: the first opens, records and then fails to take its receipt, which
  // it reports as an uncertain, retry-blocked open; the second session's open still goes ahead.
  lemma ReportedRetryBlockIsNotKept()
    ensures var s := Run(TwoSessions() + OpenSteps(0) + FailSteps(0) + OpenSteps(1));
      s.losses == 0 && |s.attempts| == 2 && OpenCount(s.attempts) == 2 && s.attempts[0].pc == Unresolved
      && s.attempts[1].pc == InFlight
  {
    TwoSessionsRun();
    OpenStepsRun(TwoSessions(), 0);
    FailStepsRun(TwoSessions() + OpenSteps(0), 0);
    OpenStepsRun(TwoSessions() + OpenSteps(0) + FailSteps(0), 1);
    var end := Run(TwoSessions() + OpenSteps(0) + FailSteps(0) + OpenSteps(1)).attempts;
    var first := end[..1];
    assert first[..0] == [] && OpenCount(first[..0]) == 0;
    assert OpenCount(first) == 1 && end[..|end| - 1] == first;
  }

  // ---- While a guard lives, only the attempt that registered it is pending under it

  predicate Guarding(a: Attempt) { Pending(a) || a.pc.Unguarded? }

  predicate Generations(s: State) {
    && (s.guard.Some? ==> s.guard.value < s.nextGeneration)
    && (forall i :: 0 <= i < |s.attempts| && Guarding(s.attempts[i]) ==> s.attempts[i].generation < s.nextGeneration)
    && (forall i, j :: 0 <= i < j < |s.attempts| ==> !SameGuard(s.attempts[i], s.attempts[j]))
  }

  predicate SameGuard(a: Attempt, b: Attempt) { Guarding(a) && Guarding(b) && a.generation == b.generation }

  // A step that only moves an attempt on, and may remove the guard.
  lemma MoveKeepsGenerations(s: State, t: State, i: nat)
    requires Generations(s) && i < |s.attempts| == |t.attempts| && t.attempts == s.attempts[i := t.attempts[i]]
    requires Guarding(t.attempts[i]) ==> Guarding(s.attempts[i]) && t.attempts[i].generation == s.attempts[i].generation
    requires t.nextGeneration == s.nextGeneration && (t.guard == s.guard || t.guard.None?)
    ensures Generations(t)
  {
  }

  lemma GuardKeepsGenerations(s: State, i: nat)
    requires Generations(s) && i < |s.attempts|
    ensures Generations(StepGuard(s, i))
  {
  }

  lemma NextKeepsGenerations(s: State, e: Event)
    requires Generations(s)
    ensures Generations(Next(s, e))
  {
    match e
    case PollStores =>
    case LoseGuard =>
    case Begin(path, handle) =>
    case Guard(i) => if i < |s.attempts| { GuardKeepsGenerations(s, i); }
    case _ => if e.i < |s.attempts| { MoveKeepsGenerations(s, Next(s, e), e.i); }
  }

  lemma {:induction false} RunKeepsGenerations(events: seq<Event>)
    ensures Generations(Run(events))
  {
    if events != [] {
      RunKeepsGenerations(events[..|events| - 1]);
      NextKeepsGenerations(Run(events[..|events| - 1]), events[|events| - 1]);
    }
  }

  predicate OpenUnder(s: State, i: nat) {
    i < |s.attempts| && InFlightOrUnresolved(s.attempts[i]) && s.guard == Some(s.attempts[i].generation)
  }

  // At most one open is in flight or unresolved under the live guard, on any of the paths.
  lemma OneOpenPerLiveGuard(events: seq<Event>, i: nat, j: nat)
    requires i < j < |Run(events).attempts|
    ensures !(OpenUnder(Run(events), i) && OpenUnder(Run(events), j))
  {
    RunKeepsGenerations(events);
    assert !SameGuard(Run(events).attempts[i], Run(events).attempts[j]);
  }

  // ---- A stored token is opened at most once

  // An attempt that consumed its token and has not opened the link yet.
  predicate Owns(a: Attempt) { UsesToken(a.path) && a.pc.Claimed? }

  predicate TokensOnce(s: State) {
    && (forall h :: h in s.tokens ==> h < s.nextHandle && h !in s.visits)
    && (forall h :: h in s.visits ==> h < s.nextHandle && s.visits[h] == 1)
    && (forall i :: 0 <= i < |s.attempts| && Owns(s.attempts[i]) ==> OwnedOnly(s, s.attempts[i].handle))
    && (forall i, j :: 0 <= i < j < |s.attempts| ==> !SameToken(s.attempts[i], s.attempts[j]))
  }

  predicate OwnedOnly(s: State, h: nat) { h < s.nextHandle && h !in s.tokens && h !in s.visits }

  predicate SameToken(a: Attempt, b: Attempt) { Owns(a) && Owns(b) && a.handle == b.handle }

  lemma MoveKeepsTokens(s: State, t: State, i: nat)
    requires TokensOnce(s) && i < |s.attempts| == |t.attempts| && t.attempts == s.attempts[i := t.attempts[i]]
      && !Owns(t.attempts[i])
    requires t.nextHandle == s.nextHandle && t.tokens <= s.tokens && t.visits == s.visits
    ensures TokensOnce(t)
  {
  }

  lemma ClaimKeepsTokens(s: State, i: nat, fate: Fate)
    requires TokensOnce(s) && i < |s.attempts|
    ensures TokensOnce(StepClaim(s, i, fate))
  {
    var t := StepClaim(s, i, fate);
    if !Owns(t.attempts[i]) {
      MoveKeepsTokens(s, t, i);
    } else if At(s, i, Guarded) {
      var a := s.attempts[i];
      forall k | 0 <= k < |s.attempts| && k != i && Owns(s.attempts[k]) ensures s.attempts[k].handle != a.handle {
        assert OwnedOnly(s, s.attempts[k].handle);
      }
    }
  }

  lemma OpenKeepsTokens(s: State, i: nat, requested: bool)
    requires TokensOnce(s) && i < |s.attempts|
    ensures TokensOnce(StepOpen(s, i, requested))
  {
    var t := StepOpen(s, i, requested);
    if At(s, i, Claimed) && Owns(s.attempts[i]) && requested {
      var h := s.attempts[i].handle;
      assert OwnedOnly(s, h);
      forall k | 0 <= k < |t.attempts| && Owns(t.attempts[k]) ensures OwnedOnly(t, t.attempts[k].handle) {
        assert OwnedOnly(s, s.attempts[k].handle);
        assert !SameToken(s.attempts[k], s.attempts[i]) && !SameToken(s.attempts[i], s.attempts[k]);
      }
    } else if At(s, i, Claimed) {
      MoveKeepsTokens(s, t, i);
    }
  }

  lemma NextKeepsTokensOnce(s: State, e: Event)
    requires TokensOnce(s)
    ensures TokensOnce(Next(s, e))
  {
    match e
    case PollStores =>
    case LoseGuard =>
    case Begin(path, handle) =>
    case Claim(i, fate) => if i < |s.attempts| { ClaimKeepsTokens(s, i, fate); }
    case Open(i, requested) => if i < |s.attempts| { OpenKeepsTokens(s, i, requested); }
    case _ =>
      if e.i < |s.attempts| && Next(s, e) != s {
        MoveKeepsTokens(s, Next(s, e), e.i);
      }
  }

  // Over any run, no stored token's link is opened twice, by whatever attempts hold its handle.
  lemma TokensOpenAtMostOnce(events: seq<Event>, handle: nat)
    ensures Run(events).visits[handle] <= 1
  {
    RunKeepsTokens(events);
  }

  lemma {:induction false} RunKeepsTokens(events: seq<Event>)
    ensures TokensOnce(Run(events))
  {
    if events != [] {
      RunKeepsTokens(events[..|events| - 1]);
      NextKeepsTokensOnce(Run(events[..|events| - 1]), events[|events| - 1]);
    }
  }

  // ---- The reported retry block

  // Every attempt reported as unresolved still has its guard, which keeps every other attempt away.
  predicate BlocksRetry(s: State) {
    forall i :: 0 <= i < |s.attempts| && s.attempts[i].pc.Unresolved? ==> s.guard == Some(s.attempts[i].generation)
  }

  // Whoever has not seen its attempt through has its guard; who deleted it has none.
  predicate HoldsGuard(s: State, a: Attempt) { Pending(a) ==> s.guard == Some(a.generation) }

  predicate GaveGuardUp(s: State, a: Attempt) { a.pc.Unguarded? ==> s.guard != Some(a.generation) }

  predicate AllHold(s: State) {
    Generations(s) && (forall i :: 0 <= i < |s.attempts| ==> HoldsGuard(s, s.attempts[i]))
  }

  predicate GivenUp(s: State) { Generations(s) && forall i :: 0 <= i < |s.attempts| ==> GaveGuardUp(s, s.attempts[i]) }

  lemma NextKeepsGivenUp(s: State, e: Event)
    requires GivenUp(s)
    ensures GivenUp(Next(s, e))
  {
    NextKeepsGenerations(s, e);
  }

  lemma NextKeepsHolding(s: State, e: Event)
    requires AllHold(s) && !LapsesAt(s, e) && Next(s, e).losses == s.losses
    ensures AllHold(Next(s, e))
  {
    NextKeepsGenerations(s, e);
  }

  lemma RunPrefix(events: seq<Event>, n: nat)
    requires n < |events|
    ensures Run(events[..n + 1]) == Next(Run(events[..n]), events[n])
  {
    assert events[..n + 1][..n] == events[..n];
  }

  lemma LossesGrow(s: State, e: Event)
    ensures Next(s, e).losses >= s.losses
  {
  }

  lemma {:induction false} RunKeepsGivenUp(events: seq<Event>)
    ensures GivenUp(Run(events))
  {
    if events != [] {
      RunKeepsGivenUp(events[..|events| - 1]);
      NextKeepsGivenUp(Run(events[..|events| - 1]), events[|events| - 1]);
    }
  }

  lemma {:induction false} RunKeepsHolding(events: seq<Event>, n: nat)
    requires n <= |events| && Run(events[..n]).losses == 0
    requires forall k :: 0 <= k < n ==> !LapsesAt(Run(events[..k]), events[k])
    ensures AllHold(Run(events[..n]))
  {
    if n > 0 {
      RunPrefix(events, n - 1);
      var s, e := Run(events[..n - 1]), events[n - 1];
      LossesGrow(s, e);
      RunKeepsHolding(events, n - 1);
      NextKeepsHolding(s, e);
    }
  }

  lemma {:induction false} EarlierLosses(events: seq<Event>, n: nat)
    requires n <= |events|
    ensures Run(events[..n]).losses <= Run(events).losses
  {
    if n < |events| {
      var front := events[..|events| - 1];
      EarlierLosses(front, n);
      assert front[..n] == events[..n];
      LossesGrow(Run(front), events[|events| - 1]);
    } else {
      assert events[..n] == events;
    }
  }

  lemma LapseBreaksBlock(s: State, e: Event)
    requires GivenUp(s) && LapsesAt(s, e)
    ensures !BlocksRetry(Next(s, e))
  {
    var t := Next(s, e);
    assert GaveGuardUp(s, s.attempts[e.i]);
    assert t.attempts[e.i].pc == Unresolved;
  }

  // With no guard lost from outside, every attempt reported as unresolved keeps its guard throughout a run
  // exactly if no webmail receipt fails after the guard's delete and no browser path's delete throws after it
  // took effect.
  lemma RetryBlockHoldsIff(events: seq<Event>)
    requires Run(events).losses == 0
    ensures (forall k :: 0 <= k <= |events| ==> BlocksRetry(Run(events[..k])))
      <==> forall k :: 0 <= k < |events| ==> !LapsesAt(Run(events[..k]), events[k])
  {
    if forall k :: 0 <= k < |events| ==> !LapsesAt(Run(events[..k]), events[k]) {
      forall k | 0 <= k <= |events| ensures BlocksRetry(Run(events[..k])) {
        EarlierLosses(events, k);
        RunKeepsHolding(events, k);
        HoldingBlocks(Run(events[..k]));
      }
    }
    if k: nat :| k < |events| && LapsesAt(Run(events[..k]), events[k]) {
      LapseBreaksRun(events, k);
    }
  }

  lemma HoldingBlocks(s: State)
    requires AllHold(s)
    ensures BlocksRetry(s)
  {
    forall i | 0 <= i < |s.attempts| && s.attempts[i].pc.Unresolved? ensures s.guard == Some(s.attempts[i].generation) {
      assert HoldsGuard(s, s.attempts[i]);
    }
  }

  lemma LapseBreaksRun(events: seq<Event>, k: nat)
    requires k < |events| && LapsesAt(Run(events[..k]), events[k])
    ensures !BlocksRetry(Run(events[..k + 1]))
  {
    RunKeepsGivenUp(events[..k]);
    LapseBreaksBlock(Run(events[..k]), events[k]);
    RunPrefix(events, k);
  }

  // And then no other attempt's open is in flight at any time after the report: an unresolved attempt stays
  // so, and no later attempt gets past its guard.
  lemma NoOpenAfterUnresolved(events: seq<Event>, k: nat, i: nat, j: nat)
    requires Run(events).losses == 0 && forall m :: 0 <= m < |events| ==> !LapsesAt(Run(events[..m]), events[m])
    requires k <= |events| && i < |Run(events[..k]).attempts| && Run(events[..k]).attempts[i].pc.Unresolved?
    requires j < |Run(events).attempts| && j != i
    ensures !Run(events).attempts[j].pc.InFlight? && i < |Run(events).attempts|
      && Run(events).attempts[i].pc.Unresolved?
  {
    assert events[..|events|] == events;
    UnresolvedStays(events, k, |events|, i);
    RunKeepsHolding(events, |events|);
    var s := Run(events);
    assert HoldsGuard(s, s.attempts[i]) && HoldsGuard(s, s.attempts[j]);
    assert !SameGuard(s.attempts[if i < j then i else j], s.attempts[if i < j then j else i]);
  }

  lemma {:induction false} UnresolvedStays(events: seq<Event>, k: nat, n: nat, i: nat)
    requires k <= n <= |events| && i < |Run(events[..k]).attempts| && Run(events[..k]).attempts[i].pc.Unresolved?
    ensures i < |Run(events[..n]).attempts| && Run(events[..n]).attempts[i].pc.Unresolved?
  {
    if k < n {
      UnresolvedStays(events, k, n - 1, i);
      UnresolvedNext(events, n - 1, i);
    }
  }

  lemma UnresolvedNext(events: seq<Event>, n: nat, i: nat)
    requires n < |events| && i < |Run(events[..n]).attempts| && Run(events[..n]).attempts[i].pc.Unresolved?
    ensures i < |Run(events[..n + 1]).attempts| && Run(events[..n + 1]).attempts[i].pc.Unresolved?
  {
    RunPrefix(events, n);
    UnresolvedStep(Run(events[..n]), events[n], i);
  }

  lemma UnresolvedStep(s: State, e: Event, i: nat)
    requires i < |s.attempts| && s.attempts[i].pc.Unresolved?
    ensures i < |Next(s, e).attempts| && Next(s, e).attempts[i].pc.Unresolved?
  {
  }

  // While a lapse that leaves no guard always lets another open go ahead.
  lemma LapseLetsAnotherOpen(events: seq<Event>, e: Event)
    requires LapsesAt(Run(events), e) && Next(Run(events), e).guard.None?
    ensures var i := |Run(events).attempts|;
      var t := Run(events + [e] + [Begin(Webmail, 0)] + OpenSteps(i));
      && i < |t.attempts| && t.attempts[i].pc == InFlight && t.losses == Run(events).losses
      && e.i < i && t.attempts[e.i].pc == Unresolved
  {
    var i := |Run(events).attempts|;
    var lapsed := events + [e];
    RunConcat(events, e);
    RunConcat(lapsed, Begin(Webmail, 0));
    var s := Run(lapsed + [Begin(Webmail, 0)]);
    assert s.attempts[i] == Attempt(Webmail, 0, Started, 0) && s.attempts[e.i].pc == Unresolved;
    OpenStepsRun(lapsed + [Begin(Webmail, 0)], i);
  }

  // ---- Which attempts are unresolved, and which ones drop the guard

  // Event m leaves attempt i's open uncertain: it was not requested in time, or its case was not recorded.
  predicate LeavesUncertain(events: seq<Event>, m: nat, i: nat) {
    && m < |events|
    && ((events[m] == Settle(i, false) && At(Run(events[..m]), i, InFlight))
        || (events[m] == Open(i, false) && At(Run(events[..m]), i, Claimed)))
  }

  // Such an attempt is unresolved from then on. Without a guard lost from outside and without a lapse, its guard
  // is the stored one and no other attempt is in flight at any later time.
  lemma UncertainOpenBlocksRetry(events: seq<Event>, m: nat, n: nat, i: nat)
    requires m < n <= |events| && LeavesUncertain(events, m, i)
    ensures var s := Run(events[..n]);
      && i < |s.attempts| && s.attempts[i].pc.Unresolved?
      && (s.losses == 0 && (forall k :: 0 <= k < n ==> !LapsesAt(Run(events[..k]), events[k])) ==>
        s.guard == Some(s.attempts[i].generation)
        && forall j :: 0 <= j < |s.attempts| && j != i ==> !s.attempts[j].pc.InFlight?)
  {
    RunPrefix(events, m);
    UnresolvedStays(events, m + 1, n, i);
    if Run(events[..n]).losses == 0 && forall k :: 0 <= k < n ==> !LapsesAt(Run(events[..k]), events[k]) {
      RunKeepsHolding(events, n);
      var s := Run(events[..n]);
      assert HoldsGuard(s, s.attempts[i]);
      forall j | 0 <= j < |s.attempts| && j != i ensures !s.attempts[j].pc.InFlight? {
        assert HoldsGuard(s, s.attempts[j]);
        assert !SameGuard(s.attempts[if i < j then i else j], s.attempts[if i < j then j else i]);
      }
    }
  }

  // Event m records the open of attempt i.
  predicate RecordsOpen(events: seq<Event>, m: nat, i: nat) {
    m < |events| && events[m] == Settle(i, true) && At(Run(events[..m]), i, InFlight)
  }

  // Event m sends attempt i's open out.
  predicate SendsOpen(events: seq<Event>, m: nat, i: nat) {
    m < |events| && events[m].Open? && events[m].i == i && At(Run(events[..m]), i, Claimed)
  }

  predicate BeforeOpen(pc: Pc) { pc.Started? || pc.Guarded? || pc.Claimed? || pc.Releasing? }

  lemma PcStep(s: State, e: Event, i: nat)
    requires i < |Next(s, e).attempts|
    ensures i >= |s.attempts| ==> Next(s, e).attempts[i].pc.Started?
    ensures i < |s.attempts| && Next(s, e).attempts[i].pc.Settled? ==>
      s.attempts[i].pc.Settled? || (e == Settle(i, true) && s.attempts[i].pc.InFlight?)
    ensures i < |s.attempts| && BeforeOpen(Next(s, e).attempts[i].pc) ==>
      BeforeOpen(s.attempts[i].pc) && !(e.Open? && e.i == i && s.attempts[i].pc.Claimed?)
  {
  }

  lemma {:induction false} SettledWasRecorded(events: seq<Event>, n: nat, i: nat)
    requires n <= |events| && At(Run(events[..n]), i, Settled)
    ensures exists m: nat :: m < n && RecordsOpen(events, m, i)
  {
    if n > 0 {
      RunPrefix(events, n - 1);
      PcStep(Run(events[..n - 1]), events[n - 1], i);
      if At(Run(events[..n - 1]), i, Settled) {
        SettledWasRecorded(events, n - 1, i);
      } else {
        assert RecordsOpen(events, n - 1, i);
      }
    }
  }

  lemma {:induction false} UnopenedSentNothing(events: seq<Event>, n: nat, i: nat)
    requires n <= |events| && i < |Run(events[..n]).attempts| && BeforeOpen(Run(events[..n]).attempts[i].pc)
    ensures forall m: nat :: m < n ==> !SendsOpen(events, m, i)
  {
    if n > 0 {
      RunPrefix(events, n - 1);
      PcStep(Run(events[..n - 1]), events[n - 1], i);
      if i < |Run(events[..n - 1]).attempts| {
        UnopenedSentNothing(events, n - 1, i);
      } else {
        forall m: nat | m < n ensures !SendsOpen(events, m, i) {
          AttemptsStay(events, m, n - 1);
        }
      }
    }
  }

  lemma {:induction false} AttemptsStay(events: seq<Event>, m: nat, n: nat)
    requires m <= n <= |events|
    ensures |Run(events[..m]).attempts| <= |Run(events[..n]).attempts|
  {
    if m < n {
      RunPrefix(events, n - 1);
      AttemptsGrow(Run(events[..n - 1]), events[n - 1]);
      AttemptsStay(events, m, n - 1);
    }
  }

  lemma AttemptsGrow(s: State, e: Event)
    ensures |Next(s, e).attempts| >= |s.attempts|
  {
  }

  lemma GuardStep(s: State, e: Event)
    requires s.guard.Some? && Next(s, e).guard != s.guard
    ensures e.LoseGuard? || (e.Drop? && e.fate.Applies() && (At(s, e.i, Settled) || At(s, e.i, Releasing)))
  {
  }

  // Besides losses from outside, only two kinds of attempt ever take the guard away: one whose open was recorded,
  // and one that never sent its open out.
  lemma OnlyFinishedAttemptsDropTheGuard(events: seq<Event>, n: nat)
    requires n < |events| && Run(events[..n]).guard.Some? && Run(events[..n + 1]).guard != Run(events[..n]).guard
    ensures events[n].LoseGuard?
      || (events[n].Drop?
          && ((exists m: nat :: m < n && RecordsOpen(events, m, events[n].i))
              || (forall m: nat :: m < n ==> !SendsOpen(events, m, events[n].i))))
  {
    RunPrefix(events, n);
    GuardStep(Run(events[..n]), events[n]);
    if events[n].Drop? {
      if At(Run(events[..n]), events[n].i, Settled) { SettledWasRecorded(events, n, events[n].i); }
      if At(Run(events[..n]), events[n].i, Releasing) { UnopenedSentNothing(events, n, events[n].i); }
    }
  }

  // ---- The two counts

  function LossCount(events: seq<Event>): nat {
    if events == [] then 0
    else
      var front := events[..|events| - 1];
      LossCount(front) + if events[|events| - 1].LoseGuard? && Run(front).guard.Some? then 1 else 0
  }

  function LapseCount(events: seq<Event>): nat {
    if events == [] then 0
    else
      var front := events[..|events| - 1];
      LapseCount(front) + if LapsesAt(Run(front), events[|events| - 1]) then 1 else 0
  }

  lemma CreditStep(s: State, e: Event)
    ensures Next(s, e).losses == s.losses + (if e.LoseGuard? && s.guard.Some? then 1 else 0)
    ensures Next(s, e).lapses == s.lapses + (if LapsesAt(s, e) then 1 else 0)
  {
  }

  // The bound on the opens counts exactly the guards lost from outside and the lapses.
  lemma {:induction false} CreditsAreCounted(events: seq<Event>)
    ensures Run(events).losses == LossCount(events) && Run(events).lapses == LapseCount(events)
  {
    if events != [] {
      CreditsAreCounted(events[..|events| - 1]);
      CreditStep(Run(events[..|events| - 1]), events[|events| - 1]);
    }
  }

  // ---- Tokens and visits

  // An attempt goes on when its claim is answered and, on the two paths that use one, its token was stored; a
  // claim that took effect uses the token up. Any other claim leads to giving the guard back.
  lemma ClaimGoesOnIff(s: State, i: nat, fate: Fate)
    requires At(s, i, Guarded)
    ensures var t, a := Next(s, Claim(i, fate)), s.attempts[i];
      var uses := a.path.Http? || a.path.SameProfile?;
      && (At(t, i, Claimed) <==> fate.Answered? && (uses ==> a.handle in s.tokens))
      && (!At(t, i, Claimed) ==> At(t, i, Releasing))
      && t.tokens == (if uses && fate.Applies() then s.tokens - {a.handle} else s.tokens) && t.guard == s.guard
  {
  }

  lemma OpenVisits(s: State, i: nat)
    requires At(s, i, Claimed)
    ensures var t, a := Next(s, Open(i, true)), s.attempts[i];
      && At(t, i, InFlight) && t.guard == s.guard
      && t.visits == s.visits + (if a.path.Http? || a.path.SameProfile? then multiset{a.handle} else multiset{})
  {
    assert s.visits + multiset{} == s.visits;
  }

  // A guard that goes away, by a loss or by an attempt that failed before its open, lets the next attempt through.
  lemma GuardComesFree(s: State, i: nat, j: nat, fate: Fate)
    requires At(s, j, Started)
    ensures At(Next(Next(s, LoseGuard), Guard(j)), j, Guarded)
    ensures At(s, i, Releasing) ==>
      At(Next(s, Drop(i, fate)), i, Finished)
      && (fate.Applies() ==> At(Next(Next(s, Drop(i, fate)), Guard(j)), j, Guarded))
      && (!fate.Applies() ==> Next(s, Drop(i, fate)).guard == s.guard)
  {
    if At(s, i, Releasing) { assert i != j; }
  }

  // A polled token can be claimed by the attempt that begins with it.
  lemma PolledTokenIsStored(s: State)
    ensures var t := Next(s, PollStores); s.nextHandle in t.tokens && t.nextHandle == s.nextHandle + 1
    ensures forall h :: h in s.tokens ==> h in Next(s, PollStores).tokens
  {
  }
}
