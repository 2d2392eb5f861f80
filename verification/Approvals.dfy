// Native allow-once approvals: a map from tool call id to the approved tool and scope, pruned by expiry and
// emptied by the execution that takes an entry. Hooks, resolutions and executions of any number of calls,
// call ids reused at will, interleave; the clock never runs backwards.
module Approvals {
  const TTL_MS := 120_000

  // scope: the digest a call's parameters, attestations and configuration are bound to.
  datatype Approval = Approval(tool: string, scope: nat, expiresAt: nat)

  function Pruned(bindings: map<nat, Approval>, now: nat): map<nat, Approval> {
    map call | call in bindings && bindings[call].expiresAt > now :: bindings[call]
  }

  predicate Accepts(bindings: map<nat, Approval>, call: nat, tool: string, scope: nat) {
    call in bindings && bindings[call].tool == tool && bindings[call].scope == scope
  }

  // What each use of the map leaves in it; the runs below and the class after them share these.
  function AfterAsk(bindings: map<nat, Approval>, call: nat, now: nat): map<nat, Approval> {
    Pruned(bindings, now) - {call}
  }

  function AfterAnswer(bindings: map<nat, Approval>, call: nat, tool: string, scope: nat, allowOnce: bool, now: nat)
    : map<nat, Approval>
  {
    if allowOnce then bindings[call := Approval(tool, scope, now + TTL_MS)] else bindings - {call}
  }

  function AfterTake(bindings: map<nat, Approval>, call: nat): map<nat, Approval> { bindings - {call} }

  // The map as the plugin updates it.
  class ApprovalBindings {
    var bindings: map<nat, Approval>

    constructor ()
      ensures bindings == map[]
    {
      bindings := map[];
    }

    method Prune(now: nat)
      modifies this
      ensures bindings == Pruned(old(bindings), now)
    {
      var calls := bindings.Keys;
      while calls != {}
        invariant calls <= old(bindings).Keys
        invariant bindings == map c | c in old(bindings)
          && (c in calls || old(bindings)[c].expiresAt > now) :: old(bindings)[c]
        decreases calls
      {
        var call :| call in calls;
        if bindings[call].expiresAt <= now { bindings := bindings - {call}; }
        calls := calls - {call};
      }
    }

    // The before-hook of an assisted call drops whatever an earlier call with this id left.
    method Ask(call: nat, now: nat)
      modifies this
      ensures bindings == AfterAsk(old(bindings), call, now)
    {
      Prune(now);
      bindings := bindings - {call};
    }

    method Resolve(call: nat, tool: string, scope: nat, allowOnce: bool, now: nat)
      modifies this
      ensures bindings == AfterAnswer(old(bindings), call, tool, scope, allowOnce, now)
    {
      if allowOnce {
        bindings := bindings[call := Approval(tool, scope, now + TTL_MS)];
      } else {
        bindings := bindings - {call};
      }
    }

    // An execution reads its entry and removes it, whatever it then decides.
    method Take(call: nat, tool: string, scope: nat) returns (accepted: bool)
      modifies this
      ensures accepted == Accepts(old(bindings), call, tool, scope)
      ensures bindings == AfterTake(old(bindings), call)
    {
      accepted := call in bindings && bindings[call].tool == tool && bindings[call].scope == scope;
      bindings := bindings - {call};
    }
  }

  // ---- Runs

  // What happened, in order. Taken carries the time of the prune that preceded it in the same execution, and
  // its own.
  datatype Entry =
    | Asked(call: nat)
    | Allowed(call: nat, tool: string, scope: nat, at: nat)
    | Denied(call: nat)
    | Taken(call: nat, tool: string, scope: nat, prunedAt: nat, at: nat, accepted: bool)

  datatype Question = Question(call: nat, tool: string, scope: nat)

  datatype Execution = Execution(call: nat, tool: string, prunedAt: nat)

  datatype State = State(
    clock: nat, bindings: map<nat, Approval>, questions: seq<Question>, executions: seq<Execution>, log: seq<Entry>)

  // Resolve answers question k, at any time and any number of times. Take resumes execution k after its
  // prune, with the scope the call binds to by then.
  datatype Event =
    | Wait(ms: nat)
    | Ask(call: nat, tool: string, scope: nat)
    | Resolve(k: nat, allowOnce: bool)
    | Begin(call: nat, tool: string)
    | Take(k: nat, scope: nat)

  function TakenAt(s: State, x: Execution, scope: nat): Entry {
    Taken(x.call, x.tool, scope, x.prunedAt, s.clock, Accepts(s.bindings, x.call, x.tool, scope))
  }

  function Next(s: State, e: Event): State {
    match e
    case Wait(ms) => s.(clock := s.clock + ms)
    case Ask(call, tool, scope) =>
      s.(bindings := AfterAsk(s.bindings, call, s.clock), questions := s.questions + [Question(call, tool, scope)],
         log := s.log + [Asked(call)])
    case Resolve(k, allowOnce) =>
      if k >= |s.questions| then s
      else
        var q := s.questions[k];
        s.(bindings := AfterAnswer(s.bindings, q.call, q.tool, q.scope, allowOnce, s.clock),
           log := s.log + [if allowOnce then Allowed(q.call, q.tool, q.scope, s.clock) else Denied(q.call)])
    case Begin(call, tool) =>
      s.(bindings := Pruned(s.bindings, s.clock), executions := s.executions + [Execution(call, tool, s.clock)])
    case Take(k, scope) =>
      if k >= |s.executions| then s
      else
        var x := s.executions[k];
        s.(bindings := AfterTake(s.bindings, x.call),
           log := s.log + [TakenAt(s, x, scope)])
  }

  const START := State(0, map[], [], [], [])

  function Run(events: seq<Event>): State {
    if events == [] then START else Next(Run(events[..|events| - 1]), events[|events| - 1])
  }

  // Entry g allowed this call for this tool and scope, and nothing happened to the call between g and n.
  predicate LatestIsAllowed(log: seq<Entry>, g: nat, n: nat, call: nat, tool: string, scope: nat, at: nat) {
    g < n <= |log| && log[g] == Allowed(call, tool, scope, at) && forall j :: g < j < n ==> log[j].call != call
  }

  ghost predicate Granted(log: seq<Entry>, n: nat, call: nat, a: Approval) {
    exists g: nat, at: nat :: LatestIsAllowed(log, g, n, call, a.tool, a.scope, at) && a.expiresAt == at + TTL_MS
  }

  ghost predicate Inv(s: State) {
    && (forall call :: call in s.bindings ==> Granted(s.log, |s.log|, call, s.bindings[call]))
    && (forall k :: 0 <= k < |s.executions| ==> s.executions[k].prunedAt <= s.clock)
    && (forall k :: 0 <= k < |s.executions| && s.executions[k].call in s.bindings ==>
      s.bindings[s.executions[k].call].expiresAt > s.executions[k].prunedAt)
  }

  lemma GrantedStays(log: seq<Entry>, e: Entry, call: nat, a: Approval)
    requires Granted(log, |log|, call, a) && e.call != call
    ensures Granted(log + [e], |log| + 1, call, a)
  {
    var g: nat, at: nat :| LatestIsAllowed(log, g, |log|, call, a.tool, a.scope, at) && a.expiresAt == at + TTL_MS;
    assert LatestIsAllowed(log + [e], g, |log| + 1, call, a.tool, a.scope, at);
  }

  lemma NextKeepsInv(s: State, e: Event)
    requires Inv(s)
    ensures Inv(Next(s, e))
  {
    var t := Next(s, e);
    if |t.log| > |s.log| {
      var o := t.log[|s.log|];
      assert t.log == s.log + [o];
      forall call | call in t.bindings ensures Granted(t.log, |t.log|, call, t.bindings[call]) {
        if o.call != call {
          GrantedStays(s.log, o, call, t.bindings[call]);
        } else {
          assert LatestIsAllowed(t.log, |s.log|, |t.log|, call, o.tool, o.scope, o.at);
        }
      }
    }
  }

  lemma {:induction false} RunKeepsInv(events: seq<Event>)
    ensures Inv(Run(events))
  {
    if events != [] {
      RunKeepsInv(events[..|events| - 1]);
      NextKeepsInv(Run(events[..|events| - 1]), events[|events| - 1]);
    }
  }

  // Event e, in state s, is the one this entry tells of.
  predicate Caused(s: State, e: Event, o: Entry) {
    match o
    case Asked(call) => e.Ask? && e.call == call
    case Allowed(call, tool, scope, at) =>
      e.Resolve? && e.allowOnce && e.k < |s.questions| && s.questions[e.k] == Question(call, tool, scope)
        && at == s.clock
    case Denied(call) => e.Resolve? && !e.allowOnce && e.k < |s.questions| && s.questions[e.k].call == call
    case Taken(call, tool, scope, prunedAt, at, _) =>
      e.Take? && e.scope == scope && e.k < |s.executions| && at == s.clock
      && s.executions[e.k] == Execution(call, tool, prunedAt)
  }

  ghost predicate CausedIn(events: seq<Event>, o: Entry) {
    exists m: nat :: m < |events| && Caused(Run(events[..m]), events[m], o)
  }

  lemma NextLogs(s: State, e: Event)
    ensures var log := Next(s, e).log;
      log == s.log || (|log| == |s.log| + 1 && log[..|s.log|] == s.log && Caused(s, e, log[|s.log|]))
  {
  }

  // Every entry has its event: only an allow-once answer to a question allows, for the call, tool and scope that
  // the question asked about.
  lemma {:induction false} EntriesHaveTheirEvents(events: seq<Event>, n: nat)
    requires n < |Run(events).log|
    ensures CausedIn(events, Run(events).log[n])
  {
    var front, e := events[..|events| - 1], events[|events| - 1];
    var s := Run(front);
    NextLogs(s, e);
    if n < |s.log| {
      EntriesHaveTheirEvents(front, n);
      var m: nat :| m < |front| && Caused(Run(front[..m]), front[m], s.log[n]);
      assert Next(s, e).log[n] == Next(s, e).log[..|s.log|][n];
      assert front[..m] == events[..m] && front[m] == events[m];
    } else {
      assert Caused(Run(events[..|front|]), events[|front|], Run(events).log[n]);
    }
  }

  // What makes the execution taken at entry n an accepted one.
  ghost predicate Backed(log: seq<Entry>, n: nat) {
    n < |log| && log[n].Taken? ==>
      (log[n].accepted ==> exists g: nat, at: nat ::
        LatestIsAllowed(log, g, n, log[n].call, log[n].tool, log[n].scope, at) && at + TTL_MS > log[n].prunedAt)
  }

  // Every accepted execution follows an allow-once resolution for the same call, tool and scope that had not
  // expired when the execution pruned, with no hook, resolution or execution of that call in between.
  lemma {:induction false} AcceptedExecutionsWereAllowed(events: seq<Event>, n: nat)
    ensures Backed(Run(events).log, n)
  {
    if events != [] {
      var s, e := Run(events[..|events| - 1]), events[|events| - 1];
      var t := Next(s, e);
      AcceptedExecutionsWereAllowed(events[..|events| - 1], n);
      RunKeepsInv(events[..|events| - 1]);
      if n < |s.log| && s.log[n].Taken? && s.log[n].accepted {
        var g: nat, at: nat :| LatestIsAllowed(s.log, g, n, s.log[n].call, s.log[n].tool, s.log[n].scope, at)
          && at + TTL_MS > s.log[n].prunedAt;
        assert LatestIsAllowed(t.log, g, n, t.log[n].call, t.log[n].tool, t.log[n].scope, at);
      } else if n == |s.log| < |t.log| && t.log[n].Taken? && t.log[n].accepted {
        TakenWasGranted(s, e.k, e.scope);
      }
    }
  }

  lemma TakenWasGranted(s: State, k: nat, scope: nat)
    requires Inv(s) && k < |s.executions|
    ensures Backed(Next(s, Take(k, scope)).log, |s.log|)
  {
    var x, t, n := s.executions[k], Next(s, Take(k, scope)), |s.log|;
    if t.log[n].accepted {
      var a := s.bindings[x.call];
      var g: nat, at: nat :| LatestIsAllowed(s.log, g, n, x.call, a.tool, a.scope, at) && a.expiresAt == at + TTL_MS;
      assert LatestIsAllowed(t.log, g, n, x.call, x.tool, scope, at);
    }
  }

  // So the accepted executions inject into the allow-once resolutions: no resolution backs two of them.
  lemma NoResolutionBacksTwoExecutions(log: seq<Entry>, g: nat, m: nat, n: nat, at: nat, atN: nat)
    requires m < |log| && n < |log| && log[m].Taken? && log[n].Taken?
    requires LatestIsAllowed(log, g, m, log[m].call, log[m].tool, log[m].scope, at)
    requires LatestIsAllowed(log, g, n, log[n].call, log[n].tool, log[n].scope, atN)
    ensures m == n
  {
    assert log[m].call == log[n].call;
  }

  // ---- Expiry is tested at the prune only

  // The time that passes over a run of events.
  function Waited(events: seq<Event>): nat {
    if events == [] then 0
    else Waited(events[..|events| - 1]) + if events[|events| - 1].Wait? then events[|events| - 1].ms else 0
  }

  lemma {:induction false} ClockIsWaited(events: seq<Event>)
    ensures Run(events).clock == Waited(events)
  {
    if events != [] {
      ClockIsWaited(events[..|events| - 1]);
    }
  }

  lemma {:induction false} WaitedSplits(events: seq<Event>, b: nat, m: nat)
    requires b <= m <= |events|
    ensures Waited(events[..m]) == Waited(events[..b]) + Waited(events[b..m])
  {
    if b < m {
      assert events[..m][..m - 1] == events[..m - 1] && events[b..m][..m - 1 - b] == events[b..m - 1];
      WaitedSplits(events, b, m - 1);
    } else {
      assert events[b..m] == [];
    }
  }

  // Event b began, and pruned for, execution k.
  predicate Begun(events: seq<Event>, b: nat, k: nat) {
    b < |events| && events[b].Begin? && |Run(events[..b]).executions| == k
  }

  lemma {:induction false} ExecutionsWereBegun(events: seq<Event>, k: nat)
    requires k < |Run(events).executions|
    ensures exists b: nat ::
      && b < |events| && Begun(events, b, k)
      && Run(events).executions[k].prunedAt == Waited(events[..b])
  {
    var n := |events| - 1;
    var front := events[..n];
    if k < |Run(front).executions| {
      ExecutionsWereBegun(front, k);
      var b: nat :| b < |front| && Begun(front, b, k) && Run(front).executions[k].prunedAt == Waited(front[..b]);
      assert front[..b] == events[..b] && Begun(events, b, k);
    } else {
      ClockIsWaited(front);
      assert Begun(events, n, k);
    }
  }

  // Event m takes an approval for execution k and is accepted.
  predicate Accepted(events: seq<Event>, m: nat) {
    m < |events| && events[m].Take? && events[m].k < |Run(events[..m]).executions|
    && var s := Run(events[..m]);
       Accepts(s.bindings, s.executions[events[m].k].call, s.executions[events[m].k].tool, events[m].scope)
  }

  // It began at event b, under the approval that entry g of the log granted at `at` and that had not expired.
  ghost predicate AcceptedUnder(events: seq<Event>, m: nat, b: nat, g: nat, at: nat)
    requires Accepted(events, m)
  {
    var s := Run(events[..m]);
    var x := s.executions[events[m].k];
    && b < m && Begun(events, b, events[m].k) && at + TTL_MS > Waited(events[..b])
    && LatestIsAllowed(s.log, g, |s.log|, x.call, x.tool, events[m].scope, at)
  }

  // In every run, each accepted execution has such a beginning and grant, and it is in time exactly when less
  // time passes between its prune and its take than the approval had left at the prune.
  lemma AcceptedInTimeIff(events: seq<Event>, m: nat)
    requires Accepted(events, m)
    ensures exists b: nat, g: nat, at: nat ::
      && AcceptedUnder(events, m, b, g, at)
      && (Run(events[..m]).clock < at + TTL_MS <==> Waited(events[b..m]) < at + TTL_MS - Waited(events[..b]))
  {
    var s := Run(events[..m]);
    var x := s.executions[events[m].k];
    RunKeepsInv(events[..m]);
    var g: nat, at: nat :| LatestIsAllowed(s.log, g, |s.log|, x.call, x.tool, events[m].scope, at)
      && s.bindings[x.call].expiresAt == at + TTL_MS;
    ExecutionsWereBegun(events[..m], events[m].k);
    var b: nat :| b < m && Begun(events[..m], b, events[m].k) && x.prunedAt == Waited(events[..m][..b]);
    assert events[..m][..b] == events[..b] && Begun(events, b, events[m].k);
    ClockIsWaited(events[..m]);
    WaitedSplits(events, b, m);
    assert AcceptedUnder(events, m, b, g, at);
  }

  // However long an execution waits after its prune, it is accepted: past the lifetime, that is too late.
  lemma ApprovalOutlivesItsExpiry(call: nat, tool: string, scope: nat, ms: nat)
    ensures var t := Run([Ask(call, tool, scope), Resolve(0, true), Begin(call, tool), Wait(ms), Take(0, scope)]);
      t.log == [Asked(call), Allowed(call, tool, scope, 0), Taken(call, tool, scope, 0, ms, true)]
  {
    var run := [Ask(call, tool, scope), Resolve(0, true), Begin(call, tool), Wait(ms), Take(0, scope)];
    assert run[..4][..3] == run[..3] && run[..3][..2] == run[..2] && run[..2][..1] == run[..1] && run[..1][..0] == [];
    var s1 := Next(START, run[0]);
    assert Run(run[..1]) == s1;
    var s2 := Next(s1, run[1]);
    assert Run(run[..2]) == s2;
    var s3 := Next(s2, run[2]);
    assert Run(run[..3]) == s3 && call in s3.bindings;
    var s4 := Next(s3, run[3]);
    assert Run(run[..4]) == s4;
  }

  // ---- What was allowed is accepted

  // Event e touches this call's entry, or prunes at a time when it has expired.
  predicate Disturbs(s: State, e: Event, call: nat, expiresAt: nat) {
    match e
    case Wait(_) => false
    case Ask(c, _, _) => c == call || s.clock >= expiresAt
    case Resolve(k, _) => k < |s.questions| && s.questions[k].call == call
    case Begin(_, _) => s.clock >= expiresAt
    case Take(k, _) => k < |s.executions| && s.executions[k].call == call
  }

  lemma EntryStays(s: State, e: Event, call: nat, a: Approval)
    requires call in s.bindings && s.bindings[call] == a && !Disturbs(s, e, call, a.expiresAt)
    ensures call in Next(s, e).bindings && Next(s, e).bindings[call] == a
  {
  }

  lemma {:induction false} EntryLasts(events: seq<Event>, r: nat, m: nat, call: nat, a: Approval)
    requires r <= m <= |events| && call in Run(events[..r]).bindings && Run(events[..r]).bindings[call] == a
    requires forall k :: r <= k < m ==> !Disturbs(Run(events[..k]), events[k], call, a.expiresAt)
    ensures call in Run(events[..m]).bindings && Run(events[..m]).bindings[call] == a
    decreases m
  {
    if r < m {
      EntryLasts(events, r, m - 1, call, a);
      assert events[..m][..m - 1] == events[..m - 1];
      EntryStays(Run(events[..m - 1]), events[m - 1], call, a);
    }
  }

  // The converse: event r allows a call once; if nothing touches the call's entry until event m and no prune
  // comes after the entry's expiry, the execution that takes it at m with the same tool and scope is accepted.
  // Hooks, resolutions and executions of other calls do not matter.
  lemma AllowedExecutionIsAccepted(events: seq<Event>, r: nat, m: nat)
    requires r < m < |events| && events[r].Resolve? && events[r].allowOnce && events[m].Take?
    requires events[r].k < |Run(events[..r]).questions| && events[m].k < |Run(events[..m]).executions|
    requires var q, x := Run(events[..r]).questions[events[r].k], Run(events[..m]).executions[events[m].k];
      && x.call == q.call && x.tool == q.tool && events[m].scope == q.scope
      && forall k :: r < k < m ==> !Disturbs(Run(events[..k]), events[k], q.call, Run(events[..r]).clock + 120_000)
    ensures Accepted(events, m)
    ensures var log := Run(events[..m + 1]).log; log != [] && log[|log| - 1].Taken? && log[|log| - 1].accepted
  {
    var q := Run(events[..r]).questions[events[r].k];
    var a := Approval(q.tool, q.scope, Run(events[..r]).clock + 120_000);
    AllowanceIsStored(events, r);
    EntryLasts(events, r + 1, m, q.call, a);
    TakeIsLogged(events, m);
  }

  lemma AllowanceIsStored(events: seq<Event>, r: nat)
    requires r < |events| && events[r].Resolve? && events[r].allowOnce
    requires events[r].k < |Run(events[..r]).questions|
    ensures var s, t := Run(events[..r]), Run(events[..r + 1]);
      var q := s.questions[events[r].k];
      q.call in t.bindings && t.bindings[q.call] == Approval(q.tool, q.scope, s.clock + 120_000)
  {
    assert events[..r + 1][..r] == events[..r];
  }

  lemma TakeIsLogged(events: seq<Event>, m: nat)
    requires m < |events| && events[m].Take? && events[m].k < |Run(events[..m]).executions|
    ensures var log := Run(events[..m + 1]).log;
      log != [] && log[|log| - 1].Taken? && (log[|log| - 1].accepted <==> Accepted(events, m))
  {
    assert events[..m + 1][..m] == events[..m];
  }
}
