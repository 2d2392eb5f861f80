// The immutable profile snapshot of one profile id: the digest of the configured profile is registered once
// and every later call must match it. Calls interleave one store operation at a time; the stored snapshot
// can expire or be purged between any two of them. The hash is taken to be collision-free.
module ProfileSnapshot {
  import opened Wrappers
  import opened CanonicalJson
  import opened CanonicalJsonParser
  import opened CanonicalJsonOrder

  type Hash = Text -> nat

  ghost predicate CollisionFree(hash: Hash) { forall a, b :: hash(a) == hash(b) ==> a == b }

  function Digest(cmp: Compare, hash: Hash, profile: Json): nat { hash(Print(cmp, profile)) }

  // founder is the profile whose digest was registered; generation tells stored snapshots apart.
  datatype Snapshot = Snapshot(digest: nat, generation: nat, founder: Json)

  datatype Pc = Begun | Found | Accepted | Rejected

  datatype Call = Call(profile: Json, pc: Pc)

  // Acceptance: a call that returned, and the stored snapshot it returned under.
  datatype Acceptance = Acceptance(profile: Json, snapshot: Snapshot)

  datatype State = State(stored: Option<Snapshot>, nextGeneration: nat, calls: seq<Call>, successes: seq<Acceptance>)

  datatype Event = Begin(profile: Json) | RegisterIfAbsent(i: nat) | Lookup(i: nat) | Lose

  function Finish(s: State, i: nat, pc: Pc): State
    requires i < |s.calls|
  {
    s.(calls := s.calls[i := s.calls[i].(pc := pc)])
  }

  function Next(cmp: Compare, hash: Hash, s: State, e: Event): State {
    match e
    case Begin(profile) => s.(calls := s.calls + [Call(profile, Begun)])
    case RegisterIfAbsent(i) =>
      if i >= |s.calls| || !s.calls[i].pc.Begun? then s
      else if s.stored.Some? then Finish(s, i, Found)
      else
        var p := s.calls[i].profile;
        var snapshot := Snapshot(Digest(cmp, hash, p), s.nextGeneration, p);
        Finish(s, i, Accepted).(stored := Some(snapshot), nextGeneration := s.nextGeneration + 1,
                                successes := s.successes + [Acceptance(p, snapshot)])
    case Lookup(i) =>
      if i >= |s.calls| || !s.calls[i].pc.Found? then s
      else
        var p := s.calls[i].profile;
        if s.stored.None? || s.stored.value.digest != Digest(cmp, hash, p) then Finish(s, i, Rejected)
        else Finish(s, i, Accepted).(successes := s.successes + [Acceptance(p, s.stored.value)])
    case Lose => s.(stored := None)
  }

  const START := State(None, 0, [], [])

  function Run(cmp: Compare, hash: Hash, events: seq<Event>): State {
    if events == [] then START
    else Next(cmp, hash, Run(cmp, hash, events[..|events| - 1]), events[|events| - 1])
  }

  predicate Inv(cmp: Compare, hash: Hash, s: State) {
    && (s.stored.Some? ==>
      s.stored.value.digest == Digest(cmp, hash, s.stored.value.founder)
      && s.stored.value.generation < s.nextGeneration)
    && (forall k :: 0 <= k < |s.successes| ==> SuccessFits(cmp, hash, s, s.successes[k]))
    && (forall k, l :: 0 <= k < |s.successes| && 0 <= l < |s.successes| ==>
      OneSnapshot(s.successes[k].snapshot, s.successes[l].snapshot))
    && (s.stored.Some? ==> forall k :: 0 <= k < |s.successes| ==> OneSnapshot(s.successes[k].snapshot, s.stored.value))
  }

  predicate OneSnapshot(a: Snapshot, b: Snapshot) { a.generation == b.generation ==> a == b }

  predicate SuccessFits(cmp: Compare, hash: Hash, s: State, x: Acceptance) {
    && x.snapshot.generation < s.nextGeneration
    && x.snapshot.digest == Digest(cmp, hash, x.snapshot.founder) == Digest(cmp, hash, x.profile)
  }

  lemma NextKeepsInv(cmp: Compare, hash: Hash, s: State, e: Event)
    requires Inv(cmp, hash, s)
    ensures Inv(cmp, hash, Next(cmp, hash, s, e))
  {
    var t := Next(cmp, hash, s, e);
    forall k | 0 <= k < |s.successes| ensures SuccessFits(cmp, hash, t, t.successes[k]) {
      assert SuccessFits(cmp, hash, s, s.successes[k]);
    }
  }

  lemma {:induction false} RunKeepsInv(cmp: Compare, hash: Hash, events: seq<Event>)
    ensures Inv(cmp, hash, Run(cmp, hash, events))
  {
    if events != [] {
      RunKeepsInv(cmp, hash, events[..|events| - 1]);
      NextKeepsInv(cmp, hash, Run(cmp, hash, events[..|events| - 1]), events[|events| - 1]);
    }
  }

  // Over any run, all the calls that succeeded under one stored snapshot saw the profile it was registered
  // for, up to key order, whatever the key comparison.
  lemma SuccessesSawOneProfile(cmp: Compare, hash: Hash, events: seq<Event>, k: nat, l: nat)
    requires CollisionFree(hash)
    requires var s := Run(cmp, hash, events); k < |s.successes| && l < |s.successes|
    ensures var s := Run(cmp, hash, events); var x, y := s.successes[k], s.successes[l];
      && Same(x.profile, x.snapshot.founder)
      && (x.snapshot.generation == y.snapshot.generation ==> Same(x.profile, y.profile))
  {
    var s := Run(cmp, hash, events);
    RunKeepsInv(cmp, hash, events);
    var x, y := s.successes[k], s.successes[l];
    assert SuccessFits(cmp, hash, s, x) && SuccessFits(cmp, hash, s, y) && OneSnapshot(x.snapshot, y.snapshot);
    EqualPrintsAreSame(cmp, x.profile, x.snapshot.founder);
    if x.snapshot.generation == y.snapshot.generation { EqualPrintsAreSame(cmp, x.profile, y.profile); }
  }

  // A call that finds a stored snapshot is accepted exactly when its profile is the registered one up to
  // key order, with a comparison that tells keys apart.
  lemma LookupAcceptsIff(cmp: Compare, hash: Hash, events: seq<Event>, i: nat)
    requires CollisionFree(hash) && Consistent(cmp) && NoTies(cmp)
    requires var s := Run(cmp, hash, events);
      && i < |s.calls| && s.calls[i].pc.Found? && s.stored.Some?
      && UniqueKeys(s.calls[i].profile) && UniqueKeys(s.stored.value.founder)
    ensures var s := Run(cmp, hash, events);
      Next(cmp, hash, s, Lookup(i)).calls[i].pc.Accepted? <==> Same(s.calls[i].profile, s.stored.value.founder)
  {
    var s := Run(cmp, hash, events);
    RunKeepsInv(cmp, hash, events);
    PrintsAgreeIff(cmp, s.calls[i].profile, s.stored.value.founder);
  }

  // ---- Immutability over events

  // Event m accepts call i.
  predicate AcceptedAt(cmp: Compare, hash: Hash, events: seq<Event>, m: nat, i: nat) {
    && m < |events| && i < |Run(cmp, hash, events[..m]).calls| && i < |Run(cmp, hash, events[..m + 1]).calls|
    && !Run(cmp, hash, events[..m]).calls[i].pc.Accepted? && Run(cmp, hash, events[..m + 1]).calls[i].pc.Accepted?
  }

  lemma RunPrefix(cmp: Compare, hash: Hash, events: seq<Event>, n: nat)
    requires n < |events|
    ensures Run(cmp, hash, events[..n + 1]) == Next(cmp, hash, Run(cmp, hash, events[..n]), events[n])
  {
    assert events[..n + 1][..n] == events[..n];
  }

  // An acceptance leaves a snapshot of its own profile's digest; one that found none left its own profile.
  lemma AcceptanceStep(cmp: Compare, hash: Hash, s: State, e: Event, i: nat)
    requires i < |s.calls| && i < |Next(cmp, hash, s, e).calls|
    requires !s.calls[i].pc.Accepted? && Next(cmp, hash, s, e).calls[i].pc.Accepted?
    ensures var t := Next(cmp, hash, s, e);
      && t.calls[i].profile == s.calls[i].profile
      && t.stored.Some? && t.stored.value.digest == Digest(cmp, hash, s.calls[i].profile)
      && (s.stored.Some? ==> t.stored == s.stored)
      && (s.stored.None? ==> t.stored.value.founder == s.calls[i].profile)
  {
  }

  lemma StandsStep(cmp: Compare, hash: Hash, s: State, e: Event)
    requires s.stored.Some? && !e.Lose?
    ensures Next(cmp, hash, s, e).stored == s.stored
  {
  }

  // A stored snapshot stands, with its founder, until it is lost.
  lemma {:induction false} SnapshotStands(cmp: Compare, hash: Hash, events: seq<Event>, m: nat, n: nat)
    requires m <= n <= |events| && Run(cmp, hash, events[..m]).stored.Some?
    requires forall k :: m <= k < n ==> !events[k].Lose?
    ensures Run(cmp, hash, events[..n]).stored == Run(cmp, hash, events[..m]).stored
    decreases n
  {
    if m < n {
      SnapshotStands(cmp, hash, events, m, n - 1);
      RunPrefix(cmp, hash, events, n - 1);
      StandsStep(cmp, hash, Run(cmp, hash, events[..n - 1]), events[n - 1]);
    }
  }

  // Once a profile has been accepted, only that profile is accepted, up to key order, until the snapshot is lost;
  // and the first acceptance stores the accepted profile itself.
  lemma AcceptedProfileIsImmutable(cmp: Compare, hash: Hash, events: seq<Event>, m: nat, n: nat, i: nat, j: nat)
    requires CollisionFree(hash) && m < n
    requires AcceptedAt(cmp, hash, events, m, i) && AcceptedAt(cmp, hash, events, n, j)
    requires forall k :: m < k < n ==> !events[k].Lose?
    ensures Same(Run(cmp, hash, events[..m]).calls[i].profile, Run(cmp, hash, events[..n]).calls[j].profile)
    ensures Run(cmp, hash, events[..m]).stored.None? ==>
      Run(cmp, hash, events[..n]).stored.Some?
      && Run(cmp, hash, events[..n]).stored.value.founder == Run(cmp, hash, events[..m]).calls[i].profile
  {
    RunPrefix(cmp, hash, events, m);
    RunPrefix(cmp, hash, events, n);
    AcceptanceStep(cmp, hash, Run(cmp, hash, events[..m]), events[m], i);
    AcceptanceStep(cmp, hash, Run(cmp, hash, events[..n]), events[n], j);
    SnapshotStands(cmp, hash, events, m + 1, n);
    var p, q := Run(cmp, hash, events[..m]).calls[i].profile, Run(cmp, hash, events[..n]).calls[j].profile;
    assert Digest(cmp, hash, p) == Digest(cmp, hash, q);
    EqualPrintsAreSame(cmp, p, q);
  }

  // The first call to ask is accepted, and its profile is what later calls are held to.
  lemma FirstCallIsAccepted(cmp: Compare, hash: Hash, events: seq<Event>, i: nat)
    requires var s := Run(cmp, hash, events); i < |s.calls| && s.calls[i].pc.Begun? && s.stored.None?
    ensures var s, t := Run(cmp, hash, events), Run(cmp, hash, events + [RegisterIfAbsent(i)]);
      && i < |t.calls| && t.calls[i].pc.Accepted?
      && t.stored.Some? && t.stored.value.founder == s.calls[i].profile
  {
    assert (events + [RegisterIfAbsent(i)])[..|events|] == events;
  }

  // A call returns once: accepted by registering its own digest, or by a lookup after another one's, and recorded
  // then; whatever has returned stays as it is.
  lemma CallsReturnOnce(cmp: Compare, hash: Hash, s: State, e: Event, i: nat)
    requires i < |s.calls|
    ensures var t := Next(cmp, hash, s, e);
      && i < |t.calls| && t.calls[i].profile == s.calls[i].profile
      && (s.calls[i].pc.Accepted? || s.calls[i].pc.Rejected? ==> t.calls[i] == s.calls[i])
      && (t.calls[i].pc.Accepted? && !s.calls[i].pc.Accepted? ==>
        && ((e == RegisterIfAbsent(i) && s.calls[i].pc.Begun? && s.stored.None?)
            || (e == Lookup(i) && s.calls[i].pc.Found? && s.stored.Some?))
        && t.stored.Some? && t.successes == s.successes + [Acceptance(s.calls[i].profile, t.stored.value)])
      && (t.calls[i].pc.Found? && !s.calls[i].pc.Found? ==> s.calls[i].pc.Begun? && s.stored.Some?)
  {
  }

  // And losing the snapshot is what ends the immutability: the next call is accepted, whatever its profile.
  lemma LostSnapshotAcceptsAny(cmp: Compare, hash: Hash, events: seq<Event>, profile: Json)
    ensures var i := |Run(cmp, hash, events).calls|;
      var t := Run(cmp, hash, events + [Lose] + [Begin(profile)] + [RegisterIfAbsent(i)]);
      && |t.calls| == i + 1 && t.calls[i] == Call(profile, Accepted)
      && t.stored.Some? && t.stored.value.founder == profile
  {
    var s, lost := Run(cmp, hash, events), events + [Lose];
    var begun := lost + [Begin(profile)];
    assert lost[..|events|] == events && begun[..|lost|] == lost;
    assert Run(cmp, hash, begun).calls == s.calls + [Call(profile, Begun)];
    FirstCallIsAccepted(cmp, hash, begun, |s.calls|);
    assert (begun + [RegisterIfAbsent(|s.calls|)])[..|begun|] == begun;
  }
}
