// How many reservations can write to the provider: a potential over reserves, releases, reconciles and late
// clicks, kept by every event of every interleaving.
module SubmissionBound {
  import opened Wrappers
  import opened CaseLedger
  import opened ProviderOutcomes
  import opened SubmissionProtocol

  // ---- Who holds which reservation

  // A submitter that made a reservation and has not given it up.
  predicate Keeps(sub: Submitter) { sub.own && !sub.pc.Cleaning? && !sub.pc.Ended? }

  // The points only the maker of a reservation reaches.
  predicate Owning(sub: Submitter) {
    sub.pc.Reserved? || sub.pc.PortalReserved? || sub.pc.Releasing? || (sub.pc.Open? && !sub.writer.FormStep?)
  }

  predicate Held(intents: seq<Intent>, sub: Submitter, i: nat) {
    && (Owning(sub) ==> sub.own)
    && (Keeps(sub) ==>
      sub.intent.Some? && sub.intent.value < |intents| && intents[sub.intent.value].owner == i
      && intents[sub.intent.value].live)
  }

  ghost predicate AllHeld(s: State) {
    forall i :: 0 <= i < |s.subs| ==> Held(s.intents, s.subs[i], i)
  }

  // ---- The potential

  // A reservation that has written or still may without being counted again.
  predicate Weighs(x: Intent) { x.live || x.wrote }

  function Burden(intents: seq<Intent>): nat {
    if intents == [] then 0
    else Burden(intents[..|intents| - 1]) + if Weighs(intents[|intents| - 1]) then 1 else 0
  }

  lemma {:induction false} BurdenUpdate(intents: seq<Intent>, r: nat, x: Intent)
    requires r < |intents|
    ensures Burden(intents[r := x]) + (if Weighs(intents[r]) then 1 else 0)
      == Burden(intents) + if Weighs(x) then 1 else 0
  {
    var last := |intents| - 1;
    if r < last {
      assert intents[r := x][..last] == intents[..last][r := x];
      BurdenUpdate(intents[..last], r, x);
    } else {
      assert intents[r := x][..last] == intents[..last];
    }
  }

  lemma BurdenAppend(intents: seq<Intent>, x: Intent)
    ensures Burden(intents + [x]) == Burden(intents) + if Weighs(x) then 1 else 0
  {
    assert (intents + [x])[..|intents|] == intents;
  }

  lemma {:induction false} WritesWeigh(intents: seq<Intent>)
    ensures Writes(intents) <= Burden(intents)
  {
    if intents != [] {
      WritesWeigh(intents[..|intents| - 1]);
    }
  }

  // Reservations nobody acts under weigh what they have written.
  lemma {:induction false} GivenUpWeigh(intents: seq<Intent>)
    requires forall r :: 0 <= r < |intents| ==> !intents[r].live
    ensures Burden(intents) == Writes(intents)
  {
    if intents != [] {
      GivenUpWeigh(intents[..|intents| - 1]);
    }
  }

  lemma {:induction false} GiveUpWrites(intents: seq<Intent>)
    ensures Writes(GiveUpAll(intents)) == Writes(intents)
  {
    if intents != [] {
      var front := intents[..|intents| - 1];
      assert GiveUpAll(intents)[..|intents| - 1] == GiveUpAll(front);
      GiveUpWrites(front);
    }
  }

  function Spare(c: Case): nat { if Protected(c.state) then 0 else 1 }

  function Credit(s: State): nat { 1 + s.notStarted + s.exits + s.misreleases + s.strays + s.portals }

  // What the writes done, the writes still possible and the unprotected case exceed the credit by.
  function Excess(s: State): int { Burden(s.intents) + Spare(s.record) - Credit(s) }

  // What an event must keep.
  ghost predicate Keeping(s: State, t: State) { AllHeld(t) && Excess(t) <= Excess(s) }

  // The ledger calls a submitter makes: a reservation uses up the unprotected state, a release restores it,
  // and the recording calls stay within the protected states.
  lemma CallsOnSpare(c: Case, w: Writer, stage: Stage, discoveryRequired: bool, at: int)
    ensures var r := Apply(c, CaseLedger.Reserve(ChannelOf(w), discoveryRequired), at);
      r.Success? ==> Spare(c) == 1 && Spare(r.value) == 0
    ensures var r := Apply(c, Release, at); r.Success? ==> Spare(c) == 0 && Spare(r.value) == 1
    ensures var r := Apply(c, RecordOp(w, stage), at); r.Success? ==> Spare(c) == 0 && Spare(r.value) == 0
    ensures var r := Apply(c, RecordUncertain(ChannelOf(w)), at); r.Success? ==> Spare(c) == 0 && Spare(r.value) == 0
    ensures var r := Apply(c, ReservePortal, at); r.Success? ==> Spare(c) == 0 && Spare(r.value) == 0
  {
  }

  // A step that moves submitter i and touches no reservation and no counter.
  lemma MoveKeeps(s: State, t: State, i: nat)
    requires AllHeld(s) && i < |s.subs| == |t.subs| && t.subs == s.subs[i := t.subs[i]] && t.intents == s.intents
    requires Held(t.intents, t.subs[i], i)
    requires Credit(t) == Credit(s) && Spare(t.record) <= Spare(s.record)
    ensures Keeping(s, t)
  {
    forall k | 0 <= k < |t.subs| ensures Held(t.intents, t.subs[k], k) {
      assert Held(s.intents, s.subs[k], k);
    }
  }

  lemma GotoKeeps(s: State, t: State, i: nat, pc: Pc)
    requires AllHeld(s) && i < |s.subs| && t.subs == Goto(s, i, pc).subs && t.intents == s.intents
    requires Owning(s.subs[i].(pc := pc)) ==> s.subs[i].own
    requires Keeps(s.subs[i].(pc := pc)) ==> Keeps(s.subs[i])
    requires Credit(t) == Credit(s) && Spare(t.record) <= Spare(s.record)
    ensures Keeping(s, t)
  {
    assert Held(s.intents, s.subs[i], i);
    MoveKeeps(s, t, i);
  }

  lemma EffectKeeps(s: State, r: nat)
    requires AllHeld(s)
    ensures var t := Effect(s, r); Keeping(s, t) && t.subs == s.subs && t.record == s.record
  {
    var t := Effect(s, r);
    if t != s {
      BurdenUpdate(s.intents, r, s.intents[r].(wrote := true));
    }
    forall k | 0 <= k < |t.subs| ensures Held(t.intents, t.subs[k], k) {
      assert Held(s.intents, s.subs[k], k);
    }
  }

  lemma StartKeeps(s: State, i: nat, c: Choice)
    requires AllHeld(s) && i < |s.subs| && s.subs[i].pc.Start?
    ensures Keeping(s, StepStart(s, i, c))
  {
    MoveKeeps(s, StepStart(s, i, c), i);
  }

  // ifPresent is Contended or Ended.
  lemma RegisterKeeps(s: State, i: nat, c: Choice, ifPresent: Pc)
    requires AllHeld(s) && i < |s.subs| && !ifPresent.Acquired? && (s.subs[i].pc.Registering? || s.subs[i].pc.Retrying?)
    requires ifPresent.Contended? || ifPresent.Ended?
    ensures Keeping(s, StepRegister(s, i, c, ifPresent))
  {
    var t := StepRegister(s, i, c, ifPresent);
    GotoKeeps(s, t, i, t.subs[i].pc);
  }

  // A reservation of the case, whether the submitter learns of it or not.
  lemma ReserveKeeps(s: State, i: nat, c: Choice, record: Case, held: Pc, lost: Pc, spare: nat)
    requires AllHeld(s) && i < |s.subs| && (held.Reserved? || held.PortalReserved?) && (lost.Backout? || lost.Ended?)
    requires Spare(record) == 0 && Spare(s.record) == spare && (Keeps(s.subs[i].(pc := lost)) ==> Keeps(s.subs[i]))
    ensures var t := TakeReservation(s, i, c, record, held, lost);
      AllHeld(t) && Excess(t) <= Excess(s) + (if c.fate.Applies() then 1 - spare else 0) && Credit(t) == Credit(s)
  {
    var t := TakeReservation(s, i, c, record, held, lost);
    if c.fate.Answered? {
      BurdenAppend(s.intents, Intent(i, true, false));
      ReservationIsHeld(s, t, i);
    } else {
      LossIsHeld(s, t, i, lost);
    }
  }

  lemma ReservationIsHeld(s: State, t: State, i: nat)
    requires AllHeld(s) && i < |s.subs| == |t.subs| && t.subs == s.subs[i := t.subs[i]]
    requires t.intents == s.intents + [Intent(i, true, false)]
    requires t.subs[i].own && t.subs[i].intent == Some(|s.intents|)
    ensures AllHeld(t)
  {
    forall k | 0 <= k < |t.subs| ensures Held(t.intents, t.subs[k], k) {
      assert Held(s.intents, s.subs[k], k);
    }
  }

  lemma LossIsHeld(s: State, t: State, i: nat, lost: Pc)
    requires AllHeld(s) && i < |s.subs| && t.subs == Goto(s, i, lost).subs && t.intents == s.intents
    requires (lost.Backout? || lost.Ended?) && (Keeps(s.subs[i].(pc := lost)) ==> Keeps(s.subs[i]))
    ensures AllHeld(t)
  {
    forall k | 0 <= k < |t.subs| ensures Held(t.intents, t.subs[k], k) {
      assert Held(s.intents, s.subs[k], k);
    }
  }

  lemma CaseReserveKeeps(s: State, i: nat, c: Choice)
    requires AllHeld(s) && i < |s.subs| && s.subs[i].pc.Acquired?
    ensures Keeping(s, StepReserve(s, i, c))
  {
    var sub := s.subs[i];
    var r := Apply(s.record, CaseLedger.Reserve(ChannelOf(sub.writer), sub.discoveryRequired), c.at);
    CallsOnSpare(s.record, sub.writer, Generic, sub.discoveryRequired, c.at);
    var lost := if sub.writer.WebmailSend? then Ended else Backout;
    if r.Failure? { GotoKeeps(s, StepReserve(s, i, c), i, lost); }
    else { ReserveKeeps(s, i, c, r.value, Reserved, lost, 1); }
  }

  lemma PortalReserveKeeps(s: State, i: nat, c: Choice)
    requires AllHeld(s) && i < |s.subs| && s.subs[i].pc.PortalSeen?
    ensures Keeping(s, StepPortalReserve(s, i, c))
  {
    var r := Apply(s.record, ReservePortal, c.at);
    CallsOnSpare(s.record, s.subs[i].writer, Generic, false, c.at);
    if r.Failure? {
      GotoKeeps(s, StepPortalReserve(s, i, c), i, Ended);
    } else {
      ReserveKeeps(s, i, c, r.value, PortalReserved, Ended, 0);
      var u := TakeReservation(s, i, c, r.value, PortalReserved, Ended);
      var t := StepPortalReserve(s, i, c);
      assert t.subs == u.subs && t.intents == u.intents && AllHeld(t);
    }
  }

  lemma MarkKeeps(s: State, i: nat, c: Choice)
    requires AllHeld(s) && i < |s.subs|
    ensures s.subs[i].pc.Reserved? ==> Keeping(s, StepMark(s, i, c))
    ensures s.subs[i].pc.PortalReserved? ==> Keeping(s, StepPortalMark(s, i, c))
  {
    assert Held(s.intents, s.subs[i], i);
    if s.subs[i].pc.Reserved? {
      var t := StepMark(s, i, c);
      GotoKeeps(s, t, i, t.subs[i].pc);
    }
    if s.subs[i].pc.PortalReserved? {
      var t := StepPortalMark(s, i, c);
      GotoKeeps(s, t, i, t.subs[i].pc);
    }
  }

  lemma ToolKeeps(s: State, i: nat, c: Choice)
    requires AllHeld(s) && i < |s.subs| && s.subs[i].pc.Open? && !s.subs[i].writer.FormStep?
    ensures Keeping(s, StepTool(s, i, c))
  {
    var sub := s.subs[i];
    assert Held(s.intents, sub, i);
    var u := if EffectOf(c.attempt) then Effect(s, sub.intent.value) else s;
    EffectKeeps(s, sub.intent.value);
    GotoKeeps(u, Goto(u, i, AfterToolAttempt(sub.writer, c.attempt)), i, AfterToolAttempt(sub.writer, c.attempt));
  }

  lemma ActKeeps(s: State, i: nat, c: Choice)
    requires AllHeld(s) && i < |s.subs| && s.subs[i].pc.Open?
    ensures Keeping(s, StepAct(s, i, c))
  {
    var sub, t := s.subs[i], StepAct(s, i, c);
    assert Held(s.intents, sub, i);
    if t != s {
      var sends := c.attempt.step.EffectSent() && sub.writer.click && sub.intent.Some?;
      var u := if sends then Effect(s, sub.intent.value) else s;
      if sub.intent.Some? { EffectKeeps(s, sub.intent.value); }
      GotoKeeps(u, t, i, t.subs[i].pc);
    }
  }

  lemma ReturnKeeps(s: State, i: nat, c: Choice)
    requires AllHeld(s) && i < |s.subs| && s.subs[i].pc.Dispatched?
    ensures Keeping(s, StepReturn(s, i, c))
  {
    var t := StepReturn(s, i, c);
    if t != s { GotoKeeps(s, t, i, t.subs[i].pc); }
  }

  lemma RecordKeeps(s: State, i: nat, c: Choice)
    requires AllHeld(s) && i < |s.subs| && s.subs[i].pc.Recording?
    ensures Keeping(s, StepRecord(s, i, c))
  {
    var w, t := s.subs[i].writer, StepRecord(s, i, c);
    CallsOnSpare(s.record, w, StageOf(s, w), false, c.at);
    GotoKeeps(s, t, i, t.subs[i].pc);
  }

  lemma DoubtKeeps(s: State, i: nat, c: Choice)
    requires AllHeld(s) && i < |s.subs| && s.subs[i].pc.Doubting?
    ensures Keeping(s, StepDoubt(s, i, c))
  {
    var w, t := s.subs[i].writer, StepDoubt(s, i, c);
    CallsOnSpare(s.record, w, Generic, false, c.at);
    GotoKeeps(s, t, i, t.subs[i].pc);
  }

  lemma ReleaseKeeps(s: State, i: nat, c: Choice)
    requires AllHeld(s) && i < |s.subs| && s.subs[i].pc.Releasing?
    ensures Keeping(s, StepRelease(s, i, c))
  {
    var sub, t := s.subs[i], StepRelease(s, i, c);
    assert Held(s.intents, sub, i);
    CallsOnSpare(s.record, sub.writer, Generic, false, c.at);
    var own := s.intents[sub.intent.value];
    BurdenUpdate(s.intents, sub.intent.value, own.(live := false));
    forall k | 0 <= k < |t.subs| ensures Held(t.intents, t.subs[k], k) {
      assert Held(s.intents, s.subs[k], k);
    }
  }

  lemma CleanKeeps(s: State, i: nat, c: Choice, to: Pc)
    requires AllHeld(s) && i < |s.subs| && (to.Ended? || to.Retrying?)
      && (Keeps(s.subs[i].(pc := to)) ==> Keeps(s.subs[i]))
    ensures Keeping(s, StepDelete(s, i, c, to)) && Keeping(s, StepClean(s, i, c))
  {
    var t, u := StepDelete(s, i, c, to), StepClean(s, i, c);
    GotoKeeps(s, t, i, t.subs[i].pc);
    GotoKeeps(s, u, i, u.subs[i].pc);
  }

  lemma AnnounceKeeps(s: State, i: nat, c: Choice)
    requires AllHeld(s) && i < |s.subs| && s.subs[i].pc.Announcing?
    ensures Keeping(s, StepAnnounce(s, i, c))
  {
    var t := StepAnnounce(s, i, c);
    GotoKeeps(s, t, i, t.subs[i].pc);
  }

  lemma StepKeeps(s: State, i: nat, c: Choice)
    requires AllHeld(s) && i < |s.subs|
    ensures Keeping(s, StepSubmitter(s, i, c))
  {
    var t := StepSubmitter(s, i, c);
    match s.subs[i].pc
    case Start => StartKeeps(s, i, c);
    case Registering => RegisterKeeps(s, i, c, Contended);
    case Contended => GotoKeeps(s, t, i, t.subs[i].pc);
    case Inspected(_) => GotoKeeps(s, t, i, t.subs[i].pc);
    case Evicting => CleanKeeps(s, i, c, Retrying);
    case Retrying => RegisterKeeps(s, i, c, Ended);
    case Acquired => CaseReserveKeeps(s, i, c);
    case Backout => CleanKeeps(s, i, c, Ended);
    case Reserved => MarkKeeps(s, i, c);
    case Open => if s.subs[i].writer.FormStep? { ActKeeps(s, i, c); } else { ToolKeeps(s, i, c); }
    case Dispatched => ReturnKeeps(s, i, c);
    case Recording => RecordKeeps(s, i, c);
    case Announcing => AnnounceKeeps(s, i, c);
    case Doubting => DoubtKeeps(s, i, c);
    case Releasing => ReleaseKeeps(s, i, c);
    case Cleaning => CleanKeeps(s, i, c, Ended);
    case Forgetting => GotoKeeps(s, t, i, t.subs[i].pc);
    case Closing => GotoKeeps(s, t, i, Ended);
    case PortalLook => GotoKeeps(s, t, i, t.subs[i].pc);
    case PortalSeen => PortalReserveKeeps(s, i, c);
    case PortalReserved => MarkKeeps(s, i, c);
    case Ended =>
  }

  lemma ArrivalKeeps(s: State, t: State)
    requires AllHeld(s) && |t.subs| == |s.subs| + 1 && t.subs[..|s.subs|] == s.subs
    requires !t.subs[|s.subs|].own && !Owning(t.subs[|s.subs|])
    requires t.intents == s.intents && t.record == s.record && Credit(t) == Credit(s)
    ensures Keeping(s, t)
  {
    forall k | 0 <= k < |t.subs| ensures Held(t.intents, t.subs[k], k) {
      if k < |s.subs| { assert t.subs[k] == t.subs[..|s.subs|][k] && Held(s.intents, s.subs[k], k); }
    }
  }

  lemma CrashKeeps(s: State)
    requires AllHeld(s)
    ensures Keeping(s, Next(s, Crash))
  {
    GivenUpWeigh(GiveUpAll(s.intents));
    GiveUpWrites(s.intents);
    WritesWeigh(s.intents);
  }

  // The ledger calls of everyone else pay for the case they reopen.
  lemma OthersKeep(s: State, e: Event)
    requires AllHeld(s) && (e.Reconciled? || e.OtherCall? || e.CaseForgotten?)
    ensures Keeping(s, Next(s, e))
  {
    var t := Next(s, e);
    assert t.subs == s.subs && t.intents == s.intents;
    if e.Reconciled? { assert t == OperatorReview(s, e.nothingStarted, e.days, e.at); }
  }

  lemma NextKeeps(s: State, e: Event)
    requires AllHeld(s)
    ensures Keeping(s, Next(s, e))
  {
    var t := Next(s, e);
    match e
    case Step(i, c) => if i < |s.subs| { StepKeeps(s, i, c); }
    case Spawn(w, kind, d) => if t.subs != s.subs { ArrivalKeeps(s, t); }
    case EndSession(k) => if t.subs != s.subs { ArrivalKeeps(s, t); }
    case Reconciled(_, _, _) => OthersKeep(s, e);
    case OtherCall(_, _) => OthersKeep(s, e);
    case CaseForgotten => OthersKeep(s, e);
    case Crash => CrashKeeps(s);
    case _ =>
  }

  // From any state in which makers hold their reservations, whatever happens next.
  lemma {:induction false} RunKeepsExcess(s: State, events: seq<Event>)
    requires AllHeld(s)
    ensures AllHeld(Run(s, events)) && Excess(Run(s, events)) <= Excess(s)
  {
    if events != [] {
      RunKeepsExcess(s, events[..|events| - 1]);
      NextKeeps(Run(s, events[..|events| - 1]), events[|events| - 1]);
    }
  }

  // In every run, at most one reservation writes, plus one for each operator "not started" review, each
  // lifecycle move out of the protected states, each verified-portal continuation, each release of a
  // reservation that had written, and each reservation first written under after its release.
  lemma WritesAreBounded(events: seq<Event>)
    ensures var s := Run(INITIAL, events);
      Writes(s.intents) <= 1 + s.notStarted + s.exits + s.portals + s.misreleases + s.strays
  {
    RunKeepsExcess(INITIAL, events);
    WritesWeigh(Run(INITIAL, events).intents);
  }
}
