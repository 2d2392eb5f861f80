// What a later call can do after a crash at any step: when it can acquire again, and that a protected
// case keeps it away from the provider.
module SubmissionRecovery {
  import opened Wrappers
  import opened CaseLedger
  import opened ProviderOutcomes
  import opened SubmissionProtocol
  import opened SubmissionBound
  import opened SubmissionWitnesses

  // The dedupe store and the case of one (profile, broker), as one call uses them without interference.
  class SubmissionStores {
    var dedupe: map<RequestKind, Phase>
    var record: Case

    constructor (dedupe: map<RequestKind, Phase>, record: Case)
      ensures this.dedupe == dedupe && this.record == record
    {
      this.dedupe := dedupe;
      this.record := record;
    }

    method RegisterIfAbsent(kind: RequestKind, phase: Phase) returns (registered: bool)
      modifies this`dedupe
      ensures registered <==> kind !in old(dedupe)
      ensures dedupe == if registered then old(dedupe)[kind := phase] else old(dedupe)
    {
      registered := kind !in dedupe;
      if registered {
        dedupe := dedupe[kind := phase];
      }
    }

    // granted = false is the thrown rightout_duplicate_removal_request.
    method AcquireSubmissionDedupe(kind: RequestKind) returns (granted: bool)
      modifies this`dedupe
      ensures granted == Grants(Lookup(old(dedupe), kind), record)
      ensures dedupe == if granted then old(dedupe)[kind := BeforeCaseIntent] else old(dedupe)
    {
      granted := RegisterIfAbsent(kind, BeforeCaseIntent);
      if granted {
        return;
      }
      var existing := dedupe[kind];
      var preIntentOrphan := existing == BeforeCaseIntent && !Protected(record.state);
      var reconciledNotStarted := existing == DurableIntent && record.state == ActionSelected
        && record.outcome == HumanNotStarted;
      if preIntentOrphan || reconciledNotStarted {
        dedupe := dedupe - {kind};
        granted := RegisterIfAbsent(kind, BeforeCaseIntent);
      }
    }

    method MarkSubmissionDedupeIntentReserved(kind: RequestKind)
      modifies this`dedupe
      ensures dedupe == old(dedupe)[kind := DurableIntent]
    {
      dedupe := dedupe[kind := DurableIntent];
    }

    // ok = false is a reservation the ledger refused or an earlier duplicate.
    method AcquireAndReserve(kind: RequestKind, channel: Channel, discoveryRequired: bool, at: int) returns (ok: bool)
      modifies this
      ensures ok <==>
        Grants(Lookup(old(dedupe), kind), old(record))
        && Apply(old(record), Reserve(channel, discoveryRequired), at).Success?
      ensures ok ==> record.state == SubmissionPending && record.channel == Some(channel)
      ensures ok ==> dedupe == old(dedupe)[kind := DurableIntent]
      ensures !ok ==> record == old(record) && dedupe.Keys <= old(dedupe).Keys
    {
      ok := AcquireSubmissionDedupe(kind);
      if ok {
        var r := Apply(record, Reserve(channel, discoveryRequired), at);
        ok := r.Success?;
        if ok {
          record := r.value;
          MarkSubmissionDedupeIntentReserved(kind);
        } else {
          dedupe := dedupe - {kind};
        }
      }
    }

    // The reconcile tool: the ledger call, then the removal of the broker's own dedupe key.
    method ReconcileNotStarted(kind: RequestKind, days: nat, at: int) returns (ok: bool)
      modifies this
      ensures ok <==>
        && (old(record).state.SubmissionPending? || old(record).state.SubmissionUncertain?)
        && old(record).channel.Some?
      ensures ok ==>
        record.state == ActionSelected && record.outcome == HumanNotStarted && Grants(Lookup(dedupe, kind), record)
      ensures !ok ==> record == old(record) && dedupe == old(dedupe)
    {
      var r := Apply(record, CaseLedger.Reconcile(true, days), at);
      ok := r.Success?;
      if ok {
        record := r.value;
        dedupe := dedupe - {kind};
      }
    }
  }

  // ---- The interleaved acquire steps, run without interference, do what the method does

  function Rank(pc: Pc): nat {
    match pc
    case Registering => 5
    case Contended => 4
    case Inspected(_) => 3
    case Evicting => 2
    case Retrying => 1
    case _ => 0
  }

  function AcquireAlone(s: State, i: nat): State
    requires i < |s.subs|
    decreases Rank(s.subs[i].pc)
  {
    if Rank(s.subs[i].pc) == 0 then s else AcquireAlone(StepSubmitter(s, i, CALM), i)
  }

  lemma EvictingSucceeds(s: State, i: nat)
    requires i < |s.subs| && s.subs[i].pc == Evicting
    ensures var t := AcquireAlone(s, i);
      t.record == s.record && i < |t.subs| && t.subs[i].pc == Acquired
      && t.dedupe == s.dedupe[s.subs[i].kind := BeforeCaseIntent]
  {
    var s1 := StepSubmitter(s, i, CALM);
    assert s1 == StepDelete(s, i, CALM, Retrying);
    var s2 := StepSubmitter(s1, i, CALM);
    assert s2 == StepRegister(s1, i, CALM, Ended);
    assert AcquireAlone(s2, i) == s2;
  }

  lemma ContendedDecides(s: State, i: nat)
    requires i < |s.subs| && s.subs[i].pc == Contended && s.subs[i].kind in s.dedupe
    ensures var t := AcquireAlone(s, i);
      var granted := Grants(Lookup(s.dedupe, s.subs[i].kind), s.record);
      t.record == s.record && i < |t.subs| && (t.subs[i].pc == if granted then Acquired else Ended)
      && (t.dedupe == if granted then s.dedupe[s.subs[i].kind := BeforeCaseIntent] else s.dedupe)
  {
    var seen := Lookup(s.dedupe, s.subs[i].kind);
    var s1 := StepSubmitter(s, i, CALM);
    assert s1 == Goto(s, i, Inspected(seen));
    var s2 := StepSubmitter(s1, i, CALM);
    if Admits(seen, s.record) {
      assert s2 == Goto(s1, i, Evicting);
      EvictingSucceeds(s2, i);
    } else {
      assert s2 == Goto(s1, i, Ended) == AcquireAlone(s2, i);
    }
    assert AcquireAlone(s, i) == AcquireAlone(s1, i) == AcquireAlone(s2, i);
  }

  lemma AcquireStepsMatchMethod(s: State, i: nat)
    requires i < |s.subs| && s.subs[i].pc == Registering
    ensures var t := AcquireAlone(s, i);
      var granted := Grants(Lookup(s.dedupe, s.subs[i].kind), s.record);
      t.record == s.record && i < |t.subs| && (t.subs[i].pc == if granted then Acquired else Ended)
      && (t.dedupe == if granted then s.dedupe[s.subs[i].kind := BeforeCaseIntent] else s.dedupe)
  {
    var s1 := StepSubmitter(s, i, CALM);
    assert s1 == StepRegister(s, i, CALM, Contended);
    if s.subs[i].kind in s.dedupe {
      assert s1 == Goto(s, i, Contended);
      ContendedDecides(s1, i);
      assert AcquireAlone(s, i) == AcquireAlone(s1, i);
    } else {
      assert AcquireAlone(s, i) == AcquireAlone(s1, i) == s1;
    }
  }

  // ---- What a surviving dedupe record says about the past

  // Whatever a submitter has in hand after a reservation was made for it.
  predicate Traced(sub: Submitter, reserved: bool) {
    && (sub.intent.Some? ==> reserved)
    && (sub.pc.Reserved? || sub.pc.PortalReserved? || sub.pc.Recording? || sub.pc.Announcing? ==> reserved)
    && (sub.pc.Reserved? || sub.pc.PortalReserved? ==> sub.intent.Some?)
    && ((sub.pc.Open? || sub.pc.Dispatched?) && sub.writer.FormStep? && sub.writer.click ==> sub.intent.Some?)
  }

  ghost predicate PhasesFit(dedupe: map<RequestKind, Phase>, reserved: bool) {
    forall k :: k in dedupe ==> dedupe[k] == BeforeCaseIntent || reserved
  }

  ghost predicate FlagsFit(sessions: seq<Session>, reserved: bool) {
    forall k :: 0 <= k < |sessions| ==> sessions[k].flag.Some? ==> reserved
  }

  // Only reservations that took effect leave more than a first registration behind.
  ghost predicate Rooted(s: State) {
    && PhasesFit(s.dedupe, s.reserved) && FlagsFit(s.sessions, s.reserved)
    && forall i :: 0 <= i < |s.subs| ==> Traced(s.subs[i], s.reserved)
  }

  ghost predicate StaysRooted(s: State, t: State, i: nat)
    requires i < |s.subs|
  {
    && |t.subs| == |s.subs| && t.subs == s.subs[i := t.subs[i]] && (s.reserved ==> t.reserved)
    && Traced(t.subs[i], t.reserved) && PhasesFit(t.dedupe, t.reserved) && FlagsFit(t.sessions, t.reserved)
  }

  lemma StartStaysRooted(s: State, i: nat, c: Choice)
    requires Rooted(s) && i < |s.subs| && s.subs[i].pc.Start?
    ensures StaysRooted(s, StepStart(s, i, c), i)
  {
  }

  lemma ReserveStaysRooted(s: State, i: nat, c: Choice)
    requires Rooted(s) && i < |s.subs| && s.subs[i].pc.Acquired?
    ensures StaysRooted(s, StepReserve(s, i, c), i)
  {
    assert Traced(s.subs[i], s.reserved);
  }

  lemma PortalReserveStaysRooted(s: State, i: nat, c: Choice)
    requires Rooted(s) && i < |s.subs| && s.subs[i].pc.PortalSeen?
    ensures StaysRooted(s, StepPortalReserve(s, i, c), i)
  {
    assert Traced(s.subs[i], s.reserved);
  }

  lemma MarkStaysRooted(s: State, i: nat, c: Choice)
    requires Rooted(s) && i < |s.subs|
    ensures s.subs[i].pc.Reserved? ==> StaysRooted(s, StepMark(s, i, c), i)
    ensures s.subs[i].pc.PortalReserved? ==> StaysRooted(s, StepPortalMark(s, i, c), i)
    ensures s.subs[i].pc.Announcing? ==> StaysRooted(s, StepAnnounce(s, i, c), i)
  {
    assert Traced(s.subs[i], s.reserved);
  }

  lemma AttemptStaysRooted(s: State, i: nat, c: Choice)
    requires Rooted(s) && i < |s.subs|
    ensures s.subs[i].pc.Open? && !s.subs[i].writer.FormStep? ==> StaysRooted(s, StepTool(s, i, c), i)
    ensures s.subs[i].pc.Open? && s.subs[i].writer.FormStep? ==> StaysRooted(s, StepAct(s, i, c), i)
    ensures s.subs[i].pc.Dispatched? ==> StaysRooted(s, StepReturn(s, i, c), i)
  {
    assert Traced(s.subs[i], s.reserved);
  }

  lemma SettleStaysRooted(s: State, i: nat, c: Choice)
    requires Rooted(s) && i < |s.subs|
    ensures s.subs[i].pc.Recording? ==> StaysRooted(s, StepRecord(s, i, c), i)
    ensures s.subs[i].pc.Doubting? ==> StaysRooted(s, StepDoubt(s, i, c), i)
    ensures s.subs[i].pc.Releasing? ==> StaysRooted(s, StepRelease(s, i, c), i)
    ensures s.subs[i].pc.Cleaning? ==> StaysRooted(s, StepClean(s, i, c), i)
  {
    assert Traced(s.subs[i], s.reserved);
  }

  lemma AcquireStaysRooted(s: State, i: nat, c: Choice)
    requires Rooted(s) && i < |s.subs|
    requires var pc := s.subs[i].pc;
      pc.Registering? || pc.Evicting? || pc.Retrying? || pc.Backout? || pc.Closing? || pc.Forgetting?
    ensures StaysRooted(s, StepSubmitter(s, i, c), i)
  {
    assert Traced(s.subs[i], s.reserved);
  }

  lemma LookStaysRooted(s: State, i: nat, c: Choice)
    requires Rooted(s) && i < |s.subs|
    requires var pc := s.subs[i].pc; pc.Contended? || pc.Inspected? || pc.PortalLook? || pc.Ended?
    ensures StaysRooted(s, StepSubmitter(s, i, c), i)
  {
    assert Traced(s.subs[i], s.reserved);
  }

  lemma StepStaysRooted(s: State, i: nat, c: Choice)
    requires Rooted(s) && i < |s.subs|
    ensures Rooted(StepSubmitter(s, i, c))
  {
    match s.subs[i].pc {
      case Start => StartStaysRooted(s, i, c);
      case Acquired => ReserveStaysRooted(s, i, c);
      case PortalSeen => PortalReserveStaysRooted(s, i, c);
      case Reserved => MarkStaysRooted(s, i, c);
      case PortalReserved => MarkStaysRooted(s, i, c);
      case Announcing => MarkStaysRooted(s, i, c);
      case Open => AttemptStaysRooted(s, i, c);
      case Dispatched => AttemptStaysRooted(s, i, c);
      case Recording => SettleStaysRooted(s, i, c);
      case Doubting => SettleStaysRooted(s, i, c);
      case Releasing => SettleStaysRooted(s, i, c);
      case Cleaning => SettleStaysRooted(s, i, c);
      case Contended => LookStaysRooted(s, i, c);
      case Inspected(_) => LookStaysRooted(s, i, c);
      case PortalLook => LookStaysRooted(s, i, c);
      case Ended => LookStaysRooted(s, i, c);
      case _ => AcquireStaysRooted(s, i, c);
    }
    assert StaysRooted(s, StepSubmitter(s, i, c), i);
  }

  lemma NextStaysRooted(s: State, e: Event)
    requires Rooted(s)
    ensures Rooted(Next(s, e))
  {
    if e.Step? && e.i < |s.subs| { StepStaysRooted(s, e.i, e.choice); }
  }

  lemma {:induction false} RunStaysRooted(events: seq<Event>)
    ensures Rooted(Run(INITIAL, events))
  {
    if events != [] {
      RunStaysRooted(events[..|events| - 1]);
      NextStaysRooted(Run(INITIAL, events[..|events| - 1]), events[|events| - 1]);
    }
  }

  // ---- The recovery theorems

  predicate Reviewed(c: Case) { c.state == ActionSelected && c.outcome == HumanNotStarted }

  predicate PortalPhase(seen: Option<Phase>) {
    seen.Some? && (seen.value.PortalVerificationRequested? || seen.value.PortalSuppressionIntent?)
  }

  // After any interleaving and a crash at any point of it: if no reservation ever took effect and the case
  // is not protected, a new call acquires whichever dedupe key it uses; if the case stands as the operator's
  // "not started" review left it, the call acquires exactly when the key is not in one of the two portal
  // phases, and then it also gets the reservation.
  lemma RetryIsPossibleAfterCrash(events: seq<Event>, kind: RequestKind)
    ensures var s := Run(INITIAL, events + [Crash]);
      && (!s.reserved && !Protected(s.record.state) ==> Grants(Lookup(s.dedupe, kind), s.record))
      && (Reviewed(s.record) ==> (Grants(Lookup(s.dedupe, kind), s.record) <==> !PortalPhase(Lookup(s.dedupe, kind))))
      && (Reviewed(s.record) ==> forall ch, at :: Apply(s.record, CaseLedger.Reserve(ch, true), at).Success?)
  {
    RunStaysRooted(events + [Crash]);
  }

  // After a crash, and whatever follows it, a case that is protected at the crash is written again only
  // through a review, another lifecycle move, a verified-portal continuation, or one of the two ways in which
  // a form session writes outside its reservation.
  lemma ProtectedCaseIsNotRewritten(events: seq<Event>, more: seq<Event>)
    requires Protected(Run(INITIAL, events).record.state)
    ensures var s := Run(INITIAL, events + [Crash]);
      var t := Run(s, more);
      Writes(t.intents) - Writes(s.intents) <= (t.notStarted - s.notStarted) + (t.exits - s.exits)
        + (t.portals - s.portals) + (t.misreleases - s.misreleases) + (t.strays - s.strays)
  {
    RunConcat(INITIAL, events, [Crash]);
    RunOne(Run(INITIAL, events), Crash);
    var s := Run(INITIAL, events + [Crash]);
    GivenUpWeigh(s.intents);
    RunKeepsExcess(s, more);
    WritesWeigh(Run(s, more).intents);
  }

  // ---- When an unprotected case is refused

  // Nothing in the ledger stands in the way of a new submission, but its dedupe record does.
  predicate Blocked(s: State, kind: RequestKind) {
    !Protected(s.record.state) && !Grants(Lookup(s.dedupe, kind), s.record)
  }

  // A record that says more than a first registration.
  predicate Durable(s: State, kind: RequestKind) {
    kind in s.dedupe && !s.dedupe[kind].BeforeCaseIntent?
  }

  lemma BlockedIff(s: State, kind: RequestKind)
    requires !Protected(s.record.state)
    ensures Blocked(s, kind) <==> Durable(s, kind) && (s.dedupe[kind].DurableIntent? ==> !Reviewed(s.record))
  {
  }

  // The release of reservation holder i lands on the case.
  predicate Lands(s: State, i: nat, c: Choice) {
    i < |s.subs| && s.subs[i].pc.Releasing? && s.subs[i].intent.Some? && s.subs[i].intent.value < |s.intents|
    && c.fate.Applies() && s.record.state == SubmissionPending
  }

  // A durable or portal phase is written although the case is not protected any more.
  predicate LateMark(s: State, i: nat, c: Choice, kind: RequestKind) {
    i < |s.subs| && s.subs[i].kind == kind && c.fate.Applies() && !Protected(s.record.state)
    && ((s.subs[i].pc.Reserved? && !Reviewed(s.record)) || s.subs[i].pc.PortalReserved?
        || (s.subs[i].pc.Announcing? && StageOf(s, s.subs[i].writer) != Guided))
  }

  // What makes a case refused although it is not protected.
  predicate Blocks(s: State, e: Event, kind: RequestKind) {
    match e
    case Step(i, c) => (Lands(s, i, c) && Durable(s, kind)) || LateMark(s, i, c, kind)
    case Reconciled(notStarted, _, _) =>
      notStarted && PortalPhase(Lookup(s.dedupe, kind)) && s.record.channel.Some?
      && (s.record.state.SubmissionPending? || s.record.state.SubmissionUncertain?)
    case OtherCall(op, at) =>
      && Outside(op) && Durable(s, kind)
      && (Reopens(s.record, op) || (Reviewed(s.record) && Leaves(s.record, op, at)))
      && !(KeepsReview(s.record, op) && s.dedupe[kind].DurableIntent?)
    case CaseForgotten => Durable(s, kind)
    case _ => false
  }

  // An outside call takes a reviewed case to another unprotected state.
  predicate Leaves(c: Case, op: Op, at: int) {
    var r := Apply(c, op, at);
    r.Success? && !Protected(r.value.state) && r.value.state != ActionSelected
  }

  // The lifecycle note that sets a case aside as "action selected" keeps an earlier review's outcome.
  predicate KeepsReview(c: Case, op: Op) {
    op.RecordLifecycle? && op.target == ActionSelected && c.outcome == HumanNotStarted
  }

  // A step that leaves the case alone and at most takes dedupe records away or registers one.
  lemma HarmlessStep(s: State, t: State, kind: RequestKind)
    requires !Blocked(s, kind) && t.record == s.record
    requires Lookup(t.dedupe, kind) == Lookup(s.dedupe, kind) || !Durable(t, kind)
    ensures !Blocked(t, kind)
  {
  }

  // A step that leaves the case protected.
  lemma ProtectingStep(t: State, kind: RequestKind)
    requires Protected(t.record.state)
    ensures !Blocked(t, kind)
  {
  }

  lemma ReserveBlocksNothing(s: State, i: nat, c: Choice, kind: RequestKind)
    requires i < |s.subs| && !Blocked(s, kind)
    ensures s.subs[i].pc.Acquired? ==> !Blocked(StepReserve(s, i, c), kind)
    ensures s.subs[i].pc.PortalSeen? ==> !Blocked(StepPortalReserve(s, i, c), kind)
  {
  }

  lemma RecordBlocksNothing(s: State, i: nat, c: Choice, kind: RequestKind)
    requires i < |s.subs| && !Blocked(s, kind)
    ensures s.subs[i].pc.Recording? ==> !Blocked(StepRecord(s, i, c), kind)
    ensures s.subs[i].pc.Doubting? ==> !Blocked(StepDoubt(s, i, c), kind)
  {
  }

  lemma ReleaseBlocksIff(s: State, i: nat, c: Choice, kind: RequestKind)
    requires i < |s.subs| && !Blocked(s, kind) && s.subs[i].pc.Releasing?
    ensures Blocked(StepRelease(s, i, c), kind) <==> Lands(s, i, c) && Durable(s, kind)
  {
    var t := StepRelease(s, i, c);
    assert t.dedupe == s.dedupe;
  }

  lemma MarkBlocksIff(s: State, i: nat, c: Choice, kind: RequestKind)
    requires i < |s.subs| && !Blocked(s, kind)
    ensures s.subs[i].pc.Reserved? ==> (Blocked(StepMark(s, i, c), kind) <==> LateMark(s, i, c, kind))
    ensures s.subs[i].pc.PortalReserved? ==> (Blocked(StepPortalMark(s, i, c), kind) <==> LateMark(s, i, c, kind))
    ensures s.subs[i].pc.Announcing? ==> (Blocked(StepAnnounce(s, i, c), kind) <==> LateMark(s, i, c, kind))
  {
  }

  lemma AttemptBlocksNothing(s: State, i: nat, c: Choice, kind: RequestKind)
    requires i < |s.subs| && !Blocked(s, kind)
      && (s.subs[i].pc.Start? || s.subs[i].pc.Open? || s.subs[i].pc.Dispatched?)
    ensures !Blocked(StepSubmitter(s, i, c), kind)
  {
    var t := StepSubmitter(s, i, c);
    assert t.record == s.record && t.dedupe == s.dedupe;
  }

  lemma AcquireBlocksNothing(s: State, i: nat, c: Choice, kind: RequestKind)
    requires i < |s.subs| && !Blocked(s, kind)
    requires var pc := s.subs[i].pc;
      pc.Registering? || pc.Contended? || pc.Inspected? || pc.Evicting? || pc.Retrying? || pc.Backout?
      || pc.Cleaning? || pc.PortalLook? || pc.Forgetting? || pc.Closing? || pc.Ended?
    ensures !Blocked(StepSubmitter(s, i, c), kind)
  {
    HarmlessStep(s, StepSubmitter(s, i, c), kind);
  }

  lemma StepBlocksIff(s: State, i: nat, c: Choice, kind: RequestKind)
    requires i < |s.subs| && !Blocked(s, kind)
    ensures Blocked(StepSubmitter(s, i, c), kind) <==> Blocks(s, Step(i, c), kind)
  {
    match s.subs[i].pc
    case Acquired => ReserveBlocksNothing(s, i, c, kind);
    case PortalSeen => ReserveBlocksNothing(s, i, c, kind);
    case Reserved => MarkBlocksIff(s, i, c, kind);
    case PortalReserved => MarkBlocksIff(s, i, c, kind);
    case Announcing => MarkBlocksIff(s, i, c, kind);
    case Start => AttemptBlocksNothing(s, i, c, kind);
    case Open => AttemptBlocksNothing(s, i, c, kind);
    case Dispatched => AttemptBlocksNothing(s, i, c, kind);
    case Recording => RecordBlocksNothing(s, i, c, kind);
    case Doubting => RecordBlocksNothing(s, i, c, kind);
    case Releasing => ReleaseBlocksIff(s, i, c, kind);
    case _ => AcquireBlocksNothing(s, i, c, kind);
  }

  lemma OtherCallBlocksIff(s: State, op: Op, at: int, kind: RequestKind)
    requires !Blocked(s, kind)
    ensures Blocked(Next(s, OtherCall(op, at)), kind) <==> Blocks(s, OtherCall(op, at), kind)
  {
    var r := Apply(s.record, op, at);
    if Outside(op) && r.Success? {
      OutsideCallReviews(s.record, op, at);
      assert Next(s, OtherCall(op, at)) == SetRecord(s, r.value);
    }
  }

  // How an outside call can leave the case as reviewed.
  lemma OutsideCallReviews(c: Case, op: Op, at: int)
    requires Outside(op) && Apply(c, op, at).Success?
    ensures var d := Apply(c, op, at).value;
      && (Protected(c.state) && !Protected(d.state) <==> Reopens(c, op))
      && (Reopens(c, op) ==> (Reviewed(d) <==> KeepsReview(c, op)))
      && (Reviewed(c) && !Protected(d.state) ==> (Reviewed(d) <==> d.state == ActionSelected))
      && (KeepsReview(c, op) ==> d.state == ActionSelected)
  {
  }

  lemma ReviewBlocksIff(s: State, notStarted: bool, days: nat, at: int, kind: RequestKind)
    requires !Blocked(s, kind)
    ensures Blocked(OperatorReview(s, notStarted, days, at), kind)
      <==> Blocks(s, Reconciled(notStarted, days, at), kind)
  {
    var r := Apply(s.record, CaseLedger.Reconcile(notStarted, days), at);
    if r.Success? {
      var t := OperatorReview(s, notStarted, days, at);
      assert t.record == r.value && t.dedupe == s.dedupe;
      if notStarted {
        assert Reviewed(r.value);
        assert Blocked(t, kind) <==> PortalPhase(Lookup(s.dedupe, kind));
      } else {
        assert Protected(r.value.state);
      }
    }
  }

  lemma BlocksIff(s: State, e: Event, kind: RequestKind)
    requires !Blocked(s, kind)
    ensures Blocked(Next(s, e), kind) <==> Blocks(s, e, kind)
  {
    match e
    case Step(i, c) => if i < |s.subs| { StepBlocksIff(s, i, c, kind); }
    case OtherCall(op, at) => OtherCallBlocksIff(s, op, at, kind);
    case Reconciled(n, days, at) => ReviewBlocksIff(s, n, days, at, kind);
    case CaseForgotten =>
    case DedupeLost(k) => HarmlessStep(s, Next(s, e), kind);
    case _ => HarmlessStep(s, Next(s, e), kind);
  }

  // A dedupe record of this kind is deleted.
  predicate Deletes(s: State, i: nat, c: Choice, kind: RequestKind) {
    i < |s.subs| && s.subs[i].kind == kind && c.fate.Applies()
    && (s.subs[i].pc.Evicting? || s.subs[i].pc.Backout? || s.subs[i].pc.Cleaning?)
  }

  // A call for another request kind reserves the case.
  predicate Reserves(s: State, i: nat, c: Choice) {
    i < |s.subs| && s.subs[i].pc.Acquired? && c.fate.Applies()
    && Apply(s.record, CaseLedger.Reserve(ChannelOf(s.subs[i].writer), s.subs[i].discoveryRequired), c.at).Success?
  }

  // What ends it.
  predicate Unblocks(s: State, e: Event, kind: RequestKind) {
    match e
    case Step(i, c) =>
      || Deletes(s, i, c, kind) || Reserves(s, i, c)
      || (i < |s.subs| && s.subs[i].pc.Reserved? && s.subs[i].kind == kind && c.fate.Applies() && Reviewed(s.record))
    case OtherCall(op, at) =>
      var r := Apply(s.record, op, at);
      Outside(op) && r.Success?
      && (Protected(r.value.state) || (Lookup(s.dedupe, kind) == Some(DurableIntent) && Reviewed(r.value)))
    case DedupeLost(lost) => lost == kind
    case _ => false
  }

  lemma ReserveUnblocksIff(s: State, i: nat, c: Choice, kind: RequestKind)
    requires i < |s.subs| && Blocked(s, kind)
    ensures s.subs[i].pc.Acquired? ==> (!Blocked(StepReserve(s, i, c), kind) <==> Reserves(s, i, c))
    ensures s.subs[i].pc.PortalSeen? ==> Blocked(StepPortalReserve(s, i, c), kind)
  {
  }

  lemma RecordUnblocksNothing(s: State, i: nat, c: Choice, kind: RequestKind)
    requires i < |s.subs| && Blocked(s, kind)
    ensures s.subs[i].pc.Recording? ==> Blocked(StepRecord(s, i, c), kind)
    ensures s.subs[i].pc.Doubting? ==> Blocked(StepDoubt(s, i, c), kind)
    ensures s.subs[i].pc.Releasing? ==> Blocked(StepRelease(s, i, c), kind)
  {
  }

  lemma MarkUnblocksIff(s: State, i: nat, c: Choice, kind: RequestKind)
    requires i < |s.subs| && Blocked(s, kind)
    ensures s.subs[i].pc.Reserved? ==> (!Blocked(StepMark(s, i, c), kind) <==> Unblocks(s, Step(i, c), kind))
    ensures s.subs[i].pc.PortalReserved? ==> Blocked(StepPortalMark(s, i, c), kind)
    ensures s.subs[i].pc.Announcing? ==> Blocked(StepAnnounce(s, i, c), kind)
  {
  }

  lemma AttemptUnblocksNothing(s: State, i: nat, c: Choice, kind: RequestKind)
    requires i < |s.subs| && Blocked(s, kind) && (s.subs[i].pc.Start? || s.subs[i].pc.Open? || s.subs[i].pc.Dispatched?)
    ensures Blocked(StepSubmitter(s, i, c), kind)
  {
    var t := StepSubmitter(s, i, c);
    assert t.record == s.record && t.dedupe == s.dedupe;
  }

  lemma DeleteUnblocksIff(s: State, i: nat, c: Choice, kind: RequestKind)
    requires i < |s.subs| && Blocked(s, kind)
    requires s.subs[i].pc.Evicting? || s.subs[i].pc.Backout? || s.subs[i].pc.Cleaning?
    ensures !Blocked(StepSubmitter(s, i, c), kind) <==> Deletes(s, i, c, kind)
  {
    var t := StepSubmitter(s, i, c);
    assert t.record == s.record && t.dedupe == if c.fate.Applies() then s.dedupe - {s.subs[i].kind} else s.dedupe;
  }

  lemma AcquireUnblocksNothing(s: State, i: nat, c: Choice, kind: RequestKind)
    requires i < |s.subs| && Blocked(s, kind)
    requires var pc := s.subs[i].pc;
      pc.Registering? || pc.Contended? || pc.Inspected? || pc.Retrying? || pc.PortalLook? || pc.Forgetting?
      || pc.Closing? || pc.Ended?
    ensures Blocked(StepSubmitter(s, i, c), kind)
  {
    var t := StepSubmitter(s, i, c);
    assert t.record == s.record && Lookup(t.dedupe, kind) == Lookup(s.dedupe, kind);
  }

  lemma StepUnblocksIff(s: State, i: nat, c: Choice, kind: RequestKind)
    requires i < |s.subs| && Blocked(s, kind)
    ensures !Blocked(StepSubmitter(s, i, c), kind) <==> Unblocks(s, Step(i, c), kind)
  {
    match s.subs[i].pc
    case Acquired => ReserveUnblocksIff(s, i, c, kind);
    case PortalSeen => ReserveUnblocksIff(s, i, c, kind);
    case Reserved => MarkUnblocksIff(s, i, c, kind);
    case PortalReserved => MarkUnblocksIff(s, i, c, kind);
    case Announcing => MarkUnblocksIff(s, i, c, kind);
    case Start => AttemptUnblocksNothing(s, i, c, kind);
    case Open => AttemptUnblocksNothing(s, i, c, kind);
    case Dispatched => AttemptUnblocksNothing(s, i, c, kind);
    case Recording => RecordUnblocksNothing(s, i, c, kind);
    case Doubting => RecordUnblocksNothing(s, i, c, kind);
    case Releasing => RecordUnblocksNothing(s, i, c, kind);
    case Evicting => DeleteUnblocksIff(s, i, c, kind);
    case Backout => DeleteUnblocksIff(s, i, c, kind);
    case Cleaning => DeleteUnblocksIff(s, i, c, kind);
    case _ => AcquireUnblocksNothing(s, i, c, kind);
  }

  lemma UnblocksIff(s: State, e: Event, kind: RequestKind)
    requires Blocked(s, kind)
    ensures !Blocked(Next(s, e), kind) <==> Unblocks(s, e, kind)
  {
    match e
    case Step(i, c) => if i < |s.subs| { StepUnblocksIff(s, i, c, kind); }
    case OtherCall(op, at) =>
      var r := Apply(s.record, op, at);
      assert Next(s, e) == if Outside(op) && r.Success? then SetRecord(s, r.value) else s;
    case Reconciled(n, days, at) => assert Next(s, e) == OperatorReview(s, n, days, at) == s;
    case _ =>
  }

  // Event k makes the case refused, and nothing after it ends that.
  ghost predicate BlockedSince(events: seq<Event>, k: nat, kind: RequestKind) {
    && k < |events| && !Blocked(Run(INITIAL, events[..k]), kind) && Blocks(Run(INITIAL, events[..k]), events[k], kind)
    && forall j :: k < j < |events| ==> !Unblocks(Run(INITIAL, events[..j]), events[j], kind)
  }

  // An index that holds of a run also holds of a longer one, as long as the last event does not end it.
  lemma BlockedSinceGrows(front: seq<Event>, e: Event, k: nat, kind: RequestKind)
    requires k < |front|
    ensures BlockedSince(front + [e], k, kind)
      <==> BlockedSince(front, k, kind) && !Unblocks(Run(INITIAL, front), e, kind)
  {
    var events := front + [e];
    assert forall j :: 0 <= j <= |front| ==> events[..j] == front[..j];
    assert front[..|front|] == front;
    if BlockedSince(events, k, kind) {
      assert !Unblocks(Run(INITIAL, events[..|front|]), events[|front|], kind);
      forall j | k < j < |front| ensures !Unblocks(Run(INITIAL, front[..j]), front[j], kind) {
        assert !Unblocks(Run(INITIAL, events[..j]), events[j], kind);
      }
    }
    if BlockedSince(front, k, kind) && !Unblocks(Run(INITIAL, front), e, kind) {
      forall j | k < j < |events| ensures !Unblocks(Run(INITIAL, events[..j]), events[j], kind) {
        if j < |front| { assert !Unblocks(Run(INITIAL, front[..j]), front[j], kind); }
      }
    }
  }

  lemma BlockedByLast(front: seq<Event>, e: Event, kind: RequestKind)
    ensures BlockedSince(front + [e], |front|, kind)
      <==> !Blocked(Run(INITIAL, front), kind) && Blocks(Run(INITIAL, front), e, kind)
  {
    assert (front + [e])[..|front|] == front;
  }

  lemma {:induction false} BlockedSinceIff(events: seq<Event>, kind: RequestKind)
    ensures Blocked(Run(INITIAL, events), kind) <==> exists k: nat :: BlockedSince(events, k, kind)
  {
    if events == [] {
      assert !Blocked(INITIAL, kind);
    } else {
      var front, e := events[..|events| - 1], events[|events| - 1];
      assert events == front + [e];
      var s := Run(INITIAL, front);
      BlockedSinceIff(front, kind);
      BlockedByLast(front, e, kind);
      forall k: nat | k < |front|
        ensures BlockedSince(events, k, kind) <==> BlockedSince(front, k, kind) && !Unblocks(s, e, kind)
      {
        BlockedSinceGrows(front, e, k, kind);
      }
      if Blocked(s, kind) { UnblocksIff(s, e, kind); } else { BlocksIff(s, e, kind); }
    }
  }

  // After a crash at any point of any run, an unprotected case is refused exactly when a record beyond the
  // first registration survives and the case is not the reviewed one; and exactly when some event before the
  // crash blocked it (a release that landed before its dedupe delete, a ledger exit, a forgotten case, or a
  // mark that came late) and no event since then deleted the record, or protected or re-reviewed the case.
  lemma RefusedAfterCrashIff(events: seq<Event>, kind: RequestKind)
    requires !Protected(Run(INITIAL, events + [Crash]).record.state)
    ensures var s := Run(INITIAL, events + [Crash]);
      var refused := !Grants(Lookup(s.dedupe, kind), s.record);
      && (refused <==> Durable(s, kind) && (s.dedupe[kind].DurableIntent? ==> !Reviewed(s.record)))
      && (refused <==> exists k: nat :: BlockedSince(events, k, kind))
      && (refused ==> s.reserved)
  {
    var s := Run(INITIAL, events);
    RunConcat(INITIAL, events, [Crash]);
    RunOne(s, Crash);
    RunStaysRooted(events);
    BlockedIff(s, kind);
    BlockedSinceIff(events, kind);
    assert Blocked(s, kind) <==> Blocked(Next(s, Crash), kind);
  }

  // ---- The crash points of one submission that its tool gives up

  function GivenUp(i: nat, a: Attempt): (r: seq<Event>)
    ensures |r| == 8
  {
    [Spawn(ParityTool, KIND, false), Step(i, CALM), Step(i, CALM), Step(i, CALM), Step(i, CALM),
     Acting(i, a), Step(i, CALM), Step(i, CALM)]
  }

  // The attempt of an undisturbed submission, and the release after it.
  function Attempted(s: State, a: Attempt): State {
    var t := Opened(s, ParityTool);
    Goto(if EffectOf(a) then Effect(t, |s.intents|) else t, |s.subs|, Releasing)
  }

  function AfterEvents(s: State, a: Attempt, k: nat): State
    requires CanRelease(Attempted(s, a), |s.subs|)
  {
    var registered := s.(dedupe := s.dedupe[KIND := BeforeCaseIntent]);
    match k
    case 0 => s
    case 1 => WithSub(s, Fresh(ParityTool, Start))
    case 2 => WithSub(s, Fresh(ParityTool, Registering))
    case 3 => WithSub(registered, Fresh(ParityTool, Acquired))
    case 4 => Reserving(registered, ParityTool, Reserved)
    case 5 => Opened(s, ParityTool)
    case 6 => Attempted(s, a)
    case 7 => SubmissionWitnesses.Released(Attempted(s, a), |s.subs|)
    case _ => Cleaned(SubmissionWitnesses.Released(Attempted(s, a), |s.subs|), |s.subs|, Answered)
  }

  predicate GivesUp(s: State, i: nat, a: Attempt) {
    ReadyFor(s, ParityTool, i) && a.ByEmail? && a.email.Valid() && AfterToolAttempt(ParityTool, a) == Releasing
  }

  lemma AttemptedReleases(s: State, i: nat, a: Attempt)
    requires GivesUp(s, i, a)
    ensures CanRelease(Attempted(s, a), i)
  {
    var t := Opened(s, ParityTool);
    assert t.subs[i] == Owner(s, ParityTool, Open) && t.intents[|s.intents|] == Intent(i, true, false);
  }

  lemma EventFollows(s: State, i: nat, a: Attempt, k: nat)
    requires GivesUp(s, i, a) && k < 8 && CanRelease(Attempted(s, a), i)
    ensures Next(AfterEvents(s, a, k), GivenUp(i, a)[k]) == AfterEvents(s, a, k + 1)
  {
    var registered := s.(dedupe := s.dedupe[KIND := BeforeCaseIntent]);
    match k
    case 0 =>
    case 1 => StartFollows(s, i);
    case 2 => RegisterFollows(s, i);
    case 3 => ReserveSucceeds(registered, ParityTool, i);
    case 4 => MarkFollows(s, i);
    case 5 => AttemptFollows(s, i, a);
    case 6 => ReleaseLands(Attempted(s, a), i);
    case _ => CleanLands(SubmissionWitnesses.Released(Attempted(s, a), i), i, CALM);
  }

  lemma MarkFollows(s: State, i: nat)
    requires ReadyFor(s, ParityTool, i)
    ensures var registered := s.(dedupe := s.dedupe[KIND := BeforeCaseIntent]);
      Next(Reserving(registered, ParityTool, Reserved), Step(i, CALM)) == Opened(s, ParityTool)
  {
    var registered := s.(dedupe := s.dedupe[KIND := BeforeCaseIntent]);
    MarkSucceeds(registered, ParityTool, i);
    assert registered.dedupe[KIND := DurableIntent] == s.dedupe[KIND := DurableIntent];
  }

  lemma StartFollows(s: State, i: nat)
    requires ReadyFor(s, ParityTool, i)
    ensures Next(WithSub(s, Fresh(ParityTool, Start)), Step(i, CALM)) == WithSub(s, Fresh(ParityTool, Registering))
  {
    var t := WithSub(s, Fresh(ParityTool, Start));
    LastMoves(s, Fresh(ParityTool, Start), Fresh(ParityTool, Registering));
    assert Next(t, Step(i, CALM)) == StepStart(t, i, CALM);
  }

  lemma RegisterFollows(s: State, i: nat)
    requires ReadyFor(s, ParityTool, i)
    ensures Next(WithSub(s, Fresh(ParityTool, Registering)), Step(i, CALM))
      == WithSub(s, Fresh(ParityTool, Acquired)).(dedupe := s.dedupe[KIND := BeforeCaseIntent])
  {
    var t := WithSub(s, Fresh(ParityTool, Registering));
    LastMoves(s, Fresh(ParityTool, Registering), Fresh(ParityTool, Acquired));
    assert Next(t, Step(i, CALM)) == StepRegister(t, i, CALM, Contended);
  }

  lemma AttemptFollows(s: State, i: nat, a: Attempt)
    requires GivesUp(s, i, a)
    ensures Next(Opened(s, ParityTool), Acting(i, a)) == Attempted(s, a)
  {
    var t := Opened(s, ParityTool);
    assert t.subs[i] == Owner(s, ParityTool, Open);
    assert Next(t, Acting(i, a)) == StepTool(t, i, Choice(Answered, 0, a));
  }

  lemma {:induction false} PrefixReaches(s: State, i: nat, a: Attempt, k: nat)
    requires GivesUp(s, i, a) && k <= 8 && CanRelease(Attempted(s, a), i)
    ensures Run(s, GivenUp(i, a)[..k]) == AfterEvents(s, a, k)
  {
    if k > 0 {
      var front := GivenUp(i, a)[..k - 1];
      assert GivenUp(i, a)[..k][..k - 1] == front && GivenUp(i, a)[..k][k - 1] == GivenUp(i, a)[k - 1];
      PrefixReaches(s, i, a, k - 1);
      EventFollows(s, i, a, k - 1);
    }
  }

  // Where a crash leaves such a submission: before the reservation a new call gets through; from the
  // reservation to the attempt's release the case is protected; after the release it is not, and the next
  // call is refused until the dedupe record goes.
  lemma CrashPoints(s: State, i: nat, a: Attempt, k: nat)
    requires GivesUp(s, i, a) && k <= 8
    ensures var t := Run(s, GivenUp(i, a)[..k] + [Crash]);
      (Protected(t.record.state) <==> 4 <= k <= 6) && (Blocked(t, KIND) <==> k == 7)
  {
    AttemptedReleases(s, i, a);
    PrefixReaches(s, i, a, k);
    RunConcat(s, GivenUp(i, a)[..k], [Crash]);
    var t := AfterEvents(s, a, k);
    RunOne(t, Crash);
    CrashPoint(s, i, a, k);
  }

  lemma CrashPoint(s: State, i: nat, a: Attempt, k: nat)
    requires GivesUp(s, i, a) && k <= 8 && CanRelease(Attempted(s, a), i)
    ensures var t := AfterEvents(s, a, k);
      (Protected(t.record.state) <==> 4 <= k <= 6) && (Blocked(t, KIND) <==> k == 7)
  {
    assert Opened(s, ParityTool).record == PendingCase(s.record, ParityTool) == Attempted(s, a).record;
    assert Attempted(s, a).dedupe == s.dedupe[KIND := DurableIntent];
  }
}
