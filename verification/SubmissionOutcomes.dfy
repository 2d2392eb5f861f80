// What becomes of a provider attempt: which ones a submitter goes on to record, which ones it marks uncertain,
// and which refused ones it gives up, whatever the rest of the system does in between.
module SubmissionOutcomes {
  import opened Wrappers
  import opened CaseLedger
  import opened ProviderOutcomes
  import opened SubmissionProtocol

  // The provider took it: the recipient was accepted, or the success marker and its receipt were seen.
  predicate ProviderAccepted(a: Attempt) {
    match a
    case ByEmail(e) => e.HandedOver() && e.reply.RecipientAccepted?
    case ByForm(f) => f.stop.None?
    case ByStep(x) => x.Completed?
  }

  // Event Step(i, c) settles an attempt: a tool's under its reservation, or a form step's action that went out.
  predicate Attempted(s: State, i: nat, c: Choice) {
    && i < |s.subs| && Fits(s.subs[i], c.attempt)
    && if s.subs[i].writer.FormStep? then s.subs[i].pc.Dispatched? && c.attempt.ByStep? && c.attempt.step.EffectSent()
       else s.subs[i].pc.Open? && s.subs[i].intent.Some?
  }

  // What may have been written and was not accepted. The parity tool's abort window and the lost receipt are
  // not among them: those are what the code takes for "not started".
  predicate Doubtful(sub: Submitter, a: Attempt) {
    match a
    case ByEmail(e) => InDoubt(e) && (sub.writer.ParityTool? ==> !AbortCoversFailure(e))
    case ByForm(f) => f.stop.Some? && f.SubmitStarted()
    case ByStep(x) =>
      if sub.writer.FormStep? then
        sub.intent.Some? && x.EffectSent() && !x.NothingFinal? && !x.Completed? && x != ReceiptFailed(DomainMismatch)
      else !x.Completed?
  }

  lemma AttemptGoesOn(s: State, i: nat, c: Choice)
    requires Attempted(s, i, c)
    ensures var t := Next(s, Step(i, c));
      && |t.subs| == |s.subs| && t.record == s.record && t.subs[i] == s.subs[i].(pc := t.subs[i].pc)
      && (ProviderAccepted(c.attempt) <==> t.subs[i].pc.Recording?)
      && (Doubtful(s.subs[i], c.attempt) ==> t.subs[i].pc.Doubting?)
  {
    var sub := s.subs[i];
    match c.attempt
    case ByEmail(e) =>
      RemovalEmailVerdict(e);
      ParityEmailVerdict(e);
      assert Next(s, Step(i, c)) == StepTool(s, i, c);
    case ByForm(f) => assert Next(s, Step(i, c)) == StepTool(s, i, c);
    case ByStep(x) =>
      assert Next(s, Step(i, c)) == if sub.writer.FormStep? then StepReturn(s, i, c) else StepTool(s, i, c);
  }

  // ---- In between, only its own steps and a crash move a submitter

  predicate Touches(e: Event, i: nat) { e.Crash? || (e.Step? && e.i == i) }

  // A step moves its own submitter only, and none but an attempt's starts a record.
  predicate MovesOn(s: State, t: State, i: nat) {
    i < |s.subs| == |t.subs| && t.subs == s.subs[i := t.subs[i]] && !t.subs[i].pc.Recording?
  }

  lemma RegisterMovesOn(s: State, i: nat, c: Choice)
    requires i < |s.subs|
    ensures s.subs[i].pc.Start? ==> MovesOn(s, StepStart(s, i, c), i)
    ensures MovesOn(s, StepRegister(s, i, c, Contended), i) && MovesOn(s, StepRegister(s, i, c, Ended), i)
    ensures MovesOn(s, StepDelete(s, i, c, Retrying), i) && MovesOn(s, StepDelete(s, i, c, Ended), i)
  {
  }

  lemma ReserveMovesOn(s: State, i: nat, c: Choice)
    requires i < |s.subs|
    ensures MovesOn(s, StepReserve(s, i, c), i) && MovesOn(s, StepPortalReserve(s, i, c), i)
  {
  }

  lemma MarkMovesOn(s: State, i: nat, c: Choice)
    requires i < |s.subs|
    ensures MovesOn(s, StepMark(s, i, c), i) && MovesOn(s, StepPortalMark(s, i, c), i)
      && MovesOn(s, StepAnnounce(s, i, c), i)
  {
  }

  lemma SettleMovesOn(s: State, i: nat, c: Choice)
    requires i < |s.subs|
    ensures MovesOn(s, StepRecord(s, i, c), i) && MovesOn(s, StepDoubt(s, i, c), i)
    ensures MovesOn(s, StepRelease(s, i, c), i) && MovesOn(s, StepClean(s, i, c), i)
  {
  }

  lemma ActMovesOn(s: State, i: nat, c: Choice)
    requires i < |s.subs| && s.subs[i].pc.Open?
    ensures s.subs[i].writer.FormStep? ==> MovesOn(s, StepAct(s, i, c), i)
  {
  }

  lemma DedupeStepMovesOn(s: State, i: nat, c: Choice)
    requires i < |s.subs|
    requires var pc := s.subs[i].pc; pc.Start? || pc.Registering? || pc.Evicting? || pc.Retrying? || pc.Backout?
    ensures MovesOn(s, StepSubmitter(s, i, c), i)
  {
    RegisterMovesOn(s, i, c);
  }

  // A step that settles no attempt.
  lemma QuietStepMovesOn(s: State, i: nat, c: Choice)
    requires i < |s.subs| && !Attempted(s, i, c) && !s.subs[i].pc.Recording?
    ensures MovesOn(s, StepSubmitter(s, i, c), i)
  {
    match s.subs[i].pc
    case Start => DedupeStepMovesOn(s, i, c);
    case Registering => DedupeStepMovesOn(s, i, c);
    case Evicting => DedupeStepMovesOn(s, i, c);
    case Retrying => DedupeStepMovesOn(s, i, c);
    case Backout => DedupeStepMovesOn(s, i, c);
    case Acquired => ReserveMovesOn(s, i, c);
    case PortalSeen => ReserveMovesOn(s, i, c);
    case Reserved => MarkMovesOn(s, i, c);
    case PortalReserved => MarkMovesOn(s, i, c);
    case Announcing => MarkMovesOn(s, i, c);
    case Doubting => SettleMovesOn(s, i, c);
    case Releasing => SettleMovesOn(s, i, c);
    case Cleaning => SettleMovesOn(s, i, c);
    case Open => if s.subs[i].writer.FormStep? { ActMovesOn(s, i, c); }
    case _ =>
  }

  lemma StepMovesOne(s: State, i: nat, c: Choice)
    requires i < |s.subs|
    ensures var t := StepSubmitter(s, i, c); |t.subs| == |s.subs| && t.subs == s.subs[i := t.subs[i]]
  {
    if s.subs[i].pc.Recording? { SettleMovesOn(s, i, c); }
    else if Attempted(s, i, c) { AttemptMovesOne(s, i, c); } else { QuietStepMovesOn(s, i, c); }
  }

  lemma AttemptMovesOne(s: State, i: nat, c: Choice)
    requires Attempted(s, i, c)
    ensures var t := StepSubmitter(s, i, c); |t.subs| == |s.subs| && t.subs == s.subs[i := t.subs[i]]
  {
    var t := StepSubmitter(s, i, c);
    assert t == if s.subs[i].writer.FormStep? then StepReturn(s, i, c) else StepTool(s, i, c);
  }

  lemma OthersLeaveIt(s: State, e: Event, i: nat)
    requires i < |s.subs| && !Touches(e, i)
    ensures i < |Next(s, e).subs| && Next(s, e).subs[i] == s.subs[i]
  {
    if e.Step? && e.i < |s.subs| { StepMovesOne(s, e.i, e.choice); }
    if e.Reconciled? { assert Next(s, e) == OperatorReview(s, e.nothingStarted, e.days, e.at); }
  }

  lemma {:induction false} WaitsUntouched(s: State, between: seq<Event>, i: nat)
    requires i < |s.subs| && forall k :: 0 <= k < |between| ==> !Touches(between[k], i)
    ensures i < |Run(s, between).subs| && Run(s, between).subs[i] == s.subs[i]
  {
    if between != [] {
      WaitsUntouched(s, between[..|between| - 1], i);
      OthersLeaveIt(Run(s, between[..|between| - 1]), between[|between| - 1], i);
    }
  }

  // ---- The two outcomes

  // After a doubtful attempt, and whatever else happens, the submitter's next step is to record the uncertain
  // outcome: if the case is still its pending one and the call takes effect, the case is uncertain. The dedupe
  // record stays.
  lemma DoubtfulWriteBecomesUncertain(s: State, i: nat, c: Choice, between: seq<Event>, d: Choice)
    requires Attempted(s, i, c) && Doubtful(s.subs[i], c.attempt)
    requires forall k :: 0 <= k < |between| ==> !Touches(between[k], i)
    ensures var u := Run(Next(s, Step(i, c)), between);
      var t := Next(u, Step(i, d));
      && i < |u.subs| && u.subs[i].pc.Doubting? && t.dedupe == u.dedupe
      && (u.record.state.SubmissionPending? && u.record.channel == Some(ChannelOf(s.subs[i].writer)) && d.fate.Applies()
        ==> t.record.state.SubmissionUncertain? && t.record.outcome.Uncertain?)
  {
    AttemptGoesOn(s, i, c);
    WaitsUntouched(Next(s, Step(i, c)), between, i);
    var u := Run(Next(s, Step(i, c)), between);
    assert Next(u, Step(i, d)) == StepDoubt(u, i, d);
  }

  // How a case says, on day `at`, that its submission was accepted, and when it is to be looked at again.
  predicate SaysAccepted(c: Case, w: Writer, stage: Stage, at: int) {
    match w
    case SmtpTool => c.state.Submitted? && c.outcome.SmtpAccepted? && c.recheckAt == Some(at + 14)
    case ParityTool => c.state.Submitted? && c.outcome.SmtpAccepted? && c.recheckAt == Some(at + 45)
    case WebmailSend => c.state.Submitted? && c.outcome.WebmailSent? && c.recheckAt == Some(at + 45)
    case FormTool => c.state.VerificationPending? && c.outcome.FormSuccess? && c.recheckAt == Some(at + 1)
    case FormStep(_, _) =>
      (match stage
       case EmailEntry => c.state.VerificationPending? && c.outcome.PortalRequested? && c.recheckAt == Some(at)
       case Guided => c.state.AwaitingProcessing? && c.outcome.SuppressionSubmitted? && c.recheckAt == Some(at + 14)
       case Generic => c.state.VerificationPending? && c.outcome.FormSuccess? && c.recheckAt == Some(at + 1))
    case Cleanup => false
  }

  // After an accepted attempt its next step is to record it.
  lemma AcceptedWriteIsRecorded(s: State, i: nat, c: Choice, between: seq<Event>, d: Choice)
    requires Attempted(s, i, c) && ProviderAccepted(c.attempt)
    requires forall k :: 0 <= k < |between| ==> !Touches(between[k], i)
    ensures var u := Run(Next(s, Step(i, c)), between);
      var w := s.subs[i].writer;
      && i < |u.subs| && u.subs[i].pc.Recording?
      && (u.record.state.SubmissionPending? && u.record.channel == Some(ChannelOf(w)) && d.fate.Applies() ==>
        SaysAccepted(Next(u, Step(i, d)).record, w, StageOf(u, w), d.at))
  {
    AttemptGoesOn(s, i, c);
    WaitsUntouched(Next(s, Step(i, c)), between, i);
    var u := Run(Next(s, Step(i, c)), between);
    assert Next(u, Step(i, d)) == StepRecord(u, i, d);
  }

  // ---- And only an accepted attempt is recorded

  lemma EntersRecording(s: State, e: Event, i: nat)
    requires i < |Next(s, e).subs| && Next(s, e).subs[i].pc.Recording?
    ensures i < |s.subs|
    ensures s.subs[i].pc.Recording?
      || (e.Step? && e.i == i && Attempted(s, i, e.choice) && ProviderAccepted(e.choice.attempt))
  {
    if i >= |s.subs| {
      NewcomersStart(s, e, i);
    } else if !Touches(e, i) {
      OthersLeaveIt(s, e, i);
    } else if e.Step? && !s.subs[i].pc.Recording? {
      if Attempted(s, i, e.choice) { AttemptGoesOn(s, i, e.choice); } else { QuietStepMovesOn(s, i, e.choice); }
    }
  }

  lemma NewcomersStart(s: State, e: Event, i: nat)
    requires |s.subs| <= i < |Next(s, e).subs|
    ensures !Next(s, e).subs[i].pc.Recording?
  {
    if e.Step? && e.i < |s.subs| { StepMovesOne(s, e.i, e.choice); }
  }

  // In every run, a submitter about to record its submission has settled an attempt the provider accepted: the
  // ledger never says "submitted" for an attempt that failed or stayed in doubt.
  lemma {:induction false} RecordsFollowAcceptance(events: seq<Event>, i: nat)
    requires i < |Run(INITIAL, events).subs| && Run(INITIAL, events).subs[i].pc.Recording?
    ensures exists m: nat :: m < |events| && AcceptedAt(events, m, i)
  {
    if events != [] {
      var front, e := events[..|events| - 1], events[|events| - 1];
      EntersRecording(Run(INITIAL, front), e, i);
      if Run(INITIAL, front).subs[i].pc.Recording? {
        RecordsFollowAcceptance(front, i);
        var m: nat :| m < |front| && AcceptedAt(front, m, i);
        assert front[..m] == events[..m] && AcceptedAt(events, m, i);
      } else {
        assert AcceptedAt(events, |front|, i);
      }
    }
  }

  // Event m settles an accepted attempt of submitter i.
  predicate AcceptedAt(events: seq<Event>, m: nat, i: nat) {
    && m < |events| && events[m].Step? && events[m].i == i
    && Attempted(Run(INITIAL, events[..m]), i, events[m].choice) && ProviderAccepted(events[m].choice.attempt)
  }

  // ---- Refused clicks

  // A click that acts under its own reservation and is refused before it goes out gives the reservation up
  // exactly for these codes outside the guided stage; for every other code the case is marked uncertain.
  lemma RefusedClickIsReleasedIff(s: State, i: nat, c: Choice, code: StepCode)
    requires i < |s.subs| && s.subs[i].pc.Open? && s.subs[i].writer.FormStep? && s.subs[i].own && s.subs[i].intent.Some?
    requires c.attempt == ByStep(RefusedBeforeEffect(code)) && Fits(s.subs[i], c.attempt)
    ensures var pc := Next(s, Step(i, c)).subs[i].pc;
      var listed := code in {RefInvalid, ActionNotAllowed, StepHumanGate, DomainMismatch, TargetInvalid,
        ActionAmbiguous,
        FieldTargetMismatch, FieldTargetAmbiguous, FieldMappingAmbiguous, FieldTypeMismatch, RecordNotCorroborated,
        RecordAmbiguous};
      && (pc.Releasing? <==> listed && StageOf(s, s.subs[i].writer) != Guided)
      && (pc.Doubting? <==> !listed)
  {
    assert Next(s, Step(i, c)) == StepAct(s, i, c);
  }
}
