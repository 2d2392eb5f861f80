// What one provider attempt did, which error code the writer raises for it, and how the tool body
// classifies that code: a recorded success, a possible write, or "not started" (which releases the intent).
module ProviderOutcomes {
  import opened Wrappers

  datatype Verdict = Confirmed | PossibleWrite | NotStarted

  // ---- The two SMTP writers, over the same observed transport behaviour

  datatype Reply = RecipientAccepted | RecipientRefused | TransportError

  // Logical times of one call: entry <= dispatch <= handover <= settled. The message is handed to the
  // mail client at handover unless the sender notices the abort first; setupFails is an error of the
  // client factory before that.
  datatype EmailAttempt = EmailAttempt(
    entry: nat, dispatch: nat, handover: nat, settled: nat,
    abortAt: Option<nat>, setupFails: bool, reply: Reply)
  {
    predicate Valid() { entry <= dispatch <= handover < settled }

    predicate AbortedBy(t: nat) { abortAt.Some? && abortAt.value <= t }

    // The mail client was given the message: from here on the provider may have it.
    predicate HandedOver() { !AbortedBy(handover) && !setupFails }
  }

  datatype EmailCode = Cancelled | TransportFailed | NotAccepted | Sent

  // createSmtpSender, as both writers call it: it checks the signal on entry and again after the client
  // factory, which may throw in between.
  datatype SendResult = CancelledBeforeTransport | SenderThrew | Replied(reply: Reply)

  function SendSmtpMail(a: EmailAttempt): SendResult {
    if a.AbortedBy(a.dispatch) then CancelledBeforeTransport
    else if a.setupFails then SenderThrew
    else if a.AbortedBy(a.handover) then CancelledBeforeTransport
    else if a.reply == TransportError then SenderThrew
    else Replied(a.reply)
  }

  // The catch clause of runRemovalSubmission: only the sender's own cancellation code means "not started".
  function RunRemovalSubmission(a: EmailAttempt): EmailCode {
    match SendSmtpMail(a)
    case CancelledBeforeTransport => Cancelled
    case SenderThrew => TransportFailed
    case Replied(reply) => if reply == RecipientAccepted then Sent else NotAccepted
  }

  // The catch clause of runParityEmail: any error is a cancellation if the signal is aborted by then.
  function RunParityEmail(a: EmailAttempt): EmailCode {
    match SendSmtpMail(a)
    case CancelledBeforeTransport => Cancelled
    case SenderThrew => if a.AbortedBy(a.settled) then Cancelled else TransportFailed
    case Replied(reply) => if reply == RecipientAccepted then Sent else NotAccepted
  }

  // Both tool bodies use the same list of possibly-written codes.
  function ClassifyEmail(code: EmailCode): Verdict {
    match code
    case Sent => Confirmed
    case TransportFailed => PossibleWrite
    case NotAccepted => PossibleWrite
    case Cancelled => NotStarted
  }

  // ---- rightout_submit_form_removal: the closed form submitter

  datatype FormError =
    | BridgeFailed | FormCancelled | SnapshotInvalid | ContractMismatch | HumanGate | FieldMissing | OtherError

  // The bridge requests of one submission, in order.
  datatype Request = OpenTab | PageSnapshot | FillFields | ClickCheckbox(index: nat) | ClickSubmit | ConfirmSnapshot

  function Script(checkboxes: nat): (r: seq<Request>)
    ensures |r| == checkboxes + 5 && forall i :: 0 <= i < |r| ==> (r[i].ClickSubmit? <==> i == checkboxes + 3)
  {
    [OpenTab, PageSnapshot, FillFields] + seq(checkboxes, i requires 0 <= i < checkboxes => ClickCheckbox(i))
    + [ClickSubmit, ConfirmSnapshot]
  }

  // stop: the number of requests sent when an error is raised, by the last of them or by a check after it.
  datatype FormAttempt = FormAttempt(checkboxes: nat, stop: Option<nat>, error: FormError)
  {
    predicate Valid() { stop.Some? ==> stop.value <= checkboxes + 5 }

    function Sent(): nat { if stop.Some? && stop.value <= checkboxes + 5 then stop.value else checkboxes + 5 }

    // The submit click is among the requests sent.
    predicate SubmitStarted() { Sent() >= checkboxes + 4 }
  }

  datatype FormCode = Raised(error: FormError) | SubmissionUncertain | FormSubmitted

  function RunFormSubmitter(a: FormAttempt): FormCode {
    if a.stop.None? then FormSubmitted
    else if a.SubmitStarted() then SubmissionUncertain
    else Raised(a.error)
  }

  function ClassifyForm(code: FormCode): Verdict {
    match code
    case FormSubmitted => Confirmed
    case SubmissionUncertain => PossibleWrite
    case Raised(e) => if e == BridgeFailed then PossibleWrite else NotStarted
  }

  // ---- The browser session driver and the rest of one form-session step

  // The stages of a form session; the first two belong to the identity portal.
  datatype Stage = EmailEntry | Guided | Generic

  // The codes that the form step treats as raised before any provider effect, and the other ones.
  datatype StepCode =
    | RefInvalid | ActionNotAllowed | StepHumanGate | DomainMismatch | TargetInvalid | ActionAmbiguous
    | FieldTargetMismatch | FieldTargetAmbiguous | FieldMappingAmbiguous | FieldTypeMismatch
    | RecordNotCorroborated | RecordAmbiguous
    | AccessBlocked | StepBridgeFailed | StepCancelled | StepSnapshotInvalid | ProfileFieldMissing
    | ActionUncertain | RecipeQuarantined | Unconfirmed | LedgerRefused

  predicate DefinitelyNotStarted(code: StepCode) {
    code.RefInvalid? || code.ActionNotAllowed? || code.StepHumanGate? || code.DomainMismatch? || code.TargetInvalid?
    || code.ActionAmbiguous? || code.FieldTargetMismatch? || code.FieldTargetAmbiguous? || code.FieldMappingAmbiguous?
    || code.FieldTypeMismatch? || code.RecordNotCorroborated? || code.RecordAmbiguous?
  }

  // The errors that reading a snapshot can raise.
  predicate SnapshotCode(code: StepCode) {
    code.DomainMismatch? || code.StepBridgeFailed? || code.StepCancelled? || code.StepSnapshotInvalid?
  }

  // Where one driver action and its follow-up went wrong.
  datatype StepAttempt =
    | RefusedBeforeEffect(code: StepCode)   // snapshot, guard or validation failed; no /act request sent
    | FailedAfterEffect                     // anything after /act was sent
    | DriftAfterEffect                      // the action returned, the recipe assessment of its snapshot refused it
    | NothingFinal                          // the action returned and was not a final one
    | NotConfirmed                          // a final action whose success marker was not observed
    | ReceiptFailed(code: StepCode)         // a confirmed final action whose receipt snapshot failed
    | Completed                             // a confirmed final action with its receipt
  {
    predicate Valid() {
      (RefusedBeforeEffect? ==> !code.ActionUncertain? && !code.Unconfirmed? && !code.LedgerRefused?)
      && (ReceiptFailed? ==> SnapshotCode(code))
    }

    predicate EffectSent() { !RefusedBeforeEffect? }
  }

  // act() maps every error after the effect to ActionUncertain; the receipt is taken outside it.
  function StepError(a: StepAttempt): StepCode
    requires !a.NothingFinal? && !a.Completed?
  {
    match a
    case RefusedBeforeEffect(code) => code
    case FailedAfterEffect => ActionUncertain
    case DriftAfterEffect => RecipeQuarantined
    case NotConfirmed => Unconfirmed
    case ReceiptFailed(code) => code
  }

  // ---- When "not started" is true

  lemma RemovalEmailIsClassifiedSoundly(a: EmailAttempt)
    requires a.Valid()
    ensures ClassifyEmail(RunRemovalSubmission(a)) == NotStarted ==> !a.HandedOver()
  {
  }

  // A message the client was given and whose sending did not end with the recipient's acceptance.
  predicate InDoubt(a: EmailAttempt) { a.HandedOver() && !a.reply.RecipientAccepted? }

  // What the SMTP tool makes of every attempt: confirmed exactly for an accepted recipient, a possible write
  // exactly for a message in doubt or a client that could not be set up, not started exactly for an abort seen
  // before the message was handed over.
  lemma RemovalEmailVerdict(a: EmailAttempt)
    requires a.Valid()
    ensures var v := ClassifyEmail(RunRemovalSubmission(a));
      && (v.Confirmed? <==> a.HandedOver() && a.reply.RecipientAccepted?)
      && (v.PossibleWrite? <==> InDoubt(a) || (a.setupFails && !a.AbortedBy(a.dispatch)))
      && (v.NotStarted? <==> a.AbortedBy(a.dispatch) || (!a.setupFails && a.AbortedBy(a.handover)))
  {
  }

  // The caller aborts by the time the sending has failed, with the message not refused but lost.
  predicate AbortCoversFailure(a: EmailAttempt) {
    a.AbortedBy(a.settled) && (a.setupFails || (a.HandedOver() && a.reply.TransportError?))
  }

  // The parity tool differs in that window only: what it calls not started there may have been written.
  lemma ParityEmailVerdict(a: EmailAttempt)
    requires a.Valid()
    ensures var v := ClassifyEmail(RunParityEmail(a));
      && (v.Confirmed? <==> a.HandedOver() && a.reply.RecipientAccepted?)
      && (v.PossibleWrite? <==>
        (InDoubt(a) || (a.setupFails && !a.AbortedBy(a.dispatch))) && !AbortCoversFailure(a))
      && (v.NotStarted? <==>
        a.AbortedBy(a.dispatch) || (!a.setupFails && a.AbortedBy(a.handover)) || AbortCoversFailure(a))
  {
  }

  // The closed form submitter, request by request. The tool confirms exactly the attempts without an error; of
  // the others it calls a possible write exactly those whose submit click is among the requests sent, or whose
  // bridge failed, and the rest "not started".
  method SubmitBrowserForm(a: FormAttempt) returns (code: FormCode, sent: seq<Request>)
    requires a.Valid()
    ensures sent == Script(a.checkboxes)[..a.Sent()] && code == RunFormSubmitter(a)
    ensures ClassifyForm(code).Confirmed? <==> a.stop.None?
    ensures ClassifyForm(code).PossibleWrite? <==> a.stop.Some? && (ClickSubmit in sent || a.error.BridgeFailed?)
    ensures ClassifyForm(code).NotStarted? <==> a.stop.Some? && ClickSubmit !in sent && !a.error.BridgeFailed?
    ensures code == SubmissionUncertain <==> ClickSubmit in sent && a.stop.Some?
    ensures a.stop.None? ==> ClickSubmit in sent
  {
    var script := Script(a.checkboxes);
    var submitStarted := false;
    sent := [];
    while |sent| < |script| && a.stop != Some(|sent|)
      invariant |sent| <= a.Sent() && sent == script[..|sent|]
      invariant submitStarted <==> |sent| >= a.checkboxes + 4
      decreases |script| - |sent|
    {
      if script[|sent|].ClickSubmit? { submitStarted := true; }
      sent := sent + [script[|sent|]];
    }
    assert a.checkboxes + 3 < |sent| ==> sent[a.checkboxes + 3].ClickSubmit?;
    code := if a.stop.None? then FormSubmitted else if submitStarted then SubmissionUncertain else Raised(a.error);
  }

  // The parity writer calls a handed-over message "not started" exactly when the caller aborts while the
  // message is in flight and the transport then fails.
  lemma ParityEmailIsMisclassifiedIff(a: EmailAttempt)
    requires a.Valid()
    ensures ClassifyEmail(RunParityEmail(a)) == NotStarted && a.HandedOver() <==>
      !a.setupFails && a.reply == TransportError
      && a.abortAt.Some? && a.handover < a.abortAt.value <= a.settled
  {
  }

  // Over the same behaviour the two writers differ only where the sender threw and an abort arrived
  // after dispatch.
  lemma EmailWritersDifferIff(a: EmailAttempt)
    requires a.Valid()
    ensures RunParityEmail(a) != RunRemovalSubmission(a) <==>
      !a.AbortedBy(a.dispatch) && a.AbortedBy(a.settled)
      && (a.setupFails || (a.reply == TransportError && !a.AbortedBy(a.handover)))
  {
  }

  // The form step calls a sent action "not started" exactly when the page has left the official domains
  // by the time the receipt of a confirmed submission is read.
  lemma FormStepIsMisclassifiedIff(a: StepAttempt)
    requires a.Valid() && !a.NothingFinal? && !a.Completed?
    ensures DefinitelyNotStarted(StepError(a)) && a.EffectSent() <==> a == ReceiptFailed(DomainMismatch)
  {
  }
}
