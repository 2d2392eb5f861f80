// Durable submission intent for one (profile, broker): any number of concurrent submitters, form sessions
// with any number of steps in flight, operator reconciliation, every other ledger call, crashes, and loss of
// dedupe records, as interleaved atomic events, one per awaited store, ledger or provider call.
module SubmissionProtocol {
  import opened Wrappers
  import opened CaseLedger
  import opened ProviderOutcomes

  datatype RequestKind = DeleteAndOptOut | GdprErasure | UkErasure

  datatype Phase = BeforeCaseIntent | DurableIntent | PortalVerificationRequested | PortalSuppressionIntent

  // FormStep: one call of the form-session step tool; click is a click that needs an intent, which is any
  // click but the guided record selection. Cleanup: the end of a form session.
  datatype Writer = SmtpTool | ParityTool | FormTool | WebmailSend | FormStep(session: nat, click: bool) | Cleanup

  // Dispatched: a form step whose driver action has gone out and has not returned. Announcing and Forgetting:
  // the store calls after a record, and after a doubt in the guided stage, that can still fail.
  datatype Pc =
    | Start | Registering | Contended | Inspected(seen: Option<Phase>) | Evicting | Retrying
    | Acquired | Backout | Reserved | Open | Dispatched
    | Recording | Announcing | Doubting | Forgetting | Releasing | Cleaning | Closing
    | PortalLook | PortalSeen | PortalReserved
    | Ended

  // kind selects the dedupe key; discoveryRequired is the broker's discovery requirement; intent is the
  // reservation it acts under, and own says that it made that reservation itself.
  datatype Submitter = Submitter(
    writer: Writer, kind: RequestKind, discoveryRequired: bool, pc: Pc, intent: Option<nat>, own: bool)

  // The in-memory session its steps share: flag is the reservation behind submissionIntentReserved.
  datatype Session = Session(stage: Stage, live: bool, flag: Option<nat>)

  // One successful reservation: who made it, whether it has not been given up by its release or a crash, and
  // whether a provider effect was sent under it.
  datatype Intent = Intent(owner: nat, live: bool, wrote: bool)

  // notStarted counts the operator's "not started" reconciliations; exits the moves out of the protected
  // states made by other ledger calls (and lost case records); misreleases the releases of a reservation
  // that had written; strays the reservations first written under after their release; portals the
  // verified-portal reservations; reserved says whether any reservation ever took effect.
  datatype State = State(
    record: Case, dedupe: map<RequestKind, Phase>, scopes: set<RequestKind>, subs: seq<Submitter>,
    sessions: seq<Session>, intents: seq<Intent>,
    notStarted: nat, exits: nat, misreleases: nat, strays: nat, portals: nat, reserved: bool)

  const INITIAL := State(FRESH, map[], {}, [], [], [], 0, 0, 0, 0, 0, false)

  // The reservations under which a provider effect was sent.
  function Writes(intents: seq<Intent>): nat {
    if intents == [] then 0
    else Writes(intents[..|intents| - 1]) + if intents[|intents| - 1].wrote then 1 else 0
  }

  datatype Attempt = ByEmail(email: EmailAttempt) | ByForm(form: FormAttempt) | ByStep(step: StepAttempt)

  // fate: how the store, ledger or provider call of this event ends.
  datatype Choice = Choice(fate: Fate, at: int, attempt: Attempt)

  datatype Event =
    | Spawn(writer: Writer, kind: RequestKind, discoveryRequired: bool)
    | OpenSession(stage: Stage)
    | Step(i: nat, choice: Choice)
    | EndSession(session: nat)
    | Reconciled(nothingStarted: bool, days: nat, at: int)
    | OtherCall(op: Op, at: int)
    | CaseForgotten
    | DedupeLost(kind: RequestKind)
    | ScopeLost(kind: RequestKind)
    | Crash

  // ---- acquireSubmissionDedupe

  // The two branches that let a caller take over an existing dedupe record.
  predicate Admits(seen: Option<Phase>, c: Case) {
    || (seen == Some(BeforeCaseIntent) && !Protected(c.state))
    || (seen == Some(DurableIntent) && c.state == ActionSelected && c.outcome == HumanNotStarted)
  }

  function Lookup(dedupe: map<RequestKind, Phase>, kind: RequestKind): Option<Phase> {
    if kind in dedupe then Some(dedupe[kind]) else None
  }

  predicate Grants(seen: Option<Phase>, c: Case) { seen.None? || Admits(seen, c) }

  // ---- One submitter

  function StageOf(s: State, w: Writer): Stage {
    if w.FormStep? && w.session < |s.sessions| then s.sessions[w.session].stage else Generic
  }

  function ChannelOf(w: Writer): Channel {
    match w
    case SmtpTool => SmtpEmail
    case ParityTool => SmtpEmail
    case WebmailSend => BrowserWebmail
    case _ => BrowserForm
  }

  function RecordOp(w: Writer, stage: Stage): Op {
    match w
    case SmtpTool => RecordRemoval(false, 14)
    case ParityTool => RecordRemoval(false, 45)
    case WebmailSend => RecordRemoval(true, 45)
    case FormTool => RecordForm
    case _ =>
      match stage
      case EmailEntry => RecordVerificationRequested
      case Guided => RecordSuppression(14)
      case Generic => RecordForm
  }

  // Only these two tools keep the in-memory cooldown set.
  predicate UsesScopes(w: Writer) { w.SmtpTool? || w.FormTool? }

  function AfterVerdict(v: Verdict): Pc {
    match v
    case Confirmed => Recording
    case PossibleWrite => Doubting
    case NotStarted => Releasing
  }

  // The catch clause of a form step.
  function AfterStepError(sub: Submitter, stage: Stage, code: StepCode): Pc {
    if sub.intent.None? then Ended
    else if !DefinitelyNotStarted(code) then Doubting
    else if sub.own && stage != Guided then Releasing
    else Ended
  }

  function AfterFormAction(sub: Submitter, stage: Stage, a: StepAttempt): Pc {
    if a.NothingFinal? then Ended
    else if a.Completed? then Recording
    else AfterStepError(sub, stage, StepError(a))
  }

  predicate Concludes(a: StepAttempt) { a.Completed? || a.NotConfirmed? || a.ReceiptFailed? }

  // Which outcomes a submitter can meet; only clicks conclude a form.
  predicate Fits(sub: Submitter, a: Attempt) {
    match a
    case ByEmail(e) => (sub.writer.SmtpTool? || sub.writer.ParityTool?) && e.Valid()
    case ByForm(f) => sub.writer.FormTool? && f.Valid()
    case ByStep(x) =>
      && x.Valid() && (sub.writer.WebmailSend? || sub.writer.FormStep?)
      && (sub.writer.FormStep? && Concludes(x) ==> sub.writer.click)
  }

  function EffectOf(a: Attempt): bool {
    match a
    case ByEmail(e) => e.HandedOver()
    case ByForm(f) => f.SubmitStarted()
    case ByStep(s) => s.EffectSent()
  }

  function AfterToolAttempt(w: Writer, a: Attempt): Pc {
    match a
    case ByEmail(e) =>
      AfterVerdict(ClassifyEmail(if w == ParityTool then RunParityEmail(e) else RunRemovalSubmission(e)))
    case ByForm(f) => AfterVerdict(ClassifyForm(RunFormSubmitter(f)))
    case ByStep(s) => if s.Completed? then Recording else Doubting
  }

  function Goto(s: State, i: nat, pc: Pc): State
    requires i < |s.subs|
  {
    s.(subs := s.subs[i := s.subs[i].(pc := pc)])
  }

  function SetFlag(s: State, w: Writer, flag: Option<nat>): State {
    if w.FormStep? && w.session < |s.sessions|
    then s.(sessions := s.sessions[w.session := s.sessions[w.session].(flag := flag)]) else s
  }

  function CloseSession(s: State, w: Writer): State {
    if w.FormStep? && w.session < |s.sessions|
    then s.(sessions := s.sessions[w.session := s.sessions[w.session].(live := false)]) else s
  }

  // A provider effect sent under reservation r.
  function Effect(s: State, r: nat): State {
    if r >= |s.intents| || s.intents[r].wrote then s
    else
      s.(intents := s.intents[r := s.intents[r].(wrote := true)],
         strays := if s.intents[r].live then s.strays else s.strays + 1)
  }

  // A tool checks its cooldown; a form step reads the flag of its session, which must not have failed a check.
  function StepStart(s: State, i: nat, c: Choice): State
    requires i < |s.subs|
  {
    var sub := s.subs[i];
    if !c.fate.Answered? then Goto(s, i, Ended)
    else if sub.writer.FormStep? && sub.writer.session < |s.sessions| then
      var session := s.sessions[sub.writer.session];
      var under := s.(subs := s.subs[i := sub.(intent := session.flag, own := false)]);
      if session.flag.Some? || !sub.writer.click then Goto(under, i, Open)
      else Goto(under, i, if session.stage == Guided then PortalLook else Registering)
    else Goto(s, i, if UsesScopes(sub.writer) && sub.kind in s.scopes then Ended else Registering)
  }

  function StepRegister(s: State, i: nat, c: Choice, ifPresent: Pc): State
    requires i < |s.subs|
  {
    var kind := s.subs[i].kind;
    var registers := c.fate.Applies() && kind !in s.dedupe;
    var written := s.(dedupe := if registers then s.dedupe[kind := BeforeCaseIntent] else s.dedupe);
    if !c.fate.Answered? then Goto(written, i, Ended)
    else Goto(written, i, if kind in s.dedupe then ifPresent else Acquired)
  }

  // A reservation made for submitter i, which holds it if the call answered.
  function TakeReservation(s: State, i: nat, c: Choice, record: Case, held: Pc, lost: Pc): State
    requires i < |s.subs|
  {
    if !c.fate.Applies() then Goto(s, i, lost)
    else if !c.fate.Answered? then Goto(s, i, lost).(record := record, reserved := true)
    else
      s.(subs := s.subs[i := s.subs[i].(pc := held, intent := Some(|s.intents|), own := true)],
         intents := s.intents + [Intent(i, true, false)], record := record, reserved := true)
  }

  function StepReserve(s: State, i: nat, c: Choice): State
    requires i < |s.subs|
  {
    var sub := s.subs[i];
    var r := Apply(s.record, CaseLedger.Reserve(ChannelOf(sub.writer), sub.discoveryRequired), c.at);
    var lost := if sub.writer.WebmailSend? then Ended else Backout;
    if r.Failure? then Goto(s, i, lost) else TakeReservation(s, i, c, r.value, Reserved, lost)
  }

  function StepMark(s: State, i: nat, c: Choice): State
    requires i < |s.subs|
  {
    var sub := s.subs[i];
    var written := s.(dedupe := if c.fate.Applies() then s.dedupe[sub.kind := DurableIntent] else s.dedupe);
    if !c.fate.Answered? then Goto(written, i, if sub.writer.WebmailSend? then Ended else Backout)
    else
      SetFlag(Goto(written, i, Open), sub.writer, sub.intent).(
        scopes := if UsesScopes(sub.writer) then s.scopes + {sub.kind} else s.scopes)
  }

  // A tool's provider attempt, with what the tool makes of it.
  function StepTool(s: State, i: nat, c: Choice): State
    requires i < |s.subs|
  {
    var sub := s.subs[i];
    if !Fits(sub, c.attempt) || sub.intent.None? then s
    else
      Goto(if EffectOf(c.attempt) then Effect(s, sub.intent.value) else s, i, AfterToolAttempt(sub.writer, c.attempt))
  }

  // A form step's driver action goes out, or is refused before anything is sent.
  function StepAct(s: State, i: nat, c: Choice): State
    requires i < |s.subs|
  {
    var sub := s.subs[i];
    var stage := StageOf(s, sub.writer);
    if !sub.writer.FormStep? || !c.attempt.ByStep? || !Fits(sub, c.attempt) then s
    else if !c.attempt.step.EffectSent() then Goto(s, i, AfterStepError(sub, stage, c.attempt.step.code))
    else Goto(if sub.writer.click && sub.intent.Some? then Effect(s, sub.intent.value) else s, i, Dispatched)
  }

  // The action's return, the recipe assessment of its snapshot and the receipt.
  function StepReturn(s: State, i: nat, c: Choice): State
    requires i < |s.subs|
  {
    var sub := s.subs[i];
    var stage := StageOf(s, sub.writer);
    if !sub.writer.FormStep? || !c.attempt.ByStep? || !Fits(sub, c.attempt) then s
    else if !c.attempt.step.EffectSent() then s
    else Goto(s, i, AfterFormAction(sub, stage, c.attempt.step))
  }

  function StepRecord(s: State, i: nat, c: Choice): State
    requires i < |s.subs|
  {
    var w := s.subs[i].writer;
    var stage := StageOf(s, w);
    var r := Apply(s.record, RecordOp(w, stage), c.at);
    if r.Failure? then Goto(s, i, Doubting)
    else
      var pc := if !c.fate.Answered? then Doubting
                else if !w.FormStep? then Ended
                else if stage == Generic then Closing else Announcing;
      Goto(if c.fate.Applies() then s.(record := r.value) else s, i, pc)
  }

  function StepDoubt(s: State, i: nat, c: Choice): State
    requires i < |s.subs|
  {
    var w := s.subs[i].writer;
    var r := Apply(s.record, RecordUncertain(ChannelOf(w)), c.at);
    var to := if !w.FormStep? then Ended else if StageOf(s, w) == Guided then Forgetting else Closing;
    Goto(if c.fate.Applies() && r.Success? then s.(record := r.value) else s, i, to)
  }

  // releaseSubmission does not check whose reservation is pending, and its own error is swallowed.
  function StepRelease(s: State, i: nat, c: Choice): State
    requires i < |s.subs|
  {
    var sub := s.subs[i];
    var r := Apply(s.record, Release, c.at);
    if sub.intent.None? || sub.intent.value >= |s.intents| then Goto(s, i, Cleaning)
    else
      var own := s.intents[sub.intent.value];
      var lands := c.fate.Applies() && r.Success?;
      Goto(s, i, Cleaning).(
        scopes := if UsesScopes(sub.writer) then s.scopes - {sub.kind} else s.scopes,
        intents := s.intents[sub.intent.value := own.(live := false)],
        record := if lands then r.value else s.record,
        misreleases := if lands && own.wrote then s.misreleases + 1 else s.misreleases)
  }

  function StepDelete(s: State, i: nat, c: Choice, to: Pc): State
    requires i < |s.subs|
  {
    var written := s.(dedupe := if c.fate.Applies() then s.dedupe - {s.subs[i].kind} else s.dedupe);
    Goto(written, i, if c.fate.Answered? then to else Ended)
  }

  // After a release the dedupe record goes and, only if that answered, a form step clears the flag.
  function StepClean(s: State, i: nat, c: Choice): State
    requires i < |s.subs|
  {
    var t := StepDelete(s, i, c, Ended);
    if c.fate.Answered? then SetFlag(t, s.subs[i].writer, None) else t
  }

  function StepPortalReserve(s: State, i: nat, c: Choice): State
    requires i < |s.subs|
  {
    var r := Apply(s.record, ReservePortal, c.at);
    if r.Failure? then Goto(s, i, Ended)
    else
      TakeReservation(s, i, c, r.value, PortalReserved, Ended).(
        portals := if c.fate.Applies() then s.portals + 1 else s.portals)
  }

  function WritePhase(s: State, i: nat, c: Choice, phase: Phase): State
    requires i < |s.subs|
  {
    s.(dedupe := if c.fate.Applies() then s.dedupe[s.subs[i].kind := phase] else s.dedupe)
  }

  // The email entry writes the dedupe phase the guided stage looks for; the guided stage deletes its portal flow.
  function StepAnnounce(s: State, i: nat, c: Choice): State
    requires i < |s.subs|
  {
    var written :=
      if StageOf(s, s.subs[i].writer) == Guided then s else WritePhase(s, i, c, PortalVerificationRequested);
    Goto(written, i, if c.fate.Answered? then Closing else Doubting)
  }

  function StepPortalMark(s: State, i: nat, c: Choice): State
    requires i < |s.subs|
  {
    var written := WritePhase(s, i, c, PortalSuppressionIntent);
    if !c.fate.Answered? then Goto(written, i, Ended)
    else SetFlag(Goto(written, i, Open), s.subs[i].writer, s.subs[i].intent)
  }

  function StepSubmitter(s: State, i: nat, c: Choice): State
    requires i < |s.subs|
  {
    var sub := s.subs[i];
    var seen := Lookup(s.dedupe, sub.kind);
    match sub.pc
    case Start => StepStart(s, i, c)
    case Registering => StepRegister(s, i, c, Contended)
    case Contended => Goto(s, i, if c.fate.Answered? then Inspected(seen) else Ended)
    case Inspected(found) => Goto(s, i, if c.fate.Answered? && Admits(found, s.record) then Evicting else Ended)
    case Evicting => StepDelete(s, i, c, Retrying)
    case Retrying => StepRegister(s, i, c, Ended)
    case Acquired => StepReserve(s, i, c)
    case Backout => StepDelete(s, i, c, Ended)
    case Reserved => StepMark(s, i, c)
    case Open => if sub.writer.FormStep? then StepAct(s, i, c) else StepTool(s, i, c)
    case Dispatched => StepReturn(s, i, c)
    case Recording => StepRecord(s, i, c)
    case Announcing => StepAnnounce(s, i, c)
    case Doubting => StepDoubt(s, i, c)
    case Releasing => StepRelease(s, i, c)
    case Cleaning => StepClean(s, i, c)
    case Forgetting => Goto(s, i, if c.fate.Answered? then Closing else Ended)
    case Closing => CloseSession(Goto(s, i, Ended), sub.writer)
    case PortalLook =>
      Goto(s, i, if c.fate.Answered? && seen == Some(PortalVerificationRequested) then PortalSeen else Ended)
    case PortalSeen => StepPortalReserve(s, i, c)
    case PortalReserved => StepPortalMark(s, i, c)
    case Ended => s
  }

  // ---- The rest of the system

  // A tool is called, or a step of a session that is still open.
  function SpawnSub(s: State, w: Writer, kind: RequestKind, d: bool): State {
    match w
    case Cleanup => s
    case FormStep(k, click) =>
      if k < |s.sessions| && s.sessions[k].live
      then s.(subs := s.subs + [Submitter(w, DeleteAndOptOut, false, Start, None, false)]) else s
    case _ => s.(subs := s.subs + [Submitter(w, kind, d, Start, None, false)])
  }

  // The timer, a revocation, a purge or a rejected snapshot ends a session: it is deleted and, if its flag
  // is set at that moment, its intent is marked uncertain. Steps in flight go on.
  function EndOf(s: State, k: nat): State {
    if k >= |s.sessions| then s
    else
      var t := s.(sessions := s.sessions[k := s.sessions[k].(live := false)]);
      if s.sessions[k].flag.Some?
      then t.(subs := t.subs + [Submitter(Cleanup, DeleteAndOptOut, false, Doubting, None, false)])
      else t
  }

  // The ledger calls that no submitter makes under an intent.
  predicate Outside(op: Op) {
    op.RecordController? || op.RecordScan? || op.RecordBrowserDiscovery? || op.RecordDirectRescan?
    || op.DeferRecheck? || op.RecordLifecycle?
  }

  function SetRecord(s: State, c: Case): State {
    s.(record := c, exits := if Protected(s.record.state) && !Protected(c.state) then s.exits + 1 else s.exits)
  }

  function OperatorReview(s: State, nothingStarted: bool, days: nat, at: int): State {
    var r := Apply(s.record, CaseLedger.Reconcile(nothingStarted, days), at);
    if r.Failure? then s
    else s.(record := r.value, notStarted := if nothingStarted then s.notStarted + 1 else s.notStarted)
  }

  function EndAll(subs: seq<Submitter>): (r: seq<Submitter>)
    ensures |r| == |subs| && forall i :: 0 <= i < |r| ==> r[i] == subs[i].(pc := Ended)
  {
    seq(|subs|, i requires 0 <= i < |subs| => subs[i].(pc := Ended))
  }

  function GiveUpAll(intents: seq<Intent>): (r: seq<Intent>)
    ensures |r| == |intents| && forall k :: 0 <= k < |r| ==> r[k] == intents[k].(live := false)
  {
    seq(|intents|, k requires 0 <= k < |intents| => intents[k].(live := false))
  }

  function ForgetAll(sessions: seq<Session>): (r: seq<Session>)
    ensures |r| == |sessions| && forall k :: 0 <= k < |r| ==> r[k] == sessions[k].(live := false, flag := None)
  {
    seq(|sessions|, k requires 0 <= k < |sessions| => sessions[k].(live := false, flag := None))
  }

  function Next(s: State, e: Event): State {
    match e
    case Spawn(w, kind, d) => SpawnSub(s, w, kind, d)
    case OpenSession(stage) => s.(sessions := s.sessions + [Session(stage, true, None)])
    case Step(i, c) => if i < |s.subs| then StepSubmitter(s, i, c) else s
    case EndSession(k) => EndOf(s, k)
    case Reconciled(n, days, at) => OperatorReview(s, n, days, at)
    case OtherCall(op, at) =>
      var r := Apply(s.record, op, at);
      if Outside(op) && r.Success? then SetRecord(s, r.value) else s
    case CaseForgotten => SetRecord(s, FRESH)
    case DedupeLost(kind) => s.(dedupe := s.dedupe - {kind})
    case ScopeLost(kind) => s.(scopes := s.scopes - {kind})
    case Crash =>
      s.(subs := EndAll(s.subs), sessions := ForgetAll(s.sessions), intents := GiveUpAll(s.intents), scopes := {})
  }

  function Run(s: State, events: seq<Event>): State {
    if events == [] then s else Next(Run(s, events[..|events| - 1]), events[|events| - 1])
  }
}
