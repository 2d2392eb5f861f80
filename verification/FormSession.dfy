// One browser form session: its steps (any number in flight at once) and its endings, one event per awaited
// call, with a log of what was disclosed, clicked, reserved, released and left in the case ledger. The case is
// driven by this session only; other writers are the subject of SubmissionProtocol.
module FormSession {
  import opened Wrappers
  import opened CaseLedger
  import opened ProviderOutcomes

  datatype Purpose = Agree | Continue | SelectRecord | Confirm | Submit | Suppress

  datatype Action =
    | Fill(fields: seq<string>) | FillChallenge | Click(purpose: Purpose) | Inspect | TakeReceipt | CloseSession

  // Incompatible: the page no longer fits the signed recipe, or is a human gate. PolicyChanged: the
  // recipe itself changed.
  datatype Drift = Incompatible | PolicyChanged

  // What a session is for, fixed when it begins.
  datatype Form = Form(stage: Stage, permitted: map<string, string>, required: set<string>)

  // The session object its steps share; flag is the reservation behind submissionIntentReserved, named by
  // its position in the log.
  datatype Session = Session(filled: set<string>, consent: bool, selected: bool, flag: Option<nat>, live: bool)

  // Entered: past the lookup of the session. Sent: the driver action has gone out. Waiting: for ending x.
  datatype Pc =
    | Entered | Acquiring | Reserving | Marking | Acting | Sent | Inspecting | Receipting | Recording | Announcing
    | Blocking | Ending | Waiting(x: nat) | Releasing | Clearing | Doubting | Closing | Leaving | Done

  // admitted: the log position of its admission; under: the reservation it acts under, own if it made it;
  // clicked and lost: its click was sent, the receipt of its click was lost.
  datatype Step = Step(
    action: Action, pc: Pc, admitted: Option<nat>, under: Option<nat>, own: bool, clicked: bool, lost: bool)

  datatype EndPc = EDoubt | ETab | EQueue | EHuman | EDone

  // One ending of the session: whether it saw the flag, whether it queues a human task for the guided stage,
  // and whether it is the close action.
  datatype Ender = Ender(saw: bool, human: bool, closing: bool, pc: EndPc)

  datatype Entry =
    | Admitted(step: nat, action: Action, approved: bool)
    | SentFields(step: nat, admitted: nat, disclosures: set<string>)
    | FillReturned(step: nat, disclosures: set<string>)
    | Agreed(step: nat)
    | Selected(step: nat)
    | Reserved(step: nat)
    | Flagged(step: nat, intent: nat)
    | Clicked(step: nat, purpose: Purpose, admitted: nat, under: Option<nat>, record: Case)
    | LostReceipt(step: nat)
    | Recorded(step: nat)
    | BlockedBy(step: nat)
    | Doubted(step: nat)
    | Released(step: nat, intent: nat)
    | Cleared(step: nat)
    | EndingBegan(ender: nat, saw: bool)
    | DoubtedByEnd(ender: nat)
    | Queued(ender: nat)

  datatype World = World(
    form: Form, session: Session, record: Case, steps: seq<Step>, enders: seq<Ender>, log: seq<Entry>)

  // What the browser answers: an error before the action is sent, a snapshot the recipe rejects, an error
  // after it, a returned action (success: the stage's success marker newly observed; checked: the clicked
  // consent box seen checked), or a receipt snapshot that failed.
  datatype Page =
    | Fine | Refuses(code: StepCode) | Rejects(drift: Drift) | Fails | Returns(success: bool, checked: bool)
    | NoReceipt(code: StepCode)

  // ok: the check, lookup or tab call of this event succeeds; approved: a sensitive-field approval bound to
  // exactly this step exists; fate: how the store or ledger call of this event ends.
  datatype Choice = Choice(ok: bool, approved: bool, fate: Fate, page: Page, at: int)

  // Expire: the timer, or the prune of an expired session. Revoke: a campaign revocation or the purge tool.
  datatype Event =
    | Enter(action: Action) | StepOn(i: nat, choice: Choice) | EndOn(x: nat, choice: Choice) | Expire | Revoke

  // ---- formFieldDisclosureMap

  function Disclosure(field: string): string {
    if field == "first_name" || field == "last_name" then "full_name"
    else if field == "contact_email_confirm" then "contact_email"
    else if field == "listing_id" then "listing_url"
    else field
  }

  function FieldDisclosureMap(disclosureFields: set<string>, values: set<string>): (m: map<string, string>)
    ensures m.Values <= disclosureFields
    ensures forall f :: f in m <==> f in values && Disclosure(f) in disclosureFields
    ensures forall f :: f in m ==> m[f] == Disclosure(f)
  {
    map f | f in values && Disclosure(f) in disclosureFields :: Disclosure(f)
  }

  function Begin(stage: Stage, disclosureFields: set<string>, values: set<string>, required: set<string>,
                 record: Case): World
  {
    World(Form(stage, FieldDisclosureMap(disclosureFields, values), required), Session({}, false, false, None, true),
          record, [], [], [])
  }

  // ---- What the log says

  // The reservation the flag names: set after each mark, cleared by any step's clearing.
  function FlagOf(log: seq<Entry>): Option<nat> {
    if log == [] then None
    else
      match log[|log| - 1]
      case Flagged(_, r) => Some(r)
      case Cleared(_) => None
      case _ => FlagOf(log[..|log| - 1])
  }

  // The ledger calls that settle a pending reservation.
  predicate Settles(e: Entry) {
    e.Recorded? || e.BlockedBy? || e.Doubted? || e.Released? || e.DoubtedByEnd? || e.Queued?
  }

  // The reservation that no ledger call has settled.
  function OpenOf(log: seq<Entry>): Option<nat> {
    if log == [] then None
    else if log[|log| - 1].Reserved? then Some(|log| - 1)
    else if Settles(log[|log| - 1]) then None
    else OpenOf(log[..|log| - 1])
  }

  predicate Filled(log: seq<Entry>, d: string) {
    exists k :: 0 <= k < |log| && log[k].FillReturned? && d in log[k].disclosures
  }

  predicate SomeAgreed(log: seq<Entry>) { exists k :: 0 <= k < |log| && log[k].Agreed? }

  predicate SomeSelected(log: seq<Entry>) { exists k :: 0 <= k < |log| && log[k].Selected? }

  predicate SomeDoubted(log: seq<Entry>) { exists k :: 0 <= k < |log| && (log[k].Doubted? || log[k].DoubtedByEnd?) }

  predicate ClickedBy(log: seq<Entry>, i: nat, under: Option<nat>) {
    exists k :: 0 <= k < |log| && log[k].Clicked? && log[k].step == i && log[k].under == under
  }

  // ---- Rules of one action

  predicate PurposeAllowed(stage: Stage, p: Purpose) {
    match stage
    case EmailEntry => p == Agree || p == Continue
    case Guided => p == Continue || p == SelectRecord || p == Suppress
    case Generic => p != Suppress
  }

  function Disclosed(form: Form, fields: seq<string>): set<string> {
    set f | f in fields && f in form.permitted :: form.permitted[f]
  }

  predicate InitialVerification(stage: Stage, a: Action) { stage == EmailEntry && a == Click(Continue) }

  predicate FinalSuppression(stage: Stage, a: Action) { stage == Guided && a == Click(Suppress) }

  predicate FinalSubmit(stage: Stage, a: Action) { stage == Generic && a == Click(Submit) }

  // A guided click on anything but a record needs the intent of the portal's second phase.
  predicate NeedsIntent(stage: Stage, a: Action) { a.Click? && (stage != Guided || a.purpose != SelectRecord) }

  // The checks between the revalidation and the first call of a fill or click.
  predicate PassesChecks(form: Form, s: Session, a: Action, approved: bool) {
    match a
    case FillChallenge => form.stage == Generic
    case Fill(fields) => "date_of_birth" in Disclosed(form, fields) ==> approved
    case Click(p) =>
      && PurposeAllowed(form.stage, p)
      && (InitialVerification(form.stage, a) ==> s.consent)
      && (form.stage == EmailEntry ==> "contact_email" in s.filled)
      && (FinalSubmit(form.stage, a) ==> form.required <= s.filled)
      && (form.stage == Guided && p != SelectRecord ==> "full_name" in s.filled && "date_of_birth" in s.filled)
      && (FinalSuppression(form.stage, a) ==> s.selected)
    case _ => false
  }

  function ReserveOp(stage: Stage): Op {
    if stage == Guided then ReservePortal else CaseLedger.Reserve(BrowserForm, false)
  }

  function RecordOp(stage: Stage): Op {
    match stage
    case EmailEntry => RecordVerificationRequested
    case Guided => RecordSuppression(14)
    case Generic => RecordForm
  }

  predicate Final(stage: Stage, a: Action, success: bool) {
    InitialVerification(stage, a) || FinalSuppression(stage, a) || FinalSubmit(stage, a)
    || (stage == Generic && a.Click? && success)
  }

  predicate Agreeing(stage: Stage, a: Action) { stage == EmailEntry && a == Click(Agree) }

  predicate Selecting(stage: Stage, a: Action) { stage == Guided && a == Click(SelectRecord) }

  // The catch clause of a step.
  function AfterError(step: Step, stage: Stage, code: StepCode): Pc {
    if step.under.None? then Done
    else if !DefinitelyNotStarted(code) then Doubting
    else if step.own && stage != Guided then Releasing
    else Done
  }

  // ---- Endings

  function FirstEndPc(stage: Stage, saw: bool, closing: bool): EndPc {
    if saw then EDoubt else if !closing then ETab else if stage == Guided then EHuman else EDone
  }

  // The session is deleted and its flag read at once; the calls that follow are the ender's own events.
  function BeginEnding(w: World, human: bool, closing: bool): World {
    var saw := w.session.flag.Some?;
    w.(session := w.session.(live := false),
       enders := w.enders + [Ender(saw, human, closing, FirstEndPc(w.form.stage, saw, closing))],
       log := w.log + [EndingBegan(|w.enders|, saw)])
  }

  // A ledger call of this session; it is logged if it takes effect.
  function Land(w: World, op: Op, c: Choice, e: Entry): World {
    var r := Apply(w.record, op, c.at);
    if c.fate.Applies() && r.Success? then w.(record := r.value, log := w.log + [e]) else w
  }

  function GotoEnd(w: World, x: nat, pc: EndPc): World
    requires x < |w.enders|
  {
    w.(enders := w.enders[x := w.enders[x].(pc := pc)])
  }

  function Queue(w: World, x: nat, c: Choice): World { Land(w, RecordLifecycle(HumanTaskQueued, 0), c, Queued(x)) }

  function EndEnder(w: World, x: nat, c: Choice): World
    requires x < |w.enders|
  {
    var ender := w.enders[x];
    var last := if ender.human && w.form.stage == Guided then EHuman else EDone;
    match ender.pc
    case EDoubt =>
      GotoEnd(Land(w, RecordUncertain(BrowserForm), c, DoubtedByEnd(x)), x, if ender.closing then EDone else ETab)
    case ETab => GotoEnd(w, x, if c.ok then last else EQueue)
    case EQueue => GotoEnd(Queue(w, x, c), x, last)
    case EHuman => GotoEnd(Queue(w, x, c), x, EDone)
    case EDone => w
  }

  // ---- One step

  function Put(w: World, i: nat, step: Step): World
    requires i < |w.steps|
  {
    w.(steps := w.steps[i := step])
  }

  function Goto(w: World, i: nat, pc: Pc): World
    requires i < |w.steps|
  {
    Put(w, i, w.steps[i].(pc := pc))
  }

  function Logged(w: World, e: Entry): World { w.(log := w.log + [e]) }

  // The revalidation returns; then the checks, and the flag, are read at once.
  function StepEntered(w: World, i: nat, c: Choice): World
    requires i < |w.steps|
  {
    var step := w.steps[i];
    var a := step.action;
    if !c.ok then BeginEnding(Goto(w, i, Done), false, false)
    else if a.Inspect? then Goto(w, i, Inspecting)
    else if !PassesChecks(w.form, w.session, a, c.approved) then Goto(w, i, Done)
    else
      var pc := if NeedsIntent(w.form.stage, a) && w.session.flag.None? then Acquiring else Acting;
      Logged(Put(w, i, step.(pc := pc, admitted := Some(|w.log|), under := w.session.flag)), Admitted(i, a, c.approved))
  }

  function StepReserving(w: World, i: nat, c: Choice): World
    requires i < |w.steps|
  {
    var t := Land(w, ReserveOp(w.form.stage), c, Reserved(i));
    if t.log == w.log || !c.fate.Answered? then Goto(t, i, Done)
    else Put(t, i, w.steps[i].(pc := Marking, under := Some(|w.log|), own := true))
  }

  // The flag is set once the mark has answered.
  function StepMarking(w: World, i: nat, c: Choice): World
    requires i < |w.steps|
  {
    if !c.fate.Answered? || w.steps[i].under.None? then Goto(w, i, Done)
    else
      Logged(Goto(w, i, Acting).(session := w.session.(flag := w.steps[i].under)), Flagged(i, w.steps[i].under.value))
  }

  // A snapshot the recipe rejects: an incompatible one is first recorded as blocked.
  function AfterRejection(d: Drift): Pc { if d == Incompatible then Blocking else Ending }

  predicate RefusalCode(code: StepCode) {
    !code.ActionUncertain? && !code.Unconfirmed? && !code.LedgerRefused? && !code.RecipeQuarantined?
  }

  function Sending(w: World, i: nat): Entry
    requires i < |w.steps| && w.steps[i].admitted.Some?
  {
    var step := w.steps[i];
    match step.action
    case Click(p) => Clicked(i, p, step.admitted.value, step.under, w.record)
    case Fill(fields) => SentFields(i, step.admitted.value, Disclosed(w.form, fields))
    case _ => SentFields(i, step.admitted.value, {})
  }

  function StepActing(w: World, i: nat, c: Choice): World
    requires i < |w.steps|
  {
    var step := w.steps[i];
    match c.page
    case Refuses(code) => if RefusalCode(code) then Goto(w, i, AfterError(step, w.form.stage, code)) else w
    case Rejects(d) => Goto(w, i, AfterRejection(d))
    case _ =>
      if step.admitted.None? then w
      else Logged(Put(w, i, step.(pc := Pc.Sent, clicked := step.action.Click?)), Sending(w, i))
  }

  // What the session notes of a returned action; a consent click counts only if seen checked.
  function NotedSession(form: Form, s: Session, a: Action, checked: bool): Session {
    if a.Fill? then s.(filled := s.filled + Disclosed(form, a.fields))
    else if Selecting(form.stage, a) then s.(selected := true)
    else if Agreeing(form.stage, a) && checked then s.(consent := true)
    else s
  }

  function Noted(w: World, i: nat, checked: bool): World
    requires i < |w.steps|
  {
    var a := w.steps[i].action;
    var noted := w.(session := NotedSession(w.form, w.session, a, checked));
    if a.Fill? then Logged(noted, FillReturned(i, Disclosed(w.form, a.fields)))
    else if Selecting(w.form.stage, a) then Logged(noted, Selected(i))
    else if Agreeing(w.form.stage, a) && checked then Logged(noted, Agreed(i))
    else w
  }

  // A generic form reported success before every required field was filled.
  predicate SucceededEarly(form: Form, s: Session, a: Action, success: bool) {
    form.stage == Generic && a.Click? && success && !(form.required <= s.filled)
  }

  function AfterReturn(w: World, i: nat, success: bool, checked: bool): Pc
    requires i < |w.steps|
  {
    var step, stage := w.steps[i], w.form.stage;
    if Agreeing(stage, step.action) && !checked then AfterError(step, stage, Unconfirmed)
    else if SucceededEarly(w.form, w.session, step.action, success) then AfterError(step, stage, Unconfirmed)
    else if !Final(stage, step.action, success) then Done
    else if !success then AfterError(step, stage, Unconfirmed)
    else Receipting
  }

  function StepSent(w: World, i: nat, c: Choice): World
    requires i < |w.steps|
  {
    match c.page
    case Rejects(d) => Goto(w, i, AfterRejection(d))
    case Returns(success, checked) => Goto(Noted(w, i, checked), i, AfterReturn(w, i, success, checked))
    case _ => Goto(w, i, AfterError(w.steps[i], w.form.stage, ActionUncertain))
  }

  function StepReceipting(w: World, i: nat, c: Choice): World
    requires i < |w.steps|
  {
    var step := w.steps[i];
    if !c.page.NoReceipt? then Goto(w, i, Recording)
    else if !SnapshotCode(c.page.code) then w
    else if c.page.code.DomainMismatch? then
      Logged(Put(w, i, step.(pc := AfterError(step, w.form.stage, DomainMismatch), lost := true)), LostReceipt(i))
    else Goto(w, i, AfterError(step, w.form.stage, c.page.code))
  }

  // The ledger's record of a confirmed final action.
  function StepRecording(w: World, i: nat, c: Choice): World
    requires i < |w.steps|
  {
    var t := Land(w, RecordOp(w.form.stage), c, Recorded(i));
    if t.log == w.log || !c.fate.Answered? then Goto(t, i, AfterError(w.steps[i], w.form.stage, LedgerRefused))
    else Goto(t, i, if w.form.stage == Generic then Leaving else Announcing)
  }

  function StepReleasing(w: World, i: nat, c: Choice): World
    requires i < |w.steps|
  {
    if w.steps[i].under.None? then Goto(w, i, Clearing)
    else Goto(Land(w, Release, c, Released(i, w.steps[i].under.value)), i, Clearing)
  }

  // The dedupe delete after a release; the flag is cleared only if it answered.
  function StepClearing(w: World, i: nat, c: Choice): World
    requires i < |w.steps|
  {
    if !c.fate.Answered? then Goto(w, i, Done)
    else Logged(Goto(w, i, Done).(session := w.session.(flag := None)), Cleared(i))
  }

  function StepStep(w: World, i: nat, c: Choice): World
    requires i < |w.steps|
  {
    var step, stage := w.steps[i], w.form.stage;
    match step.pc
    case Entered => StepEntered(w, i, c)
    case Acquiring => Goto(w, i, if c.ok then Reserving else Done)
    case Reserving => StepReserving(w, i, c)
    case Marking => StepMarking(w, i, c)
    case Acting => StepActing(w, i, c)
    case Sent => StepSent(w, i, c)
    case Inspecting => Goto(w, i, if c.page.Rejects? then AfterRejection(c.page.drift) else Done)
    case Receipting => StepReceipting(w, i, c)
    case Recording => StepRecording(w, i, c)
    case Announcing => Goto(w, i, if c.fate.Answered? then Leaving else AfterError(step, stage, LedgerRefused))
    case Blocking => Goto(Land(w, RecordLifecycle(CaseState.Blocked, 0), c, BlockedBy(i)), i, Ending)
    case Ending => BeginEnding(Goto(w, i, Waiting(|w.enders|)), true, false)
    case Waiting(x) =>
      if x < |w.enders| && w.enders[x].pc.EDone? then Goto(w, i, AfterError(step, stage, RecipeQuarantined)) else w
    case Releasing => StepReleasing(w, i, c)
    case Clearing => StepClearing(w, i, c)
    case Doubting =>
      Goto(Land(w, RecordUncertain(BrowserForm), c, Doubted(i)), i, if stage == Guided && !c.ok then Done else Leaving)
    case Leaving => Goto(w.(session := w.session.(live := false)), i, Done)
    case Closing => if c.ok then BeginEnding(Goto(w, i, Done), false, true) else Goto(w, i, Done)
    case Done => w
  }

  // A call finds the session; the close action needs no revalidation.
  function EnterStep(w: World, a: Action): World {
    if !w.session.live then w
    else w.(steps := w.steps + [Step(a, if a.CloseSession? then Closing else Entered, None, None, false, false, false)])
  }

  function Next(w: World, e: Event): World {
    match e
    case Enter(a) => EnterStep(w, a)
    case StepOn(i, c) => if i < |w.steps| then StepStep(w, i, c) else w
    case EndOn(x, c) => if x < |w.enders| then EndEnder(w, x, c) else w
    case Expire => if w.session.live then BeginEnding(w, true, false) else w
    case Revoke => if w.session.live then BeginEnding(w, false, false) else w
  }

  function Run(w: World, events: seq<Event>): World {
    if events == [] then w else Next(Run(w, events[..|events| - 1]), events[|events| - 1])
  }
}
