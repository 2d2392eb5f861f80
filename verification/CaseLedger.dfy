// One broker case of the encrypted ledger (lib/cases.mjs): its states, the transition table and
// every operation that can change it. Times are integers (days); evidence lists and free text are dropped.
module CaseLedger {
  import opened Wrappers

  datatype CaseState =
    | New | Searching | Inconclusive | NotFound | Found | IndirectExposure | ActionSelected
    | SubmissionPending | SubmissionUncertain | Submitted | VerificationPending | AwaitingProcessing
    | IdentityRequired | PartiallyRemoved | RequestRejected | ConfirmedRemoved | Reappeared
    | HumanTaskQueued | Blocked

  datatype Channel = SmtpEmail | BrowserWebmail | BrowserForm

  datatype ControllerOutcome =
    | Acknowledged | ErasureConfirmed | PartialErasure | DeletionConfirmed | PartialDeletion | IdentityAsked | Rejected

  datatype Outcome =
    | NoOutcome | Pending | NotStarted | Uncertain
    | HumanNotStarted | HumanConfirmed
    | SmtpAccepted | WebmailSent | FormSuccess | PortalRequested | SuppressionSubmitted
    | ControllerSaid(said: ControllerOutcome)

  // absentAt and recheckAt are direct_absence_observed_at and next_recheck_at.
  datatype Case = Case(
    state: CaseState, channel: Option<Channel>, outcome: Outcome, absentAt: Option<int>, recheckAt: Option<int>)

  const FRESH := Case(New, None, NoOutcome, None, None)

  datatype Observation = DirectPresent | DirectAbsent | DirectInconclusive

  datatype Op =
    | Reserve(channel: Channel, discoveryRequired: bool)
    | ReservePortal
    | Release
    | RecordUncertain(via: Channel)
    | RecordRemoval(webmail: bool, days: nat)
    | RecordForm
    | RecordVerificationRequested
    | RecordSuppression(days: nat)
    | Reconcile(notStarted: bool, days: nat)
    | RecordController(said: ControllerOutcome, days: nat)
    | RecordScan(indirect: bool)
    | RecordBrowserDiscovery
    | RecordDirectRescan(seen: Observation, days: nat)
    | DeferRecheck(days: nat)
    | RecordLifecycle(target: CaseState, days: nat)

  // The rows of the TRANSITIONS table.
  function Allowed(from: CaseState): set<CaseState> {
    match from
    case New =>
      {Searching, Inconclusive, NotFound, Found, IndirectExposure, ActionSelected, VerificationPending,
       HumanTaskQueued, Blocked}
    case Searching => {Inconclusive, NotFound, Found, IndirectExposure, VerificationPending, HumanTaskQueued, Blocked}
    case Inconclusive =>
      {Searching, Inconclusive, NotFound, Found, IndirectExposure, VerificationPending, HumanTaskQueued, Blocked}
    case NotFound => {Searching, Inconclusive, Found, IndirectExposure, VerificationPending, HumanTaskQueued, Blocked}
    case Found =>
      {ActionSelected, SubmissionPending, VerificationPending, Inconclusive, NotFound, IndirectExposure,
       HumanTaskQueued, Blocked}
    case IndirectExposure =>
      {ActionSelected, SubmissionPending, VerificationPending, Inconclusive, NotFound, Found, HumanTaskQueued,
       Blocked}
    case ActionSelected =>
      {SubmissionPending, VerificationPending, Inconclusive, NotFound, Found, HumanTaskQueued, Blocked}
    case SubmissionPending => {Submitted, SubmissionUncertain, ActionSelected, HumanTaskQueued, Blocked}
    case SubmissionUncertain => {Submitted, ActionSelected, HumanTaskQueued, Blocked}
    case Submitted =>
      {VerificationPending, AwaitingProcessing, IdentityRequired, PartiallyRemoved, RequestRejected,
       ConfirmedRemoved, Found, HumanTaskQueued, Blocked}
    case VerificationPending =>
      {SubmissionPending, AwaitingProcessing, IdentityRequired, PartiallyRemoved, RequestRejected,
       ConfirmedRemoved, Found, HumanTaskQueued, Blocked}
    case AwaitingProcessing =>
      {IdentityRequired, PartiallyRemoved, RequestRejected, ConfirmedRemoved, Found, HumanTaskQueued, Blocked}
    case IdentityRequired =>
      {Submitted, AwaitingProcessing, PartiallyRemoved, RequestRejected, ConfirmedRemoved, HumanTaskQueued,
       Blocked}
    case PartiallyRemoved =>
      {ActionSelected, SubmissionPending, AwaitingProcessing, IdentityRequired, RequestRejected, ConfirmedRemoved,
       Reappeared, HumanTaskQueued, Blocked}
    case RequestRejected => {ActionSelected, SubmissionPending, HumanTaskQueued, Blocked}
    case ConfirmedRemoved => {ConfirmedRemoved, Reappeared}
    case Reappeared =>
      {Found, Inconclusive, NotFound, IndirectExposure, ActionSelected, SubmissionPending, VerificationPending,
       HumanTaskQueued, Blocked}
    case HumanTaskQueued =>
      {Searching, Inconclusive, NotFound, Found, IndirectExposure, ActionSelected, SubmissionPending,
       SubmissionUncertain, Submitted, VerificationPending, AwaitingProcessing, IdentityRequired, PartiallyRemoved,
       RequestRejected, ConfirmedRemoved, Blocked}
    case Blocked => {Searching, Inconclusive, NotFound, Found, IndirectExposure, ActionSelected, HumanTaskQueued}
  }

  // The table read by target: from which states a case can move to each.
  predicate LeadsTo(from: CaseState, to: CaseState) {
    match to
    case New => false
    case Searching =>
      from.New? || from.Inconclusive? || from.NotFound? || from.HumanTaskQueued? || from.Blocked?
    case Inconclusive =>
      from.New? || from.Searching? || from.Inconclusive? || from.NotFound? || from.Found? || from.IndirectExposure?
      || from.ActionSelected? || from.Reappeared? || from.HumanTaskQueued? || from.Blocked?
    case NotFound =>
      from.New? || from.Searching? || from.Inconclusive? || from.Found? || from.IndirectExposure?
      || from.ActionSelected? || from.Reappeared? || from.HumanTaskQueued? || from.Blocked?
    case Found =>
      from.New? || from.Searching? || from.Inconclusive? || from.NotFound? || from.IndirectExposure?
      || from.ActionSelected? || InFlight(from) || from.Reappeared? || from.HumanTaskQueued? || from.Blocked?
    case IndirectExposure =>
      from.New? || from.Searching? || from.Inconclusive? || from.NotFound? || from.Found? || from.Reappeared?
      || from.HumanTaskQueued? || from.Blocked?
    case ActionSelected =>
      from.New? || from.Found? || from.IndirectExposure? || from.SubmissionPending? || from.SubmissionUncertain?
      || from.PartiallyRemoved? || from.RequestRejected? || from.Reappeared? || from.HumanTaskQueued? || from.Blocked?
    case SubmissionPending =>
      from.Found? || from.IndirectExposure? || from.ActionSelected? || from.VerificationPending?
      || from.PartiallyRemoved? || from.RequestRejected? || from.Reappeared? || from.HumanTaskQueued?
    case SubmissionUncertain => from.SubmissionPending? || from.HumanTaskQueued?
    case Submitted =>
      from.SubmissionPending? || from.SubmissionUncertain? || from.IdentityRequired? || from.HumanTaskQueued?
    case VerificationPending =>
      from.New? || from.Searching? || from.Inconclusive? || from.NotFound? || from.Found? || from.IndirectExposure?
      || from.ActionSelected? || from.Submitted? || from.Reappeared? || from.HumanTaskQueued?
    case AwaitingProcessing =>
      from.Submitted? || from.VerificationPending? || from.IdentityRequired? || from.PartiallyRemoved?
      || from.HumanTaskQueued?
    case IdentityRequired => InFlight(from) || from.PartiallyRemoved? || from.HumanTaskQueued?
    case PartiallyRemoved => InFlight(from) || from.IdentityRequired? || from.HumanTaskQueued?
    case RequestRejected =>
      InFlight(from) || from.IdentityRequired? || from.PartiallyRemoved? || from.HumanTaskQueued?
    case ConfirmedRemoved =>
      InFlight(from) || from.IdentityRequired? || from.PartiallyRemoved? || from.ConfirmedRemoved?
      || from.HumanTaskQueued?
    case Reappeared => from.PartiallyRemoved? || from.ConfirmedRemoved?
    case HumanTaskQueued => !from.ConfirmedRemoved? && !from.HumanTaskQueued?
    case Blocked => !from.ConfirmedRemoved? && !from.Blocked?
  }

  // The states before a submission is known to have been accepted.
  predicate Early(state: CaseState) {
    state.New? || state.Searching? || state.Inconclusive? || state.NotFound? || state.Found? || state.IndirectExposure?
    || state.ActionSelected? || state.SubmissionPending? || state.SubmissionUncertain?
  }

  lemma TableByTarget(from: CaseState, to: CaseState)
    ensures to in Allowed(from) <==> LeadsTo(from, to)
  {
    if Early(from) {
      if Early(to) { EarlyToEarly(from, to); } else { EarlyToLate(from, to); }
    } else {
      if Early(to) { LateToEarly(from, to); } else { LateToLate(from, to); }
    }
  }

  lemma EarlyToEarly(from: CaseState, to: CaseState)
    requires Early(from) && Early(to)
    ensures to in Allowed(from) <==> LeadsTo(from, to)
  {
  }

  lemma EarlyToLate(from: CaseState, to: CaseState)
    requires Early(from) && !Early(to)
    ensures to in Allowed(from) <==> LeadsTo(from, to)
  {
  }

  lemma LateToEarly(from: CaseState, to: CaseState)
    requires !Early(from) && Early(to)
    ensures to in Allowed(from) <==> LeadsTo(from, to)
  {
  }

  lemma LateToLate(from: CaseState, to: CaseState)
    requires !Early(from) && !Early(to)
    ensures to in Allowed(from) <==> LeadsTo(from, to)
  {
  }

  function Move(c: Case, to: CaseState): Result<Case> {
    if to != c.state && to !in Allowed(c.state) then Failure else Success(c.(state := to))
  }

  // The states that acquireSubmissionDedupe treats as an intent that must not be retried.
  predicate Protected(state: CaseState) {
    state.SubmissionPending? || state.SubmissionUncertain? || state.Submitted? || state.VerificationPending?
    || state.AwaitingProcessing? || state.ConfirmedRemoved?
  }

  // The states that reserveSubmission accepts.
  predicate Reservable(state: CaseState) {
    state.Found? || state.IndirectExposure? || state.ActionSelected? || state.Reappeared? || state.PartiallyRemoved?
    || state.RequestRejected?
  }

  predicate InFlight(state: CaseState) { state.Submitted? || state.VerificationPending? || state.AwaitingProcessing? }

  function ControllerTarget(said: ControllerOutcome): CaseState {
    match said
    case Acknowledged => AwaitingProcessing
    case ErasureConfirmed => ConfirmedRemoved
    case DeletionConfirmed => ConfirmedRemoved
    case PartialErasure => PartiallyRemoved
    case PartialDeletion => PartiallyRemoved
    case IdentityAsked => IdentityRequired
    case Rejected => RequestRejected
  }

  function ApplyReserve(c: Case, channel: Channel, discoveryRequired: bool): Result<Case> {
    var ready := if c.state == New && !discoveryRequired then c.(state := ActionSelected) else c;
    if !Reservable(ready.state) then Failure
    else Success(ready.(state := SubmissionPending, channel := Some(channel), outcome := Pending))
  }

  function ApplyReconcile(c: Case, notStarted: bool, days: nat, at: int): Result<Case> {
    if (!c.state.SubmissionPending? && !c.state.SubmissionUncertain?) || c.channel.None? then Failure
    else if notStarted then Success(c.(state := ActionSelected, outcome := HumanNotStarted, recheckAt := None))
    else
      var sent := c.(state := Submitted, outcome := HumanConfirmed);
      if c.channel.value == BrowserForm then Success(sent.(state := VerificationPending, recheckAt := Some(at + 1)))
      else Success(sent.(recheckAt := Some(at + days)))
  }

  function ApplyController(c: Case, said: ControllerOutcome, days: nat, at: int): Result<Case> {
    if !InFlight(c.state) && !c.state.IdentityRequired? && !c.state.PartiallyRemoved?
       && !c.state.SubmissionUncertain?
    then Failure
    else
      var received := if c.state == SubmissionUncertain then c.(state := Submitted) else c;
      var target := ControllerTarget(said);
      var moved :- Move(received, target);
      var recheck :=
        if target == AwaitingProcessing then Some(at + days)
        else if target == ConfirmedRemoved then None else c.recheckAt;
      Success(moved.(outcome := ControllerSaid(said), recheckAt := recheck))
  }

  function ApplyScan(c: Case, indirect: bool): Result<Case> {
    if !c.state.New? && !c.state.Searching? && !c.state.Inconclusive? && !c.state.IndirectExposure? then Success(c)
    else Move(c, if indirect then IndirectExposure else Inconclusive)
  }

  function ApplyDiscovery(c: Case): Result<Case> {
    if InFlight(c.state) || c.state.ConfirmedRemoved? || c.state.ActionSelected? || c.state.IdentityRequired?
       || c.state.PartiallyRemoved? || c.state.RequestRejected?
    then Success(c) else Move(c, IndirectExposure)
  }

  function ApplyAbsent(c: Case, days: nat, at: int): Result<Case> {
    var moved :-
      if InFlight(c.state) && c.absentAt.None? then
        Success(c.(state := AwaitingProcessing, absentAt := Some(at),
                   recheckAt := if c.recheckAt.None? || c.recheckAt.value <= at then Some(at + 7) else c.recheckAt))
      else if InFlight(c.state) then
        if at <= c.absentAt.value || c.recheckAt.None? || at < c.recheckAt.value
        then Success(c.(state := AwaitingProcessing)) else Success(c.(state := ConfirmedRemoved))
      else if c.state != ConfirmedRemoved then
        var gone :- Move(c, NotFound);
        Success(gone.(absentAt := None))
      else Success(c);
    Success(if moved.state == ConfirmedRemoved then moved.(recheckAt := Some(at + days)) else moved)
  }

  function ApplyDirectRescan(c: Case, seen: Observation, days: nat, at: int): Result<Case> {
    match seen
    case DirectPresent =>
      var moved :- Move(c, if c.state == ConfirmedRemoved then Reappeared else Found);
      Success(moved.(recheckAt := None, absentAt := None))
    case DirectAbsent => ApplyAbsent(c, days, at)
    case DirectInconclusive =>
      var moved :- if InFlight(c.state) || c.state == ConfirmedRemoved then Success(c) else Move(c, Inconclusive);
      Success(moved.(recheckAt := Some(at + 1)))
  }

  function ApplyLifecycle(c: Case, target: CaseState, days: nat, at: int): Result<Case> {
    if target.ConfirmedRemoved? || target.Reappeared? then Failure
    else
      var moved :- Move(c, target);
      Success(moved.(recheckAt :=
        match target
        case VerificationPending => Some(at + 1)
        case AwaitingProcessing => Some(at + days)
        case HumanTaskQueued => None
        case Blocked => None
        case _ => c.recheckAt))
  }

  // One ledger call. withProfile serialises calls and stores the new profile in one write, so a call
  // either takes effect as a whole or not at all.
  function Apply(c: Case, op: Op, at: int): Result<Case> {
    match op
    case Reserve(channel, discoveryRequired) => ApplyReserve(c, channel, discoveryRequired)
    case ReservePortal =>
      if c.state != VerificationPending || c.outcome != PortalRequested then Failure
      else Success(c.(state := SubmissionPending, outcome := Pending))
    case Release =>
      if c.state != SubmissionPending then Failure
      else Success(c.(state := ActionSelected, outcome := NotStarted))
    case RecordUncertain(via) =>
      if c.state != SubmissionPending || c.channel != Some(via) then Failure
      else Success(c.(state := SubmissionUncertain, outcome := Uncertain, recheckAt := None))
    case RecordRemoval(webmail, days) =>
      if c.state != SubmissionPending then Failure
      else
        var outcome := if webmail then WebmailSent else SmtpAccepted;
        Success(c.(state := Submitted, outcome := outcome, recheckAt := Some(at + days)))
    case RecordForm =>
      if c.state != SubmissionPending then Failure
      else Success(c.(state := VerificationPending, outcome := FormSuccess, recheckAt := Some(at + 1)))
    case RecordVerificationRequested =>
      if c.state != SubmissionPending || c.channel != Some(BrowserForm) then Failure
      else Success(c.(state := VerificationPending, outcome := PortalRequested, recheckAt := Some(at)))
    case RecordSuppression(days) =>
      if c.state != SubmissionPending then Failure
      else Success(c.(state := AwaitingProcessing, outcome := SuppressionSubmitted, recheckAt := Some(at + days)))
    case Reconcile(notStarted, days) => ApplyReconcile(c, notStarted, days, at)
    case RecordController(said, days) => ApplyController(c, said, days, at)
    case RecordScan(indirect) => ApplyScan(c, indirect)
    case RecordBrowserDiscovery => ApplyDiscovery(c)
    case RecordDirectRescan(seen, days) => ApplyDirectRescan(c, seen, days, at)
    case DeferRecheck(days) => Success(c.(recheckAt := Some(at + days)))
    case RecordLifecycle(target, days) => ApplyLifecycle(c, target, days, at)
  }

  // ---- Properties of single calls

  // Every state change the ledger makes, whatever the operation, is a path in the transition table:
  // no operation has a private shortcut (recordFormSubmission and its like use two rows in one call).
  lemma EveryCallFollowsTheTable(c: Case, op: Op, at: int)
    requires Apply(c, op, at).Success?
    ensures var to := Apply(c, op, at).value.state;
      to == c.state || to in Allowed(c.state)
      || exists mid :: mid in Allowed(c.state) && to in Allowed(mid)
  {
    var to := Apply(c, op, at).value.state;
    if op.Reserve? && c.state == New {
      assert ActionSelected in Allowed(c.state) && to in Allowed(ActionSelected);
    }
    if op.RecordForm? || op.RecordVerificationRequested? || op.RecordSuppression? || op.Reconcile?
       || op.RecordController?
    {
      assert Submitted in Allowed(SubmissionPending) && Submitted in Allowed(SubmissionUncertain);
      assert to in Allowed(c.state) || to == c.state || to in Allowed(Submitted);
    }
  }

  // Which calls take a case out of the protected states.
  predicate Reopens(c: Case, op: Op) {
    match op
    case Release => c.state == SubmissionPending
    case Reconcile(notStarted, _) =>
      notStarted && (c.state.SubmissionPending? || c.state.SubmissionUncertain?) && c.channel.Some?
    case RecordController(said, _) =>
      (InFlight(c.state) || c.state == SubmissionUncertain) && !Protected(ControllerTarget(said))
    case RecordDirectRescan(seen, _) => seen == DirectPresent && (InFlight(c.state) || c.state == ConfirmedRemoved)
    case RecordLifecycle(target, _) =>
      Protected(c.state) && !Protected(target) && target != Reappeared && target in Allowed(c.state)
    case _ => false
  }

  lemma ProtectionIsLeftOnlyBy(c: Case, op: Op, at: int)
    ensures Reopens(c, op) <==>
      Protected(c.state) && Apply(c, op, at).Success? && !Protected(Apply(c, op, at).value.state)
  {
  }

  // A submission is reserved only out of an unprotected state, whatever the channel.
  lemma ReserveRefusesProtected(c: Case, channel: Channel, discoveryRequired: bool, at: int)
    ensures Apply(c, Reserve(channel, discoveryRequired), at).Success? ==>
      !Protected(c.state) && Apply(c, Reserve(channel, discoveryRequired), at).value.state == SubmissionPending
  {
  }

  // When a reservation succeeds: from one of the six states that wait for a submission, or from a new case
  // whose broker asks for no discovery first.
  lemma ReserveSucceedsIff(c: Case, channel: Channel, discoveryRequired: bool, at: int)
    ensures var r := Apply(c, Reserve(channel, discoveryRequired), at);
      && (r.Success? <==>
        || c.state.Found? || c.state.IndirectExposure? || c.state.ActionSelected? || c.state.Reappeared?
        || c.state.PartiallyRemoved? || c.state.RequestRejected? || (c.state.New? && !discoveryRequired))
      && (r.Success? ==>
        r.value == c.(state := SubmissionPending, channel := Some(channel), outcome := Pending))
  {
  }

  // The calls that end a reservation. Each is accepted exactly for a pending case (two only by channel), and says
  // what became of it; the portal form reserves again a case that only asked for its link.
  lemma PendingOutcome(c: Case, op: Op, at: int)
    requires op.Release? || op.RecordUncertain? || op.RecordRemoval? || op.RecordForm?
      || op.RecordVerificationRequested?
      || op.RecordSuppression?
    ensures Apply(c, op, at).Success? <==>
      c.state.SubmissionPending? && (op.RecordUncertain? ==> c.channel == Some(op.via))
      && (op.RecordVerificationRequested? ==> c.channel == Some(BrowserForm))
    ensures Apply(c, op, at).Success? ==>
      var d := Apply(c, op, at).value;
      && d.channel == c.channel && d.absentAt == c.absentAt
      && (op.Release? <==> d.state.ActionSelected?) && (op.Release? <==> d.outcome.NotStarted?)
      && (op.RecordUncertain? <==> d.state.SubmissionUncertain?) && (op.RecordUncertain? <==> d.outcome.Uncertain?)
      && (op.RecordRemoval? <==> d.state.Submitted?) && (op.RecordSuppression? <==> d.state.AwaitingProcessing?)
      && (op.RecordRemoval? ==> d.outcome == if op.webmail then WebmailSent else SmtpAccepted)
      && (op.RecordForm? <==> d.outcome.FormSuccess?) && (op.RecordSuppression? <==> d.outcome.SuppressionSubmitted?)
      && (op.RecordVerificationRequested? <==> d.outcome.PortalRequested?)
      && (op.Release? ==> d.recheckAt == c.recheckAt)
  {
  }

  lemma PortalReservationIff(c: Case, at: int)
    ensures var r := Apply(c, ReservePortal, at);
      && (r.Success? <==> c.state.VerificationPending? && c.outcome.PortalRequested?)
      && (r.Success? ==> r.value == c.(state := SubmissionPending, outcome := Pending))
  {
  }

  // ---- What replies, rescans and reviews make of a case

  // Operator reviews settle exactly the pending and uncertain cases: one found not started may be tried again, one
  // found sent counts as submitted, a form's as waiting for its verification.
  lemma ReviewOutcome(c: Case, notStarted: bool, days: nat, at: int)
    ensures var r := Apply(c, Reconcile(notStarted, days), at);
      && (r.Success? <==> (c.state.SubmissionPending? || c.state.SubmissionUncertain?) && c.channel.Some?)
      && (r.Success? ==>
        && r.value.channel == c.channel && r.value.absentAt == c.absentAt
        && (notStarted ==>
          r.value.state.ActionSelected? && r.value.outcome.HumanNotStarted? && r.value.recheckAt.None?)
        && (!notStarted ==>
          && r.value.outcome.HumanConfirmed?
          && if c.channel == Some(BrowserForm) then
               r.value.state.VerificationPending? && r.value.recheckAt == Some(at + 1)
             else r.value.state.Submitted? && r.value.recheckAt == Some(at + days)))
  {
  }

  // A controller's reply is accepted for every case that was sent out and is not closed, uncertain ones included.
  lemma ReplyOutcome(c: Case, said: ControllerOutcome, days: nat, at: int)
    ensures var r := Apply(c, RecordController(said, days), at);
      && (r.Success? <==>
        || c.state.Submitted? || c.state.VerificationPending? || c.state.AwaitingProcessing?
        || c.state.IdentityRequired? || c.state.PartiallyRemoved? || c.state.SubmissionUncertain?)
      && (r.Success? ==>
        && r.value.outcome == ControllerSaid(said) && r.value.channel == c.channel && r.value.absentAt == c.absentAt
        && match said
           case Acknowledged => r.value.state.AwaitingProcessing? && r.value.recheckAt == Some(at + days)
           case ErasureConfirmed => r.value.state.ConfirmedRemoved? && r.value.recheckAt.None?
           case DeletionConfirmed => r.value.state.ConfirmedRemoved? && r.value.recheckAt.None?
           case PartialErasure => r.value.state.PartiallyRemoved? && r.value.recheckAt == c.recheckAt
           case PartialDeletion => r.value.state.PartiallyRemoved? && r.value.recheckAt == c.recheckAt
           case IdentityAsked => r.value.state.IdentityRequired? && r.value.recheckAt == c.recheckAt
           case Rejected => r.value.state.RequestRejected? && r.value.recheckAt == c.recheckAt)
  {
  }

  // A listing seen again reopens a case, whatever was known about its absence.
  lemma PresenceOutcome(c: Case, days: nat, at: int)
    ensures var r := Apply(c, RecordDirectRescan(DirectPresent, days), at);
      && (r.Success? <==> c.state.ConfirmedRemoved? || c.state.Found? || LeadsTo(c.state, Found))
      && (r.Success? ==>
        var seen := if c.state.ConfirmedRemoved? then Reappeared else Found;
        r.value == c.(state := seen, recheckAt := None, absentAt := None))
  {
    TableByTarget(c.state, Found);
    TableByTarget(c.state, Reappeared);
  }

  // The first absence of a case in flight sets a second look a week later, unless one is still to come; a later
  // absence confirms the removal exactly when that look is due, and an earlier one changes nothing but the
  // state. Outside these states an absence says "not found", where the table lets it.
  lemma AbsenceOutcome(c: Case, days: nat, at: int)
    ensures var r := Apply(c, RecordDirectRescan(DirectAbsent, days), at);
      && (InFlight(c.state) && c.absentAt.None? ==>
        var due := if c.recheckAt.Some? && c.recheckAt.value > at then c.recheckAt else Some(at + 7);
        r == Success(c.(state := AwaitingProcessing, absentAt := Some(at), recheckAt := due)))
      && (InFlight(c.state) && c.absentAt.Some? ==>
        r == Success(
          if at > c.absentAt.value && c.recheckAt.Some? && at >= c.recheckAt.value then
            c.(state := ConfirmedRemoved, recheckAt := Some(at + days))
          else c.(state := AwaitingProcessing)))
      && (c.state.ConfirmedRemoved? ==> r == Success(c.(recheckAt := Some(at + days))))
      && (!InFlight(c.state) && !c.state.ConfirmedRemoved? ==>
        if c.state.NotFound? || LeadsTo(c.state, NotFound) then r == Success(c.(state := NotFound, absentAt := None))
        else r.Failure?)
  {
    TableByTarget(c.state, NotFound);
  }

  // What a scan could not decide leaves sent and closed cases alone and is looked at again the next day.
  lemma DoubtOutcome(c: Case, days: nat, at: int)
    ensures var r := Apply(c, RecordDirectRescan(DirectInconclusive, days), at);
      if InFlight(c.state) || c.state.ConfirmedRemoved? then r == Success(c.(recheckAt := Some(at + 1)))
      else if c.state.Inconclusive? || LeadsTo(c.state, Inconclusive) then
        r == Success(c.(state := Inconclusive, recheckAt := Some(at + 1)))
      else r.Failure?
  {
    TableByTarget(c.state, Inconclusive);
  }

  // Searches touch only cases that nothing has been done about yet.
  lemma SearchOutcome(c: Case, indirect: bool, at: int)
    ensures var r := Apply(c, RecordScan(indirect), at);
      if c.state.New? || c.state.Searching? || c.state.Inconclusive? || (c.state.IndirectExposure? && indirect) then
        r == Success(c.(state := if indirect then IndirectExposure else Inconclusive))
      else if c.state.IndirectExposure? then r == Success(c.(state := Inconclusive))
      else r == Success(c)
    ensures var r := Apply(c, RecordBrowserDiscovery, at);
      if LeadsTo(c.state, IndirectExposure) || c.state.IndirectExposure? then
        r == Success(c.(state := IndirectExposure))
      else if c.state.SubmissionPending? || c.state.SubmissionUncertain? then r.Failure?
      else r == Success(c)
  {
    TableByTarget(c.state, IndirectExposure);
    TableByTarget(c.state, Inconclusive);
  }

  // An operator's own change of state follows the table, never says "removed" or "reappeared", and sets the next
  // look that its target asks for.
  lemma LifecycleOutcome(c: Case, target: CaseState, days: nat, at: int)
    ensures var r := Apply(c, RecordLifecycle(target, days), at);
      && (r.Success? <==>
        !target.ConfirmedRemoved? && !target.Reappeared? && (target == c.state || LeadsTo(c.state, target)))
      && (r.Success? ==>
        var due :=
          if target.VerificationPending? then Some(at + 1)
          else if target.AwaitingProcessing? then Some(at + days)
          else if target.HumanTaskQueued? || target.Blocked? then None else c.recheckAt;
        r.value == c.(state := target, recheckAt := due))
    ensures Apply(c, DeferRecheck(days), at) == Success(c.(recheckAt := Some(at + days)))
  {
    TableByTarget(c.state, target);
  }

  // ---- Properties of whole histories

  datatype Call = Call(op: Op, at: int)

  // A refused call leaves the case as it was.
  function After(c: Case, call: Call): Case {
    var r := Apply(c, call.op, call.at);
    if r.Success? then r.value else c
  }

  function History(calls: seq<Call>): Case {
    if calls == [] then FRESH else After(History(calls[..|calls| - 1]), calls[|calls| - 1])
  }

  // Accepted calls take effect in the order they are made, and refused ones leave no trace.
  lemma HistoryGrows(calls: seq<Call>, call: Call)
    ensures var before, after := History(calls), History(calls + [call]);
      var r := Apply(before, call.op, call.at);
      after == if r.Success? then r.value else before
  {
    assert (calls + [call])[..|calls|] == calls;
  }

  predicate ControllerConfirmed(call: Call) {
    call.op.RecordController? && (call.op.said.ErasureConfirmed? || call.op.said.DeletionConfirmed?)
  }

  predicate AbsentAt(call: Call, t: int) {
    call.op.RecordDirectRescan? && call.op.seen == DirectAbsent && call.at == t
  }

  // Call i of this history was not refused.
  predicate Accepted(calls: seq<Call>, i: nat) {
    i < |calls| && Apply(History(calls[..i]), calls[i].op, calls[i].at).Success?
  }

  ghost predicate SawAbsence(calls: seq<Call>, t: int) {
    exists i: nat :: i < |calls| && AbsentAt(calls[i], t) && Accepted(calls, i)
  }

  // Either a reviewed controller reply, or two direct absences, the later strictly after the earlier; all of
  // them calls that the ledger accepted.
  ghost predicate RemovalEvidence(calls: seq<Call>) {
    || (exists i: nat :: i < |calls| && ControllerConfirmed(calls[i]) && Accepted(calls, i))
    || (exists t, u :: t < u && SawAbsence(calls, t) && SawAbsence(calls, u))
  }

  lemma AcceptedStays(calls: seq<Call>, call: Call, i: nat)
    requires i < |calls| && Accepted(calls, i)
    ensures Accepted(calls + [call], i) && (calls + [call])[i] == calls[i]
  {
    assert (calls + [call])[..i] == calls[..i];
  }

  lemma EvidenceGrows(calls: seq<Call>, call: Call)
    ensures forall t :: SawAbsence(calls, t) ==> SawAbsence(calls + [call], t)
    ensures RemovalEvidence(calls) ==> RemovalEvidence(calls + [call])
  {
    forall t | SawAbsence(calls, t) ensures SawAbsence(calls + [call], t) {
      var i: nat :| i < |calls| && AbsentAt(calls[i], t) && Accepted(calls, i);
      AcceptedStays(calls, call, i);
    }
    if i: nat :| i < |calls| && ControllerConfirmed(calls[i]) && Accepted(calls, i) {
      AcceptedStays(calls, call, i);
    }
  }

  // What one call needs to confirm a removal, and what it can note as the first absence.
  lemma CallConfirmsOnly(c: Case, call: Call)
    ensures var d := After(c, call);
      && (d.state.ConfirmedRemoved? && !c.state.ConfirmedRemoved? ==>
        ControllerConfirmed(call) || (AbsentAt(call, call.at) && c.absentAt.Some? && c.absentAt.value < call.at))
      && (d.state.Reappeared? ==> c.state.Reappeared? || c.state.ConfirmedRemoved?)
      && (d.absentAt.Some? && d.absentAt != c.absentAt ==> AbsentAt(call, call.at) && d.absentAt.value == call.at)
      && (d != c ==> Apply(c, call.op, call.at).Success?)
  {
  }

  lemma LastCallIsEvidence(before: seq<Call>, call: Call)
    requires Apply(History(before), call.op, call.at).Success?
    ensures AbsentAt(call, call.at) ==> SawAbsence(before + [call], call.at)
    ensures ControllerConfirmed(call) ==> RemovalEvidence(before + [call])
  {
    var calls := before + [call];
    assert calls[..|before|] == before && calls[|before|] == call && Accepted(calls, |before|);
  }

  ghost predicate Evident(calls: seq<Call>, c: Case) {
    && (c.absentAt.Some? ==> SawAbsence(calls, c.absentAt.value))
    && (c.state.ConfirmedRemoved? || c.state.Reappeared? ==> RemovalEvidence(calls))
  }

  lemma NextCallIsEvident(before: seq<Call>, call: Call, c: Case)
    requires c == History(before) && Evident(before, c)
    ensures Evident(before + [call], After(c, call))
  {
    var d := After(c, call);
    EvidenceGrows(before, call);
    CallConfirmsOnly(c, call);
    if d != c {
      LastCallIsEvidence(before, call);
      if d.state.ConfirmedRemoved? && !c.state.ConfirmedRemoved? && !ControllerConfirmed(call) {
        assert c.absentAt.value < call.at && SawAbsence(before + [call], c.absentAt.value);
      }
    }
  }

  // The confirmed state is never reached without evidence, in any history of calls: not from SMTP
  // acceptance, search-index results, a single absence, a refused call, or an operator's lifecycle note.
  lemma {:induction false} ConfirmedNeedsEvidence(calls: seq<Call>)
    ensures History(calls).absentAt.Some? ==> SawAbsence(calls, History(calls).absentAt.value)
    ensures History(calls).state.ConfirmedRemoved? || History(calls).state.Reappeared? ==> RemovalEvidence(calls)
  {
    if calls != [] {
      var before, call := calls[..|calls| - 1], calls[|calls| - 1];
      assert calls == before + [call];
      ConfirmedNeedsEvidence(before);
      NextCallIsEvident(before, call, History(before));
    }
  }

  // A requested portal verification always stems from a browser-form submission.
  predicate PortalByForm(c: Case) { c.outcome == PortalRequested ==> c.channel == Some(BrowserForm) }

  lemma {:induction false} PortalRequestStemsFromForm(calls: seq<Call>)
    ensures PortalByForm(History(calls))
  {
    if calls != [] {
      PortalRequestStemsFromForm(calls[..|calls| - 1]);
    }
  }
}
