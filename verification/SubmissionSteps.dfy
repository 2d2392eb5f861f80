// The way of a submitter to its attempt and back: in every run an attempt follows its own registration,
// reservation and mark, each of which answered; and what the steps after it leave.
module SubmissionSteps {
  import opened Wrappers
  import opened CaseLedger
  import opened ProviderOutcomes
  import opened SubmissionProtocol
  import opened SubmissionOutcomes

  // ---- How a submitter gets to each point

  // The ledger takes this submitter's reservation.
  predicate LedgerTakes(c: Case, discoveryRequired: bool) {
    c.state.Found? || c.state.IndirectExposure? || c.state.ActionSelected? || c.state.Reappeared?
    || c.state.PartiallyRemoved? || c.state.RequestRejected? || (c.state.New? && !discoveryRequired)
  }

  // Event e takes submitter i to this point: the dedupe registration answered and found nothing, the ledger took
  // the reservation and answered, the mark answered; a form step may also join the reservation of its session.
  predicate ComesBy(s: State, e: Event, i: nat, to: Pc) {
    && e.Step? && e.i == i && i < |s.subs|
    && var (sub, c) := (s.subs[i], e.choice);
       match to
       case Acquired => (sub.pc.Registering? || sub.pc.Retrying?) && c.fate.Answered? && sub.kind !in s.dedupe
       case Reserved => sub.pc.Acquired? && c.fate.Answered? && LedgerTakes(s.record, sub.discoveryRequired)
       case PortalSeen =>
         sub.pc.PortalLook? && c.fate.Answered? && sub.kind in s.dedupe
         && s.dedupe[sub.kind].PortalVerificationRequested?
       case PortalReserved =>
         sub.pc.PortalSeen? && c.fate.Answered? && s.record.state.VerificationPending?
         && s.record.outcome.PortalRequested?
       case Open =>
         && c.fate.Answered?
         && if sub.pc.Start? then sub.writer.FormStep? && Joins(s, sub.writer)
            else sub.pc.Reserved? || sub.pc.PortalReserved?
       case _ => false
  }

  // The session's flag names a reservation to act under, or the step needs none.
  predicate Joins(s: State, w: Writer)
    requires w.FormStep?
  {
    w.session < |s.sessions| && (s.sessions[w.session].flag.Some? || !w.click)
  }

  predicate OnTheWay(pc: Pc) { pc.Acquired? || pc.Reserved? || pc.PortalSeen? || pc.PortalReserved? || pc.Open? }

  lemma NewOneStarts(s: State, e: Event, i: nat)
    requires |s.subs| <= i < |Next(s, e).subs|
    ensures var pc := Next(s, e).subs[i].pc; pc.Start? || pc.Doubting?
  {
    if e.Step? && e.i < |s.subs| { StepMovesOne(s, e.i, e.choice); }
  }

  predicate InPortal(pc: Pc) { pc.PortalLook? || pc.PortalSeen? || pc.PortalReserved? }

  // What one step does to its submitter's place: it keeps its writer, comes to each point as told above,
  // and ends no cooldown but its own, by its release.
  predicate GoesOn(s: State, t: State, i: nat, c: Choice)
    requires i < |s.subs|
  {
    && i < |t.subs| && t.subs[i].writer == s.subs[i].writer
    && (InPortal(t.subs[i].pc) ==> s.subs[i].writer.FormStep? || InPortal(s.subs[i].pc))
    && (OnTheWay(t.subs[i].pc) && t.subs[i].pc != s.subs[i].pc ==> ComesBy(s, Step(i, c), i, t.subs[i].pc))
    && (s.scopes <= t.scopes
        || (s.subs[i].pc.Releasing? && CoolsDown(s.subs[i].writer) && t.scopes == s.scopes - {s.subs[i].kind}))
  }

  lemma StartComes(s: State, i: nat, c: Choice)
    requires i < |s.subs| && s.subs[i].pc.Start?
    ensures GoesOn(s, StepSubmitter(s, i, c), i, c)
  {
    assert StepSubmitter(s, i, c) == StepStart(s, i, c);
  }

  lemma RegisterComes(s: State, i: nat, c: Choice)
    requires i < |s.subs|
    requires var pc := s.subs[i].pc; pc.Registering? || pc.Retrying? || pc.Evicting? || pc.Backout?
    ensures GoesOn(s, StepSubmitter(s, i, c), i, c)
  {
  }

  lemma ReserveComes(s: State, i: nat, c: Choice)
    requires i < |s.subs| && s.subs[i].pc.Acquired?
    ensures GoesOn(s, StepSubmitter(s, i, c), i, c)
  {
    assert StepSubmitter(s, i, c) == StepReserve(s, i, c);
    ReserveSucceedsIff(s.record, ChannelOf(s.subs[i].writer), s.subs[i].discoveryRequired, c.at);
  }

  lemma PortalComes(s: State, i: nat, c: Choice)
    requires i < |s.subs| && s.subs[i].pc.PortalSeen?
    ensures GoesOn(s, StepPortalReserve(s, i, c), i, c)
  {
    PortalReservationIff(s.record, c.at);
  }

  lemma MarkComes(s: State, i: nat, c: Choice)
    requires i < |s.subs| && s.subs[i].pc.Reserved?
    ensures GoesOn(s, StepMark(s, i, c), i, c)
  {
  }

  lemma PortalMarkComes(s: State, i: nat, c: Choice)
    requires i < |s.subs| && s.subs[i].pc.PortalReserved?
    ensures GoesOn(s, StepPortalMark(s, i, c), i, c)
  {
  }

  lemma ReturnComes(s: State, i: nat, c: Choice)
    requires i < |s.subs| && s.subs[i].pc.Dispatched?
    ensures GoesOn(s, StepReturn(s, i, c), i, c)
  {
  }

  lemma RecordComes(s: State, i: nat, c: Choice)
    requires i < |s.subs| && s.subs[i].pc.Recording?
    ensures GoesOn(s, StepRecord(s, i, c), i, c)
  {
  }

  lemma DoubtComes(s: State, i: nat, c: Choice)
    requires i < |s.subs| && s.subs[i].pc.Doubting?
    ensures GoesOn(s, StepDoubt(s, i, c), i, c)
  {
  }

  lemma AnnounceComes(s: State, i: nat, c: Choice)
    requires i < |s.subs| && s.subs[i].pc.Announcing?
    ensures GoesOn(s, StepAnnounce(s, i, c), i, c)
  {
  }

  lemma ReleaseComes(s: State, i: nat, c: Choice)
    requires i < |s.subs| && s.subs[i].pc.Releasing?
    ensures GoesOn(s, StepRelease(s, i, c), i, c)
  {
  }

  lemma CleanComes(s: State, i: nat, c: Choice)
    requires i < |s.subs| && s.subs[i].pc.Cleaning?
    ensures GoesOn(s, StepClean(s, i, c), i, c)
  {
  }

  lemma AttemptComes(s: State, i: nat, c: Choice)
    requires i < |s.subs| && s.subs[i].pc.Open?
    ensures GoesOn(s, StepSubmitter(s, i, c), i, c)
  {
    var t := StepSubmitter(s, i, c);
    assert t == if s.subs[i].writer.FormStep? then StepAct(s, i, c) else StepTool(s, i, c);
  }

  predicate Settling(pc: Pc) {
    pc.Dispatched? || pc.Recording? || pc.Doubting? || pc.Announcing? || pc.Releasing? || pc.Cleaning?
  }

  lemma SettlingComes(s: State, i: nat, c: Choice)
    requires i < |s.subs| && Settling(s.subs[i].pc)
    ensures GoesOn(s, StepSubmitter(s, i, c), i, c)
  {
    match s.subs[i].pc
    case Dispatched => ReturnComes(s, i, c);
    case Recording => RecordComes(s, i, c);
    case Doubting => DoubtComes(s, i, c);
    case Announcing => AnnounceComes(s, i, c);
    case Releasing => ReleaseComes(s, i, c);
    case Cleaning => CleanComes(s, i, c);
    case _ =>
  }

  lemma RestingComes(s: State, i: nat, c: Choice)
    requires i < |s.subs|
    requires var pc := s.subs[i].pc;
      pc.Contended? || pc.Inspected? || pc.Forgetting? || pc.Closing? || pc.PortalLook? || pc.Ended?
    ensures GoesOn(s, StepSubmitter(s, i, c), i, c)
  {
  }

  lemma StepComes(s: State, i: nat, c: Choice)
    requires i < |s.subs|
    ensures GoesOn(s, StepSubmitter(s, i, c), i, c)
  {
    var pc := s.subs[i].pc;
    if pc.Start? { StartComes(s, i, c); }
    else if pc.Acquired? { ReserveComes(s, i, c); }
    else if pc.Open? { AttemptComes(s, i, c); }
    else if pc.Registering? || pc.Retrying? || pc.Evicting? || pc.Backout? { RegisterComes(s, i, c); }
    else if pc.PortalSeen? {
      PortalComes(s, i, c);
      assert StepSubmitter(s, i, c) == StepPortalReserve(s, i, c);
    } else if pc.Reserved? {
      MarkComes(s, i, c);
      assert StepSubmitter(s, i, c) == StepMark(s, i, c);
    } else if pc.PortalReserved? {
      PortalMarkComes(s, i, c);
      assert StepSubmitter(s, i, c) == StepPortalMark(s, i, c);
    }
    else if Settling(pc) { SettlingComes(s, i, c); }
    else { RestingComes(s, i, c); }
  }

  lemma NextComes(s: State, e: Event, i: nat)
    requires i < |Next(s, e).subs| && OnTheWay(Next(s, e).subs[i].pc)
    ensures i < |s.subs| && (s.subs[i].pc == Next(s, e).subs[i].pc || ComesBy(s, e, i, Next(s, e).subs[i].pc))
  {
    if i >= |s.subs| {
      NewOneStarts(s, e, i);
    } else if !Touches(e, i) {
      OthersLeaveIt(s, e, i);
    } else if e.Step? {
      StepComes(s, i, e.choice);
    }
  }

  predicate CameAt(events: seq<Event>, m: nat, i: nat, to: Pc) {
    m < |events| && ComesBy(Run(INITIAL, events[..m]), events[m], i, to)
  }

  lemma {:induction false} CameSome(events: seq<Event>, i: nat)
    requires i < |Run(INITIAL, events).subs| && OnTheWay(Run(INITIAL, events).subs[i].pc)
    ensures exists m: nat :: m < |events| && CameAt(events, m, i, Run(INITIAL, events).subs[i].pc)
  {
    if events != [] {
      var front, e := events[..|events| - 1], events[|events| - 1];
      var pc := Run(INITIAL, events).subs[i].pc;
      NextComes(Run(INITIAL, front), e, i);
      if ComesBy(Run(INITIAL, front), e, i, pc) {
        assert CameAt(events, |front|, i, pc);
      } else {
        CameSome(front, i);
        var m: nat :| m < |front| && CameAt(front, m, i, pc);
        CameEarlier(events, |front|, m, i, pc);
      }
    }
  }

  lemma CameEarlier(events: seq<Event>, n: nat, m: nat, i: nat, to: Pc)
    requires m < n <= |events| && CameAt(events[..n], m, i, to)
    ensures CameAt(events, m, i, to)
  {
    assert events[..n][..m] == events[..m];
  }

  // The point a submitter was at when an event took it further was itself come to by an earlier event.
  lemma CameBefore(events: seq<Event>, n: nat, i: nat, at: Pc)
    requires n < |events| && i < |Run(INITIAL, events[..n]).subs|
    requires Run(INITIAL, events[..n]).subs[i].pc == at && OnTheWay(at)
    ensures exists m: nat :: m < n && CameAt(events, m, i, at)
  {
    CameSome(events[..n], i);
    var m: nat :| m < n && CameAt(events[..n], m, i, at);
    CameEarlier(events, n, m, i, at);
  }

  // In every run, a tool about to make its attempt has registered its dedupe record, then reserved the case, then
  // marked the record, in this order and with an answer each time: nothing goes out otherwise.
  lemma AttemptsFollowTheirIntent(events: seq<Event>, i: nat)
    requires i < |Run(INITIAL, events).subs| && Run(INITIAL, events).subs[i].pc.Open?
    requires !Run(INITIAL, events).subs[i].writer.FormStep?
    ensures exists m: nat :: m < |events| && CameAt(events, m, i, Open) && IntentBefore(events, m, i)
  {
    CameSome(events, i);
    var m: nat :| m < |events| && CameAt(events, m, i, Open);
    WriterStays(events, m, i);
    var at := Run(INITIAL, events[..m]).subs[i].pc;
    CameBefore(events, m, i, at);
    assert at.Reserved? by {
      if at.PortalReserved? { PortalIsForSteps(events[..m], i); }
    }
    var b: nat :| b < m && CameAt(events, b, i, at);
    CameBefore(events, b, i, Acquired);
    var a: nat :| a < b && CameAt(events, a, i, Acquired);
    assert RegisteredBefore(events, b, i);
  }

  ghost predicate RegisteredBefore(events: seq<Event>, b: nat, i: nat) {
    exists a: nat :: a < b && CameAt(events, a, i, Acquired)
  }

  ghost predicate IntentBefore(events: seq<Event>, m: nat, i: nat) {
    exists b: nat :: b < m && CameAt(events, b, i, Reserved) && RegisteredBefore(events, b, i)
  }

  lemma StepKeepsWriter(s: State, e: Event, i: nat)
    requires i < |s.subs|
    ensures i < |Next(s, e).subs| && Next(s, e).subs[i].writer == s.subs[i].writer
  {
    if !Touches(e, i) { OthersLeaveIt(s, e, i); } else if e.Step? { StepComes(s, i, e.choice); }
  }

  lemma {:induction false} WriterStays(events: seq<Event>, m: nat, i: nat)
    requires m <= |events| && i < |Run(INITIAL, events[..m]).subs|
    ensures i < |Run(INITIAL, events).subs|
    ensures Run(INITIAL, events).subs[i].writer == Run(INITIAL, events[..m]).subs[i].writer
  {
    if m < |events| {
      var front := events[..|events| - 1];
      assert front[..m] == events[..m];
      WriterStays(front, m, i);
      StepKeepsWriter(Run(INITIAL, front), events[|events| - 1], i);
    } else {
      assert events[..m] == events;
    }
  }

  // Only form steps go by the portal.
  lemma {:induction false} PortalIsForSteps(events: seq<Event>, i: nat)
    requires i < |Run(INITIAL, events).subs| && InPortal(Run(INITIAL, events).subs[i].pc)
    ensures Run(INITIAL, events).subs[i].writer.FormStep?
  {
    if events != [] {
      var front, e := events[..|events| - 1], events[|events| - 1];
      PortalStep(Run(INITIAL, front), e, i);
      if !Run(INITIAL, events).subs[i].writer.FormStep? { PortalIsForSteps(front, i); }
    }
  }

  lemma PortalStep(s: State, e: Event, i: nat)
    requires i < |Next(s, e).subs| && InPortal(Next(s, e).subs[i].pc)
    ensures i < |s.subs| && s.subs[i].writer == Next(s, e).subs[i].writer
    ensures s.subs[i].writer.FormStep? || InPortal(s.subs[i].pc)
  {
    if i >= |s.subs| { NewOneStarts(s, e, i); }
    else if !Touches(e, i) { OthersLeaveIt(s, e, i); }
    else if e.Step? { StepComes(s, i, e.choice); }
  }

  // ---- What the steps leave

  // The session a form step belongs to.
  predicate InSession(s: State, i: nat, k: nat) {
    i < |s.subs| && s.subs[i].writer.FormStep? && s.subs[i].writer.session == k && k < |s.sessions|
  }

  predicate CoolsDown(w: Writer) { w.SmtpTool? || w.FormTool? }

  // A tool starts unless its request is in its cooldown. A form step takes on its session's reservation; a click
  // without one makes its own, in the guided stage through the portal.
  lemma StartsIff(s: State, i: nat, c: Choice, k: nat)
    requires i < |s.subs| && s.subs[i].pc.Start?
    ensures !s.subs[i].writer.FormStep? ==>
      var sub := s.subs[i];
      Next(s, Step(i, c)) == Goto(s, i,
        if c.fate.Answered? && !(CoolsDown(sub.writer) && sub.kind in s.scopes) then Registering else Ended)
    ensures InSession(s, i, k) && c.fate.Answered? ==>
      var sub, flag, t := s.subs[i], s.sessions[k].flag, Next(s, Step(i, c));
      && t == s.(subs := t.subs) && |t.subs| == |s.subs|
      && t.subs[i] == sub.(intent := flag, own := false, pc :=
        if flag.Some? || !sub.writer.click then Open
        else if s.sessions[k].stage.Guided? then PortalLook else Registering)
    ensures InSession(s, i, k) && !c.fate.Answered? ==> Next(s, Step(i, c)) == Goto(s, i, Ended)
  {
  }

  // A reservation that takes effect makes the case pending under its writer's channel, whether or not the call
  // answers; only one that answers is held.
  lemma ReservationLeaves(s: State, i: nat, c: Choice)
    requires i < |s.subs| && s.subs[i].pc.Acquired?
    ensures var sub, t := s.subs[i], Next(s, Step(i, c));
      && i < |t.subs| && t.dedupe == s.dedupe && t.scopes == s.scopes && t.sessions == s.sessions
      && (LedgerTakes(s.record, sub.discoveryRequired) && c.fate.Applies() ==>
        && t.record.state.SubmissionPending? && t.record.outcome.Pending? && t.reserved
        && t.record.channel == Some(
          if sub.writer.SmtpTool? || sub.writer.ParityTool? then SmtpEmail
          else if sub.writer.WebmailSend? then BrowserWebmail else BrowserForm))
      && (!LedgerTakes(s.record, sub.discoveryRequired) || !c.fate.Applies() ==> t.record == s.record)
      && (LedgerTakes(s.record, sub.discoveryRequired) && c.fate.Answered? ==>
        t.subs[i] == sub.(pc := Reserved, intent := Some(|s.intents|), own := true))
      && (!LedgerTakes(s.record, sub.discoveryRequired) || !c.fate.Answered? ==>
        t.subs[i].pc == if sub.writer.WebmailSend? then Ended else Backout)
  {
    assert Next(s, Step(i, c)) == StepReserve(s, i, c);
    ReserveSucceedsIff(s.record, ChannelOf(s.subs[i].writer), s.subs[i].discoveryRequired, c.at);
  }

  // The mark: durable in the dedupe record, and once it answered in the cooldown or the session's flag.
  lemma MarkLeaves(s: State, i: nat, c: Choice, k: nat)
    requires i < |s.subs| && s.subs[i].pc.Reserved?
    ensures var sub, t := s.subs[i], Next(s, Step(i, c));
      && i < |t.subs| && t.record == s.record
      && t.dedupe == (if c.fate.Applies() then s.dedupe[sub.kind := DurableIntent] else s.dedupe)
      && (c.fate.Answered? ==>
        t.subs[i].pc.Open? && t.scopes == s.scopes + (if CoolsDown(sub.writer) then {sub.kind} else {}))
      && (c.fate.Answered? && InSession(s, i, k) ==> k < |t.sessions| && t.sessions[k].flag == sub.intent)
      && (!c.fate.Answered? ==>
        t.scopes == s.scopes && t.sessions == s.sessions
        && t.subs[i].pc == if sub.writer.WebmailSend? then Ended else Backout)
  {
    assert Next(s, Step(i, c)) == StepMark(s, i, c);
  }

  lemma PortalMarkLeaves(s: State, i: nat, c: Choice, k: nat)
    requires InSession(s, i, k) && s.subs[i].pc.PortalReserved?
    ensures var sub, t := s.subs[i], Next(s, Step(i, c));
      && i < |t.subs| && k < |t.sessions| && t.record == s.record
      && t.dedupe == (if c.fate.Applies() then s.dedupe[sub.kind := PortalSuppressionIntent] else s.dedupe)
      && (c.fate.Answered? ==> t.subs[i].pc.Open? && t.sessions[k].flag == sub.intent)
      && (!c.fate.Answered? ==> t.subs[i].pc.Ended? && t.sessions == s.sessions)
  {
    assert Next(s, Step(i, c)) == StepPortalMark(s, i, c);
  }

  // A registration never overwrites a record, and one without an answer ends its submitter, as does a lookup.
  lemma RegistrationLeaves(s: State, i: nat, c: Choice)
    requires i < |s.subs| && (s.subs[i].pc.Registering? || s.subs[i].pc.Retrying?)
    ensures var sub, t := s.subs[i], Next(s, Step(i, c));
      && i < |t.subs| && t.record == s.record
      && t.dedupe
        == (if c.fate.Applies() && sub.kind !in s.dedupe then s.dedupe[sub.kind := BeforeCaseIntent] else s.dedupe)
      && (!c.fate.Answered? ==> t.subs[i].pc.Ended?)
      && (c.fate.Answered? && sub.kind !in s.dedupe ==> t.subs[i].pc.Acquired?)
      && (c.fate.Answered? && sub.kind in s.dedupe ==>
        t.subs[i].pc == if sub.pc.Registering? then Contended else Ended)
  {
  }

  lemma LookupGoesOn(s: State, i: nat, c: Choice)
    requires i < |s.subs|
    ensures s.subs[i].pc.Contended? || s.subs[i].pc.Inspected? || s.subs[i].pc.PortalLook? ==>
      (!c.fate.Answered? ==> Next(s, Step(i, c)) == Goto(s, i, Ended))
    ensures s.subs[i].pc.Contended? && c.fate.Answered? && s.subs[i].kind in s.dedupe ==>
      Next(s, Step(i, c)) == Goto(s, i, Inspected(Some(s.dedupe[s.subs[i].kind])))
    ensures s.subs[i].pc.Contended? && c.fate.Answered? && s.subs[i].kind !in s.dedupe ==>
      Next(s, Step(i, c)) == Goto(s, i, Inspected(None))
    ensures s.subs[i].pc.PortalLook? && c.fate.Answered? ==>
      var asked := s.subs[i].kind in s.dedupe && s.dedupe[s.subs[i].kind].PortalVerificationRequested?;
      Next(s, Step(i, c)) == Goto(s, i, if asked then PortalSeen else Ended)
  {
  }

  // The cooldown lasts until a tool of its kind releases its intent, it expires, or the process ends.
  lemma CooldownLasts(s: State, e: Event, kind: RequestKind)
    requires kind in s.scopes && kind !in Next(s, e).scopes
    ensures || e == ScopeLost(kind) || e.Crash?
      || (e.Step? && e.i < |s.subs| && s.subs[e.i].pc.Releasing? && s.subs[e.i].kind == kind
          && CoolsDown(s.subs[e.i].writer))
  {
    if e.Step? && e.i < |s.subs| { StepComes(s, e.i, e.choice); }
  }

  // After the ledger call of an accepted attempt: one that did not answer is doubted.
  lemma RecordGoesOn(s: State, i: nat, c: Choice, k: nat)
    requires i < |s.subs| && s.subs[i].pc.Recording?
    requires s.record.state.SubmissionPending? && s.record.channel == Some(ChannelOf(s.subs[i].writer))
    ensures var sub, t := s.subs[i], Next(s, Step(i, c));
      && i < |t.subs|
      && (!c.fate.Answered? ==> t.subs[i].pc.Doubting?)
      && (c.fate.Answered? && !sub.writer.FormStep? && !sub.writer.Cleanup? ==> t.subs[i].pc.Ended?)
      && (c.fate.Answered? && InSession(s, i, k) ==>
        t.subs[i].pc == if s.sessions[k].stage.Generic? then Closing else Announcing)
  {
    assert Next(s, Step(i, c)) == StepRecord(s, i, c);
  }

  // After an uncertain mark a form step forgets its portal flow, in the guided stage, and closes its session.
  lemma DoubtEnds(s: State, i: nat, c: Choice, k: nat)
    requires InSession(s, i, k) && s.subs[i].pc.Doubting?
    ensures var t := Next(s, Step(i, c));
      i < |t.subs| && t.subs[i].pc == if s.sessions[k].stage.Guided? then Forgetting else Closing
  {
    assert Next(s, Step(i, c)) == StepDoubt(s, i, c);
  }

  // Outside the guided stage the announcement leaves the phase that the portal looks for.
  lemma AnnouncementLeaves(s: State, i: nat, c: Choice, k: nat)
    requires InSession(s, i, k) && s.subs[i].pc.Announcing?
    ensures var sub, t := s.subs[i], Next(s, Step(i, c));
      && i < |t.subs| && t.subs[i].pc == (if c.fate.Answered? then Closing else Doubting)
      && t.dedupe == if !s.sessions[k].stage.Guided? && c.fate.Applies() then
        s.dedupe[sub.kind := PortalVerificationRequested] else s.dedupe
  {
    assert Next(s, Step(i, c)) == StepAnnounce(s, i, c);
  }

  lemma ClosingEnds(s: State, i: nat, c: Choice, k: nat)
    requires InSession(s, i, k)
    ensures s.subs[i].pc.Forgetting? ==> Next(s, Step(i, c)) == Goto(s, i, if c.fate.Answered? then Closing else Ended)
    ensures s.subs[i].pc.Closing? ==>
      var t := Next(s, Step(i, c));
      k < |t.sessions| && !t.sessions[k].live && i < |t.subs| && t.subs[i].pc.Ended? && t.record == s.record
  {
  }

  // A release reopens the pending case and ends the cooldown; the delete after it frees the dedupe record and, once
  // answered, the session's flag.
  lemma ReleaseLeaves(s: State, i: nat, c: Choice, k: nat)
    requires i < |s.subs| && s.subs[i].intent.Some? && s.subs[i].intent.value < |s.intents|
    ensures s.subs[i].pc.Releasing? ==>
      var sub, t := s.subs[i], Next(s, Step(i, c));
      && t.subs == Goto(s, i, Cleaning).subs && t.dedupe == s.dedupe
      && t.scopes == (if CoolsDown(sub.writer) then s.scopes - {sub.kind} else s.scopes)
      && (c.fate.Applies() && s.record.state.SubmissionPending? ==>
        t.record == s.record.(state := ActionSelected, outcome := Outcome.NotStarted))
      && (!c.fate.Applies() || !s.record.state.SubmissionPending? ==> t.record == s.record)
    ensures s.subs[i].pc.Cleaning? ==>
      var sub, t := s.subs[i], Next(s, Step(i, c));
      && i < |t.subs| && t.subs[i].pc.Ended? && t.record == s.record
      && t.dedupe == (if c.fate.Applies() then s.dedupe - {sub.kind} else s.dedupe)
      && (c.fate.Answered? && InSession(s, i, k) ==> k < |t.sessions| && t.sessions[k].flag.None?)
      && (!c.fate.Answered? ==> t.sessions == s.sessions)
  {
  }

  // A form step that acts under no reservation ends on any trouble.
  lemma UnreservedStepEnds(s: State, i: nat, c: Choice)
    requires i < |s.subs| && s.subs[i].writer.FormStep? && s.subs[i].intent.None?
    requires s.subs[i].pc.Open? || s.subs[i].pc.Dispatched?
    ensures var t := Next(s, Step(i, c));
      i < |t.subs| && !t.subs[i].pc.Doubting? && !t.subs[i].pc.Releasing? && t.record == s.record
        && t.intents == s.intents
  {
    assert Next(s, Step(i, c)) == if s.subs[i].pc.Open? then StepAct(s, i, c) else StepReturn(s, i, c);
  }

  // ---- The rest of the system

  // A step needs an open session; a tool can always be called; nobody calls the cleanup.
  lemma CallsBegin(s: State, w: Writer, kind: RequestKind, d: bool)
    ensures var t := Next(s, Spawn(w, kind, d));
      var called := !w.Cleanup? && (w.FormStep? ==> w.session < |s.sessions| && s.sessions[w.session].live);
      && t == s.(subs := t.subs)
      && (!called ==> t.subs == s.subs)
      && (called ==> t.subs == s.subs + [
        Submitter(w, if w.FormStep? then DeleteAndOptOut else kind, !w.FormStep? && d, Start, None, false)])
  {
  }

  // An ending takes the session away and, if its flag stood, marks the case uncertain as its next step; steps in
  // flight are left as they are.
  lemma EndingsDoubtTheFlag(s: State, k: nat)
    requires k < |s.sessions|
    ensures var t := Next(s, EndSession(k));
      && |t.sessions| == |s.sessions| && !t.sessions[k].live && t.record == s.record && t.dedupe == s.dedupe
      && t.sessions[k].flag == s.sessions[k].flag
      && (s.sessions[k].flag.None? ==> t.subs == s.subs)
      && (s.sessions[k].flag.Some? ==>
        |t.subs| == |s.subs| + 1 && t.subs[..|s.subs|] == s.subs && t.subs[|s.subs|].pc.Doubting?
        && t.subs[|s.subs|].writer.Cleanup?)
  {
  }

  // A crash keeps the two stores and ends everything in memory: calls, sessions with their flags, cooldowns.
  lemma CrashKeepsTheStores(s: State)
    ensures var t := Next(s, Crash);
      && t.record == s.record && t.dedupe == s.dedupe && t.scopes == {}
      && |t.subs| == |s.subs| && |t.sessions| == |s.sessions| && |t.intents| == |s.intents|
      && (forall i :: 0 <= i < |t.subs| ==> t.subs[i].pc.Ended?)
      && (forall k :: 0 <= k < |t.sessions| ==> !t.sessions[k].live && t.sessions[k].flag.None?)
      && (forall r :: 0 <= r < |t.intents| ==> !t.intents[r].live && t.intents[r].wrote == s.intents[r].wrote)
  {
  }

  // Reviews and other ledger calls change the case alone, and only by calls that submit nothing.
  lemma OtherCallsChangeTheCase(s: State, op: Op, notStarted: bool, days: nat, at: int)
    ensures var t := Next(s, OtherCall(op, at));
      var outside := op.RecordController? || op.RecordScan? || op.RecordBrowserDiscovery? || op.RecordDirectRescan?
        || op.DeferRecheck? || op.RecordLifecycle?;
      && t == s.(record := t.record, exits := t.exits)
      && t.record == (if outside && Apply(s.record, op, at).Success? then Apply(s.record, op, at).value else s.record)
      && t.exits == s.exits + (if Protected(s.record.state) && !Protected(t.record.state) then 1 else 0)
    ensures var t, r := Next(s, Reconciled(notStarted, days, at)),
      Apply(s.record, CaseLedger.Reconcile(notStarted, days), at);
      && t == s.(record := t.record, notStarted := t.notStarted)
      && t.record == (if r.Success? then r.value else s.record)
      && t.notStarted == s.notStarted + (if r.Success? && notStarted then 1 else 0)
  {
  }

  lemma LossesLeaveTheRest(s: State, kind: RequestKind)
    ensures Next(s, DedupeLost(kind)) == s.(dedupe := s.dedupe - {kind})
    ensures Next(s, ScopeLost(kind)) == s.(scopes := s.scopes - {kind})
    ensures var t := Next(s, CaseForgotten);
      t == s.(record := FRESH, exits := s.exits + if Protected(s.record.state) then 1 else 0)
  {
  }
}
