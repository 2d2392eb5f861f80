// What each step of a form session comes to: which ones are admitted, what becomes of a step that acts under a
// reservation and does not see its success, and how a session ends.
module FormSessionSteps {
  import opened Wrappers
  import opened CaseLedger
  import opened ProviderOutcomes
  import opened FormSession
  import opened FormSessionLog
  import opened FormSessionEvents

  // ---- A step under a reservation that does not see its success

  // The clicks whose return must show the stage's success marker.
  predicate MustSucceed(stage: Stage, a: Action) {
    match stage
    case EmailEntry => a == Click(Continue)
    case Guided => a == Click(Suppress)
    case Generic => a == Click(Submit)
  }

  // What a returned action must not show: a final click without its marker, a consent box not checked, or a
  // generic success before every required field was filled.
  predicate Unconfirmed(w: World, a: Action, success: bool, checked: bool) {
    || (MustSucceed(w.form.stage, a) && !success)
    || (w.form.stage == EmailEntry && a == Click(Agree) && !checked)
    || (w.form.stage == Generic && a.Click? && success && !(w.form.required <= w.session.filled))
  }

  // Anything that went wrong once the action was out, or that is not certain to have gone wrong before.
  predicate Troubled(w: World, i: nat, c: Choice)
    requires i < |w.steps|
  {
    var step := w.steps[i];
    match step.pc
    case Acting => c.page.Refuses?
      && c.page.code in {AccessBlocked, StepBridgeFailed, StepCancelled, StepSnapshotInvalid, ProfileFieldMissing}
    case Sent =>
      && !c.page.Rejects?
      && (c.page.Returns? ==> Unconfirmed(w, step.action, c.page.success, c.page.checked))
    case Receipting => c.page.NoReceipt? && c.page.code in {StepBridgeFailed, StepCancelled, StepSnapshotInvalid}
    case Recording => !c.fate.Answered? || Apply(w.record, RecordOp(w.form.stage), c.at).Failure?
    case Announcing => !c.fate.Answered?
    case Waiting(x) => x < |w.enders| && w.enders[x].pc.EDone?
    case _ => false
  }

  // Such a step goes on to mark its case uncertain, whatever its stage; it neither releases nor just ends.
  lemma TroubledStepIsDoubted(w: World, i: nat, c: Choice)
    requires i < |w.steps| && w.steps[i].under.Some? && Troubled(w, i, c)
    ensures i < |Next(w, StepOn(i, c)).steps| && Next(w, StepOn(i, c)).steps[i].pc.Doubting?
    ensures Next(w, StepOn(i, c)).session.flag == w.session.flag
  {
    var step := w.steps[i];
    match step.pc
    case Acting => assert Next(w, StepOn(i, c)) == StepActing(w, i, c);
    case Sent => SentTrouble(w, i, c);
    case Receipting => assert Next(w, StepOn(i, c)) == StepReceipting(w, i, c);
    case Recording => assert Next(w, StepOn(i, c)) == StepRecording(w, i, c);
    case _ =>
  }

  lemma SentTrouble(w: World, i: nat, c: Choice)
    requires i < |w.steps| && w.steps[i].under.Some? && w.steps[i].pc.Sent? && Troubled(w, i, c)
    ensures var t := Next(w, StepOn(i, c));
      |t.steps| == |w.steps| && t.steps[i].pc.Doubting? && t.session.flag == w.session.flag
  {
    assert Next(w, StepOn(i, c)) == StepSent(w, i, c);
    if c.page.Returns? {
      NotedEffect(w, i, c);
      assert AfterReturn(w, i, c.page.success, c.page.checked) == Doubting;
    }
  }

  // Marking it: the pending case becomes uncertain if the call takes effect, and the session is given up next.
  lemma DoubtMarksUncertain(w: World, i: nat, c: Choice)
    requires i < |w.steps| && w.steps[i].pc.Doubting? && OwnPending(w.record) && c.fate.Applies()
    ensures var t := Next(w, StepOn(i, c));
      && t.record == w.record.(state := CaseState.SubmissionUncertain, outcome := Uncertain, recheckAt := None)
      && t.log == w.log + [Doubted(i)] && i < |t.steps|
      && (t.steps[i].pc == if w.form.stage == Guided && !c.ok then Done else Leaving)
      && !Next(t.(steps := t.steps[i := t.steps[i].(pc := Leaving)]), StepOn(i, c)).session.live
  {
  }

  // A snapshot the recipe rejects ends the session, an incompatible one after the case has been set aside.
  lemma RejectionEnds(w: World, i: nat, c: Choice)
    requires i < |w.steps| && c.page.Rejects?
    requires w.steps[i].pc.Acting? || w.steps[i].pc.Sent? || w.steps[i].pc.Inspecting?
    ensures Next(w, StepOn(i, c)) == Goto(w, i, if c.page.drift.Incompatible? then Blocking else Ending)
    ensures var t := Next(Goto(w, i, Ending), StepOn(i, c));
      !t.session.live && |t.enders| == |w.enders| + 1 && t.enders[|w.enders|].human
      && t.enders[|w.enders|].saw == w.session.flag.Some? && t.steps[i].pc == Waiting(|w.enders|)
  {
  }

  // ---- And one that does

  // What the case says once the stage's submission is recorded on day `at`.
  predicate SaysRecorded(c: Case, stage: Stage, at: int) {
    match stage
    case EmailEntry => c.state.VerificationPending? && c.outcome.PortalRequested? && c.recheckAt == Some(at)
    case Guided => c.state.AwaitingProcessing? && c.outcome.SuppressionSubmitted? && c.recheckAt == Some(at + 14)
    case Generic => c.state.VerificationPending? && c.outcome.FormSuccess? && c.recheckAt == Some(at + 1)
  }

  // The marker, the receipt and the ledger, in this order: nothing else stops a successful final click.
  lemma SuccessIsRecorded(w: World, i: nat, c: Choice)
    requires i < |w.steps|
    ensures Succeeds(w, i, c) ==>
      i < |Next(w, StepOn(i, c)).steps| && Next(w, StepOn(i, c)).steps[i].pc.Receipting?
    ensures w.steps[i].pc.Receipting? && !c.page.NoReceipt? ==> Next(w, StepOn(i, c)) == Goto(w, i, Recording)
    ensures w.steps[i].pc.Recording? && OwnPending(w.record) && c.fate.Applies() ==>
      SaysRecorded(Next(w, StepOn(i, c)).record, w.form.stage, c.at)
  {
    if Succeeds(w, i, c) {
      NotedEffect(w, i, c);
      assert Next(w, StepOn(i, c)) == StepSent(w, i, c);
      assert AfterReturn(w, i, true, c.page.checked) == Receipting;
    }
    if w.steps[i].pc.Recording? { assert Next(w, StepOn(i, c)) == StepRecording(w, i, c); }
  }

  // ---- Refusals

  // A click refused before it went out, under its own reservation outside the guided stage: the case goes back,
  // and the flag is cleared after the dedupe delete has answered. Anyone else's refusal changes nothing.
  lemma RefusalGivesUp(w: World, i: nat, c: Choice, code: StepCode)
    requires i < |w.steps| && w.steps[i].pc.Acting? && w.steps[i].under.Some? && c.page == Refuses(code)
    requires code in {RefInvalid, ActionNotAllowed, StepHumanGate, DomainMismatch, TargetInvalid, ActionAmbiguous,
      FieldTargetMismatch, FieldTargetAmbiguous, FieldMappingAmbiguous, FieldTypeMismatch, RecordNotCorroborated,
      RecordAmbiguous}
    ensures Next(w, StepOn(i, c)) == Goto(w, i, if w.steps[i].own && w.form.stage != Guided then Releasing else Done)
  {
    assert Next(w, StepOn(i, c)) == StepActing(w, i, c);
  }

  lemma ReleaseReopens(w: World, i: nat, c: Choice, d: Choice)
    requires i < |w.steps| && w.steps[i].pc.Releasing? && w.steps[i].under.Some?
    requires OwnPending(w.record) && c.fate.Applies() && d.fate.Answered?
    ensures var t := Next(w, StepOn(i, c));
      && t.record.state.ActionSelected? && t.record.outcome.NotStarted? && t.session == w.session
      && i < |t.steps| && t.steps[i].pc.Clearing?
    ensures var t := Next(Next(w, StepOn(i, c)), StepOn(i, d)); t.session == w.session.(flag := None)
  {
    var t := StepReleasing(w, i, c);
    assert Next(w, StepOn(i, c)) == t && t.steps[i].pc.Clearing?;
    assert Next(t, StepOn(i, d)) == StepClearing(t, i, d);
  }

  // ---- Which steps are admitted

  // The rules of a fill or click, stage by stage; sent: the fields of a fill.
  predicate MayAct(w: World, a: Action, approved: bool) {
    var filled := w.session.filled;
    match (w.form.stage, a)
    case (Generic, FillChallenge) => true
    case (_, Fill(fields)) =>
      approved || forall f :: f in fields && f in w.form.permitted ==> w.form.permitted[f] != "date_of_birth"
    case (EmailEntry, Click(Agree)) => "contact_email" in filled
    case (EmailEntry, Click(Continue)) => "contact_email" in filled && w.session.consent
    case (Guided, Click(SelectRecord)) => true
    case (Guided, Click(Continue)) => "full_name" in filled && "date_of_birth" in filled
    case (Guided, Click(Suppress)) => "full_name" in filled && "date_of_birth" in filled && w.session.selected
    case (Generic, Click(Agree)) => true
    case (Generic, Click(Continue)) => true
    case (Generic, Click(SelectRecord)) => true
    case (Generic, Click(Confirm)) => true
    case (Generic, Click(Submit)) => forall d :: d in w.form.required ==> d in filled
    case _ => false
  }

  // A step whose session is still good goes on exactly by these rules, with the flag's reservation; a click, other
  // than a guided one on a record, first makes a reservation if there is none.
  lemma AdmissionIff(w: World, i: nat, c: Choice)
    requires i < |w.steps| && w.steps[i].pc.Entered? && c.ok && !w.steps[i].action.Inspect?
    ensures var t, a := Next(w, StepOn(i, c)), w.steps[i].action;
      && |t.steps| == |w.steps| && t.session == w.session && t.record == w.record
      && (t.log == w.log + [Admitted(i, a, c.approved)] <==> MayAct(w, a, c.approved))
      && (!MayAct(w, a, c.approved) ==> t.steps[i].pc.Done? && t.log == w.log)
      && (MayAct(w, a, c.approved) ==>
        && t.steps[i].under == w.session.flag && (t.steps[i].pc.Acquiring? || t.steps[i].pc.Acting?)
        && (t.steps[i].pc.Acquiring? <==>
          w.session.flag.None? && a.Click? && (w.form.stage.Guided? ==> !a.purpose.SelectRecord?)))
  {
    assert Next(w, StepOn(i, c)) == StepEntered(w, i, c);
    PassesIff(w, w.steps[i].action, c.approved);
  }

  lemma PassesIff(w: World, a: Action, approved: bool)
    ensures PassesChecks(w.form, w.session, a, approved) <==> MayAct(w, a, approved)
  {
    if a.Fill? {
      var fields := a.fields;
      if f :| f in fields && f in w.form.permitted && w.form.permitted[f] == "date_of_birth" {
        assert "date_of_birth" in Disclosed(w.form, fields);
      }
    }
  }

  // Without a reservation nothing is released or doubted: whatever goes wrong, the step just ends.
  lemma UnreservedTroubleEnds(w: World, i: nat, c: Choice)
    requires i < |w.steps| && w.steps[i].under.None?
    requires var pc := w.steps[i].pc;
      pc.Acting? || pc.Sent? || pc.Receipting? || pc.Recording? || pc.Announcing? || pc.Waiting?
    ensures i < |Next(w, StepOn(i, c)).steps|
    ensures var t := Next(w, StepOn(i, c)).steps[i].pc; !t.Doubting? && !t.Releasing?
  {
    match w.steps[i].pc
    case Acting => assert Next(w, StepOn(i, c)) == StepActing(w, i, c);
    case Sent => UnreservedReturnEnds(w, i, c);
    case Receipting => assert Next(w, StepOn(i, c)) == StepReceipting(w, i, c);
    case Recording => assert Next(w, StepOn(i, c)) == StepRecording(w, i, c);
    case _ =>
  }

  lemma UnreservedReturnEnds(w: World, i: nat, c: Choice)
    requires i < |w.steps| && w.steps[i].under.None? && w.steps[i].pc.Sent?
    ensures i < |Next(w, StepOn(i, c)).steps|
    ensures var t := Next(w, StepOn(i, c)).steps[i].pc; !t.Doubting? && !t.Releasing?
  {
    if c.page.Returns? { NotedEffect(w, i, c); }
    assert Next(w, StepOn(i, c)) == StepSent(w, i, c);
  }

  // A return that need not show the marker, and did not, ends its step and nothing more.
  lemma QuietReturnEnds(w: World, i: nat, c: Choice)
    requires i < |w.steps| && w.steps[i].pc.Sent? && c.page.Returns? && !Succeeds(w, i, c)
    requires !Unconfirmed(w, w.steps[i].action, c.page.success, c.page.checked)
    ensures var t := Next(w, StepOn(i, c)); i < |t.steps| && t.steps[i].pc.Done? && t.record == w.record
  {
    NotedEffect(w, i, c);
    assert Next(w, StepOn(i, c)) == StepSent(w, i, c);
    assert AfterReturn(w, i, c.page.success, c.page.checked) == Done;
  }

  // The names under which a field's value counts as disclosed.
  lemma DisclosureNames(field: string)
    ensures Disclosure("first_name") == Disclosure("last_name") == "full_name"
    ensures Disclosure("contact_email_confirm") == "contact_email" && Disclosure("listing_id") == "listing_url"
    ensures field !in ["first_name", "last_name", "contact_email_confirm", "listing_id"] ==> Disclosure(field) == field
  {
  }

  // ---- Endings

  // Every ending takes the session away at once. One that finds a reservation's flag first marks the case
  // uncertain; the close action leaves the tab alone, and only a guided session's case then needs a human.
  lemma EndingsBegin(w: World, i: nat, c: Choice)
    requires w.session.live
    ensures var t, first := Next(w, Expire), if w.session.flag.Some? then EDoubt else ETab;
      !t.session.live && t.enders == w.enders + [Ender(w.session.flag.Some?, true, false, first)]
    ensures var t, first := Next(w, Revoke), if w.session.flag.Some? then EDoubt else ETab;
      !t.session.live && t.enders == w.enders + [Ender(w.session.flag.Some?, false, false, first)]
    ensures i < |w.steps| && w.steps[i].pc.Closing? && c.ok ==>
      var first := if w.session.flag.Some? then EDoubt else if w.form.stage.Guided? then EHuman else EDone;
      var t := Next(w, StepOn(i, c));
      !t.session.live && t.enders == w.enders + [Ender(w.session.flag.Some?, false, true, first)]
  {
  }

  // Then the tab is closed; if it stays, or a guided session ended by itself, the case is queued for a human.
  lemma EndingGoesOn(w: World, x: nat, c: Choice)
    requires x < |w.enders|
    ensures var ender, t := w.enders[x], Next(w, EndOn(x, c));
      && |t.enders| == |w.enders| && t.steps == w.steps && t.session == w.session
      && (ender.pc.EDoubt? ==> t.enders[x].pc == if ender.closing then EDone else ETab)
      && (ender.pc.ETab? ==> t.record == w.record)
      && (ender.pc.ETab? && !c.ok ==> t.enders[x].pc == EQueue)
      && (ender.pc.ETab? && c.ok ==> t.enders[x].pc == if ender.human && w.form.stage.Guided? then EHuman else EDone)
      && (ender.pc.EQueue? ==> t.enders[x].pc == if ender.human && w.form.stage.Guided? then EHuman else EDone)
      && (ender.pc.EHuman? ==> t.enders[x].pc == EDone)
      && (ender.pc.EDone? ==> t == w)
  {
  }

  // What they leave in the ledger, if their call takes effect.
  lemma EndingRecords(w: World, x: nat, c: Choice)
    requires x < |w.enders| && c.fate.Applies()
    ensures var ender, t := w.enders[x], Next(w, EndOn(x, c));
      && (ender.pc.EDoubt? && OwnPending(w.record) ==>
        t.record.state.SubmissionUncertain? && t.record.outcome.Uncertain? && t.log == w.log + [DoubtedByEnd(x)])
      && ((ender.pc.EQueue? || ender.pc.EHuman?) && !w.record.state.ConfirmedRemoved? ==>
        t.record == w.record.(state := CaseState.HumanTaskQueued, recheckAt := None) && t.log == w.log + [Queued(x)])
  {
    LifecycleOutcome(w.record, CaseState.HumanTaskQueued, 0, c.at);
  }

  // ---- From the reservation to the click, and from the record to the end

  // The ledger takes this stage's reservation: a first one, or the second of a portal that asked for its link.
  predicate Reserves(w: World) {
    if w.form.stage.Guided? then w.record.state.VerificationPending? && w.record.outcome.PortalRequested?
    else
      var s := w.record.state;
      s.New? || s.Found? || s.IndirectExposure? || s.ActionSelected? || s.Reappeared? || s.PartiallyRemoved?
      || s.RequestRejected?
  }

  // Dedupe, ledger, mark: each must answer, or the click does not go out; the flag stands once all have.
  lemma ReservationGoesOn(w: World, i: nat, c: Choice)
    requires i < |w.steps|
    ensures w.steps[i].pc.Acquiring? ==> Next(w, StepOn(i, c)) == Goto(w, i, if c.ok then Reserving else Done)
    ensures w.steps[i].pc.Reserving? ==>
      var t := Next(w, StepOn(i, c));
      && t.session == w.session && i < |t.steps|
      && (t.log == w.log + [Reserved(i)] <==> Reserves(w) && c.fate.Applies())
      && (Reserves(w) && c.fate.Applies() ==> t.record.state.SubmissionPending? && t.record.outcome.Pending?)
      && (Reserves(w) && c.fate.Answered? ==>
        t.steps[i] == w.steps[i].(pc := Marking, under := Some(|w.log|), own := true))
      && (!Reserves(w) || !c.fate.Answered? ==> t.steps[i] == w.steps[i].(pc := Done))
    ensures w.steps[i].pc.Marking? && w.steps[i].under.Some? ==>
      var t := Next(w, StepOn(i, c));
      && i < |t.steps| && t.record == w.record
      && (c.fate.Answered? ==> t.session == w.session.(flag := w.steps[i].under) && t.steps[i].pc.Acting?)
      && (!c.fate.Answered? ==> t.session == w.session && t.steps[i].pc.Done?)
  {
    if w.steps[i].pc.Reserving? { ReserveLands(w, i, c); }
  }

  lemma ReserveLands(w: World, i: nat, c: Choice)
    requires i < |w.steps| && w.steps[i].pc.Reserving?
    ensures var t := Next(w, StepOn(i, c));
      && t.session == w.session && i < |t.steps|
      && (t.log == w.log + [Reserved(i)] <==> Reserves(w) && c.fate.Applies())
      && (Reserves(w) && c.fate.Applies() ==> t.record.state.SubmissionPending? && t.record.outcome.Pending?)
      && (Reserves(w) && c.fate.Answered? ==>
        t.steps[i] == w.steps[i].(pc := Marking, under := Some(|w.log|), own := true))
      && (!Reserves(w) || !c.fate.Answered? ==> t.steps[i] == w.steps[i].(pc := Done))
  {
    assert Next(w, StepOn(i, c)) == StepReserving(w, i, c);
    PortalReservationIff(w.record, c.at);
    ReserveSucceedsIff(w.record, BrowserForm, false, c.at);
  }

  lemma ActionGoesOut(w: World, i: nat, c: Choice)
    requires i < |w.steps| && w.steps[i].pc.Acting? && w.steps[i].admitted.Some?
    requires !c.page.Refuses? && !c.page.Rejects?
    ensures var t := Next(w, StepOn(i, c));
      && i < |t.steps| && t.steps[i].pc == Pc.Sent && |t.log| == |w.log| + 1 && t.record == w.record
      && (t.steps[i].clicked <==> w.steps[i].action.Click?)
      && (w.steps[i].action.Click? <==> t.log[|w.log|].Clicked?)
      && (w.steps[i].action.Fill? ==> forall f :: f in w.steps[i].action.fields && f in w.form.permitted ==>
            t.log[|w.log|].SentFields? && w.form.permitted[f] in t.log[|w.log|].disclosures)
  {
    assert Next(w, StepOn(i, c)) == StepActing(w, i, c);
  }

  // What a return notes in the session: the disclosures of a fill, a record selected, a consent seen checked.
  lemma ReturnIsNoted(w: World, i: nat, c: Choice)
    requires i < |w.steps| && w.steps[i].pc.Sent? && c.page.Returns?
    ensures var t, a := Next(w, StepOn(i, c)), w.steps[i].action;
      && (a.Fill? ==> forall f :: f in a.fields && f in w.form.permitted ==> w.form.permitted[f] in t.session.filled)
      && (forall d :: d in w.session.filled ==> d in t.session.filled)
      && (t.session.selected <==> w.session.selected || (w.form.stage.Guided? && a == Click(SelectRecord)))
      && (t.session.consent <==>
        w.session.consent || (w.form.stage.EmailEntry? && a == Click(Agree) && c.page.checked))
      && t.session.flag == w.session.flag && t.session.live == w.session.live
  {
    assert Next(w, StepOn(i, c)) == StepSent(w, i, c);
  }

  // A recorded submission is announced outside the generic stage, and then its session is given up; a case set
  // aside for an incompatible page is blocked first.
  lemma RecordLeadsOut(w: World, i: nat, c: Choice)
    requires i < |w.steps|
    ensures var t := Next(w, StepOn(i, c));
      && (w.steps[i].pc.Recording? && OwnPending(w.record) && c.fate.Answered? ==>
        i < |t.steps| && t.steps[i].pc == if w.form.stage.Generic? then Leaving else Announcing)
      && (w.steps[i].pc.Announcing? && c.fate.Answered? ==> t == Goto(w, i, Leaving))
      && (w.steps[i].pc.Leaving? ==> !t.session.live && i < |t.steps| && t.steps[i].pc.Done? && t.record == w.record)
      && (w.steps[i].pc.Blocking? ==> i < |t.steps| && t.steps[i].pc.Ending?)
      && (w.steps[i].pc.Blocking? && c.fate.Applies() && !w.record.state.ConfirmedRemoved? ==>
        t.record == w.record.(state := CaseState.Blocked, recheckAt := None))
  {
    match w.steps[i].pc
    case Recording => assert Next(w, StepOn(i, c)) == StepRecording(w, i, c);
    case Blocking => LifecycleOutcome(w.record, CaseState.Blocked, 0, c.at);
    case _ =>
  }

  // A call enters only a live session; entering changes nothing else.
  lemma EntryNeedsLiveSession(w: World, a: Action)
    ensures var t := Next(w, Enter(a));
      && (w.session.live ==>
        && |t.steps| == |w.steps| + 1 && t.steps[..|w.steps|] == w.steps
        && t.steps[|w.steps|].action == a && (t.steps[|w.steps|].pc.Closing? <==> a.CloseSession?)
        && (t.steps[|w.steps|].pc.Entered? <==> !a.CloseSession?) && t.steps[|w.steps|].under.None?)
      && (!w.session.live ==> t == w) && t.log == w.log && t.record == w.record
  {
  }

  // A step whose snapshot ended the session goes on only when that ending is through.
  lemma WaitsForItsEnding(w: World, i: nat, c: Choice)
    requires i < |w.steps| && w.steps[i].pc.Waiting?
    requires w.steps[i].pc.x < |w.enders| && !w.enders[w.steps[i].pc.x].pc.EDone?
    ensures Next(w, StepOn(i, c)) == w
  {
  }
}
