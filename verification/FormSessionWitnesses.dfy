// Runs of a form session that leak its reservation, one for each cause.
module FormSessionWitnesses {
  import opened Wrappers
  import opened CaseLedger
  import opened ProviderOutcomes
  import opened FormSession
  import opened FormSessionLog
  import opened FormSessionRuns

  lemma {:induction false} RunConcat(w: World, a: seq<Event>, b: seq<Event>)
    ensures Run(w, a + b) == Run(Run(w, a), b)
  {
    if b == [] {
      assert a + b == a;
    } else {
      var front := b[..|b| - 1];
      assert (a + b)[..|a + b| - 1] == a + front;
      RunConcat(w, a, front);
    }
  }

  lemma RunOne(w: World, a: Event)
    ensures Run(w, [a]) == Next(w, a)
  {
    assert [a][..0] == [] && Run(w, []) == w;
  }

  lemma RunTwo(w: World, a: Event, b: Event)
    ensures Run(w, [a, b]) == Next(Next(w, a), b)
  {
    assert [a, b][..1] == [a];
    RunOne(w, a);
  }

  lemma RunThree(w: World, a: Event, b: Event, c: Event)
    ensures Run(w, [a, b, c]) == Next(Next(Next(w, a), b), c)
  {
    assert [a, b, c][..2] == [a, b];
    RunTwo(w, a, b);
  }

  const CALM := Choice(true, true, Answered, Fine, 0)
  const THROWN := CALM.(fate := Threw(false))
  const APPLIED := CALM.(fate := Threw(true))
  const STUCK := CALM.(ok := false)

  // ---- A generic session whose submit click reserves

  const GENERIC := Begin(Generic, {}, {}, {}, FRESH)
  const SUBMIT := Click(Submit)
  const PENDING := Case(SubmissionPending, Some(BrowserForm), Pending, None, None)

  function Clicker(pc: Pc, under: Option<nat>): Step { Step(SUBMIT, pc, Some(0), under, under.Some?, false, false) }

  const READY := GENERIC.(steps := [Clicker(Reserving, None)], log := [Admitted(0, SUBMIT, true)])

  const RESERVED := READY.(steps := [Clicker(Marking, Some(1))], record := PENDING,
                           log := [Admitted(0, SUBMIT, true), Reserved(0)])

  const TO_READY := [Enter(SUBMIT), StepOn(0, CALM), StepOn(0, CALM)]

  lemma ReadyIsReached()
    ensures Run(GENERIC, TO_READY) == READY
  {
    RunThree(GENERIC, Enter(SUBMIT), StepOn(0, CALM), StepOn(0, CALM));
    var w1 := EnterStep(GENERIC, SUBMIT);
    assert w1.steps == [Step(SUBMIT, Entered, None, None, false, false, false)];
    assert PassesChecks(w1.form, w1.session, SUBMIT, true);
    assert Next(w1, StepOn(0, CALM)) == StepEntered(w1, 0, CALM);
    var w2 := Next(w1, StepOn(0, CALM));
    assert w2.steps == [Clicker(Acquiring, None)] && w2.log == [Admitted(0, SUBMIT, true)];
    assert Next(w2, StepOn(0, CALM)) == Goto(w2, 0, Reserving);
  }

  lemma ReservingSucceeds()
    ensures Next(READY, StepOn(0, CALM)) == RESERVED
    ensures Next(READY, StepOn(0, APPLIED)) == RESERVED.(steps := [Clicker(Done, None)])
  {
    assert Next(READY, StepOn(0, CALM)) == StepReserving(READY, 0, CALM);
    assert Next(READY, StepOn(0, APPLIED)) == StepReserving(READY, 0, APPLIED);
    assert READY.log + [Reserved(0)] == [Admitted(0, SUBMIT, true), Reserved(0)];
  }

  // An ending that saw no flag and whose tab does not close queues whatever is pending.
  const BLIND_END := [Expire, EndOn(0, STUCK), EndOn(0, CALM)]

  lemma QueueLeaks(w: World, x: nat)
    requires OwnPending(w.record)
    ensures Leaked(Queue(w, x, CALM).record) && Queue(w, x, CALM).log == w.log + [Queued(x)]
  {
  }

  lemma BlindEndLeaks(w: World)
    requires w.session.live && w.session.flag.None? && w.enders == [] && w.form.stage == Generic && w.record == PENDING
    ensures var t := Run(w, BLIND_END);
      Leaked(t.record) && t.steps == w.steps && t.session == w.session.(live := false) && t.form == w.form
      && t.log == w.log + [EndingBegan(0, false), Queued(0)]
  {
    RunThree(w, Expire, EndOn(0, STUCK), EndOn(0, CALM));
    var w1 := BeginEnding(w, true, false);
    assert w1.enders == [Ender(false, true, false, ETab)];
    assert Next(w1, EndOn(0, STUCK)) == EndEnder(w1, 0, STUCK);
    var w2 := GotoEnd(w1, 0, EQueue);
    assert w2.enders == [Ender(false, true, false, EQueue)];
    assert Next(w2, EndOn(0, CALM)) == EndEnder(w2, 0, CALM) == GotoEnd(Queue(w2, 0, CALM), 0, EDone);
    QueueLeaks(w2, 0);
    assert w2.log + [Queued(0)] == w.log + [EndingBegan(0, false), Queued(0)];
  }

  // The mark fails, and the timer ends the session.
  lemma FailedMarkLeaks()
    ensures Leaked(Run(GENERIC, TO_READY + [StepOn(0, CALM), StepOn(0, THROWN)] + BLIND_END).record)
  {
    var marking := [StepOn(0, CALM), StepOn(0, THROWN)];
    RunConcat(GENERIC, TO_READY + marking, BLIND_END);
    RunConcat(GENERIC, TO_READY, marking);
    ReadyIsReached();
    RunTwo(READY, StepOn(0, CALM), StepOn(0, THROWN));
    ReservingSucceeds();
    assert Next(RESERVED, StepOn(0, THROWN)) == StepMarking(RESERVED, 0, THROWN) == Goto(RESERVED, 0, Done);
    BlindEndLeaks(Goto(RESERVED, 0, Done));
  }

  // The reserve call takes effect and throws.
  lemma ThrownReserveLeaks()
    ensures Leaked(Run(GENERIC, TO_READY + [StepOn(0, APPLIED)] + BLIND_END).record)
  {
    RunConcat(GENERIC, TO_READY + [StepOn(0, APPLIED)], BLIND_END);
    RunConcat(GENERIC, TO_READY, [StepOn(0, APPLIED)]);
    ReadyIsReached();
    RunOne(READY, StepOn(0, APPLIED));
    ReservingSucceeds();
    BlindEndLeaks(RESERVED.(steps := [Clicker(Done, None)]));
  }

  // The session ends between the reservation and its mark; the click still goes out, and the case stays leaked.
  lemma EndingDuringReservationLeaks()
    ensures var t := Run(GENERIC, TO_READY + [StepOn(0, CALM)] + BLIND_END + [StepOn(0, CALM), StepOn(0, CALM)]);
      Leaked(t.record) && ClickedBy(t.log, 0, Some(1))
  {
    var sending := [StepOn(0, CALM), StepOn(0, CALM)];
    RunConcat(GENERIC, TO_READY + [StepOn(0, CALM)] + BLIND_END, sending);
    RunConcat(GENERIC, TO_READY + [StepOn(0, CALM)], BLIND_END);
    RunConcat(GENERIC, TO_READY, [StepOn(0, CALM)]);
    ReadyIsReached();
    RunOne(READY, StepOn(0, CALM));
    ReservingSucceeds();
    BlindEndLeaks(RESERVED);
    ClickStillGoesOut(Run(RESERVED, BLIND_END));
  }

  lemma ClickStillGoesOut(w: World)
    requires w.steps == RESERVED.steps
    ensures var t := Run(w, [StepOn(0, CALM), StepOn(0, CALM)]); t.record == w.record && ClickedBy(t.log, 0, Some(1))
  {
    RunTwo(w, StepOn(0, CALM), StepOn(0, CALM));
    var w1 := StepMarking(w, 0, CALM);
    assert Next(w, StepOn(0, CALM)) == w1 && w1.steps == [Clicker(Acting, Some(1))] && w1.record == w.record;
    var w2 := StepActing(w1, 0, CALM);
    assert Next(w1, StepOn(0, CALM)) == w2 && w2.log == w1.log + [Sending(w1, 0)];
    ClickedGrows(w1.log, Sending(w1, 0), 0, Some(1));
  }

  // An incompatible snapshot of an inspection while the session holds its reservation.
  lemma IncompatibleSnapshotLeaks()
    ensures Leaked(Run(GENERIC, TO_READY + [StepOn(0, CALM), StepOn(0, CALM)]
      + [Enter(Inspect), StepOn(1, CALM)] + [StepOn(1, CALM.(page := Rejects(Incompatible))), StepOn(1, CALM)]).record)
  {
    var holding, looking := [StepOn(0, CALM), StepOn(0, CALM)], [Enter(Inspect), StepOn(1, CALM)];
    var rejecting := [StepOn(1, CALM.(page := Rejects(Incompatible))), StepOn(1, CALM)];
    RunConcat(GENERIC, TO_READY + holding + looking, rejecting);
    RunConcat(GENERIC, TO_READY + holding, looking);
    RunConcat(GENERIC, TO_READY, holding);
    ReadyIsReached();
    RunTwo(READY, StepOn(0, CALM), StepOn(0, CALM));
    ReservingSucceeds();
    var w1 := StepMarking(RESERVED, 0, CALM);
    assert Next(RESERVED, StepOn(0, CALM)) == w1 && w1.record == PENDING && w1.session.live && |w1.steps| == 1;
    InspectionLooks(w1);
    RejectionLeaks(Run(w1, looking));
  }

  lemma InspectionLooks(w: World)
    requires w.session.live && |w.steps| == 1
    ensures var t := Run(w, [Enter(Inspect), StepOn(1, CALM)]);
      t.record == w.record && |t.steps| == 2 && t.steps[1].pc == Inspecting
  {
    RunTwo(w, Enter(Inspect), StepOn(1, CALM));
    var w1 := EnterStep(w, Inspect);
    assert w1.steps[1] == Step(Inspect, Entered, None, None, false, false, false);
    assert Next(w1, StepOn(1, CALM)) == StepEntered(w1, 1, CALM) == Goto(w1, 1, Inspecting);
  }

  lemma RejectionLeaks(w: World)
    requires |w.steps| == 2 && w.steps[1].pc == Inspecting && w.record == PENDING
    ensures Leaked(Run(w, [StepOn(1, CALM.(page := Rejects(Incompatible))), StepOn(1, CALM)]).record)
  {
    var rejects := CALM.(page := Rejects(Incompatible));
    RunTwo(w, StepOn(1, rejects), StepOn(1, CALM));
    var w1 := Goto(w, 1, Blocking);
    assert Next(w, StepOn(1, rejects)) == StepStep(w, 1, rejects) == w1;
    BlockingLeaks(w1, 1);
  }

  lemma BlockingLeaks(w: World, i: nat)
    requires i < |w.steps| && w.steps[i].pc == Blocking && OwnPending(w.record)
    ensures Leaked(Next(w, StepOn(i, CALM)).record)
  {
    var t := Land(w, RecordLifecycle(CaseState.Blocked, 0), CALM, BlockedBy(i));
    assert Leaked(t.record);
    assert Next(w, StepOn(i, CALM)) == StepStep(w, i, CALM) == Goto(t, i, Ending);
  }

  // The click's reservation is marked, and its flag set.
  const HOLDING := StepMarking(RESERVED, 0, CALM)

  lemma HoldingIs()
    ensures Next(RESERVED, StepOn(0, CALM)) == HOLDING && HOLDING.steps == [Clicker(Acting, Some(1))]
    ensures HOLDING.record == PENDING && HOLDING.session == Session({}, false, false, Some(1), true)
    ensures HOLDING.enders == [] && HOLDING.form == GENERIC.form
  {
    assert Next(RESERVED, StepOn(0, CALM)) == StepStep(RESERVED, 0, CALM);
  }

  lemma HoldingIsReached()
    ensures Run(GENERIC, TO_READY + [StepOn(0, CALM), StepOn(0, CALM)]) == HOLDING
  {
    RunConcat(GENERIC, TO_READY, [StepOn(0, CALM), StepOn(0, CALM)]);
    ReadyIsReached();
    RunTwo(READY, StepOn(0, CALM), StepOn(0, CALM));
    ReservingSucceeds();
    HoldingIs();
  }

  const REFUSED_CLICK := CALM.(page := Refuses(RefInvalid))
  const TO_HOLDING := TO_READY + [StepOn(0, CALM), StepOn(0, CALM)]
  const CLEARING := [StepOn(0, REFUSED_CLICK), StepOn(0, THROWN), StepOn(0, CALM)]

  lemma ReleaseFails(w: World)
    requires |w.steps| == 1 && w.steps[0].pc == Releasing && w.steps[0].under.Some?
    ensures var t := Next(Next(w, StepOn(0, THROWN)), StepOn(0, CALM));
      t.session == w.session.(flag := None) && t.record == w.record && t.enders == w.enders && t.form == w.form
  {
    var w1 := Goto(w, 0, Clearing);
    assert Next(w, StepOn(0, THROWN)) == StepReleasing(w, 0, THROWN) == w1;
    assert Next(w1, StepOn(0, CALM)) == StepClearing(w1, 0, CALM);
  }

  // The click is refused, its release has no effect, and the flag is cleared all the same.
  lemma FailedReleaseLeaks()
    ensures Leaked(Run(GENERIC, TO_HOLDING + CLEARING + BLIND_END).record)
  {
    RunConcat(GENERIC, TO_HOLDING + CLEARING, BLIND_END);
    RunConcat(GENERIC, TO_HOLDING, CLEARING);
    HoldingIsReached();
    HoldingIs();
    RunThree(HOLDING, StepOn(0, REFUSED_CLICK), StepOn(0, THROWN), StepOn(0, CALM));
    RefusalReleases();
    ReleaseFails(Goto(HOLDING, 0, Releasing));
    BlindEndLeaks(Run(HOLDING, CLEARING));
  }

  lemma RefusalReleases()
    ensures |HOLDING.steps| == 1 && Next(HOLDING, StepOn(0, REFUSED_CLICK)) == Goto(HOLDING, 0, Releasing)
  {
    HoldingIs();
    assert Next(HOLDING, StepOn(0, REFUSED_CLICK)) == StepActing(HOLDING, 0, REFUSED_CLICK);
  }

  // The ending sees the flag, but its call to record the uncertain outcome has no effect.
  lemma FailedDoubtLeaks()
    ensures Leaked(Run(GENERIC, TO_HOLDING + [Expire, EndOn(0, THROWN)] + [EndOn(0, STUCK), EndOn(0, CALM)]).record)
  {
    RunConcat(GENERIC, TO_HOLDING + [Expire, EndOn(0, THROWN)], [EndOn(0, STUCK), EndOn(0, CALM)]);
    RunConcat(GENERIC, TO_HOLDING, [Expire, EndOn(0, THROWN)]);
    HoldingIsReached();
    HoldingIs();
    RunTwo(HOLDING, Expire, EndOn(0, THROWN));
    DoubtFails(HOLDING);
    StuckTabLeaks(Run(HOLDING, [Expire, EndOn(0, THROWN)]));
  }

  lemma DoubtFails(w: World)
    requires w.session.live && w.session.flag.Some? && w.enders == []
    ensures var t := Next(Next(w, Expire), EndOn(0, THROWN));
      t.record == w.record && t.form == w.form && |t.enders| == 1 && t.enders[0].pc == ETab
  {
    var w1 := BeginEnding(w, true, false);
    assert w1.enders == [Ender(true, true, false, EDoubt)];
    assert Next(w1, EndOn(0, THROWN)) == EndEnder(w1, 0, THROWN) == GotoEnd(w1, 0, ETab);
  }

  lemma StuckTabLeaks(w: World)
    requires |w.enders| == 1 && w.enders[0].pc == ETab && w.form.stage == Generic && OwnPending(w.record)
    ensures Leaked(Run(w, [EndOn(0, STUCK), EndOn(0, CALM)]).record)
  {
    RunTwo(w, EndOn(0, STUCK), EndOn(0, CALM));
    var w1 := GotoEnd(w, 0, EQueue);
    assert Next(w, EndOn(0, STUCK)) == EndEnder(w, 0, STUCK) == w1;
    QueueLeaks(w1, 0);
    assert Next(w1, EndOn(0, CALM)) == EndEnder(w1, 0, CALM) == GotoEnd(Queue(w1, 0, CALM), 0, EDone);
  }

  // ---- A guided session: the mark fails, and the ending queues although the tab closes

  const PORTAL := Case(VerificationPending, Some(BrowserForm), PortalRequested, None, None)
  const IDENTITY := {"full_name", "date_of_birth"}
  const GUIDED := Begin(Guided, IDENTITY, IDENTITY, {}, PORTAL)
  const FILL := Fill(["full_name", "date_of_birth"])
  const RETURNED := CALM.(page := Returns(false, false))

  lemma FillSends()
    ensures Disclosed(GUIDED.form, ["full_name", "date_of_birth"]) == IDENTITY
  {
    var m := FieldDisclosureMap(IDENTITY, IDENTITY);
    assert "full_name" in m && m["full_name"] == "full_name";
    assert "date_of_birth" in m && m["date_of_birth"] == "date_of_birth";
    var ds := Disclosed(GUIDED.form, ["full_name", "date_of_birth"]);
    assert "full_name" in ["full_name", "date_of_birth"] && "date_of_birth" in ["full_name", "date_of_birth"];
    assert "full_name" in ds && "date_of_birth" in ds;
    assert ds <= m.Values;
  }

  const FILLING := [Enter(FILL), StepOn(0, CALM)]
  const FILLED := [StepOn(0, CALM), StepOn(0, RETURNED)]

  const FILLER := GUIDED.(
    steps := [Step(FILL, Acting, Some(0), None, false, false, false)], log := [Admitted(0, FILL, true)])

  lemma FillIsAdmitted()
    ensures Run(GUIDED, FILLING) == FILLER
  {
    RunTwo(GUIDED, Enter(FILL), StepOn(0, CALM));
    var w1 := EnterStep(GUIDED, FILL);
    assert w1.steps == [Step(FILL, Entered, None, None, false, false, false)];
    assert PassesChecks(w1.form, w1.session, FILL, true) && !NeedsIntent(Guided, FILL);
    assert Next(w1, StepOn(0, CALM)) == StepEntered(w1, 0, CALM);
    assert w1.log + [Admitted(0, FILL, true)] == [Admitted(0, FILL, true)];
    assert StepEntered(w1, 0, CALM).steps == [Step(FILL, Acting, Some(0), None, false, false, false)];
  }

  lemma FillReturns(w: World)
    requires |w.steps| == 1 && w.steps[0].action.Fill? && w.steps[0].pc == Pc.Sent
    requires Disclosed(w.form, w.steps[0].action.fields) == IDENTITY
      && w.session == Session({}, false, false, None, true)
    ensures var t := Next(w, StepOn(0, RETURNED));
      t.session == Session(IDENTITY, false, false, None, true) && |t.steps| == 1 && t.enders == w.enders
      && t.record == w.record && t.form == w.form
  {
    FillIsNoted(w, IDENTITY);
    assert {} + IDENTITY == IDENTITY;
    FillIsDone(w);
  }

  lemma FillIsDone(w: World)
    requires |w.steps| == 1 && w.steps[0].action.Fill? && w.steps[0].pc == Pc.Sent
    ensures |Noted(w, 0, false).steps| == 1 && Next(w, StepOn(0, RETURNED)) == Goto(Noted(w, 0, false), 0, Done)
  {
    assert AfterReturn(w, 0, false, false) == Done;
    assert Next(w, StepOn(0, RETURNED)) == StepStep(w, 0, RETURNED) == StepSent(w, 0, RETURNED);
  }

  lemma FillIsNoted(w: World, ds: set<string>)
    requires |w.steps| == 1 && w.steps[0].action.Fill? && Disclosed(w.form, w.steps[0].action.fields) == ds
    ensures var t := Noted(w, 0, false);
      t.session == w.session.(filled := w.session.filled + ds) && t.steps == w.steps && t.enders == w.enders
      && t.record == w.record && t.form == w.form
  {
  }

  lemma FillIsSent()
    ensures var t := Next(FILLER, StepOn(0, CALM));
      t.steps == [Step(FILL, Pc.Sent, Some(0), None, false, false, false)] && t.session == GUIDED.session
      && t.enders == [] && t.record == PORTAL && t.form == GUIDED.form
  {
    assert Next(FILLER, StepOn(0, CALM)) == StepStep(FILLER, 0, CALM) == StepActing(FILLER, 0, CALM);
  }

  lemma FillingSucceeds()
    ensures var t := Run(GUIDED, FILLING + FILLED);
      t.session == Session(IDENTITY, false, false, None, true) && |t.steps| == 1 && t.enders == []
      && t.record == PORTAL && t.form == GUIDED.form
  {
    RunConcat(GUIDED, FILLING, FILLED);
    FillIsAdmitted();
    RunTwo(FILLER, StepOn(0, CALM), StepOn(0, RETURNED));
    FillIsSent();
    FillSends();
    FillReturns(Next(FILLER, StepOn(0, CALM)));
  }

  const GUIDED_CLICK := [Enter(Click(Continue)), StepOn(1, CALM), StepOn(1, CALM)]
  const FAILED_MARK := [StepOn(1, CALM), StepOn(1, THROWN)]
  const CLEAN_END := [Expire, EndOn(0, CALM), EndOn(0, CALM)]

  lemma GuidedClickAcquires(w: World)
    requires w.session == Session(IDENTITY, false, false, None, true) && |w.steps| == 1 && w.form == GUIDED.form
    ensures var t := Run(w, GUIDED_CLICK);
      t.record == w.record && t.session == w.session && t.enders == w.enders && t.form == w.form
      && |t.steps| == 2 && t.steps[1].pc == Reserving
  {
    RunThree(w, Enter(Click(Continue)), StepOn(1, CALM), StepOn(1, CALM));
    var w1 := EnterStep(w, Click(Continue));
    assert w1.steps[1] == Step(Click(Continue), Entered, None, None, false, false, false);
    var w2 := StepEntered(w1, 1, CALM);
    assert Next(w1, StepOn(1, CALM)) == w2 && w2.steps[1].pc == Acquiring;
    assert Next(w2, StepOn(1, CALM)) == Goto(w2, 1, Reserving);
  }

  lemma PortalReserves(w: World)
    requires |w.steps| == 2 && w.steps[1].pc == Reserving && w.record == PORTAL && w.form.stage == Guided
    ensures var t := StepReserving(w, 1, CALM);
      t.record == PORTAL.(state := SubmissionPending, outcome := Pending) && t.session == w.session
      && t.enders == w.enders && t.form == w.form && |t.steps| == 2 && t.steps[1].pc == Marking
  {
  }

  lemma GuidedMarkFails(w: World)
    requires |w.steps| == 2 && w.steps[1].pc == Reserving && w.record == PORTAL && w.form == GUIDED.form
    ensures var t := Run(w, FAILED_MARK);
      t.record == PORTAL.(state := SubmissionPending, outcome := Pending) && t.session == w.session
      && t.enders == w.enders && t.form == w.form
  {
    RunTwo(w, StepOn(1, CALM), StepOn(1, THROWN));
    var w1 := StepReserving(w, 1, CALM);
    PortalReserves(w);
    assert Next(w, StepOn(1, CALM)) == StepStep(w, 1, CALM) == w1;
    assert Next(w1, StepOn(1, THROWN)) == StepMarking(w1, 1, THROWN) == Goto(w1, 1, Done);
  }

  lemma GuidedEndLeaks(w: World)
    requires w.session.live && w.session.flag.None? && w.enders == [] && w.form.stage == Guided && OwnPending(w.record)
    ensures Leaked(Run(w, CLEAN_END).record)
  {
    RunThree(w, Expire, EndOn(0, CALM), EndOn(0, CALM));
    var w1 := BeginEnding(w, true, false);
    assert w1.enders == [Ender(false, true, false, ETab)];
    var w2 := GotoEnd(w1, 0, EHuman);
    assert Next(w1, EndOn(0, CALM)) == EndEnder(w1, 0, CALM) == w2;
    assert w2.enders == [Ender(false, true, false, EHuman)];
    QueueLeaks(w2, 0);
    assert Next(w2, EndOn(0, CALM)) == EndEnder(w2, 0, CALM) == GotoEnd(Queue(w2, 0, CALM), 0, EDone);
  }

  lemma GuidedFailedMarkLeaks()
    ensures Leaked(Run(GUIDED, FILLING + FILLED + GUIDED_CLICK + FAILED_MARK + CLEAN_END).record)
  {
    var filled := FILLING + FILLED;
    RunConcat(GUIDED, filled + GUIDED_CLICK + FAILED_MARK, CLEAN_END);
    RunConcat(GUIDED, filled + GUIDED_CLICK, FAILED_MARK);
    RunConcat(GUIDED, filled, GUIDED_CLICK);
    FillingSucceeds();
    GuidedClickAcquires(Run(GUIDED, filled));
    GuidedMarkFails(Run(GUIDED, filled + GUIDED_CLICK));
    GuidedEndLeaks(Run(GUIDED, filled + GUIDED_CLICK + FAILED_MARK));
  }
}
