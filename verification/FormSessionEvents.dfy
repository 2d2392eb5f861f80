// Which event makes which entry of a form session's log, and when a submission may be recorded.
module FormSessionEvents {
  import opened Wrappers
  import opened CaseLedger
  import opened ProviderOutcomes
  import opened FormSession
  import opened FormSessionLog
  import opened FormSessionRuns

  // ---- Every entry has its event

  predicate StepAt(w: World, e: Event, i: nat) { e.StepOn? && e.i == i && i < |w.steps| }

  predicate EndAt(w: World, e: Event, x: nat) { e.EndOn? && e.x == x && x < |w.enders| }

  // Event e, in world w, is the one this entry tells of.
  predicate Caused(w: World, e: Event, o: Entry) {
    match o
    case Admitted(i, a, approved) =>
      StepAt(w, e, i) && w.steps[i].pc.Entered? && w.steps[i].action == a && e.choice.ok
        && e.choice.approved == approved
    case SentFields(i, _, _) =>
      StepAt(w, e, i) && w.steps[i].pc.Acting? && !e.choice.page.Refuses? && !e.choice.page.Rejects?
    case Clicked(i, p, _, under, c) =>
      StepAt(w, e, i) && w.steps[i].pc.Acting? && !e.choice.page.Refuses? && !e.choice.page.Rejects?
      && w.steps[i].action == Click(p) && under == w.steps[i].under && c == w.record
    case FillReturned(i, _) =>
      StepAt(w, e, i) && w.steps[i].pc.Sent? && w.steps[i].action.Fill? && e.choice.page.Returns?
    case Agreed(i) =>
      StepAt(w, e, i) && w.steps[i].pc.Sent? && w.form.stage == EmailEntry && w.steps[i].action == Click(Agree)
      && e.choice.page.Returns? && e.choice.page.checked
    case Selected(i) =>
      StepAt(w, e, i) && w.steps[i].pc.Sent? && w.form.stage == Guided && w.steps[i].action == Click(SelectRecord)
      && e.choice.page.Returns?
    case Reserved(i) => StepAt(w, e, i) && w.steps[i].pc.Reserving? && e.choice.fate.Applies()
    case Flagged(i, r) =>
      StepAt(w, e, i) && w.steps[i].pc.Marking? && e.choice.fate.Answered? && w.steps[i].under == Some(r)
    case LostReceipt(i) => StepAt(w, e, i) && w.steps[i].pc.Receipting? && e.choice.page == NoReceipt(DomainMismatch)
    case Recorded(i) => StepAt(w, e, i) && w.steps[i].pc.Recording? && e.choice.fate.Applies()
    case BlockedBy(i) => StepAt(w, e, i) && w.steps[i].pc.Blocking? && e.choice.fate.Applies()
    case Doubted(i) => StepAt(w, e, i) && w.steps[i].pc.Doubting? && e.choice.fate.Applies()
    case Released(i, r) =>
      StepAt(w, e, i) && w.steps[i].pc.Releasing? && e.choice.fate.Applies() && w.steps[i].under == Some(r)
    case Cleared(i) => StepAt(w, e, i) && w.steps[i].pc.Clearing? && e.choice.fate.Answered?
    case EndingBegan(x, saw) =>
      x == |w.enders| && (saw <==> w.session.flag.Some?)
      && (e.Expire? || e.Revoke?
          || (e.StepOn? && e.i < |w.steps|
              && ((w.steps[e.i].pc.Entered? && !e.choice.ok) || w.steps[e.i].pc.Ending?
                || (w.steps[e.i].pc.Closing? && e.choice.ok))))
    case DoubtedByEnd(x) => EndAt(w, e, x) && w.enders[x].pc.EDoubt? && e.choice.fate.Applies()
    case Queued(x) => EndAt(w, e, x) && (w.enders[x].pc.EQueue? || w.enders[x].pc.EHuman?) && e.choice.fate.Applies()
  }

  // At most one entry, with its cause.
  predicate Logs(w: World, t: World, e: Event) {
    || t.log == w.log
    || (|t.log| == |w.log| + 1 && t.log[..|w.log|] == w.log && Caused(w, e, t.log[|w.log|]))
  }

  // ---- Which steps go on to the receipt and the record

  predicate Concluding(pc: Pc) { pc.Receipting? || pc.Recording? }

  // A click that ends its stage's submission; in the generic stage the page may accept any click as the last.
  predicate FinalClick(stage: Stage, a: Action) {
    match stage
    case EmailEntry => a == Click(Continue)
    case Guided => a == Click(Suppress)
    case Generic => a.Click?
  }

  // The step's action has returned with the stage's success marker, every required field having been filled.
  predicate Succeeds(w: World, i: nat, c: Choice) {
    && i < |w.steps| && w.steps[i].pc.Sent? && FinalClick(w.form.stage, w.steps[i].action)
    && c.page.Returns? && c.page.success && (w.form.stage == Generic ==> w.form.required <= w.session.filled)
  }

  predicate Effect(w: World, t: World, i: nat, c: Choice) {
    && i < |w.steps| == |t.steps| && t.steps == w.steps[i := t.steps[i]]
    && Logs(w, t, StepOn(i, c))
    && (Concluding(t.steps[i].pc) ==> Concluding(w.steps[i].pc) || Succeeds(w, i, c))
  }

  lemma GotoEffect(w: World, i: nat, c: Choice, pc: Pc)
    requires i < |w.steps| && (Concluding(pc) ==> Concluding(w.steps[i].pc))
    ensures Effect(w, Goto(w, i, pc), i, c)
  {
  }

  lemma EnteredEffect(w: World, i: nat, c: Choice)
    requires i < |w.steps| && w.steps[i].pc.Entered?
    ensures Effect(w, StepEntered(w, i, c), i, c)
  {
  }

  lemma ReserveEffect(w: World, i: nat, c: Choice)
    requires i < |w.steps|
    ensures w.steps[i].pc.Reserving? ==> Effect(w, StepReserving(w, i, c), i, c)
    ensures w.steps[i].pc.Marking? ==> Effect(w, StepMarking(w, i, c), i, c)
  {
  }

  lemma ActEffect(w: World, i: nat, c: Choice)
    requires i < |w.steps| && w.steps[i].pc.Acting?
    ensures Effect(w, StepActing(w, i, c), i, c)
  {
  }

  lemma NotedEffect(w: World, i: nat, c: Choice)
    requires i < |w.steps| && w.steps[i].pc.Sent? && c.page.Returns?
    ensures var t := Noted(w, i, c.page.checked); t.steps == w.steps && Logs(w, t, StepOn(i, c))
  {
  }

  lemma SentEffect(w: World, i: nat, c: Choice)
    requires i < |w.steps| && w.steps[i].pc.Sent?
    ensures Effect(w, StepSent(w, i, c), i, c)
  {
    if c.page.Returns? { NotedEffect(w, i, c); }
  }

  lemma ReceiptEffect(w: World, i: nat, c: Choice)
    requires i < |w.steps|
    ensures w.steps[i].pc.Receipting? ==> Effect(w, StepReceipting(w, i, c), i, c)
    ensures w.steps[i].pc.Recording? ==> Effect(w, StepRecording(w, i, c), i, c)
  {
  }

  lemma ReleaseEffect(w: World, i: nat, c: Choice)
    requires i < |w.steps|
    ensures w.steps[i].pc.Releasing? ==> Effect(w, StepReleasing(w, i, c), i, c)
    ensures w.steps[i].pc.Clearing? ==> Effect(w, StepClearing(w, i, c), i, c)
  {
  }

  lemma LeaveEffect(w: World, i: nat, c: Choice)
    requires i < |w.steps|
    requires var pc := w.steps[i].pc;
      pc.Ending? || pc.Closing? || pc.Doubting? || pc.Blocking? || pc.Leaving? || pc.Done?
    ensures Effect(w, StepStep(w, i, c), i, c)
  {
  }

  lemma StepEffect(w: World, i: nat, c: Choice)
    requires i < |w.steps|
    ensures Effect(w, StepStep(w, i, c), i, c)
  {
    match w.steps[i].pc
    case Entered => EnteredEffect(w, i, c);
    case Reserving => ReserveEffect(w, i, c);
    case Marking => ReserveEffect(w, i, c);
    case Acting => ActEffect(w, i, c);
    case Sent => SentEffect(w, i, c);
    case Receipting => ReceiptEffect(w, i, c);
    case Recording => ReceiptEffect(w, i, c);
    case Releasing => ReleaseEffect(w, i, c);
    case Clearing => ReleaseEffect(w, i, c);
    case Acquiring => GotoEffect(w, i, c, if c.ok then Reserving else Done);
    case Inspecting => GotoEffect(w, i, c, if c.page.Rejects? then AfterRejection(c.page.drift) else Done);
    case Announcing => GotoEffect(w, i, c, StepStep(w, i, c).steps[i].pc);
    case Waiting(_) => GotoEffect(w, i, c, AfterError(w.steps[i], w.form.stage, RecipeQuarantined));
    case _ => LeaveEffect(w, i, c);
  }

  lemma NextLogs(w: World, e: Event)
    ensures Logs(w, Next(w, e), e)
  {
    match e
    case StepOn(i, c) => if i < |w.steps| { StepEffect(w, i, c); }
    case EndOn(x, c) => if x < |w.enders| { EndLogs(w, x, c); }
    case _ =>
  }

  lemma EndLogs(w: World, x: nat, c: Choice)
    requires x < |w.enders|
    ensures Logs(w, EndEnder(w, x, c), EndOn(x, c)) && EndEnder(w, x, c).steps == w.steps
  {
  }

  // Event m, in this run, wrote entry q.
  predicate WroteAt(w: World, events: seq<Event>, m: nat, o: Entry, q: nat) {
    m < |events| && |Run(w, events[..m]).log| == q && Caused(Run(w, events[..m]), events[m], o)
  }

  // Every entry of a run's log was written by an event of its kind: a consent by a return that saw the box
  // checked, a lost receipt by one that showed a foreign domain, a ledger entry by a call that took effect.
  lemma {:induction false} EntriesHaveTheirEvents(w: World, events: seq<Event>, q: nat)
    requires |w.log| <= q < |Run(w, events).log|
    ensures exists m: nat :: m < |events| && WroteAt(w, events, m, Run(w, events).log[q], q)
  {
    var front := events[..|events| - 1];
    LastEntry(w, events, q);
    if q < |Run(w, front).log| {
      EntriesHaveTheirEvents(w, front, q);
      var m: nat :| m < |front| && WroteAt(w, front, m, Run(w, front).log[q], q);
      WroteEarlier(w, events, |front|, m, Run(w, front).log[q], q);
    }
  }

  lemma LastEntry(w: World, events: seq<Event>, q: nat)
    requires events != [] && q < |Run(w, events).log|
    ensures var front := Run(w, events[..|events| - 1]);
      if q < |front.log| then Run(w, events).log[q] == front.log[q]
      else WroteAt(w, events, |events| - 1, Run(w, events).log[q], q)
  {
    var front, e := Run(w, events[..|events| - 1]), events[|events| - 1];
    NextLogs(front, e);
    var t := Next(front, e);
    assert q < |front.log| ==> t.log[q] == t.log[..|front.log|][q];
  }

  lemma WroteEarlier(w: World, events: seq<Event>, n: nat, m: nat, o: Entry, q: nat)
    requires m < n <= |events| && WroteAt(w, events[..n], m, o, q)
    ensures WroteAt(w, events, m, o, q)
  {
    assert events[..n][..m] == events[..m];
  }

  // ---- Recorded submissions

  // Event m is the successful return of step i.
  predicate SucceededAt(w: World, events: seq<Event>, m: nat, i: nat) {
    m < |events| && events[m].StepOn? && events[m].i == i && Succeeds(Run(w, events[..m]), i, events[m].choice)
  }

  lemma ConcludingWasSuccess(w: World, e: Event, i: nat)
    requires i < |Next(w, e).steps| && Concluding(Next(w, e).steps[i].pc)
    ensures i < |w.steps|
    ensures Concluding(w.steps[i].pc) || (e.StepOn? && e.i == i && Succeeds(w, i, e.choice))
  {
    if e.StepOn? && e.i < |w.steps| { StepEffect(w, e.i, e.choice); }
    if e.EndOn? && e.x < |w.enders| { EndLogs(w, e.x, e.choice); }
  }

  lemma {:induction false} ConcludesAfterSuccess(w: World, events: seq<Event>, i: nat)
    requires w.steps == [] && i < |Run(w, events).steps| && Concluding(Run(w, events).steps[i].pc)
    ensures exists m: nat :: m < |events| && SucceededAt(w, events, m, i)
  {
    var front, e := events[..|events| - 1], events[|events| - 1];
    ConcludingWasSuccess(Run(w, front), e, i);
    if Concluding(Run(w, front).steps[i].pc) {
      ConcludesAfterSuccess(w, front, i);
      var m: nat :| m < |front| && SucceededAt(w, front, m, i);
      assert front[..m] == events[..m] && SucceededAt(w, events, m, i);
    } else {
      assert SucceededAt(w, events, |front|, i);
    }
  }

  // A submission is recorded only after the success marker: for each entry Recorded(i) there is an earlier event
  // at which step i, its final click sent, returned with the marker; and in the generic stage every required
  // disclosure had been returned by then.
  lemma RecordsFollowSuccess(stage: Stage, fields: set<string>, values: set<string>, required: set<string>,
    record: Case,
                             events: seq<Event>, q: nat)
    requires Settled(record) && q < |Run(Begin(stage, fields, values, required, record), events).log|
    requires Run(Begin(stage, fields, values, required, record), events).log[q].Recorded?
    ensures var w := Begin(stage, fields, values, required, record);
      exists m: nat :: m < |events| && SuccessfulReturn(w, events, m, Run(w, events).log[q].step)
  {
    var w := Begin(stage, fields, values, required, record);
    var i := Run(w, events).log[q].step;
    EntriesHaveTheirEvents(w, events, q);
    var n: nat :| n < |events| && WroteAt(w, events, n, Run(w, events).log[q], q);
    ConcludesAfterSuccess(w, events[..n], i);
    var m: nat :| m < n && SucceededAt(w, events[..n], m, i);
    SucceededEarlier(w, events, n, m, i);
    RunIsBacked(stage, fields, values, required, record, events[..m]);
    SuccessIsBacked(w, events, m, i);
  }

  lemma SucceededEarlier(w: World, events: seq<Event>, n: nat, m: nat, i: nat)
    requires m < n <= |events| && SucceededAt(w, events[..n], m, i)
    ensures SucceededAt(w, events, m, i)
  {
    assert events[..n][..m] == events[..m];
  }

  predicate SuccessfulReturn(w: World, events: seq<Event>, m: nat, i: nat) {
    && m < |events| && events[m].StepOn? && events[m].i == i && events[m].choice.page.Returns?
    && events[m].choice.page.success
    && var u := Run(w, events[..m]);
       i < |u.steps| && u.steps[i].pc.Sent? && FinalClick(w.form.stage, u.steps[i].action)
       && (w.form.stage == Generic ==> forall d :: d in w.form.required ==> Filled(u.log, d))
  }

  lemma SuccessIsBacked(w: World, events: seq<Event>, m: nat, i: nat)
    requires SucceededAt(w, events, m, i) && Backs(Run(w, events[..m])) && Run(w, events[..m]).form == w.form
    ensures SuccessfulReturn(w, events, m, i)
  {
    var u := Run(w, events[..m]);
    forall d | w.form.stage == Generic && d in w.form.required ensures Filled(u.log, d) {
      assert d in u.session.filled;
    }
  }
}
