// What every run of a form session keeps: the log backs the session, the steps and the case.
module FormSessionLog {
  import opened Wrappers
  import opened CaseLedger
  import opened ProviderOutcomes
  import opened FormSession

  // ---- What a log entry must have before it

  predicate Evidence(form: Form, log: seq<Entry>, a: Action) {
    a.Click? ==>
      match form.stage
      case EmailEntry => Filled(log, "contact_email") && (a.purpose == Continue ==> SomeAgreed(log))
      case Generic => a.purpose == Submit ==> forall d :: d in form.required ==> Filled(log, d)
      case Guided =>
        && (a.purpose != SelectRecord ==> Filled(log, "full_name") && Filled(log, "date_of_birth"))
        && (a.purpose == Suppress ==> SomeSelected(log))
  }

  predicate AdmittedAt(log: seq<Entry>, i: nat, a: nat, action: Action) {
    a < |log| && log[a].Admitted? && log[a].step == i && log[a].action == action
  }

  // The reservation a click acts under: its own, made after its admission and not released, or the one the
  // flag named at its admission.
  predicate Backed(log: seq<Entry>, i: nat, a: nat, under: Option<nat>) {
    && a < |log| && under.Some? && under.value < |log|
    && if a < under.value then log[under.value] == Reserved(i) && Released(i, under.value) !in log
       else FlagOf(log[..a]) == under && log[under.value].Reserved?
  }

  predicate OwnPending(c: Case) { c.state.SubmissionPending? && c.outcome.Pending? && c.channel == Some(BrowserForm) }

  // The outcome is still "pending", but the state is one that no reconciliation accepts.
  predicate Leaked(c: Case) { c.outcome.Pending? && (c.state.Blocked? || c.state.HumanTaskQueued?) }

  predicate Justified(form: Form, log: seq<Entry>, e: Entry) {
    match e
    case Clicked(i, p, a, under, c) =>
      && AdmittedAt(log, i, a, Click(p)) && Evidence(form, log[..a], Click(p))
      && (NeedsIntent(form.stage, Click(p)) ==> Backed(log, i, a, under))
      && (OwnPending(c) <==> OpenOf(log).Some?)
    case SentFields(i, a, ds) =>
      && ds <= form.permitted.Values && a < |log| && log[a].Admitted? && log[a].step == i
      && (ds != {} ==> log[a].action.Fill? && ds == Disclosed(form, log[a].action.fields))
      && ("date_of_birth" in ds ==> log[a].approved)
    case FillReturned(i, ds) => ds <= form.permitted.Values && SentBy(log, i, ds)
    case Agreed(i) => SentClick(log, i, Agree)
    case Selected(i) => SentClick(log, i, SelectRecord)
    case Flagged(i, r) => r < |log| && log[r] == Reserved(i)
    case Released(i, r) =>
      && r < |log| && log[r] == Reserved(i)
      && (LostReceipt(i) in log <==> ClickedBy(log, i, Some(r)))
    case EndingBegan(_, saw) => saw <==> FlagOf(log).Some?
    case DoubtedByEnd(x) => EndingBegan(x, true) in log
    case BlockedBy(_) => OpenOf(log).Some? ==> !SomeDoubted(log)
    case Queued(x) =>
      && (EndingBegan(x, true) in log || EndingBegan(x, false) in log)
      && (OpenOf(log).Some? ==> !SomeDoubted(log))
    case _ => true
  }

  predicate SentBy(log: seq<Entry>, i: nat, ds: set<string>) {
    exists k :: 0 <= k < |log| && log[k].SentFields? && log[k].step == i && log[k].disclosures == ds
  }

  predicate SentClick(log: seq<Entry>, i: nat, p: Purpose) {
    exists k :: 0 <= k < |log| && log[k].Clicked? && log[k].step == i && log[k].purpose == p
  }

  ghost predicate AllJustified(form: Form, log: seq<Entry>) {
    forall n :: 0 <= n < |log| ==> Justified(form, log[..n], log[n])
  }

  lemma JustifiedGrows(form: Form, log: seq<Entry>, e: Entry)
    requires AllJustified(form, log) && Justified(form, log, e)
    ensures AllJustified(form, log + [e])
  {
    forall n | 0 <= n < |log + [e]| ensures Justified(form, (log + [e])[..n], (log + [e])[n]) {
      if n < |log| {
        assert (log + [e])[..n] == log[..n] && (log + [e])[n] == log[n];
        assert Justified(form, log[..n], log[n]);
      } else {
        assert (log + [e])[..n] == log;
      }
    }
  }

  // ---- How the readings of the log grow

  lemma LogGrows(log: seq<Entry>, e: Entry)
    ensures (log + [e])[..|log|] == log
    ensures forall k :: 0 <= k <= |log| ==> (log + [e])[..k] == log[..k]
    ensures forall k :: 0 <= k < |log| ==> (log + [e])[k] == log[k]
    ensures forall d :: Filled(log, d) ==> Filled(log + [e], d)
    ensures SomeAgreed(log) ==> SomeAgreed(log + [e])
    ensures SomeSelected(log) ==> SomeSelected(log + [e])
  {
    forall d | Filled(log, d) ensures Filled(log + [e], d) {
      var k :| 0 <= k < |log| && log[k].FillReturned? && d in log[k].disclosures;
      assert (log + [e])[k] == log[k];
    }
    if SomeAgreed(log) {
      var k :| 0 <= k < |log| && log[k].Agreed?;
      assert (log + [e])[k] == log[k];
    }
    if SomeSelected(log) {
      var k :| 0 <= k < |log| && log[k].Selected?;
      assert (log + [e])[k] == log[k];
    }
  }

  lemma FlagGrows(log: seq<Entry>, e: Entry)
    ensures FlagOf(log + [e]) == if e.Flagged? then Some(e.intent) else if e.Cleared? then None else FlagOf(log)
  {
    assert (log + [e])[..|log|] == log;
  }

  lemma OpenGrows(log: seq<Entry>, e: Entry)
    ensures OpenOf(log + [e]) == if e.Reserved? then Some(|log|) else if Settles(e) then None else OpenOf(log)
  {
    assert (log + [e])[..|log|] == log;
  }

  lemma ClickedGrows(log: seq<Entry>, e: Entry, i: nat, under: Option<nat>)
    ensures ClickedBy(log + [e], i, under)
      <==> ClickedBy(log, i, under) || (e.Clicked? && e.step == i && e.under == under)
  {
    var longer := log + [e];
    if k :| 0 <= k < |log| && log[k].Clicked? && log[k].step == i && log[k].under == under {
      assert longer[k] == log[k];
    }
    assert longer[|log|] == e;
    if k :| 0 <= k < |longer| && longer[k].Clicked? && longer[k].step == i && longer[k].under == under {
      assert k < |log| ==> log[k] == longer[k];
    }
  }

  lemma SentClickGrows(log: seq<Entry>, e: Entry, i: nat, p: Purpose)
    ensures SentClick(log + [e], i, p) <==> SentClick(log, i, p) || (e.Clicked? && e.step == i && e.purpose == p)
  {
    var longer := log + [e];
    if k :| 0 <= k < |log| && log[k].Clicked? && log[k].step == i && log[k].purpose == p {
      assert longer[k] == log[k];
    }
    assert longer[|log|] == e;
    if k :| 0 <= k < |longer| && longer[k].Clicked? && longer[k].step == i && longer[k].purpose == p {
      assert k < |log| ==> log[k] == longer[k];
    }
  }

  lemma SentByGrows(log: seq<Entry>, e: Entry, i: nat, ds: set<string>)
    ensures SentBy(log, i, ds) || (e.SentFields? && e.step == i && e.disclosures == ds) ==> SentBy(log + [e], i, ds)
  {
    if k :| 0 <= k < |log| && log[k].SentFields? && log[k].step == i && log[k].disclosures == ds {
      assert (log + [e])[k] == log[k];
    }
    assert (log + [e])[|log|] == e;
  }

  lemma DoubtedGrows(log: seq<Entry>, e: Entry)
    ensures SomeDoubted(log + [e]) <==> SomeDoubted(log) || e.Doubted? || e.DoubtedByEnd?
  {
    var longer := log + [e];
    if k :| 0 <= k < |log| && (log[k].Doubted? || log[k].DoubtedByEnd?) { assert longer[k] == log[k]; }
    assert longer[|log|] == e;
    if k :| 0 <= k < |longer| && (longer[k].Doubted? || longer[k].DoubtedByEnd?) {
      assert k < |log| ==> log[k] == longer[k];
    }
  }

  lemma {:induction false} FlagIsReserved(form: Form, log: seq<Entry>)
    requires AllJustified(form, log)
    ensures FlagOf(log).Some? ==> FlagOf(log).value < |log| && log[FlagOf(log).value].Reserved?
  {
    if log != [] {
      var front := log[..|log| - 1];
      assert Justified(form, front, log[|log| - 1]);
      forall n | 0 <= n < |front| ensures Justified(form, front[..n], front[n]) {
        assert front[..n] == log[..n] && front[n] == log[n];
      }
      FlagIsReserved(form, front);
    }
  }

  // ---- The case and the log

  predicate LeakAt(log: seq<Entry>, q: nat) {
    q < |log| && (log[q].Queued? || log[q].BlockedBy?) && OpenOf(log[..q]).Some?
  }

  predicate SomeLeak(log: seq<Entry>) { exists q: nat :: q < |log| && LeakAt(log, q) }

  lemma LeakGrows(log: seq<Entry>, e: Entry)
    ensures SomeLeak(log + [e]) <==> SomeLeak(log) || ((e.Queued? || e.BlockedBy?) && OpenOf(log).Some?)
  {
    var longer := log + [e];
    assert longer[..|log|] == log && longer[|log|] == e;
    if q: nat :| q < |log| && LeakAt(log, q) {
      assert longer[..q] == log[..q] && LeakAt(longer, q);
    }
    if (e.Queued? || e.BlockedBy?) && OpenOf(log).Some? { assert LeakAt(longer, |log|); }
    if q: nat :| q < |longer| && LeakAt(longer, q) {
      if q < |log| { assert longer[..q] == log[..q] && LeakAt(log, q); }
    }
  }

  // The case is the reserved pending one exactly while the log has an unsettled reservation; its outcome is
  // "pending" otherwise only after a leak.
  predicate CaseFits(c: Case, log: seq<Entry>) {
    && PortalByForm(c)
    && (OwnPending(c) <==> OpenOf(log).Some?)
    && (Leaked(c) <==> SomeLeak(log))
    && (c.outcome.Pending? ==> OwnPending(c) || Leaked(c))
    && (c.state.SubmissionPending? ==> OwnPending(c))
    && (SomeDoubted(log) ==>
      c.outcome.Uncertain? && (c.state.SubmissionUncertain? || c.state.Blocked? || c.state.HumanTaskQueued?))
  }

  // The ledger calls a session makes, with their entries.
  predicate Calls(stage: Stage, op: Op, e: Entry) {
    || (op == ReserveOp(stage) && e.Reserved?)
    || (op == Release && e.Released?)
    || (op == RecordUncertain(BrowserForm) && (e.Doubted? || e.DoubtedByEnd?))
    || (op == RecordOp(stage) && e.Recorded?)
    || (op == RecordLifecycle(CaseState.Blocked, 0) && e.BlockedBy?)
    || (op == RecordLifecycle(HumanTaskQueued, 0) && e.Queued?)
  }

  predicate SetAside(c: Case) { c.state.SubmissionUncertain? || c.state.Blocked? || c.state.HumanTaskQueued? }

  lemma CallEffect(c: Case, stage: Stage, op: Op, e: Entry, at: int)
    requires Calls(stage, op, e) && Apply(c, op, at).Success? && PortalByForm(c)
    requires c.state.SubmissionPending? ==> OwnPending(c)
    ensures var d := Apply(c, op, at).value;
      && PortalByForm(d) && (d.state.SubmissionPending? ==> OwnPending(d))
      && (OwnPending(d) <==> e.Reserved?)
      && (Leaked(d) <==> (e.Queued? || e.BlockedBy?) && c.outcome.Pending?)
      && (d.outcome.Pending? ==> OwnPending(d) || Leaked(d))
      && (e.Reserved? ==> !OwnPending(c))
      && (e.Doubted? || e.DoubtedByEnd? ==> d.outcome.Uncertain? && SetAside(d))
      && (Leaked(c) ==> e.Queued? || e.BlockedBy?)
      && (c.outcome.Uncertain? && SetAside(c) ==>
        (e.Queued? || e.BlockedBy?) && d.outcome.Uncertain? && SetAside(d))
  {
  }

  lemma CallFits(c: Case, log: seq<Entry>, stage: Stage, op: Op, e: Entry, at: int)
    requires CaseFits(c, log) && Calls(stage, op, e) && Apply(c, op, at).Success?
    ensures CaseFits(Apply(c, op, at).value, log + [e])
  {
    CallEffect(c, stage, op, e, at);
    OpenGrows(log, e);
    LeakGrows(log, e);
    DoubtedGrows(log, e);
  }

  lemma SilentFits(c: Case, log: seq<Entry>, e: Entry)
    requires CaseFits(c, log) && !e.Reserved? && !Settles(e)
    ensures CaseFits(c, log + [e])
  {
    OpenGrows(log, e);
    LeakGrows(log, e);
    DoubtedGrows(log, e);
  }

  // ---- The session and the log

  ghost predicate SessionFits(s: Session, log: seq<Entry>) {
    && s.flag == FlagOf(log) && (forall d :: d in s.filled ==> Filled(log, d))
    && (s.consent ==> SomeAgreed(log)) && (s.selected ==> SomeSelected(log))
  }

  lemma SessionStays(s: Session, log: seq<Entry>, e: Entry)
    requires SessionFits(s, log) && !e.Flagged? && !e.Cleared?
    ensures SessionFits(s, log + [e])
  {
    LogGrows(log, e);
    FlagGrows(log, e);
  }

  // ---- The steps and the log

  predicate NoClick(log: seq<Entry>, i: nat) { forall k :: 0 <= k < |log| ==> log[k].Clicked? ==> log[k].step != i }

  predicate BeforeSending(pc: Pc) {
    pc.Entered? || pc.Acquiring? || pc.Reserving? || pc.Marking? || pc.Acting? || pc.Inspecting? || pc.Closing?
  }

  predicate UnderFits(log: seq<Entry>, step: Step, i: nat) {
    && step.admitted.Some? && step.admitted.value < |log| && step.under.Some? && step.under.value < |log|
    && if step.own then step.admitted.value < step.under.value && log[step.under.value] == Reserved(i)
       else
         step.under.value < step.admitted.value && FlagOf(log[..step.admitted.value]) == step.under
         && log[step.under.value].Reserved?
  }

  ghost predicate AdmissionFits(form: Form, log: seq<Entry>, step: Step, i: nat) {
    && (step.admitted.Some? ==>
      AdmittedAt(log, i, step.admitted.value, step.action) && Evidence(form, log[..step.admitted.value], step.action))
    && (step.admitted.Some? && step.action.Fill? && "date_of_birth" in Disclosed(form, step.action.fields) ==>
      log[step.admitted.value].approved)
    && (step.pc.Acquiring? || step.pc.Reserving? || step.pc.Marking? || step.pc.Acting? || step.pc.Sent? ==>
      step.admitted.Some?)
    && (step.under.Some? ==> UnderFits(log, step, i))
    && (step.own ==> step.under.Some?) && (step.pc.Entered? ==> step.admitted.None?)
    && (step.pc.Marking? ==> step.own)
    && ((step.pc.Acting? || step.pc.Sent?) && NeedsIntent(form.stage, step.action) ==> step.under.Some?)
  }

  predicate ClicksFit(form: Form, log: seq<Entry>, step: Step, i: nat) {
    && (if step.clicked then ClickedBy(log, i, step.under) else NoClick(log, i))
    && (step.lost <==> LostReceipt(i) in log)
    && (step.own && step.under.Some? && !step.pc.Clearing? && !step.pc.Done? ==> Released(i, step.under.value) !in log)
    && (BeforeSending(step.pc) ==> !step.clicked && !step.lost)
    && (step.pc.Sent? ==>
      && !step.lost && (step.clicked <==> step.action.Click?)
      && (step.action.Fill? ==> SentBy(log, i, Disclosed(form, step.action.fields)))
      && (step.action.Click? ==> SentClick(log, i, step.action.purpose)))
    && (step.pc.Receipting? ==> step.clicked && !step.lost)
    && (step.pc.Releasing? ==> step.own && (step.clicked <==> step.lost))
  }

  ghost predicate StepFits(form: Form, log: seq<Entry>, step: Step, i: nat) {
    AdmissionFits(form, log, step, i) && ClicksFit(form, log, step, i)
  }

  // An entry that another step's record of itself does not depend on.
  predicate Apart(e: Entry, i: nat) { e.Clicked? || e.LostReceipt? || e.Released? ==> e.step != i }

  lemma AdmissionStays(form: Form, log: seq<Entry>, e: Entry, step: Step, i: nat)
    requires AdmissionFits(form, log, step, i)
    ensures AdmissionFits(form, log + [e], step, i)
  {
    LogGrows(log, e);
  }

  lemma ClicksStay(form: Form, log: seq<Entry>, e: Entry, step: Step, i: nat)
    requires ClicksFit(form, log, step, i) && Apart(e, i)
    ensures ClicksFit(form, log + [e], step, i)
  {
    LogGrows(log, e);
    ClickedGrows(log, e, i, step.under);
    if step.action.Fill? { SentByGrows(log, e, i, Disclosed(form, step.action.fields)); }
    if step.action.Click? { SentClickGrows(log, e, i, step.action.purpose); }
  }

  // ---- The endings and the log

  predicate EnderFits(log: seq<Entry>, ender: Ender, x: nat) {
    EndingBegan(x, ender.saw) in log && (ender.pc.EDoubt? ==> ender.saw)
  }

  // ---- The invariant

  // Clicks and lost receipts are of steps there are.
  predicate Known(log: seq<Entry>, steps: nat) {
    forall k :: 0 <= k < |log| ==> log[k].Clicked? || log[k].LostReceipt? ==> log[k].step < steps
  }

  ghost predicate Backs(w: World) {
    && Known(w.log, |w.steps|)
    && AllJustified(w.form, w.log) && SessionFits(w.session, w.log) && CaseFits(w.record, w.log)
    && (forall i :: 0 <= i < |w.steps| ==> StepFits(w.form, w.log, w.steps[i], i))
    && (forall x :: 0 <= x < |w.enders| ==> EnderFits(w.log, w.enders[x], x))
  }

  // Step i moves without an entry; nothing else changes but that the session may end.
  lemma QuietMove(w: World, t: World, i: nat)
    requires Backs(w) && i < |w.steps| && |t.steps| == |w.steps| && t.steps == w.steps[i := t.steps[i]]
    requires t.form == w.form && t.log == w.log && t.record == w.record && t.enders == w.enders
    requires t.session == w.session.(live := t.session.live) && StepFits(w.form, w.log, t.steps[i], i)
    ensures Backs(t)
  {
  }

  // Step i moves and logs an entry.
  lemma LoggedMove(w: World, t: World, i: nat, e: Entry)
    requires Backs(w) && i < |w.steps| && |t.steps| == |w.steps| && t.steps == w.steps[i := t.steps[i]]
    requires t.form == w.form && t.log == w.log + [e] && t.enders == w.enders && Justified(w.form, w.log, e)
    requires e.Clicked? || e.LostReceipt? || e.Released? ==> e.step == i
    requires SessionFits(t.session, t.log) && CaseFits(t.record, t.log) && StepFits(t.form, t.log, t.steps[i], i)
    ensures Backs(t)
  {
    JustifiedGrows(w.form, w.log, e);
    forall k | 0 <= k < |t.steps| ensures StepFits(t.form, t.log, t.steps[k], k) {
      if k != i {
        assert StepFits(w.form, w.log, w.steps[k], k);
        AdmissionStays(w.form, w.log, e, w.steps[k], k);
        ClicksStay(w.form, w.log, e, w.steps[k], k);
      }
    }
    forall x | 0 <= x < |t.enders| ensures EnderFits(t.log, t.enders[x], x) {
      assert EnderFits(w.log, w.enders[x], x);
    }
  }

  // An entry of no step, which leaves the steps and the flag alone; endings come and go on.
  lemma EndingMove(w: World, t: World, e: Entry)
    requires Backs(w) && t.steps == w.steps && t.form == w.form && t.log == w.log + [e] && Justified(w.form, w.log, e)
    requires e.EndingBegan? || e.DoubtedByEnd? || e.Queued?
    requires t.session == w.session.(live := t.session.live) && CaseFits(t.record, t.log)
    requires forall x :: 0 <= x < |t.enders| ==> EnderFits(t.log, t.enders[x], x)
    ensures Backs(t)
  {
    JustifiedGrows(w.form, w.log, e);
    SessionStays(w.session, w.log, e);
    forall k | 0 <= k < |t.steps| ensures StepFits(t.form, t.log, t.steps[k], k) {
      assert StepFits(w.form, w.log, w.steps[k], k);
      AdmissionStays(w.form, w.log, e, w.steps[k], k);
      ClicksStay(w.form, w.log, e, w.steps[k], k);
    }
  }

  lemma BeginningKeeps(w: World, human: bool, closing: bool)
    requires Backs(w)
    ensures Backs(BeginEnding(w, human, closing))
  {
    var t := BeginEnding(w, human, closing);
    var e := EndingBegan(|w.enders|, w.session.flag.Some?);
    SilentFits(w.record, w.log, e);
    forall x | 0 <= x < |t.enders| ensures EnderFits(t.log, t.enders[x], x) {
      if x < |w.enders| { assert EnderFits(w.log, w.enders[x], x) && t.enders[x] == w.enders[x]; }
    }
    EndingMove(w, t, e);
  }

  lemma EndersStay(w: World, x: nat, pc: EndPc, log: seq<Entry>)
    requires Backs(w) && x < |w.enders| && !pc.EDoubt? && w.log <= log
    ensures forall y :: 0 <= y < |w.enders| ==> EnderFits(log, GotoEnd(w, x, pc).enders[y], y)
  {
    forall y | 0 <= y < |w.enders| ensures EnderFits(log, GotoEnd(w, x, pc).enders[y], y) {
      assert EnderFits(w.log, w.enders[y], y);
    }
  }

  // An ender goes on after its ledger call, whether or not that takes effect.
  lemma EndCallKeeps(w: World, x: nat, op: Op, c: Choice, e: Entry, pc: EndPc)
    requires Backs(w) && x < |w.enders| && !pc.EDoubt? && Calls(w.form.stage, op, e)
    requires e == Queued(x) || (e == DoubtedByEnd(x) && w.enders[x].pc.EDoubt?)
    ensures Backs(GotoEnd(Land(w, op, c, e), x, pc))
  {
    var t := GotoEnd(Land(w, op, c, e), x, pc);
    assert EnderFits(w.log, w.enders[x], x);
    EndersStay(w, x, pc, t.log);
    if t.log != w.log {
      CallFits(w.record, w.log, w.form.stage, op, e, c.at);
      EndingMove(w, t, e);
    }
  }

  lemma EnderKeeps(w: World, x: nat, c: Choice)
    requires Backs(w) && x < |w.enders|
    ensures Backs(EndEnder(w, x, c))
  {
    var ender, queue := w.enders[x], RecordLifecycle(HumanTaskQueued, 0);
    var last := if ender.human && w.form.stage == Guided then EHuman else EDone;
    match ender.pc
    case EDoubt =>
      EndCallKeeps(w, x, RecordUncertain(BrowserForm), c, DoubtedByEnd(x), if ender.closing then EDone else ETab);
    case ETab => EndersStay(w, x, if c.ok then last else EQueue, w.log);
    case EQueue => EndCallKeeps(w, x, queue, c, Queued(x), last);
    case EHuman => EndCallKeeps(w, x, queue, c, Queued(x), EDone);
    case EDone =>
  }

  // ---- The steps, one by one

  lemma EnteredKeeps(w: World, i: nat, c: Choice)
    requires Backs(w) && i < |w.steps| && w.steps[i].pc.Entered?
    ensures Backs(StepEntered(w, i, c))
  {
    var a := w.steps[i].action;
    if !c.ok {
      EndingStepKeeps(w, i, Done, false, false);
    } else if a.Inspect? {
      InspectedKeeps(w, i);
    } else if !PassesChecks(w.form, w.session, a, c.approved) {
      PassingKeeps(w, i, Done);
    } else {
      AdmittingKeeps(w, i, c);
    }
  }

  lemma AdmittedHasEvidence(form: Form, s: Session, log: seq<Entry>, a: Action, approved: bool)
    requires SessionFits(s, log) && PassesChecks(form, s, a, approved)
    ensures Evidence(form, log, a)
  {
  }

  // The step that an admission leaves.
  lemma AdmissionBegins(form: Form, s: Session, log: seq<Entry>, step: Step, i: nat, approved: bool, pc: Pc)
    requires SessionFits(s, log) && PassesChecks(form, s, step.action, approved) && !step.own && step.admitted.None?
    requires FlagOf(log).Some? ==> FlagOf(log).value < |log| && log[FlagOf(log).value].Reserved?
    requires pc.Acquiring? || (pc.Acting? && (NeedsIntent(form.stage, step.action) ==> s.flag.Some?))
    ensures AdmissionFits(form, log + [Admitted(i, step.action, approved)],
                          step.(pc := pc, admitted := Some(|log|), under := s.flag), i)
  {
    LogGrows(log, Admitted(i, step.action, approved));
    AdmittedHasEvidence(form, s, log, step.action, approved);
  }

  lemma ClicksBegin(form: Form, log: seq<Entry>, step: Step, i: nat, e: Entry, under: Option<nat>,
                    admitted: Option<nat>, pc: Pc)
    requires ClicksFit(form, log, step, i) && BeforeSending(step.pc) && BeforeSending(pc) && !step.own && Apart(e, i)
    ensures ClicksFit(form, log + [e], step.(pc := pc, admitted := admitted, under := under), i)
  {
    ClicksStay(form, log, e, step, i);
  }

  lemma AdmittingKeeps(w: World, i: nat, c: Choice)
    requires Backs(w) && i < |w.steps| && w.steps[i].pc.Entered? && c.ok && !w.steps[i].action.Inspect?
    requires PassesChecks(w.form, w.session, w.steps[i].action, c.approved)
    ensures Backs(StepEntered(w, i, c))
  {
    var step, t := w.steps[i], StepEntered(w, i, c);
    var e := Admitted(i, step.action, c.approved);
    assert StepFits(w.form, w.log, step, i);
    FlagIsReserved(w.form, w.log);
    AdmissionBegins(w.form, w.session, w.log, step, i, c.approved, t.steps[i].pc);
    ClicksBegin(w.form, w.log, step, i, e, w.session.flag, Some(|w.log|), t.steps[i].pc);
    SessionStays(w.session, w.log, e);
    SilentFits(w.record, w.log, e);
    LoggedMove(w, t, i, e);
  }

  lemma ReservingKeeps(w: World, i: nat, c: Choice)
    requires Backs(w) && i < |w.steps| && w.steps[i].pc.Reserving?
    ensures Backs(StepReserving(w, i, c))
  {
    var step, t, e := w.steps[i], StepReserving(w, i, c), Reserved(i);
    assert StepFits(w.form, w.log, step, i);
    if t.log == w.log {
      QuietMove(w, t, i);
    } else {
      CallFits(w.record, w.log, w.form.stage, ReserveOp(w.form.stage), e, c.at);
      SessionStays(w.session, w.log, e);
      AdmissionStays(w.form, w.log, e, step, i);
      ClicksStay(w.form, w.log, e, step, i);
      ReleasesAreOld(w.form, w.log, i);
      LoggedMove(w, t, i, e);
    }
  }

  // No release is of a reservation yet to come.
  lemma ReleasesAreOld(form: Form, log: seq<Entry>, i: nat)
    requires AllJustified(form, log)
    ensures Released(i, |log|) !in log
  {
    forall n | 0 <= n < |log| && log[n].Released? ensures log[n].intent < n {
      assert Justified(form, log[..n], log[n]);
    }
  }

  lemma MarkingKeeps(w: World, i: nat, c: Choice)
    requires Backs(w) && i < |w.steps| && w.steps[i].pc.Marking?
    ensures Backs(StepMarking(w, i, c))
  {
    var step, t := w.steps[i], StepMarking(w, i, c);
    assert StepFits(w.form, w.log, step, i);
    if t.log == w.log {
      QuietMove(w, t, i);
    } else {
      var e := Flagged(i, step.under.value);
      LogGrows(w.log, e);
      FlagGrows(w.log, e);
      SilentFits(w.record, w.log, e);
      AdmissionStays(w.form, w.log, e, step, i);
      ClicksStay(w.form, w.log, e, step, i);
      LoggedMove(w, t, i, e);
    }
  }

  // A step that only moves on, to where nothing more is asked of it.
  lemma GotoFits(form: Form, log: seq<Entry>, step: Step, i: nat, pc: Pc)
    requires StepFits(form, log, step, i)
    requires !BeforeSending(pc) && !pc.Sent? && !pc.Receipting? && !pc.Releasing?
    requires pc.Clearing? || pc.Done? || (!step.pc.Clearing? && !step.pc.Done?)
    ensures StepFits(form, log, step.(pc := pc), i)
  {
  }

  // The catch clause gets to a release only without a click, or with a lost receipt.
  lemma ErrorFits(form: Form, log: seq<Entry>, step: Step, i: nat, code: StepCode)
    requires StepFits(form, log, step, i) && !step.pc.Clearing? && !step.pc.Done?
    requires DefinitelyNotStarted(code) ==> (step.clicked <==> step.lost)
    ensures StepFits(form, log, step.(pc := AfterError(step, form.stage, code)), i)
  {
  }

  lemma ClickIsJustified(form: Form, log: seq<Entry>, step: Step, i: nat, c: Case)
    requires StepFits(form, log, step, i) && step.pc.Acting? && step.action.Click? && CaseFits(c, log)
    ensures Justified(form, log, Clicked(i, step.action.purpose, step.admitted.value, step.under, c))
  {
  }

  lemma FillIsJustified(form: Form, log: seq<Entry>, step: Step, i: nat)
    requires StepFits(form, log, step, i) && step.pc.Acting? && !step.action.Click?
    ensures Justified(form, log, SentFields(i, step.admitted.value, {}))
    ensures step.action.Fill? ==>
      Justified(form, log, SentFields(i, step.admitted.value, Disclosed(form, step.action.fields)))
  {
  }

  lemma ClickGoesOut(form: Form, log: seq<Entry>, step: Step, i: nat, c: Case)
    requires StepFits(form, log, step, i) && step.pc.Acting? && step.action.Click?
    ensures var e := Clicked(i, step.action.purpose, step.admitted.value, step.under, c);
      StepFits(form, log + [e], step.(pc := Pc.Sent, clicked := true), i)
  {
    var e := Clicked(i, step.action.purpose, step.admitted.value, step.under, c);
    AdmissionStays(form, log, e, step, i);
    ClickedGrows(log, e, i, step.under);
    SentClickGrows(log, e, i, step.action.purpose);
    LogGrows(log, e);
  }

  lemma FillGoesOut(form: Form, log: seq<Entry>, step: Step, i: nat, ds: set<string>)
    requires StepFits(form, log, step, i) && step.pc.Acting? && !step.action.Click?
    requires step.action.Fill? ==> ds == Disclosed(form, step.action.fields)
    ensures StepFits(form, log + [SentFields(i, step.admitted.value, ds)], step.(pc := Pc.Sent, clicked := false), i)
  {
    var e := SentFields(i, step.admitted.value, ds);
    AdmissionStays(form, log, e, step, i);
    ClicksStay(form, log, e, step, i);
    SentByGrows(log, e, i, ds);
  }

  lemma SendingKeeps(w: World, i: nat, c: Choice)
    requires Backs(w) && i < |w.steps| && w.steps[i].pc.Acting? && w.steps[i].admitted.Some?
    requires !c.page.Refuses? && !c.page.Rejects?
    ensures Backs(StepActing(w, i, c))
  {
    var step, t, e := w.steps[i], StepActing(w, i, c), Sending(w, i);
    assert StepFits(w.form, w.log, step, i);
    if step.action.Click? {
      ClickIsJustified(w.form, w.log, step, i, w.record);
      ClickGoesOut(w.form, w.log, step, i, w.record);
    } else {
      FillIsJustified(w.form, w.log, step, i);
      FillGoesOut(w.form, w.log, step, i, e.disclosures);
    }
    SessionStays(w.session, w.log, e);
    SilentFits(w.record, w.log, e);
    LoggedMove(w, t, i, e);
  }

  lemma ActingKeeps(w: World, i: nat, c: Choice)
    requires Backs(w) && i < |w.steps| && w.steps[i].pc.Acting?
    ensures Backs(StepActing(w, i, c))
  {
    var step, t := w.steps[i], StepActing(w, i, c);
    assert StepFits(w.form, w.log, step, i);
    match c.page
    case Refuses(code) =>
      ErrorFits(w.form, w.log, step, i, code);
      if t != w { QuietMove(w, t, i); }
    case Rejects(d) =>
      GotoFits(w.form, w.log, step, i, AfterRejection(d));
      QuietMove(w, t, i);
    case _ => if step.admitted.Some? { SendingKeeps(w, i, c); }
  }

  // What a return notes is backed by its own entry.
  lemma NotedFits(s: Session, log: seq<Entry>, e: Entry)
    requires SessionFits(s, log)
    ensures e.FillReturned? ==> SessionFits(s.(filled := s.filled + e.disclosures), log + [e])
    ensures e.Agreed? ==> SessionFits(s.(consent := true), log + [e])
    ensures e.Selected? ==> SessionFits(s.(selected := true), log + [e])
  {
    LogGrows(log, e);
    FlagGrows(log, e);
    assert (log + [e])[|log|] == e;
  }

  // An entry about what a sent action did, with what the session notes of it.
  lemma NotingKeeps(w: World, i: nat, e: Entry, s: Session)
    requires Backs(w) && i < |w.steps| && (e.FillReturned? || e.Agreed? || e.Selected?) && Justified(w.form, w.log, e)
    requires SessionFits(s, w.log + [e])
    ensures Backs(Logged(w.(session := s), e))
  {
    assert StepFits(w.form, w.log, w.steps[i], i);
    SilentFits(w.record, w.log, e);
    AdmissionStays(w.form, w.log, e, w.steps[i], i);
    ClicksStay(w.form, w.log, e, w.steps[i], i);
    LoggedMove(w, Logged(w.(session := s), e), i, e);
  }

  lemma NotedKeeps(w: World, i: nat, checked: bool)
    requires Backs(w) && i < |w.steps| && w.steps[i].pc.Sent?
    ensures Backs(Noted(w, i, checked)) && Noted(w, i, checked).steps == w.steps && Noted(w, i, checked).form == w.form
  {
    var a, t := w.steps[i].action, Noted(w, i, checked);
    if t.log != w.log {
      var e :=
        if a.Fill? then FillReturned(i, Disclosed(w.form, a.fields))
        else if Selecting(w.form.stage, a) then Selected(i) else Agreed(i);
      assert StepFits(w.form, w.log, w.steps[i], i);
      NotedIsJustified(w.form, w.log, w.steps[i], i);
      NotedFits(w.session, w.log, e);
      NotingKeeps(w, i, e, t.session);
    }
  }

  lemma NotedIsJustified(form: Form, log: seq<Entry>, step: Step, i: nat)
    requires StepFits(form, log, step, i) && step.pc.Sent?
    ensures step.action.Fill? ==> Justified(form, log, FillReturned(i, Disclosed(form, step.action.fields)))
    ensures step.action == Click(Agree) ==> Justified(form, log, Agreed(i))
    ensures step.action == Click(SelectRecord) ==> Justified(form, log, Selected(i))
  {
  }

  // Where a returned action goes: a receipt is taken of clicks only.
  lemma ReturnGoesOn(w: World, i: nat, success: bool, checked: bool)
    requires i < |w.steps|
    ensures var pc := AfterReturn(w, i, success, checked);
      pc.Done? || pc.Doubting? || (pc.Receipting? && w.steps[i].action.Click?)
  {
  }

  lemma SentGoesOn(form: Form, log: seq<Entry>, step: Step, i: nat, pc: Pc)
    requires StepFits(form, log, step, i) && step.pc.Sent?
    requires pc.Done? || pc.Doubting? || pc.Blocking? || pc.Ending? || (pc.Receipting? && step.action.Click?)
    ensures StepFits(form, log, step.(pc := pc), i)
  {
  }

  lemma SentKeeps(w: World, i: nat, c: Choice)
    requires Backs(w) && i < |w.steps| && w.steps[i].pc.Sent?
    ensures Backs(StepSent(w, i, c))
  {
    var step, t := w.steps[i], StepSent(w, i, c);
    if c.page.Returns? {
      var u := Noted(w, i, c.page.checked);
      NotedKeeps(w, i, c.page.checked);
      ReturnGoesOn(w, i, c.page.success, c.page.checked);
      SentMove(u, i, AfterReturn(w, i, c.page.success, c.page.checked));
    } else {
      SentMove(w, i, t.steps[i].pc);
    }
  }

  lemma SentMove(w: World, i: nat, pc: Pc)
    requires Backs(w) && i < |w.steps| && w.steps[i].pc.Sent?
    requires pc.Done? || pc.Doubting? || pc.Blocking? || pc.Ending? || (pc.Receipting? && w.steps[i].action.Click?)
    ensures Backs(Goto(w, i, pc))
  {
    assert StepFits(w.form, w.log, w.steps[i], i);
    SentGoesOn(w.form, w.log, w.steps[i], i, pc);
    QuietMove(w, Goto(w, i, pc), i);
  }

  lemma ReceiptIsLost(form: Form, log: seq<Entry>, step: Step, i: nat)
    requires StepFits(form, log, step, i) && step.pc.Receipting?
    ensures StepFits(form, log + [LostReceipt(i)],
                     step.(pc := AfterError(step, form.stage, DomainMismatch), lost := true), i)
  {
    var e := LostReceipt(i);
    LogGrows(log, e);
    AdmissionStays(form, log, e, step, i);
    ClickedGrows(log, e, i, step.under);
    assert (log + [e])[|log|] == e;
  }

  lemma ReceiptingKeeps(w: World, i: nat, c: Choice)
    requires Backs(w) && i < |w.steps| && w.steps[i].pc.Receipting?
    ensures Backs(StepReceipting(w, i, c))
  {
    var step, t := w.steps[i], StepReceipting(w, i, c);
    assert StepFits(w.form, w.log, step, i);
    if !c.page.NoReceipt? {
      GotoFits(w.form, w.log, step, i, Recording);
      QuietMove(w, t, i);
    } else if !SnapshotCode(c.page.code) {
    } else if c.page.code.DomainMismatch? {
      LostReceiptKeeps(w, t, i);
    } else {
      ErrorFits(w.form, w.log, step, i, c.page.code);
      QuietMove(w, t, i);
    }
  }

  lemma LostReceiptKeeps(w: World, t: World, i: nat)
    requires Backs(w) && i < |w.steps| && w.steps[i].pc.Receipting?
    requires var step := w.steps[i];
      t == Logged(Put(w, i, step.(pc := AfterError(step, w.form.stage, DomainMismatch), lost := true)), LostReceipt(i))
    ensures Backs(t)
  {
    var e := LostReceipt(i);
    assert StepFits(w.form, w.log, w.steps[i], i);
    ReceiptIsLost(w.form, w.log, w.steps[i], i);
    SessionStays(w.session, w.log, e);
    SilentFits(w.record, w.log, e);
    LoggedMove(w, t, i, e);
  }

  // A ledger call of step i other than its reservation and its release.
  lemma CallKeeps(w: World, t: World, i: nat, op: Op, c: Choice, e: Entry, pc: Pc)
    requires Backs(w) && i < |w.steps| && t == Goto(Land(w, op, c, e), i, pc)
    requires Calls(w.form.stage, op, e) && (e.Recorded? || e.Doubted? || e.BlockedBy?)
    requires StepFits(w.form, w.log, w.steps[i].(pc := pc), i)
    ensures Backs(t)
  {
    if t.log == w.log {
      QuietMove(w, t, i);
    } else {
      CallFits(w.record, w.log, w.form.stage, op, e, c.at);
      SessionStays(w.session, w.log, e);
      AdmissionStays(w.form, w.log, e, t.steps[i], i);
      ClicksStay(w.form, w.log, e, t.steps[i], i);
      LoggedMove(w, t, i, e);
    }
  }

  lemma RecordingKeeps(w: World, i: nat, c: Choice)
    requires Backs(w) && i < |w.steps| && w.steps[i].pc.Recording?
    ensures Backs(StepRecording(w, i, c))
  {
    var step, t := w.steps[i], StepRecording(w, i, c);
    assert StepFits(w.form, w.log, step, i);
    ErrorFits(w.form, w.log, step, i, LedgerRefused);
    GotoFits(w.form, w.log, step, i, Leaving);
    GotoFits(w.form, w.log, step, i, Announcing);
    CallKeeps(w, t, i, RecordOp(w.form.stage), c, Recorded(i), t.steps[i].pc);
  }

  lemma ReleasingKeeps(w: World, i: nat, c: Choice)
    requires Backs(w) && i < |w.steps| && w.steps[i].pc.Releasing?
    ensures Backs(StepReleasing(w, i, c))
  {
    var step, t := w.steps[i], StepReleasing(w, i, c);
    assert StepFits(w.form, w.log, step, i);
    if t.log == w.log {
      GotoFits(w.form, w.log, step, i, Clearing);
      QuietMove(w, t, i);
    } else {
      var e := Released(i, step.under.value);
      CallFits(w.record, w.log, w.form.stage, Release, e, c.at);
      SessionStays(w.session, w.log, e);
      AdmissionStays(w.form, w.log, e, step, i);
      ClickedGrows(w.log, e, i, step.under);
      LogGrows(w.log, e);
      LoggedMove(w, t, i, e);
    }
  }

  lemma FlagIsCleared(s: Session, log: seq<Entry>, i: nat)
    requires SessionFits(s, log)
    ensures SessionFits(s.(flag := None), log + [Cleared(i)])
  {
    LogGrows(log, Cleared(i));
    FlagGrows(log, Cleared(i));
  }

  lemma ClearingKeeps(w: World, i: nat, c: Choice)
    requires Backs(w) && i < |w.steps| && w.steps[i].pc.Clearing?
    ensures Backs(StepClearing(w, i, c))
  {
    var step, e := w.steps[i].(pc := Done), Cleared(i);
    assert StepFits(w.form, w.log, w.steps[i], i);
    GotoFits(w.form, w.log, w.steps[i], i, Done);
    if !c.fate.Answered? {
      QuietMove(w, Goto(w, i, Done), i);
    } else {
      FlagIsCleared(w.session, w.log, i);
      SilentFits(w.record, w.log, e);
      AdmissionStays(w.form, w.log, e, step, i);
      ClicksStay(w.form, w.log, e, step, i);
      LoggedMove(w, StepClearing(w, i, c), i, e);
    }
  }

  lemma FailingKeeps(w: World, i: nat, code: StepCode)
    requires Backs(w) && i < |w.steps| && (w.steps[i].pc.Announcing? || w.steps[i].pc.Waiting?)
    requires code.LedgerRefused? || code.RecipeQuarantined?
    ensures Backs(Goto(w, i, AfterError(w.steps[i], w.form.stage, code)))
  {
    var pc := AfterError(w.steps[i], w.form.stage, code);
    assert StepFits(w.form, w.log, w.steps[i], i);
    ErrorFits(w.form, w.log, w.steps[i], i, code);
    QuietMove(w, Goto(w, i, pc), i);
  }

  // A move to where nothing more is asked of the step.
  lemma PassingKeeps(w: World, i: nat, pc: Pc)
    requires Backs(w) && i < |w.steps| && !w.steps[i].pc.Clearing? && !w.steps[i].pc.Done?
    requires !BeforeSending(pc) && !pc.Sent? && !pc.Receipting? && !pc.Releasing?
    ensures Backs(Goto(w, i, pc))
  {
    assert StepFits(w.form, w.log, w.steps[i], i);
    GotoFits(w.form, w.log, w.steps[i], i, pc);
    QuietMove(w, Goto(w, i, pc), i);
  }

  lemma AcquiringKeeps(w: World, i: nat)
    requires Backs(w) && i < |w.steps| && w.steps[i].pc.Acquiring?
    ensures Backs(Goto(w, i, Reserving))
  {
    assert StepFits(w.form, w.log, w.steps[i], i);
    QuietMove(w, Goto(w, i, Reserving), i);
  }

  lemma InspectedKeeps(w: World, i: nat)
    requires Backs(w) && i < |w.steps| && w.steps[i].pc.Entered?
    ensures Backs(Goto(w, i, Inspecting))
  {
    assert StepFits(w.form, w.log, w.steps[i], i);
    QuietMove(w, Goto(w, i, Inspecting), i);
  }

  lemma LeavingKeeps(w: World, i: nat)
    requires Backs(w) && i < |w.steps| && w.steps[i].pc.Leaving?
    ensures Backs(Goto(w.(session := w.session.(live := false)), i, Done))
  {
    PassingKeeps(w, i, Done);
    var u := Goto(w, i, Done);
    QuietMove(u, u.(session := u.session.(live := false)), i);
  }

  lemma EndingStepKeeps(w: World, i: nat, pc: Pc, human: bool, closing: bool)
    requires Backs(w) && i < |w.steps| && !w.steps[i].pc.Clearing? && !w.steps[i].pc.Done? && (pc.Done? || pc.Waiting?)
    ensures Backs(BeginEnding(Goto(w, i, pc), human, closing))
  {
    PassingKeeps(w, i, pc);
    BeginningKeeps(Goto(w, i, pc), human, closing);
  }

  lemma DoubtingKeeps(w: World, i: nat, c: Choice)
    requires Backs(w) && i < |w.steps|
    ensures w.steps[i].pc.Doubting? || w.steps[i].pc.Blocking? ==> Backs(StepStep(w, i, c))
  {
    var step, t := w.steps[i], StepStep(w, i, c);
    assert StepFits(w.form, w.log, step, i);
    if step.pc.Doubting? {
      GotoFits(w.form, w.log, step, i, t.steps[i].pc);
      CallKeeps(w, t, i, RecordUncertain(BrowserForm), c, Doubted(i), t.steps[i].pc);
    }
    if step.pc.Blocking? {
      GotoFits(w.form, w.log, step, i, Ending);
      CallKeeps(w, t, i, RecordLifecycle(CaseState.Blocked, 0), c, BlockedBy(i), Ending);
    }
  }

  lemma StepKeeps(w: World, i: nat, c: Choice)
    requires Backs(w) && i < |w.steps|
    ensures Backs(StepStep(w, i, c))
  {
    match w.steps[i].pc
    case Entered => EnteredKeeps(w, i, c);
    case Acquiring => if c.ok { AcquiringKeeps(w, i); } else { PassingKeeps(w, i, Done); }
    case Inspecting => PassingKeeps(w, i, if c.page.Rejects? then AfterRejection(c.page.drift) else Done);
    case Announcing => if c.fate.Answered? { PassingKeeps(w, i, Leaving); } else { FailingKeeps(w, i, LedgerRefused); }
    case Waiting(_) => FailingKeeps(w, i, RecipeQuarantined);
    case Leaving => LeavingKeeps(w, i);
    case Done =>
    case Reserving => ReservingKeeps(w, i, c);
    case Marking => MarkingKeeps(w, i, c);
    case Acting => ActingKeeps(w, i, c);
    case Sent => SentKeeps(w, i, c);
    case Receipting => ReceiptingKeeps(w, i, c);
    case Recording => RecordingKeeps(w, i, c);
    case Blocking => DoubtingKeeps(w, i, c);
    case Ending => EndingStepKeeps(w, i, Waiting(|w.enders|), true, false);
    case Closing => PassingKeeps(w, i, Done); EndingStepKeeps(w, i, Done, false, true);
    case Releasing => ReleasingKeeps(w, i, c);
    case Clearing => ClearingKeeps(w, i, c);
    case Doubting => DoubtingKeeps(w, i, c);
  }

  lemma EnterKeeps(w: World, a: Action)
    requires Backs(w)
    ensures Backs(EnterStep(w, a))
  {
    var t := EnterStep(w, a);
    if t != w {
      forall k | 0 <= k < |t.steps| ensures StepFits(t.form, t.log, t.steps[k], k) {
        if k < |w.steps| { assert StepFits(w.form, w.log, w.steps[k], k) && t.steps[k] == w.steps[k]; }
      }
    }
  }

  lemma NextKeeps(w: World, e: Event)
    requires Backs(w)
    ensures Backs(Next(w, e))
  {
    match e
    case Enter(a) => EnterKeeps(w, a);
    case StepOn(i, c) => if i < |w.steps| { StepKeeps(w, i, c); }
    case EndOn(x, c) => if x < |w.enders| { EnderKeeps(w, x, c); }
    case Expire => BeginningKeeps(w, true, false);
    case Revoke => BeginningKeeps(w, false, false);
  }

  // A case a session can begin with: nothing of it is pending, and a requested portal stems from a form.
  predicate Settled(c: Case) { !c.outcome.Pending? && !c.state.SubmissionPending? && PortalByForm(c) }

  lemma BeginBacks(stage: Stage, fields: set<string>, values: set<string>, required: set<string>, record: Case)
    requires Settled(record)
    ensures Backs(Begin(stage, fields, values, required, record))
  {
  }

  lemma {:induction false} RunKeeps(w: World, events: seq<Event>)
    requires Backs(w)
    ensures Backs(Run(w, events)) && Run(w, events).form == w.form
  {
    if events != [] {
      RunKeeps(w, events[..|events| - 1]);
      NextKeeps(Run(w, events[..|events| - 1]), events[|events| - 1]);
      FormStays(Run(w, events[..|events| - 1]), events[|events| - 1]);
    }
  }

  lemma FormStays(w: World, e: Event)
    ensures Next(w, e).form == w.form
  {
  }
}
