// When the promised bound holds: what makes a release false or a click stray, that runs without those causes
// have neither, that each cause breaks the promise, and that the bound cannot be lowered.
module SubmissionPromise {
  import opened Wrappers
  import opened CaseLedger
  import opened ProviderOutcomes
  import opened SubmissionProtocol
  import opened SubmissionBound

  // ---- The causes

  // An attempt whose sent effect the code calls "not started".
  predicate Misclassified(sub: Submitter, stage: Stage, a: Attempt) {
    match a
    case ByEmail(e) =>
      sub.writer == ParityTool && !e.setupFails && e.reply == TransportError
      && e.abortAt.Some? && e.handover < e.abortAt.value <= e.settled
    case ByForm(f) => false
    case ByStep(x) => sub.writer.FormStep? && sub.own && stage != Guided && x == ReceiptFailed(DomainMismatch)
  }

  // The event settles such an attempt.
  predicate MisclassifiedStep(s: State, e: Event) {
    && e.Step? && e.i < |s.subs|
    && (s.subs[e.i].pc.Dispatched? || (s.subs[e.i].pc.Open? && !s.subs[e.i].writer.FormStep?))
    && Fits(s.subs[e.i], e.choice.attempt)
    && Misclassified(s.subs[e.i], StageOf(s, s.subs[e.i].writer), e.choice.attempt)
  }

  // The dedupe delete after a form step's release throws, so the session's flag is not cleared.
  predicate FailedClear(s: State, e: Event) {
    && e.Step? && e.i < |s.subs| && s.subs[e.i].pc.Cleaning? && s.subs[e.i].writer.FormStep?
    && !e.choice.fate.Answered?
  }

  // A form step between its checks and its end.
  predicate Active(sub: Submitter) { sub.writer.FormStep? && !sub.pc.Start? && !sub.pc.Ended? }

  predicate Overlap(a: Submitter, b: Submitter) {
    Active(a) && Active(b) && a.writer.session == b.writer.session
  }

  // No two steps of one form session are in flight together.
  predicate Alone(s: State) {
    forall i, j :: 0 <= i < j < |s.subs| ==> !Overlap(s.subs[i], s.subs[j])
  }

  ghost predicate CleanRun(events: seq<Event>) {
    && (forall k :: 0 <= k <= |events| ==> Alone(Run(INITIAL, events[..k])))
    && (forall k :: 0 <= k < |events| ==>
      !MisclassifiedStep(Run(INITIAL, events[..k]), events[k]) && !FailedClear(Run(INITIAL, events[..k]), events[k]))
  }

  // An attempt leaves its tool, or its form step, about to release a reservation it has written under
  // exactly when it is misclassified.
  lemma ReleaseAfterWriteIff(sub: Submitter, stage: Stage, a: Attempt)
    requires Fits(sub, a) && EffectOf(a) && !sub.writer.Cleanup? && sub.intent.Some?
    ensures var pc :=
        if sub.writer.FormStep? then AfterFormAction(sub, stage, a.step) else AfterToolAttempt(sub.writer, a);
      pc.Releasing? <==> Misclassified(sub, stage, a)
  {
    match a
    case ByEmail(e) =>
      if sub.writer.ParityTool? { ParityEmailIsMisclassifiedIff(e); } else { RemovalEmailIsClassifiedSoundly(e); }
    case ByForm(f) =>
    case ByStep(x) => if !x.NothingFinal? && !x.Completed? { FormStepIsMisclassifiedIff(x); }
  }

  // ---- Clean runs

  // The points at which a maker's reservation must be unwritten for its release to be a true one.
  predicate Unsent(sub: Submitter) {
    sub.own && (sub.pc.Reserved? || sub.pc.Open? || sub.pc.PortalReserved? || sub.pc.Releasing?)
  }

  // The maker of reservation r is this tool itself, or a step of the same session.
  predicate Home(s: State, w: Writer, i: nat, r: nat) {
    && r < |s.intents| && s.intents[r].owner < |s.subs|
    && var maker := s.subs[s.intents[r].owner].writer;
       if w.FormStep? then maker.FormStep? && maker.session == w.session else s.intents[r].owner == i
  }

  predicate Faithful(s: State, i: nat)
    requires i < |s.subs|
  {
    var sub := s.subs[i];
    && (sub.intent.Some? ==> Home(s, sub.writer, i, sub.intent.value))
    && (Unsent(sub) && sub.intent.Some? && sub.intent.value < |s.intents| ==> !s.intents[sub.intent.value].wrote)
    && (sub.pc.Open? && sub.intent.Some? && sub.intent.value < |s.intents| ==> s.intents[sub.intent.value].live)
    && (sub.pc.Start? && sub.writer.FormStep? ==> sub.intent.None?)
  }

  // A step of this session has released and is about to clear the flag.
  predicate Clearing(s: State, k: nat) { exists i :: 0 <= i < |s.subs| && Clears(s.subs[i], k) }

  predicate Clears(sub: Submitter, k: nat) {
    sub.pc.Cleaning? && sub.writer.FormStep? && sub.writer.session == k
  }

  predicate FlagFits(s: State, k: nat)
    requires k < |s.sessions|
  {
    s.sessions[k].flag.Some? ==>
      var r := s.sessions[k].flag.value;
      Home(s, FormStep(k, true), 0, r) && (s.intents[r].live || Clearing(s, k))
  }

  ghost predicate Faith(s: State) {
    && AllHeld(s) && s.misreleases == 0 && s.strays == 0
    && (forall i :: 0 <= i < |s.subs| ==> Faithful(s, i))
    && (forall k :: 0 <= k < |s.sessions| ==> FlagFits(s, k))
    && (forall r :: 0 <= r < |s.intents| ==> s.intents[r].owner < |s.subs|)
  }

  // Writers never change, and reservations stay with their makers.
  predicate Continues(s: State, t: State) {
    && |s.subs| <= |t.subs| && (forall i :: 0 <= i < |s.subs| ==> t.subs[i].writer == s.subs[i].writer)
    && |s.intents| <= |t.intents| && (forall r :: 0 <= r < |s.intents| ==> t.intents[r].owner == s.intents[r].owner)
  }

  lemma HomeStays(s: State, t: State, w: Writer, i: nat, r: nat)
    requires Continues(s, t) && Home(s, w, i, r)
    ensures Home(t, w, i, r)
  {
  }

  // Submitter i moves; reservations and flags stay as they are.
  lemma QuietKeepsFaith(s: State, t: State, i: nat)
    requires Faith(s) && i < |s.subs| == |t.subs| && t.subs == s.subs[i := t.subs[i]]
    requires t.subs[i].writer == s.subs[i].writer && AllHeld(t)
    requires t.intents == s.intents && t.misreleases == 0 && t.strays == 0
    requires |t.sessions| == |s.sessions|
    requires forall k :: 0 <= k < |t.sessions| ==> t.sessions[k].flag == s.sessions[k].flag
    requires Faithful(t, i) && !s.subs[i].pc.Cleaning?
    ensures Faith(t)
  {
    forall j | 0 <= j < |t.subs| ensures Faithful(t, j) {
      if j != i {
        assert Faithful(s, j);
        if s.subs[j].intent.Some? { HomeStays(s, t, s.subs[j].writer, j, s.subs[j].intent.value); }
      }
    }
    forall k | 0 <= k < |t.sessions| ensures FlagFits(t, k) {
      assert FlagFits(s, k);
      if s.sessions[k].flag.Some? { HomeStays(s, t, FormStep(k, true), 0, s.sessions[k].flag.value); }
      ClearingStays(s, t, i, k);
    }
  }

  lemma ClearingStays(s: State, t: State, i: nat, k: nat)
    requires i < |s.subs| == |t.subs| && t.subs == s.subs[i := t.subs[i]] && !s.subs[i].pc.Cleaning?
    ensures Clearing(s, k) ==> Clearing(t, k)
  {
    if Clearing(s, k) {
      var j :| 0 <= j < |s.subs| && Clears(s.subs[j], k);
      assert t.subs[j] == s.subs[j];
    }
  }

  // Whoever else acts under a held reservation is a step of the holder's session, and not in flight.
  lemma SharerIsIdle(s: State, i: nat, j: nat)
    requires Faith(s) && Alone(s) && i < |s.subs| && j < |s.subs| && i != j
    requires s.subs[i].intent.Some? && s.subs[i].intent == s.subs[j].intent
    requires Keeps(s.subs[i]) && !s.subs[i].pc.Start?
    ensures s.subs[j].writer.FormStep? && !Active(s.subs[j])
  {
    assert Faithful(s, i) && Faithful(s, j) && Held(s.intents, s.subs[i], i);
    assert i < j ==> !Overlap(s.subs[i], s.subs[j]);
    assert j < i ==> !Overlap(s.subs[j], s.subs[i]);
  }

  // A flag that stays, over reservations that stay with their makers and stay live.
  lemma FlagStays(s: State, t: State, k: nat)
    requires k < |s.sessions| == |t.sessions| && FlagFits(s, k) && Continues(s, t)
    requires t.sessions[k].flag == s.sessions[k].flag && (Clearing(s, k) ==> Clearing(t, k))
    requires forall r :: 0 <= r < |s.intents| ==> s.intents[r].live ==> t.intents[r].live
    ensures FlagFits(t, k)
  {
    if s.sessions[k].flag.Some? { HomeStays(s, t, FormStep(k, true), 0, s.sessions[k].flag.value); }
  }

  // Another submitter stays faithful while an effect is sent by submitter i under its reservation.
  lemma EffectSparesOthers(s: State, t: State, i: nat, j: nat)
    requires Faith(s) && Alone(s) && i < |s.subs| && j < |s.subs| && j != i
    requires s.subs[i].pc.Open? && s.subs[i].intent.Some? && !s.subs[i].writer.Cleanup? && Continues(s, t)
    requires t.subs[j] == s.subs[j] && t.intents == Effect(s, s.subs[i].intent.value).intents
    ensures Faithful(t, j)
  {
    var r := s.subs[i].intent.value;
    assert Faithful(s, j) && Faithful(s, i);
    if s.subs[j].intent.Some? { HomeStays(s, t, s.subs[j].writer, j, s.subs[j].intent.value); }
    if Unsent(s.subs[j]) && s.subs[j].intent == Some(r) {
      SharerIsIdle(s, j, i);
    }
  }

  // Submitter i sends an effect under a live reservation and moves on, not towards a release.
  lemma EffectKeepsFaith(s: State, t: State, i: nat, pc: Pc)
    requires Faith(s) && Alone(s) && i < |s.subs| && s.subs[i].pc.Open? && s.subs[i].intent.Some?
    requires !s.subs[i].writer.Cleanup?
    requires t == Goto(Effect(s, s.subs[i].intent.value), i, pc) && AllHeld(t)
    requires !pc.Start? && !pc.Reserved? && !pc.Open? && !pc.PortalReserved? && !pc.Releasing?
    ensures Faith(t)
  {
    var r := s.subs[i].intent.value;
    assert Faithful(s, i) && s.intents[r].live;
    forall j | 0 <= j < |t.subs| ensures Faithful(t, j) {
      if j != i { EffectSparesOthers(s, t, i, j); } else { HomeStays(s, t, s.subs[i].writer, i, r); }
    }
    forall k | 0 <= k < |t.sessions| ensures FlagFits(t, k) {
      ClearingStays(s, t, i, k);
      FlagStays(s, t, k);
    }
  }

  lemma ReleaseKeepsFaith(s: State, i: nat, c: Choice)
    requires Faith(s) && Alone(s) && i < |s.subs| && s.subs[i].pc.Releasing?
    ensures Faith(StepRelease(s, i, c))
  {
    var t, sub := StepRelease(s, i, c), s.subs[i];
    ReleaseKeeps(s, i, c);
    assert Faithful(s, i) && Held(s.intents, sub, i);
    var r := sub.intent.value;
    forall j | 0 <= j < |t.subs| ensures Faithful(t, j) {
      assert Faithful(s, j);
      if s.subs[j].intent.Some? { HomeStays(s, t, s.subs[j].writer, j, s.subs[j].intent.value); }
      if j != i && s.subs[j].pc.Open? && s.subs[j].intent == Some(r) { SharerIsIdle(s, i, j); }
    }
    forall k | 0 <= k < |t.sessions| ensures FlagFits(t, k) {
      assert FlagFits(s, k);
      ClearingStays(s, t, i, k);
      if s.sessions[k].flag.Some? {
        HomeStays(s, t, FormStep(k, true), 0, s.sessions[k].flag.value);
        if s.sessions[k].flag.value == r { assert t.subs[i].pc.Cleaning? && t.subs[i].writer.session == k; }
      }
    }
  }

  // The end of one step's clearing leaves the clearing of other sessions.
  lemma ClearingOf(s: State, t: State, i: nat, k: nat)
    requires i < |s.subs| == |t.subs| && t.subs == s.subs[i := t.subs[i]]
    requires !s.subs[i].writer.FormStep? || s.subs[i].writer.session != k
    ensures Clearing(s, k) ==> Clearing(t, k)
  {
    if Clearing(s, k) {
      var j :| 0 <= j < |s.subs| && Clears(s.subs[j], k);
      assert t.subs[j] == s.subs[j];
    }
  }

  lemma CleanKeepsFaith(s: State, i: nat, c: Choice)
    requires Faith(s) && i < |s.subs| && s.subs[i].pc.Cleaning? && !FailedClear(s, Step(i, c))
    ensures Faith(StepClean(s, i, c))
  {
    var t := StepClean(s, i, c);
    CleanKeeps(s, i, c, Ended);
    forall j | 0 <= j < |t.subs| ensures Faithful(t, j) {
      assert Faithful(s, j);
      if s.subs[j].intent.Some? { HomeStays(s, t, s.subs[j].writer, j, s.subs[j].intent.value); }
    }
    forall k | 0 <= k < |t.sessions| ensures FlagFits(t, k) {
      assert FlagFits(s, k);
      if t.sessions[k].flag.Some? {
        ClearingOf(s, t, i, k);
        FlagStays(s, t, k);
      }
    }
  }

  // While a step of the session clears the flag, no other is in flight.
  lemma ClearingIsAlone(s: State, i: nat)
    requires i < |s.subs| && Active(s.subs[i]) && !s.subs[i].pc.Cleaning? && Alone(s)
    ensures !Clearing(s, s.subs[i].writer.session)
  {
    if j :| 0 <= j < |s.subs| && Clears(s.subs[j], s.subs[i].writer.session) {
      NotAlone(s, i, j);
      assert false;
    }
  }

  lemma NotAlone(s: State, i: nat, j: nat)
    requires i < |s.subs| && j < |s.subs| && i != j && Overlap(s.subs[i], s.subs[j])
    ensures !Alone(s)
  {
    assert Overlap(s.subs[j], s.subs[i]);
  }

  lemma StartKeepsFaith(s: State, i: nat, c: Choice)
    requires Faith(s) && i < |s.subs| && s.subs[i].pc.Start? && Alone(StepStart(s, i, c))
    ensures Faith(StepStart(s, i, c))
  {
    var t, sub := StepStart(s, i, c), s.subs[i];
    StartKeeps(s, i, c);
    assert Faithful(s, i);
    if sub.writer.FormStep? && c.fate.Answered? && sub.writer.session < |s.sessions| {
      var k := sub.writer.session;
      assert FlagFits(s, k);
      if s.sessions[k].flag.Some? {
        ClearingStays(s, t, i, k);
        ClearingIsAlone(t, i);
        HomeStays(s, t, FormStep(k, true), 0, s.sessions[k].flag.value);
      }
    }
    assert Faithful(t, i);
    QuietKeepsFaith(s, t, i);
  }

  // A reservation is appended; the submitter holds it or never learns of it.
  lemma ReserveKeepsFaith(s: State, t: State, i: nat, held: Pc)
    requires Faith(s) && i < |s.subs| == |t.subs| && t.subs == s.subs[i := t.subs[i]] && AllHeld(t)
    requires !s.subs[i].pc.Cleaning? && t.sessions == s.sessions && t.misreleases == 0 && t.strays == 0
    requires t.intents == s.intents + [Intent(i, true, false)]
    requires t.subs[i] == s.subs[i].(pc := held, intent := Some(|s.intents|), own := true)
    requires held.Reserved? || held.PortalReserved?
    ensures Faith(t)
  {
    forall j | 0 <= j < |t.subs| ensures Faithful(t, j) {
      assert Faithful(s, j);
      if j != i && s.subs[j].intent.Some? { HomeStays(s, t, s.subs[j].writer, j, s.subs[j].intent.value); }
    }
    forall k | 0 <= k < |t.sessions| ensures FlagFits(t, k) {
      assert FlagFits(s, k);
      ClearingStays(s, t, i, k);
      if s.sessions[k].flag.Some? { HomeStays(s, t, FormStep(k, true), 0, s.sessions[k].flag.value); }
    }
  }

  // Submitter i moves on with what it had, not to a point where more is asked of it.
  lemma FaithfulMove(s: State, t: State, i: nat)
    requires Faith(s) && i < |s.subs| == |t.subs| && t.subs == s.subs[i := t.subs[i]] && t.intents == s.intents
    requires t.subs[i] == s.subs[i].(pc := t.subs[i].pc)
    requires Unsent(t.subs[i]) ==> Unsent(s.subs[i])
    requires t.subs[i].pc.Open? || t.subs[i].pc.Start? ==> t.subs[i].pc == s.subs[i].pc
    ensures Faithful(t, i)
  {
    assert Faithful(s, i);
    if s.subs[i].intent.Some? { HomeStays(s, t, s.subs[i].writer, i, s.subs[i].intent.value); }
  }

  // A step that only moves its submitter, to a point where no more is asked of it.
  predicate Quiet(s: State, t: State, i: nat)
    requires i < |s.subs|
  {
    && |t.subs| == |s.subs| && t.subs == s.subs[i := s.subs[i].(pc := t.subs[i].pc)] && t.intents == s.intents
    && !s.subs[i].pc.Cleaning? && (Unsent(t.subs[i]) ==> Unsent(s.subs[i]))
    && (t.subs[i].pc.Open? || t.subs[i].pc.Start? ==> t.subs[i].pc == s.subs[i].pc)
    && t.misreleases == s.misreleases && t.strays == s.strays
    && |t.sessions| == |s.sessions| && forall k :: 0 <= k < |t.sessions| ==> t.sessions[k].flag == s.sessions[k].flag
  }

  lemma QuietStepKeepsFaith(s: State, t: State, i: nat)
    requires Faith(s) && i < |s.subs| && Quiet(s, t, i) && AllHeld(t)
    ensures Faith(t)
  {
    FaithfulMove(s, t, i);
    QuietKeepsFaith(s, t, i);
  }

  lemma ReserveStepKeepsFaith(s: State, i: nat, c: Choice)
    requires Faith(s) && i < |s.subs| && s.subs[i].pc.Acquired?
    ensures Faith(StepReserve(s, i, c))
  {
    var t := StepReserve(s, i, c);
    CaseReserveKeeps(s, i, c);
    if t.intents == s.intents { QuietStepKeepsFaith(s, t, i); } else { ReserveKeepsFaith(s, t, i, Reserved); }
  }

  lemma PortalStepIsQuiet(s: State, i: nat, c: Choice)
    requires i < |s.subs| && s.subs[i].pc.PortalSeen?
    ensures var t := StepPortalReserve(s, i, c); t.intents == s.intents ==> Quiet(s, t, i)
  {
  }

  lemma PortalStepReserves(s: State, i: nat, c: Choice)
    requires i < |s.subs| && s.subs[i].pc.PortalSeen?
    ensures var t := StepPortalReserve(s, i, c);
      t.intents != s.intents ==>
        t.intents == s.intents + [Intent(i, true, false)] && t.sessions == s.sessions
        && t.subs == s.subs[i := s.subs[i].(pc := PortalReserved, intent := Some(|s.intents|), own := true)]
        && t.misreleases == s.misreleases && t.strays == s.strays
  {
  }

  lemma PortalStepKeepsFaith(s: State, i: nat, c: Choice)
    requires Faith(s) && i < |s.subs| && s.subs[i].pc.PortalSeen?
    ensures Faith(StepPortalReserve(s, i, c))
  {
    var t := StepPortalReserve(s, i, c);
    PortalReserveKeeps(s, i, c);
    PortalStepReserves(s, i, c);
    if t.intents == s.intents { PortalStepIsQuiet(s, i, c); QuietStepKeepsFaith(s, t, i); }
    else { ReserveKeepsFaith(s, t, i, PortalReserved); }
  }

  lemma MarkKeepsFaith(s: State, i: nat, c: Choice)
    requires Faith(s) && i < |s.subs|
    ensures s.subs[i].pc.Reserved? ==> Faith(StepMark(s, i, c))
    ensures s.subs[i].pc.PortalReserved? ==> Faith(StepPortalMark(s, i, c))
  {
    MarkKeeps(s, i, c);
    if s.subs[i].pc.Reserved? { MarkedKeepsFaith(s, StepMark(s, i, c), i); }
    if s.subs[i].pc.PortalReserved? { MarkedKeepsFaith(s, StepPortalMark(s, i, c), i); }
  }

  // A maker of a live reservation moves on, perhaps setting its session's flag to it.
  lemma MarkedKeepsFaith(s: State, t: State, i: nat)
    requires Faith(s) && i < |s.subs| && (s.subs[i].pc.Reserved? || s.subs[i].pc.PortalReserved?) && AllHeld(t)
    requires |t.subs| == |s.subs| && t.subs == s.subs[i := s.subs[i].(pc := t.subs[i].pc)]
    requires t.subs[i].pc.Open? || t.subs[i].pc.Ended? || t.subs[i].pc.Backout?
    requires t.intents == s.intents && t.misreleases == 0 && t.strays == 0
    requires t.sessions == s.sessions || t.sessions == SetFlag(s, s.subs[i].writer, s.subs[i].intent).sessions
    ensures Faith(t)
  {
    assert Faithful(s, i) && Held(s.intents, s.subs[i], i);
    forall j | 0 <= j < |t.subs| ensures Faithful(t, j) {
      assert Faithful(s, j);
      if s.subs[j].intent.Some? { HomeStays(s, t, s.subs[j].writer, j, s.subs[j].intent.value); }
    }
    forall k | 0 <= k < |t.sessions| ensures FlagFits(t, k) {
      assert FlagFits(s, k);
      ClearingStays(s, t, i, k);
      if s.sessions[k].flag.Some? { HomeStays(s, t, FormStep(k, true), 0, s.sessions[k].flag.value); }
    }
  }

  lemma ActKeepsFaith(s: State, i: nat, c: Choice)
    requires Faith(s) && Alone(s) && i < |s.subs| && s.subs[i].pc.Open? && !MisclassifiedStep(s, Step(i, c))
    ensures Faith(StepSubmitter(s, i, c))
  {
    var sub, t := s.subs[i], StepSubmitter(s, i, c);
    StepKeeps(s, i, c);
    assert Faithful(s, i) && Held(s.intents, sub, i);
    if t != s {
      var stage := StageOf(s, sub.writer);
      if sub.writer.FormStep? {
        if sub.writer.click && sub.intent.Some? && c.attempt.step.EffectSent() {
          EffectKeepsFaith(s, t, i, Dispatched);
        } else {
          QuietStepKeepsFaith(s, t, i);
        }
      } else if EffectOf(c.attempt) {
        ReleaseAfterWriteIff(sub, Generic, c.attempt);
        EffectKeepsFaith(s, t, i, t.subs[i].pc);
      } else {
        QuietStepKeepsFaith(s, t, i);
      }
    }
  }

  lemma ReturnKeepsFaith(s: State, i: nat, c: Choice)
    requires Faith(s) && i < |s.subs| && s.subs[i].pc.Dispatched? && !MisclassifiedStep(s, Step(i, c))
    ensures Faith(StepReturn(s, i, c))
  {
    var sub, t := s.subs[i], StepReturn(s, i, c);
    ReturnKeeps(s, i, c);
    if t != s {
      if sub.intent.Some? && sub.writer.FormStep? { ReleaseAfterWriteIff(sub, StageOf(s, sub.writer), c.attempt); }
      QuietStepKeepsFaith(s, t, i);
    }
  }

  // The steps that write the dedupe record, and those that look at it.
  lemma DedupeStepKeepsFaith(s: State, i: nat, c: Choice)
    requires Faith(s) && i < |s.subs|
    requires var pc := s.subs[i].pc; pc.Registering? || pc.Evicting? || pc.Retrying? || pc.Backout?
    ensures Faith(StepSubmitter(s, i, c))
  {
    StepKeeps(s, i, c);
    QuietStepKeepsFaith(s, StepSubmitter(s, i, c), i);
  }

  lemma LookStepKeepsFaith(s: State, i: nat, c: Choice)
    requires Faith(s) && i < |s.subs|
    requires var pc := s.subs[i].pc; pc.Contended? || pc.Inspected? || pc.PortalLook?
    ensures Faith(StepSubmitter(s, i, c))
  {
    StepKeeps(s, i, c);
    QuietStepKeepsFaith(s, StepSubmitter(s, i, c), i);
  }

  // The steps that settle an attempt, and those that end one.
  lemma RecordStepKeepsFaith(s: State, i: nat, c: Choice)
    requires Faith(s) && i < |s.subs| && s.subs[i].pc.Recording?
    ensures Faith(StepRecord(s, i, c))
  {
    RecordKeeps(s, i, c);
    QuietStepKeepsFaith(s, StepRecord(s, i, c), i);
  }

  lemma AnnounceStepKeepsFaith(s: State, i: nat, c: Choice)
    requires Faith(s) && i < |s.subs| && s.subs[i].pc.Announcing?
    ensures Faith(StepAnnounce(s, i, c))
  {
    AnnounceKeeps(s, i, c);
    QuietStepKeepsFaith(s, StepAnnounce(s, i, c), i);
  }

  lemma EndStepKeepsFaith(s: State, i: nat, c: Choice)
    requires Faith(s) && i < |s.subs| && (s.subs[i].pc.Doubting? || s.subs[i].pc.Forgetting? || s.subs[i].pc.Closing?)
    ensures Faith(StepSubmitter(s, i, c))
  {
    StepKeeps(s, i, c);
    QuietStepKeepsFaith(s, StepSubmitter(s, i, c), i);
  }

  lemma StepKeepsFaith(s: State, i: nat, c: Choice)
    requires Faith(s) && Alone(s) && i < |s.subs| && Alone(StepSubmitter(s, i, c))
    requires !MisclassifiedStep(s, Step(i, c)) && !FailedClear(s, Step(i, c))
    ensures Faith(StepSubmitter(s, i, c))
  {
    match s.subs[i].pc
    case Start => StartKeepsFaith(s, i, c);
    case Acquired => ReserveStepKeepsFaith(s, i, c);
    case Reserved => MarkKeepsFaith(s, i, c);
    case Open => ActKeepsFaith(s, i, c);
    case Dispatched => ReturnKeepsFaith(s, i, c);
    case Releasing => ReleaseKeepsFaith(s, i, c);
    case Cleaning => CleanKeepsFaith(s, i, c);
    case PortalSeen => PortalStepKeepsFaith(s, i, c);
    case PortalReserved => MarkKeepsFaith(s, i, c);
    case Ended =>
    case Recording => RecordStepKeepsFaith(s, i, c);
    case Announcing => AnnounceStepKeepsFaith(s, i, c);
    case Doubting => EndStepKeepsFaith(s, i, c);
    case Forgetting => EndStepKeepsFaith(s, i, c);
    case Closing => EndStepKeepsFaith(s, i, c);
    case Contended => LookStepKeepsFaith(s, i, c);
    case Inspected(_) => LookStepKeepsFaith(s, i, c);
    case PortalLook => LookStepKeepsFaith(s, i, c);
    case _ => DedupeStepKeepsFaith(s, i, c);
  }

  // Nothing happens to the submitters there were, the flags and the reservations; arrivals come without any.
  lemma ArrivalKeepsFaith(s: State, t: State)
    requires Faith(s) && AllHeld(t) && t.intents == s.intents && t.misreleases == 0 && t.strays == 0
    requires |s.subs| <= |t.subs| && forall j :: 0 <= j < |s.subs| ==> t.subs[j] == s.subs[j]
    requires forall j :: |s.subs| <= j < |t.subs| ==> t.subs[j].intent.None?
    requires |s.sessions| <= |t.sessions|
    requires forall k :: 0 <= k < |s.sessions| ==> t.sessions[k].flag == s.sessions[k].flag
    requires forall k :: |s.sessions| <= k < |t.sessions| ==> t.sessions[k].flag.None?
    ensures Faith(t)
  {
    forall j | 0 <= j < |t.subs| ensures Faithful(t, j) {
      if j < |s.subs| {
        assert Faithful(s, j);
        if s.subs[j].intent.Some? { HomeStays(s, t, s.subs[j].writer, j, s.subs[j].intent.value); }
      }
    }
    forall k | 0 <= k < |t.sessions| ensures FlagFits(t, k) {
      if k < |s.sessions| && s.sessions[k].flag.Some? {
        assert FlagFits(s, k);
        HomeStays(s, t, FormStep(k, true), 0, s.sessions[k].flag.value);
        ClearingArrives(s, t, k);
      }
    }
  }

  lemma ClearingArrives(s: State, t: State, k: nat)
    requires |s.subs| <= |t.subs| && forall j :: 0 <= j < |s.subs| ==> t.subs[j] == s.subs[j]
    ensures Clearing(s, k) ==> Clearing(t, k)
  {
    if Clearing(s, k) {
      var j :| 0 <= j < |s.subs| && Clears(s.subs[j], k);
      assert t.subs[j] == s.subs[j];
    }
  }

  lemma CrashKeepsFaith(s: State)
    requires Faith(s)
    ensures Faith(Next(s, Crash))
  {
    var t := Next(s, Crash);
    CrashKeeps(s);
    forall j | 0 <= j < |t.subs| ensures Faithful(t, j) {
      assert Faithful(s, j);
      if s.subs[j].intent.Some? { HomeStays(s, t, s.subs[j].writer, j, s.subs[j].intent.value); }
    }
  }

  lemma OutsideKeepsFaith(s: State, e: Event)
    requires Faith(s) && (e.Reconciled? || e.OtherCall? || e.CaseForgotten? || e.DedupeLost? || e.ScopeLost?)
    ensures Faith(Next(s, e))
  {
    NextKeeps(s, e);
    if e.Reconciled? { assert Next(s, e) == OperatorReview(s, e.nothingStarted, e.days, e.at); }
    ArrivalKeepsFaith(s, Next(s, e));
  }

  lemma NextKeepsFaith(s: State, e: Event)
    requires Faith(s) && Alone(s) && Alone(Next(s, e)) && !MisclassifiedStep(s, e) && !FailedClear(s, e)
    ensures Faith(Next(s, e))
  {
    match e
    case Step(i, c) => if i < |s.subs| { StepKeepsFaith(s, i, c); }
    case Crash => CrashKeepsFaith(s);
    case Spawn(_, _, _) =>
      NextKeeps(s, e);
      ArrivalKeepsFaith(s, Next(s, e));
    case OpenSession(_) =>
      NextKeeps(s, e);
      ArrivalKeepsFaith(s, Next(s, e));
    case EndSession(_) =>
      NextKeeps(s, e);
      ArrivalKeepsFaith(s, Next(s, e));
    case _ => OutsideKeepsFaith(s, e);
  }

  lemma CleanPrefix(events: seq<Event>)
    requires events != [] && CleanRun(events)
    ensures CleanRun(events[..|events| - 1])
  {
    var n := |events| - 1;
    assert forall k :: 0 <= k <= n ==> events[..n][..k] == events[..k];
  }

  lemma {:induction false} CleanRunKeepsFaith(events: seq<Event>)
    requires CleanRun(events)
    ensures Faith(Run(INITIAL, events))
  {
    if events != [] {
      var n := |events| - 1;
      CleanPrefix(events);
      CleanRunKeepsFaith(events[..n]);
      assert events[..n + 1] == events;
      NextKeepsFaith(Run(INITIAL, events[..n]), events[n]);
    }
  }

  // The promised bound: without a misclassified attempt, without two steps of one form session in flight
  // together, and without a flag left behind by a failed delete, only reviews, exits and verified-portal
  // continuations let another reservation write.
  lemma PromisedBoundHolds(events: seq<Event>)
    requires CleanRun(events)
    ensures var s := Run(INITIAL, events); Writes(s.intents) <= 1 + s.notStarted + s.exits + s.portals
  {
    CleanRunKeepsFaith(events);
    WritesAreBounded(events);
  }
}
