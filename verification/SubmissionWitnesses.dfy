// Runs of the submission protocol that break the promise, one for each cause, and runs that reach the bound.
module SubmissionWitnesses {
  import opened Wrappers
  import opened CaseLedger
  import opened ProviderOutcomes
  import opened SubmissionProtocol
  import opened SubmissionBound
  import opened SubmissionPromise

  const KIND := DeleteAndOptOut
  const CALM := Choice(Answered, 0, ByForm(FormAttempt(0, None, OtherError)))

  lemma {:induction false} RunConcat(s: State, a: seq<Event>, b: seq<Event>)
    ensures Run(s, a + b) == Run(Run(s, a), b)
  {
    if b == [] {
      assert a + b == a;
    } else {
      var front := b[..|b| - 1];
      assert (a + b)[..|a + b| - 1] == a + front;
      RunConcat(s, a, front);
    }
  }

  lemma RunOne(s: State, a: Event)
    ensures Run(s, [a]) == Next(s, a)
  {
    assert [a][..0] == [] && Run(s, []) == s;
  }

  lemma RunTwo(s: State, a: Event, b: Event)
    ensures Run(s, [a, b]) == Next(Next(s, a), b)
  {
    assert [a, b][..1] == [a];
    RunOne(s, a);
  }

  lemma RunThree(s: State, a: Event, b: Event, c: Event)
    ensures Run(s, [a, b, c]) == Next(Next(Next(s, a), b), c)
  {
    assert [a, b, c][..2] == [a, b];
    RunTwo(s, a, b);
  }

  // ---- An undisturbed submission up to its open reservation, by the parity tool or by a click of a session

  function Acquiring(w: Writer, i: nat): seq<Event> { [Spawn(w, KIND, false), Step(i, CALM), Step(i, CALM)] }

  function Opening(w: Writer, i: nat): seq<Event> { Acquiring(w, i) + [Step(i, CALM), Step(i, CALM)] }

  predicate CanOpen(s: State, w: Writer) {
    || w.ParityTool?
    || (w.FormStep? && w.click && w.session < |s.sessions| && s.sessions[w.session] == Session(Generic, true, None))
  }

  predicate ReadyFor(s: State, w: Writer, i: nat) {
    && |s.subs| == i && KIND !in s.dedupe && KIND !in s.scopes && CanOpen(s, w)
    && (s.record.state == New || Reservable(s.record.state))
  }

  function WithSub(s: State, sub: Submitter): State { s.(subs := s.subs + [sub]) }

  function Fresh(w: Writer, pc: Pc): Submitter { Submitter(w, KIND, false, pc, None, false) }

  function PendingCase(c: Case, w: Writer): Case {
    c.(state := SubmissionPending, channel := Some(ChannelOf(w)), outcome := Pending)
  }

  function Owner(s: State, w: Writer, pc: Pc): Submitter { Submitter(w, KIND, false, pc, Some(|s.intents|), true) }

  // The new submitter number |s.subs| holds the new reservation number |s.intents|.
  function Reserving(s: State, w: Writer, pc: Pc): State {
    s.(subs := s.subs + [Owner(s, w, pc)], intents := s.intents + [Intent(|s.subs|, true, false)],
       record := PendingCase(s.record, w), reserved := true)
  }

  function Opened(s: State, w: Writer): State {
    SetFlag(Reserving(s, w, Open), w, Some(|s.intents|)).(dedupe := s.dedupe[KIND := DurableIntent])
  }

  lemma LastMoves(s: State, sub: Submitter, to: Submitter)
    ensures WithSub(s, sub).subs[|s.subs| := to] == WithSub(s, to).subs
  {
  }

  lemma AcquiringSucceeds(s: State, w: Writer, i: nat)
    requires ReadyFor(s, w, i)
    ensures Run(s, Acquiring(w, i)) == WithSub(s, Fresh(w, Acquired)).(dedupe := s.dedupe[KIND := BeforeCaseIntent])
  {
    RunThree(s, Spawn(w, KIND, false), Step(i, CALM), Step(i, CALM));
    var s1, s2 := WithSub(s, Fresh(w, Start)), WithSub(s, Fresh(w, Registering));
    LastMoves(s, Fresh(w, Start), Fresh(w, Registering));
    LastMoves(s, Fresh(w, Registering), Fresh(w, Acquired));
    assert Next(s1, Step(i, CALM)) == StepStart(s1, i, CALM) == s2;
    assert Next(s2, Step(i, CALM)) == StepRegister(s2, i, CALM, Contended);
  }

  lemma ReserveSucceeds(s: State, w: Writer, i: nat)
    requires |s.subs| == i && (w.ParityTool? || w.FormStep?) && (s.record.state == New || Reservable(s.record.state))
    ensures Next(WithSub(s, Fresh(w, Acquired)), Step(i, CALM)) == Reserving(s, w, Reserved)
  {
    var s1 := WithSub(s, Fresh(w, Acquired));
    LastMoves(s, Fresh(w, Acquired), Owner(s, w, Reserved));
    assert Next(s1, Step(i, CALM)) == StepReserve(s1, i, CALM);
  }

  lemma MarkSucceeds(s: State, w: Writer, i: nat)
    requires |s.subs| == i && CanOpen(s, w)
    ensures Next(Reserving(s, w, Reserved), Step(i, CALM)) == Opened(s, w)
  {
    var s1 := Reserving(s, w, Reserved);
    LastMoves(s, Owner(s, w, Reserved), Owner(s, w, Open));
    assert Next(s1, Step(i, CALM)) == StepMark(s1, i, CALM);
  }

  lemma OpeningSucceeds(s: State, w: Writer, i: nat)
    requires ReadyFor(s, w, i)
    ensures Run(s, Opening(w, i)) == Opened(s, w)
  {
    RunConcat(s, Acquiring(w, i), [Step(i, CALM), Step(i, CALM)]);
    AcquiringSucceeds(s, w, i);
    var s0 := s.(dedupe := s.dedupe[KIND := BeforeCaseIntent]);
    RunTwo(WithSub(s0, Fresh(w, Acquired)), Step(i, CALM), Step(i, CALM));
    ReserveSucceeds(s0, w, i);
    MarkSucceeds(s0, w, i);
    assert s0.dedupe[KIND := DurableIntent] == s.dedupe[KIND := DurableIntent];
  }

  // ---- Single steps from there

  function Acting(i: nat, a: Attempt): Event { Step(i, Choice(Answered, 0, a)) }

  lemma ToolSends(s: State, i: nat, a: Attempt)
    requires i < |s.subs| && s.subs[i].pc == Open && s.subs[i].writer.ParityTool? && s.subs[i].intent.Some?
    requires Fits(s.subs[i], a) && EffectOf(a)
    ensures Next(s, Acting(i, a)) == Goto(Effect(s, s.subs[i].intent.value), i, AfterToolAttempt(ParityTool, a))
  {
    assert Next(s, Acting(i, a)) == StepTool(s, i, Choice(Answered, 0, a));
  }

  // A click of a generic session whose driver action goes out, and one that is refused before that.
  const SENT := ByStep(FailedAfterEffect)
  const REFUSED_CLICK := ByStep(RefusedBeforeEffect(RefInvalid))

  predicate Clicking(s: State, i: nat) {
    i < |s.subs| && s.subs[i].pc == Open && s.subs[i].writer.FormStep? && s.subs[i].writer.click
    && s.subs[i].intent.Some? && StageOf(s, s.subs[i].writer) == Generic
  }

  lemma ClickSends(s: State, i: nat, a: Attempt)
    requires Clicking(s, i) && a.ByStep? && a.step.EffectSent() && Fits(s.subs[i], a)
    ensures Next(s, Acting(i, a)) == Goto(Effect(s, s.subs[i].intent.value), i, Dispatched)
  {
    assert Next(s, Acting(i, a)) == StepAct(s, i, Choice(Answered, 0, a));
  }

  lemma ClickIsRefused(s: State, i: nat)
    requires Clicking(s, i) && s.subs[i].own
    ensures Next(s, Acting(i, REFUSED_CLICK)) == Goto(s, i, Releasing)
  {
    assert Next(s, Acting(i, REFUSED_CLICK)) == StepAct(s, i, Choice(Answered, 0, REFUSED_CLICK));
  }

  lemma ClickReturns(s: State, i: nat, a: Attempt)
    requires i < |s.subs| && s.subs[i].pc == Dispatched && s.subs[i].writer.FormStep?
    requires StageOf(s, s.subs[i].writer) == Generic && a.ByStep? && a.step.EffectSent() && Fits(s.subs[i], a)
    ensures Next(s, Acting(i, a)) == Goto(s, i, AfterFormAction(s.subs[i], Generic, a.step))
  {
    assert Next(s, Acting(i, a)) == StepReturn(s, i, Choice(Answered, 0, a));
  }

  // A step that finds its session's flag set acts under it at once.
  lemma ClickShares(s: State, k: nat, i: nat)
    requires k < |s.sessions| && s.sessions[k].live && s.sessions[k].flag.Some? && |s.subs| == i
    ensures Run(s, [Spawn(FormStep(k, true), KIND, false), Step(i, CALM)])
      == WithSub(s, Fresh(FormStep(k, true), Open).(intent := s.sessions[k].flag))
  {
    var s1 := WithSub(s, Fresh(FormStep(k, true), Start));
    RunTwo(s, Spawn(FormStep(k, true), KIND, false), Step(i, CALM));
    assert Next(s, Spawn(FormStep(k, true), KIND, false)) == s1;
    assert Next(s1, Step(i, CALM)) == StepStart(s1, i, CALM);
  }

  // Who releases gives up the pending case, the dedupe record and, if that answers, its session's flag.
  predicate CanRelease(s: State, i: nat) {
    i < |s.subs| && s.subs[i].pc == Releasing && s.subs[i].kind == KIND && KIND !in s.scopes
    && s.subs[i].intent.Some? && s.subs[i].intent.value < |s.intents| && s.record.state == SubmissionPending
  }

  function Released(s: State, i: nat): State
    requires CanRelease(s, i)
  {
    var r := s.subs[i].intent.value;
    Goto(s, i, Cleaning).(
      intents := s.intents[r := s.intents[r].(live := false)],
      record := s.record.(state := ActionSelected, outcome := CaseLedger.NotStarted),
      misreleases := if s.intents[r].wrote then s.misreleases + 1 else s.misreleases)
  }

  lemma ReleaseLands(s: State, i: nat)
    requires CanRelease(s, i)
    ensures Next(s, Step(i, CALM)) == Released(s, i)
  {
    assert s.scopes - {KIND} == s.scopes;
    assert Next(s, Step(i, CALM)) == StepRelease(s, i, CALM);
  }

  function Cleaned(s: State, i: nat, fate: Fate): State
    requires i < |s.subs|
  {
    var t := Goto(s, i, Ended).(dedupe := s.dedupe - {KIND});
    if fate.Answered? then SetFlag(t, s.subs[i].writer, None) else t
  }

  lemma CleanLands(s: State, i: nat, c: Choice)
    requires i < |s.subs| && s.subs[i].pc == Cleaning && s.subs[i].kind == KIND && c.fate.Applies()
    ensures Next(s, Step(i, c)) == Cleaned(s, i, c.fate)
  {
    assert Next(s, Step(i, c)) == StepClean(s, i, c);
  }

  // ---- The second write, by the parity tool: a refused recipient, so the message was handed over

  const REFUSED := ByEmail(EmailAttempt(0, 0, 0, 1, None, false, RecipientRefused))

  function Mailing(i: nat): seq<Event> { Opening(ParityTool, i) + [Acting(i, REFUSED)] }

  function Mailed(s: State, pc: Pc): State {
    s.(subs := s.subs + [Owner(s, ParityTool, pc)], intents := s.intents + [Intent(|s.subs|, true, true)],
       record := PendingCase(s.record, ParityTool), reserved := true, dedupe := s.dedupe[KIND := DurableIntent])
  }

  lemma MailingSucceeds(s: State, i: nat, a: Attempt)
    requires ReadyFor(s, ParityTool, i) && a.ByEmail? && a.email.Valid() && EffectOf(a)
    ensures Run(s, Opening(ParityTool, i) + [Acting(i, a)]) == Mailed(s, AfterToolAttempt(ParityTool, a))
  {
    RunConcat(s, Opening(ParityTool, i), [Acting(i, a)]);
    OpeningSucceeds(s, ParityTool, i);
    var s1 := Opened(s, ParityTool);
    RunOne(s1, Acting(i, a));
    assert s1.subs[i] == Owner(s, ParityTool, Open);
    ToolSends(s1, i, a);
    LastMoves(s, Owner(s, ParityTool, Open), Owner(s, ParityTool, AfterToolAttempt(ParityTool, a)));
    assert s1.intents[|s.intents| := Intent(|s.subs|, true, true)] == s.intents + [Intent(|s.subs|, true, true)];
  }

  // Two reservations have written, although no operator review, ledger exit or portal lies between.
  predicate BreaksPromise(s: State) { Writes(s.intents) == 2 && s.notStarted == 0 && s.exits == 0 && s.portals == 0 }

  lemma TwoWrites(a: Intent, b: Intent)
    requires a.wrote && b.wrote
    ensures Writes([a, b]) == 2
  {
    assert [a, b][..1] == [a] && [a][..0] == [];
    assert Writes([]) == 0 && Writes([a]) == 1;
  }

  // ---- Cause 1: a misclassified attempt

  lemma MisclassifiedEmailWritesTwice(a: Attempt)
    requires a.ByEmail? && a.email.Valid() && Misclassified(Owner(INITIAL, ParityTool, Open), Generic, a)
    ensures BreaksPromise(
      Run(INITIAL, Opening(ParityTool, 0) + [Acting(0, a)] + [Step(0, CALM), Step(0, CALM)] + Mailing(1)))
  {
    var first, ending := Opening(ParityTool, 0) + [Acting(0, a)], [Step(0, CALM), Step(0, CALM)];
    RunConcat(INITIAL, first + ending, Mailing(1));
    RunConcat(INITIAL, first, ending);
    ReleaseAfterWriteIff(Owner(INITIAL, ParityTool, Open), Generic, a);
    MailingSucceeds(INITIAL, 0, a);
    var s := Run(INITIAL, first);
    assert s.subs[0] == Owner(INITIAL, ParityTool, Releasing) && s.intents == [Intent(0, true, true)];
    EndingReopens(s, 0);
    var t := Run(s, ending);
    assert t.intents == [Intent(0, false, true)];
    MailingSucceeds(t, 1, REFUSED);
    TwoWrites(Intent(0, false, true), Intent(1, true, true));
    assert Run(t, Mailing(1)).intents == [Intent(0, false, true), Intent(1, true, true)];
  }

  lemma EndingReopens(s: State, i: nat)
    requires CanRelease(s, i)
    ensures Run(s, [Step(i, CALM), Step(i, CALM)]) == Cleaned(Released(s, i), i, Answered)
  {
    RunTwo(s, Step(i, CALM), Step(i, CALM));
    ReleaseLands(s, i);
    CleanLands(Released(s, i), i, CALM);
  }

  // A click of session 0, which has just been opened.
  const CLICK := FormStep(0, true)
  const BEGUN := INITIAL.(sessions := [Session(Generic, true, None)])

  // The open reservation of the first click: it is reservation 0 of submitter 0.
  const HELD := Opened(BEGUN, CLICK)

  lemma HeldIs()
    ensures HELD.subs == [Submitter(CLICK, KIND, false, Open, Some(0), true)]
      && HELD.intents == [Intent(0, true, false)]
    ensures HELD.sessions == [Session(Generic, true, Some(0))] && HELD.dedupe == map[KIND := DurableIntent]
    ensures HELD.record == PendingCase(FRESH, CLICK) && HELD.scopes == {} && HELD.misreleases == 0 && HELD.strays == 0
    ensures HELD.notStarted == 0 && HELD.exits == 0 && HELD.portals == 0
  {
    assert Reserving(BEGUN, CLICK, Open).sessions[0 := Session(Generic, true, Some(0))]
      == [Session(Generic, true, Some(0))];
  }

  lemma HeldIsReached()
    ensures Run(INITIAL, [OpenSession(Generic)] + Opening(CLICK, 0)) == HELD
  {
    RunConcat(INITIAL, [OpenSession(Generic)], Opening(CLICK, 0));
    RunOne(INITIAL, OpenSession(Generic));
    assert BEGUN == Next(INITIAL, OpenSession(Generic));
    OpeningSucceeds(BEGUN, CLICK, 0);
  }

  const LOST := ByStep(ReceiptFailed(DomainMismatch))

  // The parity tool writes in a state in which reservation 0 was given up.
  lemma SecondWrite(s: State, i: nat)
    requires ReadyFor(s, ParityTool, i) && |s.intents| == 1
    ensures Run(s, Mailing(i)) == Mailed(s, Doubting)
    ensures Run(s, Mailing(i)).intents == [s.intents[0], Intent(i, true, true)]
  {
    MailingSucceeds(s, i, REFUSED);
  }

  // Submitter i gives reservation 0 up, and the parity tool writes.
  function Replacing(i: nat, n: nat): seq<Event> { [Step(i, CALM), Step(i, CALM)] + Mailing(n) }

  predicate SameCredits(s: State, t: State) {
    t.notStarted == s.notStarted && t.exits == s.exits && t.portals == s.portals && t.strays == s.strays
  }

  lemma ReplacingSucceeds(s: State, i: nat, n: nat)
    requires CanRelease(s, i) && |s.subs| == n && |s.intents| == 1 && s.subs[i].intent == Some(0)
    ensures var t := Run(s, Replacing(i, n));
      && |t.subs| == n + 1 && t.sessions == Cleaned(s, i, Answered).sessions && SameCredits(s, t)
      && (forall j :: 0 <= j < n && j != i ==> t.subs[j] == s.subs[j])
      && t.misreleases == s.misreleases + (if s.intents[0].wrote then 1 else 0)
      && t.intents == [s.intents[0].(live := false), Intent(n, true, true)]
  {
    RunConcat(s, [Step(i, CALM), Step(i, CALM)], Mailing(n));
    EndingReopens(s, i);
    var u := Cleaned(Released(s, i), i, Answered);
    SecondWrite(u, n);
  }

  lemma MisclassifiedClickIsReleased()
    ensures Run(HELD, [Acting(0, LOST), Acting(0, LOST)]) == Goto(Effect(HELD, 0), 0, Releasing)
    ensures CanRelease(Goto(Effect(HELD, 0), 0, Releasing), 0)
  {
    HeldIs();
    RunTwo(HELD, Acting(0, LOST), Acting(0, LOST));
    ClickSends(HELD, 0, LOST);
    var s1 := Goto(Effect(HELD, 0), 0, Dispatched);
    assert s1.subs == [Submitter(CLICK, KIND, false, Dispatched, Some(0), true)];
    ClickReturns(s1, 0, LOST);
  }

  lemma MisclassifiedClickWritesTwice()
    ensures var s := Run(HELD, [Acting(0, LOST), Acting(0, LOST)] + Replacing(0, 1));
      BreaksPromise(s) && s.misreleases == 1 && s.strays == 0
  {
    RunConcat(HELD, [Acting(0, LOST), Acting(0, LOST)], Replacing(0, 1));
    MisclassifiedClickIsReleased();
    HeldIs();
    ReplacingSucceeds(Goto(Effect(HELD, 0), 0, Releasing), 0, 1);
    TwoWrites(Intent(0, false, true), Intent(1, true, true));
  }

  // ---- Cause 2: two steps of one session in flight together

  const JOINING := [Spawn(CLICK, KIND, false), Step(1, CALM)]

  // The second click waits in its driver action under the first click's reservation.
  const JOINED := WithSub(HELD, Submitter(CLICK, KIND, false, Open, Some(0), false))

  lemma JoinedIs()
    ensures Run(HELD, JOINING) == JOINED && |JOINED.subs| == 2
    ensures JOINED.subs[0] == Submitter(CLICK, KIND, false, Open, Some(0), true)
    ensures JOINED.subs[1] == Submitter(CLICK, KIND, false, Open, Some(0), false)
    ensures JOINED.intents == [Intent(0, true, false)] && JOINED.sessions == [Session(Generic, true, Some(0))]
    ensures JOINED.dedupe == map[KIND := DurableIntent] && JOINED.record == PendingCase(FRESH, CLICK)
      && JOINED.scopes == {}
    ensures JOINED.misreleases == 0 && JOINED.strays == 0
    ensures JOINED.notStarted == 0 && JOINED.exits == 0 && JOINED.portals == 0
  {
    HeldIs();
    ClickShares(HELD, 0, 1);
  }

  // The first click is refused and releases; a tool writes; only then does the second click go out.
  lemma LateClickWritesTwice()
    ensures var s := Run(HELD, JOINING + [Acting(0, REFUSED_CLICK)] + Replacing(0, 2) + [Acting(1, SENT)]);
      BreaksPromise(s) && s.misreleases == 0 && s.strays == 1
  {
    var refusal := [Acting(0, REFUSED_CLICK)];
    JoinedIs();
    RunConcat(HELD, JOINING + refusal + Replacing(0, 2), [Acting(1, SENT)]);
    RunConcat(HELD, JOINING + refusal, Replacing(0, 2));
    RunConcat(HELD, JOINING, refusal);
    RunOne(JOINED, Acting(0, REFUSED_CLICK));
    ClickIsRefused(JOINED, 0);
    var s1 := Goto(JOINED, 0, Releasing);
    ReplacingSucceeds(s1, 0, 2);
    var s2 := Run(s1, Replacing(0, 2));
    assert s2.subs[1] == JOINED.subs[1];
    RunOne(s2, Acting(1, SENT));
    ClickSends(s2, 1, SENT);
    assert s2.intents[0 := Intent(0, false, true)] == [Intent(0, false, true), Intent(2, true, true)];
    TwoWrites(Intent(0, false, true), Intent(2, true, true));
  }

  // The second click goes out first; then the first one is refused and releases the written reservation.
  lemma SharedReleaseWritesTwice()
    ensures var s := Run(HELD, JOINING + [Acting(1, SENT), Acting(0, REFUSED_CLICK)] + Replacing(0, 2));
      BreaksPromise(s) && s.misreleases == 1 && s.strays == 0
  {
    var acts := [Acting(1, SENT), Acting(0, REFUSED_CLICK)];
    JoinedIs();
    RunConcat(HELD, JOINING + acts, Replacing(0, 2));
    RunConcat(HELD, JOINING, acts);
    RunTwo(JOINED, Acting(1, SENT), Acting(0, REFUSED_CLICK));
    ClickSends(JOINED, 1, SENT);
    var s1 := Goto(Effect(JOINED, 0), 1, Dispatched);
    assert s1.intents == [Intent(0, true, true)] && s1.subs[0] == JOINED.subs[0];
    ClickIsRefused(s1, 0);
    ReplacingSucceeds(Goto(s1, 0, Releasing), 0, 2);
    TwoWrites(Intent(0, false, true), Intent(2, true, true));
  }

  // ---- Cause 3: a dedupe delete that takes effect and throws leaves the flag of a released reservation

  const STALE := [Acting(0, REFUSED_CLICK), Step(0, CALM), Step(0, CALM.(fate := Threw(true)))]
                 + Mailing(1) + [Spawn(CLICK, KIND, false), Step(2, CALM)] + [Acting(2, SENT)]

  // The refused click has ended; reservation 0 is released, and its session's flag is still set.
  lemma StaleFlagStays()
    ensures var t := Run(HELD, [Acting(0, REFUSED_CLICK), Step(0, CALM), Step(0, CALM.(fate := Threw(true)))]);
      && ReadyFor(t, ParityTool, 1) && t.intents == [Intent(0, false, false)] && t.sessions == HELD.sessions
      && t.misreleases == 0 && SameCredits(HELD, t)
  {
    var thrown := CALM.(fate := Threw(true));
    HeldIs();
    RunThree(HELD, Acting(0, REFUSED_CLICK), Step(0, CALM), Step(0, thrown));
    ClickIsRefused(HELD, 0);
    var s1 := Goto(HELD, 0, Releasing);
    ReleaseLands(s1, 0);
    CleanLands(Released(s1, 0), 0, thrown);
  }

  lemma StaleFlagWritesTwice()
    ensures var s := Run(HELD, STALE); BreaksPromise(s) && s.misreleases == 0 && s.strays == 1
  {
    var ending := [Acting(0, REFUSED_CLICK), Step(0, CALM), Step(0, CALM.(fate := Threw(true)))];
    var joining := [Spawn(CLICK, KIND, false), Step(2, CALM)];
    HeldIs();
    RunConcat(HELD, ending + Mailing(1) + joining, [Acting(2, SENT)]);
    RunConcat(HELD, ending + Mailing(1), joining);
    RunConcat(HELD, ending, Mailing(1));
    StaleFlagStays();
    var s2 := Run(HELD, ending);
    SecondWrite(s2, 1);
    var s3 := Mailed(s2, Doubting);
    ClickShares(s3, 0, 2);
    var s4 := WithSub(s3, Fresh(CLICK, Open).(intent := Some(0)));
    assert s4.intents == [Intent(0, false, false), Intent(1, true, true)];
    RunOne(s4, Acting(2, SENT));
    ClickSends(s4, 2, SENT);
    assert s4.intents[0 := Intent(0, false, true)] == [Intent(0, false, true), Intent(1, true, true)];
    TwoWrites(Intent(0, false, true), Intent(1, true, true));
  }

  // The clicks above from the start of the run.
  const START := [OpenSession(Generic)] + Opening(CLICK, 0)

  // Each cause that PromisedBoundHolds excludes breaks the promise: a lost receipt, a click that joins
  // another one's reservation (sent after or before that one's release), and a flag left by a failed delete.
  lemma EachCauseBreaksThePromise()
    ensures BreaksPromise(Run(INITIAL, START + ([Acting(0, LOST), Acting(0, LOST)] + Replacing(0, 1))))
    ensures BreaksPromise(
      Run(INITIAL, START + (JOINING + [Acting(0, REFUSED_CLICK)] + Replacing(0, 2) + [Acting(1, SENT)])))
    ensures BreaksPromise(
      Run(INITIAL, START + (JOINING + [Acting(1, SENT), Acting(0, REFUSED_CLICK)] + Replacing(0, 2))))
    ensures BreaksPromise(Run(INITIAL, START + STALE))
  {
    HeldIsReached();
    RunConcat(INITIAL, START, [Acting(0, LOST), Acting(0, LOST)] + Replacing(0, 1));
    MisclassifiedClickWritesTwice();
    RunConcat(INITIAL, START, JOINING + [Acting(0, REFUSED_CLICK)] + Replacing(0, 2) + [Acting(1, SENT)]);
    LateClickWritesTwice();
    RunConcat(INITIAL, START, JOINING + [Acting(1, SENT), Acting(0, REFUSED_CLICK)] + Replacing(0, 2));
    SharedReleaseWritesTwice();
    RunConcat(INITIAL, START, STALE);
    StaleFlagWritesTwice();
  }

  // ---- Runs that reach the bound

  function Review(i: nat): seq<Event> { [Step(i, CALM), Reconciled(true, 1, 0), DedupeLost(KIND)] }

  // n rounds in which the operator reviews each uncertain write as not started.
  function Rounds(n: nat): seq<Event> {
    if n == 0 then [] else Rounds(n - 1) + (Mailing(n - 1) + Review(n - 1))
  }

  lemma DoubtIsRecorded(s: State, i: nat)
    requires i < |s.subs| && s.subs[i].pc == Doubting && s.subs[i].writer.ParityTool?
    requires s.record.state == SubmissionPending && s.record.channel == Some(SmtpEmail)
    ensures var doubted := s.record.(state := CaseState.SubmissionUncertain, outcome := Uncertain, recheckAt := None);
      Next(s, Step(i, CALM)) == Goto(s, i, Ended).(record := doubted)
  {
    assert Next(s, Step(i, CALM)) == StepDoubt(s, i, CALM);
  }

  lemma ReviewLands(s: State)
    requires s.record.state == CaseState.SubmissionUncertain && s.record.channel.Some?
    ensures Next(s, Reconciled(true, 1, 0)) == s.(
      record := s.record.(state := ActionSelected, outcome := HumanNotStarted, recheckAt := None),
      notStarted := s.notStarted + 1)
  {
    assert Next(s, Reconciled(true, 1, 0)) == OperatorReview(s, true, 1, 0);
  }

  lemma DedupeIsLost(s: State)
    ensures Next(s, DedupeLost(KIND)) == s.(dedupe := s.dedupe - {KIND})
  {
  }

  lemma ReviewThenLoss(s: State)
    requires s.record.state == CaseState.SubmissionUncertain && s.record.channel.Some? && KIND !in s.scopes
    ensures var t := Next(Next(s, Reconciled(true, 1, 0)), DedupeLost(KIND));
      ReadyFor(t, ParityTool, |s.subs|) && t.intents == s.intents && t.notStarted == s.notStarted + 1
      && t.exits == s.exits && t.portals == s.portals && t.misreleases == s.misreleases && t.strays == s.strays
  {
    ReviewLands(s);
    DedupeIsLost(Next(s, Reconciled(true, 1, 0)));
  }

  lemma ReviewReopens(s: State, i: nat)
    requires |s.subs| == i + 1 && s.subs[i].pc == Doubting && s.subs[i].writer.ParityTool? && KIND !in s.scopes
    requires s.record.state == SubmissionPending && s.record.channel == Some(SmtpEmail)
    ensures var t := Run(s, Review(i));
      ReadyFor(t, ParityTool, i + 1) && t.intents == s.intents && t.notStarted == s.notStarted + 1
      && t.exits == s.exits && t.portals == s.portals && t.misreleases == s.misreleases && t.strays == s.strays
  {
    RunThree(s, Step(i, CALM), Reconciled(true, 1, 0), DedupeLost(KIND));
    DoubtIsRecorded(s, i);
    ReviewThenLoss(Next(s, Step(i, CALM)));
  }

  // One more write, and the credits as they were.
  predicate OneMore(s: State, t: State) {
    Writes(t.intents) == Writes(s.intents) + 1 && t.notStarted == s.notStarted && t.exits == s.exits
    && t.portals == s.portals && t.misreleases == s.misreleases && t.strays == s.strays
  }

  lemma MailingWritesOnce(s: State, i: nat)
    requires ReadyFor(s, ParityTool, i)
    ensures Run(s, Mailing(i)) == Mailed(s, Doubting) && OneMore(s, Mailed(s, Doubting))
  {
    MailingSucceeds(s, i, REFUSED);
    assert (s.intents + [Intent(i, true, true)])[..|s.intents|] == s.intents;
  }

  lemma {:induction false} RoundsStayReady(n: nat)
    ensures var s := Run(INITIAL, Rounds(n));
      ReadyFor(s, ParityTool, n) && Writes(s.intents) == n && s.notStarted == n
      && s.exits == 0 && s.portals == 0 && s.misreleases == 0 && s.strays == 0
  {
    if n > 0 {
      RoundsStayReady(n - 1);
      var s := Run(INITIAL, Rounds(n - 1));
      RunConcat(INITIAL, Rounds(n - 1), Mailing(n - 1) + Review(n - 1));
      RunConcat(s, Mailing(n - 1), Review(n - 1));
      MailingWritesOnce(s, n - 1);
      ReviewReopens(Mailed(s, Doubting), n - 1);
    }
  }

  // The bound is reached for every number of reviews, so no smaller one holds.
  lemma BoundIsReached(n: nat)
    ensures var s := Run(INITIAL, Rounds(n) + Mailing(n));
      s.notStarted == n && s.exits == 0 && s.portals == 0 && s.misreleases == 0 && s.strays == 0
      && Writes(s.intents) == 1 + n
  {
    RoundsStayReady(n);
    RunConcat(INITIAL, Rounds(n), Mailing(n));
    MailingWritesOnce(Run(INITIAL, Rounds(n)), n);
  }
}
