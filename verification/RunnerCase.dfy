// The runner's case state machine: `transition` with its checks in the source's order, and what holds of a
// case over any sequence of calls, including calls that abort after the state was assigned.
module RunnerCase {
  import opened Wrappers

  datatype CaseState =
    | New | Searching | NotFound | Inconclusive | Found | IndirectExposure | ActionSelected | ApprovalRequired
    | Submitted | VerificationPending | AwaitingProcessing | ConfirmedRemoved | Reappeared | HumanTaskQueued | Blocked

  // ALLOWED_STATES.
  predicate Allowed(a: CaseState, b: CaseState) {
    match a
    case New => b.Searching? || b.Found? || b.NotFound? || b.Inconclusive? || b.IndirectExposure? || b.Blocked?
    case Searching => b.NotFound? || b.Found? || b.Inconclusive? || b.IndirectExposure? || b.Blocked?
    case NotFound => b.Searching? || b.Found? || b.Inconclusive? || b.IndirectExposure? || b.Blocked?
    case Inconclusive => b.Searching? || b.ActionSelected? || b.HumanTaskQueued? || b.Blocked?
    case Found => b.ActionSelected? || b.ApprovalRequired? || b.HumanTaskQueued? || b.IndirectExposure? || b.Blocked?
    case IndirectExposure =>
      b.ActionSelected? || b.ApprovalRequired? || b.HumanTaskQueued? || b.NotFound? || b.Found? || b.Blocked?
    case ActionSelected => b.ApprovalRequired? || b.HumanTaskQueued? || b.Blocked?
    case ApprovalRequired => b.Submitted? || b.HumanTaskQueued? || b.Blocked?
    case Submitted => b.VerificationPending? || b.AwaitingProcessing? || b.HumanTaskQueued? || b.Blocked?
    case VerificationPending => b.AwaitingProcessing? || b.ConfirmedRemoved? || b.HumanTaskQueued? || b.Blocked?
    case AwaitingProcessing => b.ConfirmedRemoved? || b.HumanTaskQueued? || b.Blocked?
    case ConfirmedRemoved => b.Reappeared? || b.ConfirmedRemoved?
    case Reappeared => b.Found? || b.IndirectExposure? || b.ActionSelected?
    case HumanTaskQueued =>
      b.Found? || b.IndirectExposure? || b.ActionSelected? || b.Submitted? || b.VerificationPending?
      || b.AwaitingProcessing? || b.ConfirmedRemoved? || b.Blocked?
    case Blocked =>
      b.Searching? || b.Found? || b.NotFound? || b.Inconclusive? || b.IndirectExposure? || b.ActionSelected?
      || b.HumanTaskQueued?
  }

  // What transition looks at in an evidence dictionary. safe: only known keys and no raw PII in its text;
  // confirmation: confirmation_status is one of the three accepted values; official: the checks of
  // require_official_submission_evidence other than human_completed hold for this case.
  datatype Evidence = Evidence(
    safe: bool, listingUrls: bool, laterScan: bool, confirmation: bool, sourceOrChannel: bool, official: bool,
    humanCompleted: bool, explicitGate: bool, proof: Option<string>)

  datatype Case = Case(
    state: CaseState, fixtureOnly: bool, humanOnly: bool, planned: set<string>, evidence: seq<Evidence>,
    disclosures: seq<seq<string>>, history: seq<CaseState>, recheckSet: bool)

  // A call of transition; safeNote: the note holds no raw PII. Absent or empty evidence is None.
  datatype Call = Call(to: CaseState, safeNote: bool, evidence: Option<Evidence>, disclosed: seq<string>)

  const SENSITIVE: set<string> := {"date_of_birth", "full_date_of_birth", "government_id", "passport",
    "drivers_license", "identity_document", "utility_bill"}

  function MakeCase(fixtureOnly: bool, humanOnly: bool, planned: set<string>): Case {
    Case(New, fixtureOnly, humanOnly, planned, [], [], [New], false)
  }

  predicate ProofChar(c: char) { 'a' <= c <= 'z' || '0' <= c <= '9' || c == '-' }

  predicate HexChar(c: char) { 'a' <= c <= 'f' || '0' <= c <= '9' }

  // PROOF_REF_RE, matched against the whole text.
  predicate ProofReference(s: string) {
    || (12 <= |s| - 6 <= 64 && s[..6] == "proof_" && forall i :: 6 <= i < |s| ==> HexChar(s[i]))
    || (3 <= |s| - 12 <= 64 && s[..12] == "dummy-proof-" && forall i :: 12 <= i < |s| ==> ProofChar(s[i]))
  }

  predicate EvidenceValid(e: Option<Evidence>) {
    e.None? || (e.value.safe && (e.value.proof.Some? ==> ProofReference(e.value.proof.value)))
  }

  // The checks made before the state is assigned.
  predicate Admitted(c: Case, call: Call) {
    && (c.fixtureOnly || call.to.New?)
    && (call.to == c.state || Allowed(c.state, call.to))
    && call.safeNote && EvidenceValid(call.evidence)
    && (call.to.Found? ==> call.evidence.Some? && call.evidence.value.listingUrls)
    && (call.to.Submitted? ==>
      && call.disclosed != [] && call.evidence.Some?
      && call.evidence.value.confirmation && call.evidence.value.sourceOrChannel
      && call.evidence.value.official && (c.humanOnly ==> call.evidence.value.humanCompleted))
    && (call.to.ConfirmedRemoved? ==> call.evidence.Some? && call.evidence.value.laterScan)
  }

  // The checks on the disclosed fields, made after the state is assigned and the evidence appended.
  predicate DisclosureAllowed(c: Case, call: Call) {
    && (forall f :: f in call.disclosed ==> f in c.planned)
    && ((exists f :: f in call.disclosed && f in SENSITIVE) ==>
      c.humanOnly && call.evidence.Some? && call.evidence.value.humanCompleted && call.evidence.value.explicitGate)
  }

  datatype Outcome = Rejected | AbortedLate | Done

  function OutcomeOf(c: Case, call: Call): Outcome {
    if !Admitted(c, call) then Rejected else if !DisclosureAllowed(c, call) then AbortedLate else Done
  }

  // The case after the call.
  function After(c: Case, call: Call): Case {
    match OutcomeOf(c, call)
    case Rejected => c
    case AbortedLate => Assigned(c, call)
    case Done =>
      var d := Assigned(c, call);
      d.(disclosures := if call.disclosed == [] then d.disclosures else d.disclosures + [call.disclosed],
         recheckSet := d.recheckSet || call.to.Submitted? || call.to.AwaitingProcessing?,
         history := d.history + [call.to])
  }

  function Assigned(c: Case, call: Call): Case {
    c.(state := call.to, evidence := if call.evidence.Some? then c.evidence + [call.evidence.value] else c.evidence)
  }

  function Run(c: Case, calls: seq<Call>): Case {
    if calls == [] then c else After(Run(c, calls[..|calls| - 1]), calls[|calls| - 1])
  }

  // ---- Any sequence of calls, aborted ones included

  predicate SawLaterScan(c: Case) { exists i :: 0 <= i < |c.evidence| && c.evidence[i].laterScan }

  predicate WithinPlan(c: Case, fields: seq<string>) {
    && (forall f :: f in fields ==> f in c.planned)
    && ((exists f :: f in fields && f in SENSITIVE) ==> c.humanOnly)
  }

  predicate Sound(c: Case) {
    && (c.state.ConfirmedRemoved? || c.state.Reappeared? ==> SawLaterScan(c))
    && (forall i :: 0 <= i < |c.disclosures| ==> WithinPlan(c, c.disclosures[i]))
  }

  lemma CallKeepsSound(c: Case, call: Call)
    requires Sound(c)
    ensures Sound(After(c, call))
  {
    var d := After(c, call);
    if SawLaterScan(c) && d != c {
      var i :| 0 <= i < |c.evidence| && c.evidence[i].laterScan;
      assert d.evidence[i].laterScan;
    }
    if (call.to.ConfirmedRemoved? && d != c) {
      assert d.evidence[|c.evidence|].laterScan;
    }
  }

  // Over any calls, a case confirmed removed or reappeared has a later-scan evidence entry, every recorded
  // disclosure stays within the planned fields, sensitive ones only on human-only cases, and a catalog case
  // never leaves `new`.
  lemma {:induction false} RunsStaySound(fixtureOnly: bool, humanOnly: bool, planned: set<string>, calls: seq<Call>)
    ensures var c := Run(MakeCase(fixtureOnly, humanOnly, planned), calls);
      && Sound(c) && (!fixtureOnly ==> c.state.New?)
      && c.fixtureOnly == fixtureOnly && c.planned == planned && c.humanOnly == humanOnly
  {
    if calls != [] {
      var c := MakeCase(fixtureOnly, humanOnly, planned);
      RunsStaySound(fixtureOnly, humanOnly, planned, calls[..|calls| - 1]);
      CallKeepsSound(Run(c, calls[..|calls| - 1]), calls[|calls| - 1]);
    }
  }

  // ---- The history

  predicate IsPath(history: seq<CaseState>) {
    forall i :: 0 < i < |history| ==> history[i] == history[i - 1] || Allowed(history[i - 1], history[i])
  }

  predicate InStep(c: Case) { c.history != [] && c.history[|c.history| - 1] == c.state && IsPath(c.history) }

  // One call keeps the history a path of ALLOWED_STATES, or stutters, ending in the state, exactly unless it
  // aborts after moving the case to another state.
  lemma StaysInStepIff(c: Case, call: Call)
    requires InStep(c)
    ensures InStep(After(c, call)) <==> !(OutcomeOf(c, call).AbortedLate? && call.to != c.state)
  {
    var d := After(c, call);
    if OutcomeOf(c, call).Done? {
      assert d.history[..|c.history|] == c.history;
    }
  }

  predicate NoCallMovesAndAborts(c: Case, calls: seq<Call>) {
    calls == []
    || (var before, call := Run(c, calls[..|calls| - 1]), calls[|calls| - 1];
        NoCallMovesAndAborts(c, calls[..|calls| - 1])
        && !(OutcomeOf(before, call).AbortedLate? && call.to != before.state))
  }

  lemma {:induction false} HistoryIsThePathTaken(c: Case, calls: seq<Call>)
    requires InStep(c) && NoCallMovesAndAborts(c, calls)
    ensures InStep(Run(c, calls)) && |Run(c, calls).history| >= |c.history|
  {
    if calls != [] {
      HistoryIsThePathTaken(c, calls[..|calls| - 1]);
      StaysInStepIff(Run(c, calls[..|calls| - 1]), calls[|calls| - 1]);
    }
  }

  // The case where it fails is reachable: a fixture's first call, to `blocked`, disclosing a field outside
  // the plan. The call aborts, the state is `blocked`, and the history still says `new`.
  lemma AbortLeavesStateWithoutHistory(field: string, planned: set<string>)
    requires field !in planned
    ensures var c := MakeCase(true, false, planned);
      var d := After(c, Call(Blocked, true, None, [field]));
      OutcomeOf(c, Call(Blocked, true, None, [field])).AbortedLate? && d.state.Blocked? && d.history == [New]
  {
    assert field in [field];
  }

  // ---- What a submission and a finding rest on

  // An evidence entry that a submission of this case needs.
  predicate Confirms(c: Case, e: Evidence) {
    e.confirmation && e.sourceOrChannel && e.official && (c.humanOnly ==> e.humanCompleted)
  }

  predicate HasConfirmation(c: Case) { exists i :: 0 <= i < |c.evidence| && Confirms(c, c.evidence[i]) }

  predicate HasListing(c: Case) { exists i :: 0 <= i < |c.evidence| && c.evidence[i].listingUrls }

  function SubmittedCount(history: seq<CaseState>): nat {
    if history == [] then 0
    else SubmittedCount(history[..|history| - 1]) + if history[|history| - 1].Submitted? then 1 else 0
  }

  predicate Rests(c: Case) {
    && (c.state.Submitted? ==> HasConfirmation(c))
    && (c.state.Found? ==> HasListing(c))
    && SubmittedCount(c.history) <= |c.disclosures|
    && forall i :: 0 <= i < |c.disclosures| ==> c.disclosures[i] != []
  }

  lemma EvidenceStays(c: Case, call: Call)
    ensures HasConfirmation(c) ==> HasConfirmation(After(c, call))
    ensures HasListing(c) ==> HasListing(After(c, call))
  {
    var d := After(c, call);
    if i :| 0 <= i < |c.evidence| && Confirms(c, c.evidence[i]) { assert d.evidence[i] == c.evidence[i]; }
    if i :| 0 <= i < |c.evidence| && c.evidence[i].listingUrls { assert d.evidence[i] == c.evidence[i]; }
  }

  lemma CallKeepsRests(c: Case, call: Call)
    requires Rests(c)
    ensures Rests(After(c, call))
  {
    var d := After(c, call);
    EvidenceStays(c, call);
    if !OutcomeOf(c, call).Rejected? && call.evidence.Some? {
      assert d.evidence[|c.evidence|] == call.evidence.value;
    }
    if OutcomeOf(c, call).Done? {
      assert d.history[..|c.history|] == c.history;
    }
  }

  // Over any calls, aborted ones included: a submitted case has a confirmed official evidence entry, completed by
  // a human where the case asks for it; a found case has one with listing URLs; and every submission in the
  // history has disclosed some field of its own.
  lemma {:induction false} SubmissionsRestOnEvidence(fixtureOnly: bool, humanOnly: bool, planned: set<string>,
    calls: seq<Call>)
    ensures var c := Run(MakeCase(fixtureOnly, humanOnly, planned), calls);
      && (c.state.Submitted? ==> HasConfirmation(c)) && (c.state.Found? ==> HasListing(c))
      && SubmittedCount(c.history) <= |c.disclosures|
      && (forall i :: 0 <= i < |c.disclosures| ==> c.disclosures[i] != [])
  {
    var start := MakeCase(fixtureOnly, humanOnly, planned);
    if calls == [] {
      assert start.history[..0] == [];
    } else {
      SubmissionsRestOnEvidence(fixtureOnly, humanOnly, planned, calls[..|calls| - 1]);
      CallKeepsRests(Run(start, calls[..|calls| - 1]), calls[|calls| - 1]);
    }
  }

  // Some evidence entry records a human-completed step under the explicit gate.
  predicate HasGate(c: Case) {
    exists i :: 0 <= i < |c.evidence| && c.evidence[i].humanCompleted && c.evidence[i].explicitGate
  }

  predicate TellsSensitive(fields: seq<string>) { exists f :: f in fields && f in SENSITIVE }

  predicate Gated(c: Case) {
    && (forall i :: 0 <= i < |c.evidence| ==> EvidenceValid(Some(c.evidence[i])))
    && (forall i :: 0 <= i < |c.disclosures| && TellsSensitive(c.disclosures[i]) ==> HasGate(c))
  }

  lemma CallKeepsGated(c: Case, call: Call)
    requires Gated(c)
    ensures Gated(After(c, call))
  {
    var d := After(c, call);
    if HasGate(c) {
      var i :| 0 <= i < |c.evidence| && c.evidence[i].humanCompleted && c.evidence[i].explicitGate;
      assert d.evidence[i] == c.evidence[i];
    }
    if OutcomeOf(c, call).Done? && TellsSensitive(call.disclosed) {
      assert d.evidence[|c.evidence|] == call.evidence.value;
      assert HasGate(d);
    }
  }

  // Over any calls, aborted ones included: only safe evidence with a valid proof reference is kept, and a case
  // whose disclosures name a sensitive field has an evidence entry of a human-completed step under the gate.
  lemma {:induction false} SensitiveDisclosuresAreGated(fixtureOnly: bool, humanOnly: bool, planned: set<string>,
                                                        calls: seq<Call>)
    ensures Gated(Run(MakeCase(fixtureOnly, humanOnly, planned), calls))
  {
    if calls != [] {
      var start := MakeCase(fixtureOnly, humanOnly, planned);
      SensitiveDisclosuresAreGated(fixtureOnly, humanOnly, planned, calls[..|calls| - 1]);
      CallKeepsGated(Run(start, calls[..|calls| - 1]), calls[|calls| - 1]);
    }
  }

  // Personal data in the note or the evidence stops a call before it changes anything.
  lemma UnsafeCallsChangeNothing(c: Case, call: Call)
    requires !call.safeNote || (call.evidence.Some? && !call.evidence.value.safe)
    ensures After(c, call) == c && OutcomeOf(c, call).Rejected?
  {
  }

  // ---- Proof references and the table, read the other way

  // The text is the prefix followed by `least` to 64 characters of the alphabet.
  predicate HasForm(s: string, prefix: string, least: nat, alphabet: string) {
    && |prefix| + least <= |s| <= |prefix| + 64 && s == prefix + s[|prefix|..]
    && forall i :: |prefix| <= i < |s| ==> s[i] in alphabet
  }

  lemma AlphabetIs(c: char)
    ensures HexChar(c) <==> c in "0123456789abcdef"
    ensures ProofChar(c) <==> c in "0123456789abcdefghijklmnopqrstuvwxyz-"
  {
    var hex, proof := "0123456789abcdef", "0123456789abcdefghijklmnopqrstuvwxyz-";
    if '0' <= c <= '9' { assert hex[c as int - 48] == c && proof[c as int - 48] == c; }
    if 'a' <= c <= 'f' { assert hex[c as int - 87] == c; }
    if 'a' <= c <= 'z' { assert proof[c as int - 87] == c; }
    if c == '-' { assert proof[36] == c; }
  }

  lemma ProofReferenceIff(s: string)
    ensures ProofReference(s) <==>
      HasForm(s, "proof_", 12, "0123456789abcdef")
      || HasForm(s, "dummy-proof-", 3, "0123456789abcdefghijklmnopqrstuvwxyz-")
  {
    forall i | 0 <= i < |s|
      ensures HexChar(s[i]) <==> s[i] in "0123456789abcdef"
      ensures ProofChar(s[i]) <==> s[i] in "0123456789abcdefghijklmnopqrstuvwxyz-"
    {
      AlphabetIs(s[i]);
    }
    if |s| >= 6 && s[..6] == "proof_" { assert s == "proof_" + s[6..]; }
    if |s| >= 12 && s[..12] == "dummy-proof-" { assert s == "dummy-proof-" + s[12..]; }
  }

  // From which states a case can move to each.
  predicate LeadsTo(a: CaseState, b: CaseState) {
    match b
    case New => false
    case Searching => a.New? || a.NotFound? || a.Inconclusive? || a.Blocked?
    case NotFound => a.New? || a.Searching? || a.IndirectExposure? || a.Blocked?
    case Inconclusive => a.New? || a.Searching? || a.NotFound? || a.Blocked?
    case Found =>
      a.New? || a.Searching? || a.NotFound? || a.IndirectExposure? || a.Reappeared? || a.HumanTaskQueued? || a.Blocked?
    case IndirectExposure =>
      a.New? || a.Searching? || a.NotFound? || a.Found? || a.Reappeared? || a.HumanTaskQueued? || a.Blocked?
    case ActionSelected =>
      a.Inconclusive? || a.Found? || a.IndirectExposure? || a.Reappeared? || a.HumanTaskQueued? || a.Blocked?
    case ApprovalRequired => a.Found? || a.IndirectExposure? || a.ActionSelected?
    case Submitted => a.ApprovalRequired? || a.HumanTaskQueued?
    case VerificationPending => a.Submitted? || a.HumanTaskQueued?
    case AwaitingProcessing => a.Submitted? || a.VerificationPending? || a.HumanTaskQueued?
    case ConfirmedRemoved =>
      a.VerificationPending? || a.AwaitingProcessing? || a.ConfirmedRemoved? || a.HumanTaskQueued?
    case Reappeared => a.ConfirmedRemoved?
    case HumanTaskQueued =>
      a.Inconclusive? || a.Found? || a.IndirectExposure? || a.ActionSelected? || a.ApprovalRequired? || a.Submitted?
      || a.VerificationPending? || a.AwaitingProcessing? || a.Blocked?
    case Blocked => !a.ConfirmedRemoved? && !a.Reappeared? && !a.Blocked?
  }

  lemma TableByTarget(a: CaseState, b: CaseState)
    ensures Allowed(a, b) <==> LeadsTo(a, b)
  {
  }
}
