// The synthetic plan of the runner: fixture cases added beside the catalog cases, the two simulations that
// drive them through `transition`, and the reports that count them.
module DummyPlan {
  import opened Wrappers
  import opened RunnerCase

  // The PII pattern, as a test on the text of a proof reference.
  type Pii = string -> bool

  datatype PlanCase = PlanCase(record: Case, scenario: string)

  const PLANNED: set<string> := {"name", "contact_email"}

  // BROKER_ID_RE on "dummy_fixture_" and the scenario.
  predicate ScenarioName(s: string) {
    |s| <= 66 && forall i :: 0 <= i < |s| ==> 'a' <= s[i] <= 'z' || '0' <= s[i] <= '9' || s[i] == '_'
  }

  // BROKER_ID_RE: 2 to 80 lower-case letters, digits and underscores.
  predicate BrokerId(s: string) {
    2 <= |s| <= 80 && forall i :: 0 <= i < |s| ==> 'a' <= s[i] <= 'z' || '0' <= s[i] <= '9' || s[i] == '_'
  }

  lemma ScenarioNameIff(s: string)
    ensures ScenarioName(s) <==> BrokerId("dummy_fixture_" + s)
  {
    var id := "dummy_fixture_" + s;
    assert forall i :: 0 <= i < |s| ==> s[i] == id[i + 14];
    assert forall i :: 14 <= i < |id| ==> id[i] == s[i - 14];
  }

  function Fixture(scenario: string): PlanCase {
    PlanCase(MakeCase(true, scenario == "human_task", PLANNED), scenario)
  }

  function Fixtures(scenarios: seq<string>): seq<PlanCase> {
    seq(|scenarios|, i requires 0 <= i < |scenarios| => Fixture(scenarios[i]))
  }

  function Slug(s: string): (r: string)
    ensures |r| == |s| && forall i :: 0 <= i < |s| ==> r[i] == if s[i] == '_' then '-' else s[i]
  {
    seq(|s|, i requires 0 <= i < |s| => if s[i] == '_' then '-' else s[i])
  }

  function SubmitProof(scenario: string): string { "dummy-proof-" + Slug(scenario) }

  function LaterProof(scenario: string): string { "dummy-proof-" + Slug(scenario) + "-later-scan" }

  predicate EndsConfirmed(scenario: string) { scenario == "confirmed_removed" || scenario == "reappeared" }

  // The scenarios the simulation accepts: the human task, or a name whose proof references are valid and
  // read as no personal data.
  predicate WellFormed(pii: Pii, scenario: string) {
    scenario == "human_task"
    || (3 <= |scenario| <= 64 && !pii(SubmitProof(scenario))
        && (EndsConfirmed(scenario) ==> !pii(LaterProof(scenario))))
  }

  function FinalState(scenario: string): CaseState {
    if scenario == "human_task" then HumanTaskQueued
    else if scenario == "awaiting_verification" then VerificationPending
    else if scenario == "awaiting_processing" then AwaitingProcessing
    else if scenario == "confirmed_removed" then ConfirmedRemoved
    else if scenario == "reappeared" then Reappeared
    else Submitted
  }

  // The states a completed simulation takes a fixture through, and what it discloses.
  function FinalHistory(scenario: string): seq<CaseState> {
    [New, Searching, Found]
    + (if scenario == "human_task" then [HumanTaskQueued] else [ActionSelected, ApprovalRequired, Submitted])
    + (if scenario == "awaiting_verification" then [VerificationPending] else [])
    + (if scenario == "awaiting_processing" || EndsConfirmed(scenario) then [AwaitingProcessing] else [])
    + (if EndsConfirmed(scenario) then LaterStates(scenario) else [])
  }

  function LaterStates(scenario: string): seq<CaseState> {
    if scenario == "reappeared" then [ConfirmedRemoved, Reappeared] else [ConfirmedRemoved]
  }

  function FinalDisclosures(scenario: string): seq<seq<string>> {
    if scenario == "human_task" then [] else [["name", "contact_email"]]
  }

  predicate Simulated(c: PlanCase) {
    && c.record.state == FinalState(c.scenario) && c.record.history == FinalHistory(c.scenario)
    && c.record.disclosures == FinalDisclosures(c.scenario)
  }

  function ScanState(scenario: string): CaseState {
    if scenario == "found" then Found else if scenario == "not_found" then NotFound else Inconclusive
  }

  predicate Scanned(c: PlanCase) {
    && c.record.state == ScanState(c.scenario) && c.record.history == [New, Searching, ScanState(c.scenario)]
    && c.record.disclosures == []
  }

  lemma ProofIsReferenceIff(scenario: string)
    requires ScenarioName(scenario)
    ensures ProofReference(SubmitProof(scenario)) <==> 3 <= |scenario| <= 64
    ensures EndsConfirmed(scenario) ==> ProofReference(LaterProof(scenario))
  {
    var p, slug := SubmitProof(scenario), Slug(scenario);
    assert p[..12] == "dummy-proof-" && p[0] == 'd';
    assert |p| >= 6 ==> p[..6][0] == 'd';
    forall i | 12 <= i < |p| ensures ProofChar(p[i]) {
      assert p[i] == slug[i - 12];
    }
    if EndsConfirmed(scenario) {
      var l, tail := LaterProof(scenario), "-later-scan";
      assert l[..12] == "dummy-proof-";
      assert |l| == 12 + |scenario| + 11;
      forall i | 12 <= i < |l| ensures ProofChar(l[i]) {
        assert l[i] == if i < 12 + |slug| then slug[i - 12] else tail[i - 12 - |slug|];
      }
    }
  }

  const KIND_ONLY := Evidence(true, false, false, false, false, false, false, false, None)
  const LISTING := Evidence(true, true, false, false, false, false, false, false, None)

  function SubmitEvidence(pii: Pii, scenario: string): Evidence {
    Evidence(!pii(SubmitProof(scenario)), false, false, true, true, true, false, false, Some(SubmitProof(scenario)))
  }

  function LaterEvidence(pii: Pii, scenario: string): Evidence {
    Evidence(!pii(LaterProof(scenario)), false, true, false, false, false, false, false, Some(LaterProof(scenario)))
  }

  function Noted(disclosures: seq<seq<string>>, disclosed: seq<string>): seq<seq<string>> {
    if disclosed == [] then disclosures else disclosures + [disclosed]
  }

  // The two guarded moves of the simulation succeed exactly when their proof reference passes its checks.
  lemma SubmitDoneIff(c: Case, pii: Pii, scenario: string)
    requires c.fixtureOnly && !c.humanOnly && c.planned == PLANNED && c.state.ApprovalRequired?
      && ScenarioName(scenario)
    ensures OutcomeOf(c, Call(Submitted, true, Some(SubmitEvidence(pii, scenario)), ["name", "contact_email"])).Done?
      <==> 3 <= |scenario| <= 64 && !pii(SubmitProof(scenario))
  {
    ProofIsReferenceIff(scenario);
    assert "name" !in SENSITIVE && "contact_email" !in SENSITIVE;
  }

  lemma ConfirmDoneIff(c: Case, pii: Pii, scenario: string)
    requires c.fixtureOnly && c.state.AwaitingProcessing? && ScenarioName(scenario) && EndsConfirmed(scenario)
    ensures OutcomeOf(c, Call(ConfirmedRemoved, true, Some(LaterEvidence(pii, scenario)), [])).Done?
      <==> !pii(LaterProof(scenario))
  {
    ProofIsReferenceIff(scenario);
  }

  class Plan {
    var cases: seq<PlanCase>

    constructor (catalog: seq<PlanCase>)
      ensures cases == catalog
    {
      cases := catalog;
    }

    twostate predicate OnlyRecord(i: nat)
      reads this
    {
      && |cases| == old(|cases|) && i < |cases|
      && (forall k :: 0 <= k < |cases| && k != i ==> cases[k] == old(cases)[k])
      && cases[i].scenario == old(cases)[i].scenario
      && cases[i].record.fixtureOnly == old(cases)[i].record.fixtureOnly
      && cases[i].record.humanOnly == old(cases)[i].record.humanOnly
      && cases[i].record.planned == old(cases)[i].record.planned
    }

    method Put(i: nat, c: Case)
      requires i < |cases|
      modifies this
      ensures cases == old(cases)[i := PlanCase(c, old(cases)[i].scenario)]
    {
      cases := cases[i := PlanCase(c, cases[i].scenario)];
    }

    // transition, on the case at i.
    method Transition(i: nat, call: Call) returns (outcome: Outcome)
      requires i < |cases|
      modifies this
      ensures OnlyRecord(i)
      ensures outcome == OutcomeOf(old(cases)[i].record, call)
      ensures cases[i].record == After(old(cases)[i].record, call)
    {
      var c := cases[i].record;
      if !Admitted(c, call) { return Rejected; }
      Assign(i, call);
      if !DisclosureAllowed(c, call) { return AbortedLate; }
      NoteDisclosures(i, call);
      Put(i, cases[i].record.(history := cases[i].record.history + [call.to]));
      outcome := Done;
    }

    // The assignments before the disclosure checks.
    method Assign(i: nat, call: Call)
      requires i < |cases|
      modifies this
      ensures cases == old(cases)[i := PlanCase(Assigned(old(cases)[i].record, call), old(cases)[i].scenario)]
    {
      Put(i, cases[i].record.(state := call.to));
      if call.evidence.Some? {
        Put(i, cases[i].record.(evidence := cases[i].record.evidence + [call.evidence.value]));
      }
    }

    // The disclosure record and the recheck date.
    method NoteDisclosures(i: nat, call: Call)
      requires i < |cases|
      modifies this
      ensures var c := old(cases)[i].record;
        var d := c.(disclosures := if call.disclosed == [] then c.disclosures else c.disclosures + [call.disclosed],
                    recheckSet := c.recheckSet || call.to.Submitted? || call.to.AwaitingProcessing?);
        cases == old(cases)[i := PlanCase(d, old(cases)[i].scenario)]
    {
      if call.disclosed != [] {
        Put(i, cases[i].record.(disclosures := cases[i].record.disclosures + [call.disclosed]));
      }
      if call.to.Submitted? || call.to.AwaitingProcessing? {
        Put(i, cases[i].record.(recheckSet := true));
      }
    }

    // A transition inside a simulation; an abort ends the run.
    method Move(i: nat, to: CaseState, evidence: Evidence, disclosed: seq<string>) returns (ok: bool)
      requires i < |cases| && cases[i].record.fixtureOnly
      modifies this
      ensures OnlyRecord(i)
      ensures ok <==> OutcomeOf(old(cases)[i].record, Call(to, true, Some(evidence), disclosed)).Done?
      ensures ok ==> cases[i].record.state == to && cases[i].record.history == old(cases)[i].record.history + [to]
      ensures ok ==> cases[i].record.disclosures == Noted(old(cases)[i].record.disclosures, disclosed)
    {
      var outcome := Transition(i, Call(to, true, Some(evidence), disclosed));
      ok := outcome.Done?;
    }

    method AddFixtures(scenarios: seq<string>) returns (ok: bool)
      modifies this
      ensures ok <==> forall i :: 0 <= i < |scenarios| ==> ScenarioName(scenarios[i])
      ensures ok ==> cases == old(cases) + Fixtures(scenarios)
    {
      var k := 0;
      while k < |scenarios|
        invariant k <= |scenarios|
        invariant forall i :: 0 <= i < k ==> ScenarioName(scenarios[i])
        invariant cases == old(cases) + Fixtures(scenarios[..k])
      {
        if !ScenarioName(scenarios[k]) { return false; }
        cases := cases + [Fixture(scenarios[k])];
        assert Fixtures(scenarios[..k + 1]) == Fixtures(scenarios[..k]) + [Fixture(scenarios[k])];
        k := k + 1;
      }
      assert scenarios[..k] == scenarios;
      ok := true;
    }

    method PlainMove(i: nat, to: CaseState, evidence: Evidence)
      requires i < |cases| && cases[i].record.fixtureOnly && Allowed(cases[i].record.state, to)
      requires evidence == KIND_ONLY || evidence == LISTING
      requires !to.Submitted? && !to.ConfirmedRemoved? && (to.Found? ==> evidence == LISTING)
      modifies this
      ensures OnlyRecord(i) && cases[i].record.state == to
      ensures cases[i].record.history == old(cases)[i].record.history + [to]
      ensures cases[i].record.disclosures == old(cases)[i].record.disclosures
    {
      var ok := Move(i, to, evidence, []);
    }

    method SimulateOne(i: nat, pii: Pii) returns (ok: bool)
      requires i < |cases| && ScenarioName(cases[i].scenario) && cases[i] == Fixture(cases[i].scenario)
      modifies this
      ensures OnlyRecord(i)
      ensures ok <==> WellFormed(pii, cases[i].scenario)
      ensures ok ==> Simulated(cases[i])
    {
      var scenario := cases[i].scenario;
      PlainMove(i, Searching, KIND_ONLY);
      PlainMove(i, Found, LISTING);
      if scenario == "human_task" {
        PlainMove(i, HumanTaskQueued, KIND_ONLY);
        return true;
      }
      PlainMove(i, ActionSelected, KIND_ONLY);
      PlainMove(i, ApprovalRequired, KIND_ONLY);
      SubmitDoneIff(cases[i].record, pii, scenario);
      ok := Move(i, Submitted, SubmitEvidence(pii, scenario), ["name", "contact_email"]);
      if !ok { return; }
      ok := AfterSubmission(i, pii);
    }

    method AfterSubmission(i: nat, pii: Pii) returns (ok: bool)
      requires i < |cases| && ScenarioName(cases[i].scenario) && cases[i].scenario != "human_task"
      requires cases[i].record.fixtureOnly && cases[i].record.state.Submitted?
      requires cases[i].record.history == [New, Searching, Found, ActionSelected, ApprovalRequired, Submitted]
      requires cases[i].record.disclosures == FinalDisclosures(cases[i].scenario)
      modifies this
      ensures OnlyRecord(i)
      ensures ok <==> (EndsConfirmed(cases[i].scenario) ==> !pii(LaterProof(cases[i].scenario)))
      ensures ok ==> Simulated(cases[i])
    {
      var scenario := cases[i].scenario;
      if scenario == "awaiting_verification" {
        PlainMove(i, VerificationPending, KIND_ONLY);
      }
      if scenario == "awaiting_processing" || EndsConfirmed(scenario) {
        PlainMove(i, AwaitingProcessing, KIND_ONLY);
      }
      ok := true;
      if EndsConfirmed(scenario) {
        ok := AfterProcessing(i, pii);
      }
    }

    method AfterProcessing(i: nat, pii: Pii) returns (ok: bool)
      requires i < |cases| && ScenarioName(cases[i].scenario) && EndsConfirmed(cases[i].scenario)
      requires cases[i].record.fixtureOnly && cases[i].record.state.AwaitingProcessing?
      modifies this
      ensures OnlyRecord(i)
      ensures ok <==> !pii(LaterProof(cases[i].scenario))
      ensures ok ==> cases[i].record.state == FinalState(cases[i].scenario)
      ensures ok ==> cases[i].record.history == old(cases)[i].record.history + LaterStates(cases[i].scenario)
      ensures ok ==> cases[i].record.disclosures == old(cases)[i].record.disclosures
    {
      var scenario := cases[i].scenario;
      ConfirmDoneIff(cases[i].record, pii, scenario);
      ok := Move(i, ConfirmedRemoved, LaterEvidence(pii, scenario), []);
      if !ok { return; }
      if scenario == "reappeared" {
        PlainMove(i, Reappeared, LISTING);
      }
    }

    // simulate_dummy: it completes exactly when every fixture's scenario is well formed, and then every
    // fixture is in the state of its scenario and the catalog cases are as they were.
    method SimulateDummy(pii: Pii) returns (ok: bool)
      requires forall i :: 0 <= i < |cases| && cases[i].record.fixtureOnly ==>
        ScenarioName(cases[i].scenario) && cases[i] == Fixture(cases[i].scenario)
      modifies this
      ensures |cases| == old(|cases|)
      ensures forall i :: 0 <= i < |cases| ==> Matches(cases[i], old(cases)[i])
      ensures forall i :: 0 <= i < |cases| && !cases[i].record.fixtureOnly ==> cases[i] == old(cases)[i]
      ensures ok <==> forall i :: 0 <= i < |cases| && cases[i].record.fixtureOnly ==> WellFormed(pii, cases[i].scenario)
      ensures ok ==> forall i :: 0 <= i < |cases| && cases[i].record.fixtureOnly ==> Simulated(cases[i])
    {
      var i := 0;
      while i < |cases|
        invariant i <= |cases| == old(|cases|)
        invariant forall k :: 0 <= k < |cases| ==> Matches(cases[k], old(cases)[k])
        invariant forall k :: i <= k < |cases| ==> cases[k] == old(cases)[k]
        invariant forall k :: 0 <= k < i && !cases[k].record.fixtureOnly ==> cases[k] == old(cases)[k]
        invariant forall k :: 0 <= k < i && cases[k].record.fixtureOnly ==> WellFormed(pii, cases[k].scenario)
        invariant forall k :: 0 <= k < i && cases[k].record.fixtureOnly ==> Simulated(cases[k])
      {
        if cases[i].record.fixtureOnly {
          var done := SimulateOne(i, pii);
          if !done { return false; }
        }
        i := i + 1;
      }
      ok := true;
    }

    // simulate_dummy_scan_only never aborts, whatever the scenario names.
    method SimulateScanOnly()
      requires forall i :: 0 <= i < |cases| && cases[i].record.fixtureOnly ==> cases[i] == Fixture(cases[i].scenario)
      modifies this
      ensures |cases| == old(|cases|)
      ensures forall i :: 0 <= i < |cases| ==> Matches(cases[i], old(cases)[i])
      ensures forall i :: 0 <= i < |cases| && !cases[i].record.fixtureOnly ==> cases[i] == old(cases)[i]
      ensures forall i :: 0 <= i < |cases| && cases[i].record.fixtureOnly ==> Scanned(cases[i])
    {
      var i := 0;
      while i < |cases|
        invariant i <= |cases| == old(|cases|)
        invariant forall k :: 0 <= k < |cases| ==> Matches(cases[k], old(cases)[k])
        invariant forall k :: i <= k < |cases| ==> cases[k] == old(cases)[k]
        invariant forall k :: 0 <= k < i && !cases[k].record.fixtureOnly ==> cases[k] == old(cases)[k]
        invariant forall k :: 0 <= k < i && cases[k].record.fixtureOnly ==> Scanned(cases[k])
      {
        if cases[i].record.fixtureOnly {
          PlainMove(i, Searching, KIND_ONLY);
          if cases[i].scenario == "found" {
            PlainMove(i, Found, LISTING);
          } else if cases[i].scenario == "not_found" {
            PlainMove(i, NotFound, KIND_ONLY);
          } else {
            PlainMove(i, Inconclusive, KIND_ONLY);
          }
        }
        i := i + 1;
      }
    }

    // summarize: one count for each state some case is in.
    method StateCounts() returns (counts: map<CaseState, nat>)
      ensures forall s :: s in counts <==> Count(cases, s) > 0
      ensures forall s :: s in counts ==> counts[s] == Count(cases, s)
    {
      counts := map[];
      var i := 0;
      while i < |cases|
        invariant i <= |cases|
        invariant forall s :: s in counts <==> Count(cases[..i], s) > 0
        invariant forall s :: s in counts ==> counts[s] == Count(cases[..i], s)
      {
        var s := cases[i].record.state;
        assert cases[..i + 1][..i] == cases[..i];
        counts := counts[s := (if s in counts then counts[s] else 0) + 1];
        i := i + 1;
      }
      assert cases[..i] == cases;
    }

    // The whole synthetic run completes exactly when every scenario name is accepted and well formed; the
    // catalog cases are untouched and each scenario's fixture ends in its state.
    method DummyRun(scenarios: seq<string>, pii: Pii) returns (ok: bool)
      requires forall i :: 0 <= i < |cases| ==> !cases[i].record.fixtureOnly && cases[i].record.state.New?
      modifies this
      ensures ok <==> forall i :: 0 <= i < |scenarios| ==> ScenarioName(scenarios[i]) && WellFormed(pii, scenarios[i])
      ensures (forall i :: 0 <= i < |scenarios| ==> ScenarioName(scenarios[i])) ==> RunOf(cases, old(cases), scenarios)
      ensures ok ==> Ended(cases)
    {
      var added := AddFixtures(scenarios);
      if !added { return false; }
      FixturesAt(old(cases), scenarios);
      ok := SimulateDummy(pii);
      RunMatches(old(cases), scenarios, cases);
    }
  }

  // The catalog's cases unchanged, followed by one fixture for each scenario.
  predicate RunOf(cases: seq<PlanCase>, catalog: seq<PlanCase>, scenarios: seq<string>) {
    && |cases| == |catalog| + |scenarios| && cases[..|catalog|] == catalog
    && forall i :: 0 <= i < |scenarios| ==> Matches(cases[|catalog|..][i], Fixture(scenarios[i]))
  }

  lemma FixturesAt(catalog: seq<PlanCase>, scenarios: seq<string>)
    ensures forall i :: 0 <= i < |catalog| ==> (catalog + Fixtures(scenarios))[i] == catalog[i]
    ensures forall i :: |catalog| <= i < |catalog| + |scenarios| ==>
      (catalog + Fixtures(scenarios))[i] == Fixture(scenarios[i - |catalog|])
  {
  }

  lemma RunMatches(catalog: seq<PlanCase>, scenarios: seq<string>, cases: seq<PlanCase>)
    requires var before := catalog + Fixtures(scenarios);
      && |cases| == |before| && (forall i :: 0 <= i < |cases| ==> Matches(cases[i], before[i]))
      && forall i :: 0 <= i < |cases| && !cases[i].record.fixtureOnly ==> cases[i] == before[i]
    requires forall i :: 0 <= i < |catalog| ==> !catalog[i].record.fixtureOnly
    ensures RunOf(cases, catalog, scenarios)
  {
    var before, n := catalog + Fixtures(scenarios), |catalog|;
    forall i | 0 <= i < n ensures cases[i] == catalog[i] {
      assert before[i] == catalog[i] && Matches(cases[i], before[i]);
    }
    forall i | 0 <= i < |scenarios| ensures Matches(cases[n..][i], Fixture(scenarios[i])) {
      assert before[n + i] == Fixture(scenarios[i]) && Matches(cases[n + i], before[n + i]);
    }
  }

  // A run's plan holds as many fixtures as it was given scenarios.
  lemma RunFixtures(cases: seq<PlanCase>, catalog: seq<PlanCase>, scenarios: seq<string>)
    requires RunOf(cases, catalog, scenarios)
    requires forall i :: 0 <= i < |catalog| ==> !catalog[i].record.fixtureOnly
    ensures |FixturesOf(cases)| == |scenarios|
  {
    var n := |catalog|;
    forall i | 0 <= i < |cases[n..]| ensures cases[n..][i].record.fixtureOnly {
      assert Matches(cases[n..][i], Fixture(scenarios[i]));
    }
    assert cases == cases[..n] + cases[n..];
    FixturesConcat(cases[..n], cases[n..]);
    NoFixtures(cases[..n]);
    AllFixtures(cases[n..]);
  }

  // The same case: what identifies it, whatever happened to its state.
  predicate Matches(c: PlanCase, was: PlanCase) {
    && c.scenario == was.scenario && c.record.fixtureOnly == was.record.fixtureOnly
    && c.record.humanOnly == was.record.humanOnly && c.record.planned == was.record.planned
  }

  // ---- Reports

  // The report lists: the cases in a state, in plan order.
  function InState(cases: seq<PlanCase>, s: CaseState): seq<PlanCase> {
    if cases == [] then []
    else
      var last := cases[|cases| - 1];
      InState(cases[..|cases| - 1], s) + if last.record.state == s then [last] else []
  }

  function Count(cases: seq<PlanCase>, s: CaseState): nat { |InState(cases, s)| }

  function FixturesOf(cases: seq<PlanCase>): seq<PlanCase> {
    if cases == [] then []
    else
      var last := cases[|cases| - 1];
      FixturesOf(cases[..|cases| - 1]) + if last.record.fixtureOnly then [last] else []
  }

  lemma {:induction false} FixturesConcat(a: seq<PlanCase>, b: seq<PlanCase>)
    ensures FixturesOf(a + b) == FixturesOf(a) + FixturesOf(b)
  {
    if b == [] {
      assert a + b == a;
    } else {
      assert (a + b)[..|a + b| - 1] == a + b[..|b| - 1];
      FixturesConcat(a, b[..|b| - 1]);
    }
  }

  lemma {:induction false} NoFixtures(cases: seq<PlanCase>)
    requires forall i :: 0 <= i < |cases| ==> !cases[i].record.fixtureOnly
    ensures FixturesOf(cases) == []
  {
    if cases != [] { NoFixtures(cases[..|cases| - 1]); }
  }

  lemma {:induction false} AllFixtures(cases: seq<PlanCase>)
    requires forall i :: 0 <= i < |cases| ==> cases[i].record.fixtureOnly
    ensures FixturesOf(cases) == cases
  {
    if cases != [] { AllFixtures(cases[..|cases| - 1]); }
  }

  // A completed dummy run: fixtures in their scenarios' states, catalog cases still new.
  predicate Ended(cases: seq<PlanCase>) {
    forall i :: 0 <= i < |cases| ==>
      cases[i].record.state == if cases[i].record.fixtureOnly then FinalState(cases[i].scenario) else New
  }

  // The sizes of the removal report's six lists.
  function RemovalListed(cases: seq<PlanCase>): nat {
    Count(cases, Submitted) + Count(cases, VerificationPending) + Count(cases, AwaitingProcessing)
    + Count(cases, ConfirmedRemoved) + Count(cases, Reappeared) + Count(cases, HumanTaskQueued)
  }

  // Every fixture of a completed run is listed in exactly one removal list: the lists' sizes add up to the
  // number of fixtures, and a scenario's fixtures are all in the list of its state.
  lemma {:induction false} RemovalListsPartitionFixtures(cases: seq<PlanCase>)
    requires Ended(cases)
    ensures RemovalListed(cases) == |FixturesOf(cases)|
    ensures forall c :: c in FixturesOf(cases) ==> c in InState(cases, FinalState(c.scenario))
  {
    if cases != [] {
      RemovalListsPartitionFixtures(cases[..|cases| - 1]);
    }
  }

  // The sizes of the other nine states' lists.
  function OthersListed(cases: seq<PlanCase>): nat {
    Count(cases, New) + Count(cases, Searching) + Count(cases, NotFound)
    + Count(cases, Inconclusive) + Count(cases, Found) + Count(cases, IndirectExposure)
    + Count(cases, ActionSelected) + Count(cases, ApprovalRequired) + Count(cases, Blocked)
  }

  predicate InRemovalList(s: CaseState) {
    s.Submitted? || s.VerificationPending? || s.AwaitingProcessing? || s.ConfirmedRemoved? || s.Reappeared?
    || s.HumanTaskQueued?
  }

  lemma RemovalListedGrows(cases: seq<PlanCase>)
    requires cases != []
    ensures RemovalListed(cases) == RemovalListed(cases[..|cases| - 1])
      + if InRemovalList(cases[|cases| - 1].record.state) then 1 else 0
  {
  }

  lemma OthersListedGrows(cases: seq<PlanCase>)
    requires cases != []
    ensures OthersListed(cases) == OthersListed(cases[..|cases| - 1])
      + if InRemovalList(cases[|cases| - 1].record.state) then 0 else 1
  {
  }

  // The state counts add up to the number of cases, whatever the cases.
  lemma {:induction false} StateCountsSumToCases(cases: seq<PlanCase>)
    ensures RemovalListed(cases) + OthersListed(cases) == |cases|
  {
    if cases != [] {
      StateCountsSumToCases(cases[..|cases| - 1]);
      RemovalListedGrows(cases);
      OthersListedGrows(cases);
    }
  }

  // ---- The scan report

  function Checked(cases: seq<PlanCase>): seq<PlanCase> {
    if cases == [] then []
    else
      var last := cases[|cases| - 1];
      Checked(cases[..|cases| - 1]) + if last.record.fixtureOnly && !last.record.state.New? then [last] else []
  }

  // found, indirect_exposure, not_found, and inconclusive together with blocked, over the checked cases.
  function ScanListed(cases: seq<PlanCase>): nat {
    var c := Checked(cases);
    Count(c, Found) + Count(c, IndirectExposure) + Count(c, NotFound) + (Count(c, Inconclusive) + Count(c, Blocked))
  }

  predicate ScanResult(s: CaseState) {
    s.Found? || s.IndirectExposure? || s.NotFound? || s.Inconclusive? || s.Blocked?
  }

  lemma {:induction false} ListedAmongChecked(cs: seq<PlanCase>)
    ensures var n := Count(cs, Found) + Count(cs, IndirectExposure) + Count(cs, NotFound)
        + (Count(cs, Inconclusive) + Count(cs, Blocked));
      n <= |cs| && (n == |cs| <==> forall i :: 0 <= i < |cs| ==> ScanResult(cs[i].record.state))
  {
    if cs != [] {
      ListedAmongChecked(cs[..|cs| - 1]);
      assert cs == cs[..|cs| - 1] + [cs[|cs| - 1]];
    }
  }

  // The scan lists add up to checked_count exactly when every checked fixture ended in a scan result state.
  lemma ScanListsSumIff(cases: seq<PlanCase>)
    ensures ScanListed(cases) <= |Checked(cases)|
    ensures ScanListed(cases) == |Checked(cases)| <==> forall c :: c in Checked(cases) ==> ScanResult(c.record.state)
  {
    var cs := Checked(cases);
    ListedAmongChecked(cs);
    if forall i :: 0 <= i < |cs| ==> ScanResult(cs[i].record.state) {
      forall c | c in cs ensures ScanResult(c.record.state) {
        var i :| 0 <= i < |cs| && cs[i] == c;
      }
    }
  }

  // So they do after every scan-only run.
  lemma ScanOnlyListsSum(cases: seq<PlanCase>)
    requires forall i :: 0 <= i < |cases| && cases[i].record.fixtureOnly ==>
      cases[i].record.state == ScanState(cases[i].scenario)
    ensures ScanListed(cases) == |Checked(cases)| == |FixturesOf(cases)|
  {
    CheckedAreScanned(cases);
    ScanListsSumIff(cases);
  }

  lemma {:induction false} CheckedAreScanned(cases: seq<PlanCase>)
    requires forall i :: 0 <= i < |cases| && cases[i].record.fixtureOnly ==>
      cases[i].record.state == ScanState(cases[i].scenario)
    ensures |Checked(cases)| == |FixturesOf(cases)|
    ensures forall c :: c in Checked(cases) ==> ScanResult(c.record.state)
  {
    if cases != [] {
      CheckedAreScanned(cases[..|cases| - 1]);
    }
  }

  // ---- What the lists hold, and in which order

  // A list takes over the cases of its state one by one, in plan order, and nothing else.
  lemma {:induction false} ListsKeepPlanOrder(a: seq<PlanCase>, b: seq<PlanCase>, s: CaseState)
    ensures InState(a + b, s) == InState(a, s) + InState(b, s)
    ensures Checked(a + b) == Checked(a) + Checked(b)
  {
    if b == [] {
      assert a + b == a;
    } else {
      assert (a + b)[..|a + b| - 1] == a + b[..|b| - 1];
      ListsKeepPlanOrder(a, b[..|b| - 1], s);
    }
  }

  lemma OneCaseLists(c: PlanCase, s: CaseState)
    ensures InState([c], s) == if c.record.state == s then [c] else []
    ensures Checked([c]) == if c.record.fixtureOnly && c.record.state != New then [c] else []
  {
    assert [c][..0] == [] && [c][0] == c;
    assert InState([], s) == [] && Checked([]) == [];
  }

  lemma {:induction false} ListedIff(cases: seq<PlanCase>, s: CaseState)
    ensures forall c :: c in InState(cases, s) <==> c in cases && c.record.state == s
    ensures forall c :: c in Checked(cases) <==> c in cases && c.record.fixtureOnly && c.record.state != New
    ensures forall c :: c in FixturesOf(cases) <==> c in cases && c.record.fixtureOnly
  {
    if cases != [] {
      ListedIff(cases[..|cases| - 1], s);
      assert cases == cases[..|cases| - 1] + [cases[|cases| - 1]];
    }
  }
}
