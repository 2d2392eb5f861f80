// What holds in every run of a form session: clicks are backed, disclosures permitted, releases true except
// for two causes, and the case left reconcilable except after a leak; with runs that show each failure.
module FormSessionRuns {
  import opened Wrappers
  import opened CaseLedger
  import opened ProviderOutcomes
  import opened FormSession
  import opened FormSessionLog

  // ---- The readings of the log, by position

  // Reservation r has not been settled before position n.
  predicate Unsettled(log: seq<Entry>, r: nat, n: nat) {
    r < n <= |log| && log[r].Reserved? && forall q :: r < q < n ==> !Settles(log[q])
  }

  // A flag naming reservation r was set before position n, and since then neither cleared nor set again.
  predicate FlagStands(log: seq<Entry>, f: nat, r: nat, n: nat) {
    f < n <= |log| && log[f].Flagged? && log[f].intent == r
    && forall q :: f < q < n ==> !log[q].Flagged? && !log[q].Cleared?
  }

  lemma {:induction false} OpenIff(log: seq<Entry>, n: nat)
    requires n <= |log|
    ensures OpenOf(log[..n]).Some? <==> exists r: nat :: r < n && Unsettled(log, r, n)
  {
    if n > 0 {
      OpenIff(log, n - 1);
      assert log[..n][..n - 1] == log[..n - 1];
      if log[n - 1].Reserved? {
        assert Unsettled(log, n - 1, n);
      } else if !Settles(log[n - 1]) {
        var m := n - 1;
        if r: nat :| r < m && Unsettled(log, r, m) { assert Unsettled(log, r, n); }
        if r: nat :| r < n && Unsettled(log, r, n) { assert log[r].Reserved? && Unsettled(log, r, n - 1); }
      } else {
        forall r: nat | r < n ensures !Unsettled(log, r, n) {
          assert r < n - 1 ==> Settles(log[n - 1]);
        }
      }
    }
  }

  lemma {:induction false} FlagIff(log: seq<Entry>, n: nat, r: nat)
    requires n <= |log|
    ensures FlagOf(log[..n]) == Some(r) <==> exists f: nat :: f < n && FlagStands(log, f, r, n)
  {
    if n > 0 {
      FlagIff(log, n - 1, r);
      assert log[..n][..n - 1] == log[..n - 1];
      if log[n - 1].Flagged? && log[n - 1].intent == r {
        assert FlagStands(log, n - 1, r, n);
      } else if !log[n - 1].Flagged? && !log[n - 1].Cleared? {
        var m := n - 1;
        if f: nat :| f < m && FlagStands(log, f, r, m) { assert FlagStands(log, f, r, n); }
        if f: nat :| f < n && FlagStands(log, f, r, n) { assert log[f].Flagged? && FlagStands(log, f, r, n - 1); }
      } else {
        forall f: nat | f < n ensures !FlagStands(log, f, r, n) {
          assert f < n - 1 ==> log[n - 1].Flagged? || log[n - 1].Cleared?;
        }
      }
    }
  }

  // The flag is clear exactly when every flag set was cleared later.
  lemma {:induction false} NoFlagIff(log: seq<Entry>, n: nat)
    requires n <= |log|
    ensures FlagOf(log[..n]).None? <==> forall f: nat :: f < n && log[f].Flagged? ==> ClearedBetween(log, f, n)
  {
    if n > 0 {
      NoFlagIff(log, n - 1);
      assert log[..n][..n - 1] == log[..n - 1];
      if log[n - 1].Flagged? {
        assert !ClearedBetween(log, n - 1, n);
      } else if log[n - 1].Cleared? {
        forall f: nat | f < n && log[f].Flagged? ensures ClearedBetween(log, f, n) {
          assert log[n - 1].Cleared?;
        }
      } else {
        forall f: nat | f < n - 1 ensures ClearedBetween(log, f, n - 1) <==> ClearedBetween(log, f, n) {
          if q :| f < q < n && log[q].Cleared? { assert q < n - 1; }
          if q :| f < q < n - 1 && log[q].Cleared? { assert q < n; }
        }
      }
    }
  }

  predicate ClearedBetween(log: seq<Entry>, f: nat, n: nat)
    requires n <= |log|
  {
    exists q :: f < q < n && log[q].Cleared?
  }

  // ---- Order of disclosures and clicks

  lemma RunIsBacked(stage: Stage, fields: set<string>, values: set<string>, required: set<string>, record: Case,
                    events: seq<Event>)
    requires Settled(record)
    ensures var w := Run(Begin(stage, fields, values, required, record), events);
      Backs(w) && w.form == Form(stage, FieldDisclosureMap(fields, values), required)
  {
    BeginBacks(stage, fields, values, required, record);
    RunKeeps(Begin(stage, fields, values, required, record), events);
  }

  // The reservation behind a click: made by its own step after its admission and not released before the
  // click, or made earlier, with its flag standing when the click was admitted.
  predicate ClickReserved(log: seq<Entry>, n: nat, i: nat, a: nat, under: Option<nat>) {
    && a < n <= |log| && under.Some? && under.value < n && log[under.value].Reserved?
    && if a < under.value
       then log[under.value].step == i && forall q :: 0 <= q < n ==> log[q] != Released(i, under.value)
       else exists f: nat :: f < a && FlagStands(log, f, under.value, a)
  }

  // Every provider click, in any run of any number of steps and endings: its step was admitted before it; by
  // then the disclosures, consent and record selection its stage asks for had been returned; it acts under a
  // reservation; and the case is the pending one that was reserved exactly if no ledger call has settled it.
  lemma ClicksAreBacked(stage: Stage, fields: set<string>, values: set<string>, required: set<string>, record: Case,
                        events: seq<Event>, n: nat)
    requires Settled(record)
    requires n < |Run(Begin(stage, fields, values, required, record), events).log|
    requires Run(Begin(stage, fields, values, required, record), events).log[n].Clicked?
    ensures var log := Run(Begin(stage, fields, values, required, record), events).log;
      var e := log[n];
      && e.admitted < n && log[e.admitted].Admitted? && log[e.admitted].step == e.step
      && log[e.admitted].action == Click(e.purpose)
      && Evidence(Form(stage, FieldDisclosureMap(fields, values), required), log[..e.admitted], Click(e.purpose))
      && (NeedsIntent(stage, Click(e.purpose)) ==> ClickReserved(log, n, e.step, e.admitted, e.under))
      && (OwnPending(e.record) <==> exists r: nat :: r < n && Unsettled(log, r, n))
  {
    RunIsBacked(stage, fields, values, required, record, events);
    var w := Run(Begin(stage, fields, values, required, record), events);
    ClickIsBacked(w.form, w.log, n);
  }

  lemma ClickIsBacked(form: Form, log: seq<Entry>, n: nat)
    requires AllJustified(form, log) && n < |log| && log[n].Clicked?
    ensures var e := log[n];
      && AdmittedAt(log[..n], e.step, e.admitted, Click(e.purpose))
      && Evidence(form, log[..e.admitted], Click(e.purpose))
      && (NeedsIntent(form.stage, Click(e.purpose)) ==> ClickReserved(log, n, e.step, e.admitted, e.under))
      && (OwnPending(e.record) <==> exists r: nat :: r < n && Unsettled(log, r, n))
  {
    var e := log[n];
    assert Justified(form, log[..n], e);
    assert log[..n][..e.admitted] == log[..e.admitted];
    OpenIff(log, n);
    if NeedsIntent(form.stage, Click(e.purpose)) {
      FlagIff(log, e.admitted, e.under.value);
      assert forall q :: 0 <= q < n ==> log[q] in log[..n];
    }
  }

  // What a session sends stays within the fields it may disclose, a date of birth with an approval bound to
  // its step; and what it notes as filled, agreed or selected, it has sent.
  lemma DisclosuresStayPermitted(stage: Stage, fields: set<string>, values: set<string>, required: set<string>,
                                 record: Case, events: seq<Event>, n: nat)
    requires Settled(record)
    requires n < |Run(Begin(stage, fields, values, required, record), events).log|
    ensures var log := Run(Begin(stage, fields, values, required, record), events).log;
      var e := log[n];
      && (e.SentFields? ==> e.disclosures <= fields)
      && (e.SentFields? && "date_of_birth" in e.disclosures ==>
        e.admitted < n && log[e.admitted].Admitted? && log[e.admitted].step == e.step && log[e.admitted].approved)
      && (e.FillReturned? ==> SentBy(log[..n], e.step, e.disclosures))
      && (e.Agreed? ==> SentClick(log[..n], e.step, Agree))
      && (e.Selected? ==> SentClick(log[..n], e.step, SelectRecord))
  {
    RunIsBacked(stage, fields, values, required, record, events);
    var w := Run(Begin(stage, fields, values, required, record), events);
    assert Justified(w.form, w.log[..n], w.log[n]);
  }

  // ---- Releases

  // A reservation that is released has been clicked under exactly when the releasing step lost the receipt
  // of its own confirmed click, or another step clicked under it.
  lemma FalseReleaseIff(w: World, events: seq<Event>, n: nat)
    requires Backs(w) && n < |Run(w, events).log| && Run(w, events).log[n].Released?
    ensures var log := Run(w, events).log;
      var i, r := log[n].step, log[n].intent;
      (exists k :: 0 <= k < n && log[k].Clicked? && log[k].under == Some(r)) <==>
        LostReceipt(i) in log[..n]
        || exists k :: 0 <= k < n && log[k].Clicked? && log[k].under == Some(r) && log[k].step != i
  {
    RunKeeps(w, events);
    var log := Run(w, events).log;
    var i, r := log[n].step, log[n].intent;
    assert Justified(w.form, log[..n], log[n]);
    if LostReceipt(i) in log[..n] {
      var k :| 0 <= k < n && log[..n][k].Clicked? && log[..n][k].step == i && log[..n][k].under == Some(r);
      assert log[k].Clicked? && log[k].under == Some(r);
    }
    if k :| 0 <= k < n && log[k].Clicked? && log[k].under == Some(r) {
      assert log[..n][k] == log[k];
    }
  }

  // ---- Leaks

  // A ledger call that puts a pending case aside before its reservation is settled.
  predicate Leaks(log: seq<Entry>, q: nat) {
    q < |log| && (log[q].Queued? || log[q].BlockedBy?) && exists r: nat :: r < q && Unsettled(log, r, q)
  }

  // A leaked case is out of the operator's reach: no reconciliation accepts it.
  lemma LeakedIsUnreconcilable(c: Case)
    requires Leaked(c)
    ensures forall notStarted, days, at :: Apply(c, CaseLedger.Reconcile(notStarted, days), at).Failure?
  {
  }

  // After any run, the case holds a "pending" outcome that cannot be reconciled exactly when it was blocked or
  // queued while a reservation was still unsettled.
  lemma LeakedIff(stage: Stage, fields: set<string>, values: set<string>, required: set<string>, record: Case,
                  events: seq<Event>)
    requires Settled(record)
    ensures var w := Run(Begin(stage, fields, values, required, record), events);
      Leaked(w.record) <==> exists q: nat :: q < |w.log| && Leaks(w.log, q)
  {
    RunIsBacked(stage, fields, values, required, record, events);
    var w := Run(Begin(stage, fields, values, required, record), events);
    forall q: nat | q < |w.log| ensures Leaks(w.log, q) <==> LeakAt(w.log, q) {
      OpenIff(w.log, q);
    }
  }

  // Why: an incompatible snapshot blocked the case; or an ending queued it that had not seen a flag, because
  // every flag set before it began had been cleared (or the mark had not set any), or that had seen one but
  // whose call to record the uncertain outcome had no effect.
  lemma LeakHasCause(stage: Stage, fields: set<string>, values: set<string>, required: set<string>, record: Case,
                     events: seq<Event>, q: nat)
    requires Settled(record)
    requires q < |Run(Begin(stage, fields, values, required, record), events).log|
    requires Leaks(Run(Begin(stage, fields, values, required, record), events).log, q)
    ensures var log := Run(Begin(stage, fields, values, required, record), events).log;
      log[q].BlockedBy? || exists b: nat :: b < q && QueuedBlindly(log, b, q)
  {
    RunIsBacked(stage, fields, values, required, record, events);
    var w := Run(Begin(stage, fields, values, required, record), events);
    QueueHasCause(w.form, w.log, q);
  }

  predicate QueuedBlindly(log: seq<Entry>, b: nat, q: nat) {
    && b < q < |log| && log[q].Queued? && log[b].EndingBegan? && log[b].ender == log[q].ender
    && if log[b].saw then forall d :: 0 <= d < q ==> log[d] != DoubtedByEnd(log[q].ender)
       else forall f: nat :: f < b && log[f].Flagged? ==> ClearedBetween(log, f, b)
  }

  lemma QueueHasCause(form: Form, log: seq<Entry>, q: nat)
    requires AllJustified(form, log) && q < |log| && Leaks(log, q)
    ensures log[q].BlockedBy? || exists b: nat :: b < q && QueuedBlindly(log, b, q)
  {
    OpenIff(log, q);
    assert Justified(form, log[..q], log[q]);
    if log[q].Queued? {
      var x := log[q].ender;
      var b: nat :| b < q && log[..q][b].EndingBegan? && log[..q][b].ender == x;
      assert Justified(form, log[..b], log[b]);
      NoFlagIff(log, b);
      forall d | 0 <= d < q ensures log[d] != DoubtedByEnd(x) {
        assert log[..q][d] == log[d];
      }
      assert QueuedBlindly(log, b, q);
    }
  }
}
