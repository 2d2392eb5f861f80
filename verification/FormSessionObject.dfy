// The session object of rightout_form_session_step: the checks it is asked for and the updates made to it in
// place, each between two awaited calls, with the functions of FormSession as their specification.
module FormSessionObject {
  import opened Wrappers
  import opened CaseLedger
  import opened ProviderOutcomes
  import opened FormSession

  function Elements(s: seq<string>): set<string> { set d | d in s }

  lemma OneMoreField(form: Form, fields: seq<string>, f: string)
    ensures Disclosed(form, fields + [f])
      == Disclosed(form, fields) + if f in form.permitted then {form.permitted[f]} else {}
  {
    var more := fields + [f];
    assert forall g :: g in more <==> g in fields || g == f;
    if f in form.permitted { assert f in more && form.permitted[f] in Disclosed(form, more); }
    forall d | d in Disclosed(form, fields) ensures d in Disclosed(form, more) {
      var g :| g in fields && g in form.permitted && form.permitted[g] == d;
      assert g in more;
    }
  }

  lemma OneMoreElement(s: seq<string>, d: string)
    ensures Elements(s + [d]) == Elements(s) + {d}
  {
    assert forall x :: x in s + [d] <==> x in s || x == d;
  }

  class BrowserFormSession {
    const form: Form
    const disclosureFields: seq<string>   // what a generic submission must have filled
    var filledFields: seq<string>
    var consentAgreed: bool
    var recordSelected: bool
    var submissionIntent: Option<nat>     // submissionIntentReserved, with the reservation it stands for
    var live: bool                        // still in browserSessions

    ghost function View(): Session
      reads this
    {
      Session(Elements(filledFields), consentAgreed, recordSelected, submissionIntent, live)
    }

    constructor (stage: Stage, fields: set<string>, values: set<string>, disclosureFields: seq<string>, record: Case)
      ensures form == Begin(stage, fields, values, Elements(disclosureFields), record).form
      ensures View() == Begin(stage, fields, values, Elements(disclosureFields), record).session
      ensures this.disclosureFields == disclosureFields
    {
      form := Form(stage, FieldDisclosureMap(fields, values), Elements(disclosureFields));
      this.disclosureFields := disclosureFields;
      filledFields, consentAgreed, recordSelected, submissionIntent, live := [], false, false, None, true;
    }

    // None of the fields is missing from filledFields.
    method AllFilled(fields: seq<string>) returns (ok: bool)
      ensures ok <==> Elements(fields) <= View().filled
    {
      ok := true;
      for i := 0 to |fields|
        invariant ok <==> forall k :: 0 <= k < i ==> fields[k] in filledFields
      {
        if fields[i] !in filledFields {
          ok := false;
        }
      }
      if !ok {
        var k :| 0 <= k < |fields| && fields[k] !in filledFields;
        assert fields[k] in Elements(fields);
      }
    }

    // false is one of the thrown codes, in the order of the tool body.
    method Check(a: Action, approved: bool) returns (ok: bool)
      requires form.required == Elements(disclosureFields)
      ensures ok == PassesChecks(form, View(), a, approved)
    {
      match a
      case FillChallenge =>
        return form.stage == Generic;
      case Fill(fields) =>
        return "date_of_birth" !in Disclosed(form, fields) || approved;
      case Click(p) =>
        if !PurposeAllowed(form.stage, p) {
          return false;
        }
        if InitialVerification(form.stage, a) && !consentAgreed {
          return false;
        }
        if form.stage == EmailEntry || FinalSubmit(form.stage, a) {
          var filled := AllFilled(if form.stage == EmailEntry then ["contact_email"] else disclosureFields);
          assert form.stage == EmailEntry ==> Elements(["contact_email"]) == {"contact_email"};
          if !filled {
            return false;
          }
        }
        if form.stage == Guided && p != SelectRecord {
          var filled := AllFilled(["full_name", "date_of_birth"]);
          assert Elements(["full_name", "date_of_birth"]) == {"full_name", "date_of_birth"};
          if !filled {
            return false;
          }
        }
        return !FinalSuppression(form.stage, a) || recordSelected;
      case _ =>
        return false;
    }

    // The updates after a driver action has returned a fitting snapshot.
    method NoteReturned(a: Action, checked: bool)
      modifies this`filledFields, this`consentAgreed, this`recordSelected
      ensures View() == NotedSession(form, old(View()), a, checked)
    {
      if a.Fill? {
        ghost var before := Elements(filledFields);
        for i := 0 to |a.fields|
          invariant Elements(filledFields) == before + Disclosed(form, a.fields[..i])
          invariant consentAgreed == old(consentAgreed) && recordSelected == old(recordSelected)
        {
          assert a.fields[..i + 1] == a.fields[..i] + [a.fields[i]];
          OneMoreField(form, a.fields[..i], a.fields[i]);
          if a.fields[i] in form.permitted {
            OneMoreElement(filledFields, form.permitted[a.fields[i]]);
            filledFields := filledFields + [form.permitted[a.fields[i]]];
          }
        }
        assert a.fields[..|a.fields|] == a.fields;
      } else if Selecting(form.stage, a) {
        recordSelected := true;
      } else if Agreeing(form.stage, a) && checked {
        consentAgreed := true;
      }
    }
  }
}
