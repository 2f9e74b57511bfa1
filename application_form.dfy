/** The adoption application form of frontend/form.js: the token and the
    headers of `submitApplication`, its success rule, the step payload, and
    what `onSubmit` does to the button, the alerts, the requests and the
    page location. */
module ApplicationForm {
  import opened Wrappers
  import opened Strings
  import opened FormControls

  // ---------------------------------------------------------------------
  // submitApplication
  // ---------------------------------------------------------------------

  /** `getToken()`: the stored `idToken`, or `""`. */
  function GetToken(storage: map<string, string>): string {
    if "idToken" in storage then storage["idToken"] else ""
  }

  /** The `headers` object of `submitApplication`: JSON, plus a bearer
      token when one is stored. */
  function HeadersFor(token: string): map<string, string> {
    var headers := JsonHeaders;
    if token != "" then headers["Authorization" := "Bearer " + token] else headers
  }

  /** The header is added exactly when the token is not empty, and then as
      `Bearer <token>`; the content type is always JSON and nothing else is
      sent. */
  lemma HeadersCases(token: string)
    ensures var h := HeadersFor(token);
      && ("Authorization" in h <==> token != "")
      && ("Authorization" in h ==> h["Authorization"] == "Bearer " + token)
      && "Content-Type" in h && h["Content-Type"] == "application/json"
      && h.Keys == (if token != "" then {"Content-Type", "Authorization"} else {"Content-Type"})
  {
  }

  /** Where an application for `petId` is posted. */
  function ApplyUrl(petId: string): string {
    "/api/pets/" + petId + "/apply"
  }

  /** What the promise of `submitApplication` settles to: the reply, or the
      message of the error it throws. */
  function SubmitResult(outcome: Outcome): Result<Body, string> {
    match outcome
    case NetworkError(reason) => Err(reason)
    case Answer(ok, status, body) =>
      if !ok || !body.ok then Err(OrElse(body.error, "Submit failed (" + IntToString(status) + ")"))
      else Ok(body)
  }

  /** Success needs both `r.ok` and `j.ok`; any other response fails with
      `j.error`, or `Submit failed (<status>)` when it has none. */
  lemma SubmitResultCases(outcome: Outcome)
    ensures SubmitResult(outcome).Ok? <==> outcome.Answer? && outcome.ok && outcome.body.ok
    ensures SubmitResult(outcome).Ok? ==> SubmitResult(outcome).value == outcome.body
    ensures outcome.Answer? && !(outcome.ok && outcome.body.ok) ==>
      SubmitResult(outcome) == Err(if Truthy(outcome.body.error) then outcome.body.error.value
                                   else "Submit failed (" + IntToString(outcome.status) + ")")
  {
  }

  /** A reply that is not JSON never counts as a success, even with `r.ok`. */
  lemma EmptyBodyFails(status: int)
    ensures SubmitResult(Answer(true, status, EmptyBody)) == Err("Submit failed (" + IntToString(status) + ")")
  {
  }

  // ---------------------------------------------------------------------
  // The payload
  // ---------------------------------------------------------------------

  const Step1Fields: seq<Field> := [
    Text("firstName", "firstName"), Text("lastName", "lastName"), Text("address", "address"),
    Text("city", "city"), Text("state", "state"), Text("zip", "zip"), Text("phone", "phone"),
    Text("email", "email")
  ]

  const Step2Fields: seq<Field> := [
    Text("hasYard", "hasYard"), Text("ownOrRent", "ownOrRent"), Text("householdSize", "householdSize"),
    Text("otherPets", "otherPets"), Text("landlordOk", "landlordOk")
  ]

  const Step3Fields: seq<Field> := [
    Text("experienceLevel", "experienceLevel"), Text("hoursPerWeek", "hoursPerWeek"),
    Text("experienceNotes", "experienceNotes")
  ]

  const Step4Fields: seq<Field> := [
    Text("preferredSpecies", "preferredSpecies"), Text("preferredSize", "preferredSize"),
    Text("canMedicate", "canMedicate"), Text("canTransport", "canTransport"), Text("notes", "notes")
  ]

  /** The `payload` object of `onSubmit`: four steps, the last of which ends
      with the `criteria` object. */
  function Payload(doc: Document): Json {
    JObject([
      ("step1", JObject(Members(doc, Step1Fields))),
      ("step2", JObject(Members(doc, Step2Fields))),
      ("step3", JObject(Members(doc, Step3Fields))),
      ("step4", JObject(Members(doc, Step4Fields) + [("criteria", JObject(Members(doc, CriteriaFields)))]))
    ])
  }

  /** The payload holds `step1` to `step4` in order; `step4` holds its five
      fields and then `criteria`; every field holds the value read from its
      element, the criteria one level further down. */
  lemma PayloadShape(doc: Document)
    ensures Keys(Payload(doc)) == ["step1", "step2", "step3", "step4"]
    ensures At(Payload(doc), ["step4"]).Some?
    ensures Keys(At(Payload(doc), ["step4"]).value)
      == ["preferredSpecies", "preferredSize", "canMedicate", "canTransport", "notes", "criteria"]
    ensures forall i :: 0 <= i < |Step1Fields| ==> At(Payload(doc), ["step1", Step1Fields[i].key]) == Some(FieldValue(doc, Step1Fields[i]))
    ensures forall i :: 0 <= i < |Step2Fields| ==> At(Payload(doc), ["step2", Step2Fields[i].key]) == Some(FieldValue(doc, Step2Fields[i]))
    ensures forall i :: 0 <= i < |Step3Fields| ==> At(Payload(doc), ["step3", Step3Fields[i].key]) == Some(FieldValue(doc, Step3Fields[i]))
    ensures forall i :: 0 <= i < |Step4Fields| ==> At(Payload(doc), ["step4", Step4Fields[i].key]) == Some(FieldValue(doc, Step4Fields[i]))
    ensures forall i :: 0 <= i < |CriteriaFields| ==>
      At(Payload(doc), ["step4", "criteria", CriteriaFields[i].key]) == Some(FieldValue(doc, CriteriaFields[i]))
  {
    FieldKeysDistinct();
    var p := Payload(doc);
    assert Members(doc, Step1Fields) + [] == Members(doc, Step1Fields);
    StepField(doc, "step1", 0, Step1Fields, []);
    assert Members(doc, Step2Fields) + [] == Members(doc, Step2Fields);
    StepField(doc, "step2", 1, Step2Fields, []);
    assert Members(doc, Step3Fields) + [] == Members(doc, Step3Fields);
    StepField(doc, "step3", 2, Step3Fields, []);
    StepField(doc, "step4", 3, Step4Fields, [("criteria", JObject(Members(doc, CriteriaFields)))]);
    LookupAt(p.members, 3);
    CriteriaField(doc);
  }

  lemma FieldKeysDistinct()
    ensures DistinctKeys(Step1Fields) && DistinctKeys(Step2Fields) && DistinctKeys(Step3Fields)
    ensures DistinctKeys(Step4Fields) && DistinctKeys(CriteriaFields)
    ensures forall i :: 0 <= i < |Step4Fields| ==> Step4Fields[i].key != "criteria"
  {
  }

  /** The criteria sit under `step4.criteria`. */
  lemma CriteriaField(doc: Document)
    ensures forall i :: 0 <= i < |CriteriaFields| ==>
      At(Payload(doc), ["step4", "criteria", CriteriaFields[i].key]) == Some(FieldValue(doc, CriteriaFields[i]))
  {
    FieldKeysDistinct();
    var p := Payload(doc);
    LookupAt(p.members, 3);
    var step4 := p.members[3].1;
    LookupAt(step4.members, 5);
    FieldsReadFromElements(doc, CriteriaFields, []);
    assert Members(doc, CriteriaFields) + [] == Members(doc, CriteriaFields);
    forall i | 0 <= i < |CriteriaFields|
      ensures At(p, ["step4", "criteria", CriteriaFields[i].key]) == Some(FieldValue(doc, CriteriaFields[i]))
    {
      var path := ["step4", "criteria", CriteriaFields[i].key];
      assert path[1..] == ["criteria", CriteriaFields[i].key];
      assert path[1..][1..] == [CriteriaFields[i].key];
    }
  }

  /** The fields of the step at index `g` of the payload. */
  lemma StepField(doc: Document, step: string, g: nat, fields: seq<Field>, more: seq<(string, Json)>)
    requires g < 4 && Payload(doc).members[g] == (step, JObject(Members(doc, fields) + more))
    requires forall h :: 0 <= h < g ==> Payload(doc).members[h].0 != step
    requires DistinctKeys(fields)
    ensures forall i :: 0 <= i < |fields| ==> At(Payload(doc), [step, fields[i].key]) == Some(FieldValue(doc, fields[i]))
  {
    var p := Payload(doc);
    LookupAt(p.members, g);
    FieldsReadFromElements(doc, fields, more);
    forall i | 0 <= i < |fields|
      ensures At(p, [step, fields[i].key]) == Some(FieldValue(doc, fields[i]))
    {
      assert [step, fields[i].key][1..] == [fields[i].key];
    }
  }

  // ---------------------------------------------------------------------
  // onSubmit
  // ---------------------------------------------------------------------

  const MissingPetMessage := "Missing petId in URL. Open this page via a pet card."
  const RequiredMessage := "Please fill at least First Name, Last Name, Email."
  const IdleText := "Submit"

  /** The confirmation alert; an `appId` the reply lacks prints as `undefined`. */
  function Submitted(reply: Body): string {
    "Submitted \U{2705}\nApplication ID: " + reply.appId.GetOr("undefined")
  }

  /** What the page shows and has done: the submit button, the alerts in
      order, the requests in order, and the location it moved to, if any. */
  datatype PageState = PageState(disabled: bool, buttonText: string, alerts: seq<string>,
                                 requests: seq<Request>, location: Option<string>)

  /** The state after `onSubmit` has run to its end: `petId` is the query
      parameter, `storage` the local storage and `outcome` the `fetch`
      result. `String(err)` of an error without a message is `Error`. */
  function SubmitOf(s: PageState, doc: Document, petId: Option<string>, storage: map<string, string>,
                    outcome: Outcome): PageState {
    if !Truthy(petId) then s.(alerts := s.alerts + [MissingPetMessage])
    else if MissingRequired(doc) then s.(alerts := s.alerts + [RequiredMessage])
    else
      var request := Request(ApplyUrl(petId.value), HeadersFor(GetToken(storage)), Payload(doc));
      var sent := s.(requests := s.requests + [request]);
      var settled := match SubmitResult(outcome)
        case Ok(reply) => sent.(alerts := sent.alerts + [Submitted(reply)], location := Some("/"))
        case Err(message) => sent.(alerts := sent.alerts + [MessageOr(message, "Error")]);
      settled.(disabled := false, buttonText := IdleText)
  }

  class ApplicationFormPage {
    var disabled: bool
    var buttonText: string
    var alerts: seq<string>
    var requests: seq<Request>
    var location: Option<string>

    function State(): PageState
      reads this
    {
      PageState(disabled, buttonText, alerts, requests, location)
    }

    constructor()
      ensures State() == PageState(false, IdleText, [], [], None)
    {
      disabled, buttonText, alerts, requests, location := false, IdleText, [], [], None;
    }

    /** `submitApplication`: sends the request, with the headers built step
        by step, and settles. */
    method SubmitApplication(petId: string, payload: Json, storage: map<string, string>, outcome: Outcome)
      returns (result: Result<Body, string>)
      modifies this
      ensures requests == old(requests) + [Request(ApplyUrl(petId), HeadersFor(GetToken(storage)), payload)]
      ensures result == SubmitResult(outcome)
      ensures disabled == old(disabled) && buttonText == old(buttonText)
      ensures alerts == old(alerts) && location == old(location)
    {
      var headers := map["Content-Type" := "application/json"];
      var t := GetToken(storage);
      if t != "" {
        headers := headers["Authorization" := "Bearer " + t];
      }
      requests := requests + [Request(ApplyUrl(petId), headers, payload)];
      match outcome
      case NetworkError(reason) =>
        result := Err(reason);
      case Answer(ok, status, body) =>
        if !ok || !body.ok {
          var message := if Truthy(body.error) then body.error.value
                         else "Submit failed (" + IntToString(status) + ")";
          result := Err(message);
        } else {
          result := Ok(body);
        }
    }

    /** `onSubmit`, with the query parameter, the local storage and the
        `fetch` outcome as parameters. */
    method OnSubmit(doc: Document, petId: Option<string>, storage: map<string, string>, outcome: Outcome)
      modifies this
      ensures State() == SubmitOf(old(State()), doc, petId, storage, outcome)
    {
      if !Truthy(petId) {
        alerts := alerts + [MissingPetMessage];
        return;
      }
      var payload := Payload(doc);
      if MissingRequired(doc) {
        alerts := alerts + [RequiredMessage];
        return;
      }
      disabled := true;
      buttonText := "Submitting...";
      var result := SubmitApplication(petId.value, payload, storage, outcome);
      match result {
        case Ok(reply) =>
          alerts := alerts + [Submitted(reply)];
          location := Some("/");
        case Err(message) =>
          alerts := alerts + [MessageOr(message, "Error")];
      }
      // finally
      disabled := false;
      buttonText := IdleText;
    }
  }

  // ---------------------------------------------------------------------
  // Properties
  // ---------------------------------------------------------------------

  /** Without a `petId`, or with an empty required field, `onSubmit` only
      alerts: no request, no navigation, the button untouched. Otherwise it
      sends exactly one request, to the pet's `apply` URL with the payload,
      and on either outcome leaves the button enabled and labelled `Submit`;
      only a success moves to `/`. The alert is the confirmation with the
      application id on success, and the error message or `Error` otherwise. */
  lemma SubmitOutcomes(s: PageState, doc: Document, petId: Option<string>, storage: map<string, string>,
                       outcome: Outcome)
    ensures var t := SubmitOf(s, doc, petId, storage, outcome);
      && (!Truthy(petId) ==> t == s.(alerts := s.alerts + [MissingPetMessage]))
      && (Truthy(petId) && MissingRequired(doc) ==> t == s.(alerts := s.alerts + [RequiredMessage]))
      && (Truthy(petId) && !MissingRequired(doc) ==>
            && t.requests == s.requests + [Request(ApplyUrl(petId.value), HeadersFor(GetToken(storage)), Payload(doc))]
            && !t.disabled && t.buttonText == IdleText
            && |t.alerts| == |s.alerts| + 1 && t.alerts[..|s.alerts|] == s.alerts && t.alerts[|s.alerts|] != ""
            && (SubmitResult(outcome).Ok? ==>
                  t.location == Some("/") && t.alerts[|s.alerts|] == Submitted(SubmitResult(outcome).value))
            && (SubmitResult(outcome).Err? ==>
                  t.location == s.location && t.alerts[|s.alerts|] == MessageOr(SubmitResult(outcome).error, "Error")))
  {
    var t := SubmitOf(s, doc, petId, storage, outcome);
    if Truthy(petId) && !MissingRequired(doc) {
      assert t.alerts[..|s.alerts|] == s.alerts;
    }
  }
}
