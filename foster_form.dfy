/** The foster-interest form of frontend/pages/form.js: the payload read from
    the form, the required-field check, and what a submission does to the
    submit button, the alerts shown and the requests sent. */
module FosterForm {
  import opened Wrappers
  import opened Strings
  import opened FormControls

  const PersonalFields: seq<Field> := [
    Text("firstName", "firstName"), Text("lastName", "lastName"), Text("address", "address"),
    Text("city", "city"), Text("state", "state"), Text("zip", "zip"), Text("phone", "phone"),
    Text("email", "email")
  ]

  const FosterOptionFields: seq<Field> := [Flag("shortTerm", "opt_short"), Flag("longTerm", "opt_long")]

  const HouseholdFields: seq<Field> := [
    Text("hasYard", "hasYard"), Text("ownOrRent", "ownOrRent"), Text("householdSize", "householdSize"),
    Text("otherPets", "otherPets"), Text("landlordOk", "landlordOk"), Text("experienceLevel", "experienceLevel"),
    Text("hoursPerWeek", "hoursPerWeek"), Text("experienceNotes", "experienceNotes"),
    Text("preferredSpecies", "preferredSpecies"), Text("preferredSize", "preferredSize"),
    Text("canMedicate", "canMedicate"), Text("canTransport", "canTransport"), Text("notes", "notes")
  ]

  /** The groups of the payload, in order, with the fields of each. */
  const Groups: seq<(string, seq<Field>)> := [
    ("personal", PersonalFields), ("fosterOptions", FosterOptionFields),
    ("household", HouseholdFields), ("criteria", CriteriaFields)
  ]

  /** The `payload` object of `onSubmit`. */
  function Payload(doc: Document): Json {
    JObject(seq(|Groups|, g requires 0 <= g < |Groups| => (Groups[g].0, JObject(Members(doc, Groups[g].1)))))
  }

  /** The payload has exactly the groups `personal`, `fosterOptions`,
      `household` and `criteria`, and each field of a group holds the value
      read from its element. */
  lemma PayloadShape(doc: Document)
    ensures Keys(Payload(doc)) == ["personal", "fosterOptions", "household", "criteria"]
    ensures forall g, i :: 0 <= g < |Groups| && 0 <= i < |Groups[g].1| ==>
      At(Payload(doc), [Groups[g].0, Groups[g].1[i].key]) == Some(FieldValue(doc, Groups[g].1[i]))
  {
    forall g, i | 0 <= g < |Groups| && 0 <= i < |Groups[g].1|
      ensures At(Payload(doc), [Groups[g].0, Groups[g].1[i].key]) == Some(FieldValue(doc, Groups[g].1[i]))
    {
      GroupField(doc, g, i);
    }
  }

  lemma GroupField(doc: Document, g: nat, i: nat)
    requires g < |Groups| && i < |Groups[g].1|
    ensures At(Payload(doc), [Groups[g].0, Groups[g].1[i].key]) == Some(FieldValue(doc, Groups[g].1[i]))
  {
    var p := Payload(doc);
    GroupKeysDistinct(g);
    LookupAt(p.members, g);
    var path := [Groups[g].0, Groups[g].1[i].key];
    assert path[1..] == [Groups[g].1[i].key];
    FieldsReadFromElements(doc, Groups[g].1, []);
    assert Members(doc, Groups[g].1) + [] == Members(doc, Groups[g].1);
  }

  lemma GroupKeysDistinct(g: nat)
    requires g < |Groups|
    ensures DistinctKeys(Groups[g].1)
    ensures forall h :: 0 <= h < g ==> Groups[h].0 != Groups[g].0
  {
    if g == 2 {
      HouseholdKeysDistinct();
    }
  }

  lemma HouseholdKeysDistinct()
    ensures DistinctKeys(HouseholdFields)
  {
    forall i, j | 0 <= i < j < |HouseholdFields|
      ensures HouseholdFields[i].key != HouseholdFields[j].key
    {
      var a, b := HouseholdFields[i].key, HouseholdFields[j].key;
      assert (|a|, a[0], a[|a| - 1]) != (|b|, b[0], b[|b| - 1]);
    }
  }

  const Endpoint := "/api/foster-interest"
  const RequiredMessage := "Please fill in at least First Name, Last Name, and Email."
  const FallbackAlert := "Something went wrong. Please try again."
  const IdleText := "Submit Application"

  /** The error `onSubmit` throws for an outcome, if any: the network error,
      or for a response that is not ok `j.message || `Error ${r.status}``. */
  function Failure(outcome: Outcome): Option<string> {
    match outcome
    case NetworkError(reason) => Some(reason)
    case Answer(ok, status, body) =>
      if ok then None else Some(OrElse(body.message, "Error " + IntToString(status)))
  }

  /** What the page shows and has sent: the submit button, the alerts in
      order, the requests in order, and whether the form was replaced by the
      "Application Received!" panel. */
  datatype PageState = PageState(disabled: bool, buttonText: string, alerts: seq<string>,
                                 requests: seq<Request>, confirmed: bool)

  /** The state after `onSubmit` has run to its end with `outcome` as the
      result of the `fetch`. */
  function SubmitOf(s: PageState, doc: Document, outcome: Outcome): PageState {
    if MissingRequired(doc) then s.(alerts := s.alerts + [RequiredMessage])
    else
      var sent := s.(disabled := true, buttonText := "Submitting...",
                     requests := s.requests + [Request(Endpoint, JsonHeaders, Payload(doc))]);
      match Failure(outcome)
      case None => sent.(buttonText := "Sent!", confirmed := true)
      case Some(message) =>
        sent.(alerts := sent.alerts + [MessageOr(message, FallbackAlert)], disabled := false, buttonText := IdleText)
  }

  class FosterFormPage {
    var disabled: bool
    var buttonText: string
    var alerts: seq<string>
    var requests: seq<Request>
    var confirmed: bool

    function State(): PageState
      reads this
    {
      PageState(disabled, buttonText, alerts, requests, confirmed)
    }

    constructor()
      ensures State() == PageState(false, IdleText, [], [], false)
    {
      disabled, buttonText, alerts, requests, confirmed := false, IdleText, [], [], false;
    }

    /** `onSubmit`, with the `fetch` outcome as a parameter. */
    method OnSubmit(doc: Document, outcome: Outcome)
      modifies this
      ensures State() == SubmitOf(old(State()), doc, outcome)
    {
      var payload := Payload(doc);
      if Val(doc, "firstName") == "" || Val(doc, "lastName") == "" || Val(doc, "email") == "" {
        alerts := alerts + [RequiredMessage];
        return;
      }
      disabled := true;
      buttonText := "Submitting...";
      requests := requests + [Request(Endpoint, JsonHeaders, payload)];
      match outcome
      case NetworkError(reason) =>
        alerts := alerts + [MessageOr(reason, FallbackAlert)];
        disabled := false;
        buttonText := IdleText;
      case Answer(ok, status, body) =>
        if !ok {
          var message := if Truthy(body.message) then body.message.value else "Error " + IntToString(status);
          alerts := alerts + [MessageOr(message, FallbackAlert)];
          disabled := false;
          buttonText := IdleText;
        } else {
          buttonText := "Sent!";
          confirmed := true;
        }
    }
  }

  // ---------------------------------------------------------------------
  // Properties
  // ---------------------------------------------------------------------

  /** A submission missing a required field only alerts: nothing is sent
      and the button is untouched. Otherwise exactly one request carrying
      the payload goes to `/api/foster-interest`; a success leaves the
      button disabled and shows the confirmation, and a failure alerts a
      non-empty message (the failure's, or the fallback) and re-enables the button with its buttonText reset. */
  lemma SubmitOutcomes(s: PageState, doc: Document, outcome: Outcome)
    ensures var t := SubmitOf(s, doc, outcome);
      && (MissingRequired(doc) ==>
            t.requests == s.requests && t.disabled == s.disabled && t.buttonText == s.buttonText
            && t.confirmed == s.confirmed && t.alerts == s.alerts + [RequiredMessage])
      && (!MissingRequired(doc) ==> t.requests == s.requests + [Request(Endpoint, JsonHeaders, Payload(doc))])
      && (!MissingRequired(doc) && Failure(outcome).None? ==>
            t.disabled && t.buttonText == "Sent!" && t.confirmed && t.alerts == s.alerts)
      && (!MissingRequired(doc) && Failure(outcome).Some? ==>
            !t.disabled && t.buttonText == IdleText && t.confirmed == s.confirmed
            && |t.alerts| == |s.alerts| + 1 && t.alerts[..|s.alerts|] == s.alerts && t.alerts[|s.alerts|] != ""
            && t.alerts[|s.alerts|] == MessageOr(Failure(outcome).value, FallbackAlert))
  {
    var t := SubmitOf(s, doc, outcome);
    if !MissingRequired(doc) && Failure(outcome).Some? {
      assert t.alerts[..|s.alerts|] == s.alerts;
    }
  }

  /** Only a response with `r.ok` succeeds. A response that is not ok fails
      with its `message`, or `Error <status>` when it has none. */
  lemma FailureCases(outcome: Outcome)
    ensures Failure(outcome).None? <==> outcome.Answer? && outcome.ok
    ensures outcome.Answer? && !outcome.ok && Truthy(outcome.body.message) ==>
      Failure(outcome) == Some(outcome.body.message.value)
    ensures outcome.Answer? && !outcome.ok && !Truthy(outcome.body.message) ==>
      Failure(outcome) == Some("Error " + IntToString(outcome.status))
  {
  }

  /** After any failed submission a second one can be made: the button is
      enabled again and labelled as at the start. */
  lemma FailureRestoresButton(doc: Document, outcome: Outcome)
    requires !MissingRequired(doc) && Failure(outcome).Some?
    ensures var t := SubmitOf(PageState(false, IdleText, [], [], false), doc, outcome);
      !t.disabled && t.buttonText == IdleText && !t.confirmed && |t.requests| == 1
  {
  }
}
