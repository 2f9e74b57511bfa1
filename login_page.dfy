/** The demo login of frontend/pages/login.js: the submit handler checks
    the trimmed email and password and, when both are present, stores the
    email in local storage and returns to the home page. */
module LoginPage {
  import opened Wrappers
  import opened Strings
  import opened FormControls
  import ApplicationForm

  const EmptyMessage := "Enter email and password."
  const DoneMessage := "Logged in (demo). Now you can submit the form."
  const EmailKey := "demoUserEmail"

  /** What the handler reads and writes: local storage, the alerts in order
      and the location it moved to, if any. */
  datatype PageState = PageState(storage: map<string, string>, alerts: seq<string>, location: Option<string>)

  /** The state after the submit handler. */
  function LoginOf(s: PageState, doc: Document): PageState {
    var email := Val(doc, "email");
    var pass := Val(doc, "password");
    if email == "" || pass == "" then s.(alerts := s.alerts + [EmptyMessage])
    else s.(storage := s.storage[EmailKey := email], alerts := s.alerts + [DoneMessage], location := Some("/"))
  }

  class LoginForm {
    var storage: map<string, string>
    var alerts: seq<string>
    var location: Option<string>

    function State(): PageState
      reads this
    {
      PageState(storage, alerts, location)
    }

    constructor(storage: map<string, string>)
      ensures State() == PageState(storage, [], None)
    {
      this.storage, alerts, location := storage, [], None;
    }

    /** The `submit` listener. */
    method Submit(doc: Document)
      modifies this
      ensures State() == LoginOf(old(State()), doc)
    {
      var email := Val(doc, "email");
      var pass := Val(doc, "password");
      if email == "" || pass == "" {
        alerts := alerts + [EmptyMessage];
        return;
      }
      storage := storage[EmailKey := email];
      alerts := alerts + [DoneMessage];
      location := Some("/");
    }
  }

  /** A missing or blank email or password is refused and nothing is
      stored; otherwise the trimmed email is stored under `demoUserEmail`,
      every other key stays as it was, and the page moves to `/`. */
  lemma LoginOutcomes(s: PageState, doc: Document)
    ensures var t := LoginOf(s, doc);
      var refused := "email" !in doc || IsBlank(doc["email"].value) || "password" !in doc || IsBlank(doc["password"].value);
      && (refused ==> t.storage == s.storage && t.location == s.location && t.alerts == s.alerts + [EmptyMessage])
      && (!refused ==>
            && EmailKey in t.storage && t.storage[EmailKey] == Trim(doc["email"].value)
            && t.storage[EmailKey] != ""
            && t.storage.Keys == s.storage.Keys + {EmailKey}
            && (forall k :: k in s.storage && k != EmailKey ==> t.storage[k] == s.storage[k])
            && t.location == Some("/") && t.alerts == s.alerts + [DoneMessage])
  {
    ValCases(doc, "email");
    ValCases(doc, "password");
  }

  /** The demo login stores no token, so the application form sends the
      same headers after it as before it: without an `idToken` already
      stored, no `Authorization` header. */
  lemma LoginKeepsToken(s: PageState, doc: Document)
    ensures ApplicationForm.GetToken(LoginOf(s, doc).storage) == ApplicationForm.GetToken(s.storage)
    ensures "idToken" !in s.storage ==>
      "Authorization" !in ApplicationForm.HeadersFor(ApplicationForm.GetToken(LoginOf(s, doc).storage))
  {
    ApplicationForm.HeadersCases(ApplicationForm.GetToken(LoginOf(s, doc).storage));
  }
}
