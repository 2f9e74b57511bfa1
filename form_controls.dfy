/** What the standalone pages (the scripts of frontend/pages and frontend/form.js) share:
    reading form elements with `val` and `checked`, the JSON payloads they
    post, and what a `fetch` gives back. */
module FormControls {
  import opened Wrappers
  import opened Strings

  // ---------------------------------------------------------------------
  // Form elements
  // ---------------------------------------------------------------------

  /** A form element: its `value` and, for a checkbox, `checked`. */
  datatype Control = Control(value: string, checked: bool)

  /** The elements of a page by id; an id outside the map has no element
      (`getElementById` gives `null`). */
  type Document = map<string, Control>

  /** `val(id)`: the element's trimmed value, `""` without the element. */
  function Val(doc: Document, id: string): string {
    if id in doc then Trim(doc[id].value) else ""
  }

  /** `checked(id)`: `false` without the element. */
  predicate Checked(doc: Document, id: string) {
    id in doc && doc[id].checked
  }

  /** `val` is empty exactly when the element is missing or holds only
      whitespace; otherwise it is the piece of the value between the leading
      and the trailing whitespace, so trimming it again changes nothing.
      `checked` is false for a missing element. */
  lemma ValCases(doc: Document, id: string)
    ensures Val(doc, id) == "" <==> id !in doc || IsBlank(doc[id].value)
    ensures Trim(Val(doc, id)) == Val(doc, id)
    ensures id in doc ==> var v := Val(doc, id); var k := TrimStart(doc[id].value, IsJsSpace);
      && k + |v| <= |doc[id].value| && v == doc[id].value[k..k + |v|]
      && IsBlank(doc[id].value[..k])
      && (v == [] || (!IsJsSpace(v[0]) && !IsJsSpace(v[|v| - 1])))
    ensures id !in doc ==> !Checked(doc, id)
  {
    if id in doc {
      TrimBlank(doc[id].value);
      TrimByIdempotent(doc[id].value, IsJsSpace);
      TrimBySpec(doc[id].value, IsJsSpace);
    } else {
      TrimBlank("");
    }
  }

  // ---------------------------------------------------------------------
  // JSON payloads
  // ---------------------------------------------------------------------

  /** The JSON values the pages send: strings, booleans and objects whose
      members keep their declaration order. */
  datatype Json = JString(str: string) | JBool(flag: bool) | JObject(members: seq<(string, Json)>)

  /** The keys of an object, in order. */
  function Keys(j: Json): (r: seq<string>)
    ensures j.JObject? ==> |r| == |j.members| && forall i :: 0 <= i < |r| ==> r[i] == j.members[i].0
    ensures !j.JObject? ==> r == []
  {
    if j.JObject? then seq(|j.members|, i requires 0 <= i < |j.members| => j.members[i].0) else []
  }

  /** The value of the first member with key `key`. */
  function Lookup(members: seq<(string, Json)>, key: string): (r: Option<Json>)
    ensures r.None? <==> forall i :: 0 <= i < |members| ==> members[i].0 != key
  {
    if members == [] then None
    else if members[0].0 == key then Some(members[0].1)
    else Lookup(members[1..], key)
  }

  /** `j.a.b...`: the value at a path of keys. */
  function At(j: Json, path: seq<string>): Option<Json>
    decreases |path|
  {
    if path == [] then Some(j)
    else if !j.JObject? then None
    else match Lookup(j.members, path[0])
      case None => None
      case Some(c) => At(c, path[1..])
  }

  /** A member found at index `i`, with no earlier member of that key, is the
      one `Lookup` returns. */
  lemma {:induction false} LookupAt(members: seq<(string, Json)>, i: nat)
    requires i < |members|
    requires forall j :: 0 <= j < i ==> members[j].0 != members[i].0
    ensures Lookup(members, members[i].0) == Some(members[i].1)
  {
    if i > 0 {
      LookupAt(members[1..], i - 1);
    }
  }

  /** A payload field: its key and the id of the element it reads, with
      `val` for text and `checked` for a flag. */
  datatype Field = Text(key: string, id: string) | Flag(key: string, id: string)

  function FieldValue(doc: Document, f: Field): Json {
    match f
    case Text(_, id) => JString(Val(doc, id))
    case Flag(_, id) => JBool(Checked(doc, id))
  }

  /** The members of an object literal whose fields are read from elements. */
  function Members(doc: Document, fields: seq<Field>): (r: seq<(string, Json)>)
    ensures |r| == |fields|
  {
    seq(|fields|, i requires 0 <= i < |fields| => (fields[i].key, FieldValue(doc, fields[i])))
  }

  predicate DistinctKeys(fields: seq<Field>) {
    forall i, j :: 0 <= i < j < |fields| ==> fields[i].key != fields[j].key
  }

  /** In an object whose first members are read from `fields`, each field's
      key holds that field's value: the trimmed text of its element, or
      whether the element is checked. */
  lemma FieldsReadFromElements(doc: Document, fields: seq<Field>, more: seq<(string, Json)>)
    requires DistinctKeys(fields)
    ensures forall i :: 0 <= i < |fields| ==>
      At(JObject(Members(doc, fields) + more), [fields[i].key]) == Some(FieldValue(doc, fields[i]))
    ensures Keys(JObject(Members(doc, fields) + more))[..|fields|] == seq(|fields|, i requires 0 <= i < |fields| => fields[i].key)
  {
    var ms := Members(doc, fields) + more;
    forall i | 0 <= i < |fields|
      ensures At(JObject(ms), [fields[i].key]) == Some(FieldValue(doc, fields[i]))
    {
      assert ms[i] == (fields[i].key, FieldValue(doc, fields[i]));
      LookupAt(ms, i);
      assert [fields[i].key][1..] == [];
    }
  }

  /** The `criteria` block both application forms send. */
  const CriteriaFields: seq<Field> := [
    Flag("age18", "crit_age18"),
    Flag("countyResident", "crit_county"),
    Flag("canTransportClinic", "crit_transport"),
    Flag("canSeparate", "crit_separate"),
    Text("signature", "signature")
  ]

  /** `!firstName || !lastName || !email` on the trimmed values. */
  predicate MissingRequired(doc: Document) {
    Val(doc, "firstName") == "" || Val(doc, "lastName") == "" || Val(doc, "email") == ""
  }

  /** A submission is refused exactly when one of the three elements is
      missing or blank. */
  lemma MissingRequiredCases(doc: Document)
    ensures MissingRequired(doc) <==>
      || "firstName" !in doc || IsBlank(doc["firstName"].value)
      || "lastName" !in doc || IsBlank(doc["lastName"].value)
      || "email" !in doc || IsBlank(doc["email"].value)
  {
    ValCases(doc, "firstName");
    ValCases(doc, "lastName");
    ValCases(doc, "email");
  }

  // ---------------------------------------------------------------------
  // Requests and replies
  // ---------------------------------------------------------------------

  /** A `POST` the page sends: URL, headers and the JSON body. */
  datatype Request = Request(url: string, headers: map<string, string>, body: Json)

  const JsonHeaders: map<string, string> := map["Content-Type" := "application/json"]

  /** The fields of a JSON reply the pages read; `ok` is the truthiness of
      `j.ok`. A reply that is not JSON reads as `{}` (`r.json().catch(() =>
      ({}))`), which is `EmptyBody`. */
  datatype Body = Body(ok: bool, error: Option<string>, message: Option<string>, appId: Option<string>)

  const EmptyBody := Body(false, None, None, None)

  /** What `fetch` gives: a rejection with its error message, or a response
      with `r.ok`, `r.status` and its body. */
  datatype Outcome = NetworkError(reason: string) | Answer(ok: bool, status: int, body: Body)

  /** `err.message || fallback`: the text an alert or error box shows. */
  function MessageOr(message: string, fallback: string): (r: string)
    requires fallback != ""
    ensures r != ""
    ensures message != "" ==> r == message
    ensures message == "" ==> r == fallback
  {
    if message != "" then message else fallback
  }
}
