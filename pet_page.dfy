/** The pet detail page of frontend/pages/pet.js: the reasons and warnings
    lists filled by `setList`, the text shown for a pet's fields, how
    `loadPet` and `loadMatch` turn a reply into a pet, a match or an error,
    and what `init` fetches and shows. */
module PetPage {
  import opened Wrappers
  import opened Strings
  import opened FormControls

  /** The placeholder shown for an empty list or a missing field. */
  const Dash := "\U{2014}"

  // ---------------------------------------------------------------------
  // setList
  // ---------------------------------------------------------------------

  /** The items `setList` leaves in the list for `arr` (`None` is a `null`
      or missing array). */
  function Listed(arr: Option<seq<string>>): seq<string> {
    var xs := arr.GetOr([]);
    if xs == [] then [Dash] else xs
  }

  /** A `<ul>` of text items. */
  class ItemList {
    var items: seq<string>

    constructor()
      ensures items == []
    {
      items := [];
    }

    /** `setList(id, arr)`: clears the list, appends every item in order,
        and appends the placeholder when there was none. */
    method SetList(arr: Option<seq<string>>)
      modifies this
      ensures items == Listed(arr)
    {
      items := [];
      var xs := if arr.Some? then arr.value else [];
      for i := 0 to |xs|
        invariant items == xs[..i]
      {
        items := items + [xs[i]];
      }
      if |xs| == 0 {
        items := items + [Dash];
      }
    }
  }

  /** The list is never empty; it holds exactly the items of a non-empty
      array, in order, and exactly one placeholder for an empty or missing
      one, whatever it held before. */
  lemma ListedCases(arr: Option<seq<string>>)
    ensures |Listed(arr)| >= 1
    ensures arr.Some? && arr.value != [] ==> Listed(arr) == arr.value
    ensures (arr.None? || arr.value == []) <==> Listed(arr) == [Dash] && (arr.None? || Dash !in arr.value)
  {
  }

  // ---------------------------------------------------------------------
  // Display fallbacks
  // ---------------------------------------------------------------------

  /** The pet fields `init` reads; `medicalNeeds` is the truthiness of the field. */
  datatype PetRecord = PetRecord(name: Option<string>, species: Option<string>, breed: Option<string>,
                                 size: Option<string>, ageMonths: Option<int>, status: Option<string>,
                                 energy: Option<int>, medicalNeeds: bool, coverImageUrl: Option<string>)

  /** The texts `init` writes; `image` is the new `src`, `None` when the
      default image is kept. */
  datatype Details = Details(name: string, meta: string, status: string, energy: string,
                             medical: string, image: Option<string>)

  function Shown(p: PetRecord): Details {
    Details(
      OrElse(p.name, "Unnamed"),
      OrElse(p.species, "") + " \U{2022} " + OrElse(p.breed, "") + " \U{2022} " + OrElse(p.size, "")
        + " \U{2022} " + (if p.ageMonths.Some? then IntToString(p.ageMonths.value) else "") + "mo",
      OrElse(p.status, Dash),
      if p.energy.Some? then IntToString(p.energy.value) + "/5" else Dash,
      if p.medicalNeeds then "yes" else "no",
      if Truthy(p.coverImageUrl) then p.coverImageUrl else None)
  }

  /** Energy reads `N/5` for any present level, 0 included, and the
      placeholder only when the field is missing; the name falls back to
      `Unnamed` and the status to the placeholder; medical needs read
      `yes` or `no`; the image changes only for a non-empty URL. */
  lemma ShownFallbacks(p: PetRecord)
    ensures var d := Shown(p);
      && (d.energy == Dash <==> p.energy.None?)
      && (p.energy.Some? ==> d.energy == IntToString(p.energy.value) + "/5")
      && (d.name == "Unnamed" <==> !Truthy(p.name) || p.name.value == "Unnamed")
      && (Truthy(p.name) ==> d.name == p.name.value)
      && (d.status == Dash <==> !Truthy(p.status) || p.status.value == Dash)
      && (d.medical == "yes" <==> p.medicalNeeds) && (d.medical == "no" <==> !p.medicalNeeds)
      && (d.image.Some? <==> Truthy(p.coverImageUrl))
      && (d.image.Some? ==> d.image.value == p.coverImageUrl.value)
  {
    if p.energy.Some? {
      var e := IntToString(p.energy.value) + "/5";
      assert e[|e| - 1] == '5';
    }
  }

  // ---------------------------------------------------------------------
  // loadPet, loadMatch and init
  // ---------------------------------------------------------------------

  /** The reply of `/api/pets/<id>`; `ok` is the truthiness of `j.ok`. */
  datatype PetReply = PetReply(ok: bool, error: Option<string>, pet: PetRecord)

  /** The reply of `/api/pets/<id>/match`. */
  datatype MatchReply = MatchReply(ok: bool, error: Option<string>, score: int,
                                   reasons: Option<seq<string>>, warnings: Option<seq<string>>)

  /** What `fetchJson` settles to: a rejection of `fetch` or `r.json()`
      with its message, or the parsed reply. */
  datatype Fetched<T> = Rejected(message: string) | Replied(reply: T)

  /** `loadPet`: the pet, or the message of the error it throws. */
  function LoadPet(f: Fetched<PetReply>): Result<PetRecord, string> {
    match f
    case Rejected(message) => Err(message)
    case Replied(j) => if !j.ok then Err(OrElse(j.error, "Failed to load pet")) else Ok(j.pet)
  }

  /** `loadMatch`: the whole reply, or the message of the error it throws. */
  function LoadMatch(f: Fetched<MatchReply>): Result<MatchReply, string> {
    match f
    case Rejected(message) => Err(message)
    case Replied(j) => if !j.ok then Err(OrElse(j.error, "Failed to load match")) else Ok(j)
  }

  /** A reply loads exactly when its `ok` holds; otherwise the error is its
      `error`, or the fixed fallback, and so never empty. */
  lemma LoadCases(pet: Fetched<PetReply>, m: Fetched<MatchReply>)
    ensures LoadPet(pet).Ok? <==> pet.Replied? && pet.reply.ok
    ensures LoadPet(pet).Ok? ==> LoadPet(pet).value == pet.reply.pet
    ensures pet.Replied? && !pet.reply.ok ==>
      LoadPet(pet) == Err(if Truthy(pet.reply.error) then pet.reply.error.value else "Failed to load pet")
    ensures LoadMatch(m).Ok? <==> m.Replied? && m.reply.ok
    ensures LoadMatch(m).Ok? ==> LoadMatch(m).value == m.reply
    ensures m.Replied? && !m.reply.ok ==>
      LoadMatch(m) == Err(if Truthy(m.reply.error) then m.reply.error.value else "Failed to load match")
    ensures pet.Replied? && LoadPet(pet).Err? ==> LoadPet(pet).error != ""
    ensures m.Replied? && LoadMatch(m).Err? ==> LoadMatch(m).error != ""
  {
  }

  const MissingPetMessage := "Missing petId. Example: /pet.html?petId=..."

  /** What the page shows after `init` settled: the URLs fetched in order,
      the error box (`None` while hidden), the pet's texts, the score and
      the two lists (`None` while not filled). */
  datatype PageView = PageView(fetched: seq<string>, error: Option<string>, details: Option<Details>,
                               score: Option<string>, reasons: Option<seq<string>>, warnings: Option<seq<string>>)

  /** `init` and its `catch`: `petId` is the query parameter, `query` the
      encoded match parameters, `pet` and `m` what the two fetches settle
      to. `String(e)` of an error without a message is `Error`. */
  function InitOf(petId: Option<string>, query: string, pet: Fetched<PetReply>, m: Fetched<MatchReply>): PageView {
    if !Truthy(petId) then PageView([], Some(MissingPetMessage), None, None, None, None)
    else
      var petUrl := "/api/pets/" + petId.value;
      match LoadPet(pet)
      case Err(e) => PageView([petUrl], Some(MessageOr(e, "Error")), None, None, None, None)
      case Ok(p) =>
        var matchUrl := petUrl + "/match?" + query;
        match LoadMatch(m)
        case Err(e) => PageView([petUrl, matchUrl], Some(MessageOr(e, "Error")), Some(Shown(p)), None, None, None)
        case Ok(j) =>
          PageView([petUrl, matchUrl], None, Some(Shown(p)), Some(IntToString(j.score) + "%"),
                   Some(Listed(j.reasons)), Some(Listed(j.warnings)))
  }

  /** Without a `petId` nothing is fetched and the error names the missing
      parameter. Otherwise the pet is fetched first and the match only
      after the pet loaded; the error box stays hidden exactly when both
      loaded, and then the score and both lists are filled. A failed pet
      load shows its error and no pet; a failed match load keeps the pet. */
  lemma InitOutcomes(petId: Option<string>, query: string, pet: Fetched<PetReply>, m: Fetched<MatchReply>)
    ensures var v := InitOf(petId, query, pet, m);
      && (!Truthy(petId) ==> v.fetched == [] && v.error == Some(MissingPetMessage) && v.details.None?)
      && (Truthy(petId) ==> 1 <= |v.fetched| <= 2 && v.fetched[0] == "/api/pets/" + petId.value)
      && (Truthy(petId) && LoadPet(pet).Err? ==>
            |v.fetched| == 1 && v.details.None? && v.error == Some(MessageOr(LoadPet(pet).error, "Error")))
      && (Truthy(petId) && LoadPet(pet).Ok? ==>
            |v.fetched| == 2 && v.fetched[1] == "/api/pets/" + petId.value + "/match?" + query
            && v.details == Some(Shown(LoadPet(pet).value)))
      && (v.error.None? <==> Truthy(petId) && LoadPet(pet).Ok? && LoadMatch(m).Ok?)
      && (v.error.Some? ==> v.error.value != "" && v.score.None? && v.reasons.None? && v.warnings.None?)
      && (v.error.None? ==>
            && v.score == Some(IntToString(LoadMatch(m).value.score) + "%")
            && v.reasons == Some(Listed(LoadMatch(m).value.reasons))
            && v.warnings == Some(Listed(LoadMatch(m).value.warnings)))
  {
  }
}
