/** The home page of frontend/pages/main.js: the gender label and the
    urgency line of a pet card, the card's fallbacks, and the hint under the
    two card lists. */
module PetListPage {
  import opened Wrappers
  import opened Strings

  /** The fields of a pet the cards read; `whyUrgent` is `None` when the
      field is not an array. */
  datatype PetSummary = PetSummary(id: string, name: Option<string>, breed: Option<string>,
                                   species: Option<string>, size: Option<string>, ageMonths: Option<int>,
                                   gender: Option<string>, sex: Option<string>, coverImageUrl: Option<string>,
                                   whyUrgent: Option<seq<string>>, urgentReason: Option<string>)

  /** `genderLabel(g)`. */
  function GenderLabel(g: Option<string>): string {
    var x := ToLower(OrElse(g, "unknown"));
    if x == "male" then "Male" else if x == "female" then "Female" else "Unknown"
  }

  /** `male` and `female` in any letter case give `Male` and `Female`;
      anything else, a missing or empty value included, gives `Unknown`. */
  lemma GenderLabelCases(g: Option<string>)
    ensures GenderLabel(g) == "Male" <==> Truthy(g) && ToLower(g.value) == "male"
    ensures GenderLabel(g) == "Female" <==> Truthy(g) && ToLower(g.value) == "female"
    ensures GenderLabel(g) == "Unknown" <==> !(Truthy(g) && ToLower(g.value) in {"male", "female"})
  {
    assert ToLower("unknown") == "unknown";
  }

  /** Only the letter case of the value matters. */
  lemma GenderLabelIgnoresCase(s: string)
    ensures GenderLabel(Some(s)) == GenderLabel(Some(ToLower(s)))
  {
    ToLowerIdempotent(s);
  }

  /** `shortUrgentReason(p)`. */
  function ShortUrgentReason(p: PetSummary): string {
    if p.whyUrgent.Some? && |p.whyUrgent.value| > 0 then p.whyUrgent.value[0]
    else if Truthy(p.urgentReason) then p.urgentReason.value
    else ""
  }

  const Placeholder := "https://placehold.co/1200x800?text=Pet+Photo"

  /** What a card shows: the link it opens, the image and its `alt`, the
      name, the meta lines, the urgency reason (`None` when the line is
      left out), the gender and the badge. */
  datatype Card = Card(link: string, image: string, alt: string, name: string, breed: string,
                       mini: string, reason: Option<string>, gender: string, badge: string)

  /** `makePetCard(p, badgeText)`. */
  function MakePetCard(p: PetSummary, badge: string): Card {
    var reason := ShortUrgentReason(p);
    Card("/pet.html?petId=" + p.id,
         OrElse(p.coverImageUrl, Placeholder),
         p.name.GetOr("pet"),
         p.name.GetOr("Unnamed"),
         p.breed.GetOr(""),
         p.species.GetOr("") + " \U{2022} " + p.size.GetOr("\U{2014}") + " \U{2022} "
           + (if p.ageMonths.Some? then IntToString(p.ageMonths.value) else "\U{2014}") + "mo",
         if reason != "" then Some(reason) else None,
         GenderLabel(if Truthy(p.gender) then p.gender else p.sex),
         badge)
  }

  /** The placeholder image is used exactly when `coverImageUrl` is missing
      or empty; the name falls back to `Unnamed` only when it is missing
      (`??` keeps an empty name). The urgency line shows the first reason
      of a non-empty list, else a non-empty `urgentReason`; it is left out
      when the chosen text is empty. `gender` wins over `sex` when it is
      not empty. */
  lemma CardFallbacks(p: PetSummary, badge: string)
    ensures var c := MakePetCard(p, badge);
      && (c.image == Placeholder <==> !Truthy(p.coverImageUrl) || p.coverImageUrl.value == Placeholder)
      && (Truthy(p.coverImageUrl) ==> c.image == p.coverImageUrl.value)
      && (p.name.None? ==> c.name == "Unnamed" && c.alt == "pet")
      && (p.name.Some? ==> c.name == p.name.value && c.alt == p.name.value)
      && (p.whyUrgent.Some? && |p.whyUrgent.value| > 0 ==>
            c.reason == (if p.whyUrgent.value[0] != "" then Some(p.whyUrgent.value[0]) else None))
      && (!(p.whyUrgent.Some? && |p.whyUrgent.value| > 0) ==>
            c.reason == (if Truthy(p.urgentReason) then Some(p.urgentReason.value) else None))
      && (c.reason.Some? ==> c.reason.value != "")
      && (Truthy(p.gender) ==> c.gender == GenderLabel(p.gender))
      && (!Truthy(p.gender) ==> c.gender == GenderLabel(p.sex))
      && c.link == "/pet.html?petId=" + p.id && c.badge == badge
  {
  }

  // ---------------------------------------------------------------------
  // load
  // ---------------------------------------------------------------------

  /** What a fetch of a card list settles to: a rejection, or the `items`
      of the reply (`None` when the reply has none). */
  datatype Fetched = Failed | Items(items: Option<seq<PetSummary>>)

  const NoPetsHint := "No pets found. Add Firestore docs in collection 'pets' with status='adoptable'."
  const FailedHint := "Failed to load pets from API. Check backend logs."

  /** The page after `load`: the two card lists (`None` while the box is
      untouched) and the hint. */
  datatype Page = Page(urgent: Option<seq<Card>>, explore: Option<seq<Card>>, hint: string)

  function Cards(items: Option<seq<PetSummary>>, badge: string): (r: seq<Card>)
    ensures |r| == |items.GetOr([])|
  {
    var xs := items.GetOr([]);
    seq(|xs|, i requires 0 <= i < |xs| => MakePetCard(xs[i], badge))
  }

  /** `load()`: urgent pets first, then the ones to explore. */
  function Load(urgent: Fetched, explore: Fetched): Page {
    match urgent
    case Failed => Page(None, None, FailedHint)
    case Items(u) =>
      var urgentCards := Cards(u, "URGENT");
      match explore
      case Failed => Page(Some(urgentCards), None, FailedHint)
      case Items(e) =>
        Page(Some(urgentCards), Some(Cards(e, "Seeking")),
             if |u.GetOr([])| == 0 && |e.GetOr([])| == 0 then NoPetsHint else "")
  }

  /** The hint reads "No pets found" exactly when both lists loaded and
      both are empty, reads the failure text exactly when a fetch failed,
      and is empty otherwise. Each loaded list has one card per pet, in
      order, with its badge. */
  lemma LoadOutcomes(urgent: Fetched, explore: Fetched)
    ensures var page := Load(urgent, explore);
      && (page.hint == NoPetsHint <==>
            urgent.Items? && explore.Items? && urgent.items.GetOr([]) == [] && explore.items.GetOr([]) == [])
      && (page.hint == FailedHint <==> urgent.Failed? || explore.Failed?)
      && (page.hint == "" <==> urgent.Items? && explore.Items? && (urgent.items.GetOr([]) != [] || explore.items.GetOr([]) != []))
      && (urgent.Items? ==>
            && page.urgent.Some? && |page.urgent.value| == |urgent.items.GetOr([])|
            && (forall i :: 0 <= i < |page.urgent.value| ==>
                 page.urgent.value[i] == MakePetCard(urgent.items.GetOr([])[i], "URGENT")))
      && (urgent.Failed? ==> page.urgent.None? && page.explore.None?)
      && (page.explore.Some? <==> urgent.Items? && explore.Items?)
      && (page.explore.Some? ==> forall i :: 0 <= i < |page.explore.value| ==>
            page.explore.value[i] == MakePetCard(explore.items.GetOr([])[i], "Seeking"))
  {
  }
}
