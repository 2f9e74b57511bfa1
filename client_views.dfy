/** The pure projections `renderApp` and the card builders of frontend/app.js
    compute from the client state: the header title and back button, which
    view fills the content area, the shelter display name, the animal-card
    caption, meta line and urgency badge, and the search results. */
module ClientViews {
  import opened Wrappers
  import opened Strings
  import opened Feed
  import opened Navigation
  import opened ClientState

  // ---------------------------------------------------------------------
  // Header
  // ---------------------------------------------------------------------

  /** The `titles` object of `renderApp`, in declaration order. */
  const Titles: seq<(string, string)> := [
    ("explore", "Explore"),
    ("adopt", "Find Shelters"),
    ("search", "Search"),
    ("notifications", "Activity"),
    ("friends", "Messages"),
    ("settings", "Settings"),
    ("profile", "My Profile"),
    ("edit-profile", "Edit Profile")
  ]

  /** The header text: "Chat" while a chat is open, the tab's title when logged
      in, "Instanimals" otherwise. `None` is the `undefined` a tab outside
      `titles` looks up. */
  function HeaderTitle(v: ViewState): Option<string> {
    if ChatActive(v) then Some("Chat")
    else if v.isLoggedIn then Lookup(Titles, v.activeTab)
    else Some("Instanimals")
  }

  /** Whether the header shows the back button. */
  predicate ShowBack(v: ViewState) {
    v.isLoggedIn && (v.activeTab != "explore" || ChatActive(v))
  }

  /** Every tab of the path table has a title. */
  lemma {:induction false} TitlesCoverTabs(tab: string)
    requires KnownTab(tab)
    ensures Lookup(Titles, tab).Some?
  {
    var i :| 0 <= i < |TabPaths| && TabPaths[i].0 == tab;
    // the titles table lists the tabs of the path table plus "settings" at index 5
    var j := if i < 5 then i else i + 1;
    assert Titles[j].0 == tab by {
      if i == 0 {} else if i == 1 {} else if i == 2 {} else if i == 3 {} else if i == 4 {} else if i == 5 {} else {}
    }
  }

  /** The title cases: an open chat wins, then the login gate; a logged-in user
      on a tab of the table always gets a title. */
  lemma HeaderTitleCases(v: ViewState)
    ensures ChatActive(v) ==> HeaderTitle(v) == Some("Chat")
    ensures !ChatActive(v) && !v.isLoggedIn ==> HeaderTitle(v) == Some("Instanimals")
    ensures !ChatActive(v) && v.isLoggedIn && KnownTab(v.activeTab) ==> HeaderTitle(v).Some?
    ensures v.activeTab == "explore" && !ChatActive(v) ==> !ShowBack(v)
    ensures !v.isLoggedIn ==> !ShowBack(v)
  {
    if !ChatActive(v) && v.isLoggedIn && KnownTab(v.activeTab) {
      TitlesCoverTabs(v.activeTab);
    }
  }

  /** The header after the transitions that move between views: switching to
      explore hides the back button, switching to another tab of the table while
      logged in shows it with that tab's title, and opening a chat with a truthy
      id while logged in shows it with "Chat". */
  lemma {:induction false} HeaderAfterNavigation(s: AppState, tab: string, push: bool, id: int)
    ensures !ShowBack(SwitchTab(s, "explore", push).view)
    ensures s.view.isLoggedIn && KnownTab(tab) && tab != "explore" ==>
      var v := SwitchTab(s, tab, push).view;
      ShowBack(v) && HeaderTitle(v) == Lookup(Titles, tab) && HeaderTitle(v).Some?
    ensures s.view.isLoggedIn && id != 0 ==>
      var v := OpenChat(s, id).view;
      ShowBack(v) && HeaderTitle(v) == Some("Chat")
  {
    if KnownTab(tab) {
      TitlesCoverTabs(tab);
    }
  }

  // ---------------------------------------------------------------------
  // Content area
  // ---------------------------------------------------------------------

  /** What `renderApp` puts in the content area. `Blank` is a tab the switch
      does not handle. */
  datatype View =
    | Gate
    | Loading
    | NoAnimals
    | AnimalCards(animals: seq<Animal>)
    | AdoptView
    | SearchView
    | NotificationsView
    | ChatView
    | FriendsList
    | ProfileView
    | EditProfileView
    | Blank

  function ContentView(s: AppState): View {
    if !s.view.isLoggedIn then Gate
    else match s.view.activeTab
      case "explore" =>
        if !s.animalsLoaded then Loading
        else if |s.animals| == 0 then NoAnimals
        else AnimalCards(s.animals)
      case "adopt" => AdoptView
      case "search" => SearchView
      case "notifications" => NotificationsView
      case "friends" => if ChatActive(s.view) then ChatView else FriendsList
      case "profile" => ProfileView
      case "edit-profile" => EditProfileView
      case _ => Blank
  }

  /** The loading indicator is shown exactly when the render starts a fetch,
      and a render changes nothing that decides the view. */
  lemma {:induction false} LoadingIffFetch(s: AppState)
    ensures ContentView(s) == Loading <==> WantsAnimals(s)
    ensures Render(s).animalFetches == s.animalFetches + (if ContentView(s) == Loading then 1 else 0)
    ensures ContentView(Render(s)) == ContentView(s)
  {
  }

  /** Once the animals have arrived, a non-empty list is shown card by card
      and an empty one gives the "No animals found" notice. */
  lemma {:induction false} ExploreAfterLoad(s: AppState, data: Option<seq<Animal>>)
    requires s.view.isLoggedIn && s.view.activeTab == "explore"
    ensures var r := AnimalsLoaded(s, data);
      ContentView(r) == (if |r.animals| > 0 then AnimalCards(r.animals) else NoAnimals)
    ensures data.Some? && |data.value| > 0 ==> ContentView(AnimalsLoaded(s, data)) == AnimalCards(data.value)
  {
  }

  // ---------------------------------------------------------------------
  // formatShelterName
  // ---------------------------------------------------------------------

  /** `.replace(/([a-z])([A-Z])/g, '$1 $2')`. A match ends in an upper-case
      letter, so no two matches overlap and the global replacement puts a space
      inside every lower-upper pair. */
  function SplitCamel(s: string): (r: string)
    ensures |r| >= |s|
    ensures forall c :: c in r ==> c in s || c == ' '
  {
    if |s| < 2 then s
    else if IsLower(s[0]) && IsUpper(s[1]) then [s[0], ' '] + SplitCamel(s[1..])
    else [s[0]] + SplitCamel(s[1..])
  }

  /** No lower-case letter is directly followed by an upper-case one. */
  predicate NoCamelJoin(s: string) {
    forall i :: 0 < i < |s| ==> !(IsLower(s[i - 1]) && IsUpper(s[i]))
  }

  lemma {:induction false} SplitCamelSeparates(s: string)
    ensures NoCamelJoin(SplitCamel(s))
    ensures |s| > 0 ==> |SplitCamel(s)| > 0 && SplitCamel(s)[0] == s[0]
  {
    if |s| >= 2 {
      SplitCamelSeparates(s[1..]);
      var rest := SplitCamel(s[1..]);
      var r := SplitCamel(s);
      var d := |r| - |rest|;
      assert r[d..] == rest;
      forall i | 0 < i < |r| ensures !(IsLower(r[i - 1]) && IsUpper(r[i])) {
        if i > d {
          assert r[i - 1] == rest[i - 1 - d] && r[i] == rest[i - d];
        }
      }
    }
  }

  /** Text with no lower-upper pair passes unchanged. */
  lemma {:induction false} SplitCamelNoop(s: string)
    requires NoCamelJoin(s)
    ensures SplitCamel(s) == s
  {
    if |s| >= 2 {
      assert NoCamelJoin(s[1..]) by {
        forall i | 0 < i < |s| - 1 ensures !(IsLower(s[1..][i - 1]) && IsUpper(s[1..][i])) {
          assert s[1..][i - 1] == s[i] && s[1..][i] == s[i + 1];
        }
      }
      SplitCamelNoop(s[1..]);
      assert !(IsLower(s[0]) && IsUpper(s[1]));
    }
  }

  /** `.replace(/[_-]/g, ' ')`. */
  function DashesToSpaces(s: string): (r: string)
    ensures |r| == |s|
    ensures forall i :: 0 <= i < |s| ==> r[i] == if s[i] == '_' || s[i] == '-' then ' ' else s[i]
  {
    seq(|s|, i requires 0 <= i < |s| => if s[i] == '_' || s[i] == '-' then ' ' else s[i])
  }

  /** `\b\w` matches a word character at index `i` not preceded by one. */
  predicate WordStart(s: string, i: nat)
    requires i < |s|
  {
    IsWordChar(s[i]) && (i == 0 || !IsWordChar(s[i - 1]))
  }

  /** `.replace(/\b\w/g, c => c.toUpperCase())`. */
  function CapitalizeWords(s: string): (r: string)
    ensures |r| == |s|
    ensures forall i :: 0 <= i < |s| ==> r[i] == if WordStart(s, i) then UpperChar(s[i]) else s[i]
  {
    seq(|s|, i requires 0 <= i < |s| => if WordStart(s, i) then UpperChar(s[i]) else s[i])
  }

  /** `formatShelterName(raw)`. */
  function FormatShelterName(raw: string): string {
    Trim(CapitalizeWords(DashesToSpaces(SplitCamel(raw))))
  }

  /** What a formatted shelter name looks like. */
  predicate WellFormattedName(s: string) {
    && '_' !in s && '-' !in s
    && NoCamelJoin(s)
    && (forall i :: 0 <= i < |s| && WordStart(s, i) ==> !IsLower(s[i]))
  }

  lemma {:induction false} CapitalizeKeepsShape(s: string)
    requires '_' !in s && '-' !in s && NoCamelJoin(s)
    ensures WellFormattedName(CapitalizeWords(s))
  {
    var r := CapitalizeWords(s);
    assert forall i :: 0 <= i < |s| ==> (IsWordChar(r[i]) <==> IsWordChar(s[i]));
    forall i | 0 < i < |r| ensures !(IsLower(r[i - 1]) && IsUpper(r[i])) {
      if WordStart(s, i) {
        assert !IsWordChar(s[i - 1]);
      }
    }
    forall i | 0 <= i < |r| && WordStart(r, i) ensures !IsLower(r[i]) {
      assert WordStart(s, i);
    }
  }

  lemma {:induction false} TrimKeepsShape(s: string)
    requires WellFormattedName(s)
    ensures WellFormattedName(Trim(s))
  {
    var r := Trim(s);
    var k := TrimStart(s, IsJsSpace);
    TrimBySpec(s, IsJsSpace);
    assert forall i :: 0 <= i < |r| ==> r[i] == s[k + i];
    forall i | 0 <= i < |r| && WordStart(r, i) ensures !IsLower(r[i]) {
      if k > 0 && i == 0 {
        assert IsJsSpace(s[..k][k - 1]);
      }
      assert WordStart(s, k + i);
    }
  }

  /** A formatted shelter name has no `_` or `-`, no lower-upper pair, no
      leading or trailing space, and every word starts with a character that is
      not a lower-case letter. */
  lemma {:induction false} FormatShelterNameShape(raw: string)
    ensures WellFormattedName(FormatShelterName(raw))
    ensures var r := FormatShelterName(raw); r == [] || (!IsJsSpace(r[0]) && !IsJsSpace(r[|r| - 1]))
  {
    var a := SplitCamel(raw);
    SplitCamelSeparates(raw);
    var b := DashesToSpaces(a);
    assert NoCamelJoin(b) by {
      forall i | 0 < i < |b| ensures !(IsLower(b[i - 1]) && IsUpper(b[i])) {
        assert !(IsLower(a[i - 1]) && IsUpper(a[i]));
      }
    }
    CapitalizeKeepsShape(b);
    var c := CapitalizeWords(b);
    TrimKeepsShape(c);
    TrimBySpec(c, IsJsSpace);
  }

  /** Capitalising text that is already capitalised changes nothing. */
  lemma {:induction false} CapitalizeNoop(s: string)
    requires forall i :: 0 <= i < |s| && WordStart(s, i) ==> !IsLower(s[i])
    ensures CapitalizeWords(s) == s
  {
  }

  /** Formatting a formatted name gives it back. */
  lemma {:induction false} FormatShelterNameIdempotent(raw: string)
    ensures FormatShelterName(FormatShelterName(raw)) == FormatShelterName(raw)
  {
    var r := FormatShelterName(raw);
    FormatShelterNameShape(raw);
    SplitCamelNoop(r);
    assert DashesToSpaces(r) == r;
    CapitalizeNoop(r);
    TrimByIdempotent(CapitalizeWords(DashesToSpaces(SplitCamel(raw))), IsJsSpace);
  }

  /** The name a post card shows: shelters by formatted name, people by handle. */
  function DisplayName(p: Post): string {
    if p.isShelter then FormatShelterName(p.poster) else "@" + p.poster
  }

  /** A person's post shows `@` and the poster as written; a shelter's shows
      its formatted name, which is in the formatted shape and which formatting
      again leaves as it is. */
  lemma DisplayNameCases(p: Post)
    ensures !p.isShelter ==> DisplayName(p) == "@" + p.poster && |DisplayName(p)| == |p.poster| + 1
    ensures p.isShelter ==> DisplayName(p) == FormatShelterName(p.poster) && WellFormattedName(DisplayName(p))
    ensures p.isShelter ==> FormatShelterName(DisplayName(p)) == DisplayName(p)
  {
    if p.isShelter {
      FormatShelterNameShape(p.poster);
      FormatShelterNameIdempotent(p.poster);
    }
  }

  // ---------------------------------------------------------------------
  // Animal cards
  // ---------------------------------------------------------------------

  /** `a.shelter || 'Local Shelter'`. */
  function ShelterName(a: Animal): (r: string)
    ensures r != ""
  {
    OrElse(a.shelter, "Local Shelter")
  }

  /** `shelterName[0].toUpperCase()`, the avatar letter. */
  function FirstLetter(a: Animal): (c: char)
    ensures !IsLower(c)
    ensures c == UpperChar(ShelterName(a)[0])
  {
    UpperChar(ShelterName(a)[0])
  }

  const CaptionLimit := 220

  /** The caption: the first 220 characters of a truthy description, with `…`
      when it was cut. */
  function Caption(description: Option<string>): string {
    if !Truthy(description) then ""
    else
      var d := description.value;
      Take(d, CaptionLimit) + (if |d| > CaptionLimit then "…" else "")
  }

  lemma {:induction false} CaptionShape(description: Option<string>)
    ensures |Caption(description)| <= CaptionLimit + 1
    ensures !Truthy(description) ==> Caption(description) == ""
    ensures Truthy(description) && |description.value| <= CaptionLimit ==> Caption(description) == description.value
    ensures Truthy(description) && |description.value| > CaptionLimit ==>
      Caption(description) == description.value[..CaptionLimit] + "…"
  {
  }

  /** `xs.filter(Boolean)` on optional strings. */
  function Present(xs: seq<Option<string>>): (r: seq<string>)
    ensures forall i :: 0 <= i < |r| ==> r[i] != ""
    ensures |r| <= |xs|
    ensures (forall i :: 0 <= i < |xs| ==> !Truthy(xs[i])) <==> r == []
  {
    if xs == [] then []
    else
      var rest := Present(xs[1..]);
      assert forall i :: 0 < i < |xs| ==> xs[i] == xs[1..][i - 1];
      if Truthy(xs[0]) then [xs[0].value] + rest else rest
  }

  /** The meta line: age, size and gender, those present, joined by ` · `. */
  function Meta(a: Animal): string {
    Join(Present([a.age, a.size, a.gender]), " · ")
  }

  lemma {:induction false} JoinNonEmpty(parts: seq<string>, sep: string)
    requires parts != [] && parts[0] != ""
    ensures Join(parts, sep) != ""
  {
  }

  /** The meta line is empty exactly when none of the three fields is present;
      a single present field is shown alone. */
  lemma {:induction false} MetaShape(a: Animal)
    ensures Meta(a) == "" <==> !Truthy(a.age) && !Truthy(a.size) && !Truthy(a.gender)
    ensures Truthy(a.age) && !Truthy(a.size) && !Truthy(a.gender) ==> Meta(a) == a.age.value
    ensures Truthy(a.age) && Truthy(a.size) && Truthy(a.gender) ==>
      Meta(a) == a.age.value + " · " + a.size.value + " · " + a.gender.value
  {
    var xs := [a.age, a.size, a.gender];
    assert xs[1..] == [a.size, a.gender] && xs[1..][1..] == [a.gender] && xs[1..][1..][1..] == [];
    var p3 := Present([a.gender]);
    var p2 := Present([a.size, a.gender]);
    var p := Present(xs);
    assert p3 == (if Truthy(a.gender) then [a.gender.value] else []);
    assert p2 == (if Truthy(a.size) then [a.size.value] else []) + p3;
    assert p == (if Truthy(a.age) then [a.age.value] else []) + p2;
    if p != [] {
      JoinNonEmpty(p, " · ");
    }
    if Truthy(a.age) && Truthy(a.size) && Truthy(a.gender) {
      assert p[1..] == [a.size.value, a.gender.value] && p[1..][1..] == [a.gender.value];
    }
  }

  /** The keys of `urgencyMap`. */
  const UrgencyLevels: seq<string> := ["critical", "high", "medium", "low"]

  /** The badge label: `urgencyMap[a.urgency]`, or no badge. */
  function UrgencyLabel(urgency: Option<string>): Option<string> {
    match urgency
    case Some("critical") => Some("Critical")
    case Some("high") => Some("High")
    case Some("medium") => Some("Medium")
    case Some("low") => Some("Low")
    case _ => None
  }

  /** A badge is shown exactly for the four levels, labelled with the level
      capitalised. */
  lemma UrgencyLabelShape(urgency: Option<string>)
    ensures UrgencyLabel(urgency).Some? <==> urgency.Some? && urgency.value in UrgencyLevels
    ensures UrgencyLabel(urgency).Some? ==>
      var k := urgency.value;
      UrgencyLabel(urgency).value == [UpperChar(k[0])] + k[1..]
  {
  }

  // ---------------------------------------------------------------------
  // Search
  // ---------------------------------------------------------------------

  /** Whether a post's text contains the query, ignoring ASCII case. */
  predicate Matches(p: Post, query: string) {
    Contains(ToLower(p.text), ToLower(query))
  }

  /** The search filter: the posts whose text contains the query, ignoring
      case, in feed order. */
  function SearchResults(posts: seq<Post>, query: string): (r: seq<Post>)
    ensures forall p :: p in r <==> p in posts && Matches(p, query)
    ensures |r| <= |posts|
  {
    if posts == [] then []
    else
      var rest := SearchResults(posts[1..], query);
      assert forall p :: p in posts <==> p == posts[0] || p in posts[1..];
      if Matches(posts[0], query) then [posts[0]] + rest else rest
  }

  /** The filter keeps feed order: filtering a concatenation concatenates the
      filtered parts. */
  lemma {:induction false} SearchResultsConcat(a: seq<Post>, b: seq<Post>, query: string)
    ensures SearchResults(a + b, query) == SearchResults(a, query) + SearchResults(b, query)
  {
    if a == [] {
      assert a + b == b;
    } else {
      assert (a + b)[0] == a[0] && (a + b)[1..] == a[1..] + b;
      SearchResultsConcat(a[1..], b, query);
    }
  }

  /** An empty query lists every post. */
  lemma {:induction false} SearchEmptyQuery(posts: seq<Post>)
    ensures SearchResults(posts, "") == posts
  {
    if posts != [] {
      ContainsEmpty(ToLower(posts[0].text));
      SearchEmptyQuery(posts[1..]);
    }
  }

  /** Queries that agree up to ASCII case find the same posts. */
  lemma {:induction false} SearchIgnoresCase(posts: seq<Post>, q1: string, q2: string)
    requires ToLower(q1) == ToLower(q2)
    ensures SearchResults(posts, q1) == SearchResults(posts, q2)
  {
    if posts != [] {
      SearchIgnoresCase(posts[1..], q1, q2);
    }
  }

  /** A post whose text is the query, in any case, is found. */
  lemma SearchFindsText(posts: seq<Post>, i: nat)
    requires i < |posts|
    ensures posts[i] in SearchResults(posts, posts[i].text)
  {
    ContainsSelf(ToLower(posts[i].text));
  }
}
