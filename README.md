# Instanimals in Dafny

Instanimals is a pet-adoption social app. This project models and proves
its core logic:

- The single-page client (`frontend/app.js`): a view-state machine holding
  the login flag, the active tab and chat, liked posts, starred animals,
  comments, the profile, the feed, chat transcripts, the animal list and
  the browser history. Around it sit the pure helpers the views use: the
  header title and back button, shelter-name formatting, the animal card's
  caption/meta/urgency badge, and the search filter.
- The recommender (`backend/src/algorithms/recommender.py`): the additive
  match score with its capped reason and warning lists, the "why urgent"
  reasons, the similarity score, the greedy diversified ranking, and the
  clamping of the `limit` argument in the routes.
- The Flask backend's record logic (`backend/src/app.py`):
  - age labels;
  - signup and login over an in-memory user collection;
  - candidate adoption URLs;
  - the `X-Forwarded-For` first hop;
  - voice selection for speech;
  - the nearby-shelter element → post mapping.
- The standalone pages:
  - `frontend/pages/main.js`: pet cards and the empty-list hint;
  - `frontend/pages/pet.js`: reason and warning lists, display fallbacks, and load errors;
  - `frontend/pages/form.js`: the foster application;
  - `frontend/form.js`: the pet application with its bearer token;
  - `frontend/pages/login.js`: the demo login.

## How the model is built

- Code that changes state in place is a `class`:
  - `ClientApp.App` for the client;
  - `Users.UserStore` for the user collection;
  - `PetPage.ItemList` for a `<ul>`;
  - one page object per form, holding the button, alerts, requests and location.
- Each method of such a class ensures that its new state equals a pure
  transition function of the old state, for example
  `Snapshot() == ClientState.ToggleLike(old(Snapshot()), id)`. Lemmas then
  state what those transition functions do.
- The loops of the source are methods with loop invariants, each proved
  against a specification function:
  - `Recommender.DiversifyRank`;
  - `AdoptUrls.CandidateAdoptUrls`;
  - `Routes.NearbyPosts`;
  - `PetPage.ItemList.SetList`.
- Step-by-step updates of local variables are methods too, each proved
  against a specification function: `Recommender.ComputeMatch` and
  `Recommender.BuildWhyUrgent` (the score and message updates) and
  `ApplicationForm.ApplicationFormPage.SubmitApplication` (the conditional
  header write).
- Things outside the program are parameters:
  - network replies and `fetch` outcomes;
  - `Date.now()`;
  - the UUID's hex digits;
  - URL joining and parsing;
  - the HTML links of a page;
  - local storage;
  - the days a pet has been listed.
- JavaScript truthiness of an optional string is `Wrappers.Truthy`: `null`,
  a missing value and `""` are all falsy. `a || b` on strings is `OrElse`.
- Where `frontend/app.js` carries unresolved merge-conflict markers, the
  `HEAD` side is modelled throughout. The one conflicting data value, the
  media of a new post (`""` at line 346, a placeholder at line 349), is a
  parameter of `ClientState.SubmitPost`.

Where the design description and the code differ, the model follows the code:

- Start-up calls `history.replaceState` with `window.location.pathname`
  unchanged. An unknown path keeps its URL and only the tab falls back to
  `explore`. The path is not rewritten to `/`.
- `renderApp` calls `loadAnimals()` on every render of the explore tab while
  `animalsLoaded` is false. So the model counts fetches, and two renders
  before the reply mean two requests (`ClientProps.RendersWhileLoading`).
  This is not a single fetch.
- `get_user_location` strips the header value only when it contains a
  comma. A value without a comma is used as it is, surrounding whitespace
  included.
- The fallback loop of `_candidate_adopt_urls` checks `seen` but never adds
  to it. Two fallback paths that join to the same URL would therefore both
  be returned. `AdoptUrls.CandidateUrlsDistinct` assumes the joined
  fallbacks are distinct.
- The demo login stores only `demoUserEmail`, never an `idToken`. So the
  application form still sends no `Authorization` header after it
  (`LoginPage.LoginKeepsToken`).
- `handleLogout` (frontend/app.js:358-362) clears the storage, sets
  `isLoggedIn` to false and switches to explore. It does not reset the
  session to its logged-out defaults: `myProfile`, `likedPosts` and the
  starred animals stay in memory until a reload (`ClientState.Logout`,
  `ClientProps.LogoutSurvivesReload`).

## Model

| member | source | states |
|---|---|---|
| Navigation.Lookup | frontend/app.js:20-28 | a lookup finds a value exactly when some entry has the key, and the value found is an entry's value for that key |
| Navigation.Invert | frontend/app.js:29 | the inverted table's keys are exactly the values (paths) of the entries |
| Navigation.TabPathsDistinct | frontend/app.js:20-28 | the tabs of the table are distinct, the paths are distinct, and none is empty |
| Navigation.EntryRoundTrip | frontend/app.js:20-29 | in any table with distinct non-empty tabs and paths, tab→path→tab and path→tab→path both give back their start |
| Navigation.TabPathRoundTrip | frontend/app.js:20-29 | `PATH_TABS[TAB_PATHS[t]] == t` for every known tab |
| Navigation.PathTabRoundTrip | frontend/app.js:20-29 | `TAB_PATHS[PATH_TABS[p]] == p` for every path of the table |
| Navigation.UnknownFallbacks | frontend/app.js:853 | an unknown path opens `explore` (line 853), an unknown tab maps to `/` (line 258) |
| Navigation.History.Push | frontend/app.js:260 | `pushState` drops the forward entries, appends one entry and makes it current |
| Navigation.History.Replace | frontend/app.js:855 | `replaceState` overwrites the current entry in place and keeps the length and index |
| Navigation.History.Back | frontend/app.js:271 | `history.back()` moves one entry back; at the application's first entry, where the modelled history starts, nothing changes |
| Feed.FindPost | frontend/app.js:375-383 | the index found holds the post with that id, and no earlier post has it; `None` exactly when no post has it |
| ClientState.Without | frontend/app.js:389 | `likedPosts.filter(x => x !== id)` keeps exactly the other ids and adds no duplicates |
| ClientState.FlipLiked | frontend/app.js:384-390 | the id's membership in the liked list flips and no other id changes |
| ClientState.BumpLikes | frontend/app.js:385-391 | exactly the post found by id changes its count by the step; every other post stays |
| ClientProps.LoggedOutOnlyPrompts | frontend/app.js:370-403 | logged out, the like, comment and chat handlers (and, at lines 70 and 111, the star and animal-comment ones) only open the login modal or panel and change nothing else |
| ClientProps.ToggleLikeFlips | frontend/app.js:381-392 | logged in, a like moves the post's count by exactly +1 or −1, flips its membership in `likedPosts` and leaves every other post alone |
| ClientProps.ToggleLikeParts | frontend/app.js:381-392 | a like changes exactly the liked list and the posts, as `FlipLiked` and `BumpLikes` say |
| ClientProps.BumpLikesUndone | frontend/app.js:385-391 | raising and then lowering one post's count restores the feed |
| ClientProps.ToggleLikeTwice | frontend/app.js:381-392 | two likes restore the count and the set of liked ids, and the list itself when the post was not liked |
| ClientProps.BlankCommentIgnored | frontend/app.js:370-374 | an empty or whitespace-only comment changes nothing |
| ClientProps.CommentAppended | frontend/app.js:370-379 | a non-blank comment appends exactly one `{user: name, text: trimmed}` to that post and changes no other post |
| ClientProps.ChatAppended | frontend/app.js:394-403 | a blank chat sends nothing; otherwise one message from `me` is appended to the open chat's transcript |
| ClientProps.PostSubmitted | frontend/app.js:342-354 | a blank post only raises the error toast; otherwise one post with no likes and no comments, by the profile's name, is prepended and the client ends on `explore` |
| ClientProps.SwitchTabHistory | frontend/app.js:253-263 | `switchTab(t, push)` lands on `t` with no chat and pushes exactly one entry carrying `t` and its path iff `push` |
| ClientProps.PopStateResolves | frontend/app.js:876-882 | popstate resolves the tab from the entry (else `explore`), clears the chat and leaves the history as the browser left it |
| ClientProps.GoBackCases | frontend/app.js:265-272 | with a chat open back clears only the chat, keeping tab and history, and in a valid state leaves every other field unchanged; otherwise it steps the history back and popstate restores that tab |
| ClientProps.SwitchThenBack | frontend/app.js:253-272 | switching tab and going back returns to the previous tab and history index |
| ClientProps.InitialNavigation | frontend/app.js:853-855 | start-up resolves the tab from the path and replaces the current entry instead of adding one |
| ClientProps.AuthRejectedLocally | frontend/app.js:295-303 | an email without `@` or a password under six characters is rejected with no request and only the error shown |
| ClientProps.SignupUsernameDefault | frontend/app.js:296-305 | a signup sends the trimmed email and, for a blank username, the text before `@` |
| ClientProps.LoginRequest | frontend/app.js:296-305 | a login sends exactly the trimmed email and the password |
| ClientProps.AuthAccepted | frontend/app.js:312-322 | a successful reply logs in under the returned name with `data.handle \|\| data.username` as handle and stores the session |
| ClientProps.AuthFailed | frontend/app.js:323-327 | a failed request shows the server's message or the generic one and keeps the session |
| ClientProps.AuthSent | frontend/app.js:295-328 | a submission passing the local checks sends its request and follows the reply |
| ClientProps.EditSaveSurvivesReload | frontend/app.js:806-813 | a non-blank name is saved with the bio and stored, and a reload reads the same profile; a blank name changes nothing |
| ClientProps.LogoutSurvivesReload | frontend/app.js:358-362 | after logout the token and profile are gone and a reload starts logged out with the default profile |
| ClientProps.StarToggle | frontend/app.js:69-80 | starring flips one animal's star only, and starring twice restores it |
| ClientProps.AnimalCommentAppended | frontend/app.js:110-119 | a blank animal comment is ignored; otherwise one comment is appended to that animal's list only |
| ClientProps.AnimalsLoadedOnce | frontend/app.js:826-843 | the fetched list replaces `animals` only when non-empty; the flag is set on every path, after which no render fetches |
| ClientProps.RendersWhileLoading | frontend/app.js:549-556 | each render on explore before the reply starts another fetch |
| ClientProps.InitialValid | frontend/app.js:2-17 | the start state is valid: no duplicate likes, a chat only on the messages tab, and a current history entry |
| ClientProps.StepPreservesValid | frontend/app.js:2-17 | every action the interface offers keeps the state valid, so `likedPosts` never holds duplicates |
| ClientApp.App.constructor | frontend/app.js:845-855 | the start state is `Initial` of the stored token, profile and opening history, and it is valid |
| ClientApp.App.Render | frontend/app.js:526-588 | the new state is `Render` of the old one |
| ClientApp.App.SwitchTab | frontend/app.js:253-263 | the new state is `SwitchTab` of the old one |
| ClientApp.App.PopState | frontend/app.js:876-882 | the new state is `PopState` of the old one |
| ClientApp.App.GoBack | frontend/app.js:265-272 | the new state is `GoBack` of the old one |
| ClientApp.App.OpenChat | frontend/app.js:795 | the new state is `OpenChat` of the old one |
| ClientApp.App.AnimalsLoaded | frontend/app.js:835-842 | the new state is `AnimalsLoaded` of the old one and the reply |
| ClientApp.App.PromptLogin | frontend/app.js:275-292 | the new state is `PromptLogin` of the old one |
| ClientApp.App.PromptLoginPanel | frontend/app.js:122-154 | the new state is `PromptLoginPanel` of the old one |
| ClientApp.App.ShowToast | frontend/app.js:232-239 | the new state is `ShowToast` of the old one |
| ClientApp.App.ToggleLike | frontend/app.js:381-392 | the new state is `ToggleLike` of the old one |
| ClientApp.App.SubmitComment | frontend/app.js:370-379 | the new state is `SubmitComment` of the old one |
| ClientApp.App.SendChat | frontend/app.js:394-403 | the new state is `SendChat` of the old one |
| ClientApp.App.OpenEditProfile | frontend/app.js:799 | the new state is `OpenEditProfile` of the old one |
| ClientApp.App.OpenCompose | frontend/app.js:330-340 | the new state is `OpenCompose` of the old one |
| ClientApp.App.SubmitPost | frontend/app.js:342-354 | the new state is `SubmitPost` of the old one with the build's media |
| ClientApp.App.Logout | frontend/app.js:358-362 | the new state is `Logout` of the old one |
| ClientApp.App.EditSave | frontend/app.js:806-813 | the new state is `EditSave` of the old one |
| ClientApp.App.ToggleStar | frontend/app.js:69-80 | the new state is `ToggleStar` of the old one |
| ClientApp.App.SubmitAnimalComment | frontend/app.js:110-119 | the new state is `SubmitAnimalComment` of the old one |
| ClientApp.App.UpdateSearch | frontend/app.js:754-760 | the new state is `UpdateSearch` of the old one |
| ClientApp.App.AuthError | frontend/app.js:241-251 | the new state is `AuthError` of the old one |
| ClientApp.App.AuthReplied | frontend/app.js:306-327 | the new state is `AuthReplied` of the old one and the reply |
| ClientApp.App.AuthSubmit | frontend/app.js:295-328 | the new state is `AuthSubmit` of the old one and the reply |
| ClientApp.App.Dispatch | frontend/app.js:2-17 | any offered action moves the object by `Step` and keeps it valid |
| ClientViews.TitlesCoverTabs | frontend/app.js:543 | every tab of the path table has a title |
| ClientViews.HeaderTitleCases | frontend/app.js:544 | an open chat gives "Chat", logged out gives "Instanimals", and a logged-in user on a tab of the table gets its title |
| ClientViews.HeaderAfterNavigation | frontend/app.js:544-545 | after switching to explore there is no back button; after switching to another tab logged in, or opening a chat, there is one, with the right title |
| ClientViews.LoadingIffFetch | frontend/app.js:549-556 | the loading notice shows exactly when the render starts a fetch |
| ClientViews.ExploreAfterLoad | frontend/app.js:552-562 | once loaded, a non-empty list shows one card per animal in order and an empty one the "No animals found" notice |
| ClientViews.SplitCamel | frontend/app.js:220 | the result is never shorter than the input and adds no character but spaces |
| ClientViews.SplitCamelSeparates | frontend/app.js:220 | after splitting, no lower-case letter is followed by an upper-case one |
| ClientViews.SplitCamelNoop | frontend/app.js:220 | text with no lower-upper pair is unchanged |
| ClientViews.DashesToSpaces | frontend/app.js:221 | same length, every `_` and `-` becomes a space and every other character stays |
| ClientViews.CapitalizeWords | frontend/app.js:222 | same length, exactly the characters at word starts are upper-cased |
| ClientViews.FormatShelterNameShape | frontend/app.js:218-224 | a formatted name has no `_`/`-`, no lower-upper pair, no surrounding space, and every word starts capitalised |
| ClientViews.CapitalizeNoop | frontend/app.js:222 | capitalising capitalised text changes nothing |
| ClientViews.FormatShelterNameIdempotent | frontend/app.js:218-224 | formatting a formatted name gives it back |
| ClientViews.DisplayNameCases | frontend/app.js:594 | a person's post shows `@` and the poster as written; a shelter's shows its formatted name, which is well formed and which formatting again leaves unchanged |
| ClientViews.ShelterName | frontend/app.js:609 | the shelter name is the truthy `a.shelter`, else "Local Shelter", and never empty |
| ClientViews.FirstLetter | frontend/app.js:610 | the avatar letter is the upper-cased first character of the shelter name |
| ClientViews.CaptionShape | frontend/app.js:611-613 | the caption is empty for a falsy description, the whole text up to 220 characters, else the first 220 characters followed by `…` |
| ClientViews.Present | frontend/app.js:614 | `filter(Boolean)` keeps the truthy values in order |
| ClientViews.MetaShape | frontend/app.js:614 | the meta line is empty iff no field is present, and a lone present field is shown alone |
| ClientViews.UrgencyLabelShape | frontend/app.js:622-631 | a badge shows exactly for the four levels, labelled as the level capitalised |
| ClientViews.SearchResults | frontend/app.js:754-760 | every result is a post of the feed whose text contains the query ignoring case, and no matching post is missed |
| ClientViews.SearchResultsConcat | frontend/app.js:758 | the filter keeps feed order |
| ClientViews.SearchEmptyQuery | frontend/app.js:758 | an empty query lists every post |
| ClientViews.SearchIgnoresCase | frontend/app.js:758 | queries equal up to case find the same posts |
| ClientViews.SearchFindsText | frontend/app.js:758 | a post whose text is the query, in any case, is found |
| Recommender.Clamp | backend/src/algorithms/recommender.py:167-168 | the result lies in [lo, hi] and equals the input when the input does |
| Recommender.ComputeMatch | backend/src/algorithms/recommender.py:117-169 | the loop-by-rule score and the capped lists equal `MatchOf` of the rules that fire, the score in [0, 100] and each list at most 3 |
| Recommender.EnergyHoursRules | backend/src/algorithms/recommender.py:131-139 | the `if`/`elif` chain adds the energy rule's effect to the running score and lists |
| Recommender.YardRules | backend/src/algorithms/recommender.py:141-146 | the yard rules add their effects to the running score and lists |
| Recommender.MedicalRules | backend/src/algorithms/recommender.py:148-157 | the medical rules add their effects to the running score and lists |
| Recommender.SizeRules | backend/src/algorithms/recommender.py:159-165 | the size rule adds its effect to the running score and lists |
| Recommender.TotalBeforeSize | backend/src/algorithms/recommender.py:129-157 | the score before the size rule is 50 plus the energy, yard and medical changes |
| Recommender.RawScoreRange | backend/src/algorithms/recommender.py:129-168 | the unclamped score stays in [8, 80], so the clamp to [0, 100] never cuts it |
| Recommender.EnergyRulesExclusive | backend/src/algorithms/recommender.py:131-139 | at most one energy/hours message appears, and the chain moves the score by −18, +10, +4 or 0 |
| Recommender.SizeRuleEffect | backend/src/algorithms/recommender.py:159-165 | no preference, `any` or empty adds nothing; otherwise +8 when the sizes agree ignoring case and −4 when not |
| Recommender.SizeCaseInsensitive | backend/src/algorithms/recommender.py:159-165 | the score depends on the pet's size only up to case |
| Recommender.MatchListsCapped | backend/src/algorithms/recommender.py:169 | the reasons and warnings are the first three generated, in rule order |
| Recommender.BuildWhyUrgent | backend/src/algorithms/recommender.py:66-85 | the step-by-step reasons equal `WhyUrgentOf`, holding 1 to 3 reasons |
| Recommender.WhyUrgentFallback | backend/src/algorithms/recommender.py:72-85 | "Needs exposure" is returned exactly when no rule fires, and then alone; otherwise the first three reasons that fire |
| Recommender.WhyUrgentExample | backend/src/algorithms/recommender.py:72-85 | a medical pet listed a week or more with few views gets exactly three reasons, medical first |
| Recommender.SimilarityShape | backend/src/algorithms/recommender.py:88-96 | similarity is symmetric, lies in [0, 10] and is 10 for a pet with itself |
| Recommender.MinSimilarityIsMin | backend/src/algorithms/recommender.py:108 | the minimum similarity to the picked pets is attained and is a lower bound |
| Recommender.BestIndexIsBest | backend/src/algorithms/recommender.py:105-111 | the scan finds a minimal score, the earliest index on a tie (strict `<`) |
| Recommender.BestUnique | backend/src/algorithms/recommender.py:105-111 | exactly one index satisfies the tie rule |
| Recommender.RemoveBest | backend/src/algorithms/recommender.py:112 | `remaining.remove(best)` drops exactly the chosen candidate |
| Recommender.DiversifyRank | backend/src/algorithms/recommender.py:99-114 | the `while` loop returns `Diversify(candidates, k)` |
| Recommender.GreedyShape | backend/src/algorithms/recommender.py:103-113 | the picks never exceed `max(k, 1)`, grow until a list runs out, keep their prefix and take only what remains |
| Recommender.DiversifyShape | backend/src/algorithms/recommender.py:99-114 | `[]` for no candidates; otherwise `candidates[0]` first, length `min(len, max(k, 1))`, every pick a candidate and none used more often than it occurs |
| Recommender.GreedyStep | backend/src/algorithms/recommender.py:106-113 | each later pick is the remaining candidate least similar to the picked ones, the earliest on a tie |
| Recommender.RouteLimit | backend/src/algorithms/recommender.py:193-194 | the limit of both routes (also lines 220-221) lies in [1, 50], defaults to 12, and equals the argument when it lies in range |
| AgeLabels.MonthsToAgeStr | backend/src/app.py:348-359 | `None` maps to `None`; otherwise the label of the months |
| AgeLabels.PluralUnlessOne | backend/src/app.py:352-358 | for a unit not ending in `s`, each count's label ends in `s` exactly when the count is not 1 |
| AgeLabels.AgeLabelLayout | backend/src/app.py:352-359 | under 12 months the months alone; from 12 the whole years (at least one) and, only for a non-zero remainder below 12, a space and the remaining months, with 12 × years + remainder = months; every unit singular exactly for 1 |
| AgeLabels.YearsAreNotMonths | backend/src/app.py:352-358 | a count of years never reads as a count of months |
| AgeLabels.AgeRoundTrip | backend/src/app.py:348-359 | reading back the label of any non-negative age gives that age, so distinct ages get distinct labels |
| Users.FirstMatch | backend/src/app.py:137-146 | the index found holds both the email and the password and no earlier record does; `None` exactly when none does |
| Users.UserStore.constructor | backend/src/app.py:111 | the collection starts empty |
| Users.UserStore.Signup | backend/src/app.py:102-125 | the new collection and the reply are `SignupOf` of the old collection |
| Users.UserStore.Login | backend/src/app.py:129-153 | the reply is `LoginOf` the collection, which is unchanged |
| Users.SignupOutcomes | backend/src/app.py:108-125 | a missing field gives 400, a registered email 409, both storing nothing; otherwise exactly one record is appended and its username and handle are echoed |
| Users.NewHandleShape | backend/src/app.py:120 | the handle is the username, a dash and eight characters |
| Users.SignupKeepsEmailsUnique | backend/src/app.py:111-123 | signup keeps every email on one record at most |
| Users.LoginOutcomes | backend/src/app.py:134-153 | 400 on a missing field, 401 iff no record has both values, otherwise the first match's username and `handle` or the username |
| Users.SignupThenLogin | backend/src/app.py:102-153 | logging in right after a signup answers with the username and handle signup gave |
| AdoptUrls.KeywordLinks | backend/src/app.py:179-185 | the found links hold no duplicates, never the base URL, and only same-domain URLs; `seen` is the base URL plus what was found |
| AdoptUrls.CandidateAdoptUrls | backend/src/app.py:175-198 | the two loops and the cut return `CandidateUrls` |
| AdoptUrls.FallbacksShape | backend/src/app.py:186-197 | the fallback loop keeps the found links as a prefix and appends only joined paths not seen |
| AdoptUrls.KeywordLinksComplete | backend/src/app.py:179-185 | a link is found iff it mentions a keyword, is on the base domain and is not the base URL |
| AdoptUrls.KeywordLinksInOrder | backend/src/app.py:179-185 | every found URL is the joined `href` of a keyword link, and the links behind the found URLs appear in strictly increasing document order |
| AdoptUrls.CandidateUrlsShape | backend/src/app.py:175-198 | at most six URLs, never the base URL, keyword links first, then joined fallback paths |
| AdoptUrls.CandidateUrlsDistinct | backend/src/app.py:175-198 | no URL repeats when the fallback paths join to distinct URLs |
| AdoptUrls.FallbacksDistinct | backend/src/app.py:186-197 | when the joined paths are distinct, the found list plus the fallbacks holds no duplicates, and each added URL is a joined path |
| Routes.ClientIpCases | backend/src/app.py:237-239 | no header gives the remote address; a value without a comma is used as it is; otherwise the stripped first hop |
| Routes.ClientIpFirstHop | backend/src/app.py:238-239 | a first hop cut from a list holds no comma and no surrounding whitespace |
| Routes.SpeechVoiceCases | backend/src/app.py:398-405 | missing text gives 400; otherwise the voice is `female` iff the gender lower-cases to `female`, else `male` |
| Routes.NearbyPostsOf | backend/src/app.py:261-277 | as many posts as there are elements, up to ten |
| Routes.NearbyPosts | backend/src/app.py:261-277 | the loop returns `NearbyPostsOf` the elements and the city |
| Routes.NearbyPostsShape | backend/src/app.py:261-277 | at most ten posts numbered from 1, each a shelter post with no likes, comments or media, named after its element or "Local Animal Shelter", with the element's `website` tag or "" as its website |
| Routes.NearbyPostsFindable | backend/src/app.py:267 | post ids are distinct, so each post is found by its id |
| FormControls.ValCases | frontend/pages/form.js:1-6 | `val` is `""` iff the element is missing or blank, is otherwise the value without its surrounding whitespace, and `checked` is false without the element |
| FormControls.Keys | frontend/pages/form.js:11-48 | the keys of an object in order |
| FormControls.Lookup | frontend/pages/form.js:11-48 | a member is found iff some member has the key |
| FormControls.FieldsReadFromElements | frontend/pages/form.js:11-48 | each field's key holds the value read from its element id |
| FormControls.MissingRequiredCases | frontend/pages/form.js:50-56 | a submission is refused iff trimmed `firstName`, `lastName` or `email` is empty |
| FormControls.MessageOr | frontend/pages/form.js:89-93 | the alert is the message when it is non-empty, the fallback exactly when the message is empty, and never empty |
| FosterForm.PayloadShape | frontend/pages/form.js:11-48 | the payload has exactly the groups `personal`, `fosterOptions`, `household`, `criteria`, each field holding its element's value |
| FosterForm.GroupField | frontend/pages/form.js:11-48 | each field of a group sits under that group with its element's value |
| FosterForm.FosterFormPage.constructor | frontend/pages/form.js:58-60 | the page starts enabled, labelled "Submit Application", with nothing sent |
| FosterForm.FosterFormPage.OnSubmit | frontend/pages/form.js:50-94 | the new page state is `SubmitOf` the old one, the elements and the outcome |
| FosterForm.SubmitOutcomes | frontend/pages/form.js:50-94 | a missing field only alerts; otherwise one request with the payload to `/api/foster-interest`, success confirms with the button disabled, failure alerts the failure's message, or the fallback when it is empty, and restores the button |
| FosterForm.FailureCases | frontend/pages/form.js:62-69 | only an ok response succeeds; otherwise the error is `j.message` or `Error <status>` |
| FosterForm.FailureRestoresButton | frontend/pages/form.js:89-93 | after any failure the button is enabled and labelled as at the start |
| ApplicationForm.HeadersCases | frontend/form.js:10-14 | the `Authorization: Bearer <token>` header is added iff the token is non-empty, and the content type is always JSON |
| ApplicationForm.SubmitResultCases | frontend/form.js:9-26 | success iff `r.ok` and `j.ok`; otherwise `j.error` or `Submit failed (<status>)` |
| ApplicationForm.EmptyBodyFails | frontend/form.js:19-24 | a reply that is not JSON never succeeds |
| ApplicationForm.PayloadShape | frontend/form.js:37-74 | `step1`–`step4` in order, `criteria` nested in `step4`, every field holding its element's value |
| ApplicationForm.CriteriaField | frontend/form.js:66-72 | each criteria field sits under `step4.criteria` with its element's value |
| ApplicationForm.StepField | frontend/form.js:37-65 | each field of a step sits under that step with its element's value |
| ApplicationForm.ApplicationFormPage.constructor | frontend/form.js:81-83 | the page starts enabled, labelled "Submit", with nothing sent |
| ApplicationForm.ApplicationFormPage.SubmitApplication | frontend/form.js:9-26 | one request to the pet's `apply` URL with the built headers and payload is logged, and the result is `SubmitResult` of the outcome |
| ApplicationForm.ApplicationFormPage.OnSubmit | frontend/form.js:31-96 | the new page state is `SubmitOf` the old one, the query, the storage and the outcome |
| ApplicationForm.SubmitOutcomes | frontend/form.js:31-96 | no `petId` or a missing field only alerts; otherwise one request, the button restored on both outcomes; success alerts the confirmation with the application id and moves to `/`, failure alerts the error or `Error` |
| LoginPage.LoginForm.constructor | frontend/pages/login.js:1-13 | the page starts with the given storage and no alerts |
| LoginPage.LoginForm.Submit | frontend/pages/login.js:3-13 | the new page state is `LoginOf` the old one and the elements |
| LoginPage.LoginOutcomes | frontend/pages/login.js:3-13 | a blank or missing email or password is refused and nothing is stored; otherwise the trimmed email is stored under `demoUserEmail`, nothing else changes, and the page moves to `/` |
| LoginPage.LoginKeepsToken | frontend/pages/login.js:10 | the login leaves the stored token unchanged |
| PetListPage.GenderLabelCases | frontend/pages/main.js:6-11 | `male`/`female` in any case give `Male`/`Female`; anything else, missing included, gives `Unknown` |
| PetListPage.GenderLabelIgnoresCase | frontend/pages/main.js:6-11 | only the letter case of the value matters |
| PetListPage.CardFallbacks | frontend/pages/main.js:13-57 | the placeholder image iff `coverImageUrl` is falsy, the name falls back to `Unnamed`, the urgency line is `whyUrgent[0]`, else a truthy `urgentReason`, else left out |
| PetListPage.Cards | frontend/pages/main.js:73-76 | one card per pet |
| PetListPage.LoadOutcomes | frontend/pages/main.js:59-90 | the hint reads "No pets found" iff both lists loaded empty, the failure text iff a fetch failed, `""` otherwise; each list has one card per pet in order |
| PetPage.ItemList.constructor | frontend/pages/pet.js:10-11 | a list starts empty |
| PetPage.ItemList.SetList | frontend/pages/pet.js:10-23 | the `forEach` loop leaves exactly `Listed(arr)` in the list |
| PetPage.ListedCases | frontend/pages/pet.js:10-23 | the list is never empty; it holds a non-empty array's items in order, and exactly one `—` for an empty or null array |
| PetPage.ShownFallbacks | frontend/pages/pet.js:60-71 | energy reads `N/5` when present, 0 included, and `—` only when missing; medical `yes`/`no`; the name falls back to `Unnamed` |
| PetPage.LoadCases | frontend/pages/pet.js:25-41 | a load succeeds iff `ok`; otherwise it fails with `j.error` or the fixed fallback, never empty |
| PetPage.InitOutcomes | frontend/pages/pet.js:50-97 | a missing `petId` shows the error and fetches nothing; the match is fetched only after the pet; the error box is hidden iff both loaded |

## Left out

- Text to speech (`speakAnimalDescription`, the ElevenLabs call): audio and a foreign service. Only the input checks and the voice choice of `generate_animal_speech` are modelled.
- The shelter map search (Leaflet, Nominatim, Overpass) and the Overpass request of `nearby_posts`: network services. Only the element → post mapping is modelled, over the parsed `elements` and the city as inputs.
- The city lookup of `get_user_location` through ip-api.com: a network call. Only the header parse is modelled.
- Gemini extraction, page fetching and scraping, and HTML unescaping. URL joining, URL parsing and the page's links are inputs of `_candidate_adopt_urls`.
- `compute_urgency`, `_days_since`, `_ts_to_dt`, and the rounding of `daysInShelter`/`urgencyScore`: floating point and the clock. `build_why_urgent` takes the days as an input.
- Float-valued similarity and energy fields: the model uses integers, with the same comparisons.
- HTML templates, DOM updates, icon creation, timers and animations, the scroll illusion, dark mode, and the toast's timeout. The toast is modelled as its title and message.
- `handlePanelAuth` (frontend/app.js:161-189): the panel applies the same local checks and the same success updates as `handleAuthSubmit`, which is modelled, but the panel is not modelled apart from being opened. It differs in four visible texts: its local-check errors end in a period ('Invalid email address.' and 'Password must be 6+ characters.' at lines 166-167, where the modal's at lines 298-299 do not); on a failed reply it shows `data.message` or else 'Something went wrong.' (the modal shows `data.message` as it is); and its sign-in toast says 'Signed in!' where the modal's says 'Logged in!'.
- Navigation.History.Back: the session history is modelled as starting at the application's first entry. A `history.back()` there, which in a browser leaves the application for the previous document, is modelled as changing nothing; `ClientState.GoBack` inherits this.
- `frontend/main.js`: markup that duplicates the card fallbacks of `frontend/pages/main.js`. `ip-grabber.py` and `backend/src/ip-grabber.py` are network-only lookups. `recommendsystem/*` is not part of this model.
- Firestore I/O and query order: the user collection is a sequence, and `results[0]` is the first match in insertion order.
- The abort timeout of `loadAnimals`: this is a timer. A timeout reads like any failed fetch.
- `int(...)`, `float(...)` and `bool(...)` parsing of request arguments and fields, including the `ValueError` of a bad `limit`: fields arrive already typed.
- `AgeLabels.AgeRoundTrip` and `AgeLabels.ParseAge`: they cover non-negative months only. A negative `months` is still labelled by `MonthsToAgeStr` as the source does.
- Case conversion is ASCII only, and string lengths count Dafny characters rather than UTF-16 units.
- Properties inherited from `Object.prototype` (such as a tab named `constructor`) are not modelled.
- JSON `null` in a reply is treated like a missing field. `JSON.stringify` is not modelled: a payload is a JSON value with its members in declaration order.
- Asynchronous interleavings: each handler runs to its end with the reply it got. The intermediate "Submitting…" label is not part of the final state.
- The listeners that re-run `refreshMatch` when a preference changes: they repeat the same match request that `InitOf` models.
- A reply to `loadPet` whose `ok` holds but whose `pet` is missing (a `TypeError`): the pet is a field of the reply.
- `String(err)` of an error without a message prints as `Error`.
- Users.UserStore.Signup: the UUID's hex digits are an input, so the model does not show that two signups get different handles.
- ClientProps.AuthAccepted: the handle shown comes from the reply. The locally stored user profile is modelled only as far as a reload reads it.
