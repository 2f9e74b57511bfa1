/** Properties of the client state machine in ClientState: the login guard,
    like-toggle symmetry, the comment and post rules, navigation and history,
    authentication, storage round trips and the preserved invariant. */
module ClientProps {
  import opened Wrappers
  import opened Strings
  import opened Feed
  import opened Navigation
  import opened ClientState

  // ---------------------------------------------------------------------
  // Login guard
  // ---------------------------------------------------------------------

  /** Logged out, the post and chat handlers only open the login modal and the
      animal-card handlers only open the login panel. */
  lemma LoggedOutOnlyPrompts(s: AppState, postId: int, animalId: string, text: string, field: Option<string>, time: string)
    requires !s.view.isLoggedIn
    ensures ToggleLike(s, postId) == PromptLogin(s)
    ensures SubmitComment(s, postId, text) == PromptLogin(s)
    ensures SendChat(s, field, time) == PromptLogin(s)
    ensures OpenCompose(s) == PromptLogin(s)
    ensures ToggleStar(s, animalId) == PromptLoginPanel(s)
    ensures SubmitAnimalComment(s, animalId, field) == PromptLoginPanel(s)
  {
  }

  // ---------------------------------------------------------------------
  // Likes
  // ---------------------------------------------------------------------

  lemma {:induction false} WithoutAbsent(xs: seq<int>, v: int)
    requires v !in xs
    ensures Without(xs, v) == xs
  {
    if xs != [] {
      assert xs == [xs[0]] + xs[1..];
      WithoutAbsent(xs[1..], v);
    }
  }

  lemma {:induction false} WithoutAppended(xs: seq<int>, v: int)
    requires v !in xs
    ensures Without(xs + [v], v) == xs
  {
    if xs == [] {
      assert [v][1..] == [];
    } else {
      assert (xs + [v])[1..] == xs[1..] + [v];
      WithoutAppended(xs[1..], v);
      assert xs == [xs[0]] + xs[1..];
    }
  }

  /** Logged in, a like on an existing post moves its count by exactly one,
      flips its membership in `likedPosts`, leaves the other ids of the list
      and every other post as they were. */
  lemma ToggleLikeFlips(s: AppState, postId: int, i: nat)
    requires s.view.isLoggedIn && FindPost(s.posts, postId) == Some(i)
    ensures var r := ToggleLike(s, postId);
      && (postId in r.view.likedPosts <==> postId !in s.view.likedPosts)
      && (forall x :: x != postId ==> (x in r.view.likedPosts <==> x in s.view.likedPosts))
      && |r.posts| == |s.posts|
      && r.posts[i] == s.posts[i].(likes := s.posts[i].likes + if postId in s.view.likedPosts then -1 else 1)
      && (forall j :: 0 <= j < |s.posts| && j != i ==> r.posts[j] == s.posts[j])
  {
  }

  lemma {:induction false} FindPostById(posts: seq<Post>, other: seq<Post>, id: int)
    requires |other| == |posts|
    requires forall j :: 0 <= j < |posts| ==> other[j].id == posts[j].id
    ensures FindPost(other, id) == FindPost(posts, id)
  {
    if posts != [] {
      FindPostById(posts[1..], other[1..], id);
    }
  }

  /** Raising and then lowering (or lowering and then raising) the same post's
      count restores every post. */
  lemma {:induction false} BumpLikesUndone(posts: seq<Post>, id: int, delta: int)
    ensures BumpLikes(BumpLikes(posts, id, delta), id, -delta) == posts
  {
    var once := BumpLikes(posts, id, delta);
    FindPostById(posts, once, id);
    var twice := BumpLikes(once, id, -delta);
    assert forall j :: 0 <= j < |posts| ==> twice[j] == posts[j];
  }

  /** Logged in, a like changes the liked list and the posts as `FlipLiked` and
      `BumpLikes` say, and keeps the session. */
  lemma ToggleLikeParts(s: AppState, postId: int)
    requires s.view.isLoggedIn
    ensures var r := ToggleLike(s, postId);
      && r.view.isLoggedIn
      && r.view.likedPosts == FlipLiked(s.view.likedPosts, postId)
      && r.posts == BumpLikes(s.posts, postId, if postId in s.view.likedPosts then -1 else 1)
  {
  }

  /** Two likes of the same post restore its count and the set of liked ids;
      when the post was not liked before, the list itself comes back. */
  lemma {:induction false} ToggleLikeTwice(s: AppState, postId: int)
    requires s.view.isLoggedIn
    ensures var r := ToggleLike(ToggleLike(s, postId), postId);
      && r.posts == s.posts
      && (forall x :: x in r.view.likedPosts <==> x in s.view.likedPosts)
      && (postId !in s.view.likedPosts ==> r.view.likedPosts == s.view.likedPosts)
  {
    var t := ToggleLike(s, postId);
    var wasLiked := postId in s.view.likedPosts;
    ToggleLikeParts(s, postId);
    ToggleLikeParts(t, postId);
    BumpLikesUndone(s.posts, postId, if wasLiked then -1 else 1);
    if !wasLiked {
      WithoutAppended(s.view.likedPosts, postId);
    }
  }

  // ---------------------------------------------------------------------
  // Comments, chat and posts
  // ---------------------------------------------------------------------

  /** A blank comment changes nothing. */
  lemma {:induction false} BlankCommentIgnored(s: AppState, postId: int, input: string)
    requires s.view.isLoggedIn && IsBlank(input)
    ensures SubmitComment(s, postId, input) == s
  {
    TrimBlank(input);
  }

  /** A non-blank comment on an existing post appends exactly one comment, by
      the current user with the trimmed text, and touches no other post. */
  lemma {:induction false} CommentAppended(s: AppState, postId: int, input: string, i: nat)
    requires s.view.isLoggedIn && !IsBlank(input) && FindPost(s.posts, postId) == Some(i)
    ensures var r := SubmitComment(s, postId, input);
      && |r.posts| == |s.posts|
      && r.posts[i] == s.posts[i].(comments := s.posts[i].comments + [Comment(s.view.myProfile.name, Trim(input))])
      && (forall j :: 0 <= j < |s.posts| && j != i ==> r.posts[j] == s.posts[j])
  {
    TrimBlank(input);
  }

  /** A blank or missing chat field sends nothing; otherwise exactly one message
      from the user is appended to the transcript of the open chat. */
  lemma {:induction false} ChatAppended(s: AppState, field: Option<string>, time: string)
    requires s.view.isLoggedIn
    ensures field.None? || IsBlank(field.value) ==> SendChat(s, field, time) == s
    ensures field.Some? && !IsBlank(field.value) ==>
      var r := SendChat(s, field, time);
      var before := if s.view.activeChatId in s.chatHistory then s.chatHistory[s.view.activeChatId] else [];
      && s.view.activeChatId in r.chatHistory && r.chatHistory[s.view.activeChatId] == before + [ChatMessage(Me, Trim(field.value), time)]
      && (forall k :: k != s.view.activeChatId ==> (k in r.chatHistory <==> k in s.chatHistory))
      && (forall k :: k != s.view.activeChatId && k in s.chatHistory ==> r.chatHistory[k] == s.chatHistory[k])
  {
    if field.Some? {
      TrimBlank(field.value);
    }
  }

  /** A blank post only raises the error toast; a non-blank one is prepended
      with no likes and no comments, by the current user, and the client ends on
      the explore tab. */
  lemma {:induction false} PostSubmitted(s: AppState, input: string, now: int, media: string)
    ensures IsBlank(input) ==>
      SubmitPost(s, input, now, media) == ShowToast(s, "Error", "Content cannot be empty")
    ensures !IsBlank(input) ==>
      var r := SubmitPost(s, input, now, media);
      && |r.posts| == |s.posts| + 1 && r.posts[1..] == s.posts
      && r.posts[0].likes == 0 && r.posts[0].comments == [] && r.posts[0].poster == s.view.myProfile.name
      && r.posts[0].text == Trim(input) && r.posts[0].id == now && r.posts[0].media == media
      && r.view.activeTab == "explore" && r.view.activeChatId == None && r.overlay.modal == ModalClosed
      && r.overlay.toasts == s.overlay.toasts + [Toast("Success", "Moment shared!")]
  {
    TrimBlank(input);
  }

  // ---------------------------------------------------------------------
  // Navigation
  // ---------------------------------------------------------------------

  /** `switchTab(t, push)` always lands on `t` with no chat open; it pushes
      exactly one entry, carrying `t` and its path, when asked to and leaves the
      history alone otherwise. */
  lemma SwitchTabHistory(s: AppState, tab: string, push: bool)
    requires s.history.Valid()
    ensures var r := SwitchTab(s, tab, push);
      && r.view.activeTab == tab && r.view.activeChatId == None
      && r.history.Valid()
      && (push ==>
            r.history.entries == s.history.entries[..s.history.index + 1] + [HistoryEntry(Some(tab), PathFor(tab))] &&
            r.history.index == s.history.index + 1)
      && (!push ==> r.history == s.history)
  {
  }

  /** The popstate handler resolves the tab from the entry, clears the chat and
      leaves the history to the browser. */
  lemma PopStateResolves(s: AppState, entryTab: Option<string>)
    ensures var r := PopState(s, entryTab);
      && r.view.activeTab == (if Truthy(entryTab) then entryTab.value else "explore")
      && r.view.activeChatId == None && r.history == s.history
  {
  }

  /** Back with a chat open closes only the chat: in a valid state, where an
      open chat is on the friends tab and so the render fetches nothing, the
      whole state is otherwise unchanged. Without one it steps the history
      back and the popstate handler restores that entry's tab. */
  lemma GoBackCases(s: AppState)
    requires s.history.Valid()
    ensures ChatActive(s.view) ==>
      var r := GoBack(s);
      r.view.activeChatId == None && r.view.activeTab == s.view.activeTab && r.history == s.history
    ensures Valid(s) && ChatActive(s.view) ==> GoBack(s) == s.(view := s.view.(activeChatId := None))
    ensures !ChatActive(s.view) && s.history.index > 0 ==>
      var r := GoBack(s);
      && r.history.entries == s.history.entries && r.history.index == s.history.index - 1
      && r.view.activeTab == OrElse(s.history.entries[s.history.index - 1].tab, "explore")
      && r.view.activeChatId == None
    ensures !ChatActive(s.view) && s.history.index == 0 ==> GoBack(s) == s
  {
  }

  /** Switching tabs and pressing back returns to the tab that was showing,
      when the current entry records it, with the history index restored. */
  lemma {:induction false} SwitchThenBack(s: AppState, tab: string)
    requires s.history.Valid() && s.history.Current().tab == Some(s.view.activeTab) && s.view.activeTab != ""
    ensures var r := GoBack(SwitchTab(s, tab, true));
      && r.view.activeTab == s.view.activeTab && r.view.activeChatId == None
      && r.history.index == s.history.index
      && r.history.entries[..r.history.index + 1] == s.history.entries[..s.history.index + 1]
  {
    var t := SwitchTab(s, tab, true);
    SwitchTabHistory(s, tab, true);
    assert !ChatActive(t.view);
    var h := t.history.Back();
    assert h.Current() == s.history.Current();
    assert h.entries[..h.index + 1] == s.history.entries[..s.history.index + 1];
  }

  /** Start-up resolves the tab from the path (a path of the table gives its tab,
      which maps back to that path; any other path gives explore) and replaces
      the current history entry instead of adding one. */
  lemma {:induction false} InitialNavigation(token: Option<string>, profile: Option<Profile>, start: History)
    requires start.Valid()
    ensures var r := Initial(token, profile, start);
      var path := start.Current().path;
      && |r.history.entries| == |start.entries| && r.history.index == start.index
      && r.history.Current() == HistoryEntry(Some(r.view.activeTab), path)
      && (KnownPath(path) ==> KnownTab(r.view.activeTab) && PathFor(r.view.activeTab) == path)
      && (!KnownPath(path) ==> r.view.activeTab == "explore")
      && r.view.activeChatId == None
      && r.view.isLoggedIn == Truthy(token)
  {
    var path := start.Current().path;
    if KnownPath(path) {
      PathTabRoundTrip(path);
    }
  }

  // ---------------------------------------------------------------------
  // Authentication
  // ---------------------------------------------------------------------

  /** An email without `@` or a password shorter than six characters is
      rejected on the spot: no request is made and only the error is shown. */
  lemma AuthRejectedLocally(s: AppState, mode: string, email: string, password: string, user: Option<string>, reply: AuthReply)
    ensures !Contains(Trim(email), "@") ==>
      AuthSubmit(s, mode, email, password, user, reply) == AuthError(s, "Invalid email address")
    ensures Contains(Trim(email), "@") && |password| < 6 ==>
      AuthSubmit(s, mode, email, password, user, reply) == AuthError(s, "Password must be 6+ characters")
  {
  }

  /** A well-formed signup sends the trimmed email and, when the username field
      is blank or missing, the part of the email before `@` as the username. */
  lemma {:induction false} SignupUsernameDefault(email: string, password: string, user: Option<string>)
    requires Contains(Trim(email), "@") && |password| >= 6
    ensures var req := AuthRequestFor("signup", email, password, user);
      && req.Ok? && req.value.endpoint == "/api/signup"
      && req.value.body.email == Trim(email)
      && (user.None? || IsBlank(user.value) ==> req.value.body.username == Some(BeforeFirst(Trim(email), '@')))
      && (user.Some? && !IsBlank(user.value) ==> req.value.body.username == Some(Trim(user.value)))
  {
    if user.Some? {
      TrimBlank(user.value);
    }
    assert Trim("") == "";
  }

  /** A well-formed login sends exactly the trimmed email and the password. */
  lemma LoginRequest(email: string, password: string, user: Option<string>, mode: string)
    requires Contains(Trim(email), "@") && |password| >= 6 && mode != "signup"
    ensures AuthRequestFor(mode, email, password, user) == Ok(AuthRequest("/api/login", AuthBody(Trim(email), password, None)))
  {
  }

  /** A successful reply logs the user in under the returned name, with the
      returned handle or else the name, stores the session under the email
      sent, and logs one request. */
  lemma AuthAccepted(s: AppState, mode: string, req: AuthRequest, name: string, handle: Option<string>)
    ensures var r := AuthReplied(s, mode, req, Accepted(name, handle));
      && r.view.isLoggedIn && r.overlay.modal == ModalClosed
      && r.view.myProfile.name == name && r.view.myProfile.avatarSeed == name
      && r.view.myProfile.handle == (if Truthy(handle) then handle.value else name)
      && r.view.myProfile.bio == s.view.myProfile.bio
      && r.storage.token == Some(req.body.email) && r.storage.profile == Some(r.view.myProfile)
      && r.authRequests == s.authRequests + [req]
  {
  }

  /** A failed request shows the server's message (or the generic one) and
      leaves the session as it was. */
  lemma AuthFailed(s: AppState, mode: string, req: AuthRequest, reply: AuthReply)
    requires !reply.Accepted?
    ensures var r := AuthReplied(s, mode, req, reply);
      && r.view.isLoggedIn == s.view.isLoggedIn && r.view.myProfile == s.view.myProfile && r.storage.token == s.storage.token
      && r.overlay.authError == Some(if reply.NetworkFailure? then "Something went wrong. Please try again." else reply.message.GetOr(""))
      && r.authRequests == s.authRequests + [req]
  {
  }

  /** A submission that passes the local checks sends its request and then
      follows the reply. */
  lemma AuthSent(s: AppState, mode: string, email: string, password: string, user: Option<string>, reply: AuthReply)
    requires Contains(Trim(email), "@") && |password| >= 6
    ensures AuthRequestFor(mode, email, password, user).Ok?
    ensures AuthSubmit(s, mode, email, password, user, reply)
         == AuthReplied(s, mode, AuthRequestFor(mode, email, password, user).value, reply)
  {
  }

  // ---------------------------------------------------------------------
  // Profile and storage
  // ---------------------------------------------------------------------

  /** A non-blank name is saved (untrimmed) with the bio, stored, and survives a
      reload; a blank name changes nothing. */
  lemma {:induction false} EditSaveSurvivesReload(s: AppState, name: string, bio: string, start: History)
    requires start.Valid()
    ensures IsBlank(name) ==> EditSave(s, name, bio) == s
    ensures !IsBlank(name) ==>
      var r := EditSave(s, name, bio);
      && r.view.myProfile == s.view.myProfile.(name := name, bio := bio)
      && r.view.activeTab == "profile"
      && Initial(r.storage.token, r.storage.profile, start).view.myProfile == r.view.myProfile
  {
    TrimBlank(name);
  }

  /** After logging out, the session is gone and a reload starts logged out
      with the default profile. */
  lemma LogoutSurvivesReload(s: AppState, start: History)
    requires start.Valid()
    ensures var r := Logout(s);
      && !r.view.isLoggedIn && r.view.activeTab == "explore" && r.view.activeChatId == None
      && !Initial(r.storage.token, r.storage.profile, start).view.isLoggedIn
      && Initial(r.storage.token, r.storage.profile, start).view.myProfile == DefaultProfile
  {
  }

  /** Starring twice restores the star; one star flips it and no other animal's. */
  lemma StarToggle(s: AppState, id: string, other: string)
    requires s.view.isLoggedIn && other != id
    ensures Starred(ToggleStar(s, id).view, id) == !Starred(s.view, id)
    ensures Starred(ToggleStar(s, id).view, other) == Starred(s.view, other)
    ensures Starred(ToggleStar(ToggleStar(s, id), id).view, id) == Starred(s.view, id)
  {
  }

  /** Animal comments follow the post comment rule: blank input is ignored,
      otherwise one comment is appended to that animal's list only. */
  lemma {:induction false} AnimalCommentAppended(s: AppState, id: string, field: Option<string>)
    requires s.view.isLoggedIn
    ensures field.None? || IsBlank(field.value) ==> SubmitAnimalComment(s, id, field) == s
    ensures field.Some? && !IsBlank(field.value) ==>
      var r := SubmitAnimalComment(s, id, field);
      var before := if id in s.view.animalComments then s.view.animalComments[id] else [];
      && id in r.view.animalComments && r.view.animalComments[id] == before + [Comment(s.view.myProfile.name, Trim(field.value))]
      && (forall k :: k != id && k in s.view.animalComments ==> k in r.view.animalComments && r.view.animalComments[k] == s.view.animalComments[k])
  {
    if field.Some? {
      TrimBlank(field.value);
    }
  }

  // ---------------------------------------------------------------------
  // Fetching the animals
  // ---------------------------------------------------------------------

  /** The fetch result is kept only when it is a non-empty list; the flag is set
      whatever came back, after which rendering starts no further fetch. */
  lemma {:induction false} AnimalsLoadedOnce(s: AppState, data: Option<seq<Animal>>)
    ensures var r := AnimalsLoaded(s, data);
      && r.animalsLoaded
      && r.animals == (if data.Some? && |data.value| > 0 then data.value else s.animals)
      && r.animalFetches == s.animalFetches
      && Render(r) == r
  {
  }

  /** Every render before the reply arrives starts another request: two renders
      on the explore tab while loading mean two fetches. */
  lemma RendersWhileLoading(s: AppState)
    requires WantsAnimals(s)
    ensures Render(Render(s)).animalFetches == s.animalFetches + 2
  {
  }

  // ---------------------------------------------------------------------
  // The invariant
  // ---------------------------------------------------------------------

  /** The start state is valid. */
  lemma InitialValid(token: Option<string>, profile: Option<Profile>, start: History)
    requires start.Valid()
    ensures Valid(Initial(token, profile, start))
  {
  }

  /** An action that leaves the navigation fields and the liked list alone
      keeps the state valid. */
  predicate SameNavigation(s: AppState, r: AppState) {
    r.history == s.history && r.view.activeTab == s.view.activeTab && r.view.activeChatId == s.view.activeChatId
    && r.view.likedPosts == s.view.likedPosts
  }

  /** Every tab switch keeps the state valid. */
  lemma SwitchTabValid(s: AppState, tab: string, push: bool)
    requires Valid(s)
    ensures Valid(SwitchTab(s, tab, push))
  {
  }

  lemma {:induction false} LikeValid(s: AppState, id: int)
    requires Valid(s)
    ensures Valid(ToggleLike(s, id))
  {
    if s.view.isLoggedIn {
      ToggleLikeParts(s, id);
    }
  }

  lemma BackValid(s: AppState)
    requires Valid(s)
    ensures Valid(GoBack(s))
  {
  }

  lemma PopStateValid(s: AppState, entryTab: Option<string>)
    requires Valid(s)
    ensures Valid(PopState(s, entryTab))
  {
  }

  lemma ChooseChatValid(s: AppState, id: int)
    requires Valid(s) && s.view.activeTab == "friends"
    ensures Valid(OpenChat(s, id))
  {
  }

  lemma LoadValid(s: AppState, data: Option<seq<Animal>>)
    requires Valid(s)
    ensures Valid(AnimalsLoaded(s, data))
  {
  }

  lemma CommentValid(s: AppState, id: int, input: string)
    requires Valid(s)
    ensures Valid(SubmitComment(s, id, input))
  {
  }

  lemma ChatValid(s: AppState, input: Option<string>, time: string)
    requires Valid(s)
    ensures Valid(SendChat(s, input, time))
  {
  }

  lemma EditProfileValid(s: AppState)
    requires Valid(s) && s.view.activeTab == "profile"
    ensures Valid(OpenEditProfile(s))
  {
  }

  lemma ComposeValid(s: AppState)
    requires Valid(s)
    ensures Valid(OpenCompose(s))
  {
  }

  lemma PublishValid(s: AppState, input: string, now: int, media: string)
    requires Valid(s)
    ensures Valid(SubmitPost(s, input, now, media))
  {
    var s1 := s.(posts := [Post(now, s.view.myProfile.name, false, "", Trim(input), media, 0, "Local", [])] + s.posts,
                 overlay := s.overlay.(modal := ModalClosed));
    SwitchTabValid(s1, "explore", true);
  }

  lemma LogoutValid(s: AppState)
    requires Valid(s)
    ensures Valid(Logout(s))
  {
    SwitchTabValid(s.(storage := Storage(None, None), view := s.view.(isLoggedIn := false)), "explore", true);
  }

  lemma SaveValid(s: AppState, name: string, bio: string)
    requires Valid(s)
    ensures Valid(EditSave(s, name, bio))
  {
    var p := s.view.myProfile.(name := name, bio := bio);
    SwitchTabValid(s.(view := s.view.(myProfile := p), storage := s.storage.(profile := Some(p))), "profile", true);
  }

  lemma StarValid(s: AppState, id: string)
    requires Valid(s)
    ensures Valid(ToggleStar(s, id))
  {
  }

  lemma AnimalCommentValid(s: AppState, id: string, input: Option<string>)
    requires Valid(s)
    ensures Valid(SubmitAnimalComment(s, id, input))
  {
  }

  lemma SearchValid(s: AppState, q: string)
    requires Valid(s)
    ensures Valid(UpdateSearch(s, q))
  {
  }

  lemma AuthValid(s: AppState, mode: string, email: string, pass: string, user: Option<string>, reply: AuthReply)
    requires Valid(s)
    ensures Valid(AuthSubmit(s, mode, email, pass, user, reply))
  {
    match AuthRequestFor(mode, email, pass, user)
    case Err(_) =>
    case Ok(req) => assert SameNavigation(s, AuthReplied(s, mode, req, reply));
  }

  /** The navigation actions keep the state valid. */
  lemma NavigationStepValid(s: AppState, a: Action)
    requires Valid(s) && Offered(s, a)
    requires a.SwitchTabTo? || a.Back? || a.PopStateTo? || a.ChooseChat? || a.LoadFinished? || a.Search?
    ensures Valid(Step(s, a))
  {
    if a.SwitchTabTo? {
      SwitchTabValid(s, a.tab, a.push);
    } else if a.Back? {
      BackValid(s);
    } else if a.PopStateTo? {
      PopStateValid(s, a.entryTab);
    } else if a.ChooseChat? {
      ChooseChatValid(s, a.id);
    } else if a.LoadFinished? {
      LoadValid(s, a.data);
    } else {
      SearchValid(s, a.query);
    }
  }

  /** The feed, chat and animal actions keep the state valid. */
  lemma ContentStepValid(s: AppState, a: Action)
    requires Valid(s)
    requires a.Like? || a.CommentOn? || a.Chat? || a.Publish? || a.Star? || a.CommentOnAnimal?
    ensures Valid(Step(s, a))
  {
    if a.Like? {
      LikeValid(s, a.postId);
    } else if a.CommentOn? {
      CommentValid(s, a.postId, a.input);
    } else if a.Chat? {
      ChatValid(s, a.chatInput, a.time);
    } else if a.Publish? {
      PublishValid(s, a.postInput, a.now, a.media);
    } else if a.Star? {
      StarValid(s, a.animalId);
    } else {
      AnimalCommentValid(s, a.animalId, a.animalInput);
    }
  }

  /** The profile and account actions keep the state valid. */
  lemma AccountStepValid(s: AppState, a: Action)
    requires Valid(s) && Offered(s, a)
    requires a.EditProfileButton? || a.Compose? || a.LogOut? || a.SaveProfile? || a.Authenticate?
    ensures Valid(Step(s, a))
  {
    if a.EditProfileButton? {
      EditProfileValid(s);
    } else if a.Compose? {
      ComposeValid(s);
    } else if a.LogOut? {
      LogoutValid(s);
    } else if a.SaveProfile? {
      SaveValid(s, a.name, a.bio);
    } else {
      AuthValid(s, a.mode, a.emailField, a.password, a.usernameField, a.reply);
    }
  }

  /** Every action the interface offers keeps the state valid. */
  lemma {:induction false} StepPreservesValid(s: AppState, a: Action)
    requires Valid(s) && Offered(s, a)
    ensures Valid(Step(s, a))
  {
    if a.SwitchTabTo? || a.Back? || a.PopStateTo? || a.ChooseChat? || a.LoadFinished? || a.Search? {
      NavigationStepValid(s, a);
    } else if a.Like? || a.CommentOn? || a.Chat? || a.Publish? || a.Star? || a.CommentOnAnimal? {
      ContentStepValid(s, a);
    } else {
      AccountStepValid(s, a);
    }
  }
}
