/** The single-page client's view state (frontend/app.js): the global `state`
    record, the module-level collections beside it (`posts`, `chatHistory`,
    `animals`, `animalsLoaded`), the browser history and durable storage, and
    one transition function per action handler.

    Each handler has the shape the source gives it: a login guard, then input
    validation, then the mutation, then a request to re-render. Browser inputs
    (text fields, the clock, server replies) are parameters. */
module ClientState {
  import opened Wrappers
  import opened Strings
  import opened Feed
  import opened Navigation

  // ---------------------------------------------------------------------
  // Data
  // ---------------------------------------------------------------------

  datatype Profile = Profile(name: string, handle: string, bio: string, avatarSeed: string)

  const DefaultProfile := Profile("Felix Nature", "Felix", "Wildlife enthusiast. Discovering nature's wonders. 🌱", "Felix")

  datatype Sender = Me | Them

  datatype ChatMessage = ChatMessage(sender: Sender, text: string, time: string)

  /** An adoptable animal as `/api/adoptable-animals` returns it. */
  datatype Animal = Animal(
    id: string,
    name: Option<string>,
    breeds: Option<string>,
    age: Option<string>,
    size: Option<string>,
    gender: Option<string>,
    description: Option<string>,
    shelter: Option<string>,
    location: Option<string>,
    image: Option<string>,
    urgency: Option<string>)

  /** What `#modal-root` shows. */
  datatype Modal = ModalClosed | LoginModal(signup: bool) | ComposeModal

  /** The login side panel. */
  datatype Panel = PanelClosed | PanelOpen(signup: bool)

  datatype Toast = Toast(title: string, message: string)

  datatype AuthBody = AuthBody(email: string, password: string, username: Option<string>)

  datatype AuthRequest = AuthRequest(endpoint: string, body: AuthBody)

  /** How an authentication request ended. `NetworkFailure` also covers a
      reply whose body is not JSON (the handler's `catch`). */
  datatype AuthReply =
    | NetworkFailure
    | Rejected(message: Option<string>)
    | Accepted(username: string, handle: Option<string>)

  /** The global `state` object (its `shelterLocation` belongs to the map
      search, which is not modelled). */
  datatype ViewState = ViewState(
    isLoggedIn: bool,
    activeTab: string,
    activeChatId: Option<int>,
    searchQuery: string,
    likedPosts: seq<int>,
    likedAnimals: map<string, bool>,
    animalComments: map<string, seq<Comment>>,
    myProfile: Profile)

  /** The two `localStorage` keys the client uses: `token` and `user_profile`. */
  datatype Storage = Storage(token: Option<string>, profile: Option<Profile>)

  /** What is drawn over the page: the modal, the login side panel, the
      authentication error line and the toasts shown so far. */
  datatype Overlay = Overlay(modal: Modal, loginPanel: Panel, authError: Option<string>, toasts: seq<Toast>)

  /** The whole client: the `state` object, the module-level collections beside
      it, the browser history and storage. `animalFetches` counts the requests
      to `/api/adoptable-animals`; `authRequests` logs the login and signup
      requests sent. */
  datatype AppState = AppState(
    view: ViewState,
    posts: seq<Post>,
    chatHistory: map<Option<int>, seq<ChatMessage>>,
    animals: seq<Animal>,
    animalsLoaded: bool,
    animalFetches: nat,
    history: History,
    storage: Storage,
    overlay: Overlay,
    authRequests: seq<AuthRequest>)

  const InitialPosts: seq<Post> := [
    Post(1, "John_Nature", false, "", "Caught this little fox taking a nap in the woods today. So peaceful!",
         "https://images.unsplash.com/photo-1517683201413-571216591730?auto=format&fit=crop&w=1200&q=80",
         128, "California, USA", [Comment("NatureLens", "Amazing shot!")]),
    Post(2, "Happy_Paws", true, "happypaws.org", "Max is a 2-year-old Golden mix waiting for his forever home! ❤️",
         "https://images.unsplash.com/photo-1552053831-71594a27632d?auto=format&fit=crop&w=1200&q=80",
         2100, "New York, USA", []),
    Post(3, "WildLens", false, "", "A stunning morning at the lake — spotted this heron right at sunrise. Nature never disappoints. 🌅",
         "https://images.unsplash.com/photo-1444464666168-49d633b86797?auto=format&fit=crop&w=1200&q=80",
         340, "Oregon, USA", [Comment("BirdWatch22", "What a capture!")]),
    Post(4, "San_Jose_Animal_Care", true, "sanjoseanimals.org", "Meet Luna! This 3-year-old tabby is looking for a quiet home. She loves cozy blankets and afternoon naps 🐱",
         "https://images.unsplash.com/photo-1519052537078-e6302a4968d4?auto=format&fit=crop&w=1200&q=80",
         876, "San José, CA", []),
    Post(5, "TrailPhoto", false, "", "Found this little turtle crossing the trail today. Took my time and waited for it to pass safely 🐢",
         "https://images.unsplash.com/photo-1437622368342-7a3d73a34c8f?auto=format&fit=crop&w=1200&q=80",
         512, "Texas, USA", [Comment("NatureKid", "So cute 🐢")])
  ]

  const InitialChats: map<Option<int>, seq<ChatMessage>> :=
    map[Some(1) := [ChatMessage(Them, "Hello! How can we help you today?", "10:00")]]

  // ---------------------------------------------------------------------
  // Invariant
  // ---------------------------------------------------------------------

  predicate NoDuplicates(xs: seq<int>) {
    forall i, j :: 0 <= i < j < |xs| ==> xs[i] != xs[j]
  }

  /** A chat is open only on the messages tab, `likedPosts` holds each post id
      at most once, and the history has a current entry. */
  predicate Valid(s: AppState) {
    && s.history.Valid()
    && (s.view.activeChatId.Some? ==> s.view.activeTab == "friends")
    && NoDuplicates(s.view.likedPosts)
  }

  /** `if (state.activeChatId)`: a chat id of 0 is falsy. */
  predicate ChatActive(v: ViewState) {
    v.activeChatId.Some? && v.activeChatId.value != 0
  }

  // ---------------------------------------------------------------------
  // Rendering and navigation
  // ---------------------------------------------------------------------

  /** `renderApp` on the explore tab before the animals have arrived shows the
      loading indicator and calls `loadAnimals()`. */
  predicate WantsAnimals(s: AppState) {
    s.view.isLoggedIn && s.view.activeTab == "explore" && !s.animalsLoaded
  }

  /** The state change `renderApp` makes: it starts one more animal fetch when
      `WantsAnimals` holds, and changes nothing else. */
  function Render(s: AppState): AppState {
    if WantsAnimals(s) then s.(animalFetches := s.animalFetches + 1) else s
  }

  /** `switchTab(tab, push)`. */
  function SwitchTab(s: AppState, tab: string, push: bool): AppState {
    var v := s.view.(activeTab := tab, activeChatId := None);
    var h := if push then s.history.Push(HistoryEntry(Some(tab), PathFor(tab))) else s.history;
    Render(s.(view := v, history := h))
  }

  /** The `popstate` listener, given the state object of the entry now current. */
  function PopState(s: AppState, entryTab: Option<string>): AppState {
    Render(s.(view := s.view.(activeTab := OrElse(entryTab, "explore"), activeChatId := None)))
  }

  /** `goBack()`: close the chat, or go back one history entry (the browser then
      fires `popstate`). The session history starts at the application's first
      entry, so there `history.back()` has nowhere to go and nothing changes. */
  function GoBack(s: AppState): AppState {
    if ChatActive(s.view) then Render(s.(view := s.view.(activeChatId := None)))
    else if 0 < s.history.index < |s.history.entries| then
      var h := s.history.Back();
      PopState(s.(history := h), h.Current().tab)
    else s
  }

  /** The contact-list click handler: `state.activeChatId = id; renderApp()`. */
  function OpenChat(s: AppState, id: int): AppState {
    Render(s.(view := s.view.(activeChatId := Some(id))))
  }

  /** The `state` object as the script creates it. */
  function InitialView(token: Option<string>, profile: Option<Profile>): ViewState {
    ViewState(Truthy(token), "explore", None, "", [], map[], map[], profile.GetOr(DefaultProfile))
  }

  /** The page before `DOMContentLoaded`, with the two storage keys and the
      history the page was opened with. */
  function Loaded(token: Option<string>, profile: Option<Profile>, start: History): AppState {
    AppState(InitialView(token, profile), InitialPosts, InitialChats, [], false, 0, start,
             Storage(token, profile), Overlay(ModalClosed, PanelClosed, None, []), [])
  }

  /** Script start and `DOMContentLoaded`: the session flag and profile come from
      storage, the tab from the current path; the current history entry is
      replaced (its path kept); then the first render. */
  function Initial(token: Option<string>, profile: Option<Profile>, start: History): AppState
    requires start.Valid()
  {
    var s := Loaded(token, profile, start);
    var path := start.Current().path;
    var tab := TabForPath(path);
    Render(s.(view := s.view.(activeTab := tab), history := start.Replace(HistoryEntry(Some(tab), path))))
  }

  /** The end of `loadAnimals()`: a non-empty array replaces the animals, the
      flag is set on every path (success, error, timeout), then a render. */
  function AnimalsLoaded(s: AppState, data: Option<seq<Animal>>): AppState {
    var animals := if data.Some? && |data.value| > 0 then data.value else s.animals;
    Render(s.(animals := animals, animalsLoaded := true))
  }

  // ---------------------------------------------------------------------
  // Action handlers
  // ---------------------------------------------------------------------

  /** `openLoginModal()`, which the post and chat handlers open when logged out. */
  function PromptLogin(s: AppState): AppState {
    s.(overlay := s.overlay.(modal := LoginModal(false)))
  }

  /** `openLoginPanel()`, which the animal-card handlers open when logged out. */
  function PromptLoginPanel(s: AppState): AppState {
    s.(overlay := s.overlay.(loginPanel := PanelOpen(false)))
  }

  /** `showToast(title, msg)`. */
  function ShowToast(s: AppState, title: string, message: string): AppState {
    s.(overlay := s.overlay.(toasts := s.overlay.toasts + [Toast(title, message)]))
  }

  /** `xs.filter(x => x !== v)`. */
  function Without(xs: seq<int>, v: int): (r: seq<int>)
    ensures forall x :: x in r <==> x in xs && x != v
    ensures |r| <= |xs|
    ensures NoDuplicates(xs) ==> NoDuplicates(r)
  {
    if xs == [] then []
    else
      var rest := Without(xs[1..], v);
      assert forall x :: x in xs[1..] ==> x in xs;
      assert NoDuplicates(xs) ==> NoDuplicates(xs[1..]) && xs[0] !in xs[1..];
      if xs[0] == v then rest
      else
        var r := [xs[0]] + rest;
        assert forall k :: 0 < k < |r| ==> r[k] == rest[k - 1];
        r
  }

  lemma {:induction false} AppendFresh(xs: seq<int>, v: int)
    requires NoDuplicates(xs) && v !in xs
    ensures NoDuplicates(xs + [v])
  {
    var r := xs + [v];
    forall i, j | 0 <= i < j < |r| ensures r[i] != r[j] {
      if j == |xs| {
        assert r[i] == xs[i];
      } else {
        assert r[i] == xs[i] && r[j] == xs[j];
      }
    }
  }

  /** The new `likedPosts`: the id is filtered out when present and pushed
      when absent. */
  function FlipLiked(liked: seq<int>, id: int): (r: seq<int>)
    ensures id in r <==> id !in liked
    ensures forall x :: x != id ==> (x in r <==> x in liked)
    ensures NoDuplicates(liked) ==> NoDuplicates(r)
  {
    if id in liked then Without(liked, id)
    else
      if NoDuplicates(liked) then AppendFresh(liked, id); liked + [id]
      else liked + [id]
  }

  /** `post.likes++` / `post.likes--` on the first post with that id; no post
      changes when there is none. */
  function BumpLikes(posts: seq<Post>, id: int, delta: int): (r: seq<Post>)
    ensures |r| == |posts|
    ensures forall j :: 0 <= j < |posts| ==> r[j].id == posts[j].id
    ensures FindPost(posts, id).None? ==> r == posts
    ensures FindPost(posts, id).Some? ==>
      var i := FindPost(posts, id).value;
      && r[i] == posts[i].(likes := posts[i].likes + delta)
      && forall j :: 0 <= j < |posts| && j != i ==> r[j] == posts[j]
  {
    match FindPost(posts, id)
    case None => posts
    case Some(i) => posts[i := posts[i].(likes := posts[i].likes + delta)]
  }

  /** `toggleLike(postId)`. When no post has that id, `post.likes` throws after
      `likedPosts` was already updated, so no render happens. */
  function ToggleLike(s: AppState, postId: int): AppState {
    if !s.view.isLoggedIn then PromptLogin(s)
    else
      var liked := s.view.likedPosts;
      var s1 := s.(view := s.view.(likedPosts := FlipLiked(liked, postId)),
                   posts := BumpLikes(s.posts, postId, if postId in liked then -1 else 1));
      if FindPost(s.posts, postId).Some? then Render(s1) else s1
  }

  /** `submitComment(postId)` with the comment field's text. A missing post makes
      `.comments` throw before anything changed. */
  function SubmitComment(s: AppState, postId: int, input: string): AppState {
    if !s.view.isLoggedIn then PromptLogin(s)
    else
      var text := Trim(input);
      if text == "" then s
      else match FindPost(s.posts, postId)
        case None => s
        case Some(i) =>
          var p := s.posts[i];
          Render(s.(posts := s.posts[i := p.(comments := p.comments + [Comment(s.view.myProfile.name, text)])]))
  }

  /** `sendChat()` with the chat field (absent when not mounted) and the formatted
      clock time. The transcript key is `activeChatId` as it is, even `null`. */
  function SendChat(s: AppState, input: Option<string>, time: string): AppState {
    if !s.view.isLoggedIn then PromptLogin(s)
    else if input.None? || Trim(input.value) == "" then s
    else
      var key := s.view.activeChatId;
      var transcript := if key in s.chatHistory then s.chatHistory[key] else [];
      Render(s.(chatHistory := s.chatHistory[key := transcript + [ChatMessage(Me, Trim(input.value), time)]]))
  }

  /** The profile view's "Edit Profile" button: `state.activeTab = 'edit-profile';
      renderApp()`, without a history entry. */
  function OpenEditProfile(s: AppState): AppState {
    Render(s.(view := s.view.(activeTab := "edit-profile")))
  }

  /** `openCreatePostModal()`. */
  function OpenCompose(s: AppState): AppState {
    if !s.view.isLoggedIn then PromptLogin(s) else s.(overlay := s.overlay.(modal := ComposeModal))
  }

  /** `handlePostSubmit()` with the compose field's text, `Date.now()` as the id
      and the media URL new posts get (`""` in one branch of the source's
      unresolved merge, a placeholder photo in the other). */
  function SubmitPost(s: AppState, input: string, now: int, media: string): AppState {
    var text := Trim(input);
    if text == "" then ShowToast(s, "Error", "Content cannot be empty")
    else
      var post := Post(now, s.view.myProfile.name, false, "", text, media, 0, "Local", []);
      var s1 := s.(posts := [post] + s.posts, overlay := s.overlay.(modal := ModalClosed));
      ShowToast(SwitchTab(s1, "explore", true), "Success", "Moment shared!")
  }

  /** `handleLogout()`: storage is cleared and the flag dropped; the profile in
      memory is kept. */
  function Logout(s: AppState): AppState {
    SwitchTab(s.(storage := Storage(None, None), view := s.view.(isLoggedIn := false)), "explore", true)
  }

  /** `handleEditSave()` with the name and bio fields; the name is stored untrimmed. */
  function EditSave(s: AppState, name: string, bio: string): AppState {
    if Trim(name) == "" then s
    else
      var p := s.view.myProfile.(name := name, bio := bio);
      SwitchTab(s.(view := s.view.(myProfile := p), storage := s.storage.(profile := Some(p))), "profile", true)
  }

  /** `!!state.likedAnimals[id]`. */
  predicate Starred(v: ViewState, id: string) {
    id in v.likedAnimals && v.likedAnimals[id]
  }

  /** `toggleAnimalStar(id)`: only the star button is redrawn, no render. */
  function ToggleStar(s: AppState, id: string): AppState {
    if !s.view.isLoggedIn then PromptLoginPanel(s)
    else s.(view := s.view.(likedAnimals := s.view.likedAnimals[id := !Starred(s.view, id)]))
  }

  /** `submitAnimalComment(id)` with the card's comment field (absent when not
      mounted); only the comment list is redrawn. */
  function SubmitAnimalComment(s: AppState, id: string, input: Option<string>): AppState {
    if !s.view.isLoggedIn then PromptLoginPanel(s)
    else if input.None? || Trim(input.value) == "" then s
    else
      var comments := s.view.animalComments;
      var list := if id in comments then comments[id] else [];
      s.(view := s.view.(animalComments := comments[id := list + [Comment(s.view.myProfile.name, Trim(input.value))]]))
  }

  /** The search field's `oninput`: only the query is kept; the result list is
      a projection of the state. */
  function UpdateSearch(s: AppState, query: string): AppState {
    s.(view := s.view.(searchQuery := query))
  }

  // ---------------------------------------------------------------------
  // Authentication
  // ---------------------------------------------------------------------

  /** The local checks and the request `handleAuthSubmit(mode)` builds from the
      email, password and (signup only) username fields. */
  function AuthRequestFor(mode: string, emailField: string, password: string, usernameField: Option<string>)
    : Result<AuthRequest, string>
  {
    var email := Trim(emailField);
    if !Contains(email, "@") then Err("Invalid email address")
    else if |password| < 6 then Err("Password must be 6+ characters")
    else if mode == "signup" then
      var typed := Trim(usernameField.GetOr(""));
      var username := if typed != "" then typed else BeforeFirst(email, '@');
      Ok(AuthRequest("/api/signup", AuthBody(email, password, Some(username))))
    else Ok(AuthRequest("/api/login", AuthBody(email, password, None)))
  }

  /** `showAuthError(msg)`. */
  function AuthError(s: AppState, message: string): AppState {
    s.(overlay := s.overlay.(authError := Some(message)))
  }

  /** The session after a successful reply: the profile takes the returned name
      and the handle (or the name when the handle is missing or empty), and the
      email sent becomes the stored token. */
  function SignedIn(s: AppState, email: string, username: string, handle: Option<string>): AppState {
    var p := s.view.myProfile.(name := username, handle := OrElse(handle, username), avatarSeed := username);
    s.(view := s.view.(myProfile := p, isLoggedIn := true), storage := Storage(Some(email), Some(p)),
       overlay := s.overlay.(modal := ModalClosed))
  }

  /** The second half of `handleAuthSubmit(mode)`: the request was sent and
      ended as `reply`. */
  function AuthReplied(s: AppState, mode: string, req: AuthRequest, reply: AuthReply): AppState {
    var s1 := s.(authRequests := s.authRequests + [req]);
    match reply
    case NetworkFailure => AuthError(s1, "Something went wrong. Please try again.")
    // an undefined message sets the error text to ""
    case Rejected(m) => AuthError(s1, m.GetOr(""))
    case Accepted(username, handle) =>
      ShowToast(Render(SignedIn(s1, req.body.email, username, handle)),
                "Welcome", if mode == "signup" then "Account created!" else "Logged in!")
  }

  /** `handleAuthSubmit(mode)`, given how the request ended. */
  function AuthSubmit(s: AppState, mode: string, emailField: string, password: string,
                      usernameField: Option<string>, reply: AuthReply): AppState
  {
    match AuthRequestFor(mode, emailField, password, usernameField)
    case Err(msg) => AuthError(s, msg)
    case Ok(req) => AuthReplied(s, mode, req, reply)
  }

  // ---------------------------------------------------------------------
  // All actions
  // ---------------------------------------------------------------------

  datatype Action =
    | SwitchTabTo(tab: string, push: bool)
    | Back
    | PopStateTo(entryTab: Option<string>)
    | ChooseChat(id: int)
    | LoadFinished(data: Option<seq<Animal>>)
    | Like(postId: int)
    | CommentOn(postId: int, input: string)
    | Chat(chatInput: Option<string>, time: string)
    | EditProfileButton
    | Compose
    | Publish(postInput: string, now: int, media: string)
    | LogOut
    | SaveProfile(name: string, bio: string)
    | Star(animalId: string)
    | CommentOnAnimal(animalId: string, animalInput: Option<string>)
    | Search(query: string)
    | Authenticate(mode: string, emailField: string, password: string, usernameField: Option<string>, reply: AuthReply)

  function Step(s: AppState, a: Action): AppState {
    match a
    case SwitchTabTo(tab, push) => SwitchTab(s, tab, push)
    case Back => GoBack(s)
    case PopStateTo(entryTab) => PopState(s, entryTab)
    case ChooseChat(id) => OpenChat(s, id)
    case LoadFinished(data) => AnimalsLoaded(s, data)
    case Like(id) => ToggleLike(s, id)
    case CommentOn(id, input) => SubmitComment(s, id, input)
    case Chat(input, time) => SendChat(s, input, time)
    case EditProfileButton => OpenEditProfile(s)
    case Compose => OpenCompose(s)
    case Publish(input, now, media) => SubmitPost(s, input, now, media)
    case LogOut => Logout(s)
    case SaveProfile(name, bio) => EditSave(s, name, bio)
    case Star(id) => ToggleStar(s, id)
    case CommentOnAnimal(id, input) => SubmitAnimalComment(s, id, input)
    case Search(q) => UpdateSearch(s, q)
    case Authenticate(mode, email, pass, user, reply) => AuthSubmit(s, mode, email, pass, user, reply)
  }

  /** Where the source offers an action: a contact can be chosen only in the
      messages list (the `friends` tab), the "Edit Profile" button only on the
      profile view. */
  predicate Offered(s: AppState, a: Action) {
    && (a.ChooseChat? ==> s.view.activeTab == "friends")
    && (a.EditProfileButton? ==> s.view.activeTab == "profile")
  }
}
