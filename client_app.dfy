/** The client as the source runs it: one object whose fields are the global
    `state`, the module-level collections and the browser's history and
    storage, with one method per handler of frontend/app.js that updates those
    fields in place. Each method is proved to move the object exactly as the
    corresponding transition of ClientState moves the state value, so every
    property proved in ClientProps holds of the object. */
module ClientApp {
  import opened Wrappers
  import opened Strings
  import opened Feed
  import opened Navigation
  import CS = ClientState
  import Props = ClientProps

  class App {
    /** The global `state` object. */
    var state: CS.ViewState
    var posts: seq<Post>
    var chatHistory: map<Option<int>, seq<CS.ChatMessage>>
    var animals: seq<CS.Animal>
    var animalsLoaded: bool
    var animalFetches: nat
    var history: History
    var storage: CS.Storage
    var overlay: CS.Overlay
    var authRequests: seq<CS.AuthRequest>

    /** The media URL a new post gets (the two sides of the source's unresolved
        merge disagree on it). */
    const newPostMedia: string

    /** The object's fields as one state value. */
    function Snapshot(): CS.AppState
      reads this
    {
      CS.AppState(state, posts, chatHistory, animals, animalsLoaded, animalFetches,
                  history, storage, overlay, authRequests)
    }

    predicate Valid()
      reads this
    {
      CS.Valid(Snapshot())
    }

    /** Script start and `DOMContentLoaded`, given the two storage keys and the
        history the page was opened with. */
    constructor (token: Option<string>, profile: Option<CS.Profile>, start: History, media: string)
      requires start.Valid()
      ensures Snapshot() == CS.Initial(token, profile, start)
      ensures newPostMedia == media
      ensures Valid()
    {
      state := CS.InitialView(token, profile);
      posts := CS.InitialPosts;
      chatHistory := CS.InitialChats;
      animals := [];
      animalsLoaded := false;
      animalFetches := 0;
      history := start;
      storage := CS.Storage(token, profile);
      overlay := CS.Overlay(CS.ModalClosed, CS.PanelClosed, None, []);
      authRequests := [];
      newPostMedia := media;
      new;
      var path := history.Current().path;
      var tab := TabForPath(path);
      state := state.(activeTab := tab);
      history := history.Replace(HistoryEntry(Some(tab), path));
      Render();
    }

    /** `renderApp()`: starts the animal fetch while the explore tab waits for it. */
    method Render()
      modifies this
      ensures Snapshot() == CS.Render(old(Snapshot()))
    {
      if state.isLoggedIn && state.activeTab == "explore" && !animalsLoaded {
        animalFetches := animalFetches + 1;
      }
    }

    method SwitchTab(tab: string, push: bool)
      modifies this
      ensures Snapshot() == CS.SwitchTab(old(Snapshot()), tab, push)
    {
      state := state.(activeTab := tab, activeChatId := None);
      if push {
        history := history.Push(HistoryEntry(Some(tab), PathFor(tab)));
      }
      Render();
    }

    /** The `popstate` listener. */
    method PopState(entryTab: Option<string>)
      modifies this
      ensures Snapshot() == CS.PopState(old(Snapshot()), entryTab)
    {
      state := state.(activeTab := OrElse(entryTab, "explore"), activeChatId := None);
      Render();
    }

    method GoBack()
      modifies this
      ensures Snapshot() == CS.GoBack(old(Snapshot()))
    {
      if state.activeChatId.Some? && state.activeChatId.value != 0 {
        state := state.(activeChatId := None);
        Render();
      } else if 0 < history.index < |history.entries| {
        history := history.Back();
        PopState(history.Current().tab);
      }
    }

    /** A click on a contact. */
    method OpenChat(id: int)
      modifies this
      ensures Snapshot() == CS.OpenChat(old(Snapshot()), id)
    {
      state := state.(activeChatId := Some(id));
      Render();
    }

    /** The end of `loadAnimals()`. */
    method AnimalsLoaded(data: Option<seq<CS.Animal>>)
      modifies this
      ensures Snapshot() == CS.AnimalsLoaded(old(Snapshot()), data)
    {
      if data.Some? && |data.value| > 0 {
        animals := data.value;
      }
      animalsLoaded := true;
      Render();
    }

    /** `openLoginModal()`. */
    method PromptLogin()
      modifies this
      ensures Snapshot() == CS.PromptLogin(old(Snapshot()))
    {
      overlay := overlay.(modal := CS.LoginModal(false));
    }

    /** `openLoginPanel()`. */
    method PromptLoginPanel()
      modifies this
      ensures Snapshot() == CS.PromptLoginPanel(old(Snapshot()))
    {
      overlay := overlay.(loginPanel := CS.PanelOpen(false));
    }

    /** `showToast(title, message)`. */
    method ShowToast(title: string, message: string)
      modifies this
      ensures Snapshot() == CS.ShowToast(old(Snapshot()), title, message)
    {
      overlay := overlay.(toasts := overlay.toasts + [CS.Toast(title, message)]);
    }

    method ToggleLike(postId: int)
      modifies this
      ensures Snapshot() == CS.ToggleLike(old(Snapshot()), postId)
    {
      if !state.isLoggedIn {
        PromptLogin();
        return;
      }
      var wasLiked := postId in state.likedPosts;
      state := state.(likedPosts := CS.FlipLiked(state.likedPosts, postId));
      var found := FindPost(posts, postId);
      if found.None? {
        return;
      }
      var i := found.value;
      posts := posts[i := posts[i].(likes := posts[i].likes + if wasLiked then -1 else 1)];
      Render();
    }

    method SubmitComment(postId: int, input: string)
      modifies this
      ensures Snapshot() == CS.SubmitComment(old(Snapshot()), postId, input)
    {
      if !state.isLoggedIn {
        PromptLogin();
        return;
      }
      var text := Trim(input);
      if text == "" {
        return;
      }
      var found := FindPost(posts, postId);
      if found.None? {
        return;
      }
      var i := found.value;
      posts := posts[i := posts[i].(comments := posts[i].comments + [Comment(state.myProfile.name, text)])];
      Render();
    }

    method SendChat(input: Option<string>, time: string)
      modifies this
      ensures Snapshot() == CS.SendChat(old(Snapshot()), input, time)
    {
      if !state.isLoggedIn {
        PromptLogin();
        return;
      }
      if input.None? || Trim(input.value) == "" {
        return;
      }
      var key := state.activeChatId;
      var transcript := if key in chatHistory then chatHistory[key] else [];
      chatHistory := chatHistory[key := transcript + [CS.ChatMessage(CS.Me, Trim(input.value), time)]];
      Render();
    }

    /** The profile view's "Edit Profile" button. */
    method OpenEditProfile()
      modifies this
      ensures Snapshot() == CS.OpenEditProfile(old(Snapshot()))
    {
      state := state.(activeTab := "edit-profile");
      Render();
    }

    method OpenCompose()
      modifies this
      ensures Snapshot() == CS.OpenCompose(old(Snapshot()))
    {
      if !state.isLoggedIn {
        PromptLogin();
      } else {
        overlay := overlay.(modal := CS.ComposeModal);
      }
    }

    /** `handlePostSubmit()`, with `Date.now()` as `now`. */
    method SubmitPost(input: string, now: int)
      modifies this
      ensures Snapshot() == CS.SubmitPost(old(Snapshot()), input, now, newPostMedia)
    {
      var text := Trim(input);
      if text == "" {
        ShowToast("Error", "Content cannot be empty");
        return;
      }
      var post := Post(now, state.myProfile.name, false, "", text, newPostMedia, 0, "Local", []);
      posts := [post] + posts;
      overlay := overlay.(modal := CS.ModalClosed);
      SwitchTab("explore", true);
      ShowToast("Success", "Moment shared!");
    }

    method Logout()
      modifies this
      ensures Snapshot() == CS.Logout(old(Snapshot()))
    {
      storage := CS.Storage(None, None);
      state := state.(isLoggedIn := false);
      SwitchTab("explore", true);
    }

    method EditSave(name: string, bio: string)
      modifies this
      ensures Snapshot() == CS.EditSave(old(Snapshot()), name, bio)
    {
      if Trim(name) == "" {
        return;
      }
      var p := state.myProfile.(name := name, bio := bio);
      state := state.(myProfile := p);
      storage := storage.(profile := Some(p));
      SwitchTab("profile", true);
    }

    method ToggleStar(id: string)
      modifies this
      ensures Snapshot() == CS.ToggleStar(old(Snapshot()), id)
    {
      if !state.isLoggedIn {
        PromptLoginPanel();
        return;
      }
      var nowLiked := !(id in state.likedAnimals && state.likedAnimals[id]);
      state := state.(likedAnimals := state.likedAnimals[id := nowLiked]);
    }

    method SubmitAnimalComment(id: string, input: Option<string>)
      modifies this
      ensures Snapshot() == CS.SubmitAnimalComment(old(Snapshot()), id, input)
    {
      if !state.isLoggedIn {
        PromptLoginPanel();
        return;
      }
      if input.None? || Trim(input.value) == "" {
        return;
      }
      var comments := state.animalComments;
      var list := if id in comments then comments[id] else [];
      state := state.(animalComments := comments[id := list + [Comment(state.myProfile.name, Trim(input.value))]]);
    }

    method UpdateSearch(query: string)
      modifies this
      ensures Snapshot() == CS.UpdateSearch(old(Snapshot()), query)
    {
      state := state.(searchQuery := query);
    }

    /** `showAuthError(message)`. */
    method AuthError(message: string)
      modifies this
      ensures Snapshot() == CS.AuthError(old(Snapshot()), message)
    {
      overlay := overlay.(authError := Some(message));
    }

    /** The second half of `handleAuthSubmit(mode)`: `req` was sent and ended as `reply`. */
    method AuthReplied(mode: string, req: CS.AuthRequest, reply: CS.AuthReply)
      modifies this
      ensures Snapshot() == CS.AuthReplied(old(Snapshot()), mode, req, reply)
    {
      authRequests := authRequests + [req];
      match reply
      case NetworkFailure =>
        AuthError("Something went wrong. Please try again.");
      case Rejected(m) =>
        AuthError(m.GetOr(""));
      case Accepted(username, handle) =>
        var p := state.myProfile.(name := username, handle := OrElse(handle, username), avatarSeed := username);
        state := state.(myProfile := p, isLoggedIn := true);
        storage := CS.Storage(Some(req.body.email), Some(p));
        overlay := overlay.(modal := CS.ModalClosed);
        Render();
        ShowToast("Welcome", if mode == "signup" then "Account created!" else "Logged in!");
    }

    /** `handleAuthSubmit(mode)`, given how the request ended. */
    method AuthSubmit(mode: string, emailField: string, password: string, usernameField: Option<string>, reply: CS.AuthReply)
      modifies this
      ensures Snapshot() == CS.AuthSubmit(old(Snapshot()), mode, emailField, password, usernameField, reply)
    {
      var req := CS.AuthRequestFor(mode, emailField, password, usernameField);
      if req.Err? {
        AuthError(req.error);
      } else {
        AuthReplied(mode, req.value, reply);
      }
    }

    /** Any action the interface offers keeps the object valid. A post is
        published with this build's media. */
    method Dispatch(a: CS.Action)
      requires Valid() && CS.Offered(Snapshot(), a)
      requires a.Publish? ==> a.media == newPostMedia
      modifies this
      ensures Snapshot() == CS.Step(old(Snapshot()), a)
      ensures Valid()
    {
      ghost var s := Snapshot();
      match a {
        case SwitchTabTo(tab, push) => SwitchTab(tab, push);
        case Back => GoBack();
        case PopStateTo(entryTab) => PopState(entryTab);
        case ChooseChat(id) => OpenChat(id);
        case LoadFinished(data) => AnimalsLoaded(data);
        case Like(id) => ToggleLike(id);
        case CommentOn(id, input) => SubmitComment(id, input);
        case Chat(input, time) => SendChat(input, time);
        case EditProfileButton => OpenEditProfile();
        case Compose => OpenCompose();
        case Publish(input, now, media) => SubmitPost(input, now);
        case LogOut => Logout();
        case SaveProfile(name, bio) => EditSave(name, bio);
        case Star(id) => ToggleStar(id);
        case CommentOnAnimal(id, input) => SubmitAnimalComment(id, input);
        case Search(q) => UpdateSearch(q);
        case Authenticate(mode, email, pass, user, reply) =>
          AuthSubmit(mode, email, pass, user, reply);
      }
      Props.StepPreservesValid(s, a);
    }
  }
}
