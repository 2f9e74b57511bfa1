/** Feed posts as the client keeps them (frontend/app.js `posts`) and as the
    server's nearby-shelter endpoint produces them (backend/src/app.py). */
module Feed {
  import opened Wrappers

  datatype Comment = Comment(user: string, text: string)

  /** A post record. `isShelter` and `website` are absent on personal posts;
      absence is written `false` and `""`, which is how the client reads them. */
  datatype Post = Post(
    id: int,
    poster: string,
    isShelter: bool,
    website: string,
    text: string,
    media: string,
    likes: int,
    location: string,
    comments: seq<Comment>)

  /** `posts.find(p => p.id === id)`, as an index: the first post with that id. */
  function FindPost(posts: seq<Post>, id: int): (r: Option<nat>)
    ensures r.Some? ==> r.value < |posts| && posts[r.value].id == id
    ensures r.Some? ==> forall j :: 0 <= j < r.value ==> posts[j].id != id
    ensures r.None? ==> forall j :: 0 <= j < |posts| ==> posts[j].id != id
  {
    if posts == [] then None
    else if posts[0].id == id then Some(0)
    else match FindPost(posts[1..], id)
      case None => None
      case Some(k) => Some(k + 1)
  }
}
