/** Request handling of backend/src/app.py outside the account rules: the
    client address of `get_user_location`, the voice choice of
    `generate_animal_speech` and the shelter posts of `nearby_posts`. */
module Routes {
  import opened Wrappers
  import opened Strings
  import opened Feed

  // ---------------------------------------------------------------------
  // get_user_location: the client address
  // ---------------------------------------------------------------------

  /** `headers.get("X-Forwarded-For", remote_addr)`, cut at the first comma
      and stripped when it holds one. */
  function ClientIp(forwardedFor: Option<string>, remoteAddr: string): string {
    var ip := forwardedFor.GetOr(remoteAddr);
    if ',' in ip then Strip(BeforeFirst(ip, ',')) else ip
  }

  /** Without a header the remote address is used; a value without a comma is
      used as it is; otherwise the result is the first hop, stripped. */
  lemma ClientIpCases(forwardedFor: Option<string>, remoteAddr: string)
    ensures forwardedFor.None? && ',' !in remoteAddr ==> ClientIp(forwardedFor, remoteAddr) == remoteAddr
    ensures forwardedFor.Some? && ',' !in forwardedFor.value ==> ClientIp(forwardedFor, remoteAddr) == forwardedFor.value
    ensures forall first, rest :: (forwardedFor == Some(first + "," + rest) && ',' !in first
      ==> ClientIp(forwardedFor, remoteAddr) == Strip(first))
  {
    forall first, rest | forwardedFor == Some(first + "," + rest) && ',' !in first
      ensures ClientIp(forwardedFor, remoteAddr) == Strip(first)
    {
      assert first + "," + rest == first + [','] + rest;
      BeforeFirstOfConcat(first, ',', rest);
      assert (first + "," + rest)[|first|] == ',';
    }
  }

  /** Whatever the header, a first hop cut from a list holds no comma and has
      no surrounding whitespace. */
  lemma ClientIpFirstHop(forwardedFor: Option<string>, remoteAddr: string)
    requires ',' in forwardedFor.GetOr(remoteAddr)
    ensures var ip := ClientIp(forwardedFor, remoteAddr);
      ',' !in ip && (ip == [] || (!IsPySpace(ip[0]) && !IsPySpace(ip[|ip| - 1])))
  {
    var b := BeforeFirst(forwardedFor.GetOr(remoteAddr), ',');
    TrimBySpec(b, IsPySpace);
    var k := TrimStart(b, IsPySpace);
    var ip := Strip(b);
    forall i | 0 <= i < |ip|
      ensures ip[i] != ','
    {
      assert ip[i] == b[k + i];
    }
  }

  // ---------------------------------------------------------------------
  // generate_animal_speech: the voice
  // ---------------------------------------------------------------------

  /** `VOICE_IDS`. */
  const VoiceIds: map<string, string> := map["male" := "pNInz6obpgDQGcFmaJgB", "female" := "21m00Tcm4TlvDq8ikWAM"]

  /** A speech request that passed the checks: the gender used and its voice. */
  datatype Voice = Voice(gender: string, voiceId: string)

  /** The checks of `generate_animal_speech` before the text-to-speech call:
      400 without text; a gender outside `VOICE_IDS` becomes `male`. */
  function SpeechVoice(text: Option<string>, gender: Option<string>): Result<Voice, (int, string)> {
    var g := ToLower(OrElse(gender, "male"));
    if !Truthy(text) then Err((400, "Missing text"))
    else
      var chosen := if g in VoiceIds then g else "male";
      Ok(Voice(chosen, VoiceIds[chosen]))
  }

  /** Missing or empty text is refused; otherwise the voice is always one of
      the two known ones, `female` exactly when the gender lower-cases to
      `female`, and `male` for anything else, including no gender. */
  lemma SpeechVoiceCases(text: Option<string>, gender: Option<string>)
    ensures SpeechVoice(text, gender).Err? <==> !Truthy(text)
    ensures !Truthy(text) ==> SpeechVoice(text, gender) == Err((400, "Missing text"))
    ensures Truthy(text) ==> var v := SpeechVoice(text, gender).value;
      && v.gender in VoiceIds && v.voiceId == VoiceIds[v.gender]
      && (v.gender == "female" <==> Truthy(gender) && ToLower(gender.value) == "female")
      && (v.gender == "male" <==> !(Truthy(gender) && ToLower(gender.value) == "female"))
  {
    ToLowerIdempotent("male");
  }

  // ---------------------------------------------------------------------
  // nearby_posts: Overpass elements to feed posts
  // ---------------------------------------------------------------------

  /** An Overpass element, with its `tags` (an element without tags has none). */
  datatype Element = Element(tags: map<string, string>)

  const MaxNearby := 10

  /** `d.get(key, default)` on a tag map. */
  function Tag(tags: map<string, string>, key: string, default: string): string {
    if key in tags then tags[key] else default
  }

  /** The post for the element at index `i`. */
  function ShelterPost(i: nat, e: Element, city: string): Post {
    var name := Tag(e.tags, "name", "Local Animal Shelter");
    Post(i + 1, name, true, Tag(e.tags, "website", ""),
         name + " is an animal shelter near " + city + ". Visit us to find your next companion!",
         "", 0, city, [])
  }

  /** The posts of `nearby_posts` for the first ten elements. */
  function NearbyPostsOf(elements: seq<Element>, city: string): (r: seq<Post>)
    ensures |r| == if |elements| < MaxNearby then |elements| else MaxNearby
  {
    var n := if |elements| < MaxNearby then |elements| else MaxNearby;
    seq(n, i requires 0 <= i < n => ShelterPost(i, elements[i], city))
  }

  /** The loop of `nearby_posts` over `enumerate(elements[:10])`. */
  method NearbyPosts(elements: seq<Element>, city: string) returns (result: seq<Post>)
    ensures result == NearbyPostsOf(elements, city)
  {
    var firstTen := if |elements| < MaxNearby then elements else elements[..MaxNearby];
    result := [];
    for i := 0 to |firstTen|
      invariant result == seq(i, k requires 0 <= k < i => ShelterPost(k, firstTen[k], city))
    {
      result := result + [ShelterPost(i, firstTen[i], city)];
    }
  }

  /** At most ten posts, numbered 1, 2, ... in element order; each is a
      shelter post with no likes, no comments and no media, located in the
      city, named after the element or `Local Animal Shelter`. */
  lemma NearbyPostsShape(elements: seq<Element>, city: string)
    ensures var r := NearbyPostsOf(elements, city);
      && |r| <= MaxNearby && |r| <= |elements| && (|elements| >= MaxNearby ==> |r| == MaxNearby)
      && forall i :: 0 <= i < |r| ==>
        && r[i].id == i + 1 && r[i].isShelter && r[i].likes == 0 && r[i].comments == []
        && r[i].media == "" && r[i].location == city
        && r[i].website == (if "website" in elements[i].tags then elements[i].tags["website"] else "")
        && r[i].poster == (if "name" in elements[i].tags then elements[i].tags["name"] else "Local Animal Shelter")
        && r[i].text == r[i].poster + " is an animal shelter near " + city + ". Visit us to find your next companion!"
  {
  }

  /** The ids are distinct, so every post can be found by its id. */
  lemma NearbyPostsFindable(elements: seq<Element>, city: string, i: nat)
    requires i < |NearbyPostsOf(elements, city)|
    ensures FindPost(NearbyPostsOf(elements, city), i + 1) == Some(i)
  {
    var r := NearbyPostsOf(elements, city);
    var f := FindPost(r, i + 1);
    assert r[i].id == i + 1;
    assert f.Some? && r[f.value].id == f.value + 1;
  }
}
