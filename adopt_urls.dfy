/** `_candidate_adopt_urls` (backend/src/app.py): the pages of a shelter's
    site that may list adoptable animals. Link extraction, `urljoin` and the
    `netloc` of `urlparse` are inputs: the links of the home page in document
    order, and two functions. */
module AdoptUrls {
  import opened Strings

  /** An `<a href=...>` of the home page and its text. */
  datatype Link = Link(href: string, text: string)

  const Keywords: seq<string> := ["adopt", "available", "animal", "pet", "dog", "cat", "foster", "listing"]

  const FallbackPaths: seq<string> :=
    ["/adopt", "/adoptable-pets", "/available-animals", "/animals", "/pets", "/dogs", "/cats"]

  /** The most URLs returned. */
  const MaxUrls := 6

  /** `any(k in combined for k in kw)` on the lower-cased `href + " " + text`. */
  predicate MentionsKeyword(a: Link) {
    var combined := ToLower(a.href + " " + a.text);
    exists i :: 0 <= i < |Keywords| && Contains(combined, Keywords[i])
  }

  predicate NoDuplicates(xs: seq<string>) {
    forall i, j :: 0 <= i < j < |xs| ==> xs[i] != xs[j]
  }

  /** The first loop after the links in `links`: the URLs found and the set
      seen, which starts with the base URL. */
  function KeywordLinks(base: string, links: seq<Link>, join: (string, string) -> string,
                        netloc: string -> string): (r: (seq<string>, set<string>))
    ensures r.1 == {base} + (set u | u in r.0)
    ensures NoDuplicates(r.0) && base !in r.0
    ensures forall u :: u in r.0 ==> netloc(u) == netloc(base)
  {
    if links == [] then ([], {base})
    else
      var (found, seen) := KeywordLinks(base, links[..|links| - 1], join, netloc);
      var a := links[|links| - 1];
      var full := join(base, a.href);
      if MentionsKeyword(a) && netloc(full) == netloc(base) && full !in seen then
        (found + [full], seen + {full})
      else (found, seen)
  }

  /** The second loop after the paths in `paths`: each joined path not seen
      is appended. The loop does not add to `seen`. */
  function Fallbacks(base: string, found: seq<string>, seen: set<string>, paths: seq<string>,
                     join: (string, string) -> string): seq<string>
  {
    if paths == [] then found
    else
      var before := Fallbacks(base, found, seen, paths[..|paths| - 1], join);
      var full := join(base, paths[|paths| - 1]);
      if full !in seen then before + [full] else before
  }

  /** What `_candidate_adopt_urls(base_url, home_soup)` returns. */
  function CandidateUrls(base: string, links: seq<Link>, join: (string, string) -> string,
                         netloc: string -> string): seq<string>
  {
    var (found, seen) := KeywordLinks(base, links, join, netloc);
    Take(Fallbacks(base, found, seen, FallbackPaths, join), MaxUrls)
  }

  method CandidateAdoptUrls(base: string, links: seq<Link>, join: (string, string) -> string,
                            netloc: string -> string) returns (r: seq<string>)
    ensures r == CandidateUrls(base, links, join, netloc)
  {
    var baseDomain := netloc(base);
    var found: seq<string> := [];
    var seen: set<string> := {base};
    var i := 0;
    while i < |links|
      invariant 0 <= i <= |links|
      invariant (found, seen) == KeywordLinks(base, links[..i], join, netloc)
    {
      assert links[..i + 1][..i] == links[..i];
      var a := links[i];
      if MentionsKeyword(a) {
        var full := join(base, a.href);
        if netloc(full) == baseDomain && full !in seen {
          seen := seen + {full};
          found := found + [full];
        }
      }
      i := i + 1;
    }
    assert links[..i] == links;
    ghost var keywordFound := found;
    var j := 0;
    while j < |FallbackPaths|
      invariant 0 <= j <= |FallbackPaths|
      invariant found == Fallbacks(base, keywordFound, seen, FallbackPaths[..j], join)
    {
      assert FallbackPaths[..j + 1][..j] == FallbackPaths[..j];
      var full := join(base, FallbackPaths[j]);
      if full !in seen {
        found := found + [full];
      }
      j := j + 1;
    }
    assert FallbackPaths[..j] == FallbackPaths;
    r := Take(found, MaxUrls);
  }

  // ---------------------------------------------------------------------
  // Properties
  // ---------------------------------------------------------------------

  /** The fallback loop keeps what was found as a prefix and appends joined
      paths, none of them seen. */
  lemma {:induction false} FallbacksShape(base: string, found: seq<string>, seen: set<string>,
                                          paths: seq<string>, join: (string, string) -> string)
    ensures var r := Fallbacks(base, found, seen, paths, join);
      && |found| <= |r| <= |found| + |paths| && r[..|found|] == found
      && (forall k :: |found| <= k < |r| ==> r[k] !in seen)
      && (forall k :: |found| <= k < |r| ==> exists p :: p in paths && r[k] == join(base, p))
  {
    if paths != [] {
      var init := paths[..|paths| - 1];
      FallbacksShape(base, found, seen, init, join);
      var before := Fallbacks(base, found, seen, init, join);
      assert forall p :: p in init ==> p in paths;
      var r := Fallbacks(base, found, seen, paths, join);
      if r != before {
        assert r == before + [join(base, paths[|paths| - 1])];
        assert r[..|found|] == before[..|found|];
      }
    }
  }

  /** Every same-domain keyword link whose URL is not the base URL is found,
      and only such links are. */
  lemma {:induction false} KeywordLinksComplete(base: string, links: seq<Link>,
                                                join: (string, string) -> string, netloc: string -> string)
    ensures var found := KeywordLinks(base, links, join, netloc).0;
      forall u :: u in found <==> exists i :: (0 <= i < |links| && MentionsKeyword(links[i])
        && u == join(base, links[i].href) && netloc(u) == netloc(base) && u != base)
  {
    if links != [] {
      var init := links[..|links| - 1];
      KeywordLinksComplete(base, init, join, netloc);
      assert forall i :: 0 <= i < |init| ==> init[i] == links[i];
    }
  }

  /** `idx` gives, for each URL found, the index of the link it was joined
      from; the indices increase, so the URLs keep document order. */
  predicate PickedInOrder(base: string, links: seq<Link>, join: (string, string) -> string,
                          found: seq<string>, idx: seq<nat>) {
    && |idx| == |found|
    && (forall a, b :: 0 <= a < b < |idx| ==> idx[a] < idx[b])
    && (forall k :: 0 <= k < |idx| ==>
          idx[k] < |links| && MentionsKeyword(links[idx[k]]) && found[k] == join(base, links[idx[k]].href))
  }

  /** The keyword links are found in document order: each URL comes from a
      keyword link later than the one the URL before it came from. */
  lemma {:induction false} KeywordLinksInOrder(base: string, links: seq<Link>,
                                               join: (string, string) -> string, netloc: string -> string)
    ensures exists idx :: PickedInOrder(base, links, join, KeywordLinks(base, links, join, netloc).0, idx)
  {
    if links == [] {
      assert PickedInOrder(base, links, join, KeywordLinks(base, links, join, netloc).0, []);
    } else {
      var n := |links| - 1;
      var init := links[..n];
      KeywordLinksInOrder(base, init, join, netloc);
      var before := KeywordLinks(base, init, join, netloc).0;
      var idx: seq<nat> :| PickedInOrder(base, init, join, before, idx);
      assert forall i :: 0 <= i < n ==> init[i] == links[i];
      var found := KeywordLinks(base, links, join, netloc).0;
      if found == before {
        assert PickedInOrder(base, links, join, found, idx);
      } else {
        assert found == before + [join(base, links[n].href)];
        var idx': seq<nat> := idx + [n];
        assert PickedInOrder(base, links, join, found, idx');
      }
    }
  }

  /** At most six URLs, never the base URL; the keyword links come first, and
      the rest are joined fallback paths. */
  lemma CandidateUrlsShape(base: string, links: seq<Link>, join: (string, string) -> string,
                           netloc: string -> string)
    ensures var r := CandidateUrls(base, links, join, netloc);
      var found := KeywordLinks(base, links, join, netloc).0;
      && |r| <= MaxUrls
      && base !in r
      && (|found| <= MaxUrls ==> |found| <= |r| && r[..|found|] == found)
      && (|found| > MaxUrls ==> r == found[..MaxUrls])
      && (forall k :: |found| <= k < |r| ==> exists p :: p in FallbackPaths && r[k] == join(base, p))
  {
    var (found, seen) := KeywordLinks(base, links, join, netloc);
    FallbacksShape(base, found, seen, FallbackPaths, join);
    var all := Fallbacks(base, found, seen, FallbackPaths, join);
    var r := Take(all, MaxUrls);
    assert forall k :: 0 <= k < |r| ==> r[k] == all[k];
    if |found| <= MaxUrls {
      assert r[..|found|] == all[..|found|];
    } else {
      assert r == all[..MaxUrls] == found[..MaxUrls];
    }
  }

  /** No URL is returned twice when the fallback paths join to distinct URLs
      (the fallback loop checks `seen` but does not add to it). */
  lemma CandidateUrlsDistinct(base: string, links: seq<Link>, join: (string, string) -> string,
                              netloc: string -> string)
    requires forall a, b :: 0 <= a < b < |FallbackPaths| ==> join(base, FallbackPaths[a]) != join(base, FallbackPaths[b])
    ensures NoDuplicates(CandidateUrls(base, links, join, netloc))
  {
    var (found, seen) := KeywordLinks(base, links, join, netloc);
    FallbacksDistinct(base, found, seen, FallbackPaths, join);
    var all := Fallbacks(base, found, seen, FallbackPaths, join);
    var r := Take(all, MaxUrls);
    assert forall k :: 0 <= k < |r| ==> r[k] == all[k];
  }

  lemma {:induction false} FallbacksDistinct(base: string, found: seq<string>, seen: set<string>,
                                             paths: seq<string>, join: (string, string) -> string)
    requires NoDuplicates(found) && forall u :: u in found ==> u in seen
    requires forall a, b :: 0 <= a < b < |paths| ==> join(base, paths[a]) != join(base, paths[b])
    ensures var r := Fallbacks(base, found, seen, paths, join);
      NoDuplicates(r) && forall k :: |found| <= k < |r| ==> exists a :: 0 <= a < |paths| && r[k] == join(base, paths[a])
  {
    if paths != [] {
      var n := |paths| - 1;
      var init := paths[..n];
      FallbacksDistinct(base, found, seen, init, join);
      FallbacksShape(base, found, seen, init, join);
      var before := Fallbacks(base, found, seen, init, join);
      var full := join(base, paths[n]);
      if full !in seen {
        forall k | 0 <= k < |before|
          ensures before[k] != full
        {
          if k >= |found| {
            var a :| 0 <= a < n && before[k] == join(base, init[a]);
            assert init[a] == paths[a];
          }
        }
      }
      forall k | |found| <= k < |Fallbacks(base, found, seen, paths, join)|
        ensures exists a :: 0 <= a < |paths| && Fallbacks(base, found, seen, paths, join)[k] == join(base, paths[a])
      {
        if k < |before| {
          var a :| 0 <= a < n && before[k] == join(base, init[a]);
          assert init[a] == paths[a];
        } else {
          assert Fallbacks(base, found, seen, paths, join)[k] == full;
        }
      }
    }
  }
}
