/** The client's tab <-> URL path table and the browser session history it
    drives (frontend/app.js, `TAB_PATHS`, `PATH_TABS`, `history.pushState`,
    `history.replaceState`, `history.back`). */
module Navigation {
  import opened Wrappers

  /** `TAB_PATHS`, in declaration order. */
  const TabPaths: seq<(string, string)> := [
    ("explore", "/"),
    ("adopt", "/adopt"),
    ("search", "/search"),
    ("notifications", "/notifications"),
    ("friends", "/messages"),
    ("profile", "/profile"),
    ("edit-profile", "/edit-profile")
  ]

  /** Property lookup in an object literal given as its entries. */
  function Lookup(entries: seq<(string, string)>, key: string): (r: Option<string>)
    ensures r.Some? <==> exists i :: 0 <= i < |entries| && entries[i].0 == key
    ensures r.Some? ==> exists i :: 0 <= i < |entries| && entries[i] == (key, r.value)
  {
    if entries == [] then None
    else if entries[0].0 == key then Some(entries[0].1)
    else
      var r := Lookup(entries[1..], key);
      assert forall i :: 0 < i < |entries| ==> entries[i] == entries[1..][i - 1];
      r
  }

  /** `Object.fromEntries(entries.map(([k, v]) => [v, k]))`: a later entry
      overwrites an earlier one with the same value. */
  function Invert(entries: seq<(string, string)>): (m: map<string, string>)
    ensures forall v :: v in m <==> exists i :: 0 <= i < |entries| && entries[i].1 == v
  {
    if entries == [] then map[]
    else
      var last := entries[|entries| - 1];
      var m := Invert(entries[..|entries| - 1])[last.1 := last.0];
      assert forall i :: 0 <= i < |entries| - 1 ==> entries[i] == entries[..|entries| - 1][i];
      m
  }

  /** `PATH_TABS`. */
  const PathTabs: map<string, string> := Invert(TabPaths)

  predicate KnownTab(tab: string) {
    Lookup(TabPaths, tab).Some?
  }

  predicate KnownPath(path: string) {
    path in PathTabs
  }

  /** `table[tab] || '/'`. */
  function PathIn(entries: seq<(string, string)>, tab: string): string {
    OrElse(Lookup(entries, tab), "/")
  }

  /** `table[path] || 'explore'`. */
  function TabIn(table: map<string, string>, path: string): string {
    if path in table && table[path] != "" then table[path] else "explore"
  }

  /** `TAB_PATHS[tab] || '/'`. */
  function PathFor(tab: string): string {
    PathIn(TabPaths, tab)
  }

  /** `PATH_TABS[path] || 'explore'`. */
  function TabForPath(path: string): string {
    TabIn(PathTabs, path)
  }

  predicate DistinctKeys(entries: seq<(string, string)>) {
    forall i, j :: 0 <= i < j < |entries| ==> entries[i].0 != entries[j].0
  }

  predicate DistinctValues(entries: seq<(string, string)>) {
    forall i, j :: 0 <= i < j < |entries| ==> entries[i].1 != entries[j].1
  }

  /** With distinct values, inverting an entry list maps each value back to its key. */
  lemma {:induction false} InvertAt(entries: seq<(string, string)>, i: nat)
    requires DistinctValues(entries)
    requires i < |entries|
    ensures entries[i].1 in Invert(entries) && Invert(entries)[entries[i].1] == entries[i].0
  {
    var n := |entries|;
    var init := entries[..n - 1];
    if i < n - 1 {
      assert init[i] == entries[i];
      InvertAt(init, i);
    }
  }

  /** With distinct keys, the lookup of an entry's key finds that entry. */
  lemma {:induction false} LookupAt(entries: seq<(string, string)>, i: nat)
    requires DistinctKeys(entries)
    requires i < |entries|
    ensures Lookup(entries, entries[i].0) == Some(entries[i].1)
  {
    if i > 0 {
      assert entries[1..][i - 1] == entries[i];
      LookupAt(entries[1..], i - 1);
    }
  }

  /** No tab and no path of the table is the empty string, so neither
      `|| '/'` nor `|| 'explore'` falls back for an entry of the table. */
  predicate NonEmptyEntries(entries: seq<(string, string)>) {
    forall i :: 0 <= i < |entries| ==> entries[i].0 != "" && entries[i].1 != ""
  }

  lemma TabPathsDistinct()
    ensures DistinctKeys(TabPaths) && DistinctValues(TabPaths) && NonEmptyEntries(TabPaths)
  {
    // Paths differ in length; keys differ in length or in their first letter.
    var pathLengths := [1, 6, 7, 14, 9, 8, 13];
    var keyCodes := [700 + 'e' as int, 500 + 'a' as int, 600 + 's' as int, 1300 + 'n' as int,
                     700 + 'f' as int, 700 + 'p' as int, 1200 + 'e' as int];
    forall i | 0 <= i < 7
      ensures |TabPaths[i].1| == pathLengths[i]
      ensures |TabPaths[i].0| * 100 + TabPaths[i].0[0] as int == keyCodes[i]
      ensures TabPaths[i].0 != "" && TabPaths[i].1 != ""
    {
    }
    forall i, j | 0 <= i < j < 7
      ensures TabPaths[i].0 != TabPaths[j].0 && TabPaths[i].1 != TabPaths[j].1
    {
      assert pathLengths[i] != pathLengths[j];
      assert keyCodes[i] != keyCodes[j];
    }
  }

  /** In a table with distinct keys and distinct values, the tab of an
      entry's path is the entry's tab and the path of an entry's tab is its path. */
  lemma {:induction false} EntryRoundTrip(entries: seq<(string, string)>, i: nat)
    requires DistinctKeys(entries) && DistinctValues(entries) && NonEmptyEntries(entries)
    requires i < |entries|
    ensures Lookup(entries, entries[i].0).Some? && entries[i].1 in Invert(entries)
    ensures PathIn(entries, entries[i].0) == entries[i].1
    ensures TabIn(Invert(entries), entries[i].1) == entries[i].0
  {
    LookupAt(entries, i);
    InvertAt(entries, i);
    var e := entries[i];
    assert e.0 != "" && e.1 != "";
    assert Invert(entries)[e.1] == e.0;
  }

  /** Every known tab survives the round trip through its path. */
  lemma {:induction false} TabPathRoundTrip(tab: string)
    requires KnownTab(tab)
    ensures KnownPath(PathFor(tab))
    ensures TabForPath(PathFor(tab)) == tab
  {
    TabPathsDistinct();
    var i :| 0 <= i < |TabPaths| && TabPaths[i].0 == tab;
    EntryRoundTrip(TabPaths, i);
  }

  /** Every path of the table survives the round trip through its tab. */
  lemma {:induction false} PathTabRoundTrip(path: string)
    requires KnownPath(path)
    ensures KnownTab(TabForPath(path))
    ensures PathFor(TabForPath(path)) == path
  {
    TabPathsDistinct();
    var i :| 0 <= i < |TabPaths| && TabPaths[i].1 == path;
    EntryRoundTrip(TabPaths, i);
  }

  /** A path outside the table opens the explore tab; a tab outside it maps to `/`. */
  lemma UnknownFallbacks(path: string, tab: string)
    ensures !KnownPath(path) ==> TabForPath(path) == "explore"
    ensures !KnownTab(tab) ==> PathFor(tab) == "/"
  {
  }

  // ---------------------------------------------------------------------
  // Browser session history
  // ---------------------------------------------------------------------

  /** One session-history entry: the state object passed to `pushState`/`replaceState`
      (its `tab` property; `None` for entries the application did not write) and the URL path. */
  datatype HistoryEntry = HistoryEntry(tab: Option<string>, path: string)

  /** The session history: its entries and the index of the current one. */
  datatype History = History(entries: seq<HistoryEntry>, index: nat) {

    predicate Valid() {
      index < |entries|
    }

    function Current(): HistoryEntry
      requires Valid()
    {
      entries[index]
    }

    /** `history.pushState`: forward entries are discarded and the new entry becomes current. */
    function Push(e: HistoryEntry): (h: History)
      ensures h.Valid() && h.Current() == e
      ensures Valid() ==> h.index == index + 1 && h.entries == entries[..index + 1] + [e]
    {
      var keep := if index < |entries| then index + 1 else |entries|;
      History(entries[..keep] + [e], keep)
    }

    /** `history.replaceState`: the current entry is overwritten in place. */
    function Replace(e: HistoryEntry): (h: History)
      requires Valid()
      ensures h.Valid() && h.Current() == e
      ensures h.index == index && |h.entries| == |entries|
      ensures forall i :: 0 <= i < |entries| && i != index ==> h.entries[i] == entries[i]
    {
      History(entries[index := e], index)
    }

    /** `history.back()`: the previous entry becomes current; nothing happens at the first entry. */
    function Back(): (h: History)
      ensures h.entries == entries
      ensures h.index == if index > 0 then index - 1 else index
    {
      if index > 0 then History(entries, index - 1) else this
    }
  }
}
